/**
 * The wrapper closure: what one call to an instrumented method does.
 * A call is described by the trace of hook and function invocations it
 * makes and by how it completes.  The original functions are opaque: a
 * `Behaviour` gives, for a function identity, a receiver and an argument
 * list, whether it returns or throws, and what.
 */
module Dispatch {
  import opened Values

  datatype Completion = Return(value: Value) | Throw(error: Value)

  datatype Event =
      /** `before.apply(self, args)` */
    | Before(hook: Hook, self: Value, args: seq<Value>)
      /** `after.apply(self, args)` */
    | After(hook: Hook, self: Value, args: seq<Value>)
      /** the body of program function `fn` runs with receiver `self` on `args` */
    | Call(fn: nat, self: Value, args: seq<Value>)

  datatype Run = Run(trace: seq<Event>, result: Completion)

  type Behaviour = (nat, Value, seq<Value>) -> Completion

  /** The argument list the asynchronous path passes on: the last slot holds the shim. */
  function ShimArgs(b: Binding, key: string, args: seq<Value>): (s: seq<Value>)
    requires |args| > 0
    ensures |s| == |args| && s[..|args| - 1] == args[..|args| - 1]
    ensures var shim := s[|args| - 1];
            && shim.Shim? && shim.after == b.after
            && shim.fullArgs == Header(b.name, key) + args
            && shim.callback == args[|args| - 1]
    ensures Callable(args[|args| - 1]) ==> Callable(s[|args| - 1]) && Installed(s[|args| - 1])
  {
    args[..|args| - 1] + [Shim(b.after, Header(b.name, key) + args, args[|args| - 1])]
  }

  /** The asynchronous path is taken when it is enabled and the last argument is a function. */
  predicate AsyncPath(b: Binding, args: seq<Value>): (p: bool)
    ensures p <==> b.async && |args| > 0 && Callable(args[|args| - 1])
  {
    b.async && Callable(Tail(args))
  }

  /**
   * Calling value `f` with receiver `self` and arguments `args`.  Calling
   * something that is not a function throws (a `TypeError`, whose value is
   * not modelled) before anything runs.
   */
  function Invoke(f: Value, self: Value, args: seq<Value>, run: Behaviour): (r: Run)
    ensures Callable(f) ==> |r.trace| > 0
    ensures !Callable(f) && !f.Wrapper? && !f.Shim? ==> r.trace == [] && r.result.Throw?
    ensures f.Fn? ==> r.trace == [Call(f.id, self, args)] && r.result == run(f.id, self, args)
    ensures f.Wrapper? ==> |r.trace| > 0 && r.trace[0] == Before(f.binding.before, self, Header(f.binding.name, f.key) + args)
    ensures f.Wrapper? && !AsyncPath(f.binding, args) && r.result.Return?
            ==> r.trace[|r.trace| - 1] == After(f.binding.after, self, Concat(Header(f.binding.name, f.key) + args, r.result.value))
    ensures f.Shim? ==> |r.trace| > 0 && r.trace[0] == After(f.after, self, f.fullArgs + args)
    ensures f.Shim? && r.result.Return? ==> r.result.value == Undefined
    decreases f
  {
    match f
    case Fn(id) => Run([Call(id, self, args)], run(id, self, args))
    case Wrapper(b, key, inner) =>
      var full := Header(b.name, key) + args;
      if AsyncPath(b, args) then
        var r := Invoke(inner, self, ShimArgs(b, key, args), run);
        Run([Before(b.before, self, full)] + r.trace, r.result)
      else
        var r := Invoke(inner, self, args, run);
        if r.result.Throw? then Run([Before(b.before, self, full)] + r.trace, r.result)
        else Run([Before(b.before, self, full)] + r.trace + [After(b.after, self, Concat(full, r.result.value))], r.result)
    case Shim(after, full, callback) =>
      var r := Invoke(callback, self, args, run);
      Run([After(after, self, full + args)] + r.trace, if r.result.Throw? then r.result else Return(Undefined))
    case _ => Run([], Throw(Undefined))
  }

  /**
   * The wrapper body step by step: copy `arguments`, fire `before`, and
   * either put the shim in the last slot and call through, or call
   * through and fire `after` with the return value appended.
   */
  method CallWrapper(b: Binding, key: string, inner: Value, self: Value, arguments: seq<Value>, run: Behaviour)
    returns (r: Run)
    requires Callable(inner)
    ensures r == Invoke(Wrapper(b, key, inner), self, arguments, run)
  {
    var args := new Value[|arguments|];
    for i := 0 to |arguments|
      invariant args[..i] == arguments[..i]
    {
      args[i] := arguments[i];
    }
    assert args[..] == arguments;
    var full := Header(b.name, key) + args[..];
    var callback := Tail(args[..]);
    if b.async && Callable(callback) {
      args[args.Length - 1] := Shim(b.after, full, callback);
      assert args[..] == ShimArgs(b, key, arguments);
      var inner' := Invoke(inner, self, args[..], run);
      r := Run([Before(b.before, self, full)] + inner'.trace, inner'.result);
    } else {
      var inner' := Invoke(inner, self, args[..], run);
      if inner'.result.Throw? {
        r := Run([Before(b.before, self, full)] + inner'.trace, inner'.result);
      } else {
        var ret := inner'.result.value;
        r := Run([Before(b.before, self, full)] + inner'.trace + [After(b.after, self, Concat(full, ret))], inner'.result);
      }
    }
  }

  /** The shim body: copy its arguments, fire `after`, then forward them to the callback. */
  method CallShim(after: Hook, full: seq<Value>, callback: Value, self: Value, arguments: seq<Value>, run: Behaviour)
    returns (r: Run)
    requires Callable(callback)
    ensures r == Invoke(Shim(after, full, callback), self, arguments, run)
  {
    var callbackArgs := [];
    var i := 0;
    while i < |arguments|
      invariant 0 <= i <= |arguments|
      invariant callbackArgs == arguments[..i]
    {
      callbackArgs := callbackArgs + [arguments[i]];
      i := i + 1;
    }
    assert callbackArgs == arguments;
    var c := Invoke(callback, self, callbackArgs, run);
    r := Run([After(after, self, full + callbackArgs)] + c.trace, if c.result.Throw? then c.result else Return(Undefined));
  }

  function Repeat(e: Event, n: nat): (s: seq<Event>)
    ensures |s| == n && forall i :: 0 <= i < n ==> s[i] == e
  {
    if n == 0 then [] else [e] + Repeat(e, n - 1)
  }

  /**
   * A synchronous call through `n` wrappers of one binding around program
   * function `id`: `n` before-hooks with `[name, key] ++ args`, the
   * original once with the same receiver and the unchanged arguments, then
   * -- unless it threw -- `n` after-hooks with its return value appended;
   * the result is the original's.
   */
  lemma {:induction false} SyncCall(b: Binding, key: string, id: nat, n: nat, self: Value, args: seq<Value>, run: Behaviour)
    requires !AsyncPath(b, args)
    ensures var r := Invoke(Nest(b, key, Fn(id), n), self, args, run);
            var full := Header(b.name, key) + args;
            var c := run(id, self, args);
            && r.result == c
            && r.trace == Repeat(Before(b.before, self, full), n) + [Call(id, self, args)]
                          + (if c.Return? then Repeat(After(b.after, self, Concat(full, c.value)), n) else [])
    decreases n
  {
    if n > 0 {
      SyncCall(b, key, id, n - 1, self, args, run);
      var full := Header(b.name, key) + args;
      var c := run(id, self, args);
      var before := Before(b.before, self, full);
      var befores := Repeat(before, n - 1) + [Call(id, self, args)];
      assert [before] + befores == Repeat(before, n) + [Call(id, self, args)];
      if c.Return? {
        var a := After(b.after, self, Concat(full, c.value));
        assert Repeat(a, n - 1) + [a] == Repeat(a, n);
        assert [before] + (befores + Repeat(a, n - 1)) + [a] == ([before] + befores) + (Repeat(a, n - 1) + [a]);
      }
    }
  }

  /**
   * The asynchronous path around program function `id`: `before` fires,
   * the original receives an argument list of the same length that differs
   * only in its last slot, and the wrapper returns what the original
   * returns; `after` does not fire during the call.
   */
  lemma AsyncCall(b: Binding, key: string, id: nat, self: Value, args: seq<Value>, run: Behaviour)
    requires AsyncPath(b, args)
    ensures |args| > 0
    ensures var shimmed := ShimArgs(b, key, args);
            var r := Invoke(Wrapper(b, key, Fn(id)), self, args, run);
            && |shimmed| == |args|
            && shimmed[..|args| - 1] == args[..|args| - 1]
            && shimmed[|args| - 1] != args[|args| - 1]
            && r.trace == [Before(b.before, self, Header(b.name, key) + args), Call(id, self, shimmed)]
            && r.result == run(id, self, shimmed)
  {
  }

  /**
   * The original sees exactly the caller's arguments if and only if the
   * synchronous path is taken.
   */
  lemma OriginalSeesCallerArgs(b: Binding, key: string, id: nat, self: Value, args: seq<Value>, run: Behaviour)
    ensures |Invoke(Wrapper(b, key, Fn(id)), self, args, run).trace| >= 2
    ensures Invoke(Wrapper(b, key, Fn(id)), self, args, run).trace[1] == Call(id, self, args)
            <==> !AsyncPath(b, args)
  {
  }

  /**
   * Completing an asynchronous call: each time the shim passed to the
   * original is invoked with `cbArgs` (by whatever receiver), `after`
   * fires once with `[name, key] ++ args ++ cbArgs` -- `args` still
   * holding the caller's callback -- and only then does the caller's
   * callback run, with `cbArgs` unchanged.
   */
  lemma CallbackCompletion(b: Binding, key: string, args: seq<Value>, self': Value, cbArgs: seq<Value>, run: Behaviour)
    requires AsyncPath(b, args)
    ensures |args| > 0
    ensures var shim := ShimArgs(b, key, args)[|args| - 1];
            var callback := args[|args| - 1];
            var full := Header(b.name, key) + args;
            && Callable(shim) && Callable(callback)
            && full[|full| - 1] == callback
            && var r := Invoke(shim, self', cbArgs, run);
               var c := Invoke(callback, self', cbArgs, run);
               && r.trace == [After(b.after, self', full + cbArgs)] + c.trace
               && r.result == (if c.result.Throw? then c.result else Return(Undefined))
  {
  }

  /**
   * The argument list the original receives through `n` wrappers of one
   * binding on the asynchronous path: each wrapper puts its own shim in
   * the last slot, around the one it was given.
   */
  function Shimmed(b: Binding, key: string, args: seq<Value>, n: nat): (s: seq<Value>)
    requires AsyncPath(b, args)
    ensures |s| == |args| && s[..|args| - 1] == args[..|args| - 1]
    ensures AsyncPath(b, s)
    decreases n
  {
    if n == 0 then args else Shimmed(b, key, ShimArgs(b, key, args), n - 1)
  }

  /** The before-hooks of `n` wrappers on the asynchronous path, outermost first. */
  function AsyncBefores(b: Binding, key: string, self: Value, args: seq<Value>, n: nat): (s: seq<Event>)
    requires AsyncPath(b, args)
    ensures |s| == n
    ensures forall i :: 0 <= i < n ==> s[i].Before? && s[i].hook == b.before && s[i].self == self
    ensures n > 0 ==> s[0] == Before(b.before, self, Header(b.name, key) + args)
    decreases n
  {
    if n == 0 then []
    else [Before(b.before, self, Header(b.name, key) + args)] + AsyncBefores(b, key, self, ShimArgs(b, key, args), n - 1)
  }

  /**
   * The after-hooks the shims of `n` wrappers fire when the innermost
   * shim is called with `cbArgs`: innermost first, the outermost one --
   * which still holds the caller's callback -- last.
   */
  function ShimAfters(b: Binding, key: string, self: Value, args: seq<Value>, cbArgs: seq<Value>, n: nat): (s: seq<Event>)
    requires AsyncPath(b, args)
    ensures |s| == n
    ensures forall i :: 0 <= i < n ==> s[i].After? && s[i].hook == b.after && s[i].self == self
    ensures n > 0 ==> s[n - 1] == After(b.after, self, Header(b.name, key) + args + cbArgs)
    decreases n
  {
    if n == 0 then []
    else ShimAfters(b, key, self, ShimArgs(b, key, args), cbArgs, n - 1) + [After(b.after, self, Header(b.name, key) + args + cbArgs)]
  }

  /**
   * An asynchronous call through `n` wrappers around program function
   * `id`: `n` before-hooks fire, each seeing the argument list as the
   * wrapper outside it left it, then the original runs once on a list
   * that differs from the caller's only in its last slot; no after-hook
   * fires and the result is the original's.
   */
  lemma {:induction false} AsyncNestCall(b: Binding, key: string, id: nat, n: nat, self: Value, args: seq<Value>, run: Behaviour)
    requires AsyncPath(b, args)
    ensures var s := Shimmed(b, key, args, n);
            var r := Invoke(Nest(b, key, Fn(id), n), self, args, run);
            && r.trace == AsyncBefores(b, key, self, args, n) + [Call(id, self, s)]
            && r.result == run(id, self, s)
    decreases n
  {
    if n > 0 {
      var shimmed := ShimArgs(b, key, args);
      AsyncNestCall(b, key, id, n - 1, self, shimmed, run);
      var before := Before(b.before, self, Header(b.name, key) + args);
      var inner := Invoke(Nest(b, key, Fn(id), n - 1), self, shimmed, run);
      assert Invoke(Nest(b, key, Fn(id), n), self, args, run) == Run([before] + inner.trace, inner.result);
    }
  }

  /**
   * Completing an asynchronous call through `n` wrappers: calling the shim
   * the original received fires `n` after-hooks, innermost first, and only
   * then runs the caller's callback on `cbArgs`; with at least one wrapper
   * the result is undefined unless the callback throws.
   */
  lemma {:induction false} AsyncNestCompletion(b: Binding, key: string, n: nat, args: seq<Value>, self': Value, cbArgs: seq<Value>, run: Behaviour)
    requires AsyncPath(b, args)
    ensures var s := Shimmed(b, key, args, n);
            var shim := s[|s| - 1];
            var c := Invoke(args[|args| - 1], self', cbArgs, run);
            var r := Invoke(shim, self', cbArgs, run);
            && Callable(shim)
            && r.trace == ShimAfters(b, key, self', args, cbArgs, n) + c.trace
            && r.result == (if n == 0 || c.result.Throw? then c.result else Return(Undefined))
    decreases n
  {
    if n > 0 {
      var shimmed := ShimArgs(b, key, args);
      AsyncNestCompletion(b, key, n - 1, shimmed, self', cbArgs, run);
      var cb := args[|args| - 1];
      var c := Invoke(cb, self', cbArgs, run);
      var a := After(b.after, self', Header(b.name, key) + args + cbArgs);
      var rest := ShimAfters(b, key, self', shimmed, cbArgs, n - 1);
      assert shimmed[|shimmed| - 1] == Shim(b.after, Header(b.name, key) + args, cb);
      assert (rest + [a]) + c.trace == rest + ([a] + c.trace);
    }
  }

  /**
   * A key wrapped twice (listed by both the prototype and the object) on
   * the asynchronous path: the inner before-hook sees the outer wrapper's
   * shim where the caller passed the callback, and completion fires the
   * inner wrapper's after-hook, then the outer one's, then the callback.
   */
  lemma TwiceWrappedAsync(b: Binding, key: string, id: nat, cb: Value, self: Value, self': Value, cbArgs: seq<Value>, run: Behaviour)
    requires b.async && Callable(cb)
    ensures var h := Header(b.name, key);
            var s1 := Shim(b.after, h + [cb], cb);
            var s2 := Shim(b.after, h + [s1], s1);
            && Invoke(Nest(b, key, Fn(id), 2), self, [cb], run).trace
               == [Before(b.before, self, h + [cb]), Before(b.before, self, h + [s1]), Call(id, self, [s2])]
            && Invoke(s2, self', cbArgs, run).trace
               == [After(b.after, self', h + [s1] + cbArgs), After(b.after, self', h + [cb] + cbArgs)] + Invoke(cb, self', cbArgs, run).trace
  {
    var h := Header(b.name, key);
    var s1 := Shim(b.after, h + [cb], cb);
    var s2 := Shim(b.after, h + [s1], s1);
    assert ShimArgs(b, key, [cb]) == [s1];
    assert ShimArgs(b, key, [s1]) == [s2];
    AsyncNestCall(b, key, id, 2, self, [cb], run);
    AsyncNestCompletion(b, key, 2, [cb], self', cbArgs, run);
    assert Shimmed(b, key, [cb], 2) == [s2];
    assert AsyncBefores(b, key, self, [cb], 2) == [Before(b.before, self, h + [cb]), Before(b.before, self, h + [s1])];
    assert ShimAfters(b, key, self', [cb], cbArgs, 2) == [After(b.after, self', h + [s1] + cbArgs), After(b.after, self', h + [cb] + cbArgs)];
  }
}
