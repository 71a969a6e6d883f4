/**
 * The binder: `gander(object, options)` picks the hooks, allocates the
 * instance name, lists the prototype's keys followed by the object's own
 * keys, and replaces every function-valued, non-ignored property it visits
 * by a wrapper, in place.
 */
module Binder {
  import opened Opt
  import opened Values
  import opened Dispatch
  import Naming

  /** The options the binder reads; an absent `ignore` is the empty list. */
  datatype Options = Options(
    name: Option<string>,
    unique: bool,
    before: Option<nat>,
    after: Option<nat>,
    async: bool,
    ignore: seq<string>)

  /**
   * The hook pair: the stopwatch pair only when neither hook is given;
   * a missing one of the two becomes the no-op.
   */
  function SelectHooks(o: Options): (h: (Hook, Hook))
    ensures h.0 == Time <==> o.before.None? && o.after.None?
    ensures h.1 == TimeEnd <==> o.before.None? && o.after.None?
    ensures o.before.Some? ==> h.0 == User(o.before.value)
    ensures o.after.Some? ==> h.1 == User(o.after.value)
    ensures h.0 == Noop <==> o.before.None? && o.after.Some?
    ensures h.1 == Noop <==> o.after.None? && o.before.Some?
  {
    var before := if o.before.Some? then User(o.before.value) else Noop;
    var after := if o.after.Some? then User(o.after.value) else Noop;
    if o.before.None? && o.after.None? then (Time, TimeEnd) else (before, after)
  }

  /** The keys never wrapped: the caller's list, then `constructor`. */
  function IgnoreList(ignore: seq<string>): (l: seq<string>)
    ensures forall k :: k in l <==> k in ignore || k == "constructor"
  {
    ignore + ["constructor"]
  }

  /** An object's own properties and the order in which they enumerate. */
  datatype Own = Own(values: map<string, Value>, order: seq<string>)

  ghost predicate WellFormed(o: Own) {
    && (forall i :: 0 <= i < |o.order| ==> o.order[i] in o.values)
    && (forall k :: k in o.values ==> k in o.order)
    && (forall i, j :: 0 <= i < j < |o.order| ==> o.order[i] != o.order[j])
  }

  /** `object[key]`: an own property, else the prototype's, else undefined. */
  function Lookup(own: map<string, Value>, proto: map<string, Value>, key: string): (v: Value)
    ensures key in own ==> v == own[key]
    ensures key !in own && key in proto ==> v == proto[key]
    ensures key !in own && key !in proto ==> v == Undefined
  {
    if key in own then own[key] else if key in proto then proto[key] else Undefined
  }

  /** `object[key] = v`: a new own property enumerates after the existing ones. */
  function Assign(o: Own, key: string, v: Value): (o': Own)
    ensures WellFormed(o) ==> WellFormed(o')
    ensures o'.values == o.values[key := v]
  {
    Own(o.values[key := v], if key in o.values then o.order else o.order + [key])
  }

  /** One visit of the bind loop to `key`. */
  function Visit(o: Own, proto: map<string, Value>, ignore: seq<string>, b: Binding, key: string): (o': Own)
    ensures o'.values.Keys == o.values.Keys || o'.values.Keys == o.values.Keys + {key}
    ensures forall k :: k in o.values && k != key ==> o'.values[k] == o.values[k]
  {
    var v := Lookup(o.values, proto, key);
    if Callable(v) && key !in ignore then Assign(o, key, Wrapper(b, key, v)) else o
  }

  /** The own properties after the bind loop has visited `keys` in order. */
  function BindAll(o: Own, proto: map<string, Value>, ignore: seq<string>, b: Binding, keys: seq<string>): (o': Own)
    ensures o.values.Keys <= o'.values.Keys
    decreases |keys|
  {
    if keys == [] then o
    else Visit(BindAll(o, proto, ignore, b, keys[..|keys| - 1]), proto, ignore, b, keys[|keys| - 1])
  }

  /**
   * What binding does to one key.  A function-valued key that is not
   * ignored ends up as many wrappers deep as it occurs in the key list (a
   * key listed by both the prototype and the object is wrapped twice), and
   * becomes an own property if it is listed at all; every other key keeps
   * its value and its ownership.
   */
  lemma {:induction false} BindAllEffect(o: Own, proto: map<string, Value>, ignore: seq<string>, b: Binding, keys: seq<string>, k: string)
    ensures var v := Lookup(o.values, proto, k);
            var o' := BindAll(o, proto, ignore, b, keys);
            var wrapped := Callable(v) && k !in ignore;
            && Lookup(o'.values, proto, k) == (if wrapped then Nest(b, k, v, multiset(keys)[k]) else v)
            && (k in o'.values <==> k in o.values || (wrapped && k in keys))
    decreases |keys|
  {
    if keys != [] {
      var init, last := keys[..|keys| - 1], keys[|keys| - 1];
      BindAllEffect(o, proto, ignore, b, init, k);
      assert keys == init + [last];
      assert multiset(keys)[k] == multiset(init)[k] + (if last == k then 1 else 0);
      assert k in keys <==> k in init || k == last;
      VisitEffect(BindAll(o, proto, ignore, b, init), proto, ignore, b, last, k);
    }
  }

  /** One visit wraps the visited key once, if it holds a function and is not ignored, and touches nothing else. */
  lemma VisitEffect(o: Own, proto: map<string, Value>, ignore: seq<string>, b: Binding, key: string, k: string)
    ensures var v := Lookup(o.values, proto, k);
            var o' := Visit(o, proto, ignore, b, key);
            var wrapped := k == key && Callable(v) && k !in ignore;
            && Lookup(o'.values, proto, k) == (if wrapped then Wrapper(b, k, v) else v)
            && (k in o'.values <==> k in o.values || wrapped)
  {
  }

  /**
   * After binding, every listed key whose value was a function and that is
   * not ignored holds, as an own property, a wrapper carrying this bind's
   * name, hooks and mode and its own key.
   */
  lemma ListedFunctionsWrapped(o: Own, proto: map<string, Value>, ignore: seq<string>, b: Binding, keys: seq<string>, k: string)
    requires k in keys && k !in ignore && Callable(Lookup(o.values, proto, k))
    ensures var o' := BindAll(o, proto, ignore, b, keys);
            && k in o'.values
            && o'.values[k].Wrapper?
            && o'.values[k].binding == b
            && o'.values[k].key == k
  {
    BindAllEffect(o, proto, ignore, b, keys, k);
  }

  /** A function key listed once and not ignored holds a single wrapper around its old value. */
  lemma WrappedOnce(o: Own, proto: map<string, Value>, ignore: seq<string>, b: Binding, keys: seq<string>, k: string)
    requires k !in ignore && Callable(Lookup(o.values, proto, k)) && multiset(keys)[k] == 1
    ensures var o' := BindAll(o, proto, ignore, b, keys);
            k in o'.values && o'.values[k] == Wrapper(b, k, Lookup(o.values, proto, k))
  {
    BindAllEffect(o, proto, ignore, b, keys, k);
  }

  /**
   * Ignored keys, keys outside the list and keys whose value is not a
   * function are left exactly as they were.
   */
  lemma {:induction false} OthersUnchanged(o: Own, proto: map<string, Value>, ignore: seq<string>, b: Binding, keys: seq<string>, k: string)
    requires k in ignore || k !in keys || !Callable(Lookup(o.values, proto, k))
    ensures var o' := BindAll(o, proto, ignore, b, keys);
            && (k in o'.values <==> k in o.values)
            && (k in o.values ==> o'.values[k] == o.values[k])
  {
    BindAllEffect(o, proto, ignore, b, keys, k);
    if k !in ignore && Callable(Lookup(o.values, proto, k)) {
      assert multiset(keys)[k] == 0;
    }
  }

  /** Calling an ignored program function after binding fires no hook. */
  lemma {:induction false} IgnoredCallFiresNoHooks(o: Own, proto: map<string, Value>, ignore: seq<string>, b: Binding, keys: seq<string>,
                                                   k: string, id: nat, self: Value, args: seq<Value>, run: Behaviour)
    requires k in ignore && Lookup(o.values, proto, k) == Fn(id)
    ensures var v := Lookup(BindAll(o, proto, ignore, b, keys).values, proto, k);
            && Callable(v)
            && Invoke(v, self, args, run) == Run([Call(id, self, args)], run(id, self, args))
  {
    BindAllEffect(o, proto, ignore, b, keys, k);
  }

  /**
   * Calling a bound program function synchronously: the hooks fire once
   * for every time its key occurs in the key list -- twice for a key the
   * prototype and the object both list -- around one call of the original.
   */
  lemma BoundSyncCall(o: Own, proto: map<string, Value>, ignore: seq<string>, b: Binding, keys: seq<string>,
                      k: string, id: nat, self: Value, args: seq<Value>, run: Behaviour)
    requires k !in ignore && Lookup(o.values, proto, k) == Fn(id) && !AsyncPath(b, args)
    ensures var v := Lookup(BindAll(o, proto, ignore, b, keys).values, proto, k);
            var n := multiset(keys)[k];
            var full := Header(b.name, k) + args;
            var c := run(id, self, args);
            && Callable(v)
            && Invoke(v, self, args, run)
               == Run(Repeat(Before(b.before, self, full), n) + [Call(id, self, args)]
                      + (if c.Return? then Repeat(After(b.after, self, Concat(full, c.value)), n) else []), c)
  {
    BindAllEffect(o, proto, ignore, b, keys, k);
    SyncCall(b, k, id, multiset(keys)[k], self, args, run);
  }

  /**
   * Calling a bound program function on the asynchronous path: before
   * fires once per occurrence of its key in the key list, the original
   * runs once on a list whose last slot holds the innermost shim, and
   * calling that shim later fires after as many times, innermost first,
   * before the caller's callback runs.
   */
  lemma BoundAsyncCall(o: Own, proto: map<string, Value>, ignore: seq<string>, b: Binding, keys: seq<string>,
                       k: string, id: nat, self: Value, args: seq<Value>, self': Value, cbArgs: seq<Value>, run: Behaviour)
    requires k !in ignore && Lookup(o.values, proto, k) == Fn(id) && AsyncPath(b, args)
    ensures var v := Lookup(BindAll(o, proto, ignore, b, keys).values, proto, k);
            var n := multiset(keys)[k];
            var s := Shimmed(b, k, args, n);
            var c := Invoke(args[|args| - 1], self', cbArgs, run);
            var done := Invoke(s[|s| - 1], self', cbArgs, run);
            && Callable(v)
            && Invoke(v, self, args, run) == Run(AsyncBefores(b, k, self, args, n) + [Call(id, self, s)], run(id, self, s))
            && done.trace == ShimAfters(b, k, self', args, cbArgs, n) + c.trace
  {
    BindAllEffect(o, proto, ignore, b, keys, k);
    AsyncNestCall(b, k, id, multiset(keys)[k], self, args, run);
    AsyncNestCompletion(b, k, multiset(keys)[k], args, self', cbArgs, run);
  }

  /** The object being instrumented, with its direct prototype. */
  class Target {
    var values: map<string, Value>
    var order: seq<string>
    const proto: map<string, Value>
    /** `Object.keys(proto)`: the prototype's enumerable keys. */
    const protoOrder: seq<string>

    ghost predicate Valid()
      reads this
    {
      && WellFormed(Own(values, order))
      && (forall i :: 0 <= i < |protoOrder| ==> protoOrder[i] in proto)
    }

    function State(): Own
      reads this
    {
      Own(values, order)
    }

    constructor (values: map<string, Value>, order: seq<string>, proto: map<string, Value>, protoOrder: seq<string>)
      requires WellFormed(Own(values, order))
      requires forall i :: 0 <= i < |protoOrder| ==> protoOrder[i] in proto
      ensures Valid()
      ensures this.values == values && this.order == order
      ensures this.proto == proto && this.protoOrder == protoOrder
    {
      this.values := values;
      this.order := order;
      this.proto := proto;
      this.protoOrder := protoOrder;
    }

    /** `this[key] = v`. */
    method Put(key: string, v: Value)
      requires Valid()
      modifies this
      ensures Valid()
      ensures State() == Assign(old(State()), key, v)
    {
      if key !in values {
        order := order + [key];
      }
      values := values[key := v];
    }
  }

  /** The configuration one bind call gives its wrappers, at counter value `counter`. */
  function BindingOf(o: Options, counter: nat): Binding {
    var hooks := SelectHooks(o);
    Binding(Naming.Allocate(counter, o.name, o.unique).0, hooks.0, hooks.1, o.async)
  }

  /**
   * `gander(object, options)`: the counter advances as the allocator says,
   * and the object's own properties become those of the bind loop over
   * the prototype's keys followed by the object's own keys.
   */
  method Gander(target: Target, opts: Options, namer: Naming.Namer)
    requires target.Valid()
    modifies target, namer
    ensures target.Valid()
    ensures namer.counter == Naming.Allocate(old(namer.counter), opts.name, opts.unique).1
    ensures target.State() == BindAll(old(target.State()), target.proto, IgnoreList(opts.ignore),
                                      BindingOf(opts, old(namer.counter)), target.protoOrder + old(target.order))
  {
    var name := namer.GetName(opts.name, opts.unique);
    var hooks := SelectHooks(opts);
    var b := Binding(name, hooks.0, hooks.1, opts.async);
    var ignore := IgnoreList(opts.ignore);
    var keys := target.protoOrder + target.order;
    for i := 0 to |keys|
      modifies target
      invariant target.Valid()
      invariant target.State() == BindAll(old(target.State()), target.proto, ignore, b, keys[..i])
    {
      var key := keys[i];
      ghost var visited := Visit(target.State(), target.proto, ignore, b, key);
      assert keys[..i + 1][..i] == keys[..i];
      assert BindAll(old(target.State()), target.proto, ignore, b, keys[..i + 1]) == visited;
      var v := Lookup(target.values, target.proto, key);
      if Callable(v) && key !in ignore {
        target.Put(key, Wrapper(b, key, v));
      }
      assert target.State() == visited;
    }
    assert keys[..|keys|] == keys;
  }
}
