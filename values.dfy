/**
 * The JavaScript values the interception layer handles: ordinary data,
 * the original functions of an instrumented object (opaque, known by an
 * identity), the wrapper closures it installs, and the shims it puts in
 * place of completion callbacks.
 */
module Values {

  /** A before/after hook: the no-op, the default stopwatch pair, or a caller's function. */
  datatype Hook = Noop | Time | TimeEnd | User(id: nat)

  /** What one bind call shares with every wrapper it creates. */
  datatype Binding = Binding(name: string, before: Hook, after: Hook, async: bool)

  datatype Value =
    | Undefined
    | Null
    | Bool(b: bool)
    | Num(n: int)
    | Str(s: string)
    | Arr(elems: seq<Value>)
    | Obj(id: nat)
      /** A function of the program (not installed by the layer). */
    | Fn(id: nat)
      /** The closure that replaced property `key`, around the previous value `inner`. */
    | Wrapper(binding: Binding, key: string, inner: Value)
      /** The stand-in for a completion callback in the asynchronous path. */
    | Shim(after: Hook, fullArgs: seq<Value>, callback: Value)

  /**
   * `typeof v === 'function'`.  A closure of the layer counts as a function
   * when the function it encloses does: in JavaScript every closure is a
   * function, and the two agree because the layer only ever wraps
   * functions (see `Installed` and `ClosuresAreFunctions`).
   */
  predicate Callable(v: Value): (c: bool)
    ensures c ==> v.Fn? || v.Wrapper? || v.Shim?
    ensures v.Fn? ==> c
  {
    match v
    case Fn(_) => true
    case Wrapper(_, _, inner) => Callable(inner)
    case Shim(_, _, callback) => Callable(callback)
    case _ => false
  }

  /** The values the layer can produce: a wrapper or shim encloses a function. */
  predicate Installed(v: Value) {
    match v
    case Wrapper(_, _, inner) => Callable(inner)
    case Shim(_, _, callback) => Callable(callback)
    case _ => true
  }

  /** On the values the layer produces, `Callable` is exactly "a function or a closure". */
  lemma ClosuresAreFunctions(v: Value)
    requires Installed(v)
    ensures Callable(v) <==> v.Fn? || v.Wrapper? || v.Shim?
  {
  }

  /** The last element of an argument list, or undefined for an empty one. */
  function Tail(args: seq<Value>): (v: Value)
    ensures |args| == 0 ==> v == Undefined
    ensures |args| > 0 ==> v == args[|args| - 1]
  {
    if |args| > 0 then args[|args| - 1] else Undefined
  }

  /** `[name, key]`, the leading arguments every hook receives. */
  function Header(name: string, key: string): seq<Value> {
    [Str(name), Str(key)]
  }

  /** `list.concat(v)`: an array argument is spread one level, anything else appended. */
  function Concat(list: seq<Value>, v: Value): (r: seq<Value>)
    ensures |list| <= |r| && r[..|list|] == list
    ensures v.Arr? ==> r[|list|..] == v.elems
    ensures !v.Arr? ==> r[|list|..] == [v]
  {
    if v.Arr? then list + v.elems else list + [v]
  }

  /** `v` after `n` visits of the same bind loop to property `key`: `n` wrappers deep. */
  function Nest(b: Binding, key: string, v: Value, n: nat): (w: Value)
    ensures Callable(w) == Callable(v)
    ensures Installed(v) && Callable(v) ==> Installed(w)
    ensures n > 0 ==> w.Wrapper? && w.binding == b && w.key == key
    decreases n
  {
    if n == 0 then v else Wrapper(b, key, Nest(b, key, v, n - 1))
  }
}
