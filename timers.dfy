/**
 * The default stopwatch hooks: `time` records a start stamp under a key
 * made of its first two arguments, `timeEnd` reads and deletes the stamp
 * under the same key.  Stamps are opaque (the clock is the caller's).
 */
module Timers {
  import opened Opt
  import opened Values
  import Decimal

  function IntText(n: int): string {
    if n < 0 then "-" + Decimal.Text(-n) else Decimal.Text(n)
  }

  /** `parts.join(sep)`. */
  function Join(parts: seq<string>, sep: string): (r: string)
    ensures |parts| == 0 ==> r == ""
    ensures |parts| == 1 ==> r == parts[0]
    ensures |parts| > 1 ==> |parts[0] + sep| <= |r| && r[..|parts[0] + sep|] == parts[0] + sep
    decreases |parts|
  {
    if |parts| == 0 then "" else if |parts| == 1 then parts[0] else parts[0] + sep + Join(parts[1..], sep)
  }

  /**
   * The text `Array.prototype.join` uses for an element: undefined and
   * null are empty, an array is its elements joined with commas.
   */
  function ElementText(v: Value): (r: string)
    ensures v.Undefined? || v.Null? ==> r == ""
    ensures v.Str? ==> r == v.s
    ensures v.Arr? && |v.elems| == 0 ==> r == ""
    ensures v.Arr? && |v.elems| == 1 ==> r == ElementText(v.elems[0])
    decreases v
  {
    match v
    case Undefined => ""
    case Null => ""
    case Bool(b) => if b then "true" else "false"
    case Num(n) => IntText(n)
    case Str(s) => s
    case Arr(elems) => Join(seq(|elems|, i requires 0 <= i < |elems| => ElementText(elems[i])), ",")
    case Obj(_) => "[object Object]"
    case _ => "function"
  }

  function Texts(vs: seq<Value>): seq<string> {
    seq(|vs|, i requires 0 <= i < |vs| => ElementText(vs[i]))
  }

  /** The registry key: the first (at most) two arguments joined with a dot. */
  function TimerKey(args: seq<Value>): (r: string)
    ensures |args| == 0 ==> r == ""
    ensures |args| == 1 ==> r == ElementText(args[0])
    ensures |args| >= 2 ==> r == ElementText(args[0]) + "." + ElementText(args[1])
  {
    var parts := Texts(args[..if |args| < 2 then |args| else 2]);
    assert |parts| == 2 ==> parts[1..] == [parts[1]];
    Join(parts, ".")
  }

  /** Hooks receive `[name, key] ++ …`, so their timer key is `name.key` whatever follows. */
  lemma HookKey(name: string, key: string, rest: seq<Value>)
    ensures TimerKey(Header(name, key) + rest) == name + "." + key
  {
    var parts := Texts((Header(name, key) + rest)[..2]);
    assert parts == [name, key];
    assert Join(parts[1..], ".") == key;
  }

  /**
   * The before- and after-hook calls of one wrapper call, synchronous or
   * completed through the shim, use the same timer key.
   */
  lemma BeforeAndAfterShareKey(name: string, key: string, args: seq<Value>, tail: seq<Value>)
    ensures TimerKey(Header(name, key) + args) == TimerKey(Header(name, key) + args + tail) == name + "." + key
  {
    HookKey(name, key, args);
    assert Header(name, key) + args + tail == Header(name, key) + (args + tail);
    HookKey(name, key, args + tail);
  }

  /** `_times`, the start stamps of calls in flight. */
  class Registry<S> {
    var times: map<string, S>

    constructor ()
      ensures times == map[]
    {
      times := map[];
    }

    /** `time(...)`: the stamp is recorded under the key, replacing any earlier one. */
    method Time(args: seq<Value>, now: S)
      modifies this
      ensures times == old(times)[TimerKey(args) := now]
      ensures forall k :: k in old(times) && k != TimerKey(args) ==> k in times && times[k] == old(times)[k]
    {
      var key := KeyOf(args);
      times := times[key := now];
    }

    /**
     * `timeEnd(...)`: the stamp under the key (none if there is none) is
     * read and the key removed; every other entry stays.
     */
    method TimeEnd(args: seq<Value>) returns (start: Option<S>)
      modifies this
      ensures start == (if TimerKey(args) in old(times) then Some(old(times)[TimerKey(args)]) else None)
      ensures times == old(times) - {TimerKey(args)}
      ensures forall k :: k in old(times) && k != TimerKey(args) ==> k in times && times[k] == old(times)[k]
    {
      var key := KeyOf(args);
      start := if key in times then Some(times[key]) else None;
      var rest := times - {key};
      assert forall k :: k in times && k != key ==> k in rest && rest[k] == times[k];
      times := rest;
    }
  }

  /** The key computation both hooks share: copy up to two arguments, then join them. */
  method KeyOf(arguments: seq<Value>) returns (key: string)
    ensures key == TimerKey(arguments)
  {
    var n := if |arguments| < 2 then |arguments| else 2;
    var args: seq<Value> := [];
    var i := 0;
    while i < n
      invariant 0 <= i <= n
      invariant args == arguments[..i]
    {
      args := args + [arguments[i]];
      i := i + 1;
    }
    key := Join(Texts(args), ".");
  }

  /**
   * Two overlapping calls to the same method of the same instance: the
   * second start overwrites the first, the first end consumes it, and the
   * second end finds nothing.
   */
  method OverlappingCalls<S>(name: string, key: string, first: S, second: S)
    returns (firstEnd: Option<S>, secondEnd: Option<S>)
    ensures firstEnd == Some(second) && secondEnd == None
  {
    var r := new Registry<S>();
    r.Time(Header(name, key), first);
    r.Time(Header(name, key), second);
    firstEnd := r.TimeEnd(Header(name, key));
    secondEnd := r.TimeEnd(Header(name, key));
  }
}
