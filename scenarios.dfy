/**
 * The five tests of test.js:9-88 replayed on the model, plus the promise
 * test's call (test.js:107-122): an object is built, bound with `Gander`,
 * and one of its methods called.  The logger and promise tests pass
 * options that gander.js never reads; the logger test's `t.done()` sits in
 * the never-called `logger`, so that test cannot finish and is not replayed.
 * Program functions: 0 is TestObject's constructor, 1 its `after`
 * method, 2 its `jump`, 3 `triple`, 4 `fooAsync`, 5 `noop`, 6 `identity`,
 * 7 `fooPromise`;
 * hooks supplied by the tests are User(10) and above.
 */
module Scenarios {
  import opened Opt
  import opened Values
  import opened Dispatch
  import opened Binder
  import Naming
  import Decimal

  /** `gander({key: fn}, options)` on a fresh object with one own function, then `object[key]`. */
  method BindOne(key: string, id: nat, opts: Options, namer: Naming.Namer) returns (w: Value)
    requires key !in IgnoreList(opts.ignore)
    modifies namer
    ensures namer.counter == Naming.Allocate(old(namer.counter), opts.name, opts.unique).1
    ensures w == Wrapper(BindingOf(opts, old(namer.counter)), key, Fn(id))
  {
    var obj := new Target(map[key := Fn(id)], [key], map[], []);
    ghost var before := obj.State();
    ghost var counter := namer.counter;
    Gander(obj, opts, namer);
    assert obj.protoOrder + before.order == [key];
    WrappedOnce(before, obj.proto, IgnoreList(opts.ignore), BindingOf(opts, counter), obj.protoOrder + before.order, key);
    w := obj.values[key];
  }

  /** `jump(5)` through a synchronous wrapper named `object1`, when the original returns 10. */
  lemma JumpCall(self: Value, run: Behaviour)
    requires run(2, self, [Num(5)]) == Return(Num(10))
    ensures Invoke(Wrapper(Binding("object1", User(10), User(11), false), "jump", Fn(2)), self, [Num(5)], run)
         == Run([Before(User(10), self, [Str("object1"), Str("jump"), Num(5)]),
                 Call(2, self, [Num(5)]),
                 After(User(11), self, [Str("object1"), Str("jump"), Num(5), Num(10)])],
                Return(Num(10)))
  {
    var b := Binding("object1", User(10), User(11), false);
    SyncCall(b, "jump", 2, 1, self, [Num(5)], run);
    var full := Header("object1", "jump") + [Num(5)];
    assert full == [Str("object1"), Str("jump"), Num(5)];
    assert Concat(full, Num(10)) == [Str("object1"), Str("jump"), Num(5), Num(10)];
    assert Repeat(Before(User(10), self, full), 1) == [Before(User(10), self, full)];
    assert Repeat(After(User(11), self, Concat(full, Num(10))), 1) == [After(User(11), self, Concat(full, Num(10)))];
  }

  /**
   * Bound as `object1` with both hooks, `jump(5)` of a TestObject (which
   * doubles) fires `before('object1', 'jump', 5)`, runs the original on 5,
   * fires `after('object1', 'jump', 5, 10)` and returns 10.
   */
  method BeforeAfter(self: Value, run: Behaviour) returns (r: Run)
    requires run(2, self, [Num(5)]) == Return(Num(10))
    ensures r.result == Return(Num(10))
    ensures r.trace == [Before(User(10), self, [Str("object1"), Str("jump"), Num(5)]),
                        Call(2, self, [Num(5)]),
                        After(User(11), self, [Str("object1"), Str("jump"), Num(5), Num(10)])]
  {
    var obj := new Target(map[], [], map["constructor" := Fn(0), "after" := Fn(1), "jump" := Fn(2)], ["after", "jump"]);
    var namer := new Naming.Namer();
    var opts := Options(Some("object1"), false, Some(10), Some(11), false, []);
    ghost var before := obj.State();
    Gander(obj, opts, namer);
    var b := BindingOf(opts, 0);
    assert b == Binding("object1", User(10), User(11), false);
    assert multiset(obj.protoOrder + before.order)["jump"] == 1;
    WrappedOnce(before, obj.proto, IgnoreList(opts.ignore), b, obj.protoOrder + before.order, "jump");
    var w := obj.values["jump"];
    assert w == Wrapper(b, "jump", Fn(2));
    r := CallWrapper(w.binding, w.key, w.inner, self, [Num(5)], run);
    JumpCall(self, run);
  }

  /** With `triple` ignored, calling it runs the original alone: the mutating `before` never fires. */
  method Ignore(self: Value, run: Behaviour) returns (r: Run)
    ensures r.trace == [Call(3, self, [])]
  {
    var obj := new Target(map["val" := Num(3), "triple" := Fn(3)], ["val", "triple"],
                          map["constructor" := Fn(0), "after" := Fn(1), "jump" := Fn(2)], ["after", "jump"]);
    var namer := new Naming.Namer();
    var opts := Options(Some("object2"), false, Some(12), None, false, ["triple"]);
    ghost var before := obj.State();
    Gander(obj, opts, namer);
    OthersUnchanged(before, obj.proto, IgnoreList(opts.ignore), BindingOf(opts, 0),
                    obj.protoOrder + before.order, "triple");
    assert obj.values["triple"] == Fn(3);
    r := Invoke(obj.values["triple"], self, [], run);
  }

  /** `fooAsync(noop)` through an asynchronous wrapper named `object3` hands the original a shim. */
  lemma FooAsyncCall(self: Value, run: Behaviour)
    ensures var r := Invoke(Wrapper(Binding("object3", Noop, User(13), true), "fooAsync", Fn(4)), self, [Fn(5)], run);
            var shim := Shim(User(13), [Str("object3"), Str("fooAsync"), Fn(5)], Fn(5));
            r.trace == [Before(Noop, self, [Str("object3"), Str("fooAsync"), Fn(5)]), Call(4, self, [shim])]
  {
    var b := Binding("object3", Noop, User(13), true);
    var full := Header("object3", "fooAsync") + [Fn(5)];
    assert full == [Str("object3"), Str("fooAsync"), Fn(5)];
    assert ShimArgs(b, "fooAsync", [Fn(5)]) == [Shim(User(13), full, Fn(5))];
  }

  /** The shim of `object3`'s `fooAsync(noop)` call, invoked later with 'foo'. */
  lemma FooCompletion(later: Value, run: Behaviour)
    ensures Invoke(Shim(User(13), [Str("object3"), Str("fooAsync"), Fn(5)], Fn(5)), later, [Str("foo")], run).trace
         == [After(User(13), later, [Str("object3"), Str("fooAsync"), Fn(5), Str("foo")]), Call(5, later, [Str("foo")])]
  {
    assert [Str("object3"), Str("fooAsync"), Fn(5)] + [Str("foo")] == [Str("object3"), Str("fooAsync"), Fn(5), Str("foo")];
  }

  /**
   * With `async`, `fooAsync(noop)` fires `before` and hands the original a
   * shim in place of `noop`; when the deferred work calls the shim with
   * 'foo', `after` receives `('object3', 'fooAsync', noop, 'foo')` and
   * then `noop` runs on 'foo'.
   */
  method AsyncBasic(self: Value, later: Value, run: Behaviour) returns (call: Run, completion: Run)
    ensures call.trace == [Before(Noop, self, [Str("object3"), Str("fooAsync"), Fn(5)]),
                           Call(4, self, [Shim(User(13), [Str("object3"), Str("fooAsync"), Fn(5)], Fn(5))])]
    ensures completion.trace == [After(User(13), later, [Str("object3"), Str("fooAsync"), Fn(5), Str("foo")]),
                                 Call(5, later, [Str("foo")])]
  {
    var namer := new Naming.Namer();
    var opts := Options(Some("object3"), false, None, Some(13), true, []);
    var w := BindOne("fooAsync", 4, opts, namer);
    var b := Binding("object3", Noop, User(13), true);
    assert w == Wrapper(b, "fooAsync", Fn(4));
    call := CallWrapper(w.binding, w.key, w.inner, self, [Fn(5)], run);
    FooAsyncCall(self, run);
    completion := CallShim(User(13), [Str("object3"), Str("fooAsync"), Fn(5)], Fn(5), later, [Str("foo")], run);
    FooCompletion(later, run);
  }

  /** `fooAsync(noop)` through a synchronous wrapper named `object4`, when the original returns 'bar'. */
  lemma FooSyncCall(self: Value, run: Behaviour)
    requires run(4, self, [Fn(5)]) == Return(Str("bar"))
    ensures Invoke(Wrapper(Binding("object4", Noop, User(14), false), "fooAsync", Fn(4)), self, [Fn(5)], run)
         == Run([Before(Noop, self, [Str("object4"), Str("fooAsync"), Fn(5)]),
                 Call(4, self, [Fn(5)]),
                 After(User(14), self, [Str("object4"), Str("fooAsync"), Fn(5), Str("bar")])],
                Return(Str("bar")))
  {
    var b := Binding("object4", Noop, User(14), false);
    SyncCall(b, "fooAsync", 4, 1, self, [Fn(5)], run);
    var full := Header("object4", "fooAsync") + [Fn(5)];
    assert full == [Str("object4"), Str("fooAsync"), Fn(5)];
    assert Concat(full, Str("bar")) == [Str("object4"), Str("fooAsync"), Fn(5), Str("bar")];
    assert Repeat(Before(Noop, self, full), 1) == [Before(Noop, self, full)];
    assert Repeat(After(User(14), self, Concat(full, Str("bar"))), 1) == [After(User(14), self, Concat(full, Str("bar")))];
  }

  /** Without `async`, `after` receives the synchronous return 'bar' after the callback argument. */
  method AsyncWithoutOption(self: Value, run: Behaviour) returns (r: Run)
    requires run(4, self, [Fn(5)]) == Return(Str("bar"))
    ensures r.result == Return(Str("bar"))
    ensures |r.trace| == 3
    ensures r.trace[2] == After(User(14), self, [Str("object4"), Str("fooAsync"), Fn(5), Str("bar")])
  {
    var namer := new Naming.Namer();
    var opts := Options(Some("object4"), false, None, Some(14), false, []);
    var w := BindOne("fooAsync", 4, opts, namer);
    var b := Binding("object4", Noop, User(14), false);
    assert w == Wrapper(b, "fooAsync", Fn(4));
    r := CallWrapper(w.binding, w.key, w.inner, self, [Fn(5)], run);
    FooSyncCall(self, run);
  }

  /**
   * `fooPromise()` through a synchronous wrapper named `object8`, when the
   * original returns a promise object: `after` receives the promise itself.
   */
  lemma PromiseCall(self: Value, promise: nat, run: Behaviour)
    requires run(7, self, []) == Return(Obj(promise))
    ensures Invoke(Wrapper(Binding("object8", Noop, User(16), false), "fooPromise", Fn(7)), self, [], run)
         == Run([Before(Noop, self, [Str("object8"), Str("fooPromise")]),
                 Call(7, self, []),
                 After(User(16), self, [Str("object8"), Str("fooPromise"), Obj(promise)])],
                Return(Obj(promise)))
  {
    var b := Binding("object8", Noop, User(16), false);
    SyncCall(b, "fooPromise", 7, 1, self, [], run);
    var full := Header("object8", "fooPromise") + [];
    assert full == [Str("object8"), Str("fooPromise")];
    assert Concat(full, Obj(promise)) == [Str("object8"), Str("fooPromise"), Obj(promise)];
    assert Repeat(Before(Noop, self, full), 1) == [Before(Noop, self, full)];
    assert Repeat(After(User(16), self, Concat(full, Obj(promise))), 1) == [After(User(16), self, Concat(full, Obj(promise)))];
  }

  /**
   * The `promise` option is never read: binding `{fooPromise}` as `object8`
   * with only `after` and calling `fooPromise()` takes the synchronous path,
   * so `after('object8', 'fooPromise', promise)` fires as soon as the
   * promise is returned, whether it later resolves or rejects.
   */
  method PromiseReturned(self: Value, promise: nat, run: Behaviour) returns (r: Run)
    requires run(7, self, []) == Return(Obj(promise))
    ensures r.result == Return(Obj(promise))
    ensures |r.trace| == 3
    ensures r.trace[2] == After(User(16), self, [Str("object8"), Str("fooPromise"), Obj(promise)])
  {
    var namer := new Naming.Namer();
    var opts := Options(Some("object8"), false, None, Some(16), false, []);
    var w := BindOne("fooPromise", 7, opts, namer);
    var b := Binding("object8", Noop, User(16), false);
    assert w == Wrapper(b, "fooPromise", Fn(7));
    r := CallWrapper(w.binding, w.key, w.inner, self, [], run);
    PromiseCall(self, promise, run);
  }

  /** The first two numbered names for `obj` on a fresh counter. */
  lemma ObjNames()
    ensures Naming.Allocate(0, Some("obj"), true) == ("obj1", 1)
    ensures Naming.Allocate(1, Some("obj"), true) == ("obj2", 2)
  {
    Naming.SuccessiveUniqueNames(0, "obj");
    assert Decimal.Text(1) == "1" && Decimal.Text(2) == "2";
    assert "obj" + "1" == "obj1" && "obj" + "2" == "obj2";
  }

  /** Two objects bound as `obj` with `unique` on a fresh counter are named `obj1` and `obj2`. */
  method Unique() returns (first: string, second: string)
    ensures first == "obj1" && second == "obj2"
  {
    var namer := new Naming.Namer();
    var w5 := BindOne("identity", 6, Options(Some("obj"), true, None, None, false, []), namer);
    var w6 := BindOne("identity", 6, Options(Some("obj"), true, Some(15), None, false, []), namer);
    ObjNames();
    first := w5.binding.name;
    second := w6.binding.name;
  }
}
