# gander: a verified model of a method-interception layer

`gander(object, options)` instruments an object in place: every function
property listed among the enumerable keys of the object or of its direct
prototype (`Object.keys`, so methods of a `class` body, which are not
enumerable, are never wrapped), except those the caller ignores and
`constructor`, is replaced by a wrapper that calls a
`before` hook with `[name, key] ++ args`, calls the original with the same
receiver, and calls an `after` hook -- at once with the return value
appended, or, in callback mode, when the callback fires, with the
callback's arguments appended. Without hooks, a default stopwatch pair
records start stamps in a registry keyed `name.method`. Each bind gets an
instance name: a given name without `unique` is used verbatim and leaves
the process-wide counter alone; otherwise the counter is incremented and
its new value appended to the given name, or to `o` when none is given.

The model, module by module:

- `Values`: JavaScript values as the layer sees them -- data, program
  functions known by an identity, wrapper closures (`Wrapper(binding, key,
  inner)`) and callback shims (`Shim(after, fullArgs, callback)`);
  `typeof … === 'function'`, `tail`, `concat`.
- `Dispatch`: `Invoke`, the meaning of calling a function value, as a
  trace of `Before`/`After` hook calls and `Call`s of program functions,
  plus how the call completes (`Return` or `Throw`). Program functions are
  opaque: a `Behaviour` parameter says what each returns or throws.
  `CallWrapper` and `CallShim` are the closures' bodies step by step (the
  argument-copy loops, the overwrite of the last slot), proved equal to
  `Invoke`.
- `Naming`: the allocator (`Namer`, a class holding the counter), its
  specification `Allocate`, and the decimal text of numbers (`Decimal`)
  with its inverse.
- `Binder`: hook selection, the ignore list, the object (`Target`, a class
  whose own properties are a map plus their enumeration order, beside a
  read-only prototype), the bind loop `Gander`, and `BindAll`, the
  function it is proved against.
- `Timers`: the default hooks' registry (`Registry<S>`, stamps of an
  abstract type `S`) and its key.
- `Scenarios`: the five tests of test.js:9-88 replayed on the model, and
  the call of the promise test (test.js:107-122). The logger and promise
  tests (test.js:90-137) pass options gander.js never reads; the logger
  test's `t.done()` is inside that unread `logger`, so it cannot finish and
  is not replayed.

Two behaviours of gander.js a reader might not expect:

- A key listed both by the prototype and by the object (gander.js:44) is
  visited twice and its function wrapped twice (gander.js:46-49): the
  second visit wraps the wrapper, so its hooks fire twice per call.
  `Binder.BindAllEffect` states this exactly: a key ends up as many
  wrappers deep as it occurs in the key list.
- gander.js:18-39 reads only `name`, `unique`, `before`, `after`, `async`
  and `ignore`; the `logger` and `promise` options that test.js:90-137
  passes have no effect. A promise-returning method takes the synchronous path
  and `after` receives the promise as the return value.

## Model

| member | source | states |
|---|---|---|
| `Values.Callable` | gander.js:47 | `typeof v === 'function'`: only functions and the layer's closures can be callable, and every program function is callable |
| `Values.ClosuresAreFunctions` | gander.js:47-64 | on values the layer builds (closures around functions) callability is exactly being a function or a closure, as `typeof` says |
| `Values.Tail` | gander.js:95-97 | the last argument, or undefined for an empty list |
| `Values.Concat` | gander.js:79 | `list.concat(v)` keeps `list` as a prefix and appends an array's elements, or any other value itself |
| `Values.Nest` | gander.js:46-49 | wrapping any number of times keeps a value callable exactly when it was, and the outermost wrapper carries the binding and key |
| `Dispatch.AsyncPath` | gander.js:62-63 | the asynchronous path is taken exactly when `async` is set and there is a last argument and it is a function |
| `Dispatch.ShimArgs` | gander.js:64 | the list passed on has the caller's length and first elements; its last slot is a callable shim holding `after`, `[name,key]++args` and the caller's callback |
| `Dispatch.Invoke` | gander.js:49-82 | calling a function value: a program function runs once; a wrapper's first event is `before` with `[name,key]++args` and, on the synchronous path, its last is `after` with the return value appended; a shim's first event is `after` with its saved arguments plus its own, and it returns undefined unless the callback throws; a non-function throws with no event |
| `Dispatch.CallWrapper` | gander.js:49-82 | the wrapper body (argument copy loop, last-slot overwrite, sync or async branch) produces exactly the trace and completion `Invoke` assigns to the wrapper |
| `Dispatch.CallShim` | gander.js:64-73 | the shim body (callback-argument copy loop, `after`, then the callback) produces exactly what `Invoke` assigns to the shim |
| `Dispatch.SyncCall` | gander.js:57-81 | synchronous call through n wrappers around a program function: n befores with `[name,key]++args`, the original once with the same receiver and unchanged arguments, then n afters with its return value appended, unless it threw (then no after); the result is the original's |
| `Dispatch.AsyncCall` | gander.js:57-75 | async path: before fires, the original gets a list of the same length equal except in the last slot (now a shim, not the callback), no after fires yet, and the wrapper returns what the original returns |
| `Dispatch.OriginalSeesCallerArgs` | gander.js:62-79 | the original receives exactly the caller's arguments if and only if the async path is not taken (async off, or the last argument is not a function, or there is none) |
| `Dispatch.CallbackCompletion` | gander.js:57-73 | each invocation of the shim with `cbArgs` fires after once with `[name,key]++args++cbArgs` (args still holding the original callback), strictly before the original callback runs with `cbArgs` unchanged; the shim returns undefined unless the callback throws |
| `Dispatch.AsyncNestCall` | gander.js:57-75 | an asynchronous call through n wrappers of one binding: n befores, the k-th seeing the list with k shims stacked in the last slot, then the original once on a list of the caller's length, with no after; the result is the original's |
| `Dispatch.AsyncNestCompletion` | gander.js:64-73 | calling the innermost shim fires n afters, innermost first and the one holding the caller's callback last, then runs the callback on the same arguments; with a wrapper the result is undefined unless the callback throws |
| `Dispatch.TwiceWrappedAsync` | gander.js:44-75 | a key wrapped twice in async mode: the inner before sees the outer shim `s1`, the original receives a shim `s2` around `s1`, and completion fires after with `s1` then with the callback before the callback runs |
| `Decimal.Text` | gander.js:178-180 | the number text appended to a name is a non-empty digit string without a leading zero |
| `Decimal.ValueOfText` | gander.js:178-180 | reading the digits of a number's text gives the number back |
| `Decimal.TextOfValue` | gander.js:178-180 | writing the number a canonical digit string denotes gives the string back |
| `Decimal.TextInjective` | gander.js:178-180 | different counter values give different suffixes |
| `Naming.Allocate` | gander.js:176-182 | the counter grows by one exactly when the name is numbered (no given name, or `unique`); an unnumbered name is the given one; a numbered one starts with its prefix and is longer |
| `Naming.Namer.constructor` | gander.js:170 | the counter starts at zero |
| `Naming.Namer.GetName` | gander.js:176-182 | a given name without `unique` comes back verbatim and the counter is unchanged; otherwise the counter grows by exactly one and the name is the given name, or `o`, followed by the new counter |
| `Naming.NumberRecoverable` | gander.js:176-182 | a numbered name is its prefix followed by digits that read back as the new counter value |
| `Naming.NumberedNamesDiffer` | gander.js:176-182 | numbered names with the same prefix allocated at different counter values differ |
| `Naming.SuccessiveUniqueNames` | gander.js:178 | two successive binds with the same name and `unique` get different names with consecutive suffixes |
| `Naming.PrefixesCanCollide` | gander.js:178-180 | the unique name `o1` allocated at counter 1 and the automatic name allocated at counter 11 are the same string `o12` |
| `Binder.SelectHooks` | gander.js:25-39 | the stopwatch pair exactly when neither hook is given; a given hook is used; the missing one of two becomes the no-op |
| `Binder.IgnoreList` | gander.js:32 | a key is ignored exactly when the caller lists it or it is `constructor` |
| `Binder.Lookup` | gander.js:47-48 | `object[key]` is the own property if there is one, else the prototype's, else undefined |
| `Binder.Assign` | gander.js:49 | assigning a property keeps the own-key order a duplicate-free listing of the own properties |
| `Binder.Visit` | gander.js:46-49 | one visit adds at most the visited key to the own properties and changes no other own property |
| `Binder.BindAll` | gander.js:44-49 | the bind loop never removes an own property |
| `Binder.VisitEffect` | gander.js:46-49 | one loop visit wraps the visited key, if its current value is a function and it is not ignored, and touches no other key |
| `Binder.BindAllEffect` | gander.js:42-49 | after the loop a function-valued, non-ignored key is as many wrappers deep as it occurs in the key list and is own if listed; every other key keeps its value and ownership |
| `Binder.ListedFunctionsWrapped` | gander.js:44-49 | every listed, non-ignored function key holds, as an own property, a wrapper with this bind's name, hooks, mode and its own key |
| `Binder.WrappedOnce` | gander.js:44-49 | a function key listed once and not ignored holds, as an own property, a single wrapper around its old value |
| `Binder.OthersUnchanged` | gander.js:44-48 | ignored keys, unlisted keys and non-function values are left exactly as they were |
| `Binder.IgnoredCallFiresNoHooks` | gander.js:32-48 | calling an ignored program function after binding runs the original alone, with no hook event |
| `Binder.BoundSyncCall` | gander.js:42-81 | calling a bound program function synchronously fires each hook once per occurrence of its key in the key list around one call of the original |
| `Binder.BoundAsyncCall` | gander.js:42-75 | calling a bound program function asynchronously fires before once per occurrence of its key in the key list, runs the original once on the shimmed list, and completing through its shim fires after as many times before the callback |
| `Binder.Target.constructor` | gander.js:42-44 | an object with the given own properties, key order and prototype |
| `Binder.Target.Put` | gander.js:49 | `object[key] = v` sets the property, appends a new key to the enumeration order, and keeps the object well formed |
| `Binder.Gander` | gander.js:18-85 | the counter advances as the allocator says, and the own properties become those of the bind loop over the prototype's keys followed by the object's own keys, with the selected hooks, ignore list and name |
| `Timers.Join` | gander.js:149 | `parts.join(sep)`: empty for no parts, the part itself for one, and starting with the first part and the separator for more |
| `Timers.ElementText` | gander.js:149 | the text `join` uses for an element: empty for undefined, null and an empty array, a string itself, a one-element array its element's text |
| `Timers.TimerKey` | gander.js:143-149 | the key is empty, the first argument's text, or the first two arguments' texts joined by `.`, whatever follows them |
| `Timers.HookKey` | gander.js:142-149 | any hook call's timer key is `name.key` |
| `Timers.BeforeAndAfterShareKey` | gander.js:142-160 | the before and after hook calls of one wrapper call use the same timer key |
| `Timers.KeyOf` | gander.js:143-149 | the copy loop over at most two arguments and the join yield the timer key |
| `Timers.Registry.constructor` | gander.js:103 | the registry starts empty |
| `Timers.Registry.Time` | gander.js:142-151 | the stamp is stored under the key, replacing any earlier one; other entries stay |
| `Timers.Registry.TimeEnd` | gander.js:153-162 | the stored stamp (none if absent) is returned and exactly that key is removed; other entries stay |
| `Timers.OverlappingCalls` | gander.js:142-162 | two overlapping calls on the same name and method: the second start wins, the first end consumes it, the second end finds nothing |
| `Scenarios.JumpCall` | test.js:9-26 | `jump(5)` returning 10 through an `object1` wrapper traces before(object1, jump, 5), the original on 5, after(object1, jump, 5, 10) |
| `Scenarios.BeforeAfter` | test.js:9-26 | binding a TestObject as `object1` and calling `jump(5)` gives that trace and returns 10 |
| `Scenarios.Ignore` | test.js:30-46 | with `triple` ignored, calling it runs the original alone |
| `Scenarios.FooAsyncCall` | test.js:48-61 | in async mode `fooAsync(noop)` hands the original a shim in place of `noop` |
| `Scenarios.FooCompletion` | test.js:48-61 | the shim called with 'foo' fires after(object3, fooAsync, noop, 'foo') and then `noop('foo')` |
| `Scenarios.AsyncBasic` | test.js:48-61 | binding with `async` and calling `fooAsync(noop)`, then completing with 'foo', gives those two traces |
| `Scenarios.FooSyncCall` | test.js:63-75 | without async, `fooAsync(noop)` returning 'bar' fires after with 'bar' appended |
| `Scenarios.AsyncWithoutOption` | test.js:63-75 | binding without `async`, the last event is after(object4, fooAsync, noop, 'bar') and the call returns 'bar' |
| `Scenarios.PromiseCall` | test.js:107-122 | `fooPromise()` returning a promise through an `object8` wrapper with only `after` traces the no-op before, the original, and after(object8, fooPromise, promise), and returns the promise |
| `Scenarios.PromiseReturned` | test.js:107-122 | binding `{fooPromise}` as `object8` with the unread `promise` option, the call's last event is after with the promise itself appended, and the call returns the promise |
| `Scenarios.ObjNames` | test.js:77-88 | from a fresh counter, unique `obj` gives `obj1` then `obj2` |
| `Scenarios.Unique` | test.js:77-88 | two objects bound as unique `obj` carry wrappers named `obj1` and `obj2` |

## Left out

- `Naming.Namer.GetName`, `Naming.Allocate`, `Naming.SuccessiveUniqueNames` and `Decimal.Text`: the counter is an unbounded integer, which matches gander.js:170-180 only below 2^53. At 2^53 a JavaScript number stops growing under `++`, so every later numbered name repeats. From 10^21 on, the number's text is in exponent form (`o1e+21`). The model does not capture either; no process binds that many objects.
- Clock sources and elapsed time: host detection (`hrtime`, `performance.now`, `Date.now`), `now` and `getMs` with its three-decimal formatting (gander.js:105-140) are not modelled; stamps are values of an abstract type supplied by the caller, and `TimeEnd` returns the stamp it read instead of an elapsed time.
- The console line printed by `timeEnd` (gander.js:163): output only.
- Module export and AMD wiring (gander.js:184-201): plumbing.
- Real asynchrony: a deferred callback is modelled as a later, explicit invocation of the shim; a program function's own body is opaque, so a callback it would call from inside its body is not shown nested in that call's trace.
- Calling a value that is not a function throws a `TypeError`; `Dispatch.Invoke` throws without saying which error value.
- Program functions are deterministic in their receiver and arguments (`Behaviour`) and their effects on other state are not modelled; hooks are recorded as events and are assumed not to throw.
- `options` left out entirely (`options || {}`) is represented by an `Options` value with every field absent.
- JavaScript reflection: the prototype's enumerable keys are an input; own properties are all enumerable and enumerate in insertion order (integer-like keys are not reordered); deeper prototype chains are not looked up; an object whose prototype is null (where `Object.keys(null)` throws) is not modelled.
- `Timers.Join`: its contract describes no, one and two or more parts only by their first part and separator, not the full joined text of three or more parts; a timer key never joins more than two.
- `Timers.ElementText`: its contract covers undefined, null, strings and arrays of at most one element; numbers are integers, and a function or object argument is given a fixed text instead of its source text; the hooks only ever pass the name and key strings first, so timer keys of hook calls are unaffected.
