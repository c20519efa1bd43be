# SwiftRedux core, modelled in Dafny

This project models four pieces of SwiftRedux, a Redux-style state container for Swift with a saga
(side-effect) layer:

- **Awaitable jobs** (`awaitable.dfy`, module `Awaitables`). These are one-shot holders of a result,
  read back with `await()` or `await(timeoutMillis:)`. The base job, the empty job and the "just" job
  are constant, so they are modelled as values. The asynchronous job is a class: its result cell is
  written by a callback, and a completion signal (a `DispatchGroup` in Swift) is the flag
  `signalled`.
- **Saga monitor** (`saga_monitor.dfy`, module `SagaMonitors`). This is a registry from unique id to
  dispatcher. Its `dispatch` broadcasts an action to every registered dispatcher. Each call goes
  into a log, and the broadcast is specified against that log: every registered dispatcher is
  called exactly once, with its own entry and the action, and no other dispatcher is called.
- **Saga glue** (`saga.dfy`, module `Sagas`). This covers the saga errors and `SagaInput` with its
  two initialisers. The second initialiser wraps a plain dispatcher so that the wrapper forwards
  each action once and returns the empty awaitable.
- **The dispatch store as its tests use it** (`store.dfy`, module `ReduxStore`, and
  `store_test.dfy`, module `ReduxStoreTest`).
  - `store.dfy` holds the tests' actions and reducers, and the store itself. The store is modelled
    as a pure `Snapshot`: the state, the subscription table and the registered callbacks with their
    counters. It is also modelled as the class `DispatchStore`, whose methods are proved equal to
    the snapshot functions.
  - `store_test.dfy` turns each dispatch-store test into a method. The randomly chosen actions
    become a parameter, and each `XCTAssert` becomes a postcondition.
- `fp.dfy` (module `Fp`) holds `Try`, SwiftFP's value-or-error wrapper, and an `Option` that
  records whether an action has a ping path (the `as? ReduxPingActionType` cast of the store).

State is a map from a dotted path to an integer. This matches how the tests use `TreeState<Int>`:
a value at a path, read and written by its full path.

The implementation of `DispatchStore` is not part of this model. The model assumes the following
behaviour of `DispatchStore`, consistent with what the tests assert:

- `dispatch` reduces, then calls every live subscription whose path changed value, each once, with
  the new value.
- After that, a ping action's path is dropped from the state.
- `register` replaces an earlier registration under the same (id, path) key. It then replays the
  path's current value to the new callback once.
- `unregister` reports whether the key was registered.
- `unregisterAll` returns how many keys it removed.
- `TreeState.map(path, fn)` with an update that yields a failure removes the value at the path.
  No test reaches this, because every `updateFn` keeps a success a success.

## Model

| member | source | states |
|---|---|---|
| Fp.Try.Map | HMReactiveReduxTests/ReduxStoreTest.swift:45-48 | `Try.map` applies the function to a value and passes an error through untouched |
| Awaitables.AwaitableError.Description | SwiftRedux/Core/Redux+Awaitable.swift:21-29 | `unavailable` reads "No result available"; `timedOut(m)` reads "Operation timed out after m milliseconds", with the rendering of `m` as a parameter |
| Awaitables.Await | SwiftRedux/Core/Redux+Awaitable.swift:56-94 | a constant job succeeds exactly when it holds a result, and then yields that result; otherwise it fails with `unavailable` |
| Awaitables.AwaitWithin | SwiftRedux/Core/Redux+Awaitable.swift:60-98 | with a timeout, a constant job gives the same outcome as `await()` and never times out |
| Awaitables.BaseIsUnavailable | SwiftRedux/Core/Redux+Awaitable.swift:55-63 | the base job fails with `unavailable`, with or without a timeout |
| Awaitables.EmptyNeverFails | SwiftRedux/Core/Redux+Awaitable.swift:68-82 | the empty singleton yields `Void` for every timeout |
| Awaitables.JustReturnsItsResult | SwiftRedux/Core/Redux+Awaitable.swift:85-99 | `JustAwaitable(r)` yields exactly `r`, with or without a timeout |
| Awaitables.AsyncAwaitable.constructor | SwiftRedux/Core/Redux+Awaitable.swift:111-117 | the block runs during init; a block that calls back at once leaves the job resolved with its result, otherwise the job is pending and holds `unavailable` |
| Awaitables.AsyncAwaitable.Complete | SwiftRedux/Core/Redux+Awaitable.swift:116 | the once-only callback stores the result and fires the signal |
| Awaitables.AsyncAwaitable.Await | SwiftRedux/Core/Redux+Awaitable.swift:119-122 | once signalled, yields the cached result or throws its error |
| Awaitables.AsyncAwaitable.AwaitWithin | SwiftRedux/Core/Redux+Awaitable.swift:124-134 | a resolved job yields its result; a pending job fails with `timedOut` carrying the requested timeout and stays pending |
| Awaitables.AwaitRepeatedly | SwiftRedux/Core/Redux+Awaitable.swift:101-104 | the result is cached: repeated `await()` and a bounded wait give the same outcome |
| Awaitables.HotStart | SwiftRedux/Core/Redux+Awaitable.swift:101-122 | a job whose block calls back synchronously is resolved when `init` returns |
| Awaitables.LateCallback | SwiftRedux/Core/Redux+Awaitable.swift:111-134 | before the callback a bounded wait times out with its own timeout; after it, both waits give the callback's result |
| SagaMonitors.DistinctCallsAtMostOnce | SwiftRedux/Middleware+Saga/Redux+SagaMonitor.swift:15-20 | a log with pairwise distinct ids calls each id at most once, and exactly once if it appears |
| SagaMonitors.BroadcastCallsEachOnce | SwiftRedux/Middleware+Saga/Redux+SagaMonitor.swift:15-20 | one broadcast calls each registered dispatcher exactly once and every other id zero times |
| SagaMonitors.BroadcastSkipsRemoved | SwiftRedux/Middleware+Saga/Redux+SagaMonitor.swift:15-40 | a dispatcher removed before a broadcast is not called by it |
| SagaMonitors.Added | SwiftRedux/Middleware+Saga/Redux+SagaMonitor.swift:33-36 | adding inserts or replaces one entry and keeps every other entry |
| SagaMonitors.Removed | SwiftRedux/Middleware+Saga/Redux+SagaMonitor.swift:38-40 | removing deletes one entry if present, keeps the rest, and changes nothing for an absent id |
| SagaMonitors.RemovedIdempotent | SwiftRedux/Middleware+Saga/Redux+SagaMonitor.swift:38-40 | removing twice is the same as removing once |
| SagaMonitors.AddedThenRemoved | SwiftRedux/Middleware+Saga/Redux+SagaMonitor.swift:33-40 | adding then removing an id leaves the other entries as they were |
| SagaMonitors.SagaMonitor.constructor | SwiftRedux/Middleware+Saga/Redux+SagaMonitor.swift:22-25 | a new monitor has no dispatchers |
| SagaMonitors.SagaMonitor.AddDispatcher | SwiftRedux/Middleware+Saga/Redux+SagaMonitor.swift:33-36 | the registry becomes `Added(old, id, d)`, and nothing is called |
| SagaMonitors.SagaMonitor.RemoveDispatcher | SwiftRedux/Middleware+Saga/Redux+SagaMonitor.swift:38-40 | the registry becomes `Removed(old, id)`, and nothing is called |
| SagaMonitors.SagaMonitor.Dispatch | SwiftRedux/Middleware+Saga/Redux+SagaMonitor.swift:15-20 | the calls made are exactly one broadcast of the action over the unchanged registry, and the result is the empty awaitable |
| Sagas.SagaError.Description | SwiftRedux/Middleware+Saga/Redux+Saga.swift:21-29 | the two saga error messages |
| Sagas.CallPlain | SwiftRedux/Middleware+Saga/Redux+Saga.swift:53 | the default dispatcher `{_ in}` calls nothing; any other dispatcher calls itself once with the action |
| Sagas.CallAwaitable | SwiftRedux/Middleware+Saga/Redux+Saga.swift:57 | the lifted closure makes the wrapped dispatcher's calls and returns the empty awaitable |
| Sagas.NewSagaInput | SwiftRedux/Middleware+Saga/Redux+Saga.swift:43-51 | stores the four fields as given; the scheduler defaults to a serial background one |
| Sagas.LiftingSagaInput | SwiftRedux/Middleware+Saga/Redux+Saga.swift:53-61 | the dispatcher is the lifted plain dispatcher (default no-op); the other fields are stored as given |
| Sagas.LiftedDispatcherForwards | SwiftRedux/Middleware+Saga/Redux+Saga.swift:57 | invoking the lifted dispatcher performs exactly the wrapped dispatcher's calls and returns the empty awaitable |
| Sagas.LiftedForwardsOnce | SwiftRedux/Middleware+Saga/Redux+Saga.swift:57 | the wrapped dispatcher is called once with the same action, and the returned job yields `Void` for any timeout |
| Sagas.DefaultLiftCallsNothing | SwiftRedux/Middleware+Saga/Redux+Saga.swift:53-57 | lifting the default dispatcher calls nothing and still returns the empty job |
| ReduxStore.ValueAt | HMReactiveReduxTests/ReduxStoreTest.swift:124-126 | a path's value is a success exactly when the path is present; an absent path gives `Unavailable` |
| ReduxStore.MapValue | HMReactiveReduxTests/ReduxStoreTest.swift:98 | mapping a path sets its value to `f` of the old one, and leaves every other path unchanged |
| ReduxStore.UpdateFn | HMReactiveReduxTests/ReduxStoreTest.swift:43-50 | each action shifts a present value by +1, +2, +3 or -1 and passes a failure through |
| ReduxStore.UpdateFnChangesValue | HMReactiveReduxTests/ReduxStoreTest.swift:45-48 | every action changes a present value, so every such dispatch notifies |
| ReduxStore.PingValuePath | HMReactiveReduxTests/ReduxStoreTest.swift:220-226 | only the ping action has a ping path, and it is "action1" |
| ReduxStore.Reduce | HMReactiveReduxTests/ReduxStoreTest.swift:94-103 | an `Action` updates the calculation path by its `updateFn` and nothing else; other actions leave the state alone |
| ReduxStore.PingReduce | HMReactiveReduxTests/ReduxStoreTest.swift:232-249 | writes the carried value at "action1" or "action2" and keeps the rest; any other action is excluded, as it is fatal |
| ReduxStore.Deliver | HMReactiveReduxTests/ReduxStoreTest.swift:256-259 | calling a callback adds one to its call count, adds one to its value count only for a success, and records the value handed to it |
| ReduxStore.Notified | HMReactiveReduxTests/ReduxStoreTest.swift:159-188 | exactly the live callbacks whose path changed are called, each once, with the new value |
| ReduxStore.Cleared | HMReactiveReduxTests/ReduxStoreTest.swift:267-271 | a ping action's path is removed after the dispatch; nothing else is |
| ReduxStore.Dispatched | HMReactiveReduxTests/ReduxStoreTest.swift:170-188 | the state is the reduced state, cleared; the table is unchanged; live changed callbacks are called once and others are untouched; table consistency is preserved |
| ReduxStore.Registered | HMReactiveReduxTests/ReduxStoreTest.swift:164-181 | the key points to the new callback, which is live and has been handed the path's current value once; everything else is kept |
| ReduxStore.Unregistered | HMReactiveReduxTests/ReduxStoreTest.swift:185-193 | removes the key; reports true exactly when it was registered |
| ReduxStore.UnregisteredAll | HMReactiveReduxTests/ReduxStoreTest.swift:196-213 | removes exactly the registrants' keys and returns how many it removed |
| ReduxStore.UnregisterTwice | HMReactiveReduxTests/ReduxStoreTest.swift:185-193 | unregistering reports true once per registration, then false |
| ReduxStore.UnregisterAllNoneLeft | HMReactiveReduxTests/ReduxStoreTest.swift:195-198 | a registrant with no registrations left gets 0 from `unregisterAll` |
| ReduxStore.UnregisterAllAgain | HMReactiveReduxTests/ReduxStoreTest.swift:195-198 | a second `unregisterAll` of the same registrants returns 0 |
| ReduxStore.KeysOnPathCount | HMReactiveReduxTests/ReduxStoreTest.swift:203-207 | distinct registrants on one path make as many keys as there are registrants |
| ReduxStore.UnregisterAllOnePerRegistrant | HMReactiveReduxTests/ReduxStoreTest.swift:201-214 | with one registration per registrant on one path, `unregisterAll` returns the number of registrants |
| ReduxStore.FoldOriginal | HMReactiveReduxTests/ReduxStoreTest.swift:112-117 | the test's running `original` equals its start plus the sum of the actions' shifts |
| ReduxStore.SumDeltasAppend | HMReactiveReduxTests/ReduxStoreTest.swift:112-117 | the shift of two runs of actions in a row is the sum of their shifts |
| ReduxStore.SumDeltasRemove | HMReactiveReduxTests/ReduxStoreTest.swift:112-117 | taking one action out of a run takes exactly its shift out of the total |
| ReduxStore.MultisetRemove | HMReactiveReduxTests/ReduxStoreTest.swift:112-117 | taking one action out of a run takes exactly one occurrence of it out of the run's multiset |
| ReduxStore.SumDeltasPermutation | HMReactiveReduxTests/ReduxStoreTest.swift:112-117 | two runs holding the same actions, in any order, have the same total shift |
| ReduxStore.DispatchAll | HMReactiveReduxTests/ReduxStoreTest.swift:115-119 | a run of dispatches keeps the table, the callbacks' keys and consistency |
| ReduxStore.DispatchAllValue | HMReactiveReduxTests/ReduxStoreTest.swift:112-128 | after the dispatches, the calculated value equals the fold of `updateFn` over the actions |
| ReduxStore.FoldOrderIrrelevant | HMReactiveReduxTests/ReduxStoreTest.swift:115-127 | reordering the actions leaves the fold unchanged, and the store's calculated value after the reordered dispatches equals the test's loop-order `original` |
| ReduxStore.DispatchAllCalls | HMReactiveReduxTests/ReduxStoreTest.swift:174-181 | a live subscriber of the calculation path is called once per dispatch and last handed the calculated value |
| ReduxStore.NeverAgain | HMReactiveReduxTests/ReduxStoreTest.swift:185-188 | after `unregister`, no run of later dispatches calls the callback again: its counters and last value stay as they were |
| ReduxStore.PingIsTransient | HMReactiveReduxTests/ReduxStoreTest.swift:256-263 | a ping calls the ping subscriber once with the value, and leaves the ping path absent |
| ReduxStore.NormalPersists | HMReactiveReduxTests/ReduxStoreTest.swift:264-272 | a normal action keeps its value and does not call the ping subscriber |
| ReduxStore.PingRound | HMReactiveReduxTests/ReduxStoreTest.swift:262-265 | one ping-then-normal round calls the ping subscriber once with a value, leaves the ping path absent and stores the normal value |
| ReduxStore.DispatchStore.constructor | HMReactiveReduxTests/ReduxStoreTest.swift:89-91 | a new store holds the initial state and no subscriptions |
| ReduxStore.DispatchStore.Dispatch | HMReactiveReduxTests/ReduxStoreTest.swift:170 | the new store is `Dispatched(old, reduce, a)`; consistency is kept |
| ReduxStore.DispatchStore.Register | HMReactiveReduxTests/ReduxStoreTest.swift:164 | the new store is `Registered(old, id, path)`; returns the new callback's index |
| ReduxStore.DispatchStore.Unregister | HMReactiveReduxTests/ReduxStoreTest.swift:185 | the new store and the result are `Unregistered(old, id, path)` |
| ReduxStore.DispatchStore.UnregisterAll | HMReactiveReduxTests/ReduxStoreTest.swift:197 | the new store and the count are `UnregisteredAll(old, {id})` |
| ReduxStore.DispatchStore.UnregisterAllOf | HMReactiveReduxTests/ReduxStoreTest.swift:210 | the new store and the count are `UnregisteredAll(old, ids)` |
| ReduxStore.DispatchStore.LastState | HMReactiveReduxTests/ReduxStoreTest.swift:177 | returns the current state |
| ReduxStore.DispatchStore.LastValue | HMReactiveReduxTests/ReduxStoreTest.swift:178 | returns the value at the path, or a failure when the path is absent |
| ReduxStoreTest.InitialState | HMReactiveReduxTests/ReduxStoreTest.swift:73-87 | the tests' initial state holds 0 at the calculation path and nothing else |
| ReduxStoreTest.DispatchActionShouldUpdateState | HMReactiveReduxTests/ReduxStoreTest.swift:105-129 | after the dispatches, the state value and `lastValue` both equal the fold of `updateFn` from 0 |
| ReduxStoreTest.UnregisterShouldStopCallbacks | HMReactiveReduxTests/ReduxStoreTest.swift:183-198 | unregistering succeeds, and a later dispatch does not call the callback; unregistering again fails; `unregisterAll` then returns 0 |
| ReduxStoreTest.DispatchNonRxAction | HMReactiveReduxTests/ReduxStoreTest.swift:159-199 | the callback is called once per dispatch plus once for the replay; unregistering stops it; the second unregister is false; `unregisterAll` returns 0 |
| ReduxStoreTest.DistinctIdsCount | HMReactiveReduxTests/ReduxStoreTest.swift:203 | a sequence of distinct ids has as many elements as its set |
| ReduxStoreTest.RemoveCallbacksForDispatchStore | HMReactiveReduxTests/ReduxStoreTest.swift:201-214 | `unregisterAll(ids)` returns the number of distinct ids, and so `ids.count` for distinct ids |
| ReduxStoreTest.PingReadyNext | HMReactiveReduxTests/ReduxStoreTest.swift:262-265 | each round of the ping loop keeps the loop's invariant, one round further |
| ReduxStoreTest.PingActionShouldWork | HMReactiveReduxTests/ReduxStoreTest.swift:218-273 | after n rounds the ping callback has seen n values, "action1" is unavailable, and "action2" holds n - 1 |

## Left out

- Threads, locks and dispatch queues. Each locked block of the monitor is one atomic method. The
  store's serialized queue is a run of synchronous method calls. The tests' random QoS classes,
  asynchronous hand-offs and `Thread.sleep` settle windows are not modelled.
- The `DispatchStore` implementation and `TreeState` are not part of this model. The model assumes
  the store behaviour listed above, consistent with what the tests assert. `TreeState` is a flat
  map from full path to value, without nested sub-states. Its `map` is assumed to remove the value
  when the update yields a failure (`ReduxStore.MapValue`).
- The Rx store test `test_dispatchRxAction_shouldUpdateState` (`ReduxStoreTest.swift:131-157`) and
  the stream API it uses are not modelled.
- `ReduxStoreTest.DispatchActionShouldUpdateState`: the model dispatches in the test loop's order.
  The test hands each dispatch to a random global queue (`ReduxStoreTest.swift:166-172`), so the
  store may reduce the actions in any order. `ReduxStore.FoldOrderIrrelevant` shows that any
  reordering gives the same calculated value. Interleavings of dispatches with reads are not
  modelled.
- `ReduxStore.UpdateFn`: state values, the test's running `original` and the values carried by the
  ping test's actions are unbounded integers. Swift's `Int` arithmetic at
  `ReduxStoreTest.swift:45-48` and `:117` traps at `Int.max` and `Int.min`, and that trap is not
  modelled: there the model returns the shifted value. The tests cannot reach it, because 500
  shifts of at most 3 from 0 stay within ±1500.
- The tests' `callCount` of 500 is a parameter: the action sequence, or `n` in the ping test.
- `Awaitables.AsyncAwaitable.Await`: blocking on the dispatch group becomes the precondition that
  the signal has fired. A caller that would block forever is excluded, not modelled.
- `Awaitables.AsyncAwaitable.AwaitWithin`: the deadline arithmetic (milliseconds to `UInt64`
  nanoseconds, added to the clock) is not modelled. Whether the signal fires before the deadline
  is the job's state at the moment of the call.
- `Awaitables.AsyncAwaitable.AwaitWithin`: does not model the traps of that arithmetic. The
  conversion `UInt64(timeoutMillis * pow(10, 6))` (`Redux+Awaitable.swift:125`) traps for a NaN
  or infinite timeout, a negative timeout of one nanosecond or more, and a timeout of about
  1.8e13 ms or larger. The addition to the clock at line 126 can overflow. For every such timeout
  the model returns `timedOut` or the cached result instead.
- `Awaitables.AwaitableError.Description`: Swift's rendering of a `Double` inside the message is a
  parameter. The timeout in milliseconds is a `real`.
- `Awaitables.Any` stands for Swift's `Any` only as far as the modelled code uses it: `Void` or some
  other value.
- `Sagas.Scheduler` and `Sagas.StateGetter` are opaque handles. Only the default
  `SerialDispatchQueueScheduler(qos: .background)` is told apart.
- `Sagas.NewSagaInput`, `Sagas.LiftingSagaInput`: every defaulted call builds a new serial
  scheduler (`Redux+Saga.swift:46`, `:56`). In the model the default is the one value
  `SerialBackground`, so two inputs built with the default scheduler are equal here, though they
  hold distinct scheduler objects in Swift.
- Dispatchers are values, not closures. A dispatcher that itself calls back into the monitor (a
  reentrant call) is not modelled.
- `SagaMonitors.SagaMonitor.Dispatch`: the order in which Swift's dictionary is iterated is left
  open. The contract fixes the set of calls, each exactly once, but not their order.
- `ReduxStore.PingReduce`: `fatalError()` for any other action becomes the precondition that the
  action is a ping or a normal action.
