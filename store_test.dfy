/**
 * The store tests as client code of the store model.  Each method plays one
 * test: the random actions become a parameter, a callback's captured counter
 * is the subscriber's `calls` (or `successes`, for a callback that ignores
 * failures), and the test's assertions are the method's postconditions.
 */
module ReduxStoreTest {
  import opened Fp
  import opened ReduxStore

  /** The tests' initial state: 0 at the calculation path, and nothing else. */
  function InitialState(): (s: State)
    ensures s.Keys == {CalculationPath}
    ensures ValueAt(s, CalculationPath) == Success(0)
  {
    map[CalculationPath := 0]
  }

  /**
   * `test_dispatchAction_shouldUpdateState` on a dispatch store: dispatches the
   * actions while folding `updateFn` over them from 0, then reads the state
   * and the value at the calculation path.
   */
  method DispatchActionShouldUpdateState(store: DispatchStore, actions: seq<Action>)
    returns (original: int, currentValue: Value, lastValue: Value)
    requires store.Valid() && store.reduce == Reduce
    requires ValueAt(store.state, CalculationPath) == Success(0)
    modifies store
    ensures store.Valid() && store.Model() == DispatchAll(old(store.Model()), actions)
    ensures original == FoldOriginal(0, actions)
    ensures currentValue == Success(original) && lastValue == currentValue
  {
    ghost var m0 := store.Model();
    original := 0;
    var i := 0;
    while i < |actions|
      invariant 0 <= i <= |actions|
      invariant store.Valid()
      invariant store.Model() == DispatchAll(m0, actions[..i])
      invariant original == FoldOriginal(0, actions[..i])
    {
      original := UpdateFn(actions[i], Success(original)).value;
      store.Dispatch(Calc(actions[i]));
      assert actions[..i + 1][..i] == actions[..i];
      i := i + 1;
    }
    assert actions[..i] == actions;
    DispatchAllValue(m0, actions);
    var lastState := store.LastState();
    currentValue := ValueAt(lastState, CalculationPath);
    lastValue := store.LastValue(CalculationPath);
  }

  /**
   * The unregistering half of `test_dispatchNonRxAction_shouldUpdateState`:
   * unregistering a live subscription succeeds and stops its callback,
   * unregistering it again fails, and nothing of the registrant is left for
   * `unregisterAll`.
   */
  method UnregisterShouldStopCallbacks(store: DispatchStore, id: RegistrantId, path: Path, sub: nat)
    returns (didUnregister: bool, callsAfterUnregister: nat, didUnregisterAgain: bool, unregistered: nat)
    requires store.Valid() && store.reduce == Reduce
    requires Live(store.Model(), sub) && store.subscribers[sub].key == Key(id, path)
    requires store.table.Keys == {Key(id, path)}
    modifies store
    ensures didUnregister && callsAfterUnregister == old(store.subscribers[sub].calls)
    ensures !didUnregisterAgain && unregistered == 0
  {
    didUnregister := store.Unregister(id, path);
    store.Dispatch(Calc(AddTwo));
    callsAfterUnregister := store.subscribers[sub].calls;

    didUnregisterAgain := store.Unregister(id, path);
    UnregisterAllNoneLeft(store.Model(), {id});
    unregistered := store.UnregisterAll(id);
  }

  /**
   * `test_dispatchNonRxAction_shouldUpdateState`: one registration, the
   * dispatches, then unregistering twice and unregistering everything of the
   * registrant.
   */
  method DispatchNonRxAction(actions: seq<Action>)
    returns (original: int, currentValue: Value, lastValue: Value, callsAfterDispatches: nat,
             didUnregister: bool, callsAfterUnregister: nat, didUnregisterAgain: bool, unregistered: nat)
    ensures original == FoldOriginal(0, actions)
    ensures currentValue == Success(original) && lastValue == currentValue
    ensures callsAfterDispatches == |actions| + 1
    ensures didUnregister && callsAfterUnregister == |actions| + 1
    ensures !didUnregisterAgain && unregistered == 0
  {
    var store := new DispatchStore(InitialState(), Reduce);
    var id, updateId := "Registrant", CalculationPath;
    var sub := store.Register(id, updateId);
    ghost var m0 := store.Model();
    DispatchAllCalls(m0, actions, sub);
    original, currentValue, lastValue := DispatchActionShouldUpdateState(store, actions);
    callsAfterDispatches := store.subscribers[sub].calls;
    didUnregister, callsAfterUnregister, didUnregisterAgain, unregistered :=
      UnregisterShouldStopCallbacks(store, id, updateId, sub);
  }

  /** The registrants hold pairwise distinct ids. */
  predicate Distinct(ids: seq<RegistrantId>)
  {
    forall i, j :: 0 <= i < j < |ids| ==> ids[i] != ids[j]
  }

  /** Distinct ids are as many as the sequence is long. */
  lemma {:induction false} DistinctIdsCount(ids: seq<RegistrantId>)
    requires Distinct(ids)
    ensures |set id | id in ids| == |ids|
  {
    if ids != [] {
      var init := ids[..|ids| - 1];
      DistinctIdsCount(init);
      assert (set id | id in ids) == (set id | id in init) + {ids[|ids| - 1]};
      assert ids[|ids| - 1] !in (set id | id in init);
    }
  }

  /**
   * `test_removeCallbacksForDispatchStore_shouldWork`: registers every id on
   * the calculation path, then unregisters them all at once.
   */
  method RemoveCallbacksForDispatchStore(ids: seq<RegistrantId>) returns (unregistered: nat)
    ensures unregistered == |set id | id in ids|
    ensures Distinct(ids) ==> unregistered == |ids|
  {
    var store := new DispatchStore(InitialState(), Reduce);
    var i := 0;
    while i < |ids|
      invariant 0 <= i <= |ids|
      invariant store.Valid()
      invariant store.table.Keys == set id | id in ids[..i] :: Key(id, CalculationPath)
    {
      var _ := store.Register(ids[i], CalculationPath);
      assert ids[..i + 1] == ids[..i] + [ids[i]];
      i := i + 1;
    }
    assert ids[..i] == ids;
    UnregisterAllOnePerRegistrant(store.Model(), (set id | id in ids), CalculationPath);
    unregistered := store.UnregisterAllOf(ids);
    if Distinct(ids) {
      DistinctIdsCount(ids);
    }
  }

  /**
   * After `rounds` rounds of the ping test: the ping subscriber is live and
   * has been called with `rounds` values, the ping path is absent, and the
   * normal path holds the last round's value.
   */
  ghost predicate PingReady(m: Snapshot, sub: nat, rounds: nat)
  {
    && Consistent(m) && Live(m, sub) && m.subscribers[sub].key.path == PingPath
    && m.subscribers[sub].successes == rounds && PingPath !in m.state
    && (rounds > 0 ==> ValueAt(m.state, NormalPath) == Success(rounds - 1))
  }

  /** A round of the ping test keeps `PingReady`, one round further. */
  lemma PingReadyNext(m: Snapshot, sub: nat, rounds: nat)
    requires PingReady(m, sub, rounds)
    ensures PingReady(Dispatched(Dispatched(m, PingReduce, PingAction1(rounds)), PingReduce, NormalAction2(rounds)), sub, rounds + 1)
  {
    PingRound(m, sub, rounds);
  }

  /**
   * `test_pingAction_shouldWork`: a callback on the ping path that counts only
   * values, then `n` rounds of a ping dispatch and a normal dispatch.
   */
  method PingActionShouldWork(n: nat) returns (actualCallCount: nat, lastPing: Value, lastNormal: Value)
    ensures actualCallCount == n
    ensures lastPing.Failure?
    ensures n > 0 ==> lastNormal == Success(n - 1)
  {
    var store := new DispatchStore(map[], PingReduce);
    var sub := store.Register("123", PingPath);
    var i := 0;
    while i < n
      invariant 0 <= i <= n
      invariant store.reduce == PingReduce && PingReady(store.Model(), sub, i)
    {
      ghost var m := store.Model();
      PingReadyNext(m, sub, i);
      store.Dispatch(PingAction1(i));
      store.Dispatch(NormalAction2(i));
      assert store.Model() == Dispatched(Dispatched(m, PingReduce, PingAction1(i)), PingReduce, NormalAction2(i));
      i := i + 1;
    }
    actualCallCount := store.subscribers[sub].successes;
    lastPing := store.LastValue(PingPath);
    lastNormal := store.LastValue(NormalPath);
  }
}
