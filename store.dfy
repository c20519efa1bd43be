/**
 * The dispatch store exercised by the store tests, and the reducers those tests
 * define.
 *
 * State is a map from a dotted path to an integer (the tests' `TreeState<Int>`).
 * The store keeps the state, a subscription table keyed by (registrant id,
 * path), and the registered callbacks with what each has observed: how often it
 * was called, how many of those calls carried a value, and the last value it
 * was handed.  A callback stays in `subscribers` after it is unregistered,
 * because the counters it captured outlive its registration; the table alone
 * decides which callbacks are still live.
 *
 * `dispatch` is one synchronous step: reduce, notify every live subscription
 * whose path changed value, and drop the value of a ping action's path.
 */
module ReduxStore {
  import opened Fp

  type Path = string
  type RegistrantId = string
  type State = map<Path, int>

  /** The failure that stands in for a value absent from the state. */
  datatype StoreError = Unavailable

  type Value = Try<int, StoreError>

  /** `stateValue(path)` / `lastValue(path)`: the value at a path, or `Unavailable`. */
  function ValueAt(s: State, p: Path): (v: Value)
    ensures v.Success? <==> p in s
    ensures v.Success? ==> v.value == s[p]
    ensures v.Failure? ==> v.error == Unavailable
  {
    if p in s then Success(s[p]) else Failure(Unavailable)
  }

  /**
   * `TreeState.map(path, fn)`: the value at `p` becomes `f` of the old one (a
   * failure removes it); every other path keeps its value.
   */
  function MapValue(s: State, p: Path, f: Value -> Value): (r: State)
    ensures ValueAt(r, p) == f(ValueAt(s, p))
    ensures forall q :: q != p ==> ValueAt(r, q) == ValueAt(s, q)
  {
    match f(ValueAt(s, p))
    case Success(x) => s[p := x]
    case Failure(Unavailable) => s - {p}
  }

  // ---------------------------------------------------------------------------
  // The actions and reducers of the store tests

  /** The tests' `Action` enum. */
  datatype Action = Add | AddTwo | AddThree | Minus

  /** How far an action's `updateFn` moves a present value. */
  function Delta(a: Action): int
  {
    match a
    case Add => 1
    case AddTwo => 2
    case AddThree => 3
    case Minus => -1
  }

  /** `Action.updateFn()`, applied: maps the value by +1, +2, +3 or -1. */
  function UpdateFn(a: Action, v: Value): (r: Value)
    ensures r.Success? <==> v.Success?
    ensures v.Success? ==> r.value == v.value + Delta(a)
  {
    match a
    case Add => v.Map(x => x + 1)
    case AddTwo => v.Map(x => x + 2)
    case AddThree => v.Map(x => x + 3)
    case Minus => v.Map(x => x - 1)
  }

  /** Every update changes a present value, so every such dispatch notifies. */
  lemma UpdateFnChangesValue(a: Action, v: Value)
    requires v.Success?
    ensures UpdateFn(a, v) != v
  {
  }

  /** The tests' `updateId`, the path of the calculated value. */
  const CalculationPath: Path := "layer1.layer2.layer3.calculation"

  /** `PingAction.pingValuePath`. */
  const PingPath: Path := "action1"

  /** The path `NormalAction.action2` writes. */
  const NormalPath: Path := "action2"

  /** The action kinds the tests dispatch; `Foreign` is any other action. */
  datatype ReduxAction =
    | Calc(op: Action)
    | PingAction1(value: int)
    | NormalAction2(value: int)
    | Foreign(tag: int)

  /** The path of a ping action (`ReduxPingActionType.pingValuePath`); other actions have none. */
  function PingValuePath(a: ReduxAction): (p: Option<Path>)
    ensures p.Some? <==> a.PingAction1?
    ensures p.Some? ==> p.value == PingPath
  {
    if a.PingAction1? then Some(PingPath) else None
  }

  /**
   * The tests' `reduce`: an `Action` updates the calculation path and nothing
   * else; any other action leaves the state unchanged.
   */
  function Reduce(s: State, a: ReduxAction): (r: State)
    ensures a.Calc? ==> ValueAt(r, CalculationPath) == UpdateFn(a.op, ValueAt(s, CalculationPath))
    ensures a.Calc? ==> forall q :: q != CalculationPath ==> ValueAt(r, q) == ValueAt(s, q)
    ensures !a.Calc? ==> r == s
  {
    match a
    case Calc(op) => MapValue(s, CalculationPath, v => UpdateFn(op, v))
    case _ => s
  }

  /**
   * The ping test's reducer: writes the carried value at "action1" or
   * "action2".  Any other action is a `fatalError()`, hence the precondition.
   */
  function PingReduce(s: State, a: ReduxAction): (r: State)
    requires a.PingAction1? || a.NormalAction2?
    ensures a.PingAction1? ==> r.Keys == s.Keys + {PingPath} && r[PingPath] == a.value
    ensures a.NormalAction2? ==> r.Keys == s.Keys + {NormalPath} && r[NormalPath] == a.value
    ensures forall q :: q in s && q != (if a.PingAction1? then PingPath else NormalPath) ==> r[q] == s[q]
  {
    match a
    case PingAction1(v) => s[PingPath := v]
    case NormalAction2(v) => s[NormalPath := v]
  }

  // ---------------------------------------------------------------------------
  // The store as a value

  /** A subscription's key: the registrant and the observed path. */
  datatype Key = Key(id: RegistrantId, path: Path)

  /** A registered callback: its key, how often it was called, how many calls carried a value, the last value. */
  datatype Subscriber = Subscriber(key: Key, calls: nat, successes: nat, last: Value)

  /** The store's whole state: the reduced state, the table (key to callback index) and the callbacks. */
  datatype Snapshot = Snapshot(state: State, table: map<Key, nat>, subscribers: seq<Subscriber>)

  /** Every table entry names a callback registered under that very key. */
  ghost predicate Consistent(m: Snapshot)
  {
    forall k :: k in m.table ==> m.table[k] < |m.subscribers| && m.subscribers[m.table[k]].key == k
  }

  /** Callback `i` is still registered. */
  predicate Live(m: Snapshot, i: nat)
  {
    i < |m.subscribers| && m.subscribers[i].key in m.table && m.table[m.subscribers[i].key] == i
  }

  /** Calling a callback with `v`. */
  function Deliver(s: Subscriber, v: Value): (r: Subscriber)
    ensures r.key == s.key && r.calls == s.calls + 1 && r.last == v
    ensures r.successes == s.successes + (if v.Success? then 1 else 0)
  {
    Subscriber(s.key, s.calls + 1, s.successes + (if v.Success? then 1 else 0), v)
  }

  /** Whether a transition from `before` to `after` changes the value at `p`. */
  predicate Changed(before: State, after: State, p: Path)
  {
    ValueAt(before, p) != ValueAt(after, p)
  }

  /** Every live callback whose path changed value is called once with the new value. */
  function Notified(m: Snapshot, next: State): (subs: seq<Subscriber>)
    ensures |subs| == |m.subscribers|
    ensures forall i :: 0 <= i < |subs| ==>
      subs[i] == (if Live(m, i) && Changed(m.state, next, m.subscribers[i].key.path)
        then Deliver(m.subscribers[i], ValueAt(next, m.subscribers[i].key.path))
        else m.subscribers[i])
  {
    seq(|m.subscribers|, i requires 0 <= i < |m.subscribers| =>
      if Live(m, i) && Changed(m.state, next, m.subscribers[i].key.path)
      then Deliver(m.subscribers[i], ValueAt(next, m.subscribers[i].key.path))
      else m.subscribers[i])
  }

  /** A ping action's value does not outlive its dispatch. */
  function Cleared(s: State, a: ReduxAction): (r: State)
    ensures a.PingAction1? ==> r == s - {PingPath}
    ensures !a.PingAction1? ==> r == s
  {
    match PingValuePath(a)
    case Some(p) => s - {p}
    case None => s
  }

  /**
   * `dispatch(a)`: reduce, notify the live subscriptions whose path changed
   * value (each exactly once, with the reduced value), then clear a ping
   * action's path.  The table is untouched and unregistered callbacks are not
   * called.
   */
  function Dispatched(m: Snapshot, reduce: (State, ReduxAction) --> State, a: ReduxAction): (r: Snapshot)
    requires reduce.requires(m.state, a)
    ensures r.state == Cleared(reduce(m.state, a), a)
    ensures r.table == m.table && |r.subscribers| == |m.subscribers|
    ensures forall i :: 0 <= i < |r.subscribers| ==> r.subscribers[i].key == m.subscribers[i].key
    ensures forall i :: 0 <= i < |r.subscribers| && !Live(m, i) ==> r.subscribers[i] == m.subscribers[i]
    ensures forall i :: 0 <= i < |r.subscribers| && Live(m, i) ==>
      var p := m.subscribers[i].key.path;
      r.subscribers[i] == if Changed(m.state, reduce(m.state, a), p)
        then Deliver(m.subscribers[i], ValueAt(reduce(m.state, a), p))
        else m.subscribers[i]
    ensures Consistent(m) ==> Consistent(r)
  {
    var next := reduce(m.state, a);
    Snapshot(Cleared(next, a), m.table, Notified(m, next))
  }

  /** A callback before its first call. */
  function Unused(k: Key): Subscriber
  {
    Subscriber(k, 0, 0, Failure(Unavailable))
  }

  /**
   * `register(id, path, cb)`: adds the callback, points the key at it
   * (replacing an earlier registration under the same key) and replays the
   * path's current value to it once.
   */
  function Registered(m: Snapshot, id: RegistrantId, p: Path): (r: Snapshot)
    ensures r.state == m.state
    ensures r.table == m.table[Key(id, p) := |m.subscribers|]
    ensures |r.subscribers| == |m.subscribers| + 1 && r.subscribers[..|m.subscribers|] == m.subscribers
    ensures r.subscribers[|m.subscribers|] == Deliver(Unused(Key(id, p)), ValueAt(m.state, p))
    ensures Live(r, |m.subscribers|)
    ensures Consistent(m) ==> Consistent(r)
  {
    var k := Key(id, p);
    Snapshot(m.state, m.table[k := |m.subscribers|], m.subscribers + [Deliver(Unused(k), ValueAt(m.state, p))])
  }

  /** `unregister(id, path)`: removes the key; reports whether it was registered. */
  function Unregistered(m: Snapshot, id: RegistrantId, p: Path): (r: (Snapshot, bool))
    ensures r.1 <==> Key(id, p) in m.table
    ensures r.0.table == m.table - {Key(id, p)}
    ensures r.0.state == m.state && r.0.subscribers == m.subscribers
    ensures Consistent(m) ==> Consistent(r.0)
  {
    (m.(table := m.table - {Key(id, p)}), Key(id, p) in m.table)
  }

  /** The table keys registered by any of `ids`. */
  function KeysOf(table: map<Key, nat>, ids: set<RegistrantId>): (ks: set<Key>)
    ensures forall k :: k in ks <==> k in table && k.id in ids
  {
    set k | k in table && k.id in ids
  }

  /** `unregisterAll(ids)`: removes every key of the given registrants; returns how many it removed. */
  function UnregisteredAll(m: Snapshot, ids: set<RegistrantId>): (r: (Snapshot, nat))
    ensures r.1 == |KeysOf(m.table, ids)|
    ensures r.0.table.Keys == m.table.Keys - KeysOf(m.table, ids)
    ensures forall k :: k in r.0.table ==> r.0.table[k] == m.table[k]
    ensures r.0.state == m.state && r.0.subscribers == m.subscribers
    ensures Consistent(m) ==> Consistent(r.0)
  {
    var gone := KeysOf(m.table, ids);
    (m.(table := map k | k in m.table && k !in gone :: m.table[k]), |gone|)
  }

  // ---------------------------------------------------------------------------
  // Properties of the store

  /** A registration that is removed reports true once and false after that. */
  lemma UnregisterTwice(m: Snapshot, id: RegistrantId, p: Path)
    ensures var (m1, first) := Unregistered(m, id, p);
      && first == (Key(id, p) in m.table)
      && !Unregistered(m1, id, p).1
  {
  }

  /** A registrant with no remaining registrations has nothing to remove. */
  lemma UnregisterAllNoneLeft(m: Snapshot, ids: set<RegistrantId>)
    requires forall k :: k in m.table ==> k.id !in ids
    ensures UnregisteredAll(m, ids).1 == 0
  {
    assert KeysOf(m.table, ids) == {};
  }

  /** `unregisterAll` removes everything of its registrants: a second call returns 0. */
  lemma UnregisterAllAgain(m: Snapshot, ids: set<RegistrantId>)
    ensures UnregisteredAll(UnregisteredAll(m, ids).0, ids).1 == 0
  {
    UnregisterAllNoneLeft(UnregisteredAll(m, ids).0, ids);
  }

  /** The keys of distinct registrants on one path are distinct. */
  lemma {:induction false} KeysOnPathCount(ids: set<RegistrantId>, p: Path)
    ensures |set id | id in ids :: Key(id, p)| == |ids|
    decreases ids
  {
    if ids != {} {
      var x :| x in ids;
      var rest := ids - {x};
      KeysOnPathCount(rest, p);
      assert (set id | id in ids :: Key(id, p)) == (set id | id in rest :: Key(id, p)) + {Key(x, p)};
      assert Key(x, p) !in (set id | id in rest :: Key(id, p));
    }
  }

  /** When each registrant holds one registration, on one path, `unregisterAll` returns their number. */
  lemma UnregisterAllOnePerRegistrant(m: Snapshot, ids: set<RegistrantId>, p: Path)
    requires m.table.Keys == set id | id in ids :: Key(id, p)
    ensures UnregisteredAll(m, ids).1 == |ids|
  {
    assert KeysOf(m.table, ids) == set id | id in ids :: Key(id, p);
    KeysOnPathCount(ids, p);
  }

  /** The total shift of a run of actions. */
  function SumDeltas(actions: seq<Action>): int
  {
    if actions == [] then 0 else SumDeltas(actions[..|actions| - 1]) + Delta(actions[|actions| - 1])
  }

  /**
   * The test's running `original` after folding `updateFn` over the actions,
   * left to right, starting from `original`: the start plus every action's shift.
   */
  function FoldOriginal(original: int, actions: seq<Action>): (r: int)
    ensures r == original + SumDeltas(actions)
  {
    if actions == [] then original
    else UpdateFn(actions[|actions| - 1], Success(FoldOriginal(original, actions[..|actions| - 1]))).value
  }

  /** Dispatching the actions one after the other through a store reducing with `Reduce`. */
  function DispatchAll(m: Snapshot, actions: seq<Action>): (r: Snapshot)
    ensures r.table == m.table && |r.subscribers| == |m.subscribers|
    ensures forall i :: 0 <= i < |r.subscribers| ==> r.subscribers[i].key == m.subscribers[i].key
    ensures Consistent(m) ==> Consistent(r)
  {
    if actions == [] then m
    else Dispatched(DispatchAll(m, actions[..|actions| - 1]), Reduce, Calc(actions[|actions| - 1]))
  }

  /** After a sequence of dispatches the calculated value is the fold of `updateFn` over them. */
  lemma {:induction false} DispatchAllValue(m: Snapshot, actions: seq<Action>)
    requires CalculationPath in m.state
    ensures ValueAt(DispatchAll(m, actions).state, CalculationPath)
      == Success(FoldOriginal(m.state[CalculationPath], actions))
  {
    if actions != [] {
      DispatchAllValue(m, actions[..|actions| - 1]);
    }
  }

  /** The shift of a concatenation is the sum of the shifts. */
  lemma {:induction false} SumDeltasAppend(s: seq<Action>, t: seq<Action>)
    ensures SumDeltas(s + t) == SumDeltas(s) + SumDeltas(t)
    decreases |t|
  {
    if t != [] {
      var init := t[..|t| - 1];
      assert (s + t)[..|s + t| - 1] == s + init;
      SumDeltasAppend(s, init);
    } else {
      assert s + t == s;
    }
  }

  /** Taking one action out of a run takes its shift out of the total. */
  lemma SumDeltasRemove(t: seq<Action>, j: nat)
    requires j < |t|
    ensures SumDeltas(t) == SumDeltas(t[..j] + t[j + 1..]) + Delta(t[j])
  {
    assert t == t[..j] + ([t[j]] + t[j + 1..]);
    SumDeltasAppend(t[..j], [t[j]] + t[j + 1..]);
    SumDeltasAppend([t[j]], t[j + 1..]);
    SumDeltasAppend(t[..j], t[j + 1..]);
    assert SumDeltas([t[j]]) == Delta(t[j]) by { assert [t[j]][..0] == []; }
  }

  /** Taking one element out of a sequence takes it out of the sequence's multiset. */
  lemma MultisetRemove(t: seq<Action>, j: nat)
    requires j < |t|
    ensures multiset(t[..j] + t[j + 1..]) == multiset(t) - multiset{t[j]}
  {
    assert t == t[..j] + [t[j]] + t[j + 1..];
  }

  /** The total shift depends only on which actions occur, not on their order. */
  lemma {:induction false} SumDeltasPermutation(s: seq<Action>, t: seq<Action>)
    requires multiset(s) == multiset(t)
    ensures SumDeltas(s) == SumDeltas(t)
    decreases |s|
  {
    if s != [] {
      var last := |s| - 1;
      assert s[last] in multiset(t);
      var j :| 0 <= j < |t| && t[j] == s[last];
      MultisetRemove(s, last);
      MultisetRemove(t, j);
      assert s[..last] + s[last + 1..] == s[..last];
      SumDeltasPermutation(s[..last], t[..j] + t[j + 1..]);
      SumDeltasRemove(t, j);
    } else {
      assert t == [];
    }
  }

  /**
   * The test folds `original` in its loop's order while the store may reduce
   * the same actions in another order; since every update is a shift, any
   * reordering of the actions gives the same fold, and the same calculated
   * value in the store.
   */
  lemma FoldOrderIrrelevant(m: Snapshot, actions: seq<Action>, reordered: seq<Action>)
    requires CalculationPath in m.state && multiset(actions) == multiset(reordered)
    ensures FoldOriginal(m.state[CalculationPath], actions) == FoldOriginal(m.state[CalculationPath], reordered)
    ensures ValueAt(DispatchAll(m, reordered).state, CalculationPath)
      == Success(FoldOriginal(m.state[CalculationPath], actions))
  {
    SumDeltasPermutation(actions, reordered);
    DispatchAllValue(m, reordered);
  }

  /**
   * A live subscriber of the calculation path is called once per dispatch, and
   * is last handed the calculated value.
   */
  lemma {:induction false} DispatchAllCalls(m: Snapshot, actions: seq<Action>, i: nat)
    requires CalculationPath in m.state && Live(m, i) && m.subscribers[i].key.path == CalculationPath
    ensures DispatchAll(m, actions).subscribers[i].calls == m.subscribers[i].calls + |actions|
    ensures actions != [] ==>
      DispatchAll(m, actions).subscribers[i].last == Success(FoldOriginal(m.state[CalculationPath], actions))
  {
    if actions != [] {
      var init := actions[..|actions| - 1];
      DispatchAllCalls(m, init, i);
      DispatchAllValue(m, init);
      DispatchAllValue(m, actions);
      var before := DispatchAll(m, init);
      assert Live(before, i);
      UpdateFnChangesValue(actions[|actions| - 1], ValueAt(before.state, CalculationPath));
    }
  }

  /**
   * Once its key is unregistered, a callback is never called again, by any
   * run of dispatches.
   */
  lemma {:induction false} NeverAgain(m: Snapshot, id: RegistrantId, p: Path, i: nat, actions: seq<Action>)
    requires Consistent(m) && i < |m.subscribers| && m.subscribers[i].key == Key(id, p)
    ensures DispatchAll(Unregistered(m, id, p).0, actions).subscribers[i] == m.subscribers[i]
  {
    if actions != [] {
      var m1 := Unregistered(m, id, p).0;
      var init := actions[..|actions| - 1];
      NeverAgain(m, id, p, i, init);
      assert !Live(DispatchAll(m1, init), i);
    }
  }

  /**
   * A ping dispatch calls the ping path's live subscriber once with the
   * pinged value, and leaves no value at the ping path behind.
   */
  lemma PingIsTransient(m: Snapshot, i: nat, v: int)
    requires Live(m, i) && m.subscribers[i].key.path == PingPath && PingPath !in m.state
    ensures var r := Dispatched(m, PingReduce, PingAction1(v));
      && r.subscribers[i].successes == m.subscribers[i].successes + 1
      && r.subscribers[i].calls == m.subscribers[i].calls + 1
      && r.subscribers[i].last == Success(v)
      && ValueAt(r.state, PingPath).Failure?
      && r.state == m.state
  {
    var next := PingReduce(m.state, PingAction1(v));
    assert Changed(m.state, next, PingPath);
  }

  /**
   * A normal dispatch keeps its value, and does not call a subscriber of the
   * (absent) ping path.
   */
  lemma NormalPersists(m: Snapshot, i: nat, v: int)
    requires i < |m.subscribers| && m.subscribers[i].key.path == PingPath && PingPath !in m.state
    ensures var r := Dispatched(m, PingReduce, NormalAction2(v));
      && r.subscribers[i] == m.subscribers[i]
      && ValueAt(r.state, NormalPath) == Success(v)
      && PingPath !in r.state
  {
    assert PingPath != NormalPath by { assert PingPath[6] != NormalPath[6]; }
    var next := PingReduce(m.state, NormalAction2(v));
    assert !Changed(m.state, next, PingPath);
  }

  /**
   * One round of the ping test: a ping dispatch and then a normal dispatch
   * with the same value call a ping subscriber once with a value, leave the
   * ping path absent and leave the value at the normal path.
   */
  lemma PingRound(m: Snapshot, i: nat, v: int)
    requires Consistent(m) && Live(m, i) && m.subscribers[i].key.path == PingPath && PingPath !in m.state
    ensures var r := Dispatched(Dispatched(m, PingReduce, PingAction1(v)), PingReduce, NormalAction2(v));
      && Consistent(r) && Live(r, i) && r.subscribers[i].key.path == PingPath
      && r.subscribers[i].successes == m.subscribers[i].successes + 1
      && PingPath !in r.state
      && ValueAt(r.state, NormalPath) == Success(v)
  {
    PingIsTransient(m, i, v);
    NormalPersists(Dispatched(m, PingReduce, PingAction1(v)), i, v);
  }

  // ---------------------------------------------------------------------------
  // The store as an object

  /** `DispatchStore`, with `dispatch` a synchronous reduce-then-notify step. */
  class DispatchStore {
    var state: State
    var table: map<Key, nat>
    var subscribers: seq<Subscriber>
    const reduce: (State, ReduxAction) --> State

    function Model(): Snapshot
      reads this
    {
      Snapshot(state, table, subscribers)
    }

    ghost predicate Valid()
      reads this
    {
      Consistent(Model())
    }

    /** `createInstance(initialState, reducer, queue)`: no subscriptions yet. */
    constructor (initial: State, reduce: (State, ReduxAction) --> State)
      ensures Valid() && Model() == Snapshot(initial, map[], [])
      ensures this.reduce == reduce
    {
      state := initial;
      table := map[];
      subscribers := [];
      this.reduce := reduce;
    }

    method Dispatch(a: ReduxAction)
      requires Valid() && reduce.requires(state, a)
      modifies this
      ensures Valid() && Model() == Dispatched(old(Model()), reduce, a)
    {
      var next := reduce(state, a);
      subscribers := Notified(Model(), next);
      state := Cleared(next, a);
    }

    method Register(id: RegistrantId, path: Path) returns (subscription: nat)
      requires Valid()
      modifies this
      ensures Valid() && Model() == Registered(old(Model()), id, path)
      ensures subscription == old(|subscribers|)
    {
      subscription := |subscribers|;
      var key := Key(id, path);
      table := table[key := subscription];
      subscribers := subscribers + [Deliver(Unused(key), ValueAt(state, path))];
    }

    method Unregister(id: RegistrantId, path: Path) returns (removed: bool)
      requires Valid()
      modifies this
      ensures Valid() && (Model(), removed) == Unregistered(old(Model()), id, path)
    {
      var key := Key(id, path);
      removed := key in table;
      table := table - {key};
    }

    method UnregisterAll(id: RegistrantId) returns (count: nat)
      requires Valid()
      modifies this
      ensures Valid() && (Model(), count) == UnregisteredAll(old(Model()), {id})
    {
      var gone := set k | k in table && k.id == id;
      assert gone == KeysOf(table, {id});
      table := map k | k in table && k !in gone :: table[k];
      count := |gone|;
    }

    method UnregisterAllOf(ids: seq<RegistrantId>) returns (count: nat)
      requires Valid()
      modifies this
      ensures Valid() && (Model(), count) == UnregisteredAll(old(Model()), set id | id in ids)
    {
      var gone := set k | k in table && k.id in ids;
      assert gone == KeysOf(table, set id | id in ids);
      table := map k | k in table && k !in gone :: table[k];
      count := |gone|;
    }

    method LastState() returns (s: State)
      ensures s == state
    {
      s := state;
    }

    method LastValue(path: Path) returns (v: Value)
      ensures v.Success? <==> path in state
      ensures v.Success? ==> v.value == state[path]
    {
      v := ValueAt(state, path);
    }
  }
}
