/**
 * The saga monitor: a registry from unique id to dispatcher, through which an
 * effect broadcasts an action to every currently registered dispatcher.
 *
 * Every block the source runs under the monitor's lock is one atomic method
 * here.  A dispatcher is an opaque value of type `D`; invoking it is recorded
 * in the call log `calls`, which is what the broadcast is specified against.
 */
module SagaMonitors {
  import Awaitables

  /** `UniqueIDProviderType.UniqueID`, a 64-bit signed integer. */
  newtype UniqueId = x: int | -0x8000_0000_0000_0000 <= x < 0x8000_0000_0000_0000

  /** One invocation of a registered dispatcher. */
  datatype Call<D, A> = Call(id: UniqueId, dispatcher: D, action: A)

  /**
   * `calls` is one broadcast of `a` over `registry`: every registered entry is
   * called exactly once, with its own dispatcher and with `a`, and nothing else is.
   * The order is left open.
   */
  ghost predicate IsBroadcast<D, A>(calls: seq<Call<D, A>>, registry: map<UniqueId, D>, a: A)
  {
    && (forall i :: 0 <= i < |calls| ==>
          calls[i].id in registry && calls[i].dispatcher == registry[calls[i].id] && calls[i].action == a)
    && (forall i, j :: 0 <= i < j < |calls| ==> calls[i].id != calls[j].id)
    && (forall id :: id in registry ==> exists i :: 0 <= i < |calls| && calls[i].id == id)
  }

  /** How many calls of the log went to the entry `id`. */
  function CallsTo<D, A>(calls: seq<Call<D, A>>, id: UniqueId): (n: nat)
    ensures n <= |calls|
    ensures n == 0 <==> forall i :: 0 <= i < |calls| ==> calls[i].id != id
  {
    if calls == [] then 0
    else CallsTo(calls[..|calls| - 1], id) + (if calls[|calls| - 1].id == id then 1 else 0)
  }

  /** A log whose ids are pairwise distinct calls each id at most once. */
  lemma {:induction false} DistinctCallsAtMostOnce<D, A>(calls: seq<Call<D, A>>, id: UniqueId)
    requires forall i, j :: 0 <= i < j < |calls| ==> calls[i].id != calls[j].id
    ensures CallsTo(calls, id) <= 1
    ensures (exists i :: 0 <= i < |calls| && calls[i].id == id) ==> CallsTo(calls, id) == 1
  {
    if calls != [] {
      var init := calls[..|calls| - 1];
      assert forall i :: 0 <= i < |init| ==> init[i] == calls[i];
      DistinctCallsAtMostOnce(init, id);
      if calls[|calls| - 1].id == id {
        assert forall i :: 0 <= i < |init| ==> init[i].id != id;
      } else {
        if exists i :: 0 <= i < |calls| && calls[i].id == id {
          var i :| 0 <= i < |calls| && calls[i].id == id;
          assert i < |init| && init[i].id == id;
        }
      }
    }
  }

  /** A broadcast calls each registered dispatcher exactly once and no other one. */
  lemma BroadcastCallsEachOnce<D, A>(calls: seq<Call<D, A>>, registry: map<UniqueId, D>, a: A, id: UniqueId)
    requires IsBroadcast(calls, registry, a)
    ensures CallsTo(calls, id) == if id in registry then 1 else 0
  {
    DistinctCallsAtMostOnce(calls, id);
  }

  /** A dispatcher removed before a broadcast is not called by it. */
  lemma BroadcastSkipsRemoved<D, A>(calls: seq<Call<D, A>>, registry: map<UniqueId, D>, a: A, id: UniqueId)
    requires IsBroadcast(calls, Removed(registry, id), a)
    ensures CallsTo(calls, id) == 0
  {
    BroadcastCallsEachOnce(calls, Removed(registry, id), a, id);
  }

  /** `_dispatchers[uniqueID] = dispatch`: inserts or replaces one entry. */
  function Added<D>(registry: map<UniqueId, D>, id: UniqueId, d: D): (r: map<UniqueId, D>)
    ensures r.Keys == registry.Keys + {id}
    ensures r[id] == d
    ensures forall k :: k in registry && k != id ==> r[k] == registry[k]
  {
    registry[id := d]
  }

  /** `_dispatchers.removeValue(forKey: uniqueID)`: deletes one entry, if present. */
  function Removed<D>(registry: map<UniqueId, D>, id: UniqueId): (r: map<UniqueId, D>)
    ensures r.Keys == registry.Keys - {id}
    ensures forall k :: k in r ==> r[k] == registry[k]
    ensures id !in registry ==> r == registry
  {
    registry - {id}
  }

  /** Removing twice is removing once. */
  lemma RemovedIdempotent<D>(registry: map<UniqueId, D>, id: UniqueId)
    ensures Removed(Removed(registry, id), id) == Removed(registry, id)
  {
  }

  /** Adding and then removing the same id leaves the other entries as they were. */
  lemma AddedThenRemoved<D>(registry: map<UniqueId, D>, id: UniqueId, d: D)
    ensures Removed(Added(registry, id, d), id) == Removed(registry, id)
  {
    assert Removed(Added(registry, id, d), id).Keys == Removed(registry, id).Keys;
  }

  /** `SagaMonitor`, with its lock-guarded dictionary and a log of the dispatcher calls. */
  class SagaMonitor<D, A> {
    var dispatchers: map<UniqueId, D>
    var calls: seq<Call<D, A>>

    /** A new monitor has no dispatchers and has called none. */
    constructor ()
      ensures dispatchers == map[] && calls == []
    {
      dispatchers := map[];
      calls := [];
    }

    method AddDispatcher(id: UniqueId, d: D)
      modifies this
      ensures dispatchers == Added(old(dispatchers), id, d)
      ensures calls == old(calls)
    {
      dispatchers := dispatchers[id := d];
    }

    method RemoveDispatcher(id: UniqueId)
      modifies this
      ensures dispatchers == Removed(old(dispatchers), id)
      ensures calls == old(calls)
    {
      dispatchers := dispatchers - {id};
    }

    /**
     * `dispatch`: calls every registered dispatcher once with `a`, leaves the
     * registry alone and returns the empty awaitable.
     */
    method Dispatch(a: A) returns (job: Awaitables.Awaitable<Awaitables.Any>)
      modifies this
      ensures dispatchers == old(dispatchers)
      ensures |calls| >= |old(calls)| && calls[..|old(calls)|] == old(calls)
      ensures IsBroadcast(calls[|old(calls)|..], dispatchers, a)
      ensures job == Awaitables.EmptyInstance
    {
      ghost var before := calls;
      ghost var sent: seq<Call<D, A>> := [];
      var remaining := dispatchers.Keys;
      while remaining != {}
        invariant dispatchers == old(dispatchers)
        invariant remaining <= dispatchers.Keys
        invariant calls == before + sent
        invariant forall i :: 0 <= i < |sent| ==>
          sent[i].id in dispatchers && sent[i].id !in remaining &&
          sent[i].dispatcher == dispatchers[sent[i].id] && sent[i].action == a
        invariant forall i, j :: 0 <= i < j < |sent| ==> sent[i].id != sent[j].id
        invariant forall id :: id in dispatchers && id !in remaining ==>
          exists i :: 0 <= i < |sent| && sent[i].id == id
        decreases remaining
      {
        var id :| id in remaining;
        var call := Call(id, dispatchers[id], a);
        ghost var prev := sent;
        calls := calls + [call];
        sent := sent + [call];
        assert forall i :: 0 <= i < |prev| ==> sent[i] == prev[i];
        assert sent[|prev|].id == id;
        remaining := remaining - {id};
      }
      assert calls[|before|..] == sent;
      job := Awaitables.EmptyInstance;
    }
  }
}
