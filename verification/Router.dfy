/** `AgentRouter.route_once`: the greedy loop over the batch. */
module Router {
  import opened Basics
  import opened Store
  import opened Ordering
  import opened Gateway
  import opened AutonomyStoreObject
  import opened LocalGateway
  import opened RoutingPass
  import opened RoutingOutcome

  lemma EligibleIgnoresDispatches(ps: map<Id, Profile>, m: Memory, n: Memory, db: Db, capability: Id, target: Id, now: Time)
    requires m.sessions == n.sessions
    ensures EligibleSet(ps, m, db, capability, target, now) == EligibleSet(ps, n, db, capability, target, now)
  {
  }

  /** The head of the sorted candidates is the best choice. */
  function Head(candidates: seq<Id>): Option<Id> { if candidates == [] then None else Some(candidates[0]) }

  lemma HeadIsBest(candidates: seq<Id>, all: set<Id>)
    requires Ascending(candidates, TextLess) && Elements(candidates) == all
    ensures if Head(candidates).Some? then IsLeast(Head(candidates).value, all, TextLess) else all == {}
  {
    if candidates != [] {
      assert candidates[0] in Elements(candidates);
      forall x | x in all && x != candidates[0] ensures TextLess(candidates[0], x) {
        assert x in Elements(candidates);
        var i :| 0 <= i < |candidates| && candidates[i] == x;
      }
    }
  }

  /** The first `k` tasks of the pass are routed: what the tables, the gateway and the answer say. */
  ghost predicate RoutedTo(p: Pass, picks: seq<Option<Id>>, db: Db, m: Memory, sent: seq<Envelope>)
    requires PassOk(p)
  {
    && Greedy(p, picks)
    && db == PassTo(p, picks, |picks|)
    && m == p.mem.(dispatches := DispatchesTo(p, picks, |picks|))
    && sent == Envelopes(p, picks, |picks|)
  }

  lemma {:induction false} GreedyExtends(p: Pass, picks: seq<Option<Id>>, pick: Option<Id>)
    requires PassOk(p) && Greedy(p, picks) && |picks| < |p.ids|
    requires Best(p, PassTo(p, picks, |picks|), p.ids[|picks|], pick)
    ensures Greedy(p, picks + [pick])
  {
    var all := picks + [pick];
    forall i | 0 <= i < |all| ensures BestAt(p, all, i) {
      PassToExtends(p, picks, pick, i);
      if i < |picks| { assert BestAt(p, picks, i); }
    }
  }

  /** Routing one more task by its best choice. */
  lemma OneMore(p: Pass, picks: seq<Option<Id>>, pick: Option<Id>, db: Db, m: Memory, sent: seq<Envelope>)
    requires PassOk(p) && LeasesNew(p) && RoutedTo(p, picks, db, m, sent) && |picks| < |p.ids|
    requires Best(p, db, p.ids[|picks|], pick)
    ensures var k, t := |picks|, p.db.tasks[p.ids[|picks|]];
      var all := picks + [pick];
      var d := Routed(db, p.ids[k], pick, p.lease(k), p.seconds, p.now);
      && Greedy(p, all) && PassTo(p, all, k + 1) == d && db.tasks[p.ids[k]] == t
      && d == db.(tasks := db.tasks[p.ids[k] := RowAfter(p, all, k)])
      && DispatchesTo(p, all, k) == m.dispatches && Envelopes(p, all, k) == sent
      && (pick.Some? ==>
            && pick.value in p.mem.sessions
            && Claim(db, p.ids[k], pick.value, p.lease(k), p.seconds, p.now).answer == Done(Lease(pick.value, p.lease(k), p.now + p.seconds))
            && PlanDispatch(p.profiles, m, d, Dispatched(p.ids[k], t.capability, t.target, pick.value, p.lease(k), p.mem.sessions[pick.value].id), p.now)
               == if Sent(p, all, k) then Keep(p.mem.(dispatches := DispatchesTo(p, all, k + 1))) else Refuse)
      && (pick.None? ==> MarkWaitingCapacity(db, p.ids[k], p.now).answer == Done(()))
  {
    var k, t := |picks|, p.db.tasks[p.ids[|picks|]];
    var all := picks + [pick];
    GreedyExtends(p, picks, pick);
    PassToExtends(p, picks, pick, k);
    SentExtends(p, picks, pick, k);
    PassShape(p, all, k);
    ClaimSucceeds(p, all, k, db);
    ShapeOneMore(p, all, k, db);
    if pick.Some? {
      var d := db.(tasks := db.tasks[p.ids[k] := RowAfter(p, all, k)]);
      assert pick.value in EligibleSet(p.profiles, p.mem, db, t.capability, t.target, p.now);
      DispatchSucceeds(p, all, k, m, d, pick.value);
    }
  }

  /** Claiming and dispatching one more task is what the pass does next. */
  lemma Assigned(p: Pass, picks: seq<Option<Id>>, w: Id, db: Db, m: Memory, sent: seq<Envelope>)
    requires PassOk(p) && LeasesNew(p) && RoutedTo(p, picks, db, m, sent) && |picks| < |p.ids|
    requires Best(p, db, p.ids[|picks|], Some(w))
    ensures var k, t := |picks|, p.db.tasks[p.ids[|picks|]];
      var all := picks + [Some(w)];
      var claim := Claim(db, p.ids[k], w, p.lease(k), p.seconds, p.now);
      && p.ids[k] in db.tasks && db.tasks[p.ids[k]] == t && w in m.sessions && claim.answer.Done?
      && var c := Dispatched(p.ids[k], t.capability, t.target, w, p.lease(k), m.sessions[w].id);
        var plan := PlanDispatch(p.profiles, m, claim.db, c, p.now);
        var key := KeyText(p.ids[k], w, m.sessions[w].id, p.lease(k));
        if IsIdentifier(p.ids[k]) then
          && plan.Keep? && key in plan.mem.dispatches
          && RoutedTo(p, all, claim.db, plan.mem, sent + [plan.mem.dispatches[key].envelope])
        else plan.Refuse? && RoutedTo(p, all, claim.db, m, sent + [])
  {
    var k := |picks|;
    var all := picks + [Some(w)];
    OneMore(p, picks, Some(w), db, m, sent);
    assert sent + [] == sent;
    if IsIdentifier(p.ids[k]) {
      assert Sent(p, all, k);
      assert DispatchesTo(p, all, k + 1)[KeyFor(EnvelopeFor(p, w, k))].envelope == EnvelopeFor(p, w, k);
    }
  }

  /** Waiting is what the pass does next when nobody is eligible. */
  lemma Parked(p: Pass, picks: seq<Option<Id>>, db: Db, m: Memory, sent: seq<Envelope>)
    requires PassOk(p) && LeasesNew(p) && RoutedTo(p, picks, db, m, sent) && |picks| < |p.ids|
    requires Best(p, db, p.ids[|picks|], None)
    ensures RoutedTo(p, picks + [None], MarkWaitingCapacity(db, p.ids[|picks|], p.now).db, m, sent)
  {
    OneMore(p, picks, None, db, m, sent);
  }

  lemma Routing(p: Pass, picks: seq<Option<Id>>, db: Db, m: Memory, sent: seq<Envelope>)
    requires PassOk(p) && RoutedTo(p, picks, db, m, sent)
    ensures Greedy(p, picks) && db == PassTo(p, picks, |picks|)
  {
  }

  function Listed(e: Option<Envelope>): seq<Envelope> { if e.Some? then [e.value] else [] }

  class AgentRouter {
    const store: AutonomyStore
    const gateway: LocalWorkerGateway
    const batchSize: int
    const seconds: Time
    var lastRoute: Option<Envelope>
    var failed: bool

    constructor (store: AutonomyStore, gateway: LocalWorkerGateway, batchSize: int, seconds: Time)
      requires gateway.store == store && batchSize > 0 && seconds > 0.0
      ensures Valid() && this.store == store && this.gateway == gateway
    {
      this.store, this.gateway, this.batchSize, this.seconds := store, gateway, batchSize, seconds;
      lastRoute, failed := None, false;
    }

    predicate Valid() { gateway.store == store && batchSize > 0 && seconds > 0.0 }

    /** The gateway mirrors the store, and the pass can draw new lease ids. */
    ghost predicate Ready(lease: nat -> Id, now: Time) reads store, gateway {
      && SessionsMirror(gateway.profiles, gateway.Mem(), store.Tables())
      && LeasesNew(Pass(gateway.profiles, gateway.Mem(), store.Tables(), [], lease, seconds, now))
    }

    /** Claim the task for its best worker and dispatch it. */
    method Assign(ghost p: Pass, ghost picks: seq<Option<Id>>, task: Id, k: nat, worker: Id, lease: Id, now: Time,
                  ghost dispatched: seq<Envelope>)
      returns (envelope: Option<Envelope>)
      requires Valid() && PassOk(p) && LeasesNew(p) && p.profiles == gateway.profiles && p.seconds == seconds && p.now == now
      requires RoutedTo(p, picks, store.Tables(), gateway.Mem(), dispatched)
      requires k == |picks| < |p.ids| && task == p.ids[k] && lease == p.lease(k) && Best(p, store.Tables(), task, Some(worker))
      modifies store, gateway
      ensures RoutedTo(p, picks + [Some(worker)], store.Tables(), gateway.Mem(), dispatched + Listed(envelope))
      ensures envelope.Some? <==> IsIdentifier(task)
    {
      envelope := None;
      Assigned(p, picks, worker, store.Tables(), gateway.Mem(), dispatched);
      var capability, target := store.tasks[task].capability, store.tasks[task].target;
      var claim := store.ClaimTask(task, worker, lease, seconds, now);
      if claim.Done? {
        envelope := gateway.DispatchTask(task, capability, target, worker, lease, gateway.sessions[worker].id, now);
      }
    }

    /** No session can take the task: it waits. */
    method Park(ghost p: Pass, ghost picks: seq<Option<Id>>, task: Id, k: nat, now: Time, ghost dispatched: seq<Envelope>)
      requires Valid() && PassOk(p) && LeasesNew(p) && p.now == now
      requires RoutedTo(p, picks, store.Tables(), gateway.Mem(), dispatched)
      requires k == |picks| < |p.ids| && task == p.ids[k] && Best(p, store.Tables(), task, None)
      modifies store
      ensures RoutedTo(p, picks + [None], store.Tables(), gateway.Mem(), dispatched)
    {
      hide PassOk, LeasesNew, RoutedTo, Best, MarkWaitingCapacity;
      Parked(p, picks, store.Tables(), gateway.Mem(), dispatched);
      var r := store.WaitForCapacity(task, now);
    }

    method BestWorker(ghost p: Pass, ghost picks: seq<Option<Id>>, task: Id, k: nat, now: Time) returns (best: Option<Id>)
      requires Valid() && PassOk(p) && Greedy(p, picks) && p.profiles == gateway.profiles && p.now == now
      requires p.mem.sessions == gateway.Mem().sessions && k == |picks| < |p.ids| && task == p.ids[k]
      requires store.Tables() == PassTo(p, picks, k)
      ensures Best(p, store.Tables(), task, best)
    {
      PassShape(p, picks, k);
      var capability, target := store.tasks[task].capability, store.tasks[task].target;
      var candidates := gateway.EligibleSessions(capability, target, now);
      EligibleIgnoresDispatches(p.profiles, p.mem, gateway.Mem(), store.Tables(), capability, target, now);
      HeadIsBest(candidates, EligibleSet(p.profiles, p.mem, store.Tables(), capability, target, now));
      best := Head(candidates);
    }

    /** Route one task: to the least eligible worker, or to wait. */
    method RouteTask(ghost p: Pass, ghost picks: seq<Option<Id>>, task: Id, k: nat, lease: Id, now: Time, dispatched: seq<Envelope>)
      returns (sent: seq<Envelope>, ghost all: seq<Option<Id>>)
      requires Valid() && PassOk(p) && LeasesNew(p) && p.profiles == gateway.profiles && p.seconds == seconds && p.now == now
      requires RoutedTo(p, picks, store.Tables(), gateway.Mem(), dispatched)
      requires k == |picks| < |p.ids| && task == p.ids[k] && lease == p.lease(k)
      modifies this, store, gateway
      ensures |all| == k + 1 && all[..k] == picks && RoutedTo(p, all, store.Tables(), gateway.Mem(), sent)
      ensures failed <==> old(failed) || (all[k].Some? && !IsIdentifier(task))
      ensures || (sent == dispatched && lastRoute == old(lastRoute))
              || (|sent| == |dispatched| + 1 && lastRoute == Some(sent[|dispatched|]))
    {
      hide PassOk, LeasesNew, Best, PassTo, DispatchesTo, Envelopes, BestAt;
      sent := dispatched;
      var best := BestWorker(p, picks, task, k, now);
      all := picks + [best];
      if best.None? {
        Park(p, picks, task, k, now, dispatched);
      } else {
        var envelope := Assign(p, picks, task, k, best.value, lease, now, dispatched);
        if envelope.Some? {
          sent := dispatched + Listed(envelope);
          lastRoute := envelope;
        } else {
          assert dispatched + Listed(envelope) == dispatched;
          failed := true;
        }
      }
    }

    /** One pass. The answer, the tables and the dispatches are those of a greedy pass over the batch;
        an error is recorded exactly when a claimed task's id is not identifier-shaped. */
    method RouteOnce(now: Time, lease: nat -> Id) returns (r: Answer<seq<Envelope>>, ghost p: Pass, ghost picks: seq<Option<Id>>)
      requires Valid() && Ready(lease, now)
      modifies this, store, gateway
      ensures now < 0.0 ==> r == Blocked(InvalidClock) && store.Tables() == old(store.Tables()) && gateway.Mem() == old(gateway.Mem())
      ensures now >= 0.0 ==>
        && p == Pass(gateway.profiles, old(gateway.Mem()), old(store.Tables()), p.ids, lease, seconds, now)
        && IsBatch(p.db, batchSize, p.ids) && PassOk(p) && |picks| == |p.ids|
        && r.Done? && RoutedTo(p, picks, store.Tables(), gateway.Mem(), r.value)
        && (failed <==> exists i :: 0 <= i < |picks| && picks[i].Some? && !IsIdentifier(p.ids[i]))
      ensures now >= 0.0 ==>
        PassLeaves(gateway.profiles, old(gateway.Mem()), old(store.tasks), store.Tables(), p.ids, batchSize, now)
    {
      hide RoutedTo, SchedulableIds, PassTo, PassLeaves, MostUrgent;
      p, picks := Pass(gateway.profiles, gateway.Mem(), store.Tables(), [], lease, seconds, now), [];
      if now < 0.0 { return Blocked(InvalidClock), p, picks; }
      failed := false;
      var batch := store.SchedulableTasks(batchSize);
      p := p.(ids := batch.value);
      BatchOk(p, batchSize);
      var dispatched: seq<Envelope> := [];
      for k := 0 to |batch.value|
        invariant |picks| == k && p.profiles == gateway.profiles
        invariant RoutedTo(p, picks, store.Tables(), gateway.Mem(), dispatched)
        invariant failed <==> exists i :: 0 <= i < k && picks[i].Some? && !IsIdentifier(p.ids[i])
      {
        ghost var before := picks;
        dispatched, picks := RouteTask(p, picks, batch.value[k], k, lease(k), now, dispatched);
        forall i | 0 <= i < k ensures picks[i] == before[i] { assert picks[..k][i] == picks[i]; }
      }
      assert Greedy(p, picks) && store.Tables() == PassTo(p, picks, |picks|) by { Routing(p, picks, store.Tables(), gateway.Mem(), dispatched); }
      PassIsSettled(p, picks, store.Tables(), batchSize);
      r := Done(dispatched);
    }
  }

  lemma BatchOk(p: Pass, limit: nat)
    requires IsBatch(p.db, limit, p.ids) && SessionsMirror(p.profiles, p.mem, p.db) && p.now >= 0.0 && p.seconds > 0.0
    requires LeasesNew(p.(ids := []))
    ensures PassOk(p) && LeasesNew(p) && RoutedTo(p, [], p.db, p.mem, [])
  {
    forall i | 0 <= i < |p.ids| ensures p.ids[i] in SchedulableIds(p.db) { assert p.ids[i] in Elements(p.ids); }
    forall i, j | 0 <= i < j < |p.ids| ensures p.ids[i] != p.ids[j] {
      if p.ids[i] == p.ids[j] && TextLess(p.ids[i], p.ids[j]) { TextAsymmetric(p.ids[i], p.ids[j]); }
    }
  }
}
