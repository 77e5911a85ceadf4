/** `LocalWorkerGateway`: the gateway as an object that updates its tables and the store it was
    given, one call at a time. */
module LocalGateway {
  import opened Basics
  import opened Store
  import opened Ordering
  import opened Gateway
  import opened AutonomyStoreObject
  import StoreRuns

  /** Tables and memory after a plan is carried out. */
  function Carry(db: Db, m: Memory, p: Plan, now: Time): (Db, Memory) {
    match p
    case Refuse => (db, m)
    case Keep(n) => (db, n)
    case Perform(op, n) => (StoreRuns.Effect(db, op, now).0, if StoreRuns.Succeeds(db, op, now) then n else m)
  }

  /** The call is answered without an exception. */
  predicate Accepted(db: Db, p: Plan, now: Time) {
    p.Keep? || (p.Perform? && StoreRuns.Succeeds(db, p.op, now))
  }

  class LocalWorkerGateway {
    const store: AutonomyStore
    const profiles: map<Id, Profile>
    var sessions: map<Id, Session>
    var dispatches: map<string, Dispatch>
    var content: map<Id, Option<Bytes>>

    constructor (store: AutonomyStore, profiles: map<Id, Profile>)
      ensures this.store == store && this.profiles == profiles && Mem() == Memory(map[], map[], map[])
    {
      this.store, this.profiles := store, profiles;
      sessions, dispatches, content := map[], map[], map[];
    }

    function Mem(): Memory reads this { Memory(sessions, dispatches, content) }

    method RegisterLocalHarness(worker: Id, kind: Id, capabilities: set<Id>, targets: set<Id>, session: Id,
                                sequence: int, observed: Time, capacity: int, selfAsserted: bool, now: Time)
      returns (ok: bool)
      modifies this, store
      ensures var c := Hello(worker, kind, capabilities, targets, session, sequence, observed, capacity, selfAsserted);
        var p := PlanHello(profiles, old(Mem()), c, now);
        && (store.Tables(), Mem()) == Carry(old(store.Tables()), old(Mem()), p, now)
        && ok == Accepted(old(store.Tables()), p, now)
      ensures worker in old(sessions) && worker in profiles && now <= old(sessions)[worker].observed + profiles[worker].sla ==>
        worker in sessions && sessions[worker].id == old(sessions)[worker].id
      ensures forall k :: k in old(sessions) && k != worker ==> k in sessions && sessions[k] == old(sessions)[k]
    {
      if selfAsserted || now < 0.0 || !IsIdentifier(worker) || !IsIdentifier(session) || worker !in profiles { return false; }
      var p := profiles[worker];
      if observed < 0.0 || observed > now + 1.0 || now - observed > p.sla { return false; }
      if kind != p.kind || capabilities != p.capabilities || targets != p.targets
         || !(0 <= capacity <= p.maxCapacity) || sequence < 0 { return false; }
      var joined := Session(session, sequence, observed, capacity);
      if worker in sessions {
        var current := sessions[worker];
        if current.id == session { return current == joined; }
        if now - current.observed <= p.sla { return false; }
      }
      var r := store.Register(worker, p.kind, p.capabilities, p.targets, p.sla, capacity, observed);
      ok := r.Done?;
      if ok { sessions := sessions[worker := joined]; }
    }

    method Heartbeat(worker: Id, session: Id, sequence: int, observed: Time, capacity: int, now: Time) returns (ok: bool)
      modifies this, store
      ensures var p := PlanBeat(profiles, old(Mem()), Beat(worker, session, sequence, observed, capacity), now);
        && (store.Tables(), Mem()) == Carry(old(store.Tables()), old(Mem()), p, now)
        && ok == Accepted(old(store.Tables()), p, now)
    {
      if now < 0.0 || !IsIdentifier(worker) || !IsIdentifier(session) || observed < 0.0 { return false; }
      if worker !in sessions || worker !in profiles || sessions[worker].id != session { return false; }
      var s, p := sessions[worker], profiles[worker];
      if sequence <= s.sequence || observed <= s.observed || observed > now + 1.0 || now - observed > p.sla { return false; }
      if !(0 <= capacity <= p.maxCapacity) { return false; }
      var r := store.Heartbeat(worker, capacity, now, observed);
      ok := r.Done?;
      if ok { sessions := sessions[worker := Session(session, sequence, observed, capacity)]; }
    }

    /** The workers with an eligible session, least id first. */
    method EligibleSessions(capability: Id, target: Id, now: Time) returns (workers: seq<Id>)
      ensures Ascending(workers, TextLess)
      ensures Elements(workers) == EligibleSet(profiles, Mem(), store.Tables(), capability, target, now)
    {
      var rest, result := sessions.Keys, {};
      while rest != {}
        invariant rest <= sessions.Keys
        invariant forall w :: w in result <==>
          w in sessions && w !in rest && Eligible(profiles, Mem(), store.Tables(), w, capability, target, now)
        decreases rest
      {
        var w :| w in rest;
        rest := rest - {w};
        if Eligible(profiles, Mem(), store.Tables(), w, capability, target, now) { result := result + {w}; }
      }
      TextOrders(result);
      workers := Sorted(result, TextLess);
    }

    method DispatchTask(task: Id, capability: Id, target: Id, worker: Id, lease: Id, session: Id, now: Time)
      returns (envelope: Option<Envelope>)
      modifies this
      ensures var p := PlanDispatch(profiles, old(Mem()), store.Tables(), Dispatched(task, capability, target, worker, lease, session), now);
        && (store.Tables(), Mem()) == Carry(old(store.Tables()), old(Mem()), p, now)
        && (envelope.Some? <==> p.Keep?)
        && (envelope.Some? ==> var key := KeyText(task, worker, session, lease);
              key in dispatches && envelope.value == dispatches[key].envelope)
    {
      if !DispatchOk(profiles, Mem(), store.Tables(), Dispatched(task, capability, target, worker, lease, session), now) {
        return None;
      }
      var key := KeyText(task, worker, session, lease);
      if key !in dispatches {
        var e := Envelope(task, worker, session, lease, store.tasks[task].lease.value.expires, capability, target);
        dispatches := dispatches[key := Dispatch(e, None, false)];
      }
      envelope := Some(dispatches[key].envelope);
    }

    method Acknowledge(key: string, task: Id, worker: Id, session: Id, lease: Id, observed: Time, now: Time) returns (ok: bool)
      modifies this, store
      ensures var p := PlanAck(profiles, old(Mem()), old(store.Tables()), Ack(key, task, worker, session, lease, observed), now);
        && (store.Tables(), Mem()) == Carry(old(store.Tables()), old(Mem()), p, now)
        && ok == Accepted(old(store.Tables()), p, now)
    {
      ok := false;
      if now < 0.0 || observed < 0.0 || !Bound(Mem(), key, task, worker, session, lease) { return; }
      if !InSession(profiles, Mem(), worker, session, now) || observed < sessions[worker].observed || observed > now + 1.0 { return; }
      if !OnCurrentLease(store.Tables(), task, worker, lease, now) { return; }
      var d := dispatches[key];
      if d.acked.Some? { return store.tasks[task].state.Running?; }
      if !store.tasks[task].state.Leased? { return; }
      var r := store.StartTask(task, worker, lease, now);
      ok := r.Done?;
      if ok { dispatches := dispatches[key := d.(acked := Some(observed))]; }
    }

    method AcceptResult(key: string, task: Id, worker: Id, session: Id, lease: Id, observed: Time,
                        status: Status, evidence: seq<Evidence>, now: Time) returns (ok: bool)
      modifies this, store
      ensures var c := Result(key, task, worker, session, lease, observed, status, evidence);
        var p := PlanResult(profiles, old(Mem()), old(store.Tables()), c, now);
        && (store.Tables(), Mem()) == Carry(old(store.Tables()), old(Mem()), p, now)
        && ok == Accepted(old(store.Tables()), p, now)
    {
      ok := false;
      var c := Result(key, task, worker, session, lease, observed, status, evidence);
      if !ResultOk(profiles, Mem(), store.Tables(), c, now) { return; }
      if status.Succeeded? {
        if |evidence| != 1 || !Resolves(Mem(), evidence[0]) { return; }
        var r := store.Submit(task, worker, lease, evidence[0].id, evidence[0].sha, now);
        ok := r.Done?;
      } else if status.FailedSafe? {
        if evidence != [] { return; }
        var r := store.Fail(task, worker, lease, now);
        ok := r.Done?;
      }
      if ok { dispatches := dispatches[key := dispatches[key].(resulted := true)]; }
    }

    /** `ImmutableLocalEvidenceResolver.declare`: content never changes once declared. */
    method DeclareEvidence(id: Id, bytes: Option<Bytes>) returns (ok: bool)
      modifies this`content
      ensures ok <==> IsIdentifier(id) && (id in old(content) ==> old(content)[id] == bytes)
      ensures content == if ok then old(content)[id := bytes] else old(content)
      ensures forall k :: k in old(content) ==> k in content && content[k] == old(content)[k]
    {
      if !IsIdentifier(id) { return false; }
      if id in content { return content[id] == bytes; }
      content := content[id := bytes];
      ok := true;
    }
  }
}
