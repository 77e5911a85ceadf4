/** The worker gateway: its in-memory sessions, dispatches and evidence content, beside the
    durable store it acts on. */
module Gateway {
  import opened Basics
  import opened Store
  import StoreRuns

  // ---------------------------------------------------------------- memory

  datatype Profile = Profile(kind: Id, capabilities: set<Id>, targets: set<Id>, maxCapacity: nat, sla: Time)

  datatype Session = Session(id: Id, sequence: int, observed: Time, capacity: nat)

  datatype Envelope = Envelope(
    task: Id, worker: Id, session: Id, lease: Id, expires: Time, capability: Id, target: Id)

  /** `acked` holds the time the acknowledgement was observed. */
  datatype Dispatch = Dispatch(envelope: Envelope, acked: Option<Time>, resulted: bool)

  /** `content` is the evidence resolver's; a declared identity may have no content. */
  datatype Memory = Memory(
    sessions: map<Id, Session>, dispatches: map<string, Dispatch>, content: map<Id, Option<Bytes>>)

  /** What a call asks for: nothing, only a change of memory, or a store operation and, when that
      succeeds, a change of memory. */
  datatype Plan = Refuse | Keep(mem: Memory) | Perform(op: StoreRuns.Action, after: Memory)

  datatype Evidence = Evidence(id: Id, sha: Option<Digest>)

  datatype Status = Succeeded | FailedSafe | Other

  datatype Call =
    | Hello(worker: Id, kind: Id, capabilities: set<Id>, targets: set<Id>, session: Id,
            sequence: int, observed: Time, capacity: int, selfAsserted: bool)
    | Beat(worker: Id, session: Id, sequence: int, observed: Time, capacity: int)
    | Dispatched(task: Id, capability: Id, target: Id, worker: Id, lease: Id, session: Id)
    | Ack(key: string, task: Id, worker: Id, session: Id, lease: Id, observed: Time)
    | Result(key: string, task: Id, worker: Id, session: Id, lease: Id, observed: Time,
             status: Status, evidence: seq<Evidence>)
    | Declare(id: Id, bytes: Option<Bytes>)

  predicate SessionFresh(s: Session, p: Profile, now: Time) { s.observed <= now + 1.0 && now - s.observed <= p.sla }

  // ---------------------------------------------------------------- sessions

  predicate HelloOk(profiles: map<Id, Profile>, c: Call, now: Time)
    requires c.Hello?
  {
    && !c.selfAsserted && now >= 0.0 && IsIdentifier(c.worker) && IsIdentifier(c.session) && c.worker in profiles
    && 0.0 <= c.observed <= now + 1.0 && now - c.observed <= profiles[c.worker].sla
    && c.kind == profiles[c.worker].kind && c.capabilities == profiles[c.worker].capabilities
    && c.targets == profiles[c.worker].targets
    && 0 <= c.capacity <= profiles[c.worker].maxCapacity && c.sequence >= 0
  }

  function PlanHello(profiles: map<Id, Profile>, m: Memory, c: Call, now: Time): Plan
    requires c.Hello?
  {
    if !HelloOk(profiles, c, now) then Refuse
    else
      var p := profiles[c.worker];
      var session := Session(c.session, c.sequence, c.observed, c.capacity);
      if c.worker in m.sessions && m.sessions[c.worker].id != c.session
         && now - m.sessions[c.worker].observed <= p.sla then Refuse
      else if c.worker in m.sessions && m.sessions[c.worker].id == c.session then
        if m.sessions[c.worker] == session then Keep(m) else Refuse
      else
        Perform(StoreRuns.Registering(c.worker, p.kind, p.capabilities, p.targets, p.sla, c.capacity, c.observed),
                m.(sessions := m.sessions[c.worker := session]))
  }

  function PlanBeat(profiles: map<Id, Profile>, m: Memory, c: Call, now: Time): Plan
    requires c.Beat?
  {
    if now < 0.0 || !IsIdentifier(c.worker) || !IsIdentifier(c.session) || c.observed < 0.0
       || c.worker !in m.sessions || c.worker !in profiles || m.sessions[c.worker].id != c.session then Refuse
    else
      var s := m.sessions[c.worker];
      var p := profiles[c.worker];
      if c.sequence <= s.sequence || c.observed <= s.observed || c.observed > now + 1.0 || now - c.observed > p.sla
         || !(0 <= c.capacity <= p.maxCapacity) then Refuse
      else
        Perform(StoreRuns.Beating(c.worker, c.capacity, c.observed),
                m.(sessions := m.sessions[c.worker := Session(c.session, c.sequence, c.observed, c.capacity)]))
  }

  // ---------------------------------------------------------------- dispatches

  /** The text whose digest is the dispatch id. */
  function KeyText(task: Id, worker: Id, session: Id, lease: Id): string {
    task + "|" + worker + "|" + session + "|" + lease
  }

  /** The worker's current session is `session` and not stale. */
  predicate InSession(profiles: map<Id, Profile>, m: Memory, worker: Id, session: Id, now: Time) {
    && worker in m.sessions && worker in profiles && m.sessions[worker].id == session
    && now - m.sessions[worker].observed <= profiles[worker].sla
  }

  predicate OnCurrentLease(db: Db, task: Id, worker: Id, lease: Id, now: Time) {
    task in db.tasks && HeldBy(db.tasks[task], worker, lease) && Unexpired(db.tasks[task], now)
  }

  predicate DispatchOk(profiles: map<Id, Profile>, m: Memory, db: Db, c: Call, now: Time)
    requires c.Dispatched?
  {
    && now >= 0.0 && IsIdentifier(c.worker) && IsIdentifier(c.task) && IsIdentifier(c.lease) && IsIdentifier(c.session)
    && InSession(profiles, m, c.worker, c.session, now) && OnCurrentLease(db, c.task, c.worker, c.lease, now)
    && db.tasks[c.task].state.Leased?
    && c.capability == db.tasks[c.task].capability && c.target == db.tasks[c.task].target
    && c.capability in profiles[c.worker].capabilities && c.target in profiles[c.worker].targets
  }

  function PlanDispatch(profiles: map<Id, Profile>, m: Memory, db: Db, c: Call, now: Time): Plan
    requires c.Dispatched?
  {
    if !DispatchOk(profiles, m, db, c, now) then Refuse
    else
      var key := KeyText(c.task, c.worker, c.session, c.lease);
      if key in m.dispatches then Keep(m)
      else
        var e := Envelope(c.task, c.worker, c.session, c.lease, db.tasks[c.task].lease.value.expires, c.capability, c.target);
        Keep(m.(dispatches := m.dispatches[key := Dispatch(e, None, false)]))
  }

  /** Identifiers hold no separator, so a dispatch id names one task, worker, session and lease. */
  lemma KeyInjective(task: Id, worker: Id, session: Id, lease: Id, task2: Id, worker2: Id, session2: Id, lease2: Id)
    requires IsIdentifier(task) && IsIdentifier(worker) && IsIdentifier(session) && IsIdentifier(lease)
    requires IsIdentifier(task2) && IsIdentifier(worker2) && IsIdentifier(session2) && IsIdentifier(lease2)
    requires KeyText(task, worker, session, lease) == KeyText(task2, worker2, session2, lease2)
    ensures task == task2 && worker == worker2 && session == session2 && lease == lease2
  {
    var c := '|';
    SplitLast(task + "|" + worker + "|" + session, lease, task2 + "|" + worker2 + "|" + session2, lease2, c);
    SplitLast(task + "|" + worker, session, task2 + "|" + worker2, session2, c);
    SplitLast(task, worker, task2, worker2, c);
  }

  /** `_bound_dispatch`. */
  predicate Bound(m: Memory, key: string, task: Id, worker: Id, session: Id, lease: Id) {
    && key in m.dispatches
    && var e := m.dispatches[key].envelope; (task, worker, session, lease) == (e.task, e.worker, e.session, e.lease)
  }

  function PlanAck(profiles: map<Id, Profile>, m: Memory, db: Db, c: Call, now: Time): Plan
    requires c.Ack?
  {
    if now < 0.0 || c.observed < 0.0 || !Bound(m, c.key, c.task, c.worker, c.session, c.lease)
       || !InSession(profiles, m, c.worker, c.session, now)
       || c.observed < m.sessions[c.worker].observed || c.observed > now + 1.0
       || !OnCurrentLease(db, c.task, c.worker, c.lease, now) then Refuse
    else
      var d := m.dispatches[c.key];
      if d.acked.Some? then (if db.tasks[c.task].state.Running? then Keep(m) else Refuse)
      else if !db.tasks[c.task].state.Leased? then Refuse
      else Perform(StoreRuns.Starting(c.task, c.worker, c.lease),
                   m.(dispatches := m.dispatches[c.key := d.(acked := Some(c.observed))]))
  }

  /** The result may be considered: in order, in session, and the task still runs on its lease. */
  predicate ResultOk(profiles: map<Id, Profile>, m: Memory, db: Db, c: Call, now: Time)
    requires c.Result?
  {
    && now >= 0.0 && 0.0 <= c.observed <= now + 1.0 && Bound(m, c.key, c.task, c.worker, c.session, c.lease)
    && m.dispatches[c.key].acked.Some? && !m.dispatches[c.key].resulted
    && InSession(profiles, m, c.worker, c.session, now)
    && m.sessions[c.worker].observed <= c.observed && m.dispatches[c.key].acked.value <= c.observed
    && OnCurrentLease(db, c.task, c.worker, c.lease, now) && db.tasks[c.task].state.Running?
  }

  /** The evidence names declared content and its digest. */
  predicate Resolves(m: Memory, e: Evidence) {
    && IsIdentifier(e.id) && e.id in m.content && m.content[e.id].Some?
    && e.sha == Some(Digest(m.content[e.id].value))
  }

  function PlanResult(profiles: map<Id, Profile>, m: Memory, db: Db, c: Call, now: Time): Plan
    requires c.Result?
  {
    if !ResultOk(profiles, m, db, c, now) then Refuse
    else
      var after := m.(dispatches := m.dispatches[c.key := m.dispatches[c.key].(resulted := true)]);
      if c.status.Succeeded? && |c.evidence| == 1 && Resolves(m, c.evidence[0]) then
        Perform(StoreRuns.Submitting(c.task, c.worker, c.lease, c.evidence[0].id, c.evidence[0].sha), after)
      else if c.status.FailedSafe? && c.evidence == [] then
        Perform(StoreRuns.Failing(c.task, c.worker, c.lease), after)
      else Refuse
  }

  /** An identity is declared once; declaring it again with the same content is no change. */
  function PlanDeclare(m: Memory, c: Call): Plan
    requires c.Declare?
  {
    if !IsIdentifier(c.id) || (c.id in m.content && m.content[c.id] != c.bytes) then Refuse
    else Keep(m.(content := m.content[c.id := c.bytes]))
  }

  function PlanOf(profiles: map<Id, Profile>, m: Memory, db: Db, c: Call, now: Time): Plan {
    match c
    case Hello(_, _, _, _, _, _, _, _, _) => PlanHello(profiles, m, c, now)
    case Beat(_, _, _, _, _) => PlanBeat(profiles, m, c, now)
    case Dispatched(_, _, _, _, _, _) => PlanDispatch(profiles, m, db, c, now)
    case Ack(_, _, _, _, _, _) => PlanAck(profiles, m, db, c, now)
    case Result(_, _, _, _, _, _, _, _) => PlanResult(profiles, m, db, c, now)
    case Declare(_, _) => PlanDeclare(m, c)
  }

  // ---------------------------------------------------------------- eligibility

  /** `eligible_sessions` lists these workers, with their session ids. */
  predicate Eligible(profiles: map<Id, Profile>, m: Memory, db: Db, worker: Id, capability: Id, target: Id, now: Time) {
    && worker in m.sessions && worker in profiles && SessionFresh(m.sessions[worker], profiles[worker], now)
    && capability in profiles[worker].capabilities && target in profiles[worker].targets
    && worker in db.workers && Fresh(db.workers[worker], now)
    && |Active(db, worker, now)| < db.workers[worker].capacity && |Active(db, worker, now)| < m.sessions[worker].capacity
  }

  function EligibleSet(profiles: map<Id, Profile>, m: Memory, db: Db, capability: Id, target: Id, now: Time): set<Id> {
    set w | w in m.sessions && Eligible(profiles, m, db, w, capability, target, now)
  }

  // ---------------------------------------------------------------- the mirror

  /** Every session's worker row says exactly what the session and its profile say. */
  ghost predicate SessionsMirror(profiles: map<Id, Profile>, m: Memory, db: Db) {
    forall k :: k in m.sessions ==>
      && k in profiles && k in db.workers && IsIdentifier(k) && IsIdentifier(m.sessions[k].id)
      && db.workers[k] == Worker(profiles[k].kind, profiles[k].capabilities, profiles[k].targets,
                                 m.sessions[k].observed, profiles[k].sla, m.sessions[k].capacity)
  }

  /** For a worker in session, the gateway's eligibility is the store's ability to take the task. */
  lemma EligibleIsCanTake(profiles: map<Id, Profile>, m: Memory, db: Db, worker: Id, t: Task, now: Time)
    requires SessionsMirror(profiles, m, db) && worker in m.sessions
    ensures Eligible(profiles, m, db, worker, t.capability, t.target, now) <==> CanTake(db, worker, t, now)
  {
    assert db.workers[worker].capacity == m.sessions[worker].capacity;
  }
}
