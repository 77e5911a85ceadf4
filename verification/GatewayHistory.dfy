/** What each call of the worker gateway does, told in profiles, sessions, dispatches and rows; and how long a
    worker keeps its session over whole runs. */
module GatewayHistory {
  import opened Basics
  import opened Store
  import opened Gateway
  import opened GatewayRuns
  import opened LocalGateway
  import Rows = StoreHistory
  import StoreRuns

  /** The answer to a call, and tables and memory after it. */
  predicate Ok(ps: map<Id, Profile>, s: State, c: Call, now: Time) { Accepted(s.world.db, PlanOf(ps, s.mem, s.world.db, c, now), now) }

  function Then(ps: map<Id, Profile>, s: State, c: Call, now: Time): State { After(ps, s, Calling(c, now)) }

  // ---------------------------------------------------------------- sessions

  /** The hello is what the worker's profile says, not from the future and not stale. */
  predicate FitsProfile(ps: map<Id, Profile>, c: Call, now: Time)
    requires c.Hello?
  {
    && !c.selfAsserted && IsIdentifier(c.worker) && IsIdentifier(c.session) && c.worker in ps
    && c.kind == ps[c.worker].kind && c.capabilities == ps[c.worker].capabilities && c.targets == ps[c.worker].targets
    && 0 <= c.capacity <= ps[c.worker].maxCapacity && c.sequence >= 0
    && 0.0 <= c.observed <= now + 1.0 && now - c.observed <= ps[c.worker].sla
  }

  /** The worker has no session, or one that is not this and was last observed longer ago than its SLA. */
  predicate SessionFree(ps: map<Id, Profile>, m: Memory, k: Id, session: Id, now: Time)
    requires k in ps
  {
    k !in m.sessions || (m.sessions[k].id != session && now > m.sessions[k].observed + ps[k].sla)
  }

  /** The worker's session stands as the hello says. */
  predicate Repeats(m: Memory, c: Call)
    requires c.Hello?
  {
    && c.worker in m.sessions && m.sessions[c.worker].id == c.session && m.sessions[c.worker].sequence == c.sequence
    && m.sessions[c.worker].observed == c.observed && m.sessions[c.worker].capacity == c.capacity
  }

  lemma FitsExactly(ps: map<Id, Profile>, c: Call, now: Time)
    requires c.Hello?
    ensures HelloOk(ps, c, now) <==> now >= 0.0 && FitsProfile(ps, c, now)
    ensures FitsProfile(ps, c, now) ==> c.worker in ps && c.capacity >= 0 && c.observed >= 0.0
  {
  }

  lemma Registered(s: State, c: Call, p: Profile, now: Time)
    requires c.Hello? && c.capacity >= 0 && c.observed >= 0.0
    ensures var op := StoreRuns.Registering(c.worker, p.kind, p.capabilities, p.targets, p.sla, c.capacity, c.observed);
      && (StoreRuns.Succeeds(s.world.db, op, now) <==> p.sla > 0.0)
      && StoreRuns.Next(s.world, op, now).db ==
           if p.sla > 0.0 then
             s.world.db.(workers := s.world.db.workers[c.worker := Worker(p.kind, p.capabilities, p.targets, c.observed, p.sla, c.capacity)])
           else s.world.db
  {
  }

  /** A hello is accepted exactly when it fits its worker's profile and repeats the worker's session as it stands,
      or the worker's session is free. Then session and worker row say what the hello says. */
  lemma HelloExactly(ps: map<Id, Profile>, s: State, c: Call, now: Time)
    requires Mirror(ps, s) && s.world.clock <= now && c.Hello?
    ensures Ok(ps, s, c, now) <==>
      && now >= 0.0 && FitsProfile(ps, c, now)
      && (Repeats(s.mem, c) || (SessionFree(ps, s.mem, c.worker, c.session, now) && ps[c.worker].sla > 0.0))
    ensures Ok(ps, s, c, now) ==>
      && c.worker in ps && c.capacity >= 0
      && Then(ps, s, c, now).mem == s.mem.(sessions := s.mem.sessions[c.worker := Session(c.session, c.sequence, c.observed, c.capacity)])
      && var p := ps[c.worker];
        Then(ps, s, c, now).world.db ==
          s.world.db.(workers := s.world.db.workers[c.worker := Worker(p.kind, p.capabilities, p.targets, c.observed, p.sla, c.capacity)])
    ensures !Ok(ps, s, c, now) ==> Then(ps, s, c, now).mem == s.mem && Then(ps, s, c, now).world.db == s.world.db
  {
    hide DispatchesOk, OneAck, TasksMirror, EvidenceMirror, StoreRuns.Inv, IsIdentifier, HelloOk, FitsProfile, StoreRuns.Next, StoreRuns.Succeeds;
    FitsExactly(ps, c, now);
    if FitsProfile(ps, c, now) { Registered(s, c, ps[c.worker], now); }
  }

  /** The heartbeat continues the worker's session: a higher sequence number, a later observation, not from the
      future and not stale, within the profile's capacity. */
  predicate Continues(ps: map<Id, Profile>, m: Memory, c: Call, now: Time)
    requires c.Beat?
  {
    && c.worker in m.sessions && c.worker in ps && m.sessions[c.worker].id == c.session
    && c.sequence > m.sessions[c.worker].sequence && c.observed > m.sessions[c.worker].observed
    && 0.0 <= c.observed <= now + 1.0 && now - c.observed <= ps[c.worker].sla && 0 <= c.capacity <= ps[c.worker].maxCapacity
  }

  /** A heartbeat is accepted exactly when it continues its worker's session; session and worker row then have its
      observation and capacity. */
  lemma BeatExactly(ps: map<Id, Profile>, s: State, c: Call, now: Time)
    requires Mirror(ps, s) && s.world.clock <= now && c.Beat?
    ensures Ok(ps, s, c, now) <==> now >= 0.0 && Continues(ps, s.mem, c, now)
    ensures Ok(ps, s, c, now) ==>
      && c.worker in s.world.db.workers && c.capacity >= 0
      && Then(ps, s, c, now).mem == s.mem.(sessions := s.mem.sessions[c.worker := Session(c.session, c.sequence, c.observed, c.capacity)])
      && Then(ps, s, c, now).world.db ==
           s.world.db.(workers := s.world.db.workers[c.worker := s.world.db.workers[c.worker].(heartbeat := c.observed, capacity := c.capacity)])
    ensures !Ok(ps, s, c, now) ==> Then(ps, s, c, now).mem == s.mem && Then(ps, s, c, now).world.db == s.world.db
  {
    hide DispatchesOk, OneAck, TasksMirror, EvidenceMirror, StoreRuns.Inv, IsIdentifier;
  }

  // ---------------------------------------------------------------- dispatches

  /** The worker is in this session, observed within its SLA. */
  predicate Present(ps: map<Id, Profile>, m: Memory, k: Id, session: Id, now: Time) {
    k in m.sessions && k in ps && m.sessions[k].id == session && now <= m.sessions[k].observed + ps[k].sla
  }

  /** The task is leased to this worker under this lease, with the capability and target it names, which the
      worker's profile has; and the worker is present. */
  predicate Sendable(ps: map<Id, Profile>, m: Memory, db: Db, c: Call, now: Time)
    requires c.Dispatched?
  {
    && IsIdentifier(c.task) && IsIdentifier(c.worker) && IsIdentifier(c.lease) && IsIdentifier(c.session)
    && Present(ps, m, c.worker, c.session, now) && Rows.OnLeaseNow(db, c.task, c.worker, c.lease, now) && db.tasks[c.task].state.Leased?
    && c.capability == db.tasks[c.task].capability && c.target == db.tasks[c.task].target
    && c.capability in ps[c.worker].capabilities && c.target in ps[c.worker].targets
  }

  function DispatchKey(c: Call): string
    requires c.Dispatched?
  {
    c.task + "|" + c.worker + "|" + c.session + "|" + c.lease
  }

  /** A dispatch is accepted exactly when the task can be sent; the first writes its envelope, without
      acknowledgement or result, and others change nothing. */
  lemma SendExactly(ps: map<Id, Profile>, s: State, c: Call, now: Time)
    requires c.Dispatched?
    ensures Ok(ps, s, c, now) <==> now >= 0.0 && Sendable(ps, s.mem, s.world.db, c, now)
    ensures Ok(ps, s, c, now) ==> Rows.OnLeaseNow(s.world.db, c.task, c.worker, c.lease, now)
    ensures Then(ps, s, c, now).world == s.world
    ensures Then(ps, s, c, now).mem ==
      if Ok(ps, s, c, now) && DispatchKey(c) !in s.mem.dispatches then
        var e := Envelope(c.task, c.worker, c.session, c.lease, s.world.db.tasks[c.task].lease.value.expires, c.capability, c.target);
        s.mem.(dispatches := s.mem.dispatches[DispatchKey(c) := Dispatch(e, None, false)])
      else s.mem
  {
    hide IsIdentifier;
  }

  /** The call names the task, worker, session and lease of a dispatch, its worker is present, its lease is the
      task's and unexpired, and its observation is neither older than the session's nor from the future. */
  predicate Refers(ps: map<Id, Profile>, m: Memory, db: Db, key: string, task: Id, worker: Id, session: Id, lease: Id,
                   observed: Time, now: Time) {
    && key in m.dispatches && m.dispatches[key].envelope.task == task && m.dispatches[key].envelope.worker == worker
    && m.dispatches[key].envelope.session == session && m.dispatches[key].envelope.lease == lease
    && Present(ps, m, worker, session, now) && Rows.OnLeaseNow(db, task, worker, lease, now)
    && 0.0 <= observed <= now + 1.0 && m.sessions[worker].observed <= observed
  }

  /** An acknowledgement is accepted exactly when it refers to a dispatch and the task is leased, or acknowledged
      already and running. The first starts the task and notes when it was observed. */
  lemma AckExactly(ps: map<Id, Profile>, s: State, c: Call, now: Time)
    requires Mirror(ps, s) && s.world.clock <= now && c.Ack?
    ensures var refers := Refers(ps, s.mem, s.world.db, c.key, c.task, c.worker, c.session, c.lease, c.observed, now);
      && (Ok(ps, s, c, now) <==>
            && now >= 0.0 && refers
            && if s.mem.dispatches[c.key].acked.Some? then s.world.db.tasks[c.task].state.Running?
               else s.world.db.tasks[c.task].state.Leased? && s.mem.sessions[c.worker].observed <= now + 1.0)
      && (Ok(ps, s, c, now) ==> c.key in s.mem.dispatches && c.task in s.world.db.tasks)
      && Then(ps, s, c, now).mem ==
           (if Ok(ps, s, c, now) && s.mem.dispatches[c.key].acked.None? then
              s.mem.(dispatches := s.mem.dispatches[c.key := s.mem.dispatches[c.key].(acked := Some(c.observed))])
            else s.mem)
      && Then(ps, s, c, now).world.db ==
           (if Ok(ps, s, c, now) && s.mem.dispatches[c.key].acked.None? then
              s.world.db.(tasks := s.world.db.tasks[c.task := s.world.db.tasks[c.task].(state := Running)])
            else s.world.db)
  {
    hide DispatchesOk, OneAck, TasksMirror, EvidenceMirror, StoreRuns.Inv, IsIdentifier;
  }

  // ---------------------------------------------------------------- results

  /** The dispatch was acknowledged, not after this, has no result yet, and its task runs. */
  predicate Awaits(ps: map<Id, Profile>, m: Memory, db: Db, c: Call, now: Time)
    requires c.Result?
  {
    && Refers(ps, m, db, c.key, c.task, c.worker, c.session, c.lease, c.observed, now)
    && m.dispatches[c.key].acked.Some? && m.dispatches[c.key].acked.value <= c.observed && !m.dispatches[c.key].resulted
    && db.tasks[c.task].state.Running?
  }

  /** One piece of evidence, of declared content, with the digest of that content, and new to the task. */
  ghost predicate Proves(m: Memory, db: Db, c: Call)
    requires c.Result?
  {
    && c.status.Succeeded? && |c.evidence| == 1 && IsIdentifier(c.evidence[0].id)
    && c.evidence[0].id in m.content && m.content[c.evidence[0].id].Some?
    && c.evidence[0].sha == Some(Digest(m.content[c.evidence[0].id].value))
    && Rows.NewEvidence(db, c.task, c.evidence[0].id, c.evidence[0].sha.value)
  }

  lemma AwaitsExactly(ps: map<Id, Profile>, m: Memory, db: Db, c: Call, now: Time)
    requires c.Result?
    ensures ResultOk(ps, m, db, c, now) <==> now >= 0.0 && Awaits(ps, m, db, c, now)
    ensures Awaits(ps, m, db, c, now) ==> c.task in db.tasks && c.key in m.dispatches
  {
  }

  lemma Submitted(ps: map<Id, Profile>, s: State, c: Call, now: Time)
    requires Mirror(ps, s) && s.world.clock <= now && now >= 0.0 && c.Result? && Awaits(ps, s.mem, s.world.db, c, now)
    requires |c.evidence| == 1 && c.evidence[0].sha.Some?
    ensures var db, op := s.world.db, StoreRuns.Submitting(c.task, c.worker, c.lease, c.evidence[0].id, c.evidence[0].sha);
      var may := s.mem.sessions[c.worker].observed <= now + 1.0 && Rows.NewEvidence(db, c.task, c.evidence[0].id, c.evidence[0].sha.value);
      && (StoreRuns.Succeeds(db, op, now) <==> may)
      && StoreRuns.Next(s.world, op, now).db ==
           (if may then
              db.(tasks := db.tasks[c.task := db.tasks[c.task].(state := ReviewPending, evidence := Received)],
                  evidence := db.evidence[EvidenceKey(c.task, c.evidence[0].id) := c.evidence[0].sha.value])
            else db)
  {
    hide OneAck, TasksMirror, EvidenceMirror, DispatchesOk, StoreRuns.Inv, IsIdentifier;
  }

  lemma Failed(ps: map<Id, Profile>, s: State, c: Call, now: Time)
    requires now >= 0.0 && c.Result? && Awaits(ps, s.mem, s.world.db, c, now)
    requires c.task in s.world.claims && StoreRuns.TaskOk(s.world.db.tasks[c.task], s.world.claims[c.task])
    ensures var db, op := s.world.db, StoreRuns.Failing(c.task, c.worker, c.lease);
      && StoreRuns.Succeeds(db, op, now)
      && StoreRuns.Next(s.world, op, now).db == db.(tasks := db.tasks[c.task := Rows.Spent(db.tasks[c.task])])
  {
  }

  /** A result is accepted exactly when it is awaited and proves success, or reports a safe failure with no
      evidence. Success brings the task under review with its evidence; a failure costs it the attempt. */
  lemma ResultExactly(ps: map<Id, Profile>, s: State, c: Call, now: Time)
    requires Mirror(ps, s) && s.world.clock <= now && c.Result?
    ensures var db := s.world.db;
      var proves := now >= 0.0 && Awaits(ps, s.mem, db, c, now) && Proves(s.mem, db, c) && s.mem.sessions[c.worker].observed <= now + 1.0;
      var fails := now >= 0.0 && Awaits(ps, s.mem, db, c, now) && c.status.FailedSafe? && c.evidence == [];
      && (Ok(ps, s, c, now) <==> proves || fails)
      && Then(ps, s, c, now).mem ==
           (if proves || fails then s.mem.(dispatches := s.mem.dispatches[c.key := s.mem.dispatches[c.key].(resulted := true)]) else s.mem)
      && Then(ps, s, c, now).world.db ==
           (if proves then
              db.(tasks := db.tasks[c.task := db.tasks[c.task].(state := ReviewPending, evidence := Received)],
                  evidence := db.evidence[EvidenceKey(c.task, c.evidence[0].id) := c.evidence[0].sha.value])
            else if fails then db.(tasks := db.tasks[c.task := Rows.Spent(db.tasks[c.task])])
            else db)
  {
    hide ResultOk, Refers, Mirror, StoreRuns.Next, StoreRuns.Succeeds, IsIdentifier, Rows.NewEvidence, Rows.Spent;
    AwaitsExactly(ps, s.mem, s.world.db, c, now);
    if now >= 0.0 && Awaits(ps, s.mem, s.world.db, c, now) {
      if |c.evidence| == 1 && c.evidence[0].sha.Some? { Submitted(ps, s, c, now); }
      RowIsOk(ps, s, c.task);
      Failed(ps, s, c, now);
    }
  }

  lemma RowIsOk(ps: map<Id, Profile>, s: State, t: Id)
    requires Mirror(ps, s) && t in s.world.db.tasks
    ensures t in s.world.claims && StoreRuns.TaskOk(s.world.db.tasks[t], s.world.claims[t])
  {
  }

  /** Content is declared exactly under an identifier that has none, or the same; it never changes. */
  lemma DeclareExactly(ps: map<Id, Profile>, s: State, c: Call, now: Time)
    requires c.Declare?
    ensures Ok(ps, s, c, now) <==> IsIdentifier(c.id) && (c.id in s.mem.content ==> s.mem.content[c.id] == c.bytes)
    ensures Then(ps, s, c, now).world == s.world
    ensures Then(ps, s, c, now).mem == if Ok(ps, s, c, now) then s.mem.(content := s.mem.content[c.id := c.bytes]) else s.mem
  {
    hide IsIdentifier;
  }

  // ---------------------------------------------------------------- one step

  /** What a step other than a restart makes of a worker's session: it stays; or a heartbeat continues it; or a
      hello that fits the worker's profile replaces it, once it was last observed longer ago than its SLA. */
  ghost predicate SessionMoves(ps: map<Id, Profile>, s: State, e: Event, k: Id, v: Session) {
    || (k in s.mem.sessions && s.mem.sessions[k] == v)
    || (&& e.Calling? && e.call.Beat? && e.call.worker == k && Continues(ps, s.mem, e.call, e.now)
        && v.id == e.call.session && v.sequence == e.call.sequence && v.observed == e.call.observed && v.capacity == e.call.capacity)
    || (&& e.Calling? && e.call.Hello? && e.call.worker == k && FitsProfile(ps, e.call, e.now)
        && SessionFree(ps, s.mem, k, e.call.session, e.now)
        && v.id == e.call.session && v.sequence == e.call.sequence && v.observed == e.call.observed && v.capacity == e.call.capacity)
  }

  lemma SessionStep(ps: map<Id, Profile>, s: State, e: Event, k: Id)
    requires Mirror(ps, s) && Allowed(s, e) && !e.Restarting?
    ensures var m := After(ps, s, e).mem.sessions;
      && (k in s.mem.sessions ==> k in m && k in ps)
      && (k in m ==> SessionMoves(ps, s, e, k, m[k]))
  {
    hide PlanOf, Mirror, FitsProfile, Continues, StoreRuns.Next, Sendable, Refers, Awaits, Proves, Accepted;
    ProfilesKnown(ps, s, k);
    if e.Calling? {
      match e.call {
        case Hello(_, _, _, _, _, _, _, _, _) => HelloExactly(ps, s, e.call, e.now);
        case Beat(_, _, _, _, _) => BeatExactly(ps, s, e.call, e.now);
        case Dispatched(_, _, _, _, _, _) => SendExactly(ps, s, e.call, e.now);
        case Ack(_, _, _, _, _, _) => AckExactly(ps, s, e.call, e.now);
        case Result(_, _, _, _, _, _, _, _) => ResultExactly(ps, s, e.call, e.now);
        case Declare(_, _) => DeclareExactly(ps, s, e.call, e.now);
      }
    }
  }

  lemma ProfilesKnown(ps: map<Id, Profile>, s: State, k: Id)
    requires Mirror(ps, s)
    ensures k in s.mem.sessions ==> k in ps
  {
  }

  /** In every step other than a restart, a worker whose session was observed within its SLA keeps its session. */
  lemma LiveSessionKept(ps: map<Id, Profile>, s: State, e: Event, k: Id)
    requires Mirror(ps, s) && Allowed(s, e) && !e.Restarting? && k in s.mem.sessions
    requires k in ps ==> e.now <= s.mem.sessions[k].observed + ps[k].sla
    ensures k in After(ps, s, e).mem.sessions && After(ps, s, e).mem.sessions[k].id == s.mem.sessions[k].id
  {
    hide Mirror, After, FitsProfile;
    SessionStep(ps, s, e, k);
  }

  /** What a step makes of a dispatch. */
  ghost predicate DispatchMoves(ps: map<Id, Profile>, s: State, e: Event, key: string, d: Dispatch) {
    || (key in s.mem.dispatches && s.mem.dispatches[key] == d)
    || (&& e.Calling? && e.call.Dispatched? && key == DispatchKey(e.call) && key !in s.mem.dispatches
        && Sendable(ps, s.mem, s.world.db, e.call, e.now)
        && d.acked.None? && !d.resulted && d.envelope.task == e.call.task && d.envelope.worker == e.call.worker
        && d.envelope.session == e.call.session && d.envelope.lease == e.call.lease
        && d.envelope.capability == e.call.capability && d.envelope.target == e.call.target)
    || (&& e.Calling? && e.call.Ack? && e.call.key == key && key in s.mem.dispatches && s.mem.dispatches[key].acked.None?
        && Refers(ps, s.mem, s.world.db, key, e.call.task, e.call.worker, e.call.session, e.call.lease, e.call.observed, e.now)
        && s.world.db.tasks[e.call.task].state.Leased? && d == s.mem.dispatches[key].(acked := Some(e.call.observed)))
    || (&& e.Calling? && e.call.Result? && e.call.key == key && key in s.mem.dispatches && Awaits(ps, s.mem, s.world.db, e.call, e.now)
        && (Proves(s.mem, s.world.db, e.call) || (e.call.status.FailedSafe? && e.call.evidence == []))
        && d == s.mem.dispatches[key].(resulted := true))
  }

  lemma DispatchStep(ps: map<Id, Profile>, s: State, e: Event, key: string)
    requires Mirror(ps, s) && Allowed(s, e)
    ensures var m := After(ps, s, e).mem.dispatches;
      && (key in s.mem.dispatches && !e.Restarting? ==> key in m)
      && (key in m ==> DispatchMoves(ps, s, e, key, m[key]))
  {
    hide PlanOf, Mirror, FitsProfile, Continues, StoreRuns.Next, Sendable, Awaits, Proves, Accepted;
    if e.Calling? {
      match e.call {
        case Hello(_, _, _, _, _, _, _, _, _) => HelloExactly(ps, s, e.call, e.now);
        case Beat(_, _, _, _, _) => BeatExactly(ps, s, e.call, e.now);
        case Dispatched(_, _, _, _, _, _) => SendExactly(ps, s, e.call, e.now);
        case Ack(_, _, _, _, _, _) => AckExactly(ps, s, e.call, e.now);
        case Result(_, _, _, _, _, _, _, _) => ResultExactly(ps, s, e.call, e.now); AwaitsExactly(ps, s.mem, s.world.db, e.call, e.now);
        case Declare(_, _) => DeclareExactly(ps, s, e.call, e.now);
      }
    }
  }

  // ---------------------------------------------------------------- over whole runs

  /** The state after the first `i` events of a run from the empty store. */
  function At(ps: map<Id, Profile>, es: seq<Event>, i: nat): State
    requires i <= |es|
  {
    Run(ps, EMPTY, es[..i])
  }

  lemma {:induction false} LegalPrefix(ps: map<Id, Profile>, s: State, es: seq<Event>, i: nat)
    requires Legal(ps, s, es) && i < |es|
    ensures Legal(ps, s, es[..i]) && Allowed(Run(ps, s, es[..i]), es[i])
    ensures Run(ps, s, es[..i + 1]) == After(ps, Run(ps, s, es[..i]), es[i])
    decreases i
  {
    hide After;
    if i > 0 {
      assert es[1..][..i - 1] == es[..i][1..] && es[1..][..i] == es[..i + 1][1..];
      LegalPrefix(ps, After(ps, s, es[0]), es[1..], i - 1);
    }
  }

  lemma StepAt(ps: map<Id, Profile>, es: seq<Event>, i: nat)
    requires Legal(ps, EMPTY, es) && i < |es|
    ensures Mirror(ps, At(ps, es, i)) && Allowed(At(ps, es, i), es[i]) && At(ps, es, i + 1) == After(ps, At(ps, es, i), es[i])
  {
    hide After;
    LegalPrefix(ps, EMPTY, es, i);
    StoreRuns.EmptyStoreOk();
    RunMirror(ps, EMPTY, es[..i]);
  }

  predicate Holds(ps: map<Id, Profile>, es: seq<Event>, i: nat, k: Id, session: Id) {
    i <= |es| && var m := At(ps, es, i).mem.sessions; k in m && m[k].id == session
  }

  predicate Unbroken(es: seq<Event>, i: nat, j: nat) { forall l :: i <= l < j <= |es| ==> !es[l].Restarting? }

  /** Over any run, between two moments without a restart, a worker is in another session only if a hello came
      after its session had been last observed longer ago than its SLA. */
  lemma {:induction false} ReplacedLate(ps: map<Id, Profile>, es: seq<Event>, i: nat, j: nat, k: Id) returns (m: nat)
    requires Legal(ps, EMPTY, es) && i <= j <= |es| && Unbroken(es, i, j) && k in At(ps, es, i).mem.sessions
    requires !Holds(ps, es, j, k, At(ps, es, i).mem.sessions[k].id)
    ensures i <= m < j && Holds(ps, es, m, k, At(ps, es, i).mem.sessions[k].id)
    ensures es[m].Calling? && es[m].call.Hello? && es[m].call.worker == k && k in ps
    ensures es[m].now > At(ps, es, m).mem.sessions[k].observed + ps[k].sla
    ensures At(ps, es, m).mem.sessions[k].observed >= At(ps, es, i).mem.sessions[k].observed
    decreases j - i
  {
    hide Run, After, Mirror, Allowed, FitsProfile, Legal;
    assert !es[i].Restarting?;
    StepAt(ps, es, i);
    SessionStep(ps, At(ps, es, i), es[i], k);
    if Holds(ps, es, i + 1, k, At(ps, es, i).mem.sessions[k].id) {
      m := ReplacedLate(ps, es, i + 1, j, k);
    } else {
      m := i;
    }
  }

  lemma Ends(ps: map<Id, Profile>, es: seq<Event>)
    ensures At(ps, es, 0) == EMPTY && At(ps, es, |es|) == Run(ps, EMPTY, es)
  {
    assert es[..|es|] == es;
  }

  predicate AckedAt(s: State, key: string, at: Time) { key in s.mem.dispatches && s.mem.dispatches[key].acked == Some(at) }

  /** Over any run, an acknowledgement a dispatch has was given by its worker, in session, while the task was
      leased under the dispatch's unexpired lease. */
  lemma AckWasGiven(ps: map<Id, Profile>, es: seq<Event>, key: string, at: Time) returns (i: nat)
    requires Legal(ps, EMPTY, es) && AckedAt(Run(ps, EMPTY, es), key, at)
    ensures i < |es| && es[i].Calling? && es[i].call.Ack? && es[i].call.key == key && es[i].call.observed == at
    ensures var s, c := At(ps, es, i), es[i].call;
      Refers(ps, s.mem, s.world.db, key, c.task, c.worker, c.session, c.lease, at, es[i].now) && s.world.db.tasks[c.task].state.Leased?
  {
    hide Run, After, Mirror, Allowed, Legal, Sendable, Refers, Awaits, Proves;
    Ends(ps, es);
    i := TurningPoint(|es|, (j: nat) => j <= |es| && AckedAt(At(ps, es, j), key, at));
    StepAt(ps, es, i);
    DispatchStep(ps, At(ps, es, i), es[i], key);
  }

  predicate ResultedAt(s: State, key: string) { key in s.mem.dispatches && s.mem.dispatches[key].resulted }

  /** Over any run, the result a dispatch has was awaited, and proved success with declared content or reported
      a safe failure. */
  lemma ResultWasGiven(ps: map<Id, Profile>, es: seq<Event>, key: string) returns (i: nat)
    requires Legal(ps, EMPTY, es) && ResultedAt(Run(ps, EMPTY, es), key)
    ensures i < |es| && es[i].Calling? && es[i].call.Result? && es[i].call.key == key
    ensures var s, c := At(ps, es, i), es[i].call;
      Awaits(ps, s.mem, s.world.db, c, es[i].now) && (Proves(s.mem, s.world.db, c) || (c.status.FailedSafe? && c.evidence == []))
  {
    hide Run, After, Mirror, Allowed, Legal, Sendable, Refers, Awaits, Proves;
    Ends(ps, es);
    i := TurningPoint(|es|, (j: nat) => j <= |es| && ResultedAt(At(ps, es, j), key));
    StepAt(ps, es, i);
    DispatchStep(ps, At(ps, es, i), es[i], key);
  }

  predicate SentAs(s: State, key: string, e: Envelope) { key in s.mem.dispatches && s.mem.dispatches[key].envelope == e }

  /** Over any run, a dispatch was sent for a task leased to its worker, in session, under its unexpired lease. */
  lemma DispatchWasSent(ps: map<Id, Profile>, es: seq<Event>, key: string, v: Envelope) returns (i: nat)
    requires Legal(ps, EMPTY, es) && SentAs(Run(ps, EMPTY, es), key, v)
    ensures i < |es| && es[i].Calling? && es[i].call.Dispatched? && DispatchKey(es[i].call) == key
    ensures var s, c := At(ps, es, i), es[i].call;
      && Sendable(ps, s.mem, s.world.db, c, es[i].now) && v.task == c.task && v.worker == c.worker && v.session == c.session
      && v.lease == c.lease && v.capability == c.capability && v.target == c.target
  {
    hide Run, After, Mirror, Allowed, Legal, Sendable, Refers, Awaits, Proves, DispatchKey;
    Ends(ps, es);
    i := TurningPoint(|es|, (j: nat) => j <= |es| && SentAs(At(ps, es, j), key, v));
    StepAt(ps, es, i);
    DispatchStep(ps, At(ps, es, i), es[i], key);
  }
}
