/** Whole runs of the gateway and the store together. The gateway alone writes worker rows, starts
    tasks and submits results; claims, renewals, reclaims, failures, reviews and governed
    executions interleave freely. */
module GatewayRuns {
  import opened Basics
  import opened Store
  import opened Gateway
  import StoreRuns

  /** `unbroken` remembers that the gateway has not been restarted. */
  datatype State = State(world: StoreRuns.World, mem: Memory, unbroken: bool)

  /** A restart loses everything in memory and keeps the store. */
  datatype Event = Calling(call: Call, now: Time) | Storing(op: StoreRuns.Action, now: Time) | Restarting

  const NOTHING := Memory(map[], map[], map[])

  function After(ps: map<Id, Profile>, s: State, e: Event): State {
    match e
    case Storing(op, now) => s.(world := StoreRuns.Next(s.world, op, now))
    case Calling(c, now) => Carried(s, PlanOf(ps, s.mem, s.world.db, c, now), now)
    case Restarting => State(s.world, NOTHING, false)
  }

  function Carried(s: State, p: Plan, now: Time): State {
    match p
    case Refuse => s
    case Keep(m) => s.(mem := m)
    case Perform(op, m) => State(StoreRuns.Next(s.world, op, now), if StoreRuns.Succeeds(s.world.db, op, now) then m else s.mem, s.unbroken)
  }

  /** The clock never goes back, lease ids are fresh, and store operations of others are none of
      the gateway's own. */
  predicate Allowed(s: State, e: Event) {
    && (!e.Restarting? ==> s.world.clock <= e.now)
    && (e.Storing? ==>
          && StoreRuns.Allowed(s.world, e.op, e.now)
          && !e.op.Registering? && !e.op.Beating? && !e.op.Starting? && !e.op.Submitting?)
  }

  // ---------------------------------------------------------------- invariant

  ghost predicate DispatchesOk(s: State) {
    forall k :: k in s.mem.dispatches ==>
      var d := s.mem.dispatches[k];
      && d.envelope.lease in s.world.issued && s.world.issued[d.envelope.lease] == (d.envelope.task, d.envelope.worker)
      && (d.resulted ==> d.acked.Some?)
  }

  ghost predicate AckedLease(m: Memory, l: Id) {
    exists k :: k in m.dispatches && m.dispatches[k].envelope.lease == l && m.dispatches[k].acked.Some?
  }

  ghost predicate OneAck(m: Memory) {
    forall k, j ::
      (&& k in m.dispatches && j in m.dispatches && m.dispatches[k].acked.Some? && m.dispatches[j].acked.Some?
       && m.dispatches[k].envelope.lease == m.dispatches[j].envelope.lease) ==> k == j
  }

  /** What the dispatches of a current lease say about its task. Only an unbroken gateway remembers
      every acknowledgement. */
  ghost predicate TaskMirror(t: Task, m: Memory, unbroken: bool) {
    t.lease.Some? ==>
      && !t.state.EvidencePending?
      && (AckedLease(m, t.lease.value.id) ==> !t.state.Leased?)
      && (unbroken && !AckedLease(m, t.lease.value.id) ==> t.state.Leased?)
      && forall k :: k in m.dispatches && m.dispatches[k].envelope.lease == t.lease.value.id && m.dispatches[k].resulted ==> t.state.ReviewPending?
  }

  ghost predicate TasksMirror(s: State) {
    forall t :: t in s.world.db.tasks ==> TaskMirror(s.world.db.tasks[t], s.mem, s.unbroken)
  }

  /** Every stored digest is the digest of the content declared under that identity. */
  ghost predicate EvidenceMirror(m: Memory, db: Db) {
    forall k :: k in db.evidence ==>
      k.evidence in m.content && m.content[k.evidence].Some? && db.evidence[k] == Digest(m.content[k.evidence].value)
  }

  ghost predicate Mirror(ps: map<Id, Profile>, s: State) {
    && StoreRuns.Inv(s.world) && SessionsMirror(ps, s.mem, s.world.db)
    && DispatchesOk(s) && OneAck(s.mem) && TasksMirror(s) && (s.unbroken ==> EvidenceMirror(s.mem, s.world.db))
  }

  // ---------------------------------------------------------------- memory that does not touch leases

  /** Acknowledgements and results are the same, new dispatches have neither. */
  ghost predicate SameReports(m: Memory, n: Memory) {
    && (forall k :: k in m.dispatches ==> k in n.dispatches && n.dispatches[k] == m.dispatches[k])
    && (forall k :: k in n.dispatches && k !in m.dispatches ==> n.dispatches[k].acked.None? && !n.dispatches[k].resulted)
  }

  lemma SameReportsMirror(t: Task, m: Memory, n: Memory, unbroken: bool)
    requires SameReports(m, n)
    ensures TaskMirror(t, m, unbroken) ==> TaskMirror(t, n, unbroken)
    ensures OneAck(m) ==> OneAck(n)
  {
    if t.lease.Some? {
      var l := t.lease.value.id;
      if AckedLease(m, l) {
        var k :| k in m.dispatches && m.dispatches[k].envelope.lease == l && m.dispatches[k].acked.Some?;
        assert n.dispatches[k].acked.Some?;
      }
      if AckedLease(n, l) {
        var k :| k in n.dispatches && n.dispatches[k].envelope.lease == l && n.dispatches[k].acked.Some?;
        assert k in m.dispatches;
      }
    }
  }

  // ---------------------------------------------------------------- store operations of others

  ghost predicate Outside(c: StoreRuns.Change) {
    !c.WorkerRow? && !(c.MovedRow? && (c.move.Begin? || c.move.Fault? || c.move.Receive?))
  }

  /** A new lease has no dispatch, so none of its dispatches is acknowledged. */
  lemma FreshLease(s: State, l: Id)
    requires DispatchesOk(s) && l !in s.world.issued
    ensures !AckedLease(s.mem, l) && forall k :: k in s.mem.dispatches ==> s.mem.dispatches[k].envelope.lease != l
  {
  }

  lemma ClaimedMirror(row: Task, m: Memory, unbroken: bool)
    requires row.lease.Some? && row.state.Leased? && !AckedLease(m, row.lease.value.id)
    requires forall k :: k in m.dispatches ==> m.dispatches[k].envelope.lease != row.lease.value.id
    ensures TaskMirror(row, m, unbroken)
  {
  }

  lemma UnleasedMirror(row: Task, m: Memory, unbroken: bool)
    requires row.lease.None?
    ensures TaskMirror(row, m, unbroken)
  {
  }

  /** No other party begins, reports or declares evidence. */
  lemma OutsideMove(row: Task, move: StoreRuns.Move, claims: nat, m: Memory, unbroken: bool)
    requires TaskMirror(row, m, unbroken) && StoreRuns.TaskOk(row, claims) && StoreRuns.CanMove(row, move)
    requires !move.Begin? && !move.Fault? && !move.Receive?
    ensures TaskMirror(StoreRuns.Moved(row, move), m, unbroken)
  {
    hide AckedLease;
  }

  lemma OutsideRow(s: State, w: StoreRuns.World, c: StoreRuns.Change, t: Id)
    requires StoreRuns.RowsOk(s.world) && DispatchesOk(s) && TasksMirror(s)
    requires StoreRuns.Explains(c, s.world, w) && Outside(c) && t in w.db.tasks
    ensures TaskMirror(w.db.tasks[t], s.mem, s.unbroken)
  {
    hide CanTake, AckedLease, TaskMirror;
    if t in s.world.db.tasks {
      assert TaskMirror(s.world.db.tasks[t], s.mem, s.unbroken);
      assert StoreRuns.TaskOk(s.world.db.tasks[t], s.world.claims[t]);
    }
    if c.ClaimedRow? && c.t == t {
      FreshLease(s, c.lease.id);
      ClaimedMirror(w.db.tasks[t], s.mem, s.unbroken);
    } else if c.MovedRow? && c.t == t {
      OutsideMove(s.world.db.tasks[t], c.move, s.world.claims[t], s.mem, s.unbroken);
    } else if c.ChargedRows? && t in c.ids {
      OutsideMove(s.world.db.tasks[t], StoreRuns.Charge, s.world.claims[t], s.mem, s.unbroken);
    } else if c.NewRow? && c.t == t {
      UnleasedMirror(w.db.tasks[t], s.mem, s.unbroken);
    }
  }

  lemma OutsideTasks(s: State, w: StoreRuns.World, c: StoreRuns.Change)
    requires StoreRuns.RowsOk(s.world) && DispatchesOk(s) && TasksMirror(s) && StoreRuns.Explains(c, s.world, w) && Outside(c)
    ensures TasksMirror(s.(world := w))
  {
    hide TaskMirror, StoreRuns.RowsOk, DispatchesOk, StoreRuns.Explains;
    forall t | t in w.db.tasks ensures TaskMirror(w.db.tasks[t], s.mem, s.unbroken) { OutsideRow(s, w, c, t); }
  }

  lemma OutsideTables(s: State, w: StoreRuns.World, c: StoreRuns.Change)
    requires StoreRuns.Explains(c, s.world, w) && Outside(c)
    ensures w.db.workers == s.world.db.workers && w.db.evidence == s.world.db.evidence
    ensures forall l :: l in s.world.issued ==> l in w.issued && w.issued[l] == s.world.issued[l]
  {
  }

  lemma OutsideMirror(ps: map<Id, Profile>, s: State, w: StoreRuns.World, c: StoreRuns.Change)
    requires Mirror(ps, s) && StoreRuns.Explains(c, s.world, w) && Outside(c) && StoreRuns.Inv(w)
    ensures Mirror(ps, s.(world := w))
  {
    OutsideTasks(s, w, c);
    OutsideTables(s, w, c);
    hide TasksMirror, OneAck, StoreRuns.Inv;
  }

  /** A refused store operation only moves the clock; a refused result never reaches
      EVIDENCE_PENDING, because the gateway has checked the digest. */
  lemma RefusedWorld(s: State, op: StoreRuns.Action, now: Time)
    requires !StoreRuns.Succeeds(s.world.db, op, now) && (op.Submitting? ==> op.digest.Some?)
    ensures StoreRuns.Next(s.world, op, now) == s.world.(clock := now)
  {
  }

  lemma ClockMirror(ps: map<Id, Profile>, s: State, now: Time)
    requires Mirror(ps, s) && StoreRuns.Inv(s.world.(clock := now))
    ensures Mirror(ps, s.(world := s.world.(clock := now)))
  {
    assert StoreRuns.Explains(StoreRuns.Idle, s.world, s.world.(clock := now));
    OutsideMirror(ps, s, s.world.(clock := now), StoreRuns.Idle);
  }

  lemma RefusedMirror(ps: map<Id, Profile>, s: State, op: StoreRuns.Action, now: Time)
    requires Mirror(ps, s) && s.world.clock <= now && !op.Claiming?
    requires !StoreRuns.Succeeds(s.world.db, op, now) && (op.Submitting? ==> op.digest.Some?)
    ensures Mirror(ps, s.(world := StoreRuns.Next(s.world, op, now)))
  {
    StoreRuns.StepKeepsInv(s.world, op, now);
    RefusedWorld(s, op, now);
    ClockMirror(ps, s, now);
  }

  // ---------------------------------------------------------------- sessions

  lemma SessionRows(s: State, w: StoreRuns.World, n: Memory)
    requires TasksMirror(s) && w.db.tasks == s.world.db.tasks && n.dispatches == s.mem.dispatches
    ensures TasksMirror(State(w, n, s.unbroken))
  {
    forall t | t in w.db.tasks ensures TaskMirror(w.db.tasks[t], n, s.unbroken) {
      assert TaskMirror(s.world.db.tasks[t], s.mem, s.unbroken);
      SameReportsMirror(w.db.tasks[t], s.mem, n, s.unbroken);
    }
  }

  lemma WorkerSessions(ps: map<Id, Profile>, s: State, w: StoreRuns.World, k: Id, v: Session)
    requires SessionsMirror(ps, s.mem, s.world.db) && StoreRuns.Explains(StoreRuns.WorkerRow(k), s.world, w)
    requires k in ps && IsIdentifier(k) && IsIdentifier(v.id)
    requires w.db.workers[k] == Worker(ps[k].kind, ps[k].capabilities, ps[k].targets, v.observed, ps[k].sla, v.capacity)
    ensures SessionsMirror(ps, s.mem.(sessions := s.mem.sessions[k := v]), w.db)
  {
  }

  lemma WorkerDispatches(s: State, w: StoreRuns.World, k: Id, n: Memory)
    requires DispatchesOk(s) && OneAck(s.mem) && StoreRuns.Explains(StoreRuns.WorkerRow(k), s.world, w)
    requires n.dispatches == s.mem.dispatches && n.content == s.mem.content
    requires s.unbroken ==> EvidenceMirror(s.mem, s.world.db)
    ensures DispatchesOk(State(w, n, s.unbroken)) && OneAck(n) && (s.unbroken ==> EvidenceMirror(n, w.db))
  {
  }

  lemma WorkerMirror(ps: map<Id, Profile>, s: State, w: StoreRuns.World, k: Id, v: Session)
    requires Mirror(ps, s) && StoreRuns.Explains(StoreRuns.WorkerRow(k), s.world, w) && StoreRuns.Inv(w)
    requires k in ps && IsIdentifier(k) && IsIdentifier(v.id)
    requires w.db.workers[k] == Worker(ps[k].kind, ps[k].capabilities, ps[k].targets, v.observed, ps[k].sla, v.capacity)
    ensures Mirror(ps, State(w, s.mem.(sessions := s.mem.sessions[k := v]), s.unbroken))
  {
    hide SessionsMirror, DispatchesOk, OneAck, TasksMirror, EvidenceMirror, StoreRuns.Inv;
    var n := s.mem.(sessions := s.mem.sessions[k := v]);
    WorkerSessions(ps, s, w, k, v);
    WorkerDispatches(s, w, k, n);
    SessionRows(s, w, n);
  }

  /** The gateway registered worker `k`, or observed it, as session `v` says. */
  ghost predicate Seen(ps: map<Id, Profile>, s: State, w: StoreRuns.World, k: Id, v: Session) {
    && StoreRuns.Explains(StoreRuns.WorkerRow(k), s.world, w) && k in ps && IsIdentifier(k) && IsIdentifier(v.id)
    && w.db.workers[k] == Worker(ps[k].kind, ps[k].capabilities, ps[k].targets, v.observed, ps[k].sla, v.capacity)
  }

  lemma HelloWorld(ps: map<Id, Profile>, s: State, c: Call, now: Time)
    requires c.Hello? && PlanHello(ps, s.mem, c, now).Perform?
    ensures c.capacity >= 0
    ensures var p := PlanHello(ps, s.mem, c, now);
      var v := Session(c.session, c.sequence, c.observed, c.capacity);
      && p.op.Registering? && p.after == s.mem.(sessions := s.mem.sessions[c.worker := v])
      && (StoreRuns.Succeeds(s.world.db, p.op, now) ==> Seen(ps, s, StoreRuns.Next(s.world, p.op, now), c.worker, v))
  {
  }

  lemma BeatWorld(ps: map<Id, Profile>, s: State, c: Call, now: Time)
    requires SessionsMirror(ps, s.mem, s.world.db) && c.Beat? && PlanBeat(ps, s.mem, c, now).Perform?
    ensures var p := PlanBeat(ps, s.mem, c, now);
      var v := Session(c.session, c.sequence, c.observed, c.capacity);
      && p.op.Beating? && p.after == s.mem.(sessions := s.mem.sessions[c.worker := v])
      && (StoreRuns.Succeeds(s.world.db, p.op, now) ==> Seen(ps, s, StoreRuns.Next(s.world, p.op, now), c.worker, v))
  {
  }

  /** A worker row and its session are written together, or neither is. */
  lemma SeenMirror(ps: map<Id, Profile>, s: State, op: StoreRuns.Action, n: Memory, now: Time, k: Id, v: Session)
    requires Mirror(ps, s) && s.world.clock <= now && (op.Registering? || op.Beating?)
    requires n == s.mem.(sessions := s.mem.sessions[k := v])
    requires StoreRuns.Succeeds(s.world.db, op, now) ==> Seen(ps, s, StoreRuns.Next(s.world, op, now), k, v)
    ensures Mirror(ps, Carried(s, Perform(op, n), now))
  {
    hide SessionsMirror, DispatchesOk, OneAck, TasksMirror, EvidenceMirror, StoreRuns.Inv, StoreRuns.Next, StoreRuns.Succeeds;
    StoreRuns.StepKeepsInv(s.world, op, now);
    if StoreRuns.Succeeds(s.world.db, op, now) {
      WorkerMirror(ps, s, StoreRuns.Next(s.world, op, now), k, v);
    } else {
      RefusedMirror(ps, s, op, now);
    }
  }

  lemma HelloMirror(ps: map<Id, Profile>, s: State, c: Call, now: Time)
    requires Mirror(ps, s) && c.Hello? && s.world.clock <= now
    ensures Mirror(ps, After(ps, s, Calling(c, now)))
  {
    hide Mirror, StoreRuns.Next, StoreRuns.Succeeds, Seen, HelloOk;
    var p := PlanHello(ps, s.mem, c, now);
    if p.Perform? {
      HelloWorld(ps, s, c, now);
      hide PlanHello;
      SeenMirror(ps, s, p.op, p.after, now, c.worker, Session(c.session, c.sequence, c.observed, c.capacity));
    }
  }

  lemma BeatMirror(ps: map<Id, Profile>, s: State, c: Call, now: Time)
    requires Mirror(ps, s) && c.Beat? && s.world.clock <= now
    ensures Mirror(ps, After(ps, s, Calling(c, now)))
  {
    var p := PlanBeat(ps, s.mem, c, now);
    if p.Perform? {
      BeatWorld(ps, s, c, now);
      hide Mirror, PlanBeat, StoreRuns.Next, StoreRuns.Succeeds, Seen;
      SeenMirror(ps, s, p.op, p.after, now, c.worker, Session(c.session, c.sequence, c.observed, c.capacity));
    }
  }

  // ---------------------------------------------------------------- dispatch, declare

  lemma MemoryMirror(ps: map<Id, Profile>, s: State, n: Memory)
    requires Mirror(ps, s) && SameReports(s.mem, n) && n.sessions == s.mem.sessions
    requires DispatchesOk(s.(mem := n)) && (s.unbroken ==> EvidenceMirror(n, s.world.db))
    ensures Mirror(ps, s.(mem := n))
  {
    forall t | t in s.world.db.tasks ensures TaskMirror(s.world.db.tasks[t], n, s.unbroken) {
      SameReportsMirror(s.world.db.tasks[t], s.mem, n, s.unbroken);
    }
    if t :| t in s.world.db.tasks { SameReportsMirror(s.world.db.tasks[t], s.mem, n, s.unbroken); }
    SameOneAck(s.mem, n);
  }

  lemma SameOneAck(m: Memory, n: Memory)
    requires SameReports(m, n) && OneAck(m)
    ensures OneAck(n)
  {
  }

  lemma DispatchMirror(ps: map<Id, Profile>, s: State, c: Call, now: Time)
    requires Mirror(ps, s) && c.Dispatched?
    ensures Mirror(ps, After(ps, s, Calling(c, now)))
  {
    hide SessionsMirror, OneAck, TasksMirror, InSession, IsIdentifier, KeyText;
    var p := PlanDispatch(ps, s.mem, s.world.db, c, now);
    if p.Keep? { MemoryMirror(ps, s, p.mem); }
  }

  lemma DeclareMirror(ps: map<Id, Profile>, s: State, c: Call, now: Time)
    requires Mirror(ps, s) && c.Declare?
    ensures Mirror(ps, After(ps, s, Calling(c, now)))
  {
    var p := PlanDeclare(s.mem, c);
    if p.Keep? { MemoryMirror(ps, s, p.mem); }
  }

  // ---------------------------------------------------------------- acknowledgement

  lemma AckRow(s: State, n: Memory, key: string, at: Time, t: Id)
    requires StoreRuns.RowsOk(s.world) && TasksMirror(s) && DispatchesOk(s)
    requires key in s.mem.dispatches && t in s.world.db.tasks
    requires n == s.mem.(dispatches := s.mem.dispatches[key := s.mem.dispatches[key].(acked := Some(at))])
    requires s.mem.dispatches[key].envelope.task != t
    ensures TaskMirror(s.world.db.tasks[t], n, s.unbroken)
  {
    var row := s.world.db.tasks[t];
    if row.lease.Some? {
      var l := row.lease.value.id;
      assert s.world.issued[l] == (t, row.lease.value.worker);
      assert s.mem.dispatches[key].envelope.lease != l;
      assert TaskMirror(row, s.mem, s.unbroken);
      if AckedLease(s.mem, l) {
        var k :| k in s.mem.dispatches && s.mem.dispatches[k].envelope.lease == l && s.mem.dispatches[k].acked.Some?;
        assert n.dispatches[k].acked.Some?;
      }
      if AckedLease(n, l) {
        var k :| k in n.dispatches && n.dispatches[k].envelope.lease == l && n.dispatches[k].acked.Some?;
        assert k in s.mem.dispatches && s.mem.dispatches[k].acked.Some?;
      }
    }
  }

  lemma AckOneAck(s: State, n: Memory, key: string, at: Time, row: Task)
    requires OneAck(s.mem) && TaskMirror(row, s.mem, s.unbroken) && key in s.mem.dispatches
    requires row.lease.Some? && row.lease.value.id == s.mem.dispatches[key].envelope.lease && row.state.Leased?
    requires n == s.mem.(dispatches := s.mem.dispatches[key := s.mem.dispatches[key].(acked := Some(at))])
    ensures OneAck(n) && AckedLease(n, row.lease.value.id)
  {
    assert n.dispatches[key].acked.Some?;
    forall k, j | k in n.dispatches && j in n.dispatches && n.dispatches[k].acked.Some? && n.dispatches[j].acked.Some?
      && n.dispatches[k].envelope.lease == n.dispatches[j].envelope.lease
      ensures k == j
    {
      if k != key && j == key { assert AckedLease(s.mem, row.lease.value.id); }
      if j != key && k == key { assert AckedLease(s.mem, row.lease.value.id); }
    }
  }

  /** The world started the task of dispatch `key`, leased until then. */
  ghost predicate Acknowledged(s: State, w: StoreRuns.World, key: string) {
    && key in s.mem.dispatches && s.mem.dispatches[key].acked.None?
    && var e := s.mem.dispatches[key].envelope;
      && StoreRuns.Explains(StoreRuns.MovedRow(e.task, StoreRuns.Begin), s.world, w)
      && HeldBy(s.world.db.tasks[e.task], e.worker, e.lease)
  }

  lemma AckedRow(s: State, w: StoreRuns.World, n: Memory, key: string, at: Time, t: Id)
    requires StoreRuns.RowsOk(s.world) && DispatchesOk(s) && TasksMirror(s) && OneAck(s.mem) && Acknowledged(s, w, key)
    requires n == s.mem.(dispatches := s.mem.dispatches[key := s.mem.dispatches[key].(acked := Some(at))])
    requires t in w.db.tasks
    ensures TaskMirror(w.db.tasks[t], n, s.unbroken)
  {
    var e := s.mem.dispatches[key].envelope;
    if t != e.task {
      AckRow(s, n, key, at, t);
    } else {
      AckOneAck(s, n, key, at, s.world.db.tasks[e.task]);
      assert TaskMirror(s.world.db.tasks[t], s.mem, s.unbroken);
      forall k | k in n.dispatches && n.dispatches[k].envelope.lease == e.lease ensures !n.dispatches[k].resulted {
        assert !s.mem.dispatches[k].resulted;
      }
    }
  }

  lemma AckedDispatches(s: State, w: StoreRuns.World, n: Memory, key: string, at: Time)
    requires DispatchesOk(s) && Acknowledged(s, w, key)
    requires n == s.mem.(dispatches := s.mem.dispatches[key := s.mem.dispatches[key].(acked := Some(at))])
    ensures DispatchesOk(State(w, n, s.unbroken))
    ensures w.db.workers == s.world.db.workers && w.db.evidence == s.world.db.evidence
  {
  }

  lemma AckedMirror(ps: map<Id, Profile>, s: State, w: StoreRuns.World, n: Memory, key: string, at: Time)
    requires Mirror(ps, s) && StoreRuns.Inv(w) && Acknowledged(s, w, key)
    requires n == s.mem.(dispatches := s.mem.dispatches[key := s.mem.dispatches[key].(acked := Some(at))])
    ensures Mirror(ps, State(w, n, s.unbroken))
  {
    hide DispatchesOk, OneAck;
    assert TaskMirror(s.world.db.tasks[s.mem.dispatches[key].envelope.task], s.mem, s.unbroken);
    AckedDispatches(s, w, n, key, at);
    AckOneAck(s, n, key, at, s.world.db.tasks[s.mem.dispatches[key].envelope.task]);
    AckedTasks(s, w, n, key, at);
  }

  lemma AckedTasks(s: State, w: StoreRuns.World, n: Memory, key: string, at: Time)
    requires StoreRuns.RowsOk(s.world) && DispatchesOk(s) && TasksMirror(s) && OneAck(s.mem) && Acknowledged(s, w, key)
    requires n == s.mem.(dispatches := s.mem.dispatches[key := s.mem.dispatches[key].(acked := Some(at))])
    ensures TasksMirror(State(w, n, s.unbroken))
  {
    hide StoreRuns.RowsOk, TaskMirror, DispatchesOk, OneAck;
    forall t | t in w.db.tasks ensures TaskMirror(w.db.tasks[t], n, s.unbroken) { AckedRow(s, w, n, key, at, t); }
  }

  lemma AckWorld(ps: map<Id, Profile>, s: State, c: Call, now: Time)
    requires StoreRuns.RowsOk(s.world) && c.Ack? && PlanAck(ps, s.mem, s.world.db, c, now).Perform?
    requires StoreRuns.Succeeds(s.world.db, StoreRuns.Starting(c.task, c.worker, c.lease), now)
    ensures Acknowledged(s, StoreRuns.Next(s.world, StoreRuns.Starting(c.task, c.worker, c.lease), now), c.key)
  {
  }

  lemma AckMirror(ps: map<Id, Profile>, s: State, c: Call, now: Time)
    requires Mirror(ps, s) && c.Ack? && s.world.clock <= now
    ensures Mirror(ps, After(ps, s, Calling(c, now)))
  {
    hide SessionsMirror, OneAck, TasksMirror, EvidenceMirror, DispatchesOk, StoreRuns.Next, StoreRuns.Succeeds;
    var p := PlanAck(ps, s.mem, s.world.db, c, now);
    if p.Perform? {
      StoreRuns.StepKeepsInv(s.world, p.op, now);
      var w := StoreRuns.Next(s.world, p.op, now);
      if StoreRuns.Succeeds(s.world.db, p.op, now) {
        AckWorld(ps, s, c, now);
        AckedMirror(ps, s, w, p.after, c.key, c.observed);
      } else {
        RefusedWorld(s, p.op, now);
        ClockMirror(ps, s, now);
      }
    }
  }

  // ---------------------------------------------------------------- results

  /** The result flag is set on the one acknowledged dispatch of the task's lease. */
  lemma ResultRow(s: State, row: Task, n: Memory, key: string)
    requires key in s.mem.dispatches && TaskMirror(row, s.mem, s.unbroken)
    requires n == s.mem.(dispatches := s.mem.dispatches[key := s.mem.dispatches[key].(resulted := true)])
    requires row.lease.Some? ==> row.lease.value.id != s.mem.dispatches[key].envelope.lease || row.state.ReviewPending?
    ensures TaskMirror(row, n, s.unbroken)
  {
    if row.lease.Some? {
      var l := row.lease.value.id;
      if AckedLease(s.mem, l) {
        var k :| k in s.mem.dispatches && s.mem.dispatches[k].envelope.lease == l && s.mem.dispatches[k].acked.Some?;
        assert n.dispatches[k].acked.Some?;
      }
      if AckedLease(n, l) {
        var k :| k in n.dispatches && n.dispatches[k].envelope.lease == l && n.dispatches[k].acked.Some?;
        assert k in s.mem.dispatches && s.mem.dispatches[k].acked.Some?;
      }
    }
  }

  lemma OtherLease(s: State, key: string, t: Id)
    requires StoreRuns.RowsOk(s.world) && DispatchesOk(s) && key in s.mem.dispatches
    requires t in s.world.db.tasks && s.world.db.tasks[t].lease.Some? && s.mem.dispatches[key].envelope.task != t
    ensures s.world.db.tasks[t].lease.value.id != s.mem.dispatches[key].envelope.lease
  {
    assert s.world.issued[s.world.db.tasks[t].lease.value.id].0 == t;
  }

  /** The world moved the task of dispatch `key` by its result. */
  ghost predicate Reported(s: State, w: StoreRuns.World, key: string, m: StoreRuns.Move) {
    && key in s.mem.dispatches && s.mem.dispatches[key].acked.Some? && (m.Receive? || m.Charge?)
    && var e := s.mem.dispatches[key].envelope;
      && StoreRuns.Explains(StoreRuns.MovedRow(e.task, m), s.world, w)
      && HeldBy(s.world.db.tasks[e.task], e.worker, e.lease) && s.world.db.tasks[e.task].state.Running?
  }

  lemma ReportedRow(s: State, w: StoreRuns.World, n: Memory, key: string, m: StoreRuns.Move, t: Id)
    requires StoreRuns.RowsOk(s.world) && DispatchesOk(s) && TasksMirror(s) && Reported(s, w, key, m)
    requires n == s.mem.(dispatches := s.mem.dispatches[key := s.mem.dispatches[key].(resulted := true)])
    requires t in w.db.tasks
    ensures TaskMirror(w.db.tasks[t], n, s.unbroken)
  {
    var e := s.mem.dispatches[key].envelope;
    assert TaskMirror(s.world.db.tasks[t], s.mem, s.unbroken);
    if t != e.task {
      if w.db.tasks[t].lease.Some? { OtherLease(s, key, t); }
      ResultRow(s, w.db.tasks[t], n, key);
    } else if m.Receive? {
      assert AckedLease(s.mem, e.lease);
      ResultRow(s, w.db.tasks[t], n, key);
    }
  }

  lemma ReportedDispatches(s: State, w: StoreRuns.World, n: Memory, key: string)
    requires DispatchesOk(s) && OneAck(s.mem) && key in s.mem.dispatches && s.mem.dispatches[key].acked.Some?
    requires n == s.mem.(dispatches := s.mem.dispatches[key := s.mem.dispatches[key].(resulted := true)])
    requires w.issued == s.world.issued
    ensures DispatchesOk(State(w, n, s.unbroken)) && OneAck(n)
  {
  }

  lemma ReportedTasks(s: State, w: StoreRuns.World, n: Memory, key: string, m: StoreRuns.Move)
    requires StoreRuns.RowsOk(s.world) && DispatchesOk(s) && TasksMirror(s) && Reported(s, w, key, m)
    requires n == s.mem.(dispatches := s.mem.dispatches[key := s.mem.dispatches[key].(resulted := true)])
    ensures TasksMirror(State(w, n, s.unbroken))
  {
    hide TaskMirror, StoreRuns.RowsOk, DispatchesOk, Reported;
    forall t | t in w.db.tasks ensures TaskMirror(w.db.tasks[t], n, s.unbroken) { ReportedRow(s, w, n, key, m, t); }
  }

  lemma ReportedMirror(ps: map<Id, Profile>, s: State, w: StoreRuns.World, n: Memory, key: string, m: StoreRuns.Move)
    requires Mirror(ps, s) && StoreRuns.Inv(w) && Reported(s, w, key, m)
    requires n == s.mem.(dispatches := s.mem.dispatches[key := s.mem.dispatches[key].(resulted := true)])
    requires s.unbroken ==> EvidenceMirror(n, w.db)
    ensures Mirror(ps, State(w, n, s.unbroken))
  {
    ReportedTasks(s, w, n, key, m);
    ReportedDispatches(s, w, n, key);
    hide TasksMirror, DispatchesOk, OneAck, EvidenceMirror, StoreRuns.Inv;
    assert w.db.workers == s.world.db.workers;
  }

  lemma SubmittedWorld(ps: map<Id, Profile>, s: State, c: Call, now: Time)
    requires StoreRuns.RowsOk(s.world) && c.Result? && ResultOk(ps, s.mem, s.world.db, c, now)
    requires |c.evidence| == 1 && Resolves(s.mem, c.evidence[0])
    requires var op := StoreRuns.Submitting(c.task, c.worker, c.lease, c.evidence[0].id, c.evidence[0].sha);
      StoreRuns.Succeeds(s.world.db, op, now)
    ensures var op := StoreRuns.Submitting(c.task, c.worker, c.lease, c.evidence[0].id, c.evidence[0].sha);
      Reported(s, StoreRuns.Next(s.world, op, now), c.key, StoreRuns.Receive(c.evidence[0].id, c.evidence[0].sha.value))
  {
  }

  lemma FailedWorld(ps: map<Id, Profile>, s: State, c: Call, now: Time)
    requires StoreRuns.RowsOk(s.world) && c.Result? && ResultOk(ps, s.mem, s.world.db, c, now)
    requires StoreRuns.Succeeds(s.world.db, StoreRuns.Failing(c.task, c.worker, c.lease), now)
    ensures Reported(s, StoreRuns.Next(s.world, StoreRuns.Failing(c.task, c.worker, c.lease), now), c.key, StoreRuns.Charge)
  {
  }

  lemma SubmittedMirror(ps: map<Id, Profile>, s: State, c: Call, now: Time)
    requires Mirror(ps, s) && c.Result? && s.world.clock <= now && ResultOk(ps, s.mem, s.world.db, c, now)
    requires |c.evidence| == 1 && Resolves(s.mem, c.evidence[0])
    requires var op := StoreRuns.Submitting(c.task, c.worker, c.lease, c.evidence[0].id, c.evidence[0].sha);
      StoreRuns.Succeeds(s.world.db, op, now)
    ensures var op := StoreRuns.Submitting(c.task, c.worker, c.lease, c.evidence[0].id, c.evidence[0].sha);
      Mirror(ps, State(StoreRuns.Next(s.world, op, now),
                       s.mem.(dispatches := s.mem.dispatches[c.key := s.mem.dispatches[c.key].(resulted := true)]), s.unbroken))
  {
    hide SessionsMirror, OneAck, TasksMirror, DispatchesOk, StoreRuns.Next, StoreRuns.Succeeds;
    var op := StoreRuns.Submitting(c.task, c.worker, c.lease, c.evidence[0].id, c.evidence[0].sha);
    var n := s.mem.(dispatches := s.mem.dispatches[c.key := s.mem.dispatches[c.key].(resulted := true)]);
    StoreRuns.StepKeepsInv(s.world, op, now);
    SubmittedWorld(ps, s, c, now);
    ReportedMirror(ps, s, StoreRuns.Next(s.world, op, now), n, c.key, StoreRuns.Receive(c.evidence[0].id, c.evidence[0].sha.value));
  }

  lemma FailedMirror(ps: map<Id, Profile>, s: State, c: Call, now: Time)
    requires Mirror(ps, s) && c.Result? && s.world.clock <= now && ResultOk(ps, s.mem, s.world.db, c, now)
    requires StoreRuns.Succeeds(s.world.db, StoreRuns.Failing(c.task, c.worker, c.lease), now)
    ensures Mirror(ps, State(StoreRuns.Next(s.world, StoreRuns.Failing(c.task, c.worker, c.lease), now),
                             s.mem.(dispatches := s.mem.dispatches[c.key := s.mem.dispatches[c.key].(resulted := true)]), s.unbroken))
  {
    hide SessionsMirror, OneAck, TasksMirror, DispatchesOk, StoreRuns.Next, StoreRuns.Succeeds;
    var op := StoreRuns.Failing(c.task, c.worker, c.lease);
    var n := s.mem.(dispatches := s.mem.dispatches[c.key := s.mem.dispatches[c.key].(resulted := true)]);
    StoreRuns.StepKeepsInv(s.world, op, now);
    FailedWorld(ps, s, c, now);
    ReportedMirror(ps, s, StoreRuns.Next(s.world, op, now), n, c.key, StoreRuns.Charge);
  }

  lemma ResultMirror(ps: map<Id, Profile>, s: State, c: Call, now: Time)
    requires Mirror(ps, s) && c.Result? && s.world.clock <= now
    ensures Mirror(ps, After(ps, s, Calling(c, now)))
  {
    hide SessionsMirror, OneAck, TasksMirror, EvidenceMirror, DispatchesOk, StoreRuns.Next, StoreRuns.Succeeds, ResultOk, StoreRuns.Inv;
    var p := PlanResult(ps, s.mem, s.world.db, c, now);
    if p.Perform? {
      if !StoreRuns.Succeeds(s.world.db, p.op, now) { RefusedMirror(ps, s, p.op, now); }
      else if c.status.Succeeded? { SubmittedMirror(ps, s, c, now); }
      else { FailedMirror(ps, s, c, now); }
    }
  }

  // ---------------------------------------------------------------- restarts

  /** Over a restart the agreement of sessions, dispatches and acknowledgements survives, because nothing
      is left that could disagree. That every lease past LEASED has an acknowledged dispatch survives
      exactly when no task is past it, and that stored digests are those of declared content exactly
      when none is stored. */
  lemma RestartLoses(ps: map<Id, Profile>, s: State)
    requires Mirror(ps, s)
    ensures Mirror(ps, After(ps, s, Restarting))
    ensures TasksMirror(State(s.world, NOTHING, true)) <==>
      forall t :: t in s.world.db.tasks && s.world.db.tasks[t].lease.Some? ==> s.world.db.tasks[t].state.Leased?
    ensures EvidenceMirror(NOTHING, s.world.db) <==> s.world.db.evidence == map[]
  {
    forall t, b | t in s.world.db.tasks
      ensures TaskMirror(s.world.db.tasks[t], NOTHING, b) <==>
        (b && s.world.db.tasks[t].lease.Some? ==> s.world.db.tasks[t].state.Leased?)
    {
      assert TaskMirror(s.world.db.tasks[t], s.mem, s.unbroken);
    }
    if EvidenceMirror(NOTHING, s.world.db) {
      assert forall k :: k !in s.world.db.evidence;
    }
  }

  // ---------------------------------------------------------------- every step, every run

  lemma StepMirror(ps: map<Id, Profile>, s: State, e: Event)
    requires Mirror(ps, s) && Allowed(s, e)
    ensures Mirror(ps, After(ps, s, e))
  {
    match e
    case Storing(op, now) =>
      StoreRuns.StepKeepsInv(s.world, op, now);
      var c := StoreRuns.StepExplained(s.world, op, now);
      OutsideMirror(ps, s, StoreRuns.Next(s.world, op, now), c);
    case Calling(c, now) =>
      match c {
        case Hello(_, _, _, _, _, _, _, _, _) => HelloMirror(ps, s, c, now);
        case Beat(_, _, _, _, _) => BeatMirror(ps, s, c, now);
        case Dispatched(_, _, _, _, _, _) => DispatchMirror(ps, s, c, now);
        case Ack(_, _, _, _, _, _) => AckMirror(ps, s, c, now);
        case Result(_, _, _, _, _, _, _, _) => ResultMirror(ps, s, c, now);
        case Declare(_, _) => DeclareMirror(ps, s, c, now);
      }
    case Restarting => RestartLoses(ps, s);
  }

  function Run(ps: map<Id, Profile>, s: State, es: seq<Event>): State
    decreases |es|
  {
    if es == [] then s else Run(ps, After(ps, s, es[0]), es[1..])
  }

  predicate Legal(ps: map<Id, Profile>, s: State, es: seq<Event>)
    decreases |es|
  {
    es == [] || (Allowed(s, es[0]) && Legal(ps, After(ps, s, es[0]), es[1..]))
  }

  const EMPTY := State(StoreRuns.EMPTY_STORE, NOTHING, true)

  lemma {:induction false} RunMirror(ps: map<Id, Profile>, s: State, es: seq<Event>)
    requires Mirror(ps, s) && Legal(ps, s, es)
    ensures Mirror(ps, Run(ps, s, es))
    decreases |es|
  {
    if es != [] {
      StepMirror(ps, s, es[0]);
      RunMirror(ps, After(ps, s, es[0]), es[1..]);
    }
  }

  predicate NoRestart(es: seq<Event>) { forall i :: 0 <= i < |es| ==> !es[i].Restarting? }

  lemma {:induction false} RunUnbroken(ps: map<Id, Profile>, s: State, es: seq<Event>)
    ensures Run(ps, s, es).unbroken <==> s.unbroken && NoRestart(es)
    decreases |es|
  {
    if es != [] {
      RunUnbroken(ps, After(ps, s, es[0]), es[1..]);
      assert NoRestart(es) <==> !es[0].Restarting? && NoRestart(es[1..]) by {
        forall i | 0 < i < |es| ensures es[i] == es[1..][i - 1] {}
      }
    }
  }

  /** From the empty store, over every run, restarts included: the sessions are the worker rows, and no
      lease has two acknowledged dispatches. While nothing restarts, every stored digest is that of the
      declared content. */
  lemma MirrorAlways(ps: map<Id, Profile>, es: seq<Event>)
    requires Legal(ps, EMPTY, es)
    ensures var s := Run(ps, EMPTY, es);
      && SessionsMirror(ps, s.mem, s.world.db) && OneAck(s.mem)
      && (NoRestart(es) ==> EvidenceMirror(s.mem, s.world.db))
  {
    StoreRuns.EmptyStoreOk();
    RunMirror(ps, EMPTY, es);
    RunUnbroken(ps, EMPTY, es);
  }

  /** A dispatch whose lease is still current tells where the task is, also after restarts: no result
      before an acknowledgement; acknowledged means running or in review, and with a result in review;
      leased means that no dispatch of the lease is acknowledged, and while nothing restarts the
      converse holds too. */
  lemma DispatchTells(ps: map<Id, Profile>, es: seq<Event>, k: string)
    requires Legal(ps, EMPTY, es) && k in Run(ps, EMPTY, es).mem.dispatches
    ensures var s := Run(ps, EMPTY, es);
      var d := s.mem.dispatches[k];
      && (d.resulted ==> d.acked.Some?)
      && (d.envelope.task in s.world.db.tasks && HeldBy(s.world.db.tasks[d.envelope.task], d.envelope.worker, d.envelope.lease) ==>
            var t := s.world.db.tasks[d.envelope.task];
            && (d.resulted ==> t.state.ReviewPending?)
            && (d.acked.Some? ==> t.state.Running? || t.state.ReviewPending?)
            && (t.state.Leased? ==> !AckedLease(s.mem, d.envelope.lease))
            && (NoRestart(es) && !AckedLease(s.mem, d.envelope.lease) ==> t.state.Leased?))
  {
    StoreRuns.EmptyStoreOk();
    RunMirror(ps, EMPTY, es);
    RunUnbroken(ps, EMPTY, es);
    var s := Run(ps, EMPTY, es);
    var d := s.mem.dispatches[k];
    if d.envelope.task in s.world.db.tasks {
      assert TaskMirror(s.world.db.tasks[d.envelope.task], s.mem, s.unbroken);
      assert StoreRuns.TaskOk(s.world.db.tasks[d.envelope.task], s.world.claims[d.envelope.task]);
      if d.acked.Some? { assert AckedLease(s.mem, d.envelope.lease); }
    }
  }
}
