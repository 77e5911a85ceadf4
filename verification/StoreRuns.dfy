/** Whole runs of the store under a clock that never goes back and fresh lease ids: claim
    accounting, progress, lease fencing and worker capacity. */
module StoreRuns {
  import opened Basics
  import opened Store

  datatype Action =
    | Creating(id: Id, directive: Option<Id>, target: Id, capability: Id, priority: int,
               human: bool, governed: bool, budget: int)
    | Registering(worker: Id, kind: Id, capabilities: set<Id>, targets: set<Id>, sla: Time, capacity: int,
                  registeredAt: Time)
    | Beating(worker: Id, capacity: int, observed: Time)
    | Claiming(task: Id, worker: Id, lease: Id, seconds: Time)
    | Renewing(task: Id, worker: Id, lease: Id, seconds: Time)
    | Starting(task: Id, worker: Id, lease: Id)
    | Reclaiming(task: Id)
    | ReconcilingStale
    | Failing(task: Id, worker: Id, lease: Id)
    | Submitting(task: Id, worker: Id, lease: Id, evidence: Id, digest: Option<Digest>)
    | Accepting(task: Id)
    | Completing(task: Id, valid: bool)
    | Waiting(task: Id)

  /** The tables, the latest clock reading, and three history variables: which task and worker
      each lease id was issued for, how often each task was claimed, and the largest capacity
      each worker ever had. */
  datatype World = World(
    db: Db, clock: Time, issued: map<Id, (Id, Id)>, claims: map<Id, nat>, peak: map<Id, nat>)

  function Effect(db: Db, a: Action, now: Time): (Db, bool) {
    match a
    case Creating(id, d, tg, c, p, h, g, b) =>
      var r := CreateTask(db, id, d, tg, c, p, h, g, b, now); (r.db, r.answer.Done?)
    case Registering(w, k, cs, ts, sla, cap, at) =>
      var r := RegisterWorker(db, w, k, cs, ts, sla, cap, at); (r.db, r.answer.Done?)
    case Beating(w, cap, o) =>
      var r := HeartbeatWithCapacity(db, w, cap, now, o); (r.db, r.answer.Done?)
    case Claiming(t, w, l, s) => var r := Claim(db, t, w, l, s, now); (r.db, r.answer.Done?)
    case Renewing(t, w, l, s) => var r := Renew(db, t, w, l, s, now); (r.db, r.answer.Done?)
    case Starting(t, w, l) => var r := Start(db, t, w, l, now); (r.db, r.answer.Done?)
    case Reclaiming(t) => var r := ReclaimExpired(db, t, now); (r.db, r.answer.Done?)
    case ReconcilingStale => var r := ReconcileStaleWorkers(db, now); (r.db, r.answer.Done?)
    case Failing(t, w, l) => var r := FailAttempt(db, t, w, l, now); (r.db, r.answer.Done?)
    case Submitting(t, w, l, e, d) => var r := SubmitResult(db, t, w, l, e, d, now); (r.db, r.answer.Done?)
    case Accepting(t) => var r := AcceptExecution(db, t); (r.db, r.answer.Done?)
    case Completing(t, v) => var r := CompleteAfterReview(db, t, v, now); (r.db, r.answer.Done?)
    case Waiting(t) => var r := MarkWaitingCapacity(db, t, now); (r.db, r.answer.Done?)
  }

  predicate Succeeds(db: Db, a: Action, now: Time) { Effect(db, a, now).1 }

  /** The clock never goes back and `uuid4` never repeats a lease id. */
  predicate Allowed(w: World, a: Action, now: Time) {
    w.clock <= now && (a.Claiming? ==> a.lease !in w.issued)
  }

  function Get<K, V>(m: map<K, V>, k: K, default: V): V { if k in m then m[k] else default }

  function PeakAfter(peak: map<Id, nat>, worker: Id, capacity: nat): map<Id, nat> {
    if Get(peak, worker, 0) < capacity || worker !in peak then peak[worker := capacity] else peak
  }

  function Next(w: World, a: Action, now: Time): World {
    var (db, ok) := Effect(w.db, a, now);
    var w1 := w.(db := db, clock := now);
    if !ok then w1
    else match a
      case Creating(id, _, _, _, _, _, _, _) => w1.(claims := w.claims[id := Get(w.claims, id, 0)])
      case Registering(k, _, _, _, _, cap, _) =>
        w1.(peak := PeakAfter(w.peak, k, if cap < 0 then 0 else cap))
      case Beating(k, cap, _) => w1.(peak := PeakAfter(w.peak, k, if cap < 0 then 0 else cap))
      case Claiming(t, k, l, _) =>
        w1.(issued := w.issued[l := (t, k)], claims := w.claims[t := Get(w.claims, t, 0) + 1])
      case _ => w1
  }

  // ---------------------------------------------------------------- invariant

  ghost predicate TaskOk(t: Task, claims: nat) {
    && t.attempts <= t.budget + 1
    && (t.state.DeadLetter? <==> t.attempts == t.budget + 1)
    && claims == t.attempts + (if Claimed(t.state) then 1 else 0)
    && (t.lease.Some? <==> Claimed(t.state) && !t.state.Completed?)
    && (t.state.ReviewPending? ==> t.evidence.Received?)
  }

  ghost predicate TasksOk(w: World) {
    && w.claims.Keys == w.db.tasks.Keys
    && forall t :: t in w.db.tasks ==> TaskOk(w.db.tasks[t], w.claims[t])
  }

  ghost predicate LeasesOk(w: World) {
    forall t :: t in w.db.tasks && w.db.tasks[t].lease.Some? ==>
      var l := w.db.tasks[t].lease.value; l.id in w.issued && w.issued[l.id] == (t, l.worker)
  }

  ghost predicate CapacityOk(w: World) {
    && (forall k :: k in w.db.workers ==> k in w.peak && w.db.workers[k].capacity <= w.peak[k])
    && (forall k :: |Active(w.db, k, w.clock)| <= Get(w.peak, k, 0))
  }

  ghost predicate RowsOk(w: World) { TasksOk(w) && LeasesOk(w) }

  ghost predicate Inv(w: World) { RowsOk(w) && CapacityOk(w) }

  const EMPTY_STORE := World(Db(map[], map[], map[]), 0.0, map[], map[], map[])

  // ---------------------------------------------------------------- what one step can do

  /** The ways a task row moves, other than being created or claimed. */
  datatype Move = Charge | Renewal(expires: Time) | Begin | Fault | Receive(evidence: Id, digest: Digest) | Accept | Complete | Wait

  ghost predicate CanMove(t: Task, m: Move) {
    match m
    case Charge => OnLease(t.state) && t.lease.Some?
    case Renewal(_) => OnLease(t.state) && t.lease.Some?
    case Begin => t.state.Leased? && t.lease.Some?
    case Fault => OnLease(t.state) || t.state.EvidencePending?
    case Receive(_, _) => OnLease(t.state) || t.state.EvidencePending?
    case Accept => t.state.Running?
    case Complete => t.state.ReviewPending? && t.evidence.Received?
    case Wait => Leaseable(t.state)
  }

  ghost function Moved(t: Task, m: Move): Task
    requires CanMove(t, m)
  {
    match m
    case Charge => Charged(t)
    case Renewal(e) => t.(lease := Some(t.lease.value.(expires := e)))
    case Begin => t.(state := Running)
    case Fault => t.(state := EvidencePending, evidence := MissingOrInvalid)
    case Receive(_, _) => t.(state := ReviewPending, evidence := Received)
    case Accept => t.(state := ReviewPending, evidence := Received)
    case Complete => t.(state := Completed, evidence := Valid, lease := None)
    case Wait => t.(state := WaitingCapacity)
  }

  function EvidenceAfter(evidence: map<EvidenceKey, Digest>, t: Id, m: Move): map<EvidenceKey, Digest> {
    if m.Receive? then evidence[EvidenceKey(t, m.evidence) := m.digest] else evidence
  }

  datatype Change =
    | Idle
    | NewRow(t: Id)
    | ClaimedRow(t: Id, lease: Lease)
    | MovedRow(t: Id, move: Move)
    | ChargedRows(ids: set<Id>)
    | WorkerRow(k: Id)

  /** The task's lease is unexpired and its worker has a fresh heartbeat. */
  predicate InForce(db: Db, t: Task, now: Time) {
    Unexpired(t, now) && t.lease.value.worker in db.workers && Fresh(db.workers[t.lease.value.worker], now)
  }

  predicate IsAccept(c: Change) { c.MovedRow? && c.move.Accept? }

  /** Which operation makes which kind of change. */
  predicate Suits(c: Change, a: Action) {
    match c
    case Idle => true
    case NewRow(t) => a.Creating? && a.id == t
    case ClaimedRow(t, l) => a.Claiming? && a.task == t && a.worker == l.worker && a.lease == l.id
    case ChargedRows(_) => a.ReconcilingStale?
    case WorkerRow(k) => (a.Registering? || a.Beating?) && a.worker == k
    case MovedRow(t, m) =>
      match m
      case Charge => (a.Reclaiming? || a.Failing?) && a.task == t
      case Renewal(_) => a.Renewing? && a.task == t
      case Begin => a.Starting? && a.task == t
      case Fault => a.Submitting? && a.task == t
      case Receive(e, d) => a.Submitting? && a.task == t && a.evidence == e && a.digest == Some(d)
      case Accept => a.Accepting? && a.task == t
      case Complete => a.Completing? && a.task == t
      case Wait => a.Waiting? && a.task == t
  }

  /** Change `c` takes the tables and histories of `w` to those of `w2`. */
  ghost predicate Explains(c: Change, w: World, w2: World) {
    var a, b := w.db, w2.db;
    match c
    case Idle => b == a && w2.claims == w.claims && w2.issued == w.issued && w2.peak == w.peak
    case NewRow(t) =>
      && t !in a.tasks && t in b.tasks && b == a.(tasks := a.tasks[t := b.tasks[t]])
      && TaskOk(b.tasks[t], 0) && !Claimed(b.tasks[t].state)
      && w2.claims == w.claims[t := 0] && w2.issued == w.issued && w2.peak == w.peak
    case ClaimedRow(t, l) =>
      && t in a.tasks && Schedulable(a.tasks[t]) && l.worker in a.workers
      && CanTake(a, l.worker, a.tasks[t], w2.clock)
      && b == a.(tasks := a.tasks[t := a.tasks[t].(state := Leased, lease := Some(l))])
      && l.id !in w.issued && w2.issued == w.issued[l.id := (t, l.worker)]
      && w2.claims == w.claims[t := Get(w.claims, t, 0) + 1] && w2.peak == w.peak
    case MovedRow(t, m) =>
      && t in a.tasks && CanMove(a.tasks[t], m)
      && b == a.(tasks := a.tasks[t := Moved(a.tasks[t], m)], evidence := EvidenceAfter(a.evidence, t, m))
      && (m.Renewal? ==> Unexpired(a.tasks[t], w2.clock))
      && (m.Begin? || m.Receive? ==> InForce(a, a.tasks[t], w2.clock))
      && (m.Receive? ==> EvidenceKey(t, m.evidence) !in a.evidence)
      && w2.claims == w.claims && w2.issued == w.issued && w2.peak == w.peak
    case ChargedRows(ids) =>
      && ids <= a.tasks.Keys && (forall t :: t in ids ==> CanMove(a.tasks[t], Charge))
      && b == ChargeAll(a, ids)
      && w2.claims == w.claims && w2.issued == w.issued && w2.peak == w.peak
    case WorkerRow(k) =>
      && k in b.workers && b == a.(workers := a.workers[k := b.workers[k]])
      && w2.claims == w.claims && w2.issued == w.issued
      && w2.peak == PeakAfter(w.peak, k, b.workers[k].capacity)
  }

  lemma CreatingExplained(w: World, a: Action, now: Time) returns (c: Change)
    requires RowsOk(w) && a.Creating?
    ensures Explains(c, w, Next(w, a, now)) && Suits(c, a)
  {
    c := if Succeeds(w.db, a, now) && a.id !in w.db.tasks then NewRow(a.id) else Idle;
    if c.Idle? && Succeeds(w.db, a, now) { assert w.claims[a.id := Get(w.claims, a.id, 0)] == w.claims; }
  }

  lemma RegisteringExplained(w: World, a: Action, now: Time) returns (c: Change)
    requires RowsOk(w) && a.Registering?
    ensures Explains(c, w, Next(w, a, now)) && Suits(c, a)
  {
    c := if Succeeds(w.db, a, now) then WorkerRow(a.worker) else Idle;
  }

  lemma BeatingExplained(w: World, a: Action, now: Time) returns (c: Change)
    requires RowsOk(w) && a.Beating?
    ensures Explains(c, w, Next(w, a, now)) && Suits(c, a)
  {
    c := if Succeeds(w.db, a, now) then WorkerRow(a.worker) else Idle;
  }

  lemma ClaimingExplained(w: World, a: Action, now: Time) returns (c: Change)
    requires RowsOk(w) && Allowed(w, a, now) && a.Claiming?
    ensures Explains(c, w, Next(w, a, now)) && Suits(c, a)
  {
    c := if Succeeds(w.db, a, now) then ClaimedRow(a.task, Lease(a.worker, a.lease, now + a.seconds)) else Idle;
  }

  lemma RenewingExplained(w: World, a: Action, now: Time) returns (c: Change)
    requires RowsOk(w) && a.Renewing?
    ensures Explains(c, w, Next(w, a, now)) && Suits(c, a)
  {
    c := if Succeeds(w.db, a, now) then MovedRow(a.task, Renewal(now + a.seconds)) else Idle;
  }

  lemma StartingExplained(w: World, a: Action, now: Time) returns (c: Change)
    requires RowsOk(w) && a.Starting?
    ensures Explains(c, w, Next(w, a, now)) && Suits(c, a)
  {
    c := if Succeeds(w.db, a, now) then MovedRow(a.task, Begin) else Idle;
  }

  lemma ReclaimingExplained(w: World, a: Action, now: Time) returns (c: Change)
    requires RowsOk(w) && a.Reclaiming?
    ensures Explains(c, w, Next(w, a, now)) && Suits(c, a)
  {
    c := if Succeeds(w.db, a, now) then MovedRow(a.task, Charge) else Idle;
  }

  lemma ReconcilingStaleExplained(w: World, a: Action, now: Time) returns (c: Change)
    requires RowsOk(w) && a.ReconcilingStale?
    ensures Explains(c, w, Next(w, a, now)) && Suits(c, a)
  {
    c := if Succeeds(w.db, a, now) then ChargedRows(StaleTasks(w.db, now)) else Idle;
  }

  lemma FailingExplained(w: World, a: Action, now: Time) returns (c: Change)
    requires RowsOk(w) && a.Failing?
    ensures Explains(c, w, Next(w, a, now)) && Suits(c, a)
  {
    c := if Succeeds(w.db, a, now) then MovedRow(a.task, Charge) else Idle;
  }

  lemma SubmittingExplained(w: World, a: Action, now: Time) returns (c: Change)
    requires RowsOk(w) && a.Submitting?
    ensures Explains(c, w, Next(w, a, now)) && Suits(c, a)
  {
    c := if Succeeds(w.db, a, now) then MovedRow(a.task, Receive(a.evidence, a.digest.value))
         else if Next(w, a, now).db == w.db then Idle else MovedRow(a.task, Fault);
  }

  lemma AcceptingExplained(w: World, a: Action, now: Time) returns (c: Change)
    requires RowsOk(w) && a.Accepting?
    ensures Explains(c, w, Next(w, a, now)) && Suits(c, a)
  {
    c := if Succeeds(w.db, a, now) then MovedRow(a.task, Accept) else Idle;
  }

  lemma CompletingExplained(w: World, a: Action, now: Time) returns (c: Change)
    requires RowsOk(w) && a.Completing?
    ensures Explains(c, w, Next(w, a, now)) && Suits(c, a)
  {
    c := if Succeeds(w.db, a, now) then MovedRow(a.task, Complete) else Idle;
  }

  lemma WaitingExplained(w: World, a: Action, now: Time) returns (c: Change)
    requires RowsOk(w) && a.Waiting?
    ensures Explains(c, w, Next(w, a, now)) && Suits(c, a)
  {
    c := if Succeeds(w.db, a, now) then MovedRow(a.task, Wait) else Idle;
  }

  /** Every step is one of the changes listed above. */
  lemma StepExplained(w: World, a: Action, now: Time) returns (c: Change)
    requires RowsOk(w) && Allowed(w, a, now)
    ensures Explains(c, w, Next(w, a, now)) && Next(w, a, now).clock == now && Suits(c, a)
  {
    hide Explains, Suits, Succeeds, RowsOk;
    match a
    case Creating(_, _, _, _, _, _, _, _) => c := CreatingExplained(w, a, now);
    case Registering(_, _, _, _, _, _, _) => c := RegisteringExplained(w, a, now);
    case Beating(_, _, _) => c := BeatingExplained(w, a, now);
    case Claiming(_, _, _, _) => c := ClaimingExplained(w, a, now);
    case Renewing(_, _, _, _) => c := RenewingExplained(w, a, now);
    case Starting(_, _, _) => c := StartingExplained(w, a, now);
    case Reclaiming(_) => c := ReclaimingExplained(w, a, now);
    case ReconcilingStale => c := ReconcilingStaleExplained(w, a, now);
    case Failing(_, _, _) => c := FailingExplained(w, a, now);
    case Submitting(_, _, _, _, _) => c := SubmittingExplained(w, a, now);
    case Accepting(_) => c := AcceptingExplained(w, a, now);
    case Completing(_, _) => c := CompletingExplained(w, a, now);
    case Waiting(_) => c := WaitingExplained(w, a, now);
  }

  /** The task update of a governed file transaction, as a step that reads no clock. */
  lemma AcceptingIsAStep(w: World, t: Id)
    ensures w.(db := AcceptExecution(w.db, t).db) == Next(w, Accepting(t), w.clock)
    ensures Allowed(w, Accepting(t), w.clock)
  {
  }

  // ---------------------------------------------------------------- the invariant is kept

  lemma MoveKeeps(t: Task, m: Move, claims: nat)
    requires TaskOk(t, claims) && CanMove(t, m)
    ensures TaskOk(Moved(t, m), claims)
    ensures Moved(t, m).lease.Some? ==> (t.lease.Some? && Moved(t, m).lease.value.id == t.lease.value.id
                                         && Moved(t, m).lease.value.worker == t.lease.value.worker)
  {
  }

  lemma ChargedRowsKept(w: World, w2: World, ids: set<Id>)
    requires RowsOk(w) && Explains(ChargedRows(ids), w, w2)
    ensures RowsOk(w2)
  {
    assert w2.db.tasks.Keys == w.db.tasks.Keys;
    forall t | t in w2.db.tasks ensures TaskOk(w2.db.tasks[t], w2.claims[t]) {
      if t in ids { MoveKeeps(w.db.tasks[t], Charge, w.claims[t]); }
    }
  }

  lemma RowsKept(w: World, w2: World, c: Change)
    requires RowsOk(w) && Explains(c, w, w2)
    ensures RowsOk(w2)
  {
    match c
    case Idle =>
    case NewRow(t) =>
    case ClaimedRow(t, l) => assert TaskOk(w.db.tasks[t], w.claims[t]);
    case MovedRow(t, m) => MoveKeeps(w.db.tasks[t], m, w.claims[t]);
    case ChargedRows(ids) => ChargedRowsKept(w, w2, ids);
    case WorkerRow(k) =>
  }

  lemma SubsetSize<T>(a: set<T>, b: set<T>)
    requires a <= b
    ensures |a| <= |b|
  {
    assert b == a + (b - a);
  }

  /** Time passing and every change but a claim only shrink what a worker holds. */
  lemma ActiveShrinks(w: World, w2: World, c: Change, k: Id)
    requires RowsOk(w) && Explains(c, w, w2) && w.clock <= w2.clock
    requires !c.ClaimedRow? || c.lease.worker != k
    ensures |Active(w2.db, k, w2.clock)| <= |Active(w.db, k, w.clock)|
  {
    forall t | t in Active(w2.db, k, w2.clock) ensures t in Active(w.db, k, w.clock) {
      assert TaskOk(w2.db.tasks[t], w2.claims[t]) by { RowsKept(w, w2, c); }
    }
    SubsetSize(Active(w2.db, k, w2.clock), Active(w.db, k, w.clock));
  }

  lemma ActiveGrowsByOne(w: World, w2: World, t: Id, l: Lease)
    requires RowsOk(w) && Explains(ClaimedRow(t, l), w, w2) && w.clock <= w2.clock
    ensures |Active(w2.db, l.worker, w2.clock)| <= w.db.workers[l.worker].capacity
  {
    var before := Active(w.db, l.worker, w2.clock);
    assert Active(w2.db, l.worker, w2.clock) <= before + {t};
    SubsetSize(Active(w2.db, l.worker, w2.clock), before + {t});
  }

  lemma CapacityKept(w: World, w2: World, c: Change)
    requires RowsOk(w) && CapacityOk(w) && Explains(c, w, w2) && w.clock <= w2.clock
    ensures CapacityOk(w2)
  {
    forall k ensures |Active(w2.db, k, w2.clock)| <= Get(w2.peak, k, 0) {
      if c.ClaimedRow? && c.lease.worker == k {
        ActiveGrowsByOne(w, w2, c.t, c.lease);
      } else {
        ActiveShrinks(w, w2, c, k);
      }
    }
  }

  lemma StepKeepsInv(w: World, a: Action, now: Time)
    requires Inv(w) && Allowed(w, a, now)
    ensures Inv(Next(w, a, now))
  {
    var c := StepExplained(w, a, now);
    RowsKept(w, Next(w, a, now), c);
    CapacityKept(w, Next(w, a, now), c);
  }

  // ---------------------------------------------------------------- whole runs

  datatype Event = Event(action: Action, now: Time)

  function After(w: World, e: Event): World { Next(w, e.action, e.now) }

  function Run(w: World, es: seq<Event>): World
    decreases |es|
  {
    if es == [] then w else Run(After(w, es[0]), es[1..])
  }

  predicate Legal(w: World, es: seq<Event>)
    decreases |es|
  {
    es == [] || (Allowed(w, es[0].action, es[0].now) && Legal(After(w, es[0]), es[1..]))
  }

  lemma {:induction false} RunKeepsInv(w: World, es: seq<Event>)
    requires Inv(w) && Legal(w, es)
    ensures Inv(Run(w, es))
    decreases |es|
  {
    if es != [] {
      StepKeepsInv(w, es[0].action, es[0].now);
      RunKeepsInv(After(w, es[0]), es[1..]);
    }
  }

  lemma EmptyStoreOk()
    ensures Inv(EMPTY_STORE)
  {
  }

  // ---------------------------------------------------------------- claim accounting

  predicate Grants(w: World, e: Event, t: Id) {
    e.action.Claiming? && e.action.task == t && Succeeds(w.db, e.action, e.now)
  }

  /** How many claims of task `t` the run grants. */
  function Granted(w: World, es: seq<Event>, t: Id): nat
    decreases |es|
  {
    if es == [] then 0
    else (if Grants(w, es[0], t) then 1 else 0) + Granted(After(w, es[0]), es[1..], t)
  }

  lemma StepCounts(w: World, e: Event, t: Id)
    requires RowsOk(w)
    ensures Get(After(w, e).claims, t, 0) == Get(w.claims, t, 0) + (if Grants(w, e, t) then 1 else 0)
  {
  }

  lemma {:induction false} RunCounts(w: World, es: seq<Event>, t: Id)
    requires Inv(w) && Legal(w, es)
    ensures Get(Run(w, es).claims, t, 0) == Get(w.claims, t, 0) + Granted(w, es, t)
    decreases |es|
  {
    if es != [] {
      StepCounts(w, es[0], t);
      StepKeepsInv(w, es[0].action, es[0].now);
      RunCounts(After(w, es[0]), es[1..], t);
    }
  }

  /** Over any run from the empty store, the claims granted to a task are its charged attempts
      plus the one it is still using, so never more than its retry budget plus one; and a task is
      in the dead letter exactly when the budget is overspent. */
  lemma ClaimAccounting(es: seq<Event>, t: Id)
    requires Legal(EMPTY_STORE, es)
    ensures var w := Run(EMPTY_STORE, es);
      if t in w.db.tasks then
        && Granted(EMPTY_STORE, es, t) == w.db.tasks[t].attempts + (if Claimed(w.db.tasks[t].state) then 1 else 0)
        && Granted(EMPTY_STORE, es, t) <= w.db.tasks[t].budget + 1
        && (w.db.tasks[t].state.DeadLetter? <==> w.db.tasks[t].attempts == w.db.tasks[t].budget + 1)
      else Granted(EMPTY_STORE, es, t) == 0
  {
    EmptyStoreOk();
    RunKeepsInv(EMPTY_STORE, es);
    RunCounts(EMPTY_STORE, es, t);
    var w := Run(EMPTY_STORE, es);
    if t in w.db.tasks { assert TaskOk(w.db.tasks[t], w.claims[t]); }
  }

  // ---------------------------------------------------------------- progress

  function Rank(s: TaskState): nat {
    match s
    case Queued => 6
    case Retrying => 6
    case WaitingCapacity => 5
    case Leased => 4
    case Running => 3
    case EvidencePending => 2
    case ReviewPending => 1
    case Completed => 0
    case DeadLetter => 0
    case WaitingHuman => 0
  }

  /** Remaining budget first, phase second. */
  function Fuel(t: Task): int { 7 * (t.budget + 1 - t.attempts) + Rank(t.state) }

  predicate Changes(w: World, e: Event, t: Id) {
    var w2 := After(w, e);
    t in w.db.tasks && t in w2.db.tasks && w2.db.tasks[t].state != w.db.tasks[t].state
  }

  function StateChanges(w: World, es: seq<Event>, t: Id): nat
    decreases |es|
  {
    if es == [] then 0
    else (if Changes(w, es[0], t) then 1 else 0) + StateChanges(After(w, es[0]), es[1..], t)
  }

  lemma MoveBurns(t: Task, m: Move, claims: nat)
    requires TaskOk(t, claims) && CanMove(t, m)
    ensures if Moved(t, m).state == t.state then Fuel(Moved(t, m)) == Fuel(t) else Fuel(Moved(t, m)) < Fuel(t)
  {
  }

  lemma ChangeBurns(w: World, w2: World, c: Change, t: Id)
    requires RowsOk(w) && Explains(c, w, w2) && t in w.db.tasks
    ensures t in w2.db.tasks
    ensures var a, b := w.db.tasks[t], w2.db.tasks[t];
      if b.state == a.state then Fuel(b) == Fuel(a) else Fuel(b) < Fuel(a)
  {
    assert TaskOk(w.db.tasks[t], w.claims[t]);
    if c.MovedRow? && c.t == t { MoveBurns(w.db.tasks[t], c.move, w.claims[t]); }
    if c.ChargedRows? && t in c.ids { MoveBurns(w.db.tasks[t], Charge, w.claims[t]); }
  }

  /** Each change of a task's state burns fuel, so a task changes state at most
      `7 * (budget + 1) + 6` times in its whole life, whatever the run. */
  lemma {:induction false} Progress(w: World, es: seq<Event>, t: Id)
    requires Inv(w) && Legal(w, es) && t in w.db.tasks
    ensures t in Run(w, es).db.tasks
    ensures StateChanges(w, es, t) + Fuel(Run(w, es).db.tasks[t]) <= Fuel(w.db.tasks[t])
    ensures 0 <= Fuel(Run(w, es).db.tasks[t])
    decreases |es|
  {
    if es == [] {
      assert TaskOk(w.db.tasks[t], w.claims[t]);
    } else {
      var w2 := After(w, es[0]);
      var c := StepExplained(w, es[0].action, es[0].now);
      ChangeBurns(w, w2, c, t);
      StepKeepsInv(w, es[0].action, es[0].now);
      Progress(w2, es[1..], t);
    }
  }

  // ---------------------------------------------------------------- lease fencing

  /** A lease id names at most one task and one worker. */
  lemma LeaseIsUnique(w: World, t: Id, u: Id)
    requires RowsOk(w) && t in w.db.tasks && u in w.db.tasks
    requires w.db.tasks[t].lease.Some? && w.db.tasks[u].lease.Some?
    requires w.db.tasks[t].lease.value.id == w.db.tasks[u].lease.value.id
    ensures t == u
  {
    assert w.issued[w.db.tasks[t].lease.value.id].0 == t;
    assert w.issued[w.db.tasks[u].lease.value.id].0 == u;
  }

  predicate InFlight(s: TaskState) { OnLease(s) || s.EvidencePending? }

  /** The lease was issued and no task is working under it any more. */
  ghost predicate Ended(w: World, l: Id) {
    && l in w.issued
    && forall t :: t in w.db.tasks && w.db.tasks[t].lease.Some? && w.db.tasks[t].lease.value.id == l ==>
         !InFlight(w.db.tasks[t].state) || w.db.tasks[t].lease.value.expires <= w.clock
  }

  /** A lease has ended exactly when the task it was issued for was reclaimed, failed,
      superseded or completed, or has its result, or let the lease expire. */
  lemma EndedExactly(w: World, l: Id)
    requires RowsOk(w) && l in w.issued
    ensures var (t, k) := w.issued[l];
      Ended(w, l) <==>
        !(t in w.db.tasks && HeldBy(w.db.tasks[t], k, l) && InFlight(w.db.tasks[t].state) && Unexpired(w.db.tasks[t], w.clock))
  {
    var (t, k) := w.issued[l];
    if t in w.db.tasks && HeldBy(w.db.tasks[t], k, l) && InFlight(w.db.tasks[t].state) && Unexpired(w.db.tasks[t], w.clock) {
      assert !Ended(w, l);
    } else {
      forall u | u in w.db.tasks && w.db.tasks[u].lease.Some? && w.db.tasks[u].lease.value.id == l
        ensures !InFlight(w.db.tasks[u].state) || w.db.tasks[u].lease.value.expires <= w.clock
      {
        assert w.issued[l] == (u, w.db.tasks[u].lease.value.worker);
      }
    }
  }

  lemma StaysEnded(w: World, w2: World, c: Change, l: Id)
    requires RowsOk(w) && Explains(c, w, w2) && w.clock <= w2.clock && Ended(w, l)
    ensures Ended(w2, l)
  {
    forall t | t in w2.db.tasks && w2.db.tasks[t].lease.Some? && w2.db.tasks[t].lease.value.id == l
      ensures !InFlight(w2.db.tasks[t].state) || w2.db.tasks[t].lease.value.expires <= w2.clock
    {
      if c.MovedRow? && c.t == t {
        assert TaskOk(w.db.tasks[t], w.claims[t]);
        MoveKeeps(w.db.tasks[t], c.move, w.claims[t]);
      }
    }
  }

  /** Renewal, start (and acknowledgement) and result name the lease they act under. */
  predicate Uses(a: Action, l: Id) {
    (a.Renewing? && a.lease == l) || (a.Starting? && a.lease == l) || (a.Submitting? && a.lease == l)
  }

  lemma EndedRefuses(w: World, a: Action, now: Time, l: Id)
    requires Ended(w, l) && w.clock <= now && Uses(a, l)
    ensures !Succeeds(w.db, a, now) && Next(w, a, now).db == w.db
  {
  }

  /** Once a lease has ended, no later renewal, start, acknowledgement or result under it
      succeeds or changes anything, whatever happens in between. */
  lemma {:induction false} Fenced(w: World, es: seq<Event>, a: Action, now: Time, l: Id)
    requires Inv(w) && Ended(w, l) && Legal(w, es) && Run(w, es).clock <= now && Uses(a, l)
    ensures !Succeeds(Run(w, es).db, a, now) && Next(Run(w, es), a, now).db == Run(w, es).db
    decreases |es|
  {
    if es == [] {
      EndedRefuses(w, a, now, l);
    } else {
      var c := StepExplained(w, es[0].action, es[0].now);
      StaysEnded(w, After(w, es[0]), c, l);
      StepKeepsInv(w, es[0].action, es[0].now);
      Fenced(After(w, es[0]), es[1..], a, now, l);
    }
  }

  // ---------------------------------------------------------------- capacity

  /** No registration or heartbeat of the run lowers the capacity of worker `k`. */
  predicate NeverLowered(w: World, es: seq<Event>, k: Id)
    decreases |es|
  {
    es == [] || (
      var w2 := After(w, es[0]);
      && (k in w.db.workers ==> k in w2.db.workers && w.db.workers[k].capacity <= w2.db.workers[k].capacity)
      && NeverLowered(w2, es[1..], k))
  }

  lemma PeakIsCapacity(w: World, w2: World, c: Change, k: Id)
    requires Inv(w) && Explains(c, w, w2)
    requires k in w.db.workers ==> (k in w2.db.workers && w.db.workers[k].capacity <= w2.db.workers[k].capacity)
    requires if k in w.db.workers then w.peak[k] == w.db.workers[k].capacity else k !in w.peak
    ensures if k in w2.db.workers then k in w2.peak && w2.peak[k] == w2.db.workers[k].capacity else k !in w2.peak
  {
  }

  lemma {:induction false} PeakStaysCapacity(w: World, es: seq<Event>, k: Id)
    requires Inv(w) && Legal(w, es) && NeverLowered(w, es, k)
    requires if k in w.db.workers then w.peak[k] == w.db.workers[k].capacity else k !in w.peak
    ensures var v := Run(w, es);
      if k in v.db.workers then k in v.peak && v.peak[k] == v.db.workers[k].capacity else k !in v.peak
    decreases |es|
  {
    if es != [] {
      var c := StepExplained(w, es[0].action, es[0].now);
      PeakIsCapacity(w, After(w, es[0]), c, k);
      StepKeepsInv(w, es[0].action, es[0].now);
      PeakStaysCapacity(After(w, es[0]), es[1..], k);
    }
  }

  /** The live leases of a worker never exceed the largest capacity it ever had; and, unless
      some step lowered it, never the capacity it has now. */
  lemma CapacityRespected(es: seq<Event>, k: Id)
    requires Legal(EMPTY_STORE, es)
    ensures var w := Run(EMPTY_STORE, es);
      && |Active(w.db, k, w.clock)| <= Get(w.peak, k, 0)
      && (k in w.db.workers && NeverLowered(EMPTY_STORE, es, k) ==>
            |Active(w.db, k, w.clock)| <= w.db.workers[k].capacity)
  {
    EmptyStoreOk();
    RunKeepsInv(EMPTY_STORE, es);
    if NeverLowered(EMPTY_STORE, es, k) { PeakStaysCapacity(EMPTY_STORE, es, k); }
  }

  // ---------------------------------------------------------------- the unguarded update

  /** `route_or_wait` keeps the row invariant exactly when it writes nothing or the task is
      leaseable: called for any other task it strands a lease on a waiting row. */
  lemma RouteOrWaitExactly(w: World, t: Id, now: Time)
    requires RowsOk(w)
    ensures var r := RouteOrWait(w.db, t, now);
      RowsOk(w.(db := r.db)) <==> (r.answer != Done(false) || Leaseable(w.db.tasks[t].state))
  {
    var r := RouteOrWait(w.db, t, now);
    if r.answer == Done(false) {
      assert TaskOk(w.db.tasks[t], w.claims[t]);
      var row := r.db.tasks[t];
      if Leaseable(w.db.tasks[t].state) {
        assert TaskOk(row, w.claims[t]);
      } else {
        assert !TaskOk(row, w.claims[t]);
      }
    }
  }
}
