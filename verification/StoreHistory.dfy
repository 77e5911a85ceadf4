/** What became of a task, told in rows and operations: in every store that a run can reach, each way a
    row changes happens exactly at one kind of operation, in rows that say so column by column. */
module StoreHistory {
  import opened Basics
  import opened Store
  import opened StoreRuns

  /** Some run from the empty store leads here. */
  ghost predicate Reached(w: World) { exists es :: Legal(EMPTY_STORE, es) && Run(EMPTY_STORE, es) == w }

  lemma {:induction false} ClockGrows(w: World, es: seq<Event>)
    requires Legal(w, es)
    ensures w.clock <= Run(w, es).clock
    decreases |es|
  {
    if es != [] { ClockGrows(After(w, es[0]), es[1..]); }
  }

  lemma ReachedOk(w: World)
    requires Reached(w)
    ensures Inv(w) && w.clock >= 0.0
  {
    var es :| Legal(EMPTY_STORE, es) && Run(EMPTY_STORE, es) == w;
    EmptyStoreOk();
    RunKeepsInv(EMPTY_STORE, es);
    ClockGrows(EMPTY_STORE, es);
  }

  // ---------------------------------------------------------------- what can have happened to a row

  /** What change `c` can have made of row `t`. */
  ghost predicate Moves(row: Task, t: Id, c: Change, after: Task) {
    || after == row
    || (c.ClaimedRow? && c.t == t && Schedulable(row) && after == row.(state := Leased, lease := Some(c.lease)))
    || (c.MovedRow? && c.t == t && CanMove(row, c.move) && after == Moved(row, c.move))
    || (c.ChargedRows? && CanMove(row, Charge) && after == Charged(row))
  }

  lemma RowMoves(w: World, a: Action, now: Time, t: Id) returns (c: Change)
    requires Reached(w) && Allowed(w, a, now) && t in w.db.tasks
    ensures t in w.claims && TaskOk(w.db.tasks[t], w.claims[t]) && t in Next(w, a, now).db.tasks && Suits(c, a)
    ensures Moves(w.db.tasks[t], t, c, Next(w, a, now).db.tasks[t])
  {
    hide Next, Reached, CanTake;
    ReachedOk(w);
    c := StepExplained(w, a, now);
    assert TaskOk(w.db.tasks[t], w.claims[t]);
  }

  // ---------------------------------------------------------------- columns

  /** The heartbeat of registered worker `k` is not older than its SLA, nor more than a second ahead. */
  predicate Beats(db: Db, k: Id, now: Time) {
    k in db.workers && now - db.workers[k].heartbeat <= db.workers[k].sla && db.workers[k].heartbeat <= now + 1.0
  }

  /** The row is on lease `l` of worker `k`, which has not expired. */
  predicate OnLeaseOf(row: Task, k: Id, l: Id, now: Time) {
    row.lease.Some? && row.lease.value.worker == k && row.lease.value.id == l && row.lease.value.expires > now
  }

  predicate OnLeaseNow(db: Db, t: Id, k: Id, l: Id, now: Time) { t in db.tasks && OnLeaseOf(db.tasks[t], k, l, now) }

  /** The leased and running tasks on unexpired leases of worker `k`. */
  function HeldRows(db: Db, k: Id, now: Time): set<Id> {
    set u | u in db.tasks && (db.tasks[u].state.Leased? || db.tasks[u].state.Running?)
            && db.tasks[u].lease.Some? && db.tasks[u].lease.value.worker == k && db.tasks[u].lease.value.expires > now
  }

  lemma HeldAreActive(db: Db, k: Id, now: Time)
    ensures HeldRows(db, k, now) == Active(db, k, now)
  {
  }

  predicate LeaseIsNew(row: Task, after: Task) {
    after.lease.Some? && (row.lease.None? || row.lease.value.id != after.lease.value.id)
  }

  /** An operation on task `t` of a store as the invariant leaves it. */
  ghost predicate Acts(w: World, e: Event, t: Id) {
    && e.now >= 0.0 && t in w.db.tasks && t in w.claims && TaskOk(w.db.tasks[t], w.claims[t]) && Allowed(w, e.action, e.now)
  }

  // ---------------------------------------------------------------- leases

  /** Worker `k` may claim task `t`. */
  predicate MayClaim(db: Db, t: Id, k: Id, now: Time) {
    && t in db.tasks && Beats(db, k, now)
    && (db.tasks[t].state.Queued? || db.tasks[t].state.WaitingCapacity? || db.tasks[t].state.Retrying?)
    && !db.tasks[t].human && db.tasks[t].governed
    && db.tasks[t].capability in db.workers[k].capabilities && db.tasks[t].target in db.workers[k].targets
    && |HeldRows(db, k, now)| < db.workers[k].capacity
  }

  lemma Claims(w: World, e: Event, t: Id)
    requires Acts(w, e, t) && e.action.Claiming? && e.action.task == t
    ensures var a, db, v := e.action, w.db, After(w, e).db;
      && (t in v.tasks && LeaseIsNew(db.tasks[t], v.tasks[t]) <==> a.seconds > 0.0 && MayClaim(db, t, a.worker, e.now))
      && v == if a.seconds > 0.0 && MayClaim(db, t, a.worker, e.now)
              then db.(tasks := db.tasks[t := db.tasks[t].(state := Leased, lease := Some(Lease(a.worker, a.lease, e.now + a.seconds)))])
              else db
  {
    HeldAreActive(w.db, e.action.worker, e.now);
  }

  lemma NoNewLease(row: Task, t: Id, c: Change, after: Task, a: Action, claims: nat)
    requires Moves(row, t, c, after) && Suits(c, a) && TaskOk(row, claims) && !(a.Claiming? && a.task == t)
    ensures !LeaseIsNew(row, after)
  {
  }

  /** A task gets a new lease exactly when it is claimed for a registered worker whose heartbeat is neither
      older than its SLA nor in the future, which has the capability and the target, and holds fewer
      unexpired leases than its capacity; and the task is waiting to be leased, needs no human and is
      governed. The lease runs from now, and nothing else changes. */
  lemma ClaimedExactly(w: World, e: Event, t: Id)
    requires Reached(w) && Allowed(w, e.action, e.now) && t in w.db.tasks
    ensures var a, db, v := e.action, w.db, After(w, e).db;
      && t in v.tasks
      && (LeaseIsNew(db.tasks[t], v.tasks[t]) <==> a.Claiming? && a.task == t && a.seconds > 0.0 && MayClaim(db, t, a.worker, e.now))
      && (LeaseIsNew(db.tasks[t], v.tasks[t]) ==>
            v == db.(tasks := db.tasks[t := db.tasks[t].(state := Leased, lease := Some(Lease(a.worker, a.lease, e.now + a.seconds)))]))
  {
    hide Next, Reached, MayClaim, Moves, Suits, TaskOk, LeaseIsNew, Inv;
    ReachedOk(w);
    var c := RowMoves(w, e.action, e.now, t);
    if e.action.Claiming? && e.action.task == t { Claims(w, e, t); }
    else { NoNewLease(w.db.tasks[t], t, c, After(w, e).db.tasks[t], e.action, w.claims[t]); }
  }

  /** The lease stays, with another end. */
  predicate Prolonged(row: Task, after: Task) {
    row.lease.Some? && after.lease.Some? && after.lease.value.id == row.lease.value.id && after.lease.value != row.lease.value
  }

  lemma Renews(w: World, e: Event, t: Id)
    requires Acts(w, e, t) && e.action.Renewing? && e.action.task == t
    ensures var a, db, v := e.action, w.db, After(w, e).db;
      var may := OnLeaseOf(db.tasks[t], a.worker, a.lease, e.now) && (db.tasks[t].state.Leased? || db.tasks[t].state.Running?);
      && v == (if may then db.(tasks := db.tasks[t := db.tasks[t].(lease := Some(Lease(a.worker, a.lease, e.now + a.seconds)))]) else db)
  {
  }

  /** A lease is prolonged exactly for its worker, while the task is leased or running under it and it has
      not expired; it then runs from now. */
  lemma RenewedExactly(w: World, e: Event, t: Id)
    requires Reached(w) && Allowed(w, e.action, e.now) && t in w.db.tasks
    ensures var a, db, v := e.action, w.db, After(w, e).db;
      && t in v.tasks
      && (Prolonged(db.tasks[t], v.tasks[t]) <==>
            && a.Renewing? && a.task == t && OnLeaseOf(db.tasks[t], a.worker, a.lease, e.now)
            && (db.tasks[t].state.Leased? || db.tasks[t].state.Running?) && db.tasks[t].lease.value.expires != e.now + a.seconds)
      && (Prolonged(db.tasks[t], v.tasks[t]) ==>
            v == db.(tasks := db.tasks[t := db.tasks[t].(lease := Some(Lease(a.worker, a.lease, e.now + a.seconds)))]))
  {
    hide Next, Reached;
    ReachedOk(w);
    var c := RowMoves(w, e.action, e.now, t);
    if e.action.Renewing? && e.action.task == t { Renews(w, e, t); }
  }

  lemma Starts(w: World, e: Event, t: Id)
    requires Acts(w, e, t) && e.action.Starting? && e.action.task == t
    ensures var a, db, v := e.action, w.db, After(w, e).db;
      var may := db.tasks[t].state.Leased? && OnLeaseOf(db.tasks[t], a.worker, a.lease, e.now) && Beats(db, a.worker, e.now);
      && v == (if may then db.(tasks := db.tasks[t := db.tasks[t].(state := Running)]) else db)
  {
  }

  lemma NoNewRun(row: Task, t: Id, c: Change, after: Task, a: Action)
    requires Moves(row, t, c, after) && Suits(c, a) && !(a.Starting? && a.task == t)
    ensures after.state.Running? ==> row.state.Running?
  {
  }

  /** A task begins to run exactly when it is started under its unexpired lease for the lease's worker,
      whose heartbeat is fresh. */
  lemma StartedExactly(w: World, e: Event, t: Id)
    requires Reached(w) && Allowed(w, e.action, e.now) && t in w.db.tasks
    ensures var a, db, v := e.action, w.db, After(w, e).db;
      && t in v.tasks
      && (v.tasks[t].state.Running? && !db.tasks[t].state.Running? <==>
            && a.Starting? && a.task == t && db.tasks[t].state.Leased?
            && OnLeaseOf(db.tasks[t], a.worker, a.lease, e.now) && Beats(db, a.worker, e.now))
      && (v.tasks[t].state.Running? && !db.tasks[t].state.Running? ==> v == db.(tasks := db.tasks[t := db.tasks[t].(state := Running)]))
  {
    hide Next, Reached, Moves, Suits, TaskOk, Inv, OnLeaseOf, Beats;
    ReachedOk(w);
    var c := RowMoves(w, e.action, e.now, t);
    if e.action.Starting? && e.action.task == t { Starts(w, e, t); }
    else { NoNewRun(w.db.tasks[t], t, c, After(w, e).db.tasks[t], e.action); }
  }

  // ---------------------------------------------------------------- attempts

  /** Something has happened that costs the task its attempt. */
  predicate Costs(db: Db, a: Action, t: Id, now: Time) {
    && t in db.tasks && (db.tasks[t].state.Leased? || db.tasks[t].state.Running?) && db.tasks[t].lease.Some?
    && var l := db.tasks[t].lease.value;
      || (a.Reclaiming? && a.task == t && l.expires <= now)
      || (a.ReconcilingStale? && db.tasks[t].state.Running? && l.worker in db.workers && !Beats(db, l.worker, now))
      || (a.Failing? && a.task == t && l.worker == a.worker && l.id == a.lease)
  }

  /** One attempt more, no lease, and back to retry unless the budget is spent. */
  function Spent(row: Task): Task {
    row.(attempts := row.attempts + 1, lease := None, state := if row.attempts < row.budget then Retrying else DeadLetter)
  }

  lemma Reclaims(w: World, e: Event, t: Id)
    requires Acts(w, e, t) && e.action.Reclaiming? && e.action.task == t
    ensures After(w, e).db == if Costs(w.db, e.action, t, e.now) then w.db.(tasks := w.db.tasks[t := Spent(w.db.tasks[t])]) else w.db
  {
  }

  lemma Fails(w: World, e: Event, t: Id)
    requires Acts(w, e, t) && e.action.Failing? && e.action.task == t
    ensures After(w, e).db == if Costs(w.db, e.action, t, e.now) then w.db.(tasks := w.db.tasks[t := Spent(w.db.tasks[t])]) else w.db
  {
  }

  lemma Reconciles(w: World, e: Event, t: Id)
    requires Acts(w, e, t) && e.action.ReconcilingStale?
    ensures var v := After(w, e).db;
      t in v.tasks && v.tasks[t] == if Costs(w.db, e.action, t, e.now) then Spent(w.db.tasks[t]) else w.db.tasks[t]
  {
  }

  /** An attempt is charged exactly when the lease of a leased or running task is reclaimed after it has
      expired, or stale owners are reconciled and the running task's registered worker has no fresh
      heartbeat, or the worker of the lease reports a failure. The task then has no lease and goes back
      to retry, or to the dead letter when the budget is spent. */
  lemma ChargedExactly(w: World, e: Event, t: Id)
    requires Reached(w) && Allowed(w, e.action, e.now) && t in w.db.tasks
    ensures var db, v := w.db, After(w, e).db;
      && t in v.tasks
      && (v.tasks[t].attempts != db.tasks[t].attempts <==> Costs(db, e.action, t, e.now))
      && (v.tasks[t].attempts != db.tasks[t].attempts ==> v.tasks[t] == Spent(db.tasks[t]))
  {
    hide Next, Reached;
    ReachedOk(w);
    var c := RowMoves(w, e.action, e.now, t);
    if e.action.Reclaiming? && e.action.task == t { Reclaims(w, e, t); }
    else if e.action.Failing? && e.action.task == t { Fails(w, e, t); }
    else if e.action.ReconcilingStale? { Reconciles(w, e, t); }
  }

  // ---------------------------------------------------------------- results and review

  /** Worker and lease of a result are those of the task, which has not got one yet. */
  predicate MaySubmit(db: Db, a: Action, t: Id, now: Time) {
    && a.Submitting? && a.task == t && t in db.tasks
    && (db.tasks[t].state.Leased? || db.tasks[t].state.Running? || db.tasks[t].state.EvidencePending?)
    && OnLeaseOf(db.tasks[t], a.worker, a.lease, now) && Beats(db, a.worker, now)
  }

  /** No evidence of the task has this identity or this digest. */
  ghost predicate NewEvidence(db: Db, t: Id, evidence: Id, digest: Digest) {
    EvidenceKey(t, evidence) !in db.evidence && forall k :: k in db.evidence && k.task == t ==> db.evidence[k] != digest
  }

  lemma Submits(w: World, e: Event, t: Id)
    requires Acts(w, e, t) && e.action.Submitting? && e.action.task == t
    ensures var a, db, v := e.action, w.db, After(w, e).db;
      var row := db.tasks[t];
      v == if !MaySubmit(db, a, t, e.now) then db
           else if a.digest.None? then db.(tasks := db.tasks[t := row.(state := EvidencePending, evidence := MissingOrInvalid)])
           else if !NewEvidence(db, t, a.evidence, a.digest.value) then db
           else db.(tasks := db.tasks[t := row.(state := ReviewPending, evidence := Received)],
                    evidence := db.evidence[EvidenceKey(t, a.evidence) := a.digest.value])
  {
  }

  lemma Accepts(w: World, e: Event, t: Id)
    requires Acts(w, e, t) && e.action.Accepting? && e.action.task == t
    ensures var db, v := w.db, After(w, e).db;
      v == if db.tasks[t].state.Running? then db.(tasks := db.tasks[t := db.tasks[t].(state := ReviewPending, evidence := Received)]) else db
  {
  }

  /** A task comes under review exactly when its worker hands in new evidence with a well-formed digest
      under the unexpired lease, with a fresh heartbeat; or a governed execution of the running task is
      accepted. Only the former stores evidence. */
  lemma ReviewedExactly(w: World, e: Event, t: Id)
    requires Reached(w) && Allowed(w, e.action, e.now) && t in w.db.tasks
    ensures var a, db, v := e.action, w.db, After(w, e).db;
      && t in v.tasks
      && (v.tasks[t].state.ReviewPending? && !db.tasks[t].state.ReviewPending? <==>
            || (a == Accepting(t) && db.tasks[t].state.Running?)
            || (MaySubmit(db, a, t, e.now) && a.digest.Some? && NewEvidence(db, t, a.evidence, a.digest.value)))
      && (v.tasks[t].state.ReviewPending? && !db.tasks[t].state.ReviewPending? ==>
            v == db.(tasks := db.tasks[t := db.tasks[t].(state := ReviewPending, evidence := Received)],
                     evidence := if a.Submitting? then db.evidence[EvidenceKey(t, a.evidence) := a.digest.value] else db.evidence))
  {
    hide Next, Reached, NewEvidence;
    ReachedOk(w);
    var c := RowMoves(w, e.action, e.now, t);
    if e.action.Submitting? && e.action.task == t { Submits(w, e, t); }
    else if e.action == Accepting(t) { Accepts(w, e, t); }
  }

  /** A result without a well-formed digest makes its task wait for evidence, and nothing else does. */
  lemma FaultyExactly(w: World, e: Event, t: Id)
    requires Reached(w) && Allowed(w, e.action, e.now) && t in w.db.tasks
    ensures var a, db, v := e.action, w.db, After(w, e).db;
      && t in v.tasks
      && (v.tasks[t].state.EvidencePending? && !db.tasks[t].state.EvidencePending? <==>
            MaySubmit(db, a, t, e.now) && a.digest.None? && !db.tasks[t].state.EvidencePending?)
  {
    hide Next, Reached, NewEvidence;
    ReachedOk(w);
    var c := RowMoves(w, e.action, e.now, t);
    if e.action.Submitting? && e.action.task == t { Submits(w, e, t); }
  }

  predicate InTable(db: Db, t: Id, s: TaskState) { t in db.tasks && db.tasks[t].state == s }

  lemma Completes(w: World, e: Event, t: Id)
    requires Acts(w, e, t) && e.action.Completing? && e.action.task == t
    ensures var a, db, v := e.action, w.db, After(w, e).db;
      v == if a.valid && db.tasks[t].state.ReviewPending?
           then db.(tasks := db.tasks[t := db.tasks[t].(state := Completed, evidence := Valid, lease := None)]) else db
  {
  }

  /** A task is completed exactly by a review that finds its evidence valid while it is under review. */
  lemma CompletedExactly(w: World, e: Event, t: Id)
    requires Reached(w) && Allowed(w, e.action, e.now) && t in w.db.tasks
    ensures var a, db, v := e.action, w.db, After(w, e).db;
      && t in v.tasks
      && (v.tasks[t].state.Completed? && !db.tasks[t].state.Completed? <==> a == Completing(t, true) && db.tasks[t].state.ReviewPending?)
      && (v.tasks[t].state.Completed? && !db.tasks[t].state.Completed? ==>
            v == db.(tasks := db.tasks[t := db.tasks[t].(state := Completed, evidence := Valid, lease := None)]))
  {
    hide Next, Reached;
    ReachedOk(w);
    var c := RowMoves(w, e.action, e.now, t);
    if e.action.Completing? && e.action.task == t { Completes(w, e, t); }
  }

  /** A review that finds it invalid changes no table, whatever the state of the task. */
  lemma InvalidReviewChangesNothing(w: World, t: Id, now: Time)
    ensures Next(w, Completing(t, false), now).db == w.db
  {
  }

  // ---------------------------------------------------------------- waiting, creation, workers

  lemma Waits(w: World, e: Event, t: Id)
    requires Acts(w, e, t) && e.action.Waiting? && e.action.task == t
    ensures var db, v := w.db, After(w, e).db;
      var row := db.tasks[t];
      v == if (row.state.Queued? || row.state.WaitingCapacity? || row.state.Retrying?) && !row.human && row.governed
           then db.(tasks := db.tasks[t := row.(state := WaitingCapacity)]) else db
  {
  }

  /** A task begins to wait for capacity exactly when it could be leased instead. */
  lemma WaitsExactly(w: World, e: Event, t: Id)
    requires Reached(w) && Allowed(w, e.action, e.now) && t in w.db.tasks
    ensures var a, db, v := e.action, w.db, After(w, e).db;
      var row := db.tasks[t];
      && t in v.tasks
      && (v.tasks[t].state.WaitingCapacity? && !row.state.WaitingCapacity? <==>
            a == Waiting(t) && (row.state.Queued? || row.state.Retrying?) && !row.human && row.governed)
      && (v.tasks[t].state.WaitingCapacity? && !row.state.WaitingCapacity? ==> v == db.(tasks := db.tasks[t := row.(state := WaitingCapacity)]))
  {
    hide Next, Reached;
    ReachedOk(w);
    var c := RowMoves(w, e.action, e.now, t);
    if e.action.Waiting? && e.action.task == t { Waits(w, e, t); }
  }

  /** Neither the id nor the directive is in use. */
  ghost predicate Unused(db: Db, t: Id, directive: Option<Id>) {
    t !in db.tasks && (directive.Some? ==> forall u :: u in db.tasks ==> db.tasks[u].directive != directive)
  }

  lemma Creates(w: World, e: Event)
    requires e.now >= 0.0 && e.action.Creating? && e.action.id !in w.db.tasks
    ensures var a, db, v := e.action, w.db, After(w, e).db;
      v == if 0 <= a.budget <= 1_000_000 && Unused(db, a.id, a.directive)
           then db.(tasks := db.tasks[a.id :=
             Task(a.directive, a.target, a.capability, if a.human then WaitingHuman else Queued, a.priority, e.now,
                  a.human, a.governed, 0, a.budget, None, NoEvidence)])
           else db
  {
  }

  /** A row appears exactly when a task is created with a retry budget in range, an id and a directive that
      no row has; it then says what it was created with, and waits for a human exactly when it needs one. */
  lemma CreatedExactly(w: World, e: Event, t: Id)
    requires Reached(w) && Allowed(w, e.action, e.now) && t !in w.db.tasks
    ensures var a, db, v := e.action, w.db, After(w, e).db;
      && (t in v.tasks <==> a.Creating? && a.id == t && 0 <= a.budget <= 1_000_000 && Unused(db, t, a.directive))
      && (t in v.tasks ==>
            v == db.(tasks := db.tasks[t :=
              Task(a.directive, a.target, a.capability, if a.human then WaitingHuman else Queued, a.priority, e.now,
                   a.human, a.governed, 0, a.budget, None, NoEvidence)]))
  {
    hide Next, Reached, Unused, CanTake;
    ReachedOk(w);
    var c := StepExplained(w, e.action, e.now);
    if e.action.Creating? && e.action.id == t { Creates(w, e); }
  }

  function WorkerRowOf(db: Db, k: Id): Option<Worker> { if k in db.workers then Some(db.workers[k]) else None }

  lemma Registers(w: World, e: Event)
    requires e.action.Registering?
    ensures var a, db, v := e.action, w.db, After(w, e).db;
      v == if a.registeredAt >= 0.0 && a.sla > 0.0 && a.capacity >= 0
           then db.(workers := db.workers[a.worker := Worker(a.kind, a.capabilities, a.targets, a.registeredAt, a.sla, a.capacity)])
           else db
  {
  }

  lemma Observes(w: World, e: Event)
    requires e.now >= 0.0 && e.action.Beating?
    ensures var a, db, v := e.action, w.db, After(w, e).db;
      v == if a.worker in db.workers && 0.0 <= a.observed <= e.now + 1.0 && a.capacity >= 0
           then db.(workers := db.workers[a.worker := db.workers[a.worker].(heartbeat := a.observed, capacity := a.capacity)])
           else db
  {
  }

  /** A worker row changes exactly at a registration, or at a heartbeat not from the future. */
  lemma WorkerExactly(w: World, e: Event, k: Id)
    requires Reached(w) && Allowed(w, e.action, e.now)
    ensures var a, db, v := e.action, w.db, After(w, e).db;
      WorkerRowOf(v, k) ==
        if a.Registering? && a.worker == k && a.registeredAt >= 0.0 && a.sla > 0.0 && a.capacity >= 0 then
          Some(Worker(a.kind, a.capabilities, a.targets, a.registeredAt, a.sla, a.capacity))
        else if a.Beating? && a.worker == k && k in db.workers && 0.0 <= a.observed <= e.now + 1.0 && a.capacity >= 0 then
          Some(db.workers[k].(heartbeat := a.observed, capacity := a.capacity))
        else WorkerRowOf(db, k)
  {
    hide Next, Reached, CanTake;
    ReachedOk(w);
    var c := StepExplained(w, e.action, e.now);
    if e.action.Registering? { Registers(w, e); } else if e.action.Beating? { Observes(w, e); }
  }

  /** An evidence row appears exactly with the result it was handed in with, and never changes or goes. */
  lemma EvidenceExactly(w: World, e: Event, k: EvidenceKey)
    requires Reached(w) && Allowed(w, e.action, e.now)
    ensures var a, db, v := e.action, w.db, After(w, e).db;
      && (k in db.evidence ==> k in v.evidence && v.evidence[k] == db.evidence[k])
      && (k in v.evidence && k !in db.evidence <==>
            && MaySubmit(db, a, k.task, e.now) && a.digest.Some? && k.evidence == a.evidence
            && NewEvidence(db, k.task, a.evidence, a.digest.value))
      && (k in v.evidence && k !in db.evidence ==> v.evidence[k] == a.digest.value)
  {
    hide Next, Reached, CanTake, CanMove;
    ReachedOk(w);
    var c := StepExplained(w, e.action, e.now);
    if e.action.Submitting? && e.action.task in w.db.tasks {
      assert TaskOk(w.db.tasks[e.action.task], w.claims[e.action.task]);
      Submits(w, e, e.action.task);
      assert k == EvidenceKey(k.task, k.evidence);
    } else {
      assert c.MovedRow? ==> !c.move.Receive?;
    }
  }

  // ---------------------------------------------------------------- answers

  /** The one row with this directive says what is asked for already. */
  ghost predicate AlreadyThere(db: Db, a: Action)
    requires a.Creating?
  {
    && a.directive.Some? && a.id in db.tasks && db.tasks[a.id].directive == a.directive
    && db.tasks[a.id].target == a.target && db.tasks[a.id].capability == a.capability
  }

  ghost predicate Warranted(db: Db, a: Action, now: Time) {
    match a
    case Creating(_, _, _, _, _, _, _, _) => 0 <= a.budget <= 1_000_000 && (Unused(db, a.id, a.directive) || AlreadyThere(db, a))
    case Registering(_, _, _, _, _, _, _) => a.registeredAt >= 0.0 && a.sla > 0.0 && a.capacity >= 0
    case Beating(_, _, _) => a.worker in db.workers && 0.0 <= a.observed <= now + 1.0 && a.capacity >= 0
    case Claiming(t, _, _, _) => a.seconds > 0.0 && MayClaim(db, t, a.worker, now)
    case Renewing(t, _, _, _) =>
      t in db.tasks && OnLeaseOf(db.tasks[t], a.worker, a.lease, now) && (db.tasks[t].state.Leased? || db.tasks[t].state.Running?)
    case Starting(t, _, _) =>
      t in db.tasks && db.tasks[t].state.Leased? && OnLeaseOf(db.tasks[t], a.worker, a.lease, now) && Beats(db, a.worker, now)
    case Reclaiming(t) => Costs(db, a, t, now)
    case ReconcilingStale => true
    case Failing(t, _, _) => Costs(db, a, t, now)
    case Submitting(t, _, _, _, _) => MaySubmit(db, a, t, now) && a.digest.Some? && NewEvidence(db, t, a.evidence, a.digest.value)
    case Accepting(t) => InTable(db, t, Running)
    case Completing(t, v) => v && InTable(db, t, ReviewPending)
    case Waiting(t) =>
      t in db.tasks && (db.tasks[t].state.Queued? || db.tasks[t].state.WaitingCapacity? || db.tasks[t].state.Retrying?)
      && !db.tasks[t].human && db.tasks[t].governed
  }

  /** Operations are answered with success exactly when they are warranted by the rows. */
  lemma AnsweredExactly(w: World, e: Event)
    requires Reached(w) && Allowed(w, e.action, e.now)
    ensures Succeeds(w.db, e.action, e.now) <==> Warranted(w.db, e.action, e.now)
  {
    hide Reached, Run, Legal;
    ReachedOk(w);
    assert forall t :: t in w.db.tasks ==> TaskOk(w.db.tasks[t], w.claims[t]);
    if e.action.Claiming? { HeldAreActive(w.db, e.action.worker, e.now); }
  }

  // ---------------------------------------------------------------- routing

  /** Worker `k` could lease the task with these columns. */
  predicate Able(db: Db, k: Id, row: Task, now: Time) {
    && Beats(db, k, now) && row.capability in db.workers[k].capabilities && row.target in db.workers[k].targets
    && |HeldRows(db, k, now)| < db.workers[k].capacity
  }

  /** `route_or_wait` finds a worker or makes the task wait for one, in every state but those where routing
      is prohibited: completed, dead, waiting for a human, or not governed. */
  lemma RouteOrWaitTells(db: Db, t: Id, now: Time)
    ensures var r := RouteOrWait(db, t, now);
      && (r.answer.Done? <==>
            && now >= 0.0 && t in db.tasks && db.tasks[t].governed
            && !db.tasks[t].state.Completed? && !db.tasks[t].state.DeadLetter? && !db.tasks[t].state.WaitingHuman?)
      && (r.answer.Done? ==> (r.answer.value <==> exists k :: Able(db, k, db.tasks[t], now)))
      && r.db == if r.answer == Done(false) then db.(tasks := db.tasks[t := db.tasks[t].(state := WaitingCapacity)]) else db
  {
    forall k ensures HeldRows(db, k, now) == Active(db, k, now) { HeldAreActive(db, k, now); }
    if t in db.tasks {
      assert forall k :: Able(db, k, db.tasks[t], now) <==> k in db.workers && CanTake(db, k, db.tasks[t], now);
    }
  }

  // ---------------------------------------------------------------- over whole runs

  /** The store after the first `i` operations. */
  function At(es: seq<Event>, i: nat): World
    requires i <= |es|
  {
    Run(EMPTY_STORE, es[..i])
  }

  lemma {:induction false} LegalPrefix(w: World, es: seq<Event>, i: nat)
    requires Legal(w, es) && i < |es|
    ensures Legal(w, es[..i]) && Allowed(Run(w, es[..i]), es[i].action, es[i].now)
    ensures Run(w, es[..i + 1]) == After(Run(w, es[..i]), es[i])
    decreases i
  {
    if i > 0 {
      assert es[1..][..i - 1] == es[..i][1..] && es[1..][..i] == es[..i + 1][1..];
      LegalPrefix(After(w, es[0]), es[1..], i - 1);
    }
  }

  /** Step `i` of a run. */
  lemma StepAt(es: seq<Event>, i: nat)
    requires Legal(EMPTY_STORE, es) && i < |es|
    ensures Reached(At(es, i)) && Allowed(At(es, i), es[i].action, es[i].now) && At(es, i + 1) == After(At(es, i), es[i])
  {
    LegalPrefix(EMPTY_STORE, es, i);
  }

  lemma AtEnd(es: seq<Event>)
    ensures At(es, |es|) == Run(EMPTY_STORE, es)
  {
    assert es[..|es|] == es;
  }

  lemma StartsEmpty(es: seq<Event>)
    ensures At(es, 0) == EMPTY_STORE
  {
  }

  predicate InState(w: World, t: Id, s: TaskState) { t in w.db.tasks && w.db.tasks[t].state == s }

  /** Step `i` finds the evidence of `t` valid while the task is under review. */
  predicate ReviewedValid(es: seq<Event>, i: nat, t: Id) {
    i < |es| && es[i].action == Completing(t, true) && InState(At(es, i), t, ReviewPending)
  }

  /** Over any run, a completed task was completed by the step of a review that found its evidence valid, and
      by nothing else. */
  lemma CompletedByReview(es: seq<Event>, t: Id) returns (i: nat)
    requires Legal(EMPTY_STORE, es) && InState(Run(EMPTY_STORE, es), t, Completed)
    ensures ReviewedValid(es, i, t)
  {
    hide Run, Reached, After;
    AtEnd(es);
    assert !InState(At(es, 0), t, Completed) by { StartsEmpty(es); }
    i := TurningPoint(|es|, (j: nat) => j <= |es| && InState(At(es, j), t, Completed));
    StepAt(es, i);
    if t in At(es, i).db.tasks { CompletedExactly(At(es, i), es[i], t); } else { CreatedExactly(At(es, i), es[i], t); }
  }

  /** The step that brings task `t` under review: new evidence from the worker of its unexpired lease, or a
      governed execution while it runs. */
  ghost predicate BringsResult(db: Db, e: Event, t: Id) {
    || (e.action == Accepting(t) && InTable(db, t, Running))
    || (&& MaySubmit(db, e.action, t, e.now) && e.action.digest.Some?
        && NewEvidence(db, t, e.action.evidence, e.action.digest.value))
  }

  /** Over any run, a task under review got there by a result of the worker that held its lease then. */
  lemma ReviewedAfterResult(es: seq<Event>, t: Id) returns (i: nat)
    requires Legal(EMPTY_STORE, es) && InState(Run(EMPTY_STORE, es), t, ReviewPending)
    ensures i < |es| && BringsResult(At(es, i).db, es[i], t)
  {
    hide Run, Reached, After, MaySubmit, NewEvidence;
    AtEnd(es);
    StartsEmpty(es);
    i := TurningPoint(|es|, (j: nat) => j <= |es| && InState(At(es, j), t, ReviewPending));
    StepAt(es, i);
    if t in At(es, i).db.tasks { ReviewedExactly(At(es, i), es[i], t); } else { CreatedExactly(At(es, i), es[i], t); }
  }

  predicate HasLease(w: World, t: Id, l: Id) {
    t in w.db.tasks && w.db.tasks[t].lease.Some? && w.db.tasks[t].lease.value.id == l
  }

  /** Over any run, the lease a task has is one that was claimed for it when a worker could take it. */
  lemma LeaseWasClaimed(es: seq<Event>, t: Id, l: Id) returns (i: nat)
    requires Legal(EMPTY_STORE, es) && HasLease(Run(EMPTY_STORE, es), t, l)
    ensures i < |es|
    ensures var a := es[i].action;
      && a.Claiming? && a.task == t && a.lease == l && a.seconds > 0.0 && MayClaim(At(es, i).db, t, a.worker, es[i].now)
  {
    hide Run, Reached, After, MayClaim;
    AtEnd(es);
    StartsEmpty(es);
    i := TurningPoint(|es|, (j: nat) => j <= |es| && HasLease(At(es, j), t, l));
    StepAt(es, i);
    if t in At(es, i).db.tasks { ClaimedExactly(At(es, i), es[i], t); } else { CreatedExactly(At(es, i), es[i], t); }
  }

  /** The columns a task is created with. */
  predicate MadeOf(row: Task, e: Event) {
    && e.action.Creating? && row.directive == e.action.directive && row.target == e.action.target
    && row.capability == e.action.capability && row.priority == e.action.priority && row.created == e.now
    && row.human == e.action.human && row.governed == e.action.governed && row.budget == e.action.budget
  }

  lemma ColumnsKept(row: Task, t: Id, c: Change, after: Task, e: Event)
    requires Moves(row, t, c, after) && MadeOf(row, e)
    ensures MadeOf(after, e)
  {
  }

  /** Over any run, a task is what it was created as: directive, target, capability, priority, time of
      creation, flags and budget never change. */
  lemma {:induction false} CreatedAs(es: seq<Event>, n: nat, t: Id) returns (i: nat)
    requires Legal(EMPTY_STORE, es) && n <= |es| && t in At(es, n).db.tasks
    ensures i < n && es[i].action.Creating? && es[i].action.id == t && MadeOf(At(es, n).db.tasks[t], es[i])
    decreases n
  {
    hide Run, Reached, After, Next, Moves;
    StartsEmpty(es);
    StepAt(es, n - 1);
    if t in At(es, n - 1).db.tasks {
      i := CreatedAs(es, n - 1, t);
      var c := RowMoves(At(es, n - 1), es[n - 1].action, es[n - 1].now, t);
      assert After(At(es, n - 1), es[n - 1]) == Next(At(es, n - 1), es[n - 1].action, es[n - 1].now) by { AfterIsNext(At(es, n - 1), es[n - 1]); }
      ColumnsKept(At(es, n - 1).db.tasks[t], t, c, At(es, n).db.tasks[t], es[i]);
    } else {
      i := n - 1;
      CreatedExactly(At(es, n - 1), es[n - 1], t);
    }
  }

  lemma AfterIsNext(w: World, e: Event)
    ensures After(w, e) == Next(w, e.action, e.now)
  {
  }

  /** A task that needs a human or is not governed, as it was created. */
  predicate Withheld(row: Task) {
    row.state == (if row.human then WaitingHuman else Queued) && row.lease.None? && row.attempts == 0
  }

  predicate Disturbed(w: World, t: Id) {
    t in w.db.tasks && (w.db.tasks[t].human || !w.db.tasks[t].governed) && !Withheld(w.db.tasks[t])
  }

  /** Over any run, a task that needs a human, or is not governed, is never leased, charged or moved. */
  lemma NeverTouched(es: seq<Event>, t: Id)
    requires Legal(EMPTY_STORE, es)
    ensures !Disturbed(Run(EMPTY_STORE, es), t)
  {
    hide Run, Reached, After, Next, Schedulable;
    AtEnd(es);
    StartsEmpty(es);
    if Disturbed(Run(EMPTY_STORE, es), t) {
      var i := TurningPoint(|es|, (j: nat) => j <= |es| && Disturbed(At(es, j), t));
      StepAt(es, i);
      if t in At(es, i).db.tasks { RowStays(At(es, i), es[i], t); } else { CreatedExactly(At(es, i), es[i], t); }
      assert false;
    }
  }

  lemma RowStays(w: World, e: Event, t: Id)
    requires Reached(w) && Allowed(w, e.action, e.now) && !Disturbed(w, t) && t in w.db.tasks
    ensures !Disturbed(After(w, e), t)
  {
    hide Next, Reached, MayClaim, Inv;
    var c := RowMoves(w, e.action, e.now, t);
    WaitsExactly(w, e, t);
  }
}
