/** The task, worker and evidence tables of the autonomy store and the operations on
    them. Every operation is one atomic step: it answers, and gives the tables after it. */
module Store {
  import opened Basics

  type Time = real

  datatype TaskState =
    | Queued | WaitingHuman | WaitingCapacity | Retrying
    | Leased | Running | EvidencePending | ReviewPending
    | Completed | DeadLetter

  datatype EvidenceStatus = NoEvidence | MissingOrInvalid | Received | Valid

  /** `assigned_worker_id`, `lease_id` and `lease_expires_at`, which are always set and
      cleared together. */
  datatype Lease = Lease(worker: Id, id: Id, expires: Time)

  datatype Task = Task(
    directive: Option<Id>, target: Id, capability: Id, state: TaskState,
    priority: int, created: Time, human: bool, governed: bool,
    attempts: nat, budget: nat, lease: Option<Lease>, evidence: EvidenceStatus)

  datatype Worker = Worker(
    kind: Id, capabilities: set<Id>, targets: set<Id>,
    heartbeat: Time, sla: Time, capacity: nat)

  datatype EvidenceKey = EvidenceKey(task: Id, evidence: Id)

  datatype Db = Db(
    tasks: map<Id, Task>, workers: map<Id, Worker>, evidence: map<EvidenceKey, Digest>)

  datatype Refusal =
    | InvalidClock | InvalidBudget | IdentityConflict | DuplicateTask | InvalidWorker
    | InvalidHeartbeat | UnknownWorker | UnknownTask | InvalidDuration | NotLeaseable | StaleWorker
    | IncompatibleWorker | CapacityExhausted | InvalidLeaseOwner | CannotRun | NotReclaimable
    | InvalidReporter | InvalidResultOwner | EvidenceRequired | DuplicateEvidence
    | ReviewRequired | RoutingProhibited | CannotWait

  datatype Answer<+T> = Done(value: T) | Blocked(why: Refusal)

  datatype Reply<+T> = Reply(db: Db, answer: Answer<T>)

  const MAX_RETRY := 1_000_000

  // ---------------------------------------------------------------- row predicates

  predicate Leaseable(s: TaskState) { s.Queued? || s.WaitingCapacity? || s.Retrying? }

  predicate OnLease(s: TaskState) { s.Leased? || s.Running? }

  /** States reached only through a claim whose attempt has not been charged. */
  predicate Claimed(s: TaskState) {
    s.Leased? || s.Running? || s.EvidencePending? || s.ReviewPending? || s.Completed?
  }

  predicate Reviewed(s: TaskState) { s.ReviewPending? || s.Completed? }

  predicate Fresh(w: Worker, now: Time) { now - w.heartbeat <= w.sla && w.heartbeat <= now + 1.0 }

  predicate HeldBy(t: Task, worker: Id, lease: Id) {
    t.lease.Some? && t.lease.value.worker == worker && t.lease.value.id == lease
  }

  predicate Unexpired(t: Task, now: Time) { t.lease.Some? && t.lease.value.expires > now }

  predicate Expired(t: Task, now: Time) { t.lease.Some? && t.lease.value.expires <= now }

  /** The task occupies one unit of the worker's capacity. */
  predicate Occupies(t: Task, worker: Id, now: Time) {
    OnLease(t.state) && t.lease.Some? && t.lease.value.worker == worker && t.lease.value.expires > now
  }

  function Active(db: Db, worker: Id, now: Time): set<Id> {
    set t | t in db.tasks && Occupies(db.tasks[t], worker, now)
  }

  /** The attempt is charged: back to retry, or to the dead letter once the budget is spent. */
  function Charged(t: Task): Task {
    t.(attempts := t.attempts + 1,
       state := if t.attempts + 1 > t.budget then DeadLetter else Retrying,
       lease := None)
  }

  // ---------------------------------------------------------------- task creation, workers

  function NewTask(directive: Option<Id>, target: Id, capability: Id, priority: int,
                   human: bool, governed: bool, budget: nat, now: Time): Task {
    Task(directive, target, capability, if human then WaitingHuman else Queued,
         priority, now, human, governed, 0, budget, None, NoEvidence)
  }

  predicate HasDirective(db: Db, directive: Id) {
    exists t :: t in db.tasks && db.tasks[t].directive == Some(directive)
  }

  predicate SameIdentity(db: Db, id: Id, directive: Id, target: Id, capability: Id) {
    id in db.tasks && db.tasks[id].directive == Some(directive)
    && db.tasks[id].target == target && db.tasks[id].capability == capability
  }

  function CreateTask(db: Db, id: Id, directive: Option<Id>, target: Id, capability: Id,
                      priority: int, human: bool, governed: bool, budget: int, now: Time): Reply<()> {
    if now < 0.0 then Reply(db, Blocked(InvalidClock))
    else if budget < 0 || budget > MAX_RETRY then Reply(db, Blocked(InvalidBudget))
    else if directive.Some? && HasDirective(db, directive.value) then
      if SameIdentity(db, id, directive.value, target, capability) then Reply(db, Done(()))
      else Reply(db, Blocked(IdentityConflict))
    else if id in db.tasks then Reply(db, Blocked(DuplicateTask))
    else
      var t := NewTask(directive, target, capability, priority, human, governed, budget, now);
      Reply(db.(tasks := db.tasks[id := t]), Done(()))
  }

  function RegisterWorker(db: Db, worker: Id, kind: Id, capabilities: set<Id>, targets: set<Id>,
                          sla: Time, capacity: int, now: Time): Reply<()> {
    if now < 0.0 then Reply(db, Blocked(InvalidClock))
    else if sla <= 0.0 || capacity < 0 then Reply(db, Blocked(InvalidWorker))
    else
      var w := Worker(kind, capabilities, targets, now, sla, capacity);
      Reply(db.(workers := db.workers[worker := w]), Done(()))
  }

  function HeartbeatWithCapacity(db: Db, worker: Id, capacity: int, now: Time, observed: Time): Reply<()> {
    if now < 0.0 || observed < 0.0 then Reply(db, Blocked(InvalidClock))
    else if observed > now + 1.0 || capacity < 0 then Reply(db, Blocked(InvalidHeartbeat))
    else if worker !in db.workers then Reply(db, Blocked(UnknownWorker))
    else
      var w := db.workers[worker].(heartbeat := observed, capacity := capacity);
      Reply(db.(workers := db.workers[worker := w]), Done(()))
  }

  // ---------------------------------------------------------------- leases

  function Claim(db: Db, task: Id, worker: Id, lease: Id, seconds: Time, now: Time): Reply<Lease> {
    if now < 0.0 then Reply(db, Blocked(InvalidClock))
    else if seconds <= 0.0 then Reply(db, Blocked(InvalidDuration))
    else if task !in db.tasks || worker !in db.workers || !Leaseable(db.tasks[task].state)
            || db.tasks[task].human || !db.tasks[task].governed then Reply(db, Blocked(NotLeaseable))
    else if !Fresh(db.workers[worker], now) then Reply(db, Blocked(StaleWorker))
    else if db.tasks[task].capability !in db.workers[worker].capabilities
            || db.tasks[task].target !in db.workers[worker].targets then Reply(db, Blocked(IncompatibleWorker))
    else if |Active(db, worker, now)| >= db.workers[worker].capacity then Reply(db, Blocked(CapacityExhausted))
    else
      var l := Lease(worker, lease, now + seconds);
      Reply(db.(tasks := db.tasks[task := db.tasks[task].(state := Leased, lease := Some(l))]), Done(l))
  }

  function Renew(db: Db, task: Id, worker: Id, lease: Id, seconds: Time, now: Time): Reply<Time> {
    if now < 0.0 then Reply(db, Blocked(InvalidClock))
    else if task !in db.tasks || !HeldBy(db.tasks[task], worker, lease)
            || !OnLease(db.tasks[task].state) || !Unexpired(db.tasks[task], now) then Reply(db, Blocked(InvalidLeaseOwner))
    else
      var l := Lease(worker, lease, now + seconds);
      Reply(db.(tasks := db.tasks[task := db.tasks[task].(lease := Some(l))]), Done(now + seconds))
  }

  /** `start` and `start_with_ack`: they differ only in the audit rows they add. */
  function Start(db: Db, task: Id, worker: Id, lease: Id, now: Time): Reply<()> {
    if now < 0.0 then Reply(db, Blocked(InvalidClock))
    else if worker !in db.workers || !Fresh(db.workers[worker], now) then Reply(db, Blocked(CannotRun))
    else if task !in db.tasks || !db.tasks[task].state.Leased? || !HeldBy(db.tasks[task], worker, lease)
            || !Unexpired(db.tasks[task], now) then Reply(db, Blocked(CannotRun))
    else Reply(db.(tasks := db.tasks[task := db.tasks[task].(state := Running)]), Done(()))
  }

  function ReclaimExpired(db: Db, task: Id, now: Time): Reply<()> {
    if now < 0.0 then Reply(db, Blocked(InvalidClock))
    else if task !in db.tasks || !OnLease(db.tasks[task].state) || !Expired(db.tasks[task], now) then
      Reply(db, Blocked(NotReclaimable))
    else Reply(db.(tasks := db.tasks[task := Charged(db.tasks[task])]), Done(()))
  }

  /** A RUNNING task whose registered owner has no fresh heartbeat. */
  predicate StaleOwner(db: Db, t: Task, now: Time) {
    t.state.Running? && t.lease.Some? && t.lease.value.worker in db.workers
    && !Fresh(db.workers[t.lease.value.worker], now)
  }

  function StaleTasks(db: Db, now: Time): set<Id> {
    set t | t in db.tasks && StaleOwner(db, db.tasks[t], now)
  }

  /** The tables with every task of `ids` charged one attempt. */
  function ChargeAll(db: Db, ids: set<Id>): Db {
    db.(tasks := map t | t in db.tasks :: if t in ids then Charged(db.tasks[t]) else db.tasks[t])
  }

  function ReconcileStaleWorkers(db: Db, now: Time): Reply<set<Id>> {
    if now < 0.0 then Reply(db, Blocked(InvalidClock))
    else Reply(ChargeAll(db, StaleTasks(db, now)), Done(StaleTasks(db, now)))
  }

  function FailAttempt(db: Db, task: Id, worker: Id, lease: Id, now: Time): Reply<()> {
    if now < 0.0 then Reply(db, Blocked(InvalidClock))
    else if task !in db.tasks then Reply(db, Blocked(UnknownTask))
    else if !OnLease(db.tasks[task].state) || !HeldBy(db.tasks[task], worker, lease) then
      Reply(db, Blocked(InvalidReporter))
    else Reply(db.(tasks := db.tasks[task := Charged(db.tasks[task])]), Done(()))
  }

  // ---------------------------------------------------------------- results and review

  /** `digest` is `None` when the submitted evidence id is empty or the hash is not 64 hex digits. */
  function SubmitResult(db: Db, task: Id, worker: Id, lease: Id, evidence: Id,
                        digest: Option<Digest>, now: Time): Reply<()> {
    if now < 0.0 then Reply(db, Blocked(InvalidClock))
    else if task !in db.tasks || worker !in db.workers
            || !(OnLease(db.tasks[task].state) || db.tasks[task].state.EvidencePending?)
            || !HeldBy(db.tasks[task], worker, lease) || !Unexpired(db.tasks[task], now)
            || !Fresh(db.workers[worker], now) then Reply(db, Blocked(InvalidResultOwner))
    else if digest.None? then
      var t := db.tasks[task].(state := EvidencePending, evidence := MissingOrInvalid);
      Reply(db.(tasks := db.tasks[task := t]), Blocked(EvidenceRequired))
    else if EvidenceKey(task, evidence) in db.evidence || StoredFor(db, task, digest.value) then
      Reply(db, Blocked(DuplicateEvidence))
    else
      var t := db.tasks[task].(state := ReviewPending, evidence := Received);
      Reply(db.(tasks := db.tasks[task := t],
                evidence := db.evidence[EvidenceKey(task, evidence) := digest.value]), Done(()))
  }

  predicate StoredFor(db: Db, task: Id, digest: Digest) {
    exists k :: k in db.evidence && k.task == task && db.evidence[k] == digest
  }

  /** The task update a governed file transaction makes when it commits. */
  function AcceptExecution(db: Db, task: Id): Reply<()> {
    if task !in db.tasks || !db.tasks[task].state.Running? then Reply(db, Blocked(UnknownTask))
    else
      var t := db.tasks[task].(state := ReviewPending, evidence := Received);
      Reply(db.(tasks := db.tasks[task := t]), Done(()))
  }

  function CompleteAfterReview(db: Db, task: Id, evidenceValid: bool, now: Time): Reply<()> {
    if now < 0.0 then Reply(db, Blocked(InvalidClock))
    else if task !in db.tasks then Reply(db, Blocked(UnknownTask))
    else if !db.tasks[task].state.ReviewPending? || !db.tasks[task].evidence.Received? || !evidenceValid then
      Reply(db, Blocked(ReviewRequired))
    else
      var t := db.tasks[task].(state := Completed, evidence := Valid, lease := None);
      Reply(db.(tasks := db.tasks[task := t]), Done(()))
  }

  // ---------------------------------------------------------------- waiting for capacity

  function MarkWaitingCapacity(db: Db, task: Id, now: Time): Reply<()> {
    if now < 0.0 then Reply(db, Blocked(InvalidClock))
    else if task !in db.tasks || !Schedulable(db.tasks[task]) then Reply(db, Blocked(CannotWait))
    else Reply(db.(tasks := db.tasks[task := db.tasks[task].(state := WaitingCapacity)]), Done(()))
  }

  predicate Schedulable(t: Task) { Leaseable(t.state) && !t.human && t.governed }

  predicate CanTake(db: Db, worker: Id, t: Task, now: Time)
    requires worker in db.workers
  {
    var w := db.workers[worker];
    Fresh(w, now) && |Active(db, worker, now)| < w.capacity
    && t.capability in w.capabilities && t.target in w.targets
  }

  /** `route_or_wait` when no registered worker can take the task. Its UPDATE has no guard on
      the task's state beyond the check made before it. */
  function RouteOrWait(db: Db, task: Id, now: Time): Reply<bool> {
    if now < 0.0 then Reply(db, Blocked(InvalidClock))
    else if task !in db.tasks then Reply(db, Blocked(UnknownTask))
    else if db.tasks[task].state.Completed? || db.tasks[task].state.DeadLetter?
            || db.tasks[task].state.WaitingHuman? || !db.tasks[task].governed then Reply(db, Blocked(RoutingProhibited))
    else if exists w :: w in db.workers && CanTake(db, w, db.tasks[task], now) then Reply(db, Done(true))
    else Reply(db.(tasks := db.tasks[task := db.tasks[task].(state := WaitingCapacity)]), Done(false))
  }
}
