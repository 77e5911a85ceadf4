/** The store as an object whose tables are updated in place, one operation at a time. */
module AutonomyStoreObject {
  import opened Basics
  import opened Store
  import opened Ordering

  // ---------------------------------------------------------------- scheduling order

  function SchedulableIds(db: Db): set<Id> { set t | t in db.tasks && Schedulable(db.tasks[t]) }

  /** `ORDER BY priority DESC, created_at ASC, task_id ASC`. */
  predicate Sooner(db: Db, a: Id, b: Id) {
    a in db.tasks && b in db.tasks &&
    var s, t := db.tasks[a], db.tasks[b];
    || s.priority > t.priority
    || (s.priority == t.priority && s.created < t.created)
    || (s.priority == t.priority && s.created == t.created && TextLess(a, b))
  }

  lemma SoonerOrders(db: Db, ids: set<Id>)
    requires ids <= db.tasks.Keys
    ensures StrictOrder((a, b) => Sooner(db, a, b), ids)
  {
    TextOrders(ids);
    forall a, b | a in ids && b in ids && a != b ensures Sooner(db, a, b) || Sooner(db, b, a) {
      TextTotal(a, b);
    }
    forall a, b | a in ids && b in ids && Sooner(db, a, b) ensures !Sooner(db, b, a) {
      if TextLess(a, b) { TextAsymmetric(a, b); }
    }
    forall a, b, c | a in ids && b in ids && c in ids && Sooner(db, a, b) && Sooner(db, b, c) ensures Sooner(db, a, c) {
      if TextLess(a, b) && TextLess(b, c) { TextTransitive(a, b, c); }
    }
  }

  /** `ids` is the batch: the first `limit` schedulable tasks, soonest first. */
  ghost predicate IsBatch(db: Db, limit: nat, ids: seq<Id>) {
    && Elements(ids) <= SchedulableIds(db) && |ids| <= limit
    && (forall i, j :: 0 <= i < j < |ids| ==> Sooner(db, ids[i], ids[j]))
    && (forall t :: t in SchedulableIds(db) && t !in ids ==> |ids| == limit && forall i :: 0 <= i < |ids| ==> Sooner(db, ids[i], t))
  }

  lemma PrefixIsBatch(db: Db, limit: nat, all: seq<Id>)
    requires Ascending(all, (a, b) => Sooner(db, a, b)) && Elements(all) == SchedulableIds(db)
    ensures IsBatch(db, limit, if |all| <= limit then all else all[..limit])
  {
    var ids := if |all| <= limit then all else all[..limit];
    forall x | x in ids ensures x in SchedulableIds(db) { assert x in all; assert x in Elements(all); }
    forall i, j | 0 <= i < j < |ids| ensures Sooner(db, ids[i], ids[j]) {
      assert ids[i] == all[i] && ids[j] == all[j];
    }
    forall t | t in SchedulableIds(db) && t !in ids
      ensures |ids| == limit && forall i :: 0 <= i < |ids| ==> Sooner(db, ids[i], t)
    {
      assert t in Elements(all);
      var k :| 0 <= k < |all| && all[k] == t;
      assert k >= |ids|;
    }
  }

  /** The row waits to be leased, needs no human and is governed. */
  predicate Due(row: Task) {
    (row.state.Queued? || row.state.WaitingCapacity? || row.state.Retrying?) && !row.human && row.governed
  }

  predicate Stands(ids: seq<Id>, a: Id, b: Id) { exists i, j :: 0 <= i < j < |ids| && ids[i] == a && ids[j] == b }

  /** `ids` are due tasks, each once, as many as there are up to `limit`; and of two due tasks, the one of larger
      priority, else the one created earlier, else the one of the smaller id, is listed whenever the other is
      and stands before it. */
  ghost predicate MostUrgent(rows: map<Id, Task>, limit: nat, ids: seq<Id>) {
    && (forall t :: t in ids ==> t in rows && Due(rows[t]))
    && (forall i, j :: 0 <= i < j < |ids| ==> ids[i] != ids[j])
    && |ids| <= limit && (|ids| < limit ==> forall t :: t in rows && Due(rows[t]) ==> t in ids)
    && (forall a, b :: (a in rows && Due(rows[a]) && b in ids && rows[a].priority > rows[b].priority) ==> Stands(ids, a, b))
    && (forall a, b ::
          (a in rows && Due(rows[a]) && b in ids && rows[a].priority == rows[b].priority && rows[a].created < rows[b].created)
          ==> Stands(ids, a, b))
    && (forall a, b ::
          (a in rows && Due(rows[a]) && b in ids && rows[a].priority == rows[b].priority && rows[a].created == rows[b].created
           && TextLess(a, b))
          ==> Stands(ids, a, b))
  }

  lemma SoonerAsymmetric(db: Db, a: Id, b: Id)
    requires Sooner(db, a, b)
    ensures !Sooner(db, b, a)
  {
    if TextLess(a, b) { TextAsymmetric(a, b); }
  }

  lemma SoonerStands(db: Db, limit: nat, ids: seq<Id>, a: Id, b: Id)
    requires IsBatch(db, limit, ids) && a in SchedulableIds(db) && b in ids && Sooner(db, a, b)
    ensures Stands(ids, a, b)
  {
    SoonerAsymmetric(db, a, b);
    hide Sooner;
    var j :| 0 <= j < |ids| && ids[j] == b;
    assert a in ids;
    var i :| 0 <= i < |ids| && ids[i] == a;
    assert i != j;
    assert Stands(ids, ids[i], ids[j]);
  }

  lemma MoreUrgentIsSooner(db: Db, a: Id, b: Id)
    requires a in db.tasks && b in db.tasks
    ensures db.tasks[a].priority > db.tasks[b].priority ==> Sooner(db, a, b)
    ensures db.tasks[a].priority == db.tasks[b].priority && db.tasks[a].created < db.tasks[b].created ==> Sooner(db, a, b)
    ensures db.tasks[a].priority == db.tasks[b].priority && db.tasks[a].created == db.tasks[b].created && TextLess(a, b) ==> Sooner(db, a, b)
  {
  }

  lemma BatchIsMostUrgent(db: Db, limit: nat, ids: seq<Id>)
    requires IsBatch(db, limit, ids)
    ensures MostUrgent(db.tasks, limit, ids)
  {
    hide Sooner, TextLess;
    forall t | t in ids ensures t in db.tasks && Due(db.tasks[t]) { assert t in Elements(ids); }
    forall i, j | 0 <= i < j < |ids| ensures ids[i] != ids[j] {
      assert Sooner(db, ids[i], ids[j]);
      SoonerAsymmetric(db, ids[i], ids[j]);
    }
    forall a, b | a in db.tasks && Due(db.tasks[a]) && b in ids ensures Sooner(db, a, b) ==> Stands(ids, a, b) {
      if Sooner(db, a, b) { SoonerStands(db, limit, ids, a, b); }
    }
    forall a, b | a in db.tasks && b in ids
      ensures db.tasks[a].priority > db.tasks[b].priority ==> Sooner(db, a, b)
      ensures db.tasks[a].priority == db.tasks[b].priority && db.tasks[a].created < db.tasks[b].created ==> Sooner(db, a, b)
      ensures db.tasks[a].priority == db.tasks[b].priority && db.tasks[a].created == db.tasks[b].created && TextLess(a, b) ==> Sooner(db, a, b)
    {
      MoreUrgentIsSooner(db, a, b);
    }
  }

  // ---------------------------------------------------------------- lists of rows

  function ExpiredTasks(db: Db, now: Time): set<Id> {
    set t | t in db.tasks && OnLease(db.tasks[t].state) && Expired(db.tasks[t], now)
  }

  lemma ChargeNone(db: Db)
    ensures ChargeAll(db, {}) == db
  {
    assert ChargeAll(db, {}).tasks == db.tasks;
  }

  lemma ChargeOneMore(db: Db, ids: set<Id>, t: Id)
    requires t in db.tasks && t !in ids
    ensures ChargeAll(db, ids).tasks[t] == db.tasks[t]
    ensures var d := ChargeAll(db, ids);
      ChargeAll(db, ids + {t}) == d.(tasks := d.tasks[t := Charged(d.tasks[t])])
  {
    var d := ChargeAll(db, ids);
    assert ChargeAll(db, ids + {t}).tasks == d.tasks[t := Charged(d.tasks[t])];
  }

  // ---------------------------------------------------------------- the object

  class AutonomyStore {
    var tasks: map<Id, Task>
    var workers: map<Id, Worker>
    var evidence: map<EvidenceKey, Digest>

    constructor ()
      ensures Tables() == Db(map[], map[], map[])
    {
      tasks, workers, evidence := map[], map[], map[];
    }

    function Tables(): Db reads this { Db(tasks, workers, evidence) }

    method AddTask(id: Id, directive: Option<Id>, target: Id, capability: Id, priority: int,
                   human: bool, governed: bool, budget: int, now: Time) returns (r: Answer<()>)
      modifies this`tasks
      ensures Reply(Tables(), r) == CreateTask(old(Tables()), id, directive, target, capability, priority, human, governed, budget, now)
    {
      if now < 0.0 { return Blocked(InvalidClock); }
      if budget < 0 || budget > MAX_RETRY { return Blocked(InvalidBudget); }
      if directive.Some? && HasDirective(Tables(), directive.value) {
        return if SameIdentity(Tables(), id, directive.value, target, capability) then Done(()) else Blocked(IdentityConflict);
      }
      if id in tasks { return Blocked(DuplicateTask); }
      tasks := tasks[id := NewTask(directive, target, capability, priority, human, governed, budget, now)];
      r := Done(());
    }

    method Register(worker: Id, kind: Id, capabilities: set<Id>, targets: set<Id>, sla: Time, capacity: int, now: Time)
      returns (r: Answer<()>)
      modifies this`workers
      ensures Reply(Tables(), r) == RegisterWorker(old(Tables()), worker, kind, capabilities, targets, sla, capacity, now)
    {
      if now < 0.0 { return Blocked(InvalidClock); }
      if sla <= 0.0 || capacity < 0 { return Blocked(InvalidWorker); }
      workers := workers[worker := Worker(kind, capabilities, targets, now, sla, capacity)];
      r := Done(());
    }

    method Heartbeat(worker: Id, capacity: int, now: Time, observed: Time) returns (r: Answer<()>)
      modifies this`workers
      ensures Reply(Tables(), r) == HeartbeatWithCapacity(old(Tables()), worker, capacity, now, observed)
    {
      if now < 0.0 || observed < 0.0 { return Blocked(InvalidClock); }
      if observed > now + 1.0 || capacity < 0 { return Blocked(InvalidHeartbeat); }
      if worker !in workers { return Blocked(UnknownWorker); }
      workers := workers[worker := workers[worker].(heartbeat := observed, capacity := capacity)];
      r := Done(());
    }

    method ClaimTask(task: Id, worker: Id, lease: Id, seconds: Time, now: Time) returns (r: Answer<Lease>)
      modifies this`tasks
      ensures Reply(Tables(), r) == Claim(old(Tables()), task, worker, lease, seconds, now)
    {
      if now < 0.0 { return Blocked(InvalidClock); }
      if seconds <= 0.0 { return Blocked(InvalidDuration); }
      if task !in tasks || worker !in workers { return Blocked(NotLeaseable); }
      var t, w := tasks[task], workers[worker];
      if !Leaseable(t.state) || t.human || !t.governed { return Blocked(NotLeaseable); }
      if !Fresh(w, now) { return Blocked(StaleWorker); }
      if t.capability !in w.capabilities || t.target !in w.targets { return Blocked(IncompatibleWorker); }
      if |Active(Tables(), worker, now)| >= w.capacity { return Blocked(CapacityExhausted); }
      var l := Lease(worker, lease, now + seconds);
      tasks := tasks[task := t.(state := Leased, lease := Some(l))];
      r := Done(l);
    }

    method RenewLease(task: Id, worker: Id, lease: Id, seconds: Time, now: Time) returns (r: Answer<Time>)
      modifies this`tasks
      ensures Reply(Tables(), r) == Renew(old(Tables()), task, worker, lease, seconds, now)
    {
      if now < 0.0 { return Blocked(InvalidClock); }
      if task !in tasks { return Blocked(InvalidLeaseOwner); }
      var t := tasks[task];
      if !HeldBy(t, worker, lease) || !OnLease(t.state) || !Unexpired(t, now) { return Blocked(InvalidLeaseOwner); }
      tasks := tasks[task := t.(lease := Some(t.lease.value.(expires := now + seconds)))];
      r := Done(now + seconds);
    }

    method StartTask(task: Id, worker: Id, lease: Id, now: Time) returns (r: Answer<()>)
      modifies this`tasks
      ensures Reply(Tables(), r) == Start(old(Tables()), task, worker, lease, now)
    {
      if now < 0.0 { return Blocked(InvalidClock); }
      if worker !in workers || !Fresh(workers[worker], now) || task !in tasks { return Blocked(CannotRun); }
      var t := tasks[task];
      if !t.state.Leased? || !HeldBy(t, worker, lease) || !Unexpired(t, now) { return Blocked(CannotRun); }
      tasks := tasks[task := t.(state := Running)];
      r := Done(());
    }

    method Reclaim(task: Id, now: Time) returns (r: Answer<()>)
      modifies this`tasks
      ensures Reply(Tables(), r) == ReclaimExpired(old(Tables()), task, now)
    {
      if now < 0.0 { return Blocked(InvalidClock); }
      if task !in tasks || !OnLease(tasks[task].state) || !Expired(tasks[task], now) { return Blocked(NotReclaimable); }
      tasks := tasks[task := Charged(tasks[task])];
      r := Done(());
    }

    /** Select the RUNNING tasks with a stale owner, then charge them row by row. */
    method ReconcileStale(now: Time) returns (r: Answer<seq<Id>>)
      modifies this`tasks
      ensures Tables() == ReconcileStaleWorkers(old(Tables()), now).db
      ensures if now < 0.0 then r == Blocked(InvalidClock)
              else r.Done? && Ascending(r.value, TextLess) && Elements(r.value) == StaleTasks(old(Tables()), now)
    {
      if now < 0.0 { return Blocked(InvalidClock); }
      TextOrders(StaleTasks(Tables(), now));
      var rows := Sorted(StaleTasks(Tables(), now), TextLess);
      ChargeNone(Tables());
      for i := 0 to |rows|
        invariant Tables() == ChargeAll(old(Tables()), Elements(rows[..i]))
      {
        AscendingFresh(rows, i);
        assert rows[i] in Elements(rows);
        ChargeOneMore(old(Tables()), Elements(rows[..i]), rows[i]);
        tasks := tasks[rows[i] := Charged(tasks[rows[i]])];
      }
      assert rows[..|rows|] == rows;
      r := Done(rows);
    }

    method Fail(task: Id, worker: Id, lease: Id, now: Time) returns (r: Answer<()>)
      modifies this`tasks
      ensures Reply(Tables(), r) == FailAttempt(old(Tables()), task, worker, lease, now)
    {
      if now < 0.0 { return Blocked(InvalidClock); }
      if task !in tasks { return Blocked(UnknownTask); }
      if !OnLease(tasks[task].state) || !HeldBy(tasks[task], worker, lease) { return Blocked(InvalidReporter); }
      tasks := tasks[task := Charged(tasks[task])];
      r := Done(());
    }

    method Submit(task: Id, worker: Id, lease: Id, id: Id, digest: Option<Digest>, now: Time) returns (r: Answer<()>)
      modifies this`tasks, this`evidence
      ensures Reply(Tables(), r) == SubmitResult(old(Tables()), task, worker, lease, id, digest, now)
    {
      if now < 0.0 { return Blocked(InvalidClock); }
      if task !in tasks || worker !in workers { return Blocked(InvalidResultOwner); }
      var t := tasks[task];
      if !(OnLease(t.state) || t.state.EvidencePending?) || !HeldBy(t, worker, lease) || !Unexpired(t, now)
         || !Fresh(workers[worker], now) { return Blocked(InvalidResultOwner); }
      if digest.None? {
        tasks := tasks[task := t.(state := EvidencePending, evidence := MissingOrInvalid)];
        return Blocked(EvidenceRequired);
      }
      if EvidenceKey(task, id) in evidence || StoredFor(Tables(), task, digest.value) { return Blocked(DuplicateEvidence); }
      evidence := evidence[EvidenceKey(task, id) := digest.value];
      tasks := tasks[task := t.(state := ReviewPending, evidence := Received)];
      r := Done(());
    }

    method CompleteReviewed(task: Id, valid: bool, now: Time) returns (r: Answer<()>)
      modifies this`tasks
      ensures Reply(Tables(), r) == CompleteAfterReview(old(Tables()), task, valid, now)
    {
      if now < 0.0 { return Blocked(InvalidClock); }
      if task !in tasks { return Blocked(UnknownTask); }
      var t := tasks[task];
      if !t.state.ReviewPending? || !t.evidence.Received? || !valid { return Blocked(ReviewRequired); }
      tasks := tasks[task := t.(state := Completed, evidence := Valid, lease := None)];
      r := Done(());
    }

    method WaitForCapacity(task: Id, now: Time) returns (r: Answer<()>)
      modifies this`tasks
      ensures Reply(Tables(), r) == MarkWaitingCapacity(old(Tables()), task, now)
    {
      if now < 0.0 { return Blocked(InvalidClock); }
      if task !in tasks || !Schedulable(tasks[task]) { return Blocked(CannotWait); }
      tasks := tasks[task := tasks[task].(state := WaitingCapacity)];
      r := Done(());
    }

    /** The first registered worker, by id, that can take the task. */
    method FirstAble(task: Id, now: Time) returns (found: Option<Id>)
      requires task in tasks
      ensures found.Some? ==>
        && found.value in workers && CanTake(Tables(), found.value, tasks[task], now)
        && forall w :: w in workers && TextLess(w, found.value) ==> !CanTake(Tables(), w, tasks[task], now)
      ensures found.None? ==> forall w :: w in workers ==> !CanTake(Tables(), w, tasks[task], now)
    {
      var t := tasks[task];
      TextOrders(workers.Keys);
      var ids := Sorted(workers.Keys, TextLess);
      for i := 0 to |ids|
        invariant forall j :: 0 <= j < i ==> ids[j] in workers && !CanTake(Tables(), ids[j], t, now)
      {
        assert ids[i] in Elements(ids);
        if CanTake(Tables(), ids[i], t, now) {
          EarlierOnly(ids, i, workers.Keys);
          return Some(ids[i]);
        }
      }
      forall w | w in workers ensures !CanTake(Tables(), w, t, now) { assert w in Elements(ids); }
      found := None;
    }

    /** Route the task to a worker, or make it wait whatever its state. */
    method RouteOrPark(task: Id, now: Time) returns (r: Answer<bool>, worker: Option<Id>)
      modifies this`tasks
      ensures Reply(Tables(), r) == RouteOrWait(old(Tables()), task, now)
      ensures r == Done(true) <==> worker.Some?
      ensures worker.Some? ==> worker.value in workers && CanTake(Tables(), worker.value, tasks[task], now)
    {
      worker := None;
      if now < 0.0 { return Blocked(InvalidClock), None; }
      if task !in tasks { return Blocked(UnknownTask), None; }
      var t := tasks[task];
      if t.state.Completed? || t.state.DeadLetter? || t.state.WaitingHuman? || !t.governed { return Blocked(RoutingProhibited), None; }
      worker := FirstAble(task, now);
      if worker.Some? { return Done(true), worker; }
      tasks := tasks[task := t.(state := WaitingCapacity)];
      r := Done(false);
    }

    method SchedulableTasks(limit: int) returns (r: Option<seq<Id>>)
      ensures if limit <= 0 then r.None? else r.Some? && IsBatch(Tables(), limit, r.value) && MostUrgent(tasks, limit, r.value)
    {
      if limit <= 0 { return None; }
      SoonerOrders(Tables(), SchedulableIds(Tables()));
      var db := Tables();
      var all := Sorted(SchedulableIds(db), (a, b) => Sooner(db, a, b));
      PrefixIsBatch(db, limit, all);
      BatchIsMostUrgent(db, limit, if |all| <= limit then all else all[..limit]);
      r := Some(if |all| <= limit then all else all[..limit]);
    }

    method ExpiredLeaseTasks(now: Time) returns (ids: seq<Id>)
      ensures Ascending(ids, TextLess) && Elements(ids) == ExpiredTasks(Tables(), now)
    {
      TextOrders(ExpiredTasks(Tables(), now));
      ids := Sorted(ExpiredTasks(Tables(), now), TextLess);
    }
  }

  lemma AscendingFresh(rows: seq<Id>, i: nat)
    requires Ascending(rows, TextLess) && i < |rows|
    ensures rows[i] !in Elements(rows[..i]) && Elements(rows[..i + 1]) == Elements(rows[..i]) + {rows[i]}
  {
    forall j | 0 <= j < i ensures rows[j] != rows[i] { TextAsymmetric(rows[j], rows[i]); }
    assert rows[..i + 1] == rows[..i] + [rows[i]];
  }

  /** In an ascending list, what is below entry `i` stands before it. */
  lemma EarlierOnly(ids: seq<Id>, i: nat, all: set<Id>)
    requires Ascending(ids, TextLess) && Elements(ids) == all && i < |ids|
    ensures forall w :: w in all && TextLess(w, ids[i]) ==> exists j :: 0 <= j < i && ids[j] == w
  {
    forall w | w in all && TextLess(w, ids[i]) ensures exists j :: 0 <= j < i && ids[j] == w {
      assert w in Elements(ids);
      var j :| 0 <= j < |ids| && ids[j] == w;
      TextAsymmetric(w, ids[i]);
    }
  }
}
