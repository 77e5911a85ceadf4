/** `Supervisor.reconcile`: stale owners first, then expired leases. */
module SupervisorObject {
  import opened Basics
  import opened Store
  import opened Ordering
  import opened AutonomyStoreObject
  import StoreRuns
  import Rows = StoreHistory

  function ExpiredOrStale(db: Db, now: Time): set<Id> { StaleTasks(db, now) + ExpiredTasks(db, now) }

  /** The tables after one pass: every task that was stale or expired is charged once. */
  function Reconciled(db: Db, now: Time): Db { ChargeAll(db, ExpiredOrStale(db, now)) }

  /** The lease of a leased or running task has expired, or its task runs and its registered worker has no fresh
      heartbeat. */
  predicate Overdue(db: Db, t: Id, now: Time) {
    && t in db.tasks && db.tasks[t].lease.Some?
    && (|| ((db.tasks[t].state.Leased? || db.tasks[t].state.Running?) && db.tasks[t].lease.value.expires <= now)
        || (&& db.tasks[t].state.Running? && db.tasks[t].lease.value.worker in db.workers
            && !Rows.Beats(db, db.tasks[t].lease.value.worker, now)))
  }

  lemma OverdueExactly(db: Db, t: Id, now: Time)
    ensures t in StaleTasks(db, now) + ExpiredTasks(db, now) <==> Overdue(db, t, now)
  {
  }

  /** A pass takes the lease of every overdue task, counts one attempt, and sends it to retry or, with its budget
      spent, to the dead letter; it leaves every other row alone. */
  lemma ReconciledExactly(db: Db, now: Time, t: Id)
    requires t in db.tasks
    ensures var e := Reconciled(db, now);
      t in e.tasks && e.tasks[t] == if Overdue(db, t, now) then Rows.Spent(db.tasks[t]) else db.tasks[t]
  {
    hide Overdue;
    OverdueExactly(db, t, now);
  }

  class Supervisor {
    const store: AutonomyStore

    constructor (store: AutonomyStore)
      ensures this.store == store
    {
      this.store := store;
    }

    /** The expired leases left after the stale owners were dealt with. */
    method ReclaimAll(now: Time, stale: set<Id>, ghost db: Db) returns (changed: set<Id>)
      requires now >= 0.0 && stale == StaleTasks(db, now) && store.Tables() == ChargeAll(db, stale)
      modifies store
      ensures store.Tables() == Reconciled(db, now) && changed == stale + ExpiredTasks(db, now)
    {
      ExpiredAfterStale(db, now);
      var expired := store.ExpiredLeaseTasks(now);
      changed := stale;
      for i := 0 to |expired|
        invariant store.Tables() == ChargeAll(db, changed)
        invariant changed == stale + Elements(expired[..i])
      {
        AscendingFresh(expired, i);
        assert expired[i] in Elements(expired);
        ChargeOneMore(db, changed, expired[i]);
        var a := store.Reclaim(expired[i], now);
        if a.Done? { changed := changed + {expired[i]}; }
      }
      assert expired[..|expired|] == expired;
      assert changed == stale + ExpiredTasks(db, now);
    }

    /** One pass; it answers the tasks it charged, in order of their ids. */
    method Reconcile(now: Time) returns (r: Answer<seq<Id>>)
      modifies store
      ensures if now < 0.0 then r == Blocked(InvalidClock) && store.Tables() == old(store.Tables())
              else && r.Done? && store.Tables() == Reconciled(old(store.Tables()), now)
                   && Ascending(r.value, TextLess)
                   && (forall t :: t in r.value <==> Overdue(old(store.Tables()), t, now))
    {
      if now < 0.0 { return Blocked(InvalidClock); }
      var stale := store.ReconcileStale(now);
      var changed := ReclaimAll(now, Elements(stale.value), old(store.Tables()));
      TextOrders(changed);
      var ids := Sorted(changed, TextLess);
      forall t ensures t in ids <==> Overdue(old(store.Tables()), t, now) {
        OverdueExactly(old(store.Tables()), t, now);
        assert t in ids <==> t in Elements(ids);
      }
      r := Done(ids);
    }
  }

  /** Charging the stale tasks takes them, and only them, out of the expired ones. */
  lemma ExpiredAfterStale(db: Db, now: Time)
    ensures ExpiredTasks(ChargeAll(db, StaleTasks(db, now)), now) == ExpiredTasks(db, now) - StaleTasks(db, now)
  {
  }

  /** A pass charges a task at most one attempt, and changes no task that was neither expired nor
      running under a stale owner. */
  lemma ChargesAtMostOnce(db: Db, now: Time, t: Id)
    requires t in db.tasks
    ensures var e := Reconciled(db, now);
      && e.tasks.Keys == db.tasks.Keys && e.workers == db.workers && e.evidence == db.evidence
      && db.tasks[t].attempts <= e.tasks[t].attempts <= db.tasks[t].attempts + 1
      && (e.tasks[t] != db.tasks[t] <==> t in StaleTasks(db, now) || t in ExpiredTasks(db, now))
  {
    assert Charged(db.tasks[t]).attempts != db.tasks[t].attempts;
  }

  /** After a pass no lease is expired and no task runs under a stale owner. */
  lemma NothingOverdue(db: Db, now: Time)
    ensures ExpiredTasks(Reconciled(db, now), now) == {} && StaleTasks(Reconciled(db, now), now) == {}
  {
    var e := Reconciled(db, now);
    forall t | t in e.tasks ensures t !in ExpiredTasks(e, now) && t !in StaleTasks(e, now) {
      if t in StaleTasks(db, now) + ExpiredTasks(db, now) { assert e.tasks[t] == Charged(db.tasks[t]); }
    }
  }

  /** A second pass at the same clock changes nothing. */
  lemma ReconcileIdempotent(db: Db, now: Time)
    ensures Reconciled(Reconciled(db, now), now) == Reconciled(db, now)
  {
    NothingOverdue(db, now);
    ChargeNone(Reconciled(db, now));
  }

  /** A pass keeps the accounting, lease and capacity invariants of the store. */
  lemma ReconcileKeepsInv(w: StoreRuns.World, now: Time)
    requires StoreRuns.Inv(w) && w.clock <= now
    ensures StoreRuns.Inv(w.(db := Reconciled(w.db, now), clock := now))
  {
    var w2 := w.(db := Reconciled(w.db, now), clock := now);
    var c := StoreRuns.ChargedRows(StaleTasks(w.db, now) + ExpiredTasks(w.db, now));
    assert StoreRuns.Explains(c, w, w2);
    StoreRuns.RowsKept(w, w2, c);
    StoreRuns.CapacityKept(w, w2, c);
  }
}
