/** Three operations of the store read a task and update it later without a transaction or a guard:
    `fail_attempt`, `complete_after_review` and, once it has listed the stale tasks,
    `reconcile_stale_workers`. Here the update comes after anything others did since the reading, and
    the lemmas say exactly when it does no harm. */
module LateWrites {
  import opened Basics
  import opened Store
  import opened ExecutionRecords
  import Execution
  import StoreRuns

  // ---------------------------------------------------------------- charging an attempt

  /** The update of a task read as `seen`: the count comes from the reading, the row is found by its id
      alone. */
  function LateCharge(db: Db, t: Id, seen: Task): Db
    requires t in db.tasks
  {
    var state := if seen.attempts + 1 > seen.budget then DeadLetter else Retrying;
    db.(tasks := db.tasks[t := db.tasks[t].(attempts := seen.attempts + 1, state := state, lease := None)])
  }

  /** With nothing in between it is the failed attempt. */
  lemma PromptCharge(db: Db, t: Id, worker: Id, lease: Id, now: Time)
    requires FailAttempt(db, t, worker, lease, now).answer.Done?
    ensures FailAttempt(db, t, worker, lease, now).db == LateCharge(db, t, db.tasks[t])
  {
  }

  /** A late charge keeps the rows in order exactly when the reading had budget left and the row now
      stands for one claim more than the attempts read: the claim is still the one that was read, or it
      has been charged by somebody else and not been claimed again. */
  lemma LateChargeExactly(w: StoreRuns.World, t: Id, seen: Task)
    requires StoreRuns.RowsOk(w) && t in w.db.tasks && seen.budget == w.db.tasks[t].budget
    ensures StoreRuns.RowsOk(w.(db := LateCharge(w.db, t, seen))) <==>
      && seen.attempts <= seen.budget
      && w.db.tasks[t].attempts + (if Claimed(w.db.tasks[t].state) then 1 else 0) == seen.attempts + 1
  {
    var w2 := w.(db := LateCharge(w.db, t, seen));
    assert StoreRuns.TaskOk(w.db.tasks[t], w.claims[t]);
    var fine := seen.attempts <= seen.budget
      && w.db.tasks[t].attempts + (if Claimed(w.db.tasks[t].state) then 1 else 0) == seen.attempts + 1;
    assert StoreRuns.TaskOk(w2.db.tasks[t], w2.claims[t]) <==> fine;
    if fine {
      forall k | k in w2.db.tasks ensures StoreRuns.TaskOk(w2.db.tasks[k], w2.claims[k]) {
        assert k != t ==> StoreRuns.TaskOk(w.db.tasks[k], w.claims[k]);
      }
    }
  }

  ghost predicate SameBudget(w: StoreRuns.World, w2: StoreRuns.World, t: Id) {
    t in w.db.tasks && t in w2.db.tasks && w2.db.tasks[t].budget == w.db.tasks[t].budget
  }

  lemma ChangeKeepsBudget(w: StoreRuns.World, w2: StoreRuns.World, c: StoreRuns.Change, t: Id)
    requires StoreRuns.Explains(c, w, w2) && t in w.db.tasks
    ensures SameBudget(w, w2, t)
  {
  }

  /** A task stays, with its budget. */
  lemma {:induction false} BudgetLasts(w: StoreRuns.World, t: Id, es: seq<StoreRuns.Event>)
    requires StoreRuns.Inv(w) && StoreRuns.Legal(w, es) && t in w.db.tasks
    ensures SameBudget(w, StoreRuns.Run(w, es), t)
    decreases |es|
  {
    if es != [] {
      hide StoreRuns.Next, StoreRuns.Explains, StoreRuns.CapacityOk;
      var c := StoreRuns.StepExplained(w, es[0].action, es[0].now);
      ChangeKeepsBudget(w, StoreRuns.After(w, es[0]), c, t);
      StoreRuns.StepKeepsInv(w, es[0].action, es[0].now);
      BudgetLasts(StoreRuns.After(w, es[0]), t, es[1..]);
    }
  }

  /** A failure report that was due when it was read, written after any run of the store: at once it is
      the failed attempt, and later it keeps the rows in order exactly when the row then stands for the
      claim that was read, or for its charge. */
  lemma LateFailure(w: StoreRuns.World, t: Id, worker: Id, lease: Id, now: Time, es: seq<StoreRuns.Event>)
    requires StoreRuns.Inv(w) && StoreRuns.Legal(w, es) && FailAttempt(w.db, t, worker, lease, now).answer.Done?
    ensures es == [] ==> LateCharge(w.db, t, w.db.tasks[t]) == FailAttempt(w.db, t, worker, lease, now).db
    ensures var w2, seen := StoreRuns.Run(w, es), w.db.tasks[t];
      && t in w2.db.tasks
      && (StoreRuns.RowsOk(w2.(db := LateCharge(w2.db, t, seen))) <==>
            w2.db.tasks[t].attempts + (if Claimed(w2.db.tasks[t].state) then 1 else 0) == seen.attempts + 1)
  {
    hide StoreRuns.CapacityOk;
    PromptCharge(w.db, t, worker, lease, now);
    BudgetLasts(w, t, es);
    StoreRuns.RunKeepsInv(w, es);
    assert StoreRuns.TaskOk(w.db.tasks[t], w.claims[t]);
    LateChargeExactly(StoreRuns.Run(w, es), t, w.db.tasks[t]);
  }

  /** It keeps review evidence conserved exactly when the task has not come under review since. */
  lemma LateChargeConserves(s: Execution.Sys, t: Id, seen: Task)
    requires Conserved(s) && t in s.world.db.tasks
    ensures Conserved(s.(world := s.world.(db := LateCharge(s.world.db, t, seen)))) <==> !UnderReview(s.world.db, t)
  {
    var s2 := s.(world := s.world.(db := LateCharge(s.world.db, t, seen)));
    forall k ensures EvidenceOf(s2.world.db, k) == EvidenceOf(s.world.db, k) && AppliedFor(s2, k) == AppliedFor(s, k) {}
    assert |EvidenceOf(s.world.db, t)| + |AppliedFor(s, t)| == if UnderReview(s.world.db, t) then 1 else 0;
    if UnderReview(s.world.db, t) {
      assert |EvidenceOf(s2.world.db, t)| + |AppliedFor(s2, t)| == 1;
    }
  }

  // ---------------------------------------------------------------- completing a review

  function LateComplete(db: Db, t: Id): Db
    requires t in db.tasks
  {
    db.(tasks := db.tasks[t := db.tasks[t].(state := Completed, evidence := Valid, lease := None)])
  }

  lemma PromptComplete(db: Db, t: Id, valid: bool, now: Time)
    requires CompleteAfterReview(db, t, valid, now).answer.Done?
    ensures CompleteAfterReview(db, t, valid, now).db == LateComplete(db, t)
  {
  }

  /** A late completion keeps the rows in order exactly when the task stands on a claim not yet
      charged. */
  lemma LateCompleteExactly(w: StoreRuns.World, t: Id)
    requires StoreRuns.RowsOk(w) && t in w.db.tasks
    ensures StoreRuns.RowsOk(w.(db := LateComplete(w.db, t))) <==> Claimed(w.db.tasks[t].state)
  {
    var w2 := w.(db := LateComplete(w.db, t));
    assert StoreRuns.TaskOk(w.db.tasks[t], w.claims[t]);
    assert StoreRuns.TaskOk(w2.db.tasks[t], w2.claims[t]) <==> Claimed(w.db.tasks[t].state);
    if Claimed(w.db.tasks[t].state) {
      forall k | k in w2.db.tasks ensures StoreRuns.TaskOk(w2.db.tasks[k], w2.claims[k]) {
        assert k != t ==> StoreRuns.TaskOk(w.db.tasks[k], w.claims[k]);
      }
    }
  }

  lemma ChangeKeepsReview(w: StoreRuns.World, w2: StoreRuns.World, c: StoreRuns.Change, t: Id)
    requires StoreRuns.Explains(c, w, w2) && UnderReview(w.db, t)
    ensures UnderReview(w2.db, t)
  {
  }

  lemma ReviewStays(w: StoreRuns.World, t: Id, a: StoreRuns.Action, now: Time)
    requires StoreRuns.RowsOk(w) && StoreRuns.Allowed(w, a, now) && UnderReview(w.db, t)
    ensures UnderReview(StoreRuns.Next(w, a, now).db, t)
  {
    hide StoreRuns.Next, StoreRuns.Explains;
    var c := StoreRuns.StepExplained(w, a, now);
    ChangeKeepsReview(w, StoreRuns.Next(w, a, now), c, t);
  }

  lemma {:induction false} ReviewLasts(w: StoreRuns.World, t: Id, es: seq<StoreRuns.Event>)
    requires StoreRuns.Inv(w) && StoreRuns.Legal(w, es) && UnderReview(w.db, t)
    ensures UnderReview(StoreRuns.Run(w, es).db, t)
    decreases |es|
  {
    if es != [] {
      ReviewStays(w, t, es[0].action, es[0].now);
      StoreRuns.StepKeepsInv(w, es[0].action, es[0].now);
      ReviewLasts(StoreRuns.After(w, es[0]), t, es[1..]);
    }
  }

  /** So a review that was due for completion when it was read may be completed however late: no store
      operation in between takes the task out of review, and the update then keeps the rows in order. At
      once it is the completion of the store. */
  lemma LateCompleteHarmless(w: StoreRuns.World, t: Id, es: seq<StoreRuns.Event>)
    requires StoreRuns.Inv(w) && StoreRuns.Legal(w, es) && t in w.db.tasks && w.db.tasks[t].state.ReviewPending?
    ensures forall now :: now >= 0.0 ==>
      CompleteAfterReview(w.db, t, true, now).answer.Done? && CompleteAfterReview(w.db, t, true, now).db == LateComplete(w.db, t)
    ensures var w2 := StoreRuns.Run(w, es);
      t in w2.db.tasks && StoreRuns.RowsOk(w2.(db := LateComplete(w2.db, t)))
  {
    hide StoreRuns.CapacityOk;
    assert StoreRuns.TaskOk(w.db.tasks[t], w.claims[t]);
    forall now | now >= 0.0
      ensures CompleteAfterReview(w.db, t, true, now).answer.Done? && CompleteAfterReview(w.db, t, true, now).db == LateComplete(w.db, t)
    {
      PromptComplete(w.db, t, true, now);
    }
    ReviewLasts(w, t, es);
    StoreRuns.RunKeepsInv(w, es);
    LateCompleteExactly(StoreRuns.Run(w, es), t);
  }
}
