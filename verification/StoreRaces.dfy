/** Runs from an empty system after which an update of the store without a guard does harm: a failure
    report written late, and `route_or_wait` called for a task under review. */
module StoreRaces {
  import opened Basics
  import opened Store
  import opened Execution
  import opened ExecutionRecords
  import opened LateWrites
  import opened RecoveryRace
  import StoreRuns

  // ---------------------------------------------------------------- what happens in between

  const REPORT := Digest([])

  /** The task's result arrives. */
  const W5 := StoreRuns.Next(W4, StoreRuns.Submitting("t", "w", "l", "e", Some(REPORT)), 0.0)

  /** The attempt is reported failed by somebody else, and the task is claimed again. */
  const W6 := StoreRuns.Next(W4, StoreRuns.Failing("t", "w", "l"), 0.0)
  const W7 := StoreRuns.Next(W6, StoreRuns.Claiming("t", "w", "m", 50.0), 0.0)

  lemma Submitted()
    ensures W5.db == TABLES.(tasks := map["t" := TASK.(state := ReviewPending, evidence := Received)],
                             evidence := map[EvidenceKey("t", "e") := REPORT])
  {
    hide W4;
    Worked();
    assert !StoredFor(TABLES, "t", REPORT);
  }

  const AGAIN := TASK.(state := Leased, attempts := 1, lease := Some(Lease("w", "m", 50.0)))

  lemma ClaimedAgain()
    ensures W6.clock == 0.0 && W6.issued == W4.issued && W7.db == TABLES.(tasks := map["t" := AGAIN])
  {
    hide W4;
    Worked();
    var retrying := TASK.(state := Retrying, attempts := 1, lease := None);
    assert W6.db == TABLES.(tasks := map["t" := retrying]);
    assert Active(W6.db, "w", 0.0) == {};
  }

  lemma ResultArrives() returns (es: seq<Event>)
    ensures Trail(Ready(W4, map[]), es, Ready(W5, map[]))
  {
    hide Trail, W4, StoreRuns.Next;
    Worked();
    Nothing(Ready(W4, map[]));
    es := ThenStore(Ready(W4, map[]), [], W4, StoreRuns.Submitting("t", "w", "l", "e", Some(REPORT)), W5);
  }

  lemma SomebodyElse() returns (es: seq<Event>)
    ensures Trail(Ready(W4, map[]), es, Ready(W7, map[]))
  {
    hide Trail, W4, StoreRuns.Next;
    Worked();
    ClaimedAgain();
    Nothing(Ready(W4, map[]));
    es := ThenStore(Ready(W4, map[]), [], W4, StoreRuns.Failing("t", "w", "l"), W6);
    es := ThenStore(Ready(W4, map[]), es, W6, StoreRuns.Claiming("t", "w", "m", 50.0), W7);
  }

  /** The system in which the report is read, and the one in which it is written. */
  lemma BothSound(before: seq<Event>, between: seq<Event>, t: Sys)
    requires Trail(Outset(), before, Ready(W4, map[])) && Trail(Ready(W4, map[]), between, t)
    ensures Sound(Ready(W4, map[])) && Sound(t)
  {
    hide Sound, Lasting, Run, PermittedRun;
    NewSystemSound(map["ws" := "p"], map["ws" := BEFORE]);
    RunSound(Outset(), before);
    RunSound(Ready(W4, map[]), between);
  }

  // ---------------------------------------------------------------- the harm

  /** A failure report read as due while the task runs, and written after the task has come under
      review, leaves its evidence behind without a review. */
  lemma LateFailureLosesReview() returns (before: seq<Event>, between: seq<Event>)
    ensures PermittedRun(Outset(), before) && PermittedRun(Run(Outset(), before), between)
    ensures var s := Run(Outset(), before); var t := Run(s, between);
      && FailAttempt(s.world.db, "t", "w", "l", 0.0).answer.Done? && "t" in t.world.db.tasks && Sound(t)
      && !Conserved(t.(world := t.world.(db := LateCharge(t.world.db, "t", s.world.db.tasks["t"]))))
  {
    hide Sound, Conserved, LateCharge, W4, W5, PermittedRun, Run;
    before := Working();
    between := ResultArrives();
    Worked();
    Submitted();
    BothSound(before, between, Ready(W5, map[]));
    SoundConserved(Ready(W5, map[]));
    LateChargeConserves(Ready(W5, map[]), "t", TASK);
  }

  lemma SoundConserved(s: Sys)
    requires Sound(s)
    ensures Conserved(s) && StoreRuns.RowsOk(s.world)
  {
  }

  /** Written after the attempt has been charged by somebody else and the task claimed again, it charges
      one claim twice and takes the new lease away. */
  lemma LateFailureLosesClaim() returns (before: seq<Event>, between: seq<Event>)
    ensures PermittedRun(Outset(), before) && PermittedRun(Run(Outset(), before), between)
    ensures var s := Run(Outset(), before); var t := Run(s, between);
      && FailAttempt(s.world.db, "t", "w", "l", 0.0).answer.Done? && "t" in t.world.db.tasks && Sound(t)
      && t.world.db.tasks["t"] == AGAIN
      && !StoreRuns.RowsOk(t.world.(db := LateCharge(t.world.db, "t", s.world.db.tasks["t"])))
  {
    hide Sound, LateCharge, StoreRuns.RowsOk, W4, W6, W7, PermittedRun, Run;
    before := Working();
    between := SomebodyElse();
    Worked();
    ClaimedAgain();
    BothSound(before, between, Ready(W7, map[]));
    SoundConserved(Ready(W7, map[]));
    LateChargeExactly(W7, "t", TASK);
  }

  /** `route_or_wait` for a task under review whose only worker is stale strands the lease on a waiting
      row and leaves the evidence behind. */
  lemma RouteOrWaitLosesReview() returns (before: seq<Event>, between: seq<Event>)
    ensures PermittedRun(Outset(), before) && PermittedRun(Run(Outset(), before), between)
    ensures var t := Run(Run(Outset(), before), between);
      var r := RouteOrWait(t.world.db, "t", 200.0);
      && Sound(t) && r.answer == Done(false)
      && !StoreRuns.RowsOk(t.world.(db := r.db)) && !Conserved(t.(world := t.world.(db := r.db)))
  {
    hide Sound, Conserved, StoreRuns.RowsOk, W4, W5, PermittedRun, Run;
    before := Working();
    between := ResultArrives();
    Submitted();
    BothSound(before, between, Ready(W5, map[]));
    SoundConserved(Ready(W5, map[]));
    assert forall w :: w in W5.db.workers ==> !CanTake(W5.db, w, W5.db.tasks["t"], 200.0);
    StoreRuns.RouteOrWaitExactly(W5, "t", 200.0);
    RouteOrWaitConserves(Ready(W5, map[]), "t", 200.0);
  }
}
