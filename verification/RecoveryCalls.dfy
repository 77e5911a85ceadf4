/** Whole calls of `recover`: what a call comes to when nobody else moves, when exactly its last
    transaction keeps the books, and what happens when the grant it recovers is not its own. */
module RecoveryCalls {
  import opened Basics
  import opened Store
  import opened Disks
  import opened Execution
  import opened ExecutionRecords

  // ---------------------------------------------------------------- an undisturbed call

  /** Call `c` of `recover` on grant `g` begins and takes `n` more steps. */
  function Call(c: Id, g: Id, r: Reading, n: nat): seq<Event> {
    if n == 0 then [Event(Surveying(c, g), r)] else Call(c, g, r, n - 1) + [Event(Rescuing(c, g), r)]
  }

  /** What those steps make of `s`. */
  function Went(s: Sys, c: Id, g: Id, r: Reading, n: nat): Sys {
    if n == 0 then Survey(s, c, g, r) else Continue(Went(s, c, g, r, n - 1), c, g, r)
  }

  lemma {:induction false} CallWent(s: Sys, c: Id, g: Id, r: Reading, n: nat)
    ensures Run(s, Call(c, g, r, n)) == Went(s, c, g, r, n)
  {
    if n == 0 {
      assert Call(c, g, r, 0)[1..] == [];
    } else {
      CallWent(s, c, g, r, n - 1);
      RunLast(s, Call(c, g, r, n - 1), Event(Rescuing(c, g), r));
    }
  }

  lemma WentOne(s: Sys, c: Id, g: Id, r: Reading, m: nat, n: nat, t: Sys, next: Sys)
    requires n == m + 1 && Went(s, c, g, r, m) == t && Continue(t, c, g, r) == next
    ensures Went(s, c, g, r, n) == next
  {
    hide Continue;
  }

  function With(s: Sys, c: Id, k: Rescue): Sys { s.(rescues := s.rescues[c := k]) }

  lemma Without(s: Sys, c: Id, k: Rescue)
    requires c !in s.rescues
    ensures EndCall(With(s, c, k), c) == s
  {
    assert s.rescues[c := k] - {c} == s.rescues;
  }

  lemma Again(s: Sys, c: Id, k: Rescue, k2: Rescue)
    ensures With(With(s, c, k), c, k2) == With(s, c, k2)
  {
    assert s.rescues[c := k][c := k2] == s.rescues[c := k2];
  }

  /** A call that began at `at` and has looked at the first `j` planned files. */
  function Seen(s: Sys, g: Id, at: Time, j: nat): Rescue
    requires g in s.grants && g in s.txs && j <= |s.txs[g].rows|
  {
    Rescue(g, at, ImagesOf(PathDisk(s, g), s.txs[g].rows)[..j], Looking)
  }

  lemma LookNext(s: Sys, c: Id, g: Id, r: Reading, at: Time, j: nat)
    requires g in s.grants && g in s.txs && j < |s.txs[g].rows| && !r.fault
    ensures Continue(With(s, c, Seen(s, g, at, j)), c, g, r) == With(s, c, Seen(s, g, at, j + 1))
  {
    var k, k2, all := Seen(s, g, at, j), Seen(s, g, at, j + 1), ImagesOf(PathDisk(s, g), s.txs[g].rows);
    assert all[..j + 1] == all[..j] + [all[j]];
    Again(s, c, k, k2);
  }

  /** After `j` steps the call has looked at the first `j` planned files. */
  ghost predicate Looked(s: Sys, c: Id, g: Id, r: Reading, j: nat)
    requires g in s.grants && g in s.txs
  {
    j <= |s.txs[g].rows| && Went(s, c, g, r, j) == With(s, c, Seen(s, g, r.now, j))
  }

  lemma LookedNext(s: Sys, c: Id, g: Id, r: Reading, i: nat, j: nat)
    requires g in s.grants && g in s.txs && j <= |s.txs[g].rows| && j == i + 1 && !r.fault && Looked(s, c, g, r, i)
    ensures Looked(s, c, g, r, j)
  {
    hide Continue;
    LookNext(s, c, g, r, r.now, i);
    WentOne(s, c, g, r, i, j, With(s, c, Seen(s, g, r.now, i)), With(s, c, Seen(s, g, r.now, j)));
  }

  /** The call looks at every planned file in turn. */
  lemma {:induction false} LookAll(s: Sys, c: Id, g: Id, r: Reading, j: nat)
    requires g in s.grants && g in s.txs && j <= |s.txs[g].rows| && !r.fault && Looked(s, c, g, r, 0)
    ensures Looked(s, c, g, r, j)
  {
    if j > 0 {
      hide Continue, Went, Seen;
      var i := j - 1;
      LookAll(s, c, g, r, i);
      LookedNext(s, c, g, r, i, j);
    }
  }

  /** All that was read is the preimages exactly when every file shows its preimage, and alike for
      the postimages. */
  lemma ClassifiesDisk(d: Disk, rows: seq<Row>)
    ensures ImagesOf(d, rows) == Pres(rows) <==> AllPre(d, rows)
    ensures ImagesOf(d, rows) == Posts(rows) <==> AllPost(d, rows)
  {
    if ImagesOf(d, rows) == Pres(rows) {
      forall i | 0 <= i < |rows| ensures ImageAt(d, rows[i].path) == rows[i].pre { assert ImagesOf(d, rows)[i] == Pres(rows)[i]; }
    }
    if ImagesOf(d, rows) == Posts(rows) {
      forall i | 0 <= i < |rows| ensures ImageAt(d, rows[i].path) == rows[i].post { assert ImagesOf(d, rows)[i] == Posts(rows)[i]; }
    }
  }

  lemma ClassifyTells(d: Disk, rows: seq<Row>)
    ensures Classify(ImagesOf(d, rows), rows) ==
      if AllPre(d, rows) then Failed else if AllPost(d, rows) then Applied else IntegrityBlocked
  {
    ClassifiesDisk(d, rows);
  }

  /** The grant and its transaction are unfinished. */
  predicate Unfinished(s: Sys, g: Id) { IsApplying(s, g) && g in s.txs && s.txs[g].state.Applying? }

  lemma ConcludesCompleted(s: Sys, c: Id, g: Id, r: Reading, k: Rescue)
    requires Unfinished(s, g) && c !in s.rescues && TaskRunning(s.world.db, s.grants[g].task)
    requires k.grant == g && k.stage == Decided(Applied) && !r.fault
    ensures Continue(With(s, c, k), c, g, r) == Complete(s, g, k.at)
  {
    var u, t := With(s, c, k), Complete(s, g, k.at);
    LateIsComplete(u, g, k.at);
    assert Complete(u, g, k.at) == With(t, c, k);
    Without(t, c, k);
  }

  lemma ConcludesSettled(s: Sys, c: Id, g: Id, r: Reading, k: Rescue, v: GrantState)
    requires Unfinished(s, g) && c !in s.rescues && !v.Applied?
    requires k.grant == g && k.stage == Decided(v) && !r.fault
    ensures Continue(With(s, c, k), c, g, r) == Settle(s, g, v)
  {
    assert Close(With(s, c, k), g, v) == With(Settle(s, g, v), c, k);
    Without(Settle(s, g, v), c, k);
  }

  lemma ConcludesLosing(s: Sys, c: Id, g: Id, r: Reading, k: Rescue)
    requires Unfinished(s, g) && c !in s.rescues && !TaskRunning(s.world.db, s.grants[g].task)
    requires k.grant == g && k.stage == Decided(Applied) && !r.fault
    ensures Continue(With(s, c, k), c, g, r) == With(s, c, k.(stage := Losing))
  {
    Again(s, c, k, k.(stage := Losing));
  }

  lemma Loses(s: Sys, c: Id, g: Id, r: Reading, k: Rescue)
    requires g in s.grants && g in s.txs && c !in s.rescues && k.grant == g && k.stage == Losing && !r.fault
    ensures Continue(With(s, c, k), c, g, r) == Block(s, s.grants[g].workspace)
  {
    var t := Block(s, s.grants[g].workspace);
    assert Block(With(s, c, k), s.grants[g].workspace) == With(t, c, k);
    Without(t, c, k);
  }

  lemma Decides(s: Sys, c: Id, g: Id, r: Reading, k: Rescue, v: GrantState)
    requires g in s.grants && g in s.txs && k.grant == g && k.stage.Looking? && !r.fault
    requires |k.images| == |s.txs[g].rows| && v == Classify(k.images, s.txs[g].rows)
    ensures var t := if v.IntegrityBlocked? then Block(s, s.grants[g].workspace) else s;
      Continue(With(s, c, k), c, g, r) == With(t, c, k.(stage := Decided(v)))
  {
    var ws, k2 := s.grants[g].workspace, k.(stage := Decided(v));
    var t := if v.IntegrityBlocked? then Block(s, ws) else s;
    Again(s, c, k, k2);
    assert Decide(With(s, c, k), c, ws, s.txs[g].rows) == With(t, c, k2);
  }

  lemma SeenNone(s: Sys, g: Id, at: Time)
    requires g in s.grants && g in s.txs
    ensures Seen(s, g, at, 0) == Rescue(g, at, [], Looking)
    ensures Seen(s, g, at, |s.txs[g].rows|) == Rescue(g, at, ImagesOf(PathDisk(s, g), s.txs[g].rows), Looking)
  {
    var all := ImagesOf(PathDisk(s, g), s.txs[g].rows);
    assert all[..0] == [] && all[..|s.txs[g].rows|] == all;
  }

  lemma SurveyRefused(s: Sys, c: Id, g: Id, r: Reading)
    requires c !in s.rescues && c !in Survey(s, c, g, r).rescues
    ensures Recover(s, g, r) == (Survey(s, c, g, r), Refused)
  {
  }

  lemma SurveyStarted(s: Sys, c: Id, g: Id, r: Reading)
    requires c !in s.rescues && c in Survey(s, c, g, r).rescues
    ensures Unfinished(s, g) && !r.fault && Survey(s, c, g, r) == With(s, c, Seen(s, g, r.now, 0))
    ensures Recover(s, g, r) == Judge(s, g, r)
  {
    EnterEffect(s, s.grants[g].workspace, s.grants[g].target, r.intact);
    SeenNone(s, g, r.now);
  }

  /** The state before the last transaction. */
  lemma WentDecided(s: Sys, c: Id, g: Id, r: Reading, t: Sys, k: Rescue, v: GrantState)
    requires g in s.grants && g in s.txs && !r.fault && Looked(s, c, g, r, |s.txs[g].rows|)
    requires k == Rescue(g, r.now, ImagesOf(PathDisk(s, g), s.txs[g].rows), Decided(v)) && v == Classify(k.images, s.txs[g].rows)
    requires t == if v.IntegrityBlocked? then Block(s, s.grants[g].workspace) else s
    ensures Went(s, c, g, r, |s.txs[g].rows| + 1) == With(t, c, k)
  {
    hide Continue;
    var n := |s.txs[g].rows|;
    SeenNone(s, g, r.now);
    Decides(s, c, g, r, Seen(s, g, r.now, n), v);
    WentOne(s, c, g, r, n, n + 1, With(s, c, Seen(s, g, r.now, n)), With(t, c, k));
  }

  lemma RecoverNotInCalls(s: Sys, g: Id, r: Reading)
    ensures Recover(s, g, r).0.rescues == s.rescues
  {
    if g in s.grants { EnterEffect(s, s.grants[g].workspace, s.grants[g].target, r.intact); }
  }

  /** How many steps an undisturbed call takes after its first. */
  function Length(s: Sys, g: Id, r: Reading): nat {
    if g !in s.txs || Recover(s, g, r).1.Refused? then 0
    else |s.txs[g].rows| + if Recover(s, g, r).1.ReviewLost? then 3 else 2
  }

  /** From the decision to the end of the call. */
  lemma WentJudged(s: Sys, c: Id, g: Id, r: Reading, m: nat, n: nat, t: Sys, k: Rescue, v: GrantState)
    requires Unfinished(s, g) && c !in s.rescues && !r.fault && n == m + 1
    requires k.grant == g && k.at == r.now && k.stage == Decided(v)
    requires v == Classify(ImagesOf(PathDisk(s, g), s.txs[g].rows), s.txs[g].rows)
    requires t == if v.IntegrityBlocked? then Block(s, s.grants[g].workspace) else s
    requires Went(s, c, g, r, m) == With(t, c, k)
    ensures Went(s, c, g, r, if Judge(s, g, r).1.ReviewLost? then n + 1 else n) == Judge(s, g, r).0
  {
    hide Continue, Went;
    ClassifiesDisk(PathDisk(s, g), s.txs[g].rows);
    if !v.Applied? {
      ConcludesSettled(t, c, g, r, k, v);
      WentOne(s, c, g, r, m, n, With(t, c, k), Settle(t, g, v));
    } else if TaskRunning(s.world.db, s.grants[g].task) {
      ConcludesCompleted(s, c, g, r, k);
      WentOne(s, c, g, r, m, n, With(s, c, k), Complete(s, g, k.at));
    } else {
      ConcludesLosing(s, c, g, r, k);
      Loses(s, c, g, r, k.(stage := Losing));
      WentOne(s, c, g, r, m, n, With(s, c, k), With(s, c, k.(stage := Losing)));
      WentOne(s, c, g, r, n, n + 1, With(s, c, k.(stage := Losing)), Block(s, s.grants[g].workspace));
    }
  }

  lemma DecidedWent(s: Sys, c: Id, g: Id, r: Reading, t: Sys, k: Rescue, v: GrantState)
    requires g in s.grants && g in s.txs && !r.fault && Looked(s, c, g, r, 0)
    requires k == Rescue(g, r.now, ImagesOf(PathDisk(s, g), s.txs[g].rows), Decided(v)) && v == Classify(k.images, s.txs[g].rows)
    requires t == if v.IntegrityBlocked? then Block(s, s.grants[g].workspace) else s
    ensures Went(s, c, g, r, |s.txs[g].rows| + 1) == With(t, c, k)
  {
    hide Continue, Went, Classify;
    LookAll(s, c, g, r, |s.txs[g].rows|);
    WentDecided(s, c, g, r, t, k, v);
  }

  lemma RecoverWent(s: Sys, c: Id, g: Id, r: Reading, m: nat, n: nat)
    requires Unfinished(s, g) && c !in s.rescues && !r.fault && Looked(s, c, g, r, 0) && m == |s.txs[g].rows| + 1 && n == m + 1
    ensures Went(s, c, g, r, if Judge(s, g, r).1.ReviewLost? then n + 1 else n) == Judge(s, g, r).0
  {
    hide Continue, Went, Judge;
    var all := ImagesOf(PathDisk(s, g), s.txs[g].rows);
    var v := Classify(all, s.txs[g].rows);
    var t := if v.IntegrityBlocked? then Block(s, s.grants[g].workspace) else s;
    var k := Rescue(g, r.now, all, Decided(v));
    DecidedWent(s, c, g, r, t, k, v);
    WentJudged(s, c, g, r, m, n, t, k, v);
  }

  /** A call of `recover` with nobody between its steps is what the closed form says. */
  lemma RecoverIsRun(s: Sys, c: Id, g: Id, r: Reading)
    requires c !in s.rescues
    ensures Run(s, Call(c, g, r, Length(s, g, r))) == Recover(s, g, r).0
  {
    CallWent(s, c, g, r, Length(s, g, r));
    if c !in Survey(s, c, g, r).rescues {
      SurveyRefused(s, c, g, r);
    } else {
      hide Continue;
      SurveyStarted(s, c, g, r);
      RecoverWent(s, c, g, r, |s.txs[g].rows| + 1, |s.txs[g].rows| + 2);
    }
  }

  // ---------------------------------------------------------------- the last transaction

  lemma SettledConserves(s: Sys, c: Id, g: Id, v: GrantState)
    requires Conserved(s) && g in s.grants && g in s.txs && c in s.rescues && !v.Applied?
    ensures Conserved(Conclude(s, c, g, v))
  {
    var t := Conclude(s, c, g, v);
    forall k ensures AppliedFor(t, k) == AppliedFor(s, k) && EvidenceOf(t.world.db, k) == EvidenceOf(s.world.db, k) {}
  }

  lemma LosingConserves(s: Sys, c: Id, g: Id)
    requires Conserved(s) && g in s.grants && g in s.txs && c in s.rescues && !TaskRunning(s.world.db, s.grants[g].task)
    ensures Conserved(Conclude(s, c, g, Applied))
  {
    var t := Conclude(s, c, g, Applied);
    forall k ensures AppliedFor(t, k) == AppliedFor(s, k) && EvidenceOf(t.world.db, k) == EvidenceOf(s.world.db, k) {}
  }

  lemma CompletingConserves(s: Sys, c: Id, g: Id)
    requires Books(s) && Unfinished(s, g) && c in s.rescues && TaskRunning(s.world.db, s.grants[g].task)
    ensures Conserved(Conclude(s, c, g, Applied))
  {
    var t := Conclude(s, c, g, Applied);
    ConcludeEffect(s, c, g, Applied);
    SameBooks(s, s.(rescues := t.rescues));
    LateIsComplete(s, g, s.rescues[c].at);
    FinishedCounts(s.(rescues := t.rescues), g, s.rescues[c].at, t);
  }

  /** A verdict that comes too late moves the task to review with nothing to rest on. */
  lemma StrayReview(s: Sys, c: Id, g: Id)
    requires Books(s) && g in s.txs && c in s.rescues && !Unfinished(s, g) && TaskRunning(s.world.db, s.grants[g].task)
    ensures var t := Conclude(s, c, g, Applied);
      && UnderReview(t.world.db, s.grants[g].task)
      && EvidenceOf(t.world.db, s.grants[g].task) == {} && AppliedFor(t, s.grants[g].task) == {}
  {
    var t, k := Conclude(s, c, g, Applied), s.grants[g].task;
    assert TxOk(s, g);
    assert |EvidenceOf(s.world.db, k)| + |AppliedFor(s, k)| == 0;
    assert EvidenceOf(t.world.db, k) == EvidenceOf(s.world.db, k) && AppliedFor(t, k) == AppliedFor(s, k);
  }

  /** Whatever happened since the files were read, the last transaction of a recovery keeps review
      evidence conserved exactly when its verdict is not APPLIED, or grant and transaction are still
      applying, or the task is not running. */
  lemma SettlingConservesExactly(s: Sys, c: Id, g: Id, v: GrantState)
    requires Books(s) && g in s.txs && c in s.rescues
    ensures Conserved(Conclude(s, c, g, v)) <==> !v.Applied? || Unfinished(s, g) || !TaskRunning(s.world.db, s.grants[g].task)
  {
    assert TxOk(s, g);
    if !v.Applied? { SettledConserves(s, c, g, v); }
    else if !TaskRunning(s.world.db, s.grants[g].task) { LosingConserves(s, c, g); }
    else if Unfinished(s, g) { CompletingConserves(s, c, g); }
    else {
      StrayReview(s, c, g);
      assert |EvidenceOf(Conclude(s, c, g, v).world.db, s.grants[g].task)| + |AppliedFor(Conclude(s, c, g, v), s.grants[g].task)| == 0;
    }
  }
}
