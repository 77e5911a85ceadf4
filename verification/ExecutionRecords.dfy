/** What every step keeps about grants, transactions and reviewed tasks, whatever interleaves:
    overwritten files, recoveries, and crashes included. */
module ExecutionRecords {
  import opened Basics
  import opened Store
  import opened Disks
  import opened Execution
  import StoreRuns

  predicate Transacted(st: GrantState) { st.Applying? || st.Applied? || st.Failed? || st.IntegrityBlocked? }

  predicate Terminal(st: GrantState) { st.Applied? || st.Failed? || st.IntegrityBlocked? || st.Lapsed? }

  // ---------------------------------------------------------------- invariant

  /** Grant and transaction rows agree, and the evidence of an applied transaction names its
      grant and its plan. */
  ghost predicate TxOk(s: Sys, g: Id)
    requires g in s.txs
  {
    && g in s.grants && s.grants[g].state == s.txs[g].state && Transacted(s.txs[g].state)
    && PlanOk(s.txs[g].rows) && InScope(s.txs[g].rows, s.grants[g].kinds, s.grants[g].prefixes)
    && (s.txs[g].state.Applied? <==> s.txs[g].evidence.Some?)
    && (s.txs[g].evidence.Some? ==> s.txs[g].evidence.value == EnvelopeOf(s, g, s.txs[g].rows, s.txs[g].evidence.value.at))
  }

  ghost predicate RowsAgree(s: Sys) {
    && (forall g :: g in s.txs ==> TxOk(s, g))
    && (forall g :: g in s.grants ==> (Transacted(s.grants[g].state) <==> g in s.txs))
    && (forall g :: g in s.grants ==> s.grants[g].kinds <= {Create, Replace, Delete})
  }

  ghost predicate OneWriter(s: Sys) {
    forall g, h :: IsApplying(s, g) && IsApplying(s, h) && s.grants[g].workspace == s.grants[h].workspace ==> g == h
  }

  ghost predicate Logged(s: Sys, e: Entry) {
    && e.grant in s.txs && s.txs[e.grant].state.Applied? && s.txs[e.grant].rows == e.rows
    && e.grant in s.grants && s.grants[e.grant].workspace == e.workspace
  }

  /** The log lists the applied grants, each once. */
  ghost predicate LogOk(s: Sys) {
    && (forall i :: 0 <= i < |s.log| ==> Logged(s, s.log[i]))
    && (forall i, j :: 0 <= i < j < |s.log| ==> s.log[i].grant != s.log[j].grant)
    && (forall g :: g in s.txs && s.txs[g].state.Applied? ==> exists i :: 0 <= i < |s.log| && s.log[i].grant == g)
  }

  function EvidenceOf(db: Db, t: Id): set<EvidenceKey> { set k | k in db.evidence && k.task == t }

  function AppliedFor(s: Sys, t: Id): set<Id> {
    set g | g in s.txs && s.txs[g].state.Applied? && g in s.grants && s.grants[g].task == t
  }

  predicate UnderReview(db: Db, t: Id) { t in db.tasks && Reviewed(db.tasks[t].state) }

  /** A task under review or completed rests on exactly one piece of evidence, a result or an
      applied transaction; any other task on none. */
  ghost predicate Conserved(s: Sys) {
    forall t :: |EvidenceOf(s.world.db, t)| + |AppliedFor(s, t)| == if UnderReview(s.world.db, t) then 1 else 0
  }

  ghost predicate Books(s: Sys) { RowsAgree(s) && OneWriter(s) && LogOk(s) && Conserved(s) }

  /** A grant that a recovery may decide about: applying, and not run by anybody. */
  predicate Abandoned(s: Sys, g: Id) { IsApplying(s, g) && g in s.txs && g !in s.live }

  predicate BeingRescued(s: Sys, g: Id) { exists c :: c in s.rescues && s.rescues[c].grant == g }

  predicate StageOk(stage: Stage) {
    stage.Decided? ==> stage.verdict.Failed? || stage.verdict.Applied? || stage.verdict.IntegrityBlocked?
  }

  /** Every running recovery has an abandoned grant to itself. */
  ghost predicate RescuesOk(s: Sys) {
    && (forall c :: c in s.rescues ==> Abandoned(s, s.rescues[c].grant) && StageOk(s.rescues[c].stage))
    && (forall c, d :: c in s.rescues && d in s.rescues && s.rescues[c].grant == s.rescues[d].grant ==> c == d)
  }

  ghost predicate Sound(s: Sys) { StoreRuns.Inv(s.world) && Books(s) && RescuesOk(s) }

  /** Grant ids are fresh, plans come from `canonical_plan`, a recovery starts only on a grant that no
      running applier and no other recovery owns, the store's clock and lease ids behave, and a task
      is moved to review by evidence only inside a completion. */
  predicate Permitted(s: Sys, a: Action) {
    match a
    case Issuing(g, _, _, _, _, _, _, _, _) => g !in s.grants
    case Beginning(_, rows) => Canonical(rows)
    case Surveying(_, g) => g !in s.live && !BeingRescued(s, g)
    case StoreStep(b, now) => StoreRuns.Allowed(s.world, b, now) && !b.Accepting?
    case _ => true
  }

  // ---------------------------------------------------------------- what a step does to the records

  /** No durable record changes but blocks of workspaces. */
  ghost predicate SameRows(s: Sys, t: Sys) {
    t == s.(blocked := t.blocked, refused := t.refused, disks := t.disks, live := t.live, rescues := t.rescues, done := t.done)
  }

  /** No durable record and no running recovery changes; workspace blocks only grow. */
  ghost predicate SameRecords(s: Sys, t: Sys) {
    && t == s.(blocked := t.blocked, refused := t.refused, disks := t.disks, live := t.live, done := t.done)
    && s.blocked <= t.blocked
  }

  ghost predicate IsGranted(s: Sys, g: Id, grant: Grant, t: Sys) {
    && (|| (g !in s.grants && grant.state.Issued? && grant.kinds <= {Create, Replace, Delete})
        || (g in s.grants && s.grants[g].state.Issued? && grant == s.grants[g].(state := Lapsed)))
    && SameRecords(s.(grants := s.grants[g := grant]), t)
  }

  ghost predicate IsBegun(s: Sys, g: Id, rows: seq<Row>, t: Sys) {
    && g in s.grants && s.grants[g].state.Issued? && !WorkspaceBusy(s, g)
    && InScope(rows, s.grants[g].kinds, s.grants[g].prefixes) && Canonical(rows) && SameRecords(Consume(s, g, rows), t)
  }

  ghost predicate IsFinished(s: Sys, g: Id, at: Time, t: Sys) {
    Completable(s, g) && SameRecords(Complete(s, g, at), t)
  }

  ghost predicate IsSettled(s: Sys, g: Id, st: GrantState, t: Sys) {
    && (st.Failed? || st.IntegrityBlocked?)
    && g in s.grants && g in s.txs && s.grants[g].state.Applying? && s.txs[g].state.Applying?
    && SameRecords(Settle(s, g, st), t)
  }

  lemma EnterEffect(s: Sys, ws: Id, target: Id, intact: bool)
    ensures SameRecords(s, Enter(s, ws, target, intact).0)
    ensures var t := EnterAtomic(s, ws, target, intact).0; t == s.(refused := t.refused)
    ensures Enter(s, ws, target, intact).1 ==> Enter(s, ws, target, intact).0 == s && ws !in s.blocked
    ensures EnterAtomic(s, ws, target, intact).1 == Enter(s, ws, target, intact).1
  {
  }

  lemma FreshEffect(s: Sys, g: Id, r: Reading)
    requires g in s.grants
    ensures var (t, ok) := FreshAuthority(s, g, r);
      SameRecords(s, t) && t.live == s.live && t.disks == s.disks && t.done == s.done && (ok ==> t == s && s.grants[g].state.Applying?)
  {
    EnterEffect(s, s.grants[g].workspace, s.grants[g].target, r.intact);
  }

  lemma BeginEffect(s: Sys, g: Id, rows: seq<Row>, r: Reading)
    requires Canonical(rows)
    ensures var t := Begin(s, g, rows, r);
      || SameRecords(s, t)
      || (g in s.grants && IsGranted(s, g, s.grants[g].(state := Lapsed), t))
      || IsBegun(s, g, rows, t)
  {
    if g in s.grants {
      EnterEffect(s, s.grants[g].workspace, s.grants[g].target, r.intact);
    }
  }

  lemma IssueEffect(s: Sys, a: Action, r: Reading)
    requires a.Issuing? && Permitted(s, a)
    ensures var t := Step(s, a, r);
      SameRecords(s, t) || (a.g in t.grants && IsGranted(s, a.g, t.grants[a.g], t))
  {
  }

  lemma CommitEffect(s: Sys, g: Id, at: Time, r: Reading)
    requires g in s.live && g in s.grants
    ensures var t := Commit(s, g, at, r); NoneStarted(s, t) && (SameRecords(s, t) || IsFinished(s, g, at, t))
  {
    hide Authority, AcceptExecution, EnvelopeOf;
    EnterEffect(s, s.grants[g].workspace, s.grants[g].target, r.intact);
  }

  lemma CloseEffect(s: Sys, g: Id, st: GrantState)
    requires g in s.txs ==> TxOk(s, g)
    requires IsApplying(s, g) ==> g in s.txs
    requires st.Failed? || st.IntegrityBlocked?
    ensures var t := Retire(Close(s, g, st), g); SameRecords(s, t) || IsSettled(s, g, st, t)
  {
  }

  /** Where a forward step goes: no record changes, and no applier starts. */
  ghost predicate Moves(s: Sys, t: Sys) { SameRecords(s, t) && NoneStarted(s, t) }

  ghost predicate NoneStarted(s: Sys, t: Sys) { forall h :: h in t.live ==> h in s.live }

  lemma GotoMoves(s: Sys, t: Sys, g: Id, pc: Pc)
    requires SameRecords(s, t) && t.live == s.live && g in s.live
    ensures Moves(s, Goto(t, g, pc)) && Moves(s, Raise(t, g))
  {
  }

  lemma AuthorizedMoves(s: Sys, g: Id, pc: Pc, r: Reading)
    requires g in s.live && g in s.grants
    ensures Moves(s, Authorized(s, g, pc, r))
  {
    FreshEffect(s, g, r);
    GotoMoves(s, FreshAuthority(s, g, r).0, g, pc);
  }

  lemma CheckMoves(s: Sys, g: Id, i: nat, r: Reading)
    requires g in s.live && g in s.grants
    ensures Moves(s, Check(s, g, i, r))
  {
    FreshEffect(s, g, r);
    GotoMoves(s, FreshAuthority(s, g, r).0, g, Writing(i));
    GotoMoves(s, s, g, Final);
  }

  lemma AuthorityEffect(s: Sys, g: Id, r: Reading)
    requires g in s.live && g in s.grants && CheckingAuthority(s.live[g].pc)
    ensures var t := AdvanceAuthority(s, g, r);
      NoneStarted(s, t) && (SameRecords(s, t) || (s.live[g].pc.Committing? && IsFinished(s, g, s.live[g].pc.at, t)))
  {
    match s.live[g].pc
    case Started => AuthorizedMoves(s, g, BackingUp, r);
    case Checking(i) => CheckMoves(s, g, i, r);
    case Final => AuthorizedMoves(s, g, FinalChecking(0, r.now), r);
    case Committing(at) => CommitEffect(s, g, at, r);
  }

  lemma BackUpMoves(s: Sys, g: Id, r: Reading)
    requires g in s.live && g in s.grants
    ensures Moves(s, BackUp(s, g, r))
  {
  }

  lemma WriteMoves(s: Sys, g: Id, i: nat, r: Reading)
    requires g in s.live && g in s.grants && i < |s.live[g].rows|
    ensures Moves(s, Write(s, g, i, r))
  {
  }

  lemma FilesEffect(s: Sys, g: Id, r: Reading)
    requires g in s.live && g in s.grants && PcOk(s.live[g])
    requires !Undoing(s.live[g].pc) && !CheckingAuthority(s.live[g].pc)
    ensures Moves(s, AdvanceFiles(s, g, r))
  {
    match s.live[g].pc
    case BackingUp => BackUpMoves(s, g, r);
    case Writing(i) => WriteMoves(s, g, i, r);
    case Verifying(i) => GotoMoves(s, s, g, Checking(i + 1));
    case FinalChecking(i, at) => GotoMoves(s, s, g, Committing(at)); GotoMoves(s, s, g, FinalChecking(i + 1, at));
  }

  lemma RestoreMoves(s: Sys, g: Id, i: nat, r: Reading)
    requires g in s.live && g in s.grants && i <= |s.live[g].backups| <= |s.live[g].rows|
    ensures Moves(s, Restore(s, g, i, r))
  {
  }

  lemma ConfirmMoves(s: Sys, g: Id, i: nat, good: bool, r: Reading)
    requires g in s.live && g in s.grants && |s.live[g].backups| <= |s.live[g].rows|
    ensures Moves(s, Confirm(s, g, i, good, r))
  {
  }

  lemma UndoEffect(s: Sys, g: Id, r: Reading)
    requires g in s.live && g in s.grants && PcOk(s.live[g]) && Undoing(s.live[g].pc)
    requires RowsAgree(s)
    ensures var t := AdvanceUndo(s, g, r);
      NoneStarted(s, t) && (SameRecords(s, t) || IsSettled(s, g, Failed, t) || IsSettled(s, g, IntegrityBlocked, t))
  {
    match s.live[g].pc
    case RollingBack(i) => RestoreMoves(s, g, i, r);
    case Confirming(i, good) => ConfirmMoves(s, g, i, good, r);
    case Blocking => GotoMoves(s, Block(s, s.grants[g].workspace), g, Closing(false));
    case Closing(undone) =>
      if g in s.txs { assert TxOk(s, g); }
      CloseEffect(s, g, if undone then Failed else IntegrityBlocked);
  }

  // ---------------------------------------------------------------- the records stay sound

  lemma SameBooks(s: Sys, t: Sys)
    requires Books(s) && SameRows(s, t)
    ensures Books(t)
  {
    forall g | g in t.txs ensures TxOk(t, g) { assert TxOk(s, g); }
    forall k ensures AppliedFor(t, k) == AppliedFor(s, k) {}
    forall i | 0 <= i < |t.log| ensures Logged(t, t.log[i]) { assert Logged(s, s.log[i]); }
    assert OneWriter(t) by {
      forall g, h | IsApplying(t, g) && IsApplying(t, h) && t.grants[g].workspace == t.grants[h].workspace ensures g == h {
        assert IsApplying(s, g) && IsApplying(s, h);
      }
    }
  }

  lemma GrantedRows(s: Sys, g: Id, grant: Grant, t: Sys)
    requires RowsAgree(s) && IsGranted(s, g, grant, t)
    ensures RowsAgree(t) && forall h :: IsApplying(t, h) ==> IsApplying(s, h) && t.grants[h] == s.grants[h]
  {
    hide InScope, PlanOk;
    forall h | h in t.txs ensures TxOk(t, h) { assert TxOk(s, h) && h != g; }
  }

  lemma BegunRows(s: Sys, g: Id, rows: seq<Row>, t: Sys)
    requires RowsAgree(s) && IsBegun(s, g, rows, t)
    ensures RowsAgree(t) && g !in s.txs
  {
    assert g !in s.txs;
    forall h | h in t.txs ensures TxOk(t, h) {
      if h != g {
        assert TxOk(s, h);
      } else {
        forall i | 0 <= i < |rows| ensures RowOk(rows[i]) { assert rows[i].kind in s.grants[g].kinds; }
      }
    }
  }

  lemma BegunWriters(s: Sys, g: Id, rows: seq<Row>, t: Sys)
    requires OneWriter(s) && IsBegun(s, g, rows, t)
    ensures OneWriter(t)
  {
    forall h, k | IsApplying(t, h) && IsApplying(t, k) && t.grants[h].workspace == t.grants[k].workspace ensures h == k {
      if h != g { assert IsApplying(s, h); }
      if k != g { assert IsApplying(s, k); }
    }
  }

  /** Which transactions are applied, and what they say, is the same in both states. */
  ghost predicate SameApplied(s: Sys, t: Sys) {
    && t.log == s.log && t.world == s.world
    && (forall h :: (h in s.txs && s.txs[h].state.Applied?) <==> (h in t.txs && t.txs[h].state.Applied?))
    && (forall h :: h in s.txs && s.txs[h].state.Applied? ==> h in t.txs && t.txs[h] == s.txs[h])
    && (forall h :: h in s.txs && s.txs[h].state.Applied? ==>
          (h in s.grants <==> h in t.grants) && (h in s.grants ==> t.grants[h] == s.grants[h]))
  }

  lemma SameAppliedKeeps(s: Sys, t: Sys)
    requires LogOk(s) && Conserved(s) && SameApplied(s, t)
    ensures LogOk(t) && Conserved(t)
  {
    forall i | 0 <= i < |t.log| ensures Logged(t, t.log[i]) { assert Logged(s, s.log[i]); }
    forall k ensures AppliedFor(t, k) == AppliedFor(s, k) {}
  }

  lemma BegunSameApplied(s: Sys, g: Id, rows: seq<Row>, t: Sys)
    requires IsBegun(s, g, rows, t) && g !in s.txs
    ensures SameApplied(s, t)
  {
  }

  lemma BegunBooks(s: Sys, g: Id, rows: seq<Row>, t: Sys)
    requires Books(s) && IsBegun(s, g, rows, t)
    ensures Books(t)
  {
    BegunRows(s, g, rows, t);
    BegunWriters(s, g, rows, t);
    BegunSameApplied(s, g, rows, t);
    SameAppliedKeeps(s, t);
  }

  lemma GrantedBooks(s: Sys, g: Id, grant: Grant, t: Sys)
    requires Books(s) && IsGranted(s, g, grant, t)
    ensures Books(t)
  {
    GrantedRows(s, g, grant, t);
    assert SameApplied(s, t) by {
      forall h | h in s.txs ensures h in s.grants && h in t.grants && s.grants[h] == t.grants[h] { assert TxOk(s, h); }
    }
    SameAppliedKeeps(s, t);
  }

  lemma SettledRows(s: Sys, g: Id, st: GrantState, t: Sys)
    requires RowsAgree(s) && OneWriter(s) && IsSettled(s, g, st, t)
    ensures RowsAgree(t) && OneWriter(t)
  {
    forall h | h in t.txs ensures TxOk(t, h) {
      assert TxOk(s, h);
      assert forall at :: EnvelopeOf(t, h, t.txs[h].rows, at) == EnvelopeOf(s, h, s.txs[h].rows, at);
    }
    forall h, k | IsApplying(t, h) && IsApplying(t, k) && t.grants[h].workspace == t.grants[k].workspace ensures h == k {
      assert IsApplying(s, h) && IsApplying(s, k);
    }
  }

  lemma SettledSameApplied(s: Sys, g: Id, st: GrantState, t: Sys)
    requires IsSettled(s, g, st, t)
    ensures SameApplied(s, t)
  {
  }

  lemma SettledBooks(s: Sys, g: Id, st: GrantState, t: Sys)
    requires Books(s) && IsSettled(s, g, st, t)
    ensures Books(t)
  {
    SettledRows(s, g, st, t);
    SettledSameApplied(s, g, st, t);
    SameAppliedKeeps(s, t);
  }

  lemma FinishedRows(s: Sys, g: Id, at: Time, t: Sys)
    requires RowsAgree(s) && OneWriter(s) && IsFinished(s, g, at, t)
    ensures RowsAgree(t) && OneWriter(t)
  {
    forall h | h in t.txs ensures TxOk(t, h) {
      assert TxOk(s, h);
      assert forall at :: EnvelopeOf(t, h, t.txs[h].rows, at) == EnvelopeOf(s, h, s.txs[h].rows, at);
    }
    forall h, k | IsApplying(t, h) && IsApplying(t, k) && t.grants[h].workspace == t.grants[k].workspace ensures h == k {
      assert IsApplying(s, h) && IsApplying(s, k);
    }
  }

  lemma FinishedLog(s: Sys, g: Id, at: Time, t: Sys)
    requires LogOk(s) && IsFinished(s, g, at, t)
    ensures LogOk(t)
  {
    forall i | 0 <= i < |t.log| ensures Logged(t, t.log[i]) {
      if i < |s.log| { assert Logged(s, s.log[i]); }
    }
    forall i, j | 0 <= i < j < |t.log| ensures t.log[i].grant != t.log[j].grant {
      if j == |s.log| { assert Logged(s, s.log[i]); }
    }
    forall h | h in t.txs && t.txs[h].state.Applied? ensures exists i :: 0 <= i < |t.log| && t.log[i].grant == h {
      if h == g {
        assert t.log[|s.log|].grant == h;
      } else {
        var i :| 0 <= i < |s.log| && s.log[i].grant == h;
        assert t.log[i].grant == h;
      }
    }
  }

  lemma FinishedMembers(s: Sys, g: Id, at: Time, t: Sys, k: Id)
    requires RowsAgree(s) && IsFinished(s, g, at, t)
    ensures g !in AppliedFor(s, k)
    ensures forall h :: h in AppliedFor(t, k) <==> h in AppliedFor(s, k) || (h == g && k == s.grants[g].task)
  {
  }

  lemma FinishedSet(s: Sys, g: Id, at: Time, t: Sys, k: Id)
    requires RowsAgree(s) && IsFinished(s, g, at, t)
    ensures g !in AppliedFor(s, k) && AppliedFor(t, k) == AppliedFor(s, k) + if k == s.grants[g].task then {g} else {}
  {
    FinishedMembers(s, g, at, t, k);
  }

  lemma FinishedFor(s: Sys, g: Id, t: Sys, k: Id)
    requires g in s.grants && g !in AppliedFor(s, k)
    requires AppliedFor(t, k) == AppliedFor(s, k) + if k == s.grants[g].task then {g} else {}
    ensures |AppliedFor(t, k)| == |AppliedFor(s, k)| + (if k == s.grants[g].task then 1 else 0)
  {
  }

  lemma FinishedCounts(s: Sys, g: Id, at: Time, t: Sys)
    requires RowsAgree(s) && Conserved(s) && IsFinished(s, g, at, t)
    ensures Conserved(t)
  {
    forall k ensures |EvidenceOf(t.world.db, k)| + |AppliedFor(t, k)| == if UnderReview(t.world.db, k) then 1 else 0 {
      assert EvidenceOf(t.world.db, k) == EvidenceOf(s.world.db, k);
      FinishedSet(s, g, at, t, k);
      FinishedFor(s, g, t, k);
    }
  }

  lemma FinishedBooks(s: Sys, g: Id, at: Time, t: Sys)
    requires Books(s) && IsFinished(s, g, at, t)
    ensures Books(t)
  {
    FinishedRows(s, g, at, t);
    FinishedLog(s, g, at, t);
    FinishedCounts(s, g, at, t);
  }

  lemma FinishedWorld(s: Sys, g: Id, at: Time, t: Sys)
    requires StoreRuns.Inv(s.world) && IsFinished(s, g, at, t)
    ensures StoreRuns.Inv(t.world)
  {
    StoreRuns.AcceptingIsAStep(s.world, s.grants[g].task);
    StoreRuns.StepKeepsInv(s.world, StoreRuns.Accepting(s.grants[g].task), s.world.clock);
  }

  // ---------------------------------------------------------------- store operations

  lemma EvidenceGrows(db: Db, db2: Db, t: Id, e: Id, d: Digest, k: Id)
    requires EvidenceKey(t, e) !in db.evidence && db2.evidence == db.evidence[EvidenceKey(t, e) := d]
    ensures |EvidenceOf(db2, k)| == |EvidenceOf(db, k)| + (if k == t then 1 else 0)
  {
    if k == t {
      assert EvidenceOf(db2, k) == EvidenceOf(db, k) + {EvidenceKey(t, e)};
    } else {
      assert EvidenceOf(db2, k) == EvidenceOf(db, k);
    }
  }

  lemma ChangeConserves(w: StoreRuns.World, w2: StoreRuns.World, c: StoreRuns.Change, k: Id)
    requires StoreRuns.RowsOk(w) && StoreRuns.Explains(c, w, w2) && !StoreRuns.IsAccept(c)
    ensures |EvidenceOf(w2.db, k)| - (if UnderReview(w2.db, k) then 1 else 0)
            == |EvidenceOf(w.db, k)| - (if UnderReview(w.db, k) then 1 else 0)
  {
    if c.MovedRow? && c.move.Receive? {
      EvidenceGrows(w.db, w2.db, c.t, c.move.evidence, c.move.digest, k);
    } else {
      ChangeReviews(w, w2, c, k);
      hide StoreRuns.RowsOk, StoreRuns.Explains, UnderReview;
      assert w2.db.evidence == w.db.evidence;
      assert EvidenceOf(w2.db, k) == EvidenceOf(w.db, k);
    }
  }

  /** Only evidence moves a task to review, and nothing moves it back. */
  lemma ChangeReviews(w: StoreRuns.World, w2: StoreRuns.World, c: StoreRuns.Change, k: Id)
    requires StoreRuns.RowsOk(w) && StoreRuns.Explains(c, w, w2) && !StoreRuns.IsAccept(c) && !(c.MovedRow? && c.move.Receive?)
    ensures w2.db.evidence == w.db.evidence && (UnderReview(w2.db, k) <==> UnderReview(w.db, k))
  {
    hide CanTake, Reviewed, StoreRuns.Moved, StoreRuns.CanMove;
    if c.MovedRow? { MoveReviews(w.db.tasks[c.t], c.move, w.claims[c.t]); }
    if c.ChargedRows? && k in c.ids { MoveReviews(w.db.tasks[k], StoreRuns.Charge, w.claims[k]); }
    if c.ClaimedRow? { ClaimReviews(w.db.tasks[c.t], c.lease); }
    if c.NewRow? { NewReviews(w2.db.tasks[c.t]); }
  }

  lemma MoveReviews(row: Task, m: StoreRuns.Move, claims: nat)
    requires StoreRuns.TaskOk(row, claims) && StoreRuns.CanMove(row, m) && !m.Accept? && !m.Receive?
    ensures Reviewed(StoreRuns.Moved(row, m).state) <==> Reviewed(row.state)
    ensures m.Charge? ==> StoreRuns.Moved(row, m) == Charged(row)
  {
  }

  lemma ClaimReviews(row: Task, l: Lease)
    requires Schedulable(row)
    ensures !Reviewed(row.(state := Leased, lease := Some(l)).state) && !Reviewed(row.state)
  {
  }

  lemma NewReviews(row: Task)
    requires !Claimed(row.state)
    ensures !Reviewed(row.state)
  {
  }

  lemma OnlyAcceptingAccepts(w: StoreRuns.World, a: StoreRuns.Action, now: Time) returns (c: StoreRuns.Change)
    requires StoreRuns.RowsOk(w) && StoreRuns.Allowed(w, a, now) && !a.Accepting?
    ensures StoreRuns.Explains(c, w, StoreRuns.Next(w, a, now)) && !StoreRuns.IsAccept(c)
  {
    c := StoreRuns.StepExplained(w, a, now);
  }

  lemma StoreStepBooks(s: Sys, a: StoreRuns.Action, now: Time)
    requires StoreRuns.Inv(s.world) && Books(s) && StoreRuns.Allowed(s.world, a, now) && !a.Accepting?
    ensures Books(s.(world := StoreRuns.Next(s.world, a, now)))
  {
    var t := s.(world := StoreRuns.Next(s.world, a, now));
    var c := OnlyAcceptingAccepts(s.world, a, now);
    forall g | g in t.txs ensures TxOk(t, g) { assert TxOk(s, g); }
    forall i | 0 <= i < |t.log| ensures Logged(t, t.log[i]) { assert Logged(s, s.log[i]); }
    forall k ensures |EvidenceOf(t.world.db, k)| + |AppliedFor(t, k)| == if UnderReview(t.world.db, k) then 1 else 0 {
      ChangeConserves(s.world, t.world, c, k);
      assert AppliedFor(t, k) == AppliedFor(s, k);
    }
    forall g, h | IsApplying(t, g) && IsApplying(t, h) && t.grants[g].workspace == t.grants[h].workspace ensures g == h {
      assert IsApplying(s, g) && IsApplying(s, h);
    }
  }

  // ---------------------------------------------------------------- what lasts

  /** Blocks are never cleared, grants never disappear, and a terminal grant stays as it is. */
  ghost predicate Lasting(s: Sys, t: Sys) {
    && s.blocked <= t.blocked
    && forall g :: g in s.grants ==>
         g in t.grants && (Terminal(s.grants[g].state) ==> t.grants[g].state == s.grants[g].state)
  }

  lemma SameLasts(s: Sys, t: Sys)
    requires SameRecords(s, t)
    ensures Lasting(s, t)
  {
  }

  lemma GrantedLasts(s: Sys, g: Id, grant: Grant, t: Sys)
    requires IsGranted(s, g, grant, t)
    ensures Lasting(s, t)
  {
  }

  lemma BegunLasts(s: Sys, g: Id, rows: seq<Row>, t: Sys)
    requires IsBegun(s, g, rows, t)
    ensures Lasting(s, t)
  {
  }

  lemma FinishedLasts(s: Sys, g: Id, at: Time, t: Sys)
    requires IsFinished(s, g, at, t)
    ensures Lasting(s, t)
  {
  }

  lemma SettledLasts(s: Sys, g: Id, st: GrantState, t: Sys)
    requires IsSettled(s, g, st, t)
    ensures Lasting(s, t)
  {
  }

  /** No record changed, or grant `g` was completed or settled. */
  ghost predicate IsClosed(s: Sys, g: Id, at: Time, t: Sys) {
    SameRecords(s, t) || IsFinished(s, g, at, t) || IsSettled(s, g, Failed, t) || IsSettled(s, g, IntegrityBlocked, t)
  }

  ghost predicate BooksLast(s: Sys, t: Sys) { StoreRuns.Inv(t.world) && Books(t) && Lasting(s, t) }

  lemma SameClosed(s: Sys, t: Sys)
    requires StoreRuns.Inv(s.world) && Books(s) && SameRecords(s, t)
    ensures BooksLast(s, t)
  {
    SameBooks(s, t);
    SameLasts(s, t);
  }

  lemma FinishedClosed(s: Sys, g: Id, at: Time, t: Sys)
    requires StoreRuns.Inv(s.world) && Books(s) && IsFinished(s, g, at, t)
    ensures BooksLast(s, t)
  {
    FinishedBooks(s, g, at, t);
    FinishedWorld(s, g, at, t);
    FinishedLasts(s, g, at, t);
  }

  lemma SettledClosed(s: Sys, g: Id, st: GrantState, t: Sys)
    requires StoreRuns.Inv(s.world) && Books(s) && IsSettled(s, g, st, t)
    ensures BooksLast(s, t)
  {
    SettledBooks(s, g, st, t);
    SettledLasts(s, g, st, t);
  }

  lemma GrantedClosed(s: Sys, g: Id, grant: Grant, t: Sys)
    requires StoreRuns.Inv(s.world) && Books(s) && IsGranted(s, g, grant, t)
    ensures BooksLast(s, t)
  {
    GrantedBooks(s, g, grant, t);
    GrantedLasts(s, g, grant, t);
  }

  lemma GrantedOthers(s: Sys, g: Id, grant: Grant, t: Sys)
    requires IsGranted(s, g, grant, t)
    ensures OthersApply(s, g, t) && t.rescues == s.rescues
  {
  }

  lemma BegunClosed(s: Sys, g: Id, rows: seq<Row>, t: Sys)
    requires StoreRuns.Inv(s.world) && Books(s) && IsBegun(s, g, rows, t)
    ensures BooksLast(s, t)
  {
    BegunBooks(s, g, rows, t);
    BegunLasts(s, g, rows, t);
  }

  lemma BegunOthers(s: Sys, g: Id, rows: seq<Row>, t: Sys)
    requires IsBegun(s, g, rows, t)
    ensures OthersApply(s, g, t) && t.rescues == s.rescues
  {
  }

  lemma OpenedBooks(s: Sys, g: Id, grant: Grant, rows: seq<Row>, t: Sys)
    requires StoreRuns.Inv(s.world) && Books(s)
    requires SameRecords(s, t) || IsGranted(s, g, grant, t) || IsBegun(s, g, rows, t)
    ensures BooksLast(s, t) && OthersApply(s, g, t) && t.rescues == s.rescues
  {
    if SameRecords(s, t) { SameClosed(s, t); SameOthers(s, g, t); }
    else if IsBegun(s, g, rows, t) { BegunClosed(s, g, rows, t); BegunOthers(s, g, rows, t); }
    else { GrantedClosed(s, g, grant, t); GrantedOthers(s, g, grant, t); }
  }

  lemma ClosedBooks(s: Sys, g: Id, at: Time, t: Sys)
    requires StoreRuns.Inv(s.world) && Books(s) && IsClosed(s, g, at, t)
    ensures BooksLast(s, t)
  {
    if SameRecords(s, t) { SameClosed(s, t); }
    else if IsFinished(s, g, at, t) { FinishedClosed(s, g, at, t); }
    else if IsSettled(s, g, Failed, t) { SettledClosed(s, g, Failed, t); }
    else { SettledClosed(s, g, IntegrityBlocked, t); }
  }

  /** The transactions of other grants still apply. */
  ghost predicate OthersApply(s: Sys, g: Id, t: Sys) {
    forall h :: h != g && IsApplying(s, h) && h in s.txs ==> IsApplying(t, h) && h in t.txs
  }

  lemma SameOthers(s: Sys, g: Id, t: Sys)
    requires SameRecords(s, t)
    ensures OthersApply(s, g, t) && t.rescues == s.rescues
  {
  }

  lemma FinishedOthers(s: Sys, g: Id, at: Time, t: Sys)
    requires IsFinished(s, g, at, t)
    ensures OthersApply(s, g, t) && t.rescues == s.rescues
  {
  }

  lemma SettledOthers(s: Sys, g: Id, st: GrantState, t: Sys)
    requires IsSettled(s, g, st, t)
    ensures OthersApply(s, g, t) && t.rescues == s.rescues
  {
  }

  lemma ClosedOthers(s: Sys, g: Id, at: Time, t: Sys)
    requires IsClosed(s, g, at, t)
    ensures OthersApply(s, g, t) && t.rescues == s.rescues
  {
    if SameRecords(s, t) { SameOthers(s, g, t); }
    else if IsFinished(s, g, at, t) { FinishedOthers(s, g, at, t); }
    else if IsSettled(s, g, Failed, t) { SettledOthers(s, g, Failed, t); }
    else { SettledOthers(s, g, IntegrityBlocked, t); }
  }

  /** A step of the running applier of `g`, or one about a grant not yet applying, disturbs no recovery. */
  lemma RescuesStay(s: Sys, g: Id, t: Sys)
    requires RescuesOk(s) && OthersApply(s, g, t) && t.rescues == s.rescues && !Abandoned(s, g)
    requires forall h :: h != g && h in t.live ==> h in s.live
    ensures RescuesOk(t)
  {
    forall c | c in t.rescues ensures Abandoned(t, t.rescues[c].grant) { assert Abandoned(s, s.rescues[c].grant); }
  }

  lemma ClosedSound(s: Sys, g: Id, at: Time, t: Sys)
    requires Sound(s) && IsClosed(s, g, at, t) && g in s.live && NoneStarted(s, t)
    ensures Sound(t) && Lasting(s, t)
  {
    ClosedBooks(s, g, at, t);
    ClosedOthers(s, g, at, t);
    RescuesStay(s, g, t);
  }

  /** A step of an applier changes no record, or completes, or settles grant and transaction alike. */
  lemma AdvanceClosed(s: Sys, g: Id, r: Reading) returns (at: Time)
    requires RowsAgree(s)
    ensures IsClosed(s, g, at, Advance(s, g, r)) && NoneStarted(s, Advance(s, g, r))
  {
    hide AdvanceUndo, AdvanceAuthority, AdvanceFiles, IsFinished, IsSettled;
    at := 0.0;
    if g in s.live && g in s.grants && PcOk(s.live[g]) {
      if Undoing(s.live[g].pc) { UndoEffect(s, g, r); }
      else if CheckingAuthority(s.live[g].pc) {
        AuthorityEffect(s, g, r);
        at := if s.live[g].pc.Committing? then s.live[g].pc.at else 0.0;
      }
      else { FilesEffect(s, g, r); }
    }
  }

  /** It leaves the recoveries where they stood. */
  lemma AdvanceCalls(s: Sys, g: Id, r: Reading)
    requires RowsAgree(s)
    ensures Advance(s, g, r).rescues == s.rescues
  {
    hide Advance, IsClosed;
    var at := AdvanceClosed(s, g, r);
    ClosedOthers(s, g, at, Advance(s, g, r));
  }

  lemma AdvanceBooks(s: Sys, g: Id, r: Reading)
    requires StoreRuns.Inv(s.world) && Books(s)
    ensures BooksLast(s, Advance(s, g, r))
  {
    hide Advance, IsClosed, BooksLast;
    var at := AdvanceClosed(s, g, r);
    ClosedBooks(s, g, at, Advance(s, g, r));
  }

  lemma AdvanceSound(s: Sys, g: Id, r: Reading)
    requires Sound(s)
    ensures Sound(Advance(s, g, r)) && Lasting(s, Advance(s, g, r))
  {
    if g in s.live {
      hide Advance, IsClosed, Books, RescuesOk;
      var at := AdvanceClosed(s, g, r);
      ClosedSound(s, g, at, Advance(s, g, r));
    }
  }

  // ---------------------------------------------------------------- recoveries

  /** While grant and transaction apply, the late completion is the completion. */
  lemma LateIsComplete(s: Sys, g: Id, at: Time)
    requires g in s.grants && g in s.txs && s.grants[g].state.Applying? && s.txs[g].state.Applying?
    ensures CompleteLate(s, g, at) == Complete(s, g, at)
  {
  }

  lemma ConcludeEffect(s: Sys, c: Id, g: Id, v: GrantState)
    requires c in s.rescues && IsApplying(s, g) && g in s.txs && s.txs[g].state.Applying?
    requires v.Failed? || v.Applied? || v.IntegrityBlocked?
    ensures var t := Conclude(s, c, g, v); IsClosed(s.(rescues := t.rescues), g, s.rescues[c].at, t)
  {
    var t := Conclude(s, c, g, v);
    var u := s.(rescues := t.rescues);
    if v.Failed? { assert IsSettled(u, g, Failed, t); }
    else if v.IntegrityBlocked? { assert IsSettled(u, g, IntegrityBlocked, t); }
    else { LateIsComplete(s, g, s.rescues[c].at); }
  }

  lemma LookEffect(s: Sys, c: Id, d: Disk, rows: seq<Row>)
    requires c in s.rescues && |s.rescues[c].images| < |rows|
    ensures var t := Look(s, c, d, rows); SameRecords(s.(rescues := t.rescues), t)
  {
  }

  lemma DecideEffect(s: Sys, c: Id, ws: Id, rows: seq<Row>)
    requires c in s.rescues
    ensures var t := Decide(s, c, ws, rows); SameRecords(s.(rescues := t.rescues), t)
  {
  }

  lemma EndEffect(s: Sys, c: Id, ws: Id)
    ensures var t := EndCall(Block(s, ws), c); SameRecords(s.(rescues := t.rescues), t)
    ensures var t := EndCall(s, c); SameRecords(s.(rescues := t.rescues), t)
  {
  }

  /** A step of a recovery changes no record, or completes, or settles grant and transaction alike. */
  lemma RescueEffect(s: Sys, c: Id, g: Id, r: Reading)
    requires RowsAgree(s) && RescuesOk(s)
    ensures var t := Continue(s, c, g, r);
      IsClosed(s.(rescues := t.rescues), g, if c in s.rescues then s.rescues[c].at else 0.0, t)
  {
    if c in s.rescues && s.rescues[c].grant == g {
      assert Abandoned(s, g) && StageOk(s.rescues[c].stage) && TxOk(s, g);
      var k, rows, ws := s.rescues[c], s.txs[g].rows, s.grants[g].workspace;
      if k.stage.Decided? && !r.fault { ConcludeEffect(s, c, g, k.stage.verdict); }
      else if k.stage.Looking? && |k.images| < |rows| && !r.fault { LookEffect(s, c, DiskOf(s, ws), rows); }
      else { DecideEffect(s, c, ws, rows); EndEffect(s, c, ws); }
    }
  }

  /** A step of call `c` ends it, or keeps it on its grant. */
  ghost predicate SameCalls(s: Sys, c: Id, t: Sys) {
    || t.rescues == s.rescues
    || t.rescues == s.rescues - {c}
    || (c in s.rescues && c in t.rescues && t.rescues == s.rescues[c := t.rescues[c]]
        && t.rescues[c].grant == s.rescues[c].grant && StageOk(t.rescues[c].stage))
  }

  /** No grant, transaction or applier moved. */
  ghost predicate SameOwners(s: Sys, t: Sys) { t.grants == s.grants && t.txs == s.txs && t.live == s.live }

  lemma LookCalls(s: Sys, c: Id, d: Disk, rows: seq<Row>)
    requires c in s.rescues && |s.rescues[c].images| < |rows| && s.rescues[c].stage.Looking?
    ensures SameCalls(s, c, Look(s, c, d, rows)) && SameOwners(s, Look(s, c, d, rows))
  {
  }

  lemma DecideCalls(s: Sys, c: Id, ws: Id, rows: seq<Row>)
    requires c in s.rescues
    ensures SameCalls(s, c, Decide(s, c, ws, rows)) && SameOwners(s, Decide(s, c, ws, rows))
  {
  }

  lemma ConcludeCalls(s: Sys, c: Id, g: Id, v: GrantState)
    requires c in s.rescues && g in s.grants && g in s.txs
    ensures var t := Conclude(s, c, g, v);
      SameCalls(s, c, t) && t.live == s.live && (c in t.rescues ==> SameOwners(s, t))
  {
  }

  lemma ContinueCalls(s: Sys, c: Id, g: Id, r: Reading)
    ensures var t := Continue(s, c, g, r);
      SameCalls(s, c, t) && t.live == s.live && (c in t.rescues ==> SameOwners(s, t))
  {
    if c in s.rescues && s.rescues[c].grant == g && g in s.grants && g in s.txs {
      var k, rows, ws := s.rescues[c], s.txs[g].rows, s.grants[g].workspace;
      if k.stage.Decided? { ConcludeCalls(s, c, g, k.stage.verdict); }
      else if k.stage.Looking? && |k.images| < |rows| { LookCalls(s, c, DiskOf(s, ws), rows); }
      else { DecideCalls(s, c, ws, rows); }
    }
  }

  lemma CallsStay(s: Sys, u: Sys, c: Id, g: Id, t: Sys)
    requires RescuesOk(s) && c in s.rescues && s.rescues[c].grant == g && SameCalls(s, c, t) && t.live == s.live
    requires c in t.rescues ==> SameOwners(s, t)
    requires u.grants == s.grants && u.txs == s.txs && OthersApply(u, g, t)
    ensures RescuesOk(t)
  {
    forall d | d in t.rescues ensures Abandoned(t, t.rescues[d].grant) && StageOk(t.rescues[d].stage) {
      assert d in s.rescues && Abandoned(s, s.rescues[d].grant);
      assert d != c ==> IsApplying(u, s.rescues[d].grant);
    }
  }

  lemma ContinueRescues(s: Sys, c: Id, g: Id, r: Reading)
    requires RowsAgree(s) && RescuesOk(s)
    ensures RescuesOk(Continue(s, c, g, r))
  {
    if c in s.rescues && s.rescues[c].grant == g {
      var t := Continue(s, c, g, r);
      ContinueCalls(s, c, g, r);
      RescueEffect(s, c, g, r);
      ClosedOthers(s.(rescues := t.rescues), g, s.rescues[c].at, t);
      CallsStay(s, s.(rescues := t.rescues), c, g, t);
    }
  }

  lemma SurveyEffect(s: Sys, c: Id, g: Id, r: Reading)
    ensures var t := Survey(s, c, g, r); SameRecords(s.(rescues := t.rescues), t) && t.live == s.live
    ensures var t := Survey(s, c, g, r);
      || t.rescues == s.rescues
      || (c !in s.rescues && IsApplying(s, g) && g in s.txs && t.rescues == s.rescues[c := Rescue(g, r.now, [], Looking)])
  {
    if g in s.grants { EnterEffect(s, s.grants[g].workspace, s.grants[g].target, r.intact); }
  }

  lemma SurveyRescues(s: Sys, c: Id, g: Id, r: Reading)
    requires RescuesOk(s) && Permitted(s, Surveying(c, g))
    ensures RescuesOk(Survey(s, c, g, r))
  {
    SurveyEffect(s, c, g, r);
  }

  lemma SurveySound(s: Sys, c: Id, g: Id, r: Reading)
    requires Sound(s) && Permitted(s, Surveying(c, g))
    ensures Sound(Survey(s, c, g, r)) && Lasting(s, Survey(s, c, g, r))
  {
    SurveyEffect(s, c, g, r);
    SameBooks(s, s.(rescues := Survey(s, c, g, r).rescues));
    SameClosed(s.(rescues := Survey(s, c, g, r).rescues), Survey(s, c, g, r));
    SurveyRescues(s, c, g, r);
  }

  lemma ContinueSound(s: Sys, c: Id, g: Id, r: Reading)
    requires Sound(s)
    ensures Sound(Continue(s, c, g, r)) && Lasting(s, Continue(s, c, g, r))
  {
    RescueEffect(s, c, g, r);
    SameBooks(s, s.(rescues := Continue(s, c, g, r).rescues));
    ClosedBooks(s.(rescues := Continue(s, c, g, r).rescues), g, if c in s.rescues then s.rescues[c].at else 0.0, Continue(s, c, g, r));
    ContinueRescues(s, c, g, r);
  }

  // ---------------------------------------------------------------- every step

  lemma BeginLive(s: Sys, g: Id, rows: seq<Row>, r: Reading)
    ensures var t := Begin(s, g, rows, r); forall h :: h != g && h in t.live ==> h in s.live
  {
    if g in s.grants { EnterEffect(s, s.grants[g].workspace, s.grants[g].target, r.intact); }
  }

  lemma BeginBooks(s: Sys, g: Id, rows: seq<Row>, r: Reading)
    requires StoreRuns.Inv(s.world) && Books(s) && Canonical(rows)
    ensures var t := Begin(s, g, rows, r); BooksLast(s, t) && OthersApply(s, g, t) && t.rescues == s.rescues
  {
    var t := Begin(s, g, rows, r);
    if g in s.grants && s.grants[g].state.Issued? {
      BeginEffect(s, g, rows, r);
      OpenedBooks(s, g, s.grants[g].(state := Lapsed), rows, t);
    } else {
      SameClosed(s, t);
    }
  }

  lemma BeginSound(s: Sys, g: Id, rows: seq<Row>, r: Reading)
    requires Sound(s) && Canonical(rows)
    ensures Sound(Begin(s, g, rows, r)) && Lasting(s, Begin(s, g, rows, r))
  {
    if g in s.grants && s.grants[g].state.Issued? {
      BeginBooks(s, g, rows, r);
      BeginLive(s, g, rows, r);
      RescuesStay(s, g, Begin(s, g, rows, r));
    }
  }

  lemma IssueBooks(s: Sys, a: Action, r: Reading)
    requires StoreRuns.Inv(s.world) && Books(s) && a.Issuing? && Permitted(s, a)
    ensures var t := Step(s, a, r); BooksLast(s, t) && OthersApply(s, a.g, t) && t.rescues == s.rescues
  {
    var t := Step(s, a, r);
    IssueEffect(s, a, r);
    if SameRecords(s, t) { SameClosed(s, t); SameOthers(s, a.g, t); } else { OpenedBooks(s, a.g, t.grants[a.g], [], t); }
  }

  lemma IssueSound(s: Sys, a: Action, r: Reading)
    requires Sound(s) && a.Issuing? && Permitted(s, a)
    ensures Sound(Step(s, a, r)) && Lasting(s, Step(s, a, r))
  {
    IssueBooks(s, a, r);
    RescuesStay(s, a.g, Step(s, a, r));
  }

  lemma CrashSound(s: Sys, gone: set<Id>, calls: set<Id>, forgotten: set<Id>)
    requires Sound(s)
    ensures Sound(Crash(s, gone, calls, forgotten)) && Lasting(s, Crash(s, gone, calls, forgotten))
  {
    hide Books, StoreRuns.Inv;
    SameBooks(s, Crash(s, gone, calls, forgotten));
    CrashRescues(s, gone, calls, forgotten);
  }

  lemma CrashRescues(s: Sys, gone: set<Id>, calls: set<Id>, forgotten: set<Id>)
    requires RescuesOk(s)
    ensures RescuesOk(Crash(s, gone, calls, forgotten))
  {
  }

  lemma StoreStepSound(s: Sys, a: StoreRuns.Action, now: Time)
    requires Sound(s) && StoreRuns.Allowed(s.world, a, now) && !a.Accepting?
    ensures var t := s.(world := StoreRuns.Next(s.world, a, now)); Sound(t) && Lasting(s, t)
  {
    var t := s.(world := StoreRuns.Next(s.world, a, now));
    StoreStepBooks(s, a, now);
    StoreRuns.StepKeepsInv(s.world, a, now);
    assert forall g :: Abandoned(s, g) ==> Abandoned(t, g);
  }

  /** Whatever interleaves, the records stay sound and a durable block is never cleared. */
  lemma StepSound(s: Sys, a: Action, r: Reading)
    requires Sound(s) && Permitted(s, a)
    ensures Sound(Step(s, a, r)) && Lasting(s, Step(s, a, r))
  {
    match a
    case Issuing(_, _, _, _, _, _, _, _, _) => IssueSound(s, a, r);
    case Beginning(g, rows) => BeginSound(s, g, rows, r);
    case Advancing(g) => AdvanceSound(s, g, r);
    case Surveying(c, g) => SurveySound(s, c, g, r);
    case Rescuing(c, g) => ContinueSound(s, c, g, r);
    case Crashing(gone, calls, forgotten) => CrashSound(s, gone, calls, forgotten);
    case StoreStep(b, now) => StoreStepSound(s, b, now);
    case Tampering(ws, p, c) => SameBooks(s, Step(s, a, r));
  }

  // ---------------------------------------------------------------- whole runs

  datatype Event = Event(action: Action, reading: Reading)

  function After(s: Sys, e: Event): Sys { Step(s, e.action, e.reading) }

  function Run(s: Sys, es: seq<Event>): Sys
    decreases |es|
  {
    if es == [] then s else Run(After(s, es[0]), es[1..])
  }

  lemma {:induction false} RunLast(s: Sys, es: seq<Event>, e: Event)
    ensures Run(s, es + [e]) == After(Run(s, es), e)
    decreases |es|
  {
    if es == [] {
      assert ([] + [e])[1..] == [];
    } else {
      assert (es + [e])[1..] == es[1..] + [e];
      RunLast(After(s, es[0]), es[1..], e);
    }
  }

  predicate PermittedRun(s: Sys, es: seq<Event>)
    decreases |es|
  {
    es == [] || (Permitted(s, es[0].action) && PermittedRun(After(s, es[0]), es[1..]))
  }

  /** Over every run, with tampering and crashes at any point, in which a recovery starts only on a
      grant nobody else owns: grant and transaction rows agree, at most one grant is applying per
      workspace, and every task under review rests on exactly one piece of evidence; blocks and
      terminal states last. */
  lemma {:induction false} RunSound(s: Sys, es: seq<Event>)
    requires Sound(s) && PermittedRun(s, es)
    ensures Sound(Run(s, es)) && Lasting(s, Run(s, es))
    decreases |es|
  {
    if es != [] {
      StepSound(s, es[0].action, es[0].reading);
      RunSound(After(s, es[0]), es[1..]);
    }
  }

  /** `route_or_wait` keeps review evidence conserved exactly when it writes nothing or the task is
      not under review: otherwise it moves a reviewed task back and leaves its evidence behind. */
  lemma RouteOrWaitConserves(s: Sys, t: Id, now: Time)
    requires Conserved(s)
    ensures var r := RouteOrWait(s.world.db, t, now);
      Conserved(s.(world := s.world.(db := r.db))) <==> (r.answer != Done(false) || !UnderReview(s.world.db, t))
  {
    var r := RouteOrWait(s.world.db, t, now);
    var s2 := s.(world := s.world.(db := r.db));
    forall k ensures EvidenceOf(s2.world.db, k) == EvidenceOf(s.world.db, k) && AppliedFor(s2, k) == AppliedFor(s, k) {}
    if r.answer == Done(false) {
      assert !UnderReview(s2.world.db, t);
      if UnderReview(s.world.db, t) {
        assert |EvidenceOf(s2.world.db, t)| + |AppliedFor(s2, t)| == 1;
      } else {
        forall k ensures UnderReview(s2.world.db, k) == UnderReview(s.world.db, k) {}
      }
    } else {
      assert s2 == s;
    }
  }

  function NewSystem(known: map<Id, Id>, disks: map<Id, Disk>): Sys {
    Sys(StoreRuns.EMPTY_STORE, map[], map[], known, {}, {}, disks, map[], map[], map[], [])
  }

  lemma NewSystemSound(known: map<Id, Id>, disks: map<Id, Disk>)
    ensures Sound(NewSystem(known, disks))
  {
    StoreRuns.EmptyStoreOk();
    forall k ensures EvidenceOf(StoreRuns.EMPTY_STORE.db, k) == {} {}
    forall k ensures AppliedFor(NewSystem(known, disks), k) == {} {}
  }

  /** After any such run from a new system, a task is under review or completed exactly when it rests
      on one accepted result or on one applied transaction, not both; otherwise it rests on neither. */
  lemma ReviewEvidence(known: map<Id, Id>, disks: map<Id, Disk>, es: seq<Event>, t: Id)
    requires PermittedRun(NewSystem(known, disks), es)
    ensures var s := Run(NewSystem(known, disks), es);
      && (UnderReview(s.world.db, t) <==>
          || (|EvidenceOf(s.world.db, t)| == 1 && AppliedFor(s, t) == {})
          || (EvidenceOf(s.world.db, t) == {} && |AppliedFor(s, t)| == 1))
      && (!UnderReview(s.world.db, t) ==> EvidenceOf(s.world.db, t) == {} && AppliedFor(s, t) == {})
  {
    var s := Run(NewSystem(known, disks), es);
    NewSystemSound(known, disks);
    RunSound(NewSystem(known, disks), es);
    assert |EvidenceOf(s.world.db, t)| + |AppliedFor(s, t)| == if UnderReview(s.world.db, t) then 1 else 0;
  }
}
