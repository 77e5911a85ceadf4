/** Recoveries that may start at any time, also while the applier of their grant still runs or beside each
    other: exactly when the files still follow the log and review evidence is still conserved. */
module RacingRecoveries {
  import opened Basics
  import opened Store
  import opened Disks
  import opened Execution
  import opened ExecutionRecords
  import opened RecoveryCalls
  import opened ExecutionFiles
  import StoreRuns

  // ---------------------------------------------------------------- the last transaction

  /** What the files would have to show if they were looked at again. */
  predicate StillShows(s: Sys, g: Id, v: GrantState)
    requires g in s.grants && g in s.txs
  {
    s.grants[g].workspace in s.blocked || if v.Applied? then AllPost(PathDisk(s, g), s.txs[g].rows) else AllPre(PathDisk(s, g), s.txs[g].rows)
  }

  /** The last transaction closes grant `g`: both rows are still applying, and a verdict APPLIED finds
      the task running. */
  predicate Closes(s: Sys, g: Id, v: GrantState) {
    Unfinished(s, g) && (v.Applied? ==> TaskRunning(s.world.db, s.grants[g].task))
  }

  lemma PreExactly(s: Sys, init: map<Id, Disk>, g: Id)
    requires Placed(s, init, g)
    ensures AllPre(PathDisk(s, g), s.txs[g].rows) <==> PathDisk(s, g) == Base(s, init, s.grants[g].workspace)
  {
    if AllPre(PathDisk(s, g), s.txs[g].rows) { AllPreMeansUntouched(Base(s, init, s.grants[g].workspace), s.txs[g].rows, s.done[g]); }
  }

  lemma PostExactly(s: Sys, init: map<Id, Disk>, g: Id)
    requires Placed(s, init, g)
    ensures AllPost(PathDisk(s, g), s.txs[g].rows) <==> PathDisk(s, g) == WriteRows(Base(s, init, s.grants[g].workspace), s.txs[g].rows)
  {
    var base, rows := Base(s, init, s.grants[g].workspace), s.txs[g].rows;
    if AllPost(PathDisk(s, g), rows) { AllPostMeansApplied(base, rows, s.done[g]); }
    assert rows[..|rows|] == rows;
    if PathDisk(s, g) == WriteRows(base, rows) {
      forall i | 0 <= i < |rows| ensures ImageAt(PathDisk(s, g), rows[i].path) == rows[i].post { PrefixImages(base, rows, |rows|, i); }
    }
  }

  /** Grant `g` is closed, with the files, the blocks and the appliers as they were. */
  ghost predicate Closed(s: Sys, t: Sys, g: Id) {
    Local(s, t, g) && t.live == s.live && t.blocked == s.blocked && t.disks == s.disks && !IsApplying(t, g)
  }

  lemma SettleCloses(s: Sys, g: Id, v: GrantState)
    requires Unfinished(s, g) && !v.Applying?
    ensures Closed(s, Settle(s, g, v), g) && Settle(s, g, v).log == s.log
  {
  }

  lemma CompleteCloses(s: Sys, g: Id, at: Time)
    requires Unfinished(s, g)
    ensures var t := Complete(s, g, at); Closed(s, t, g) && t.log == s.log + [Entry(g, s.grants[g].workspace, s.txs[g].rows)]
  {
  }

  lemma CallsClosed(s: Sys, t: Sys, u: Sys, g: Id)
    requires Closed(s, t, g) && t == u.(rescues := t.rescues)
    ensures Closed(s, u, g) && u.log == t.log
  {
    hide Local;
    CallsLocal(s, t, u, g);
  }

  /** The rows and the log after a last transaction that closes the grant. */
  lemma ConcludeClosed(s: Sys, c: Id, g: Id, v: GrantState)
    requires c in s.rescues && Closes(s, g, v) && StageOk(Decided(v))
    ensures var t := Conclude(s, c, g, v);
      Closed(s, t, g) && t.log == if v.Applied? then s.log + [Entry(g, s.grants[g].workspace, s.txs[g].rows)] else s.log
  {
    hide Conclude, Closed, Settle, Complete;
    var t := Concluded(s, c, g, v);
    ConcludedIs(s, c, g, v);
    if v.Applied? { CompleteCloses(s, g, s.rescues[c].at); } else { SettleCloses(s, g, v); }
    CallsClosed(s, t, Conclude(s, c, g, v), g);
  }

  lemma ShowsExactly(s: Sys, init: map<Id, Disk>, c: Id, g: Id, v: GrantState)
    requires Placed(s, init, g) && c in s.rescues && Closes(s, g, v) && StageOk(Decided(v))
    ensures Settled(Conclude(s, c, g, v), init, s.grants[g].workspace) <==> StillShows(s, g, v)
  {
    hide Conclude, Placed, Local;
    var ws := s.grants[g].workspace;
    ConcludeClosed(s, c, g, v);
    ReplayOne(Initial(init, ws), s.log, Entry(g, ws, s.txs[g].rows), ws);
    if v.Applied? { PostExactly(s, init, g); } else { PreExactly(s, init, g); }
  }

  /** The grant was the only writer of its workspace. */
  lemma NobodyWrites(s: Sys, t: Sys, g: Id)
    requires OneWriter(s) && IsApplying(s, g) && Local(s, t, g) && !IsApplying(t, g)
    ensures NoWriter(t, s.grants[g].workspace)
  {
    forall h | IsApplying(t, h) ensures t.grants[h].workspace != s.grants[g].workspace {
      assert IsApplying(s, h);
    }
  }

  lemma OthersRest(s: Sys, t: Sys, g: Id, init: map<Id, Disk>)
    requires AtRest(s, init) && Local(s, t, g) && Settled(t, init, s.grants[g].workspace)
    ensures AtRest(t, init)
  {
    hide Settled;
    forall ws | NoWriter(t, ws) ensures Settled(t, init, ws) {
      if ws != s.grants[g].workspace { LocalSettled(s, t, g, init, ws); }
    }
  }

  lemma Unmoved(s: Sys, t: Sys)
    requires t == s.(world := t.world, rescues := t.rescues)
    ensures SameWriters(s, t)
  {
  }

  /** A last transaction that closes nothing changes no row. */
  lemma ConcludesNothing(s: Sys, c: Id, g: Id, v: GrantState)
    requires RowsAgree(s) && g in s.txs && c in s.rescues && !Closes(s, g, v)
    ensures var t := Conclude(s, c, g, v);
      && g in s.grants && t == s.(world := t.world, rescues := t.rescues)
      && ((v.Applied? ==> !TaskRunning(s.world.db, s.grants[g].task)) ==> t.world == s.world)
  {
    assert TxOk(s, g);
    hide RowsAgree, Complete;
    if Unfinished(s, g) {
    } else {
      ClosesNothing(s, g, v);
      hide Close;
    }
  }

  /** The guarded updates find no row. */
  lemma ClosesNothing(s: Sys, g: Id, v: GrantState)
    requires g in s.txs && TxOk(s, g) && !Unfinished(s, g)
    ensures Close(s, g, v) == s
  {
  }

  /** Whatever happened since the files were read, after the last transaction of a recovery the files
      follow the log exactly when it closes nothing, or the workspace is blocked, or the files show now
      what the verdict says; and they can go on following it only if no applier of the grant is left. */
  lemma ConcludeFollowsExactly(s: Sys, init: map<Id, Disk>, c: Id, g: Id, v: GrantState)
    requires RowsAgree(s) && OneWriter(s) && Following(s, init) && g in s.txs && c in s.rescues && StageOk(Decided(v))
    ensures g in s.grants
    ensures AtRest(Conclude(s, c, g, v), init) <==> (Closes(s, g, v) ==> StillShows(s, g, v))
    ensures Following(Conclude(s, c, g, v), init) <==> (Closes(s, g, v) ==> g !in s.live && StillShows(s, g, v))
  {
    assert TxOk(s, g);
    if Closes(s, g, v) {
      var t := Conclude(s, c, g, v);
      hide Conclude, Placed, Settled, Local, NoWriter, RowsAgree, StillShows;
      assert Placed(s, init, g);
      ConcludeClosed(s, c, g, v);
      ShowsExactly(s, init, c, g, v);
      NobodyWrites(s, t, g);
      if StillShows(s, g, v) {
        OthersRest(s, t, g, init);
        if g !in s.live { LocalFollows(s, t, g, init); }
      }
    } else {
      hide Conclude, RowsAgree, OneWriter, Following, AtRest;
      ConcludesNothing(s, c, g, v);
      Unmoved(s, Conclude(s, c, g, v));
      SameWritersFollow(s, Conclude(s, c, g, v), init);
      FollowingRests(Conclude(s, c, g, v), init);
    }
  }

  lemma FollowingRests(s: Sys, init: map<Id, Disk>)
    requires Following(s, init)
    ensures AtRest(s, init)
  {
  }

  // ---------------------------------------------------------------- every racing step

  /** Grant ids are fresh, plans come from `canonical_plan`, the store behaves and nobody else writes in
      the workspaces; a recovery may start at any time. */
  predicate Racing(s: Sys, a: Action) { !a.Tampering? && (a.Surveying? || Permitted(s, a)) }

  /** The last transaction of a recovery may go ahead. */
  predicate Rightful(s: Sys, g: Id, v: GrantState)
    requires g in s.grants && g in s.txs
  {
    if Closes(s, g, v) then g !in s.live && StillShows(s, g, v) else v.Applied? ==> !TaskRunning(s.world.db, s.grants[g].task)
  }

  /** Step `a` is the last transaction of a recovery. */
  predicate IsLast(s: Sys, a: Action, r: Reading) {
    && a.Rescuing? && a.c in s.rescues && s.rescues[a.c].grant == a.g && a.g in s.grants && a.g in s.txs
    && s.rescues[a.c].stage.Decided? && !r.fault
  }

  predicate StepRightful(s: Sys, a: Action, r: Reading) { IsLast(s, a, r) ==> Rightful(s, a.g, s.rescues[a.c].stage.verdict) }

  ghost predicate StagesOk(s: Sys) { forall c :: c in s.rescues ==> StageOk(s.rescues[c].stage) }

  ghost predicate RecordsOk(s: Sys) { StoreRuns.Inv(s.world) && Books(s) && StagesOk(s) }

  /** Nothing moved but running calls and blocks. */
  ghost predicate OnlyCalls(s: Sys, t: Sys) {
    t == s.(blocked := t.blocked, refused := t.refused, rescues := t.rescues) && s.blocked <= t.blocked
  }

  lemma CallsRecords(s: Sys, c: Id, t: Sys)
    requires RecordsOk(s) && SameCalls(s, c, t) && OnlyCalls(s, t)
    ensures RecordsOk(t)
  {
    SameBooks(s, t);
  }

  lemma CallsWriters(s: Sys, t: Sys)
    requires OnlyCalls(s, t)
    ensures SameWriters(s, t)
  {
  }

  lemma SurveyRecords(s: Sys, c: Id, g: Id, r: Reading)
    requires RecordsOk(s)
    ensures RecordsOk(Survey(s, c, g, r))
  {
    hide Survey, Books;
    SurveyEffect(s, c, g, r);
    SameBooks(s, Survey(s, c, g, r));
  }

  lemma LookOnly(s: Sys, c: Id, d: Disk, rows: seq<Row>)
    requires c in s.rescues && |s.rescues[c].images| < |rows|
    ensures OnlyCalls(s, Look(s, c, d, rows))
  {
  }

  lemma DecideOnly(s: Sys, c: Id, ws: Id, rows: seq<Row>)
    requires c in s.rescues
    ensures OnlyCalls(s, Decide(s, c, ws, rows)) && OnlyCalls(s, EndCall(s, c)) && OnlyCalls(s, EndCall(Block(s, ws), c))
  {
  }

  lemma NotLast(s: Sys, c: Id, g: Id, r: Reading)
    requires !IsLast(s, Rescuing(c, g), r)
    ensures OnlyCalls(s, Continue(s, c, g, r))
  {
    hide Conclude, Look, Decide, EndCall, Block;
    if c in s.rescues && s.rescues[c].grant == g && g in s.grants && g in s.txs {
      var rows, ws := s.txs[g].rows, s.grants[g].workspace;
      DecideOnly(s, c, ws, rows);
      if |s.rescues[c].images| < |rows| { LookOnly(s, c, DiskOf(s, ws), rows); }
    }
  }

  /** A step of a recovery that is not its last transaction. */
  lemma ContinueRecords(s: Sys, c: Id, g: Id, r: Reading)
    requires RecordsOk(s) && !IsLast(s, Rescuing(c, g), r)
    ensures RecordsOk(Continue(s, c, g, r)) && SameWriters(s, Continue(s, c, g, r))
  {
    hide RecordsOk, SameWriters, SameCalls, OnlyCalls, Continue, IsLast;
    ContinueCalls(s, c, g, r);
    NotLast(s, c, g, r);
    CallsRecords(s, c, Continue(s, c, g, r));
    CallsWriters(s, Continue(s, c, g, r));
  }

  lemma ConcludeBooks(s: Sys, c: Id, g: Id, v: GrantState)
    requires StoreRuns.Inv(s.world) && Books(s) && g in s.txs && c in s.rescues && StageOk(Decided(v)) && Rightful(s, g, v)
    ensures g in s.grants
    ensures var t := Conclude(s, c, g, v); StoreRuns.Inv(t.world) && Books(t)
  {
    var t := Conclude(s, c, g, v);
    hide Conclude, Books, RowsAgree, IsClosed, StillShows;
    BooksAgree(s);
    if Closes(s, g, v) {
      SameBooks(s, s.(rescues := t.rescues));
      ConcludeEffect(s, c, g, v);
      ClosedBooks(s.(rescues := t.rescues), g, s.rescues[c].at, t);
    } else {
      ConcludesNothing(s, c, g, v);
      SameBooks(s, t);
    }
  }

  lemma ConcludeRecords(s: Sys, c: Id, g: Id, v: GrantState)
    requires RecordsOk(s) && g in s.txs && c in s.rescues && s.rescues[c].stage == Decided(v) && Rightful(s, g, v)
    ensures RecordsOk(Conclude(s, c, g, v))
  {
    hide Conclude, Books, Rightful;
    ConcludeBooks(s, c, g, v);
    ConcludeCalls(s, c, g, v);
  }

  lemma BooksAgree(s: Sys)
    requires Books(s)
    ensures RowsAgree(s)
  {
  }

  // ---------------------------------------------------------------- records and files together

  ghost predicate Kept(s: Sys, init: map<Id, Disk>) { RecordsOk(s) && Following(s, init) }

  lemma SameCallsStages(s: Sys, t: Sys)
    requires StagesOk(s) && t.rescues == s.rescues
    ensures StagesOk(t)
  {
  }

  lemma BeginFollows(s: Sys, init: map<Id, Disk>, g: Id, rows: seq<Row>, r: Reading)
    requires Kept(s, init) && Canonical(rows) && g in s.grants && s.grants[g].state.Issued?
    ensures Following(Begin(s, g, rows, r), init)
  {
    BeginCases(s, g, rows, r);
    var t := Begin(s, g, rows, r);
    if SameWriters(s, t) {
      SameWritersFollow(s, t, init);
    } else {
      ConsumeFollows(s, s.(refused := t.refused), init, g, rows, r);
    }
  }

  lemma AdvanceKept(s: Sys, init: map<Id, Disk>, g: Id, r: Reading)
    requires Kept(s, init)
    ensures Kept(Advance(s, g, r), init)
  {
    if g in s.live {
      hide Advance, Local, Handled, Placed, RowsAgree, StagesOk;
      AdvanceLocal(s, init, g, r);
      LocalFollows(s, Advance(s, g, r), g, init);
      AdvanceBooks(s, g, r);
      AdvanceCalls(s, g, r);
      SameCallsStages(s, Advance(s, g, r));
    }
  }

  lemma BeginKept(s: Sys, init: map<Id, Disk>, g: Id, rows: seq<Row>, r: Reading)
    requires Kept(s, init) && Canonical(rows)
    ensures Kept(Begin(s, g, rows, r), init)
  {
    if g in s.grants && s.grants[g].state.Issued? {
      hide Begin, Following, Books, StagesOk;
      BeginFollows(s, init, g, rows, r);
      BeginBooks(s, g, rows, r);
      SameCallsStages(s, Begin(s, g, rows, r));
    }
  }

  /** Steps that move no writer. */
  lemma WritersKept(s: Sys, t: Sys, init: map<Id, Disk>)
    requires Kept(s, init) && RecordsOk(t) && SameWriters(s, t)
    ensures Kept(t, init)
  {
    hide RecordsOk, SameWriters, Following;
    SameWritersFollow(s, t, init);
  }

  lemma IssueKept(s: Sys, init: map<Id, Disk>, a: Action, r: Reading)
    requires Kept(s, init) && a.Issuing? && Permitted(s, a)
    ensures Kept(Step(s, a, r), init)
  {
    hide Following, Books, StagesOk, SameWriters, IssueGrant;
    IssueBooks(s, a, r);
    IssueWriters(s, a, r);
    SameCallsStages(s, Step(s, a, r));
    WritersKept(s, Step(s, a, r), init);
  }

  lemma CrashKept(s: Sys, init: map<Id, Disk>, gone: set<Id>, calls: set<Id>, forgotten: set<Id>)
    requires Kept(s, init)
    ensures Kept(Crash(s, gone, calls, forgotten), init)
  {
    hide Following, Books;
    SameBooks(s, Crash(s, gone, calls, forgotten));
    WritersKept(s, Crash(s, gone, calls, forgotten), init);
  }

  lemma StoreKept(s: Sys, init: map<Id, Disk>, a: StoreRuns.Action, now: Time)
    requires Kept(s, init) && StoreRuns.Allowed(s.world, a, now) && !a.Accepting?
    ensures Kept(s.(world := StoreRuns.Next(s.world, a, now)), init)
  {
    hide Following, Books, StagesOk, StoreRuns.Next, StoreRuns.Inv;
    var t := s.(world := StoreRuns.Next(s.world, a, now));
    StoreStepBooks(s, a, now);
    StoreRuns.StepKeepsInv(s.world, a, now);
    SameCallsStages(s, t);
    WritersKept(s, t, init);
  }

  lemma SurveyKept(s: Sys, init: map<Id, Disk>, c: Id, g: Id, r: Reading)
    requires Kept(s, init)
    ensures Kept(Survey(s, c, g, r), init)
  {
    hide RecordsOk, SameWriters, Following, Survey;
    SurveyRecords(s, c, g, r);
    SurveyWriters(s, c, g, r);
    WritersKept(s, Survey(s, c, g, r), init);
  }

  /** Both at once: review evidence is conserved and the files follow the log after the last transaction
      of a recovery exactly when it may go ahead. */
  lemma LastExactly(s: Sys, init: map<Id, Disk>, c: Id, g: Id, v: GrantState)
    requires Kept(s, init) && g in s.txs && c in s.rescues && s.rescues[c].stage == Decided(v)
    ensures g in s.grants
    ensures var t := Conclude(s, c, g, v); Conserved(t) && Following(t, init) <==> Rightful(s, g, v)
    ensures Rightful(s, g, v) ==> Kept(Conclude(s, c, g, v), init)
  {
    hide Conclude, Following, AtRest, StillShows, RowsAgree, OneWriter, Conserved, LogOk;
    SettlingConservesExactly(s, c, g, v);
    ConcludeFollowsExactly(s, init, c, g, v);
    if Rightful(s, g, v) { ConcludeRecords(s, c, g, v); }
  }

  lemma RescueExactly(s: Sys, init: map<Id, Disk>, c: Id, g: Id, r: Reading)
    requires Kept(s, init)
    ensures var t := Continue(s, c, g, r); Conserved(t) && Following(t, init) <==> StepRightful(s, Rescuing(c, g), r)
    ensures StepRightful(s, Rescuing(c, g), r) ==> Kept(Continue(s, c, g, r), init)
  {
    hide Conclude, Following, RowsAgree, OneWriter, Conserved, LogOk, Rightful, SameWriters, Look, Decide;
    if IsLast(s, Rescuing(c, g), r) {
      LastExactly(s, init, c, g, s.rescues[c].stage.verdict);
    } else {
      ContinueRecords(s, c, g, r);
      WritersKept(s, Continue(s, c, g, r), init);
    }
  }

  /** One step of any party. */
  lemma StepExactly(s: Sys, init: map<Id, Disk>, a: Action, r: Reading)
    requires Kept(s, init) && Racing(s, a)
    ensures var t := Step(s, a, r); Conserved(t) && Following(t, init) <==> StepRightful(s, a, r)
    ensures StepRightful(s, a, r) ==> Kept(Step(s, a, r), init)
  {
    if a.Rescuing? {
      hide Kept, Conserved, Following, StepRightful;
      RescueExactly(s, init, a.c, a.g, r);
    } else {
      OtherKept(s, init, a, r);
    }
  }

  lemma OtherKept(s: Sys, init: map<Id, Disk>, a: Action, r: Reading)
    requires Kept(s, init) && Racing(s, a) && !a.Rescuing?
    ensures Kept(Step(s, a, r), init)
  {
    hide Kept;
    match a
    case Issuing(_, _, _, _, _, _, _, _, _) => IssueKept(s, init, a, r);
    case Beginning(g, rows) => BeginKept(s, init, g, rows, r);
    case Advancing(g) => AdvanceKept(s, init, g, r);
    case Surveying(c, g) => SurveyKept(s, init, c, g, r);
    case Crashing(gone, calls, forgotten) => CrashKept(s, init, gone, calls, forgotten);
    case StoreStep(b, now) => StoreKept(s, init, b, now);
  }

  // ---------------------------------------------------------------- whole runs

  predicate RacingRun(s: Sys, es: seq<Event>)
    decreases |es|
  {
    es == [] || (Racing(s, es[0].action) && RacingRun(After(s, es[0]), es[1..]))
  }

  /** Every last transaction of the run may go ahead when it comes. */
  predicate RightfulRun(s: Sys, es: seq<Event>)
    decreases |es|
  {
    es == [] || (StepRightful(s, es[0].action, es[0].reading) && RightfulRun(After(s, es[0]), es[1..]))
  }

  /** Review evidence is conserved and the files follow the log now and after every step. */
  ghost predicate Throughout(s: Sys, init: map<Id, Disk>, es: seq<Event>)
    decreases |es|
  {
    Conserved(s) && Following(s, init) && (es == [] || Throughout(After(s, es[0]), init, es[1..]))
  }

  lemma {:induction false} ThroughoutExactly(s: Sys, init: map<Id, Disk>, es: seq<Event>)
    requires Kept(s, init) && RacingRun(s, es)
    ensures Throughout(s, init, es) <==> RightfulRun(s, es)
    ensures RightfulRun(s, es) ==> Kept(Run(s, es), init)
    decreases |es|
  {
    if es != [] {
      StepExactly(s, init, es[0].action, es[0].reading);
      if StepRightful(s, es[0].action, es[0].reading) { ThroughoutExactly(After(s, es[0]), init, es[1..]); }
    }
  }

  /** Recoveries may start at any time, also beside an applier or another recovery of their grant: review
      evidence stays conserved and the files follow the log throughout a run exactly when every last
      transaction that closes a grant finds no applier of it and files that show its verdict, and none
      moves a task to review without closing anything. In such a run a workspace that is not blocked
      and has no applying grant holds its initial files with the applied plans replayed. */
  lemma RacesRefineLogExactly(known: map<Id, Id>, init: map<Id, Disk>, es: seq<Event>, ws: Id)
    requires RacingRun(NewSystem(known, init), es)
    ensures Throughout(NewSystem(known, init), init, es) <==> RightfulRun(NewSystem(known, init), es)
    ensures var s := Run(NewSystem(known, init), es);
      RightfulRun(NewSystem(known, init), es) && ws !in s.blocked && NoWriter(s, ws)
      ==> LogOk(s) && DiskOf(s, ws) == Replay(Initial(init, ws), s.log, ws)
  {
    NewSystemSound(known, init);
    NewSystemFollows(known, init);
    ThroughoutExactly(NewSystem(known, init), init, es);
  }

  /** A recovery with its grant to itself may always go ahead: the runs of `DiskRefinesLog` are among these. */
  lemma {:induction false} DisciplinedRightful(s: Sys, init: map<Id, Disk>, es: seq<Event>)
    requires Sound(s) && FilesOk(s, init) && DisciplinedRun(s, es)
    ensures RacingRun(s, es) && RightfulRun(s, es)
    decreases |es|
  {
    if es != [] {
      hide Sound, FilesOk, Permitted, StepRightful;
      var a, r := es[0].action, es[0].reading;
      WitnessedRightful(s, init, a, r);
      StepSound(s, a, r);
      StepFilesOk(s, init, a, r);
      DisciplinedRightful(After(s, es[0]), init, es[1..]);
    }
  }

  lemma WitnessedRightful(s: Sys, init: map<Id, Disk>, a: Action, r: Reading)
    requires Sound(s) && FilesOk(s, init)
    ensures StepRightful(s, a, r)
  {
    if IsLast(s, a, r) {
      var g := a.g;
      assert Abandoned(s, g) && TxOk(s, g) && Placed(s, init, g) && Witnessed(s, s.rescues[a.c]) && StageOk(s.rescues[a.c].stage);
      DecidedMeaning(s, init, s.rescues[a.c], s.rescues[a.c].stage.verdict);
      PreExactly(s, init, g);
      PostExactly(s, init, g);
    }
  }

  lemma NewSystemFollows(known: map<Id, Id>, init: map<Id, Disk>)
    ensures Kept(NewSystem(known, init), init)
  {
    NewSystemSound(known, init);
  }
}
