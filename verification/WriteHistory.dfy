/** What a running `apply` does next, told in columns and file images, and under whose authority files are
    written and grants applied, over whole runs. */
module WriteHistory {
  import opened Basics
  import opened Store
  import opened Disks
  import opened Execution
  import opened ExecutionRecords
  import opened GrantHistory
  import Rows = StoreHistory
  import StoreRuns

  // ---------------------------------------------------------------- running calls

  /** The call works on its grant's transaction. */
  ghost predicate CallOk(s: Sys, g: Id) {
    g in s.live && g in s.grants && g in s.txs && s.txs[g].rows == s.live[g].rows && PcOk(s.live[g])
  }

  ghost predicate CallsOk(s: Sys) { forall g :: g in s.live ==> CallOk(s, g) }

  // ---------------------------------------------------------------- authority, afresh

  /** The grant applies and is in force, its workspace is open, and nothing has raised. */
  predicate Cleared(s: Sys, g: Id, r: Reading)
    requires g in s.grants
  {
    && s.grants[g].state.Applying? && !r.fault
    && Entitled(s.world.db, s.grants[g], r.now, r.bound) && Open(s, s.grants[g].workspace, s.grants[g].target, r.intact)
  }

  lemma ClearedExactly(s: Sys, g: Id, r: Reading)
    requires g in s.grants
    ensures var (t, ok) := FreshAuthority(s, g, r);
      (ok <==> Cleared(s, g, r)) && (ok ==> t == s) && t == s.(blocked := t.blocked, refused := t.refused)
  {
    hide Authority, Entitled;
    EntitledIsAuthority(s.world.db, s.grants[g], r.now, r.bound);
    EnteredExactly(s, s.grants[g].workspace, s.grants[g].target, r.intact);
  }

  // ---------------------------------------------------------------- one step of a call

  /** Planned file `i` of the call is as `image` says. */
  predicate Shows(s: Sys, g: Id, i: nat, image: Image)
    requires g in s.grants && g in s.live && i < |s.live[g].rows|
  {
    ImageAt(DiskOf(s, s.grants[g].workspace), s.live[g].rows[i].path) == image
  }

  /** The operation can be carried out: a file to be created is not there, one to be replaced has the expected
      content, one to be deleted is there. */
  predicate Writable(d: Disk, row: Row) {
    || (row.kind.Create? && row.path !in d)
    || (row.kind.Replace? && ImageAt(d, row.path) == row.pre)
    || (row.kind.Delete? && row.path in d)
  }

  /** Where a call may go next without raising, and on what condition. */
  predicate Proceeds(s: Sys, g: Id, r: Reading, pc: Pc)
    requires g in s.grants && g in s.live && PcOk(s.live[g])
  {
    var x := s.live[g];
    match pc
    case BackingUp =>
      || (x.pc.Started? && Cleared(s, g, r))
      || (x.pc.BackingUp? && |x.backups| < |x.rows| && !r.fault && Shows(s, g, |x.backups|, x.rows[|x.backups|].pre))
    case Checking(i) =>
      || (x.pc.BackingUp? && |x.backups| == |x.rows| && i == 0)
      || (x.pc.Verifying? && i == x.pc.i + 1 && !r.fault && Shows(s, g, x.pc.i, x.rows[x.pc.i].post))
    case Writing(i) => x.pc == Checking(i) && i < |x.rows| && Cleared(s, g, r) && Shows(s, g, i, x.rows[i].pre)
    case Verifying(i) =>
      x.pc == Writing(i) && !r.fault && Writable(DiskOf(s, s.grants[g].workspace), x.rows[i])
    case Final => x.pc.Checking? && x.pc.i >= |x.rows|
    case FinalChecking(i, at) =>
      || (x.pc.Final? && i == 0 && at == r.now && Cleared(s, g, r))
      || (x.pc.FinalChecking? && at == x.pc.at && i == x.pc.i + 1 && x.pc.i < |x.rows| && !r.fault && Shows(s, g, x.pc.i, x.rows[x.pc.i].post))
    case Committing(at) => x.pc.FinalChecking? && at == x.pc.at && x.pc.i >= |x.rows|
    case _ => false
  }

  predicate Forward(pc: Pc) { !Undoing(pc) && !pc.Started? }

  /** Where a call that raises goes: back over its backups, or straight to the end. */
  function Back(x: Applier): Pc { if x.backups != [] then RollingBack(|x.backups|) else Closing(true) }

  /** No other call moves, none starts, and this one stays on its plan. */
  ghost predicate CallKept(s: Sys, t: Sys, g: Id)
    requires g in s.live
  {
    && (forall h :: h in t.live ==> h in s.live && (h != g ==> t.live[h] == s.live[h]))
    && (g in t.live ==> t.live[g].rows == s.live[g].rows && PcOk(t.live[g]))
  }

  lemma Going(s: Sys, g: Id, pc: Pc)
    requires g in s.live && PcOk(s.live[g])
    ensures var t := Goto(s, g, pc);
      g in t.live && t.live[g].pc == pc && t.disks == s.disks && (PcOk(s.live[g].(pc := pc)) ==> CallKept(s, t, g))
    ensures var t := Raise(s, g); g in t.live && t.live[g].pc == Back(s.live[g]) && t.disks == s.disks && CallKept(s, t, g)
  {
  }

  lemma KeptFrom(s: Sys, u: Sys, t: Sys, g: Id)
    requires g in s.live && u.live == s.live && CallKept(u, t, g)
    ensures CallKept(s, t, g)
  {
  }

  lemma FromStarted(s: Sys, g: Id, r: Reading)
    requires CallOk(s, g) && s.live[g].pc.Started?
    ensures var t := AdvanceAuthority(s, g, r);
      g in t.live && t.live[g].pc == if Cleared(s, g, r) then BackingUp else Back(s.live[g])
    ensures CallKept(s, AdvanceAuthority(s, g, r), g) && AdvanceAuthority(s, g, r).disks == s.disks
  {
    hide Cleared, FreshAuthority, Goto, Raise, CallKept;
    ClearedExactly(s, g, r);
    var t := FreshAuthority(s, g, r).0;
    Going(t, g, BackingUp);
    KeptFrom(s, t, AdvanceAuthority(s, g, r), g);
  }

  lemma FromFinal(s: Sys, g: Id, r: Reading)
    requires CallOk(s, g) && s.live[g].pc.Final?
    ensures var t := AdvanceAuthority(s, g, r);
      g in t.live && t.live[g].pc == if Cleared(s, g, r) then FinalChecking(0, r.now) else Back(s.live[g])
    ensures CallKept(s, AdvanceAuthority(s, g, r), g) && AdvanceAuthority(s, g, r).disks == s.disks
  {
    hide Cleared, FreshAuthority, Goto, Raise, CallKept;
    ClearedExactly(s, g, r);
    var t := FreshAuthority(s, g, r).0;
    Going(t, g, FinalChecking(0, r.now));
    KeptFrom(s, t, AdvanceAuthority(s, g, r), g);
  }

  lemma FromChecking(s: Sys, g: Id, r: Reading)
    requires CallOk(s, g) && s.live[g].pc.Checking?
    ensures var t, i := AdvanceAuthority(s, g, r), s.live[g].pc.i;
      g in t.live && t.live[g].pc == if i >= |s.live[g].rows| then Final
        else if Cleared(s, g, r) && Shows(s, g, i, s.live[g].rows[i].pre) then Writing(i) else Back(s.live[g])
    ensures CallKept(s, AdvanceAuthority(s, g, r), g) && AdvanceAuthority(s, g, r).disks == s.disks
  {
    hide Cleared, FreshAuthority, Goto, Raise, CallKept, ImageAt;
    ClearedExactly(s, g, r);
    var t := FreshAuthority(s, g, r).0;
    Going(s, g, Final);
    Going(t, g, Writing(s.live[g].pc.i));
    if s.live[g].pc.i < |s.live[g].rows| { KeptFrom(s, t, AdvanceAuthority(s, g, r), g); }
  }

  lemma Backing(s: Sys, g: Id, x: Applier)
    requires g in s.live && x.rows == s.live[g].rows && PcOk(x)
    ensures var t := s.(live := s.live[g := x]); CallKept(s, t, g) && g in t.live && t.live[g] == x && t.disks == s.disks
  {
  }

  lemma FromBackingUp(s: Sys, g: Id, r: Reading)
    requires CallOk(s, g) && s.live[g].pc.BackingUp?
    ensures var t, x := AdvanceFiles(s, g, r), s.live[g];
      g in t.live && t.live[g].pc == if |x.backups| == |x.rows| then Checking(0)
        else if !r.fault && Shows(s, g, |x.backups|, x.rows[|x.backups|].pre) then BackingUp else Back(x)
    ensures CallKept(s, AdvanceFiles(s, g, r), g) && AdvanceFiles(s, g, r).disks == s.disks
  {
    hide Goto, Raise, ImageAt, CallKept;
    var x := s.live[g];
    Going(s, g, Checking(0));
    if |x.backups| < |x.rows| {
      Backing(s, g, x.(backups := x.backups + [BytesAt(PathDisk(s, g), x.rows[|x.backups|].path)]));
    }
  }

  lemma Wrote(s: Sys, g: Id, i: nat)
    requires CallOk(s, g) && s.live[g].pc == Writing(i)
    ensures var row, ws := s.live[g].rows[i], s.grants[g].workspace;
      var t := Goto(SetDisk(s, ws, WriteRow(PathDisk(s, g), row)).(done := s.done[g := i + 1]), g, Verifying(i));
      && g in t.live && t.live[g].pc == Verifying(i) && CallKept(s, t, g)
      && t.disks == s.disks[ws := Put(DiskOf(s, ws), row.path, row.data)]
  {
    hide Put, DiskOf;
  }

  lemma FromWriting(s: Sys, g: Id, r: Reading)
    requires CallOk(s, g) && s.live[g].pc.Writing?
    ensures var t, x, ws := AdvanceFiles(s, g, r), s.live[g], s.grants[g].workspace;
      && g in t.live && CallKept(s, t, g)
      && if !r.fault && Writable(DiskOf(s, ws), x.rows[x.pc.i]) then
           t.live[g].pc == Verifying(x.pc.i) && t.disks == s.disks[ws := Put(DiskOf(s, ws), x.rows[x.pc.i].path, x.rows[x.pc.i].data)]
         else t.live[g].pc == Back(x) && t.disks == s.disks
  {
    hide Goto, Raise, ImageAt, Put, CallKept, DiskOf, WriteRow, SetDisk;
    Going(s, g, Final);
    Wrote(s, g, s.live[g].pc.i);
  }

  lemma FromVerifying(s: Sys, g: Id, r: Reading)
    requires CallOk(s, g) && s.live[g].pc.Verifying?
    ensures var t, x := AdvanceFiles(s, g, r), s.live[g];
      g in t.live && t.live[g].pc == if !r.fault && Shows(s, g, x.pc.i, x.rows[x.pc.i].post) then Checking(x.pc.i + 1) else Back(x)
    ensures CallKept(s, AdvanceFiles(s, g, r), g) && AdvanceFiles(s, g, r).disks == s.disks
  {
    hide Goto, Raise, ImageAt, CallKept;
    Going(s, g, Checking(s.live[g].pc.i + 1));
  }

  lemma FromFinalChecking(s: Sys, g: Id, r: Reading)
    requires CallOk(s, g) && s.live[g].pc.FinalChecking?
    ensures var t, x := AdvanceFiles(s, g, r), s.live[g];
      g in t.live && t.live[g].pc == if x.pc.i >= |x.rows| then Committing(x.pc.at)
        else if !r.fault && Shows(s, g, x.pc.i, x.rows[x.pc.i].post) then FinalChecking(x.pc.i + 1, x.pc.at) else Back(x)
    ensures CallKept(s, AdvanceFiles(s, g, r), g) && AdvanceFiles(s, g, r).disks == s.disks
  {
    hide Goto, Raise, ImageAt, CallKept;
    Going(s, g, Committing(s.live[g].pc.at));
    Going(s, g, FinalChecking(s.live[g].pc.i + 1, s.live[g].pc.at));
  }

  lemma PutBack(s: Sys, g: Id, i: nat)
    requires CallOk(s, g) && s.live[g].pc == RollingBack(i) && i > 0
    ensures var x, ws := s.live[g], s.grants[g].workspace;
      var d := if g in s.done && s.done[g] < i - 1 then s.done[g] else i - 1;
      var t := Goto(SetDisk(s, ws, Put(PathDisk(s, g), x.rows[i - 1].path, x.backups[i - 1])).(done := s.done[g := d]), g, RollingBack(i - 1));
      && g in t.live && t.live[g].pc == RollingBack(i - 1) && CallKept(s, t, g)
      && t.disks == s.disks[ws := Put(DiskOf(s, ws), x.rows[i - 1].path, x.backups[i - 1])]
  {
    hide Put, DiskOf;
  }

  lemma FromRollingBack(s: Sys, g: Id, r: Reading)
    requires CallOk(s, g) && s.live[g].pc.RollingBack?
    ensures var t, x, ws := AdvanceUndo(s, g, r), s.live[g], s.grants[g].workspace;
      && g in t.live && t.live[g].pc == (if x.pc.i == 0 then Confirming(0, true) else if r.fault then Blocking else RollingBack(x.pc.i - 1))
      && t.disks == if x.pc.i > 0 && !r.fault then s.disks[ws := Put(DiskOf(s, ws), x.rows[x.pc.i - 1].path, x.backups[x.pc.i - 1])]
                    else s.disks
    ensures CallKept(s, AdvanceUndo(s, g, r), g)
  {
    hide Goto, Put, CallKept, DiskOf, SetDisk, Confirm, Block, Close, Retire;
    Going(s, g, Confirming(0, true));
    Going(s, g, Blocking);
    if s.live[g].pc.i > 0 && !r.fault { PutBack(s, g, s.live[g].pc.i); }
  }

  /** File `i` is as it was backed up. */
  predicate ShowsBackup(s: Sys, g: Id, i: nat)
    requires g in s.live && g in s.grants && PcOk(s.live[g]) && i < |s.live[g].backups|
  {
    BytesAt(DiskOf(s, s.grants[g].workspace), s.live[g].rows[i].path) == s.live[g].backups[i]
  }

  /** Images tell contents apart. */
  lemma SameImage(d: Disk, p: Path, b: Option<Bytes>)
    ensures ImageAt(d, p) == ImageOf(b) <==> BytesAt(d, p) == b
  {
  }

  lemma FromConfirming(s: Sys, g: Id, r: Reading)
    requires CallOk(s, g) && s.live[g].pc.Confirming?
    ensures var t, x := AdvanceUndo(s, g, r), s.live[g];
      && g in t.live && t.disks == s.disks
      && t.live[g].pc == if x.pc.i >= |x.backups| then (if x.pc.good then Closing(true) else Blocking)
                         else if r.fault then Blocking else Confirming(x.pc.i + 1, x.pc.good && ShowsBackup(s, g, x.pc.i))
    ensures CallKept(s, AdvanceUndo(s, g, r), g)
  {
    hide Goto, ImageAt, ImageOf, BytesAt, DiskOf, CallKept, Restore, Block, Close, Retire;
    var x := s.live[g];
    Going(s, g, Closing(true));
    Going(s, g, Blocking);
    if x.pc.i < |x.backups| {
      SameImage(DiskOf(s, s.grants[g].workspace), x.rows[x.pc.i].path, x.backups[x.pc.i]);
      Going(s, g, Confirming(x.pc.i + 1, x.pc.good && ShowsBackup(s, g, x.pc.i)));
    }
  }

  lemma FromBlocking(s: Sys, g: Id, r: Reading)
    requires CallOk(s, g) && (s.live[g].pc.Blocking? || s.live[g].pc.Closing?)
    ensures var t := AdvanceUndo(s, g, r);
      t.disks == s.disks && if s.live[g].pc.Closing? then g !in t.live else g in t.live && t.live[g].pc == Closing(false)
    ensures CallKept(s, AdvanceUndo(s, g, r), g)
  {
    hide Goto;
    if s.live[g].pc.Blocking? { Going(Block(s, s.grants[g].workspace), g, Closing(false)); }
  }

  lemma FromUndoing(s: Sys, g: Id, r: Reading)
    requires CallOk(s, g) && Undoing(s.live[g].pc)
    ensures var t, x, ws := AdvanceUndo(s, g, r), s.live[g], s.grants[g].workspace;
      && (g in t.live ==> Undoing(t.live[g].pc))
      && t.disks ==
        if x.pc.RollingBack? && x.pc.i > 0 && !r.fault then
          s.disks[ws := Put(DiskOf(s, ws), x.rows[x.pc.i - 1].path, x.backups[x.pc.i - 1])]
        else s.disks
    ensures CallKept(s, AdvanceUndo(s, g, r), g)
  {
    hide AdvanceUndo, Put;
    match s.live[g].pc
    case RollingBack(_) => FromRollingBack(s, g, r);
    case Confirming(_, _) => FromConfirming(s, g, r);
    case _ => FromBlocking(s, g, r);
  }

  lemma Gone(s: Sys, t: Sys, g: Id)
    requires g in s.live && t.live == s.live - {g}
    ensures CallKept(s, t, g) && g !in t.live
  {
  }

  lemma FromCommitting(s: Sys, g: Id, r: Reading)
    requires CallOk(s, g) && s.live[g].pc.Committing?
    ensures var t := AdvanceAuthority(s, g, r); (g in t.live ==> Undoing(t.live[g].pc)) && t.disks == s.disks
    ensures CallKept(s, AdvanceAuthority(s, g, r), g)
  {
    hide Authority, EnvelopeOf, AcceptExecution, Completable, CallKept, Goto, Raise, EnterAtomic;
    EnterEffect(s, s.grants[g].workspace, s.grants[g].target, r.intact);
    var t := EnterAtomic(s, s.grants[g].workspace, s.grants[g].target, r.intact).0;
    Going(s, g, Final);
    Going(t, g, Final);
    var u := AdvanceAuthority(s, g, r);
    if u == Raise(t, g) { KeptFrom(s, t, u, g); } else if u != Raise(s, g) { Gone(s, u, g); }
  }

  lemma Turning(s: Sys, g: Id, r: Reading)
    requires CallOk(s, g)
    ensures var t, x := Step(s, Advancing(g), r), s.live[g].pc;
      t == if Undoing(x) then AdvanceUndo(s, g, r) else if CheckingAuthority(x) then AdvanceAuthority(s, g, r) else AdvanceFiles(s, g, r)
  {
    hide AdvanceFiles, AdvanceUndo, AdvanceAuthority;
  }

  /** The next place of a call is `pc` exactly when this is where it may go and what it needs to know is so: a
      fresh authority before the first backup, before every write and before the last checks, the expected
      content before a file is backed up and before it is written, the planned content after it is written and
      once more before the transaction ends. */
  lemma ProceedsExactly(s: Sys, g: Id, r: Reading, pc: Pc)
    requires CallOk(s, g) && Forward(pc)
    ensures var t := Step(s, Advancing(g), r); (g in t.live && t.live[g].pc == pc <==> Proceeds(s, g, r, pc))
  {
    hide Step, AdvanceFiles, AdvanceUndo, AdvanceAuthority, Cleared, Shows, Writable, CallKept, Put;
    Turning(s, g, r);
    match s.live[g].pc
    case Started => FromStarted(s, g, r);
    case BackingUp => FromBackingUp(s, g, r);
    case Checking(_) => FromChecking(s, g, r);
    case Writing(_) => FromWriting(s, g, r);
    case Verifying(_) => FromVerifying(s, g, r);
    case Final => FromFinal(s, g, r);
    case FinalChecking(_, _) => FromFinalChecking(s, g, r);
    case Committing(_) => FromCommitting(s, g, r);
    case _ => FromUndoing(s, g, r);
  }

  // ---------------------------------------------------------------- raising and undoing

  /** The call may go nowhere forward: something has raised. */
  ghost predicate Raises(s: Sys, g: Id, r: Reading)
    requires CallOk(s, g)
  {
    !Undoing(s.live[g].pc) && !MayCommit(s, g, r) && forall pc :: Forward(pc) ==> !Proceeds(s, g, r, pc)
  }

  /** How a call that has raised goes back: over its backups, last first; then it looks at every backed-up file; it
      ends undone when each is as it was, and otherwise by blocking the workspace. */
  ghost predicate Retreats(s: Sys, g: Id, r: Reading, pc: Pc)
    requires CallOk(s, g)
  {
    var x := s.live[g];
    match pc
    case RollingBack(j) =>
      || (Raises(s, g, r) && x.backups != [] && j == |x.backups|)
      || (x.pc == RollingBack(j + 1) && !r.fault)
    case Confirming(i, good) =>
      || (x.pc == RollingBack(0) && i == 0 && good)
      || (x.pc.Confirming? && i == x.pc.i + 1 && x.pc.i < |x.backups| && !r.fault && good == (x.pc.good && ShowsBackup(s, g, x.pc.i)))
    case Blocking =>
      || (r.fault && x.pc.RollingBack? && x.pc.i > 0)
      || (r.fault && x.pc.Confirming? && x.pc.i < |x.backups|)
      || (x.pc.Confirming? && x.pc.i >= |x.backups| && !x.pc.good)
    case Closing(undone) =>
      || (Raises(s, g, r) && x.backups == [] && undone)
      || (x.pc.Confirming? && x.pc.i >= |x.backups| && x.pc.good && undone)
      || (x.pc.Blocking? && !undone)
    case _ => false
  }

  lemma UndoGoes(s: Sys, g: Id, r: Reading, pc: Pc)
    requires CallOk(s, g) && Undoing(s.live[g].pc) && Undoing(pc)
    ensures var t := AdvanceUndo(s, g, r); (g in t.live && t.live[g].pc == pc <==> Retreats(s, g, r, pc))
  {
    hide AdvanceUndo, CallKept, Put, ShowsBackup;
    match s.live[g].pc
    case RollingBack(_) => FromRollingBack(s, g, r);
    case Confirming(_, _) => FromConfirming(s, g, r);
    case _ => FromBlocking(s, g, r);
  }

  /** A call that raises goes back over its backups, or straight to the end. */
  lemma RaisesBack(s: Sys, g: Id, r: Reading)
    requires CallOk(s, g) && TxOk(s, g) && !Undoing(s.live[g].pc)
    ensures var t := Step(s, Advancing(g), r);
      if Raises(s, g, r) then g in t.live && t.live[g].pc == Back(s.live[g]) else g in t.live ==> Forward(t.live[g].pc)
  {
    hide Step, Proceeds, MayCommit, TxOk;
    var t := Step(s, Advancing(g), r);
    WhereTo(s, g, r);
    if g in t.live && Forward(t.live[g].pc) { ProceedsExactly(s, g, r, t.live[g].pc); }
    if !Raises(s, g, r) && !MayCommit(s, g, r) {
      var pc :| Forward(pc) && Proceeds(s, g, r, pc);
      ProceedsExactly(s, g, r, pc);
    }
  }

  /** Forward, back, or gone. */
  lemma WhereTo(s: Sys, g: Id, r: Reading)
    requires CallOk(s, g) && TxOk(s, g) && !Undoing(s.live[g].pc)
    ensures var t := Step(s, Advancing(g), r);
      && (g in t.live ==> Forward(t.live[g].pc) || t.live[g].pc == Back(s.live[g]))
      && (g !in t.live <==> MayCommit(s, g, r))
  {
    hide Step, AdvanceFiles, AdvanceUndo, AdvanceAuthority, Cleared, Shows, Writable, CallKept, Put, MayCommit, TxOk;
    Turning(s, g, r);
    match s.live[g].pc
    case Started => FromStarted(s, g, r); NotCommitting(s, g, r);
    case BackingUp => FromBackingUp(s, g, r); NotCommitting(s, g, r);
    case Checking(_) => FromChecking(s, g, r); NotCommitting(s, g, r);
    case Writing(_) => FromWriting(s, g, r); NotCommitting(s, g, r);
    case Verifying(_) => FromVerifying(s, g, r); NotCommitting(s, g, r);
    case Final => FromFinal(s, g, r); NotCommitting(s, g, r);
    case FinalChecking(_, _) => FromFinalChecking(s, g, r); NotCommitting(s, g, r);
    case Committing(_) => CommitsOrBack(s, g, r);
  }

  lemma NotCommitting(s: Sys, g: Id, r: Reading)
    requires CallOk(s, g) && !s.live[g].pc.Committing?
    ensures !MayCommit(s, g, r)
  {
  }

  /** The next place of a call that undoes is `pc` exactly when it may retreat there. */
  lemma RetreatsExactly(s: Sys, g: Id, r: Reading, pc: Pc)
    requires CallOk(s, g) && TxOk(s, g) && Undoing(pc)
    ensures var t := Step(s, Advancing(g), r); (g in t.live && t.live[g].pc == pc <==> Retreats(s, g, r, pc))
  {
    hide Step, AdvanceUndo, Raises, TxOk;
    if Undoing(s.live[g].pc) {
      Turning(s, g, r);
      UndoGoes(s, g, r, pc);
    } else {
      RaisesBack(s, g, r);
    }
  }

  // ---------------------------------------------------------------- files

  /** What a step of a call does to the files of its workspace: it writes the planned operation when it stands
      before that write, puts back one backup when it is rolling back, and otherwise touches nothing. */
  lemma FilesExactly(s: Sys, g: Id, r: Reading)
    requires CallOk(s, g)
    ensures var t, x, ws := Step(s, Advancing(g), r), s.live[g], s.grants[g].workspace;
      t.disks ==
        if x.pc.Writing? && !r.fault && Writable(DiskOf(s, ws), x.rows[x.pc.i]) then
          s.disks[ws := Put(DiskOf(s, ws), x.rows[x.pc.i].path, x.rows[x.pc.i].data)]
        else if x.pc.RollingBack? && x.pc.i > 0 && !r.fault then
          s.disks[ws := Put(DiskOf(s, ws), x.rows[x.pc.i - 1].path, x.backups[x.pc.i - 1])]
        else s.disks
  {
    hide Step, Put, AdvanceFiles, AdvanceUndo, AdvanceAuthority, Cleared, Shows, Writable, CallKept;
    Turning(s, g, r);
    match s.live[g].pc
    case Started => FromStarted(s, g, r);
    case BackingUp => FromBackingUp(s, g, r);
    case Checking(_) => FromChecking(s, g, r);
    case Writing(_) => FromWriting(s, g, r);
    case Verifying(_) => FromVerifying(s, g, r);
    case Final => FromFinal(s, g, r);
    case FinalChecking(_, _) => FromFinalChecking(s, g, r);
    case Committing(_) => FromCommitting(s, g, r);
    case _ => FromUndoing(s, g, r);
  }

  lemma StepKeepsCall(s: Sys, g: Id, r: Reading)
    requires CallOk(s, g)
    ensures CallKept(s, Step(s, Advancing(g), r), g)
  {
    hide Step, Put, AdvanceFiles, AdvanceUndo, AdvanceAuthority, Cleared, Shows, Writable, CallKept;
    Turning(s, g, r);
    match s.live[g].pc
    case Started => FromStarted(s, g, r);
    case BackingUp => FromBackingUp(s, g, r);
    case Checking(_) => FromChecking(s, g, r);
    case Writing(_) => FromWriting(s, g, r);
    case Verifying(_) => FromVerifying(s, g, r);
    case Final => FromFinal(s, g, r);
    case FinalChecking(_, _) => FromFinalChecking(s, g, r);
    case Committing(_) => FromCommitting(s, g, r);
    case _ => FromUndoing(s, g, r);
  }

  // ---------------------------------------------------------------- what ends a grant

  /** What accepting a transaction does to the records: grant and transaction are applied, the evidence names
      them, the task comes under review, and the log has one more entry. */
  function AcceptedFor(s: Sys, g: Id, at: Time): Sys
    requires g in s.grants && g in s.txs && s.grants[g].task in s.world.db.tasks
  {
    var grant, rows := s.grants[g], s.txs[g].rows;
    var evidence := Envelope(g, grant.task, grant.worker, grant.session, grant.lease, grant.workspace, rows, at);
    var row := s.world.db.tasks[grant.task].(state := ReviewPending, evidence := Received);
    s.(grants := s.grants[g := grant.(state := Applied)],
       txs := s.txs[g := s.txs[g].(state := Applied, evidence := Some(evidence))],
       world := s.world.(db := s.world.db.(tasks := s.world.db.tasks[grant.task := row])),
       log := s.log + [Entry(g, grant.workspace, rows)])
  }

  /** The call for `g` may end its transaction: with the clock reading of its last check the grant is still in
      force, its workspace is open, and nothing has raised. */
  ghost predicate MayCommit(s: Sys, g: Id, r: Reading) {
    && CallOk(s, g) && s.live[g].pc.Committing? && s.grants[g].state.Applying? && !r.fault
    && Entitled(s.world.db, s.grants[g], s.live[g].pc.at, r.bound) && Open(s, s.grants[g].workspace, s.grants[g].target, r.intact)
  }

  lemma CommitsWell(s: Sys, g: Id, r: Reading)
    requires MayCommit(s, g, r) && TxOk(s, g)
    ensures AdvanceAuthority(s, g, r) == AcceptedFor(s, g, s.live[g].pc.at).(live := s.live - {g})
  {
    hide Authority, Enter, InScope, PlanOk, Open;
    EntitledIsAuthority(s.world.db, s.grants[g], s.live[g].pc.at, r.bound);
    EnterEffect(s, s.grants[g].workspace, s.grants[g].target, r.intact);
    EnteredExactly(s, s.grants[g].workspace, s.grants[g].target, r.intact);
  }

  lemma CommitsOrBack(s: Sys, g: Id, r: Reading)
    requires CallOk(s, g) && TxOk(s, g) && s.live[g].pc.Committing?
    ensures var t := AdvanceAuthority(s, g, r);
      if g in t.live then t.live[g].pc == Back(s.live[g]) && !MayCommit(s, g, r) else MayCommit(s, g, r)
  {
    hide Authority, Enter, Open, AcceptExecution, EnvelopeOf, Goto, Raise, CallKept, InScope, PlanOk, Rows.OnLeaseOf, Rows.Beats;
    EntitledIsAuthority(s.world.db, s.grants[g], s.live[g].pc.at, r.bound);
    EnterEffect(s, s.grants[g].workspace, s.grants[g].target, r.intact);
    EnteredExactly(s, s.grants[g].workspace, s.grants[g].target, r.intact);
    Going(s, g, Final);
    Going(EnterAtomic(s, s.grants[g].workspace, s.grants[g].target, r.intact).0, g, Final);
  }

  lemma CommitsIll(s: Sys, g: Id, r: Reading)
    requires CallOk(s, g) && s.live[g].pc.Committing? && !MayCommit(s, g, r)
    ensures var t := AdvanceAuthority(s, g, r); t.grants == s.grants && t.txs == s.txs && t.world == s.world && t.log == s.log
  {
    hide Authority, Enter, Open, Entitled, Complete;
    EntitledIsAuthority(s.world.db, s.grants[g], s.live[g].pc.at, r.bound);
    EnterEffect(s, s.grants[g].workspace, s.grants[g].target, r.intact);
    EnteredExactly(s, s.grants[g].workspace, s.grants[g].target, r.intact);
  }

  lemma Commits(s: Sys, g: Id, r: Reading)
    requires CallOk(s, g) && s.live[g].pc.Committing? && TxOk(s, g)
    ensures var t := AdvanceAuthority(s, g, r);
      if MayCommit(s, g, r) then
        s.grants[g].task in s.world.db.tasks && t == AcceptedFor(s, g, s.live[g].pc.at).(live := s.live - {g})
      else t.grants == s.grants && t.txs == s.txs && t.world == s.world && t.log == s.log
  {
    hide AdvanceAuthority, TxOk, AcceptedFor;
    if MayCommit(s, g, r) { CommitsWell(s, g, r); } else { CommitsIll(s, g, r); }
  }

  /** Call `c` may accept the transaction of `g`: it has found every planned file written, and the task still
      runs. */
  ghost predicate MayAccept(s: Sys, c: Id, g: Id, r: Reading) {
    && c in s.rescues && s.rescues[c].grant == g && s.rescues[c].stage == Decided(Applied) && !r.fault
    && g in s.grants && g in s.txs
    && s.grants[g].task in s.world.db.tasks && s.world.db.tasks[s.grants[g].task].state.Running?
  }

  lemma Accepts(s: Sys, c: Id, g: Id, r: Reading)
    requires MayAccept(s, c, g, r) && TxOk(s, g) && s.grants[g].state.Applying?
    ensures Continue(s, c, g, r) == AcceptedFor(s, g, s.rescues[c].at).(rescues := s.rescues - {c})
  {
    hide InScope, PlanOk;
  }

  /** No grant is applied that was not. */
  ghost predicate NoneApplied(s: Sys, t: Sys) {
    forall g :: g in s.grants ==> g in t.grants && (t.grants[g].state.Applied? ==> s.grants[g].state.Applied?)
  }

  lemma SettledNone(s: Sys, g: Id, st: GrantState, t: Sys)
    requires IsSettled(s, g, st, t)
    ensures NoneApplied(s, t)
  {
  }

  lemma AdvanceNone(s: Sys, g: Id, r: Reading)
    requires RowsAgree(s) && (CallOk(s, g) && s.live[g].pc.Committing? ==> !MayCommit(s, g, r))
    requires g in s.live ==> CallOk(s, g)
    ensures NoneApplied(s, Advance(s, g, r))
  {
    hide AdvanceUndo, AdvanceAuthority, AdvanceFiles, IsFinished, IsSettled, MayCommit, RowsAgree;
    if g in s.live {
      if Undoing(s.live[g].pc) {
        UndoEffect(s, g, r);
        var t := AdvanceUndo(s, g, r);
        if IsSettled(s, g, Failed, t) { SettledNone(s, g, Failed, t); }
        if IsSettled(s, g, IntegrityBlocked, t) { SettledNone(s, g, IntegrityBlocked, t); }
      } else if s.live[g].pc.Committing? {
        assert TxOk(s, g) by { RowsTx(s, g); }
        Commits(s, g, r);
      } else if CheckingAuthority(s.live[g].pc) { AuthorityEffect(s, g, r); }
      else { FilesEffect(s, g, r); }
    }
  }

  lemma RowsTx(s: Sys, g: Id)
    requires RowsAgree(s) && g in s.txs
    ensures TxOk(s, g)
  {
  }

  lemma ConcludeNone(s: Sys, c: Id, g: Id, v: GrantState)
    requires c in s.rescues && g in s.grants && g in s.txs && (v.Failed? || v.IntegrityBlocked? || v.Applied?)
    requires v.Applied? ==> !TaskRunning(s.world.db, s.grants[g].task)
    ensures NoneApplied(s, Conclude(s, c, g, v))
  {
    hide AcceptExecution;
  }

  lemma ContinueNone(s: Sys, c: Id, g: Id, r: Reading)
    requires RowsAgree(s) && RescuesOk(s) && !MayAccept(s, c, g, r)
    ensures NoneApplied(s, Continue(s, c, g, r))
  {
    hide RowsAgree, Conclude, Look, Decide, Block, EndCall;
    if c in s.rescues && s.rescues[c].grant == g && g in s.grants && g in s.txs && !r.fault {
      assert StageOk(s.rescues[c].stage);
      var k, rows, ws := s.rescues[c], s.txs[g].rows, s.grants[g].workspace;
      if k.stage.Decided? { ConcludeNone(s, c, g, k.stage.verdict); }
      else if k.stage.Looking? && |k.images| < |rows| { LookEffect(s, c, DiskOf(s, ws), rows); }
      else { DecideEffect(s, c, ws, rows); }
    }
    EndEffect(s, c, if g in s.grants then s.grants[g].workspace else "");
  }

  lemma OthersNone(s: Sys, a: Action, r: Reading)
    requires Sound(s) && Permitted(s, a) && !a.Advancing? && !a.Rescuing?
    ensures NoneApplied(s, Step(s, a, r))
  {
    hide StoreRuns.Inv, StoreRuns.Next, Survey, Begin, Sound, Permitted, MayConsume, Over;
    match a
    case Issuing(_, _, _, _, _, _, _, _, _) =>
      forall g | g in s.grants ensures g in Step(s, a, r).grants && Step(s, a, r).grants[g] == s.grants[g] { IssueSpares(s, a, r, g); }
    case Beginning(g, rows) => BeginNone(s, g, rows, r);
    case Surveying(c, g) => SurveyEffect(s, c, g, r);
    case Crashing(_, _, _) =>
    case StoreStep(_, _) =>
    case Tampering(_, _, _) =>
  }

  lemma BeginNone(s: Sys, g: Id, rows: seq<Row>, r: Reading)
    ensures NoneApplied(s, Begin(s, g, rows, r))
  {
    hide Begin, MayConsume, Over;
    if g in s.grants && s.grants[g].state.Issued? { Begins(s, g, rows, r); }
    else if g in s.grants { NoBegin(s, g, rows, r); }
    else { UnknownGrant(s, g, rows, r); }
  }

  // ---------------------------------------------------------------- applied, and how

  /** The step ends the transaction of `g`: by its own call, in force at its last check, or by a recovery that has
      found every planned file written while the task runs. */
  ghost predicate EndsWell(s: Sys, a: Action, r: Reading, g: Id) {
    (a == Advancing(g) && MayCommit(s, g, r)) || (a.Rescuing? && a.g == g && MayAccept(s, a.c, g, r))
  }

  /** Nothing else is applied by an ending of `h`. */
  lemma AcceptedOthers(s: Sys, h: Id, at: Time, t: Sys, g: Id)
    requires h in s.grants && h in s.txs && s.grants[h].task in s.world.db.tasks && t.grants == AcceptedFor(s, h, at).grants
    requires g in s.grants && g != h
    ensures g in t.grants && t.grants[g] == s.grants[g]
  {
  }

  /** A grant is applied exactly by such a step; and then grant, transaction, evidence, task and log say so
      together, and no file changes. */
  lemma AppliedExactly(s: Sys, a: Action, r: Reading, g: Id)
    requires Sound(s) && CallsOk(s) && Permitted(s, a) && g in s.grants
    ensures var t := Step(s, a, r);
      && g in t.grants
      && (t.grants[g].state.Applied? && !s.grants[g].state.Applied? <==> EndsWell(s, a, r, g))
      && (t.grants[g].state.Applied? && !s.grants[g].state.Applied? ==>
            && g in s.txs && s.grants[g].task in s.world.db.tasks
            && t == AcceptedFor(s, g, if a.Advancing? then s.live[g].pc.at else s.rescues[a.c].at)
                    .(live := if a.Advancing? then s.live - {g} else s.live, rescues := if a.Advancing? then s.rescues else s.rescues - {a.c}))
  {
    hide Step, StoreRuns.Inv, MayCommit, MayAccept, AcceptedFor;
    if a.Advancing? { AdvanceApplies(s, a.g, r, g); }
    else if a.Rescuing? { RescueApplies(s, a.c, a.g, r, g); }
    else { OthersNone(s, a, r); OthersKeep(s, a, r); }
  }

  lemma OthersKeep(s: Sys, a: Action, r: Reading)
    requires Sound(s) && Permitted(s, a)
    ensures Lasting(s, Step(s, a, r))
  {
    StepSound(s, a, r);
  }

  lemma AdvanceApplies(s: Sys, h: Id, r: Reading, g: Id)
    requires Sound(s) && CallsOk(s) && g in s.grants
    ensures var t := Step(s, Advancing(h), r);
      && g in t.grants
      && (t.grants[g].state.Applied? && !s.grants[g].state.Applied? <==> h == g && MayCommit(s, g, r))
      && (h == g && MayCommit(s, g, r) ==>
            && g in s.txs && s.grants[g].task in s.world.db.tasks
            && t == AcceptedFor(s, g, s.live[g].pc.at).(live := s.live - {g}, rescues := s.rescues))
  {
    hide Step, Advance, Sound, MayCommit, AcceptedFor;
    Stepping(s, h, r);
    SoundRows(s);
    if MayCommit(s, h, r) {
      CommitStep(s, h, r);
    } else {
      AdvanceNone(s, h, r);
      OthersKeep(s, Advancing(h), r);
    }
  }

  lemma SoundRows(s: Sys)
    requires Sound(s)
    ensures RowsAgree(s)
  {
  }

  lemma Stepping(s: Sys, g: Id, r: Reading)
    ensures Step(s, Advancing(g), r) == Advance(s, g, r)
  {
  }

  lemma CommitStep(s: Sys, g: Id, r: Reading)
    requires Sound(s) && MayCommit(s, g, r)
    ensures g in s.txs && s.grants[g].task in s.world.db.tasks && !s.grants[g].state.Applied?
    ensures var t := Advance(s, g, r);
      && t == AcceptedFor(s, g, s.live[g].pc.at).(live := s.live - {g}, rescues := s.rescues)
      && g in t.grants && t.grants[g].state.Applied?
    ensures forall k :: k in s.grants && k != g ==> k in Advance(s, g, r).grants && Advance(s, g, r).grants[k] == s.grants[k]
  {
    hide StoreRuns.Inv, RescuesOk;
    RowsTx(s, g);
    Commits(s, g, r);
    Turning(s, g, r);
    Stepping(s, g, r);
  }

  lemma RescueApplies(s: Sys, c: Id, h: Id, r: Reading, g: Id)
    requires Sound(s) && g in s.grants
    ensures var t := Step(s, Rescuing(c, h), r);
      && g in t.grants
      && (t.grants[g].state.Applied? && !s.grants[g].state.Applied? <==> h == g && MayAccept(s, c, g, r))
      && (h == g && MayAccept(s, c, g, r) ==>
            && g in s.txs && s.grants[g].task in s.world.db.tasks
            && t == AcceptedFor(s, g, s.rescues[c].at).(live := s.live, rescues := s.rescues - {c}))
  {
    hide StoreRuns.Inv, Continue, AcceptedFor;
    if MayAccept(s, c, h, r) {
      assert Abandoned(s, h);
      RowsTx(s, h);
      Accepts(s, c, h, r);
      AcceptedIsApplied(s, h, s.rescues[c].at);
      if g != h { AcceptedOthers(s, h, s.rescues[c].at, Continue(s, c, h, r), g); }
    } else {
      ContinueNone(s, c, h, r);
      OthersKeep(s, Rescuing(c, h), r);
    }
  }

  lemma AcceptedIsApplied(s: Sys, g: Id, at: Time)
    requires g in s.grants && g in s.txs && s.grants[g].task in s.world.db.tasks
    ensures var t := AcceptedFor(s, g, at); g in t.grants && t.grants[g].state.Applied? && t.live == s.live && t.rescues == s.rescues
  {
  }

  // ---------------------------------------------------------------- recovery

  lemma Surveys(s: Sys, c: Id, g: Id, r: Reading)
    requires c !in s.rescues
    ensures var t := Survey(s, c, g, r);
      && (c in t.rescues <==>
            && g in s.grants && g in s.txs && s.grants[g].state.Applying? && s.txs[g].state.Applying?
            && Open(s, s.grants[g].workspace, s.grants[g].target, r.intact) && !r.fault)
      && (c in t.rescues ==> t == s.(rescues := s.rescues[c := Rescue(g, r.now, [], Looking)]))
  {
    hide Enter, Open;
    if g in s.grants {
      EnterEffect(s, s.grants[g].workspace, s.grants[g].target, r.intact);
      EnteredExactly(s, s.grants[g].workspace, s.grants[g].target, r.intact);
    }
  }

  lemma NoNewCall(s: Sys, a: Action, r: Reading, c: Id)
    requires Sound(s) && Permitted(s, a) && c !in s.rescues && !(a.Surveying? && a.c == c)
    ensures c !in Step(s, a, r).rescues
  {
    hide StoreRuns.Inv, StoreRuns.Next, Advance, Continue, Survey, Begin, MayConsume, Over, RescuesOk;
    match a
    case Issuing(_, _, _, _, _, _, _, _, _) => IssueEffect(s, a, r);
    case Beginning(g, rows) =>
      if g in s.grants && s.grants[g].state.Issued? { Begins(s, g, rows, r); }
      else if g in s.grants { NoBegin(s, g, rows, r); }
      else { UnknownGrant(s, g, rows, r); }
    case Advancing(g) => SoundRows(s); AdvanceCalls(s, g, r);
    case Surveying(d, g) => SurveyEffect(s, d, g, r);
    case Rescuing(d, g) => ContinueCalls(s, d, g, r);
    case Crashing(_, _, _) =>
    case StoreStep(_, _) =>
    case Tampering(_, _, _) =>
  }

  /** A recovery starts exactly on an applying grant whose workspace is open; it starts with nothing read. */
  lemma SurveyedExactly(s: Sys, a: Action, r: Reading, c: Id)
    requires Sound(s) && Permitted(s, a) && c !in s.rescues
    ensures var t := Step(s, a, r);
      && (c in t.rescues <==>
            && a.Surveying? && a.c == c && a.g in s.grants && a.g in s.txs && s.grants[a.g].state.Applying? && s.txs[a.g].state.Applying?
            && Open(s, s.grants[a.g].workspace, s.grants[a.g].target, r.intact) && !r.fault)
      && (c in t.rescues ==> t == s.(rescues := s.rescues[c := Rescue(a.g, r.now, [], Looking)]))
  {
    hide Sound, Permitted, Survey, Advance, Begin, Continue, StoreRuns.Next, Open;
    if a.Surveying? && a.c == c { Surveys(s, c, a.g, r); } else { NoNewCall(s, a, r, c); }
  }

  /** Every planned file has the image it should have had before the plan, as far as the call has read. */
  predicate AllBefore(images: seq<Image>, rows: seq<Row>) {
    |images| == |rows| && forall i :: 0 <= i < |rows| ==> images[i] == rows[i].pre
  }

  predicate AllAfter(images: seq<Image>, rows: seq<Row>) {
    |images| == |rows| && forall i :: 0 <= i < |rows| ==> images[i] == rows[i].post
  }

  lemma VerdictExactly(images: seq<Image>, rows: seq<Row>)
    ensures Classify(images, rows) == if AllBefore(images, rows) then Failed else if AllAfter(images, rows) then Applied else IntegrityBlocked
  {
    if AllBefore(images, rows) { assert images == Pres(rows); }
    if AllAfter(images, rows) { assert images == Posts(rows); }
  }

  /** What a step of a recovery that is still looking does: it reads the next planned file, and once it has read
      them all it decides that nothing was done, or everything, or else blocks the workspace. */
  lemma LookedExactly(s: Sys, c: Id, g: Id, r: Reading)
    requires c in s.rescues && s.rescues[c].grant == g && s.rescues[c].stage.Looking? && g in s.grants && g in s.txs && !r.fault
    ensures var t, k, rows, ws := Step(s, Rescuing(c, g), r), s.rescues[c], s.txs[g].rows, s.grants[g].workspace;
      var mixed := |k.images| >= |rows| && !AllBefore(k.images, rows) && !AllAfter(k.images, rows);
      t == s.(rescues := s.rescues[c :=
          if |k.images| < |rows| then k.(images := k.images + [ImageAt(DiskOf(s, ws), rows[|k.images|].path)])
          else k.(stage := Decided(if AllBefore(k.images, rows) then Failed else if AllAfter(k.images, rows) then Applied else IntegrityBlocked))],
        blocked := if mixed && ws in s.known then s.blocked + {ws} else s.blocked,
        refused := if mixed then s.refused + {ws} else s.refused)
  {
    hide Classify, ImageAt, AllBefore, AllAfter;
    VerdictExactly(s.rescues[c].images, s.txs[g].rows);
  }

  /** What a step of a recovery that has decided does. That nothing or something else was done is written down for
      grant and transaction; that all was done is accepted while the task runs, and otherwise the workspace is
      blocked. Then the call is over. */
  lemma DecidedStep(s: Sys, c: Id, g: Id, r: Reading)
    requires Sound(s) && c in s.rescues && s.rescues[c].grant == g && !s.rescues[c].stage.Looking? && !r.fault
    ensures g in s.grants && g in s.txs
    ensures var t, k, ws := Step(s, Rescuing(c, g), r), s.rescues[c], s.grants[g].workspace;
      if k.stage == Decided(Applied) then
        (if MayAccept(s, c, g, r) then s.grants[g].task in s.world.db.tasks && t == AcceptedFor(s, g, k.at).(rescues := s.rescues - {c})
         else t == s.(rescues := s.rescues[c := k.(stage := Losing)]))
      else if k.stage.Decided? then
        t == s.(grants := s.grants[g := s.grants[g].(state := k.stage.verdict)], txs := s.txs[g := s.txs[g].(state := k.stage.verdict)],
                rescues := s.rescues - {c})
      else
        t == s.(blocked := if ws in s.known then s.blocked + {ws} else s.blocked, refused := s.refused + {ws}, rescues := s.rescues - {c})
  {
    hide StoreRuns.Inv, InScope, PlanOk, AcceptedFor, Conclude, Block, Step, Settle, MayAccept;
    assert Abandoned(s, g) && StageOk(s.rescues[c].stage) && TxOk(s, g);
    StepIs(s, c, g, r);
    var k := s.rescues[c];
    if k.stage == Decided(Applied) {
      if MayAccept(s, c, g, r) { Accepts(s, c, g, r); AcceptsTask(s, c, g, r); } else { LosesTask(s, c, g, r); }
    } else if k.stage.Decided? {
      SettlesBoth(s, c, g, k.stage.verdict);
    } else {
      BlocksFor(s, c, g, r);
    }
  }

  lemma StepIs(s: Sys, c: Id, g: Id, r: Reading)
    ensures Step(s, Rescuing(c, g), r) == Continue(s, c, g, r)
  {
  }

  lemma AcceptsTask(s: Sys, c: Id, g: Id, r: Reading)
    requires MayAccept(s, c, g, r)
    ensures s.grants[g].task in s.world.db.tasks
  {
  }

  lemma LosesTask(s: Sys, c: Id, g: Id, r: Reading)
    requires c in s.rescues && s.rescues[c].grant == g && s.rescues[c].stage == Decided(Applied) && g in s.grants && g in s.txs && !r.fault
    requires !MayAccept(s, c, g, r)
    ensures Continue(s, c, g, r) == s.(rescues := s.rescues[c := s.rescues[c].(stage := Losing)])
  {
  }

  lemma SettlesBoth(s: Sys, c: Id, g: Id, v: GrantState)
    requires c in s.rescues && g in s.grants && g in s.txs && s.grants[g].state.Applying? && s.txs[g].state.Applying? && !v.Applied?
    ensures Conclude(s, c, g, v) ==
      s.(grants := s.grants[g := s.grants[g].(state := v)], txs := s.txs[g := s.txs[g].(state := v)], rescues := s.rescues - {c})
  {
  }

  lemma BlocksFor(s: Sys, c: Id, g: Id, r: Reading)
    requires c in s.rescues && s.rescues[c].grant == g && s.rescues[c].stage.Losing? && g in s.grants && g in s.txs && !r.fault
    ensures var ws := s.grants[g].workspace;
      Continue(s, c, g, r) ==
        s.(blocked := if ws in s.known then s.blocked + {ws} else s.blocked, refused := s.refused + {ws}, rescues := s.rescues - {c})
  {
  }

  /** A recovery that something raises in is over, with nothing written. */
  lemma RaisedStep(s: Sys, c: Id, g: Id, r: Reading)
    requires c in s.rescues && s.rescues[c].grant == g && g in s.grants && g in s.txs && r.fault
    ensures Step(s, Rescuing(c, g), r) == s.(rescues := s.rescues - {c})
  {
  }

  /** How a call that undoes ends: it blocks its workspace before it closes for good, and closing gives grant and
      transaction the state that says whether the files were put back. */
  lemma ClosedExactly(s: Sys, g: Id, r: Reading)
    requires CallOk(s, g) && TxOk(s, g) && (s.live[g].pc.Blocking? || s.live[g].pc.Closing?)
    ensures var t, ws := Step(s, Advancing(g), r), s.grants[g].workspace;
      if s.live[g].pc.Blocking? then
        t == s.(blocked := if ws in s.known then s.blocked + {ws} else s.blocked, refused := s.refused + {ws},
                live := s.live[g := s.live[g].(pc := Closing(false))])
      else
        var st := if s.live[g].pc.undone then Failed else IntegrityBlocked;
        t == if s.grants[g].state.Applying? then
               s.(grants := s.grants[g := s.grants[g].(state := st)], txs := s.txs[g := s.txs[g].(state := st)], live := s.live - {g})
             else s.(live := s.live - {g})
  {
    hide InScope, PlanOk;
  }

  // ---------------------------------------------------------------- running calls stay on their plans

  /** Transactions neither go nor change their plans. */
  ghost predicate PlansKept(s: Sys, t: Sys) {
    && (forall g :: g in s.grants ==> g in t.grants)
    && (forall g :: g in s.txs ==> g in t.txs && t.txs[g].rows == s.txs[g].rows)
  }

  lemma FinishedPlans(s: Sys, g: Id, at: Time, t: Sys)
    requires IsFinished(s, g, at, t)
    ensures PlansKept(s, t)
  {
    hide AcceptExecution, EnvelopeOf;
  }

  lemma SettledPlans(s: Sys, g: Id, st: GrantState, t: Sys)
    requires IsSettled(s, g, st, t)
    ensures PlansKept(s, t)
  {
  }

  lemma ClosedPlans(s: Sys, g: Id, at: Time, t: Sys)
    requires IsClosed(s, g, at, t)
    ensures PlansKept(s, t)
  {
    hide IsFinished, IsSettled;
    if IsFinished(s, g, at, t) { FinishedPlans(s, g, at, t); }
    else if IsSettled(s, g, Failed, t) { SettledPlans(s, g, Failed, t); }
    else if IsSettled(s, g, IntegrityBlocked, t) { SettledPlans(s, g, IntegrityBlocked, t); }
  }

  lemma SameCallsOk(s: Sys, t: Sys)
    requires CallsOk(s) && PlansKept(s, t) && forall g :: g in t.live ==> g in s.live && t.live[g] == s.live[g]
    ensures CallsOk(t)
  {
    forall g | g in t.live ensures CallOk(t, g) { assert CallOk(s, g); }
  }

  lemma AdvanceCallsOk(s: Sys, g: Id, r: Reading)
    requires Sound(s) && CallsOk(s)
    ensures CallsOk(Step(s, Advancing(g), r))
  {
    hide Step, Sound, IsClosed;
    var t := Step(s, Advancing(g), r);
    Stepping(s, g, r);
    SoundRows(s);
    if g in s.live {
      var at := AdvanceClosed(s, g, r);
      ClosedPlans(s, g, at, t);
      StepKeepsCall(s, g, r);
      forall h | h in t.live ensures CallOk(t, h) { assert CallOk(s, h); }
    } else {
      NotLive(s, g, r);
    }
  }

  lemma NotLive(s: Sys, g: Id, r: Reading)
    requires g !in s.live
    ensures Advance(s, g, r) == s
  {
  }

  lemma ConsumedCallsOk(s: Sys, g: Id, rows: seq<Row>)
    requires CallsOk(s) && g in s.grants && g !in s.txs
    ensures CallsOk(ConsumedFor(s, g, rows))
  {
    var t := ConsumedFor(s, g, rows);
    forall h | h in t.live ensures CallOk(t, h) { if h != g { assert CallOk(s, h); } }
  }

  lemma BeginCallsOk(s: Sys, g: Id, rows: seq<Row>, r: Reading)
    requires Sound(s) && CallsOk(s)
    ensures CallsOk(Begin(s, g, rows, r))
  {
    hide Begin, MayConsume, Over, CallsOk, ConsumedFor, StoreRuns.Inv;
    if g in s.grants && s.grants[g].state.Issued? {
      Begins(s, g, rows, r);
      if MayConsume(s, g, rows, r) { IssuedHasNoTx(s, g); ConsumedCallsOk(s, g, rows); } else { SameCallsOk(s, Begin(s, g, rows, r)); }
    } else if g in s.grants { NoBegin(s, g, rows, r); }
    else { UnknownGrant(s, g, rows, r); }
  }

  lemma IssuedHasNoTx(s: Sys, g: Id)
    requires Sound(s) && g in s.grants && s.grants[g].state.Issued?
    ensures g !in s.txs
  {
  }

  lemma IssueLive(s: Sys, a: Action, r: Reading)
    requires a.Issuing?
    ensures Step(s, a, r).live == s.live
  {
  }

  lemma StepCallsOk(s: Sys, a: Action, r: Reading)
    requires Sound(s) && CallsOk(s) && Permitted(s, a)
    ensures CallsOk(Step(s, a, r))
  {
    hide StoreRuns.Inv, StoreRuns.Next, Advance, Continue, Survey, Begin, CallsOk, IsClosed, Books;
    var t := Step(s, a, r);
    match a
    case Issuing(_, _, _, _, _, _, _, _, _) => IssueLive(s, a, r); IssueEffect(s, a, r); SameCallsOk(s, t);
    case Beginning(g, rows) => BeginCallsOk(s, g, rows, r);
    case Advancing(g) => AdvanceCallsOk(s, g, r);
    case Surveying(c, g) => SurveyEffect(s, c, g, r); SameCallsOk(s, t);
    case Rescuing(c, g) =>
      SoundRows(s);
      ContinueCalls(s, c, g, r);
      RescueEffect(s, c, g, r);
      ClosedPlans(s.(rescues := t.rescues), g, if c in s.rescues then s.rescues[c].at else 0.0, t);
      SameCallsOk(s, t);
    case Crashing(_, _, _) => SameCallsOk(s, t);
    case StoreStep(_, _) => SameCallsOk(s, t);
    case Tampering(_, _, _) => SameCallsOk(s, t);
  }
}
