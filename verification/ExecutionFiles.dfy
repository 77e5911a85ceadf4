/** The files refine the log of applied plans: what an applier has done so far, what a crash
    leaves behind, and what a recovery decides from it. */
module ExecutionFiles {
  import opened Basics
  import opened Store
  import opened Disks
  import opened Execution
  import opened ExecutionRecords
  import opened RecoveryCalls
  import StoreRuns

  /** The files of workspace `ws` after replaying the applied plans, in completion order. */
  function Replay(d: Disk, log: seq<Entry>, ws: Id): Disk {
    if log == [] then d
    else
      var before := Replay(d, log[..|log| - 1], ws);
      var e := log[|log| - 1];
      if e.workspace == ws then WriteRows(before, e.rows) else before
  }

  lemma ReplayOne(d: Disk, log: seq<Entry>, e: Entry, ws: Id)
    ensures Replay(d, log + [e], ws) == if e.workspace == ws then WriteRows(Replay(d, log, ws), e.rows) else Replay(d, log, ws)
  {
    assert (log + [e])[..|log|] == log;
  }

  function Initial(init: map<Id, Disk>, ws: Id): Disk { if ws in init then init[ws] else map[] }

  /** What the log says workspace `ws` should hold. */
  function Base(s: Sys, init: map<Id, Disk>, ws: Id): Disk { Replay(Initial(init, ws), s.log, ws) }

  ghost predicate NoWriter(s: Sys, ws: Id) {
    forall g :: IsApplying(s, g) ==> s.grants[g].workspace != ws
  }

  // ---------------------------------------------------------------- invariant

  /** An applier whose first `done` operations are on the files stands where its counter says. */
  ghost predicate Consistent(base: Disk, a: Applier, done: nat, wsBlocked: bool) {
    && PcOk(a)
    && (forall k :: 0 <= k < |a.backups| ==> a.backups[k] == BytesAt(base, a.rows[k].path))
    && match a.pc
       case Started => a.backups == [] && done == 0
       case BackingUp => done == 0
       case Checking(i) => |a.backups| == |a.rows| && done == i
       case Writing(i) => |a.backups| == |a.rows| && done == i
       case Verifying(i) => |a.backups| == |a.rows| && done == i + 1
       case Final => |a.backups| == |a.rows| && done == |a.rows|
       case FinalChecking(_, _) => |a.backups| == |a.rows| && done == |a.rows|
       case Committing(_) => |a.backups| == |a.rows| && done == |a.rows|
       case RollingBack(i) => done <= i
       case Confirming(_, _) => done == 0
       case Blocking => true
       case Closing(undone) => if undone then done == 0 else wsBlocked
  }

  /** The transaction of an applying grant: its plan fits the base, the files are the base with
      the first `done` operations, and a live applier agrees. */
  ghost predicate Placed(s: Sys, init: map<Id, Disk>, g: Id) {
    && IsApplying(s, g) && g in s.txs && g in s.done && s.grants[g].workspace in s.known
    && PlanOk(s.txs[g].rows) && s.done[g] <= |s.txs[g].rows|
    && AllPre(Base(s, init, s.grants[g].workspace), s.txs[g].rows)
    && PathDisk(s, g) == WriteRows(Base(s, init, s.grants[g].workspace), s.txs[g].rows[..s.done[g]])
    && (g in s.live ==>
          && s.live[g].rows == s.txs[g].rows
          && Consistent(Base(s, init, s.grants[g].workspace), s.live[g], s.done[g], s.grants[g].workspace in s.blocked))
  }

  ghost predicate Settled(s: Sys, init: map<Id, Disk>, ws: Id) {
    ws in s.blocked || DiskOf(s, ws) == Base(s, init, ws)
  }

  /** What a recovery has read is what the files still hold, and its verdict follows from it. */
  ghost predicate Witnessed(s: Sys, k: Rescue) {
    && k.grant in s.grants && k.grant in s.txs
    && |k.images| <= |s.txs[k.grant].rows|
    && k.images == ImagesOf(PathDisk(s, k.grant), s.txs[k.grant].rows)[..|k.images|]
    && (k.stage.Looking? || |k.images| == |s.txs[k.grant].rows|)
    && (k.stage.Decided? ==> k.stage.verdict == Classify(k.images, s.txs[k.grant].rows))
    && (k.stage == Decided(IntegrityBlocked) ==> s.grants[k.grant].workspace in s.blocked)
  }

  ghost predicate AllWitnessed(s: Sys) { forall c :: c in s.rescues ==> Witnessed(s, s.rescues[c]) }

  /** A workspace that nobody writes is blocked or holds what the log says. */
  ghost predicate AtRest(s: Sys, init: map<Id, Disk>) { forall ws :: NoWriter(s, ws) ==> Settled(s, init, ws) }

  /** The files follow the log, and every applier runs a grant that is applying. */
  ghost predicate Following(s: Sys, init: map<Id, Disk>) {
    && (forall g :: IsApplying(s, g) ==> Placed(s, init, g))
    && (forall g :: g in s.live ==> IsApplying(s, g))
    && AtRest(s, init)
  }

  ghost predicate FilesOk(s: Sys, init: map<Id, Disk>) { Following(s, init) && AllWitnessed(s) }

  /** On top of `Permitted`: nobody else writes in the workspaces. */
  predicate Disciplined(s: Sys, a: Action) { Permitted(s, a) && !a.Tampering? }

  // ---------------------------------------------------------------- only one grant moves

  /** `t` differs from `s` in grant `g` and the files of its workspace at most. */
  ghost predicate Local(s: Sys, t: Sys, g: Id) {
    && g in s.grants && g in t.grants && t.grants[g].workspace == s.grants[g].workspace
    && t.grants == s.grants[g := t.grants[g]] && t.known == s.known && s.blocked <= t.blocked
    && (forall h :: h != g ==> (h in s.txs <==> h in t.txs) && (h in s.txs ==> t.txs[h] == s.txs[h]))
    && (forall h :: h != g ==> (h in s.live <==> h in t.live) && (h in s.live ==> t.live[h] == s.live[h]))
    && (forall h :: h != g ==> (h in s.done <==> h in t.done) && (h in s.done ==> t.done[h] == s.done[h]))
    && (forall ws :: ws != s.grants[g].workspace ==> DiskOf(t, ws) == DiskOf(s, ws))
    && (t.log == s.log || (|t.log| == |s.log| + 1 && t.log[..|s.log|] == s.log && t.log[|s.log|].workspace == s.grants[g].workspace))
  }

  lemma LocalBase(s: Sys, t: Sys, g: Id, init: map<Id, Disk>, ws: Id)
    requires Local(s, t, g) && ws != s.grants[g].workspace
    ensures Base(t, init, ws) == Base(s, init, ws)
  {
  }

  lemma OthersPlaced(s: Sys, t: Sys, g: Id, init: map<Id, Disk>, h: Id)
    requires Local(s, t, g) && Placed(s, init, h) && h != g && s.grants[h].workspace != s.grants[g].workspace
    ensures Placed(t, init, h)
  {
    LocalBase(s, t, g, init, s.grants[h].workspace);
  }

  lemma LocalSettled(s: Sys, t: Sys, g: Id, init: map<Id, Disk>, ws: Id)
    requires Local(s, t, g) && ws != s.grants[g].workspace && NoWriter(t, ws)
    requires NoWriter(s, ws) ==> Settled(s, init, ws)
    ensures Settled(t, init, ws)
  {
    LocalBase(s, t, g, init, ws);
    forall h | IsApplying(s, h) ensures s.grants[h].workspace != ws {
      if h != g { assert IsApplying(t, h); }
    }
  }

  /** How grant `g` ends a step: still applying and well placed, or done with its workspace. */
  ghost predicate Handled(t: Sys, init: map<Id, Disk>, g: Id)
    requires g in t.grants
  {
    if IsApplying(t, g) then Placed(t, init, g) else g !in t.live && Settled(t, init, t.grants[g].workspace)
  }

  lemma LocalPlaced(s: Sys, t: Sys, g: Id, init: map<Id, Disk>, h: Id)
    requires OneWriter(s) && Local(s, t, g) && IsApplying(t, h) && h != g
    requires IsApplying(s, g) || NoWriter(s, s.grants[g].workspace)
    requires IsApplying(s, h) ==> Placed(s, init, h)
    ensures Placed(t, init, h)
  {
    assert IsApplying(s, h);
    OthersPlaced(s, t, g, init, h);
  }

  /** The other recoveries go on as they were. */
  ghost predicate SameOtherCalls(s: Sys, t: Sys, g: Id) {
    forall c :: c in t.rescues && t.rescues[c].grant != g ==> c in s.rescues && t.rescues[c] == s.rescues[c]
  }

  lemma LocalWitnessed(s: Sys, t: Sys, g: Id, k: Rescue)
    requires OneWriter(s) && Local(s, t, g) && (IsApplying(s, g) || NoWriter(s, s.grants[g].workspace))
    requires Witnessed(s, k) && IsApplying(s, k.grant) && k.grant != g
    ensures Witnessed(t, k)
  {
    hide Classify, ImagesOf;
    assert s.grants[k.grant].workspace != s.grants[g].workspace;
  }

  lemma LocalKeeps(s: Sys, t: Sys, g: Id, init: map<Id, Disk>)
    requires FilesOk(s, init) && OneWriter(s) && RescuesOk(s) && Local(s, t, g)
    requires IsApplying(s, g) || NoWriter(s, s.grants[g].workspace)
    requires Handled(t, init, g) && SameOtherCalls(s, t, g)
    requires forall c :: c in t.rescues && t.rescues[c].grant == g ==> Witnessed(t, t.rescues[c])
    ensures FilesOk(t, init)
  {
    hide Witnessed, Placed, Settled, Local;
    forall c | c in t.rescues ensures Witnessed(t, t.rescues[c]) {
      if t.rescues[c].grant != g { LocalWitnessed(s, t, g, t.rescues[c]); }
    }
    LocalFollows(s, t, g, init);
  }

  lemma LocalFollows(s: Sys, t: Sys, g: Id, init: map<Id, Disk>)
    requires Following(s, init) && OneWriter(s) && Local(s, t, g)
    requires IsApplying(s, g) || NoWriter(s, s.grants[g].workspace)
    requires Handled(t, init, g)
    ensures Following(t, init)
  {
    hide Placed;
    forall h | IsApplying(t, h) ensures Placed(t, init, h) {
      if h != g { LocalPlaced(s, t, g, init, h); }
    }
    forall h | h in t.live ensures IsApplying(t, h) {
      if h != g { assert h in s.live; }
    }
    forall ws | NoWriter(t, ws) ensures Settled(t, init, ws) {
      if ws != s.grants[g].workspace { LocalSettled(s, t, g, init, ws); }
    }
  }

  // ---------------------------------------------------------------- forward steps

  /** Blocks may have grown; nothing else moved. */
  ghost predicate OnlyBlocks(s: Sys, t: Sys) {
    t == s.(blocked := t.blocked, refused := t.refused) && s.blocked <= t.blocked
  }

  lemma BlocksPlaced(s: Sys, t: Sys, init: map<Id, Disk>, g: Id)
    requires Placed(s, init, g) && OnlyBlocks(s, t)
    ensures Placed(t, init, g)
  {
  }

  lemma FreshPlaced(s: Sys, init: map<Id, Disk>, g: Id, r: Reading)
    requires Placed(s, init, g)
    ensures OnlyBlocks(s, FreshAuthority(s, g, r).0) && Placed(FreshAuthority(s, g, r).0, init, g)
  {
    FreshEffect(s, g, r);
    BlocksPlaced(s, FreshAuthority(s, g, r).0, init, g);
  }

  /** Giving the applier a new state that fits keeps the transaction placed. */
  lemma MovePlaced(s: Sys, init: map<Id, Disk>, g: Id, a: Applier)
    requires Placed(s, init, g) && g in s.live && a.rows == s.live[g].rows
    requires Consistent(Base(s, init, s.grants[g].workspace), a, s.done[g], s.grants[g].workspace in s.blocked)
    ensures var t := s.(live := s.live[g := a]); Placed(t, init, g) && Local(s, t, g)
  {
  }

  /** New files, a new count and a new applier state that fit each other. */
  lemma FilesPlaced(s: Sys, init: map<Id, Disk>, g: Id, d: Disk, k: nat, a: Applier)
    requires Placed(s, init, g) && g in s.live && a.rows == s.live[g].rows && k <= |a.rows|
    requires d == WriteRows(Base(s, init, s.grants[g].workspace), a.rows[..k])
    requires Consistent(Base(s, init, s.grants[g].workspace), a, k, s.grants[g].workspace in s.blocked)
    ensures var t := s.(disks := s.disks[s.grants[g].workspace := d], live := s.live[g := a], done := s.done[g := k]);
      Placed(t, init, g) && Local(s, t, g)
  {
    hide Local;
    FilesLocal(s, g, d, k, a);
  }

  lemma FilesLocal(s: Sys, g: Id, d: Disk, k: nat, a: Applier)
    requires g in s.grants
    ensures Local(s, s.(disks := s.disks[s.grants[g].workspace := d], live := s.live[g := a], done := s.done[g := k]), g)
  {
  }

  lemma RaisePlaced(s: Sys, init: map<Id, Disk>, g: Id)
    requires Placed(s, init, g) && g in s.live && !Undoing(s.live[g].pc)
    ensures Placed(Raise(s, g), init, g) && Local(s, Raise(s, g), g)
  {
    var n := |s.live[g].backups|;
    MovePlaced(s, init, g, s.live[g].(pc := if n > 0 then RollingBack(n) else Closing(true)));
  }

  lemma LocalAfterBlocks(s: Sys, t: Sys, u: Sys, g: Id)
    requires OnlyBlocks(s, t) && Local(t, u, g)
    ensures Local(s, u, g)
  {
  }

  lemma AuthorizedPlaced(s: Sys, init: map<Id, Disk>, g: Id, pc: Pc, r: Reading)
    requires Placed(s, init, g) && g in s.live
    requires (s.live[g].pc.Started? && pc.BackingUp?) || (s.live[g].pc.Final? && pc.FinalChecking?)
    ensures var t := Authorized(s, g, pc, r); Placed(t, init, g) && Local(s, t, g)
  {
    var (t, ok) := FreshAuthority(s, g, r);
    FreshEffect(s, g, r);
    FreshPlaced(s, init, g, r);
    if ok { MovePlaced(t, init, g, t.live[g].(pc := pc)); } else { RaisePlaced(t, init, g); }
    LocalAfterBlocks(s, t, Authorized(s, g, pc, r), g);
  }

  lemma CheckPlaced(s: Sys, init: map<Id, Disk>, g: Id, i: nat, r: Reading)
    requires Placed(s, init, g) && g in s.live && s.live[g].pc == Checking(i)
    ensures var t := Check(s, g, i, r); Placed(t, init, g) && Local(s, t, g)
  {
    if i >= |s.live[g].rows| {
      MovePlaced(s, init, g, s.live[g].(pc := Final));
    } else {
      var (t, ok) := FreshAuthority(s, g, r);
      FreshEffect(s, g, r);
      FreshPlaced(s, init, g, r);
      if !ok || ImageAt(PathDisk(s, g), s.live[g].rows[i].path) != s.live[g].rows[i].pre { RaisePlaced(t, init, g); }
      else { MovePlaced(t, init, g, t.live[g].(pc := Writing(i))); }
      LocalAfterBlocks(s, t, Check(s, g, i, r), g);
    }
  }

  lemma BackUpPlaced(s: Sys, init: map<Id, Disk>, g: Id, r: Reading)
    requires Placed(s, init, g) && g in s.live && s.live[g].pc.BackingUp?
    ensures var t := BackUp(s, g, r); Placed(t, init, g) && Local(s, t, g)
  {
    var a := s.live[g];
    var j := |a.backups|;
    if j >= |a.rows| {
      MovePlaced(s, init, g, a.(pc := Checking(0)));
    } else if r.fault || ImageAt(PathDisk(s, g), a.rows[j].path) != a.rows[j].pre {
      RaisePlaced(s, init, g);
    } else {
      assert PathDisk(s, g) == Base(s, init, s.grants[g].workspace);
      MovePlaced(s, init, g, a.(backups := a.backups + [BytesAt(PathDisk(s, g), a.rows[j].path)]));
    }
  }

  lemma WritePlaced(s: Sys, init: map<Id, Disk>, g: Id, i: nat, r: Reading)
    requires Placed(s, init, g) && g in s.live && s.live[g].pc == Writing(i)
    ensures var t := Write(s, g, i, r); Placed(t, init, g) && Local(s, t, g)
  {
    hide Local, WriteRows;
    if r.fault || Unwritable(PathDisk(s, g), s.live[g].rows[i]) {
      RaisePlaced(s, init, g);
    } else {
      WriteIs(s, g, i, r);
      WrittenPlaced(s, init, g, i, WriteRow(PathDisk(s, g), s.live[g].rows[i]));
    }
  }

  lemma WrittenPlaced(s: Sys, init: map<Id, Disk>, g: Id, i: nat, d: Disk)
    requires Placed(s, init, g) && g in s.live && s.live[g].pc == Writing(i) && d == WriteRow(PathDisk(s, g), s.live[g].rows[i])
    ensures var t := s.(disks := s.disks[s.grants[g].workspace := d], live := s.live[g := s.live[g].(pc := Verifying(i))], done := s.done[g := i + 1]);
      Placed(t, init, g) && Local(s, t, g)
  {
    hide Local;
    WriteOneMore(Base(s, init, s.grants[g].workspace), s.live[g].rows, i);
    FilesPlaced(s, init, g, d, i + 1, s.live[g].(pc := Verifying(i)));
  }

  lemma WriteIs(s: Sys, g: Id, i: nat, r: Reading)
    requires g in s.live && g in s.grants && i < |s.live[g].rows| && !r.fault && !Unwritable(PathDisk(s, g), s.live[g].rows[i])
    ensures Write(s, g, i, r) == s.(disks := s.disks[s.grants[g].workspace := WriteRow(PathDisk(s, g), s.live[g].rows[i])],
                                    live := s.live[g := s.live[g].(pc := Verifying(i))], done := s.done[g := i + 1])
  {
  }

  lemma VerifyPlaced(s: Sys, init: map<Id, Disk>, g: Id, i: nat, r: Reading)
    requires Placed(s, init, g) && g in s.live && s.live[g].pc == Verifying(i)
    ensures var t := Verify(s, g, i, r); Placed(t, init, g) && Local(s, t, g)
  {
    RaisePlaced(s, init, g);
    MovePlaced(s, init, g, s.live[g].(pc := Checking(i + 1)));
  }

  lemma FinalCheckPlaced(s: Sys, init: map<Id, Disk>, g: Id, i: nat, at: Time, r: Reading)
    requires Placed(s, init, g) && g in s.live && s.live[g].pc == FinalChecking(i, at)
    ensures var t := FinalCheck(s, g, i, at, r); Placed(t, init, g) && Local(s, t, g)
  {
    var a := s.live[g];
    if i >= |a.rows| {
      MovePlaced(s, init, g, a.(pc := Committing(at)));
    } else if r.fault || ImageAt(PathDisk(s, g), a.rows[i].path) != a.rows[i].post {
      RaisePlaced(s, init, g);
    } else {
      MovePlaced(s, init, g, a.(pc := FinalChecking(i + 1, at)));
    }
  }

  // ---------------------------------------------------------------- undoing

  lemma RestorePlaced(s: Sys, init: map<Id, Disk>, g: Id, i: nat, r: Reading)
    requires Placed(s, init, g) && g in s.live && s.live[g].pc == RollingBack(i)
    ensures var t := Restore(s, g, i, r); Placed(t, init, g) && Local(s, t, g)
  {
    hide Local, WriteRows, Replay, AllPre, PlanOk, DiskOf;
    var a := s.live[g];
    if i == 0 {
      MovePlaced(s, init, g, a.(pc := Confirming(0, true)));
    } else if r.fault {
      MovePlaced(s, init, g, a.(pc := Blocking));
    } else {
      RestoredPlaced(s, init, g, i - 1);
      RestoreIs(s, g, i, r);
    }
  }

  lemma RestoredPlaced(s: Sys, init: map<Id, Disk>, g: Id, j: nat)
    requires Placed(s, init, g) && g in s.live && s.live[g].pc == RollingBack(j + 1)
    ensures var a := s.live[g];
      var t := s.(disks := s.disks[s.grants[g].workspace := Put(PathDisk(s, g), a.rows[j].path, a.backups[j])],
                  live := s.live[g := a.(pc := RollingBack(j))], done := s.done[g := if s.done[g] < j then s.done[g] else j]);
      Placed(t, init, g) && Local(s, t, g)
  {
    hide Local, Replay, WriteRows;
    var a := s.live[g];
    UndoOne(Base(s, init, s.grants[g].workspace), a.rows, s.done[g], j);
    FilesPlaced(s, init, g, Put(PathDisk(s, g), a.rows[j].path, a.backups[j]), if s.done[g] < j then s.done[g] else j, a.(pc := RollingBack(j)));
  }

  lemma RestoreIs(s: Sys, g: Id, i: nat, r: Reading)
    requires g in s.live && g in s.grants && g in s.done && 0 < i <= |s.live[g].backups| <= |s.live[g].rows| && !r.fault
    ensures var a := s.live[g];
      Restore(s, g, i, r) == s.(disks := s.disks[s.grants[g].workspace := Put(PathDisk(s, g), a.rows[i - 1].path, a.backups[i - 1])],
                                live := s.live[g := a.(pc := RollingBack(i - 1))],
                                done := s.done[g := if s.done[g] < i - 1 then s.done[g] else i - 1])
  {
  }

  lemma ConfirmPlaced(s: Sys, init: map<Id, Disk>, g: Id, i: nat, good: bool, r: Reading)
    requires Placed(s, init, g) && g in s.live && s.live[g].pc == Confirming(i, good)
    ensures var t := Confirm(s, g, i, good, r); Placed(t, init, g) && Local(s, t, g)
  {
    hide Local;
    var a := s.live[g];
    if i >= |a.backups| {
      MovePlaced(s, init, g, a.(pc := if good then Closing(true) else Blocking));
    } else if r.fault {
      MovePlaced(s, init, g, a.(pc := Blocking));
    } else {
      var same := ImageAt(PathDisk(s, g), a.rows[i].path) == ImageOf(a.backups[i]);
      MovePlaced(s, init, g, a.(pc := Confirming(i + 1, good && same)));
    }
  }

  lemma BlockPlaced(s: Sys, init: map<Id, Disk>, g: Id)
    requires Placed(s, init, g) && g in s.live && s.live[g].pc.Blocking?
    ensures var t := Goto(Block(s, s.grants[g].workspace), g, Closing(false)); Placed(t, init, g) && Local(s, t, g)
  {
    var t := Block(s, s.grants[g].workspace);
    BlocksPlaced(s, t, init, g);
    MovePlaced(t, init, g, t.live[g].(pc := Closing(false)));
    LocalAfterBlocks(s, t, Goto(t, g, Closing(false)), g);
  }

  lemma CloseHandled(s: Sys, init: map<Id, Disk>, g: Id, undone: bool)
    requires Placed(s, init, g) && g in s.live && s.live[g].pc == Closing(undone) && s.txs[g].state.Applying?
    ensures var t := Retire(Close(s, g, if undone then Failed else IntegrityBlocked), g);
      Local(s, t, g) && Handled(t, init, g)
  {
    hide Local;
    assert s.txs[g].rows[..0] == [];
    ClosedLocal(s, g, if undone then Failed else IntegrityBlocked);
  }

  lemma ClosedLocal(s: Sys, g: Id, st: GrantState)
    requires g in s.grants && g in s.txs
    ensures Local(s, Retire(Close(s, g, st), g), g)
  {
  }

  // ---------------------------------------------------------------- completing and recovering

  lemma CompleteLocal(s: Sys, g: Id, at: Time)
    requires g in s.grants && g in s.txs
    ensures Local(s, Retire(Complete(s, g, at), g), g)
  {
  }

  lemma CompleteHandled(s: Sys, init: map<Id, Disk>, g: Id, at: Time)
    requires Placed(s, init, g) && Completable(s, g)
    requires PathDisk(s, g) == WriteRows(Base(s, init, s.grants[g].workspace), s.txs[g].rows)
    ensures var t := Retire(Complete(s, g, at), g); Local(s, t, g) && Handled(t, init, g)
  {
    hide Local, Placed;
    CompleteLocal(s, g, at);
    ReplayOne(Initial(init, s.grants[g].workspace), s.log, Entry(g, s.grants[g].workspace, s.txs[g].rows), s.grants[g].workspace);
  }

  lemma CommitHandled(s: Sys, init: map<Id, Disk>, g: Id, at: Time, r: Reading)
    requires Placed(s, init, g) && g in s.live && s.live[g].pc == Committing(at)
    ensures var t := Commit(s, g, at, r); Local(s, t, g) && Handled(t, init, g)
  {
    EnterEffect(s, s.grants[g].workspace, s.grants[g].target, r.intact);
    var (t, ok) := EnterAtomic(s, s.grants[g].workspace, s.grants[g].target, r.intact);
    RaisePlaced(s, init, g);
    BlocksPlaced(s, t, init, g);
    if Authority(s.world.db, s.grants[g], at, r.bound) {
      if !ok || r.fault || !Completable(t, g) {
        RaisePlaced(t, init, g);
        LocalAfterBlocks(s, t, Raise(t, g), g);
      } else {
        assert s.txs[g].rows[..|s.txs[g].rows|] == s.txs[g].rows;
        CompleteHandled(t, init, g, at);
        LocalAfterBlocks(s, t, Commit(s, g, at, r), g);
      }
    }
  }

  // ---------------------------------------------------------------- every disciplined step

  lemma AuthorityHandled(s: Sys, init: map<Id, Disk>, g: Id, r: Reading)
    requires Placed(s, init, g) && g in s.live && CheckingAuthority(s.live[g].pc)
    ensures var t := AdvanceAuthority(s, g, r); Local(s, t, g) && Handled(t, init, g)
  {
    match s.live[g].pc
    case Started => AuthorizedPlaced(s, init, g, BackingUp, r);
    case Checking(i) => CheckPlaced(s, init, g, i, r);
    case Final => AuthorizedPlaced(s, init, g, FinalChecking(0, r.now), r);
    case Committing(at) => CommitHandled(s, init, g, at, r);
  }

  lemma FilesHandled(s: Sys, init: map<Id, Disk>, g: Id, r: Reading)
    requires Placed(s, init, g) && g in s.live
    requires !Undoing(s.live[g].pc) && !CheckingAuthority(s.live[g].pc)
    ensures var t := AdvanceFiles(s, g, r); Local(s, t, g) && Handled(t, init, g)
  {
    match s.live[g].pc
    case BackingUp => BackUpPlaced(s, init, g, r);
    case Writing(i) => WritePlaced(s, init, g, i, r);
    case Verifying(i) => VerifyPlaced(s, init, g, i, r);
    case FinalChecking(i, at) => FinalCheckPlaced(s, init, g, i, at, r);
  }

  lemma UndoHandled(s: Sys, init: map<Id, Disk>, g: Id, r: Reading)
    requires Placed(s, init, g) && g in s.live && Undoing(s.live[g].pc) && s.txs[g].state.Applying?
    ensures var t := AdvanceUndo(s, g, r); Local(s, t, g) && Handled(t, init, g)
  {
    match s.live[g].pc
    case RollingBack(i) => RestorePlaced(s, init, g, i, r);
    case Confirming(i, good) => ConfirmPlaced(s, init, g, i, good, r);
    case Blocking => BlockPlaced(s, init, g);
    case Closing(undone) => CloseHandled(s, init, g, undone);
  }

  /** Whoever runs grant `g`, no recovery is about it. */
  lemma OwnKeeps(s: Sys, t: Sys, g: Id, init: map<Id, Disk>)
    requires FilesOk(s, init) && OneWriter(s) && RescuesOk(s) && g in s.grants && !Abandoned(s, g)
    requires IsApplying(s, g) || NoWriter(s, s.grants[g].workspace)
    requires Local(s, t, g) && Handled(t, init, g) && t.rescues == s.rescues
    ensures FilesOk(t, init)
  {
    hide FilesOk, Local, Handled, Witnessed, OneWriter;
    assert forall c :: c in s.rescues ==> Abandoned(s, s.rescues[c].grant);
    LocalKeeps(s, t, g, init);
  }

  lemma LiveHandled(s: Sys, init: map<Id, Disk>, g: Id, r: Reading)
    requires Placed(s, init, g) && g in s.live && s.txs[g].state.Applying?
    ensures Local(s, Advance(s, g, r), g) && Handled(Advance(s, g, r), init, g)
  {
    hide AdvanceUndo, AdvanceAuthority, AdvanceFiles, Local, Handled;
    if Undoing(s.live[g].pc) { UndoHandled(s, init, g, r); }
    else if CheckingAuthority(s.live[g].pc) { AuthorityHandled(s, init, g, r); }
    else { FilesHandled(s, init, g, r); }
  }

  lemma AdvanceLocal(s: Sys, init: map<Id, Disk>, g: Id, r: Reading)
    requires Following(s, init) && RowsAgree(s) && g in s.live
    ensures IsApplying(s, g) && Local(s, Advance(s, g, r), g) && Handled(Advance(s, g, r), init, g)
  {
    hide Advance, Local, Handled, Consistent, AtRest;
    assert Placed(s, init, g) && TxOk(s, g);
    LiveHandled(s, init, g, r);
  }

  lemma AdvanceFilesOk(s: Sys, init: map<Id, Disk>, g: Id, r: Reading)
    requires Sound(s) && FilesOk(s, init)
    ensures FilesOk(Advance(s, g, r), init)
  {
    if g in s.live {
      hide AdvanceUndo, AdvanceAuthority, AdvanceFiles, Local, Handled, Following;
      AdvanceLocal(s, init, g, r);
      AdvanceCalls(s, g, r);
      OwnKeeps(s, Advance(s, g, r), g, init);
    }
  }

  lemma ConsumeLocal(s: Sys, t: Sys, g: Id, rows: seq<Row>)
    requires g in s.grants && t == s.(refused := t.refused)
    ensures Local(s, Consume(t, g, rows), g)
  {
  }

  lemma ConsumePlaced(s: Sys, t: Sys, init: map<Id, Disk>, g: Id, rows: seq<Row>)
    requires g in s.grants && s.grants[g].state.Issued? && s.grants[g].workspace in s.known
    requires PlanOk(rows) && t == s.(refused := t.refused)
    requires AllPre(DiskOf(s, s.grants[g].workspace), rows)
    requires DiskOf(s, s.grants[g].workspace) == Base(s, init, s.grants[g].workspace)
    ensures Placed(Consume(t, g, rows), init, g) && Local(s, Consume(t, g, rows), g)
  {
    hide Local;
    ConsumeLocal(s, t, g, rows);
    assert rows[..0] == [];
  }

  /** The files, the appliers and the applying grants are the same. */
  ghost predicate SameWriters(s: Sys, t: Sys) {
    && t == s.(world := t.world, grants := t.grants, live := t.live, rescues := t.rescues, blocked := t.blocked, refused := t.refused)
    && s.blocked <= t.blocked
    && (forall h :: IsApplying(s, h) <==> IsApplying(t, h))
    && (forall h :: IsApplying(s, h) ==> t.grants[h] == s.grants[h])
    && (forall h :: h in t.live ==> h in s.live && t.live[h] == s.live[h])
  }

  lemma SameWritersWitness(s: Sys, t: Sys, k: Rescue)
    requires SameWriters(s, t) && Witnessed(s, k) && IsApplying(s, k.grant)
    ensures Witnessed(t, k)
  {
  }

  /** No recovery but perhaps `c` changes, and it has read what is there. */
  ghost predicate OneWitnessed(s: Sys, t: Sys, c: Id) {
    && (forall d :: d in t.rescues && d != c ==> d in s.rescues && t.rescues[d] == s.rescues[d])
    && (c in t.rescues ==> (c in s.rescues && t.rescues[c] == s.rescues[c]) || Witnessed(t, t.rescues[c]))
  }

  lemma SameWritersKeep(s: Sys, t: Sys, init: map<Id, Disk>, c: Id)
    requires FilesOk(s, init) && RescuesOk(s) && SameWriters(s, t) && OneWitnessed(s, t, c)
    ensures FilesOk(t, init)
  {
    hide Witnessed, Placed;
    forall d | d in t.rescues ensures Witnessed(t, t.rescues[d]) {
      if d in s.rescues && t.rescues[d] == s.rescues[d] {
        assert Abandoned(s, s.rescues[d].grant);
        SameWritersWitness(s, t, s.rescues[d]);
      }
    }
    SameWritersFollow(s, t, init);
  }

  lemma SameWritersPlaced(s: Sys, t: Sys, init: map<Id, Disk>, h: Id)
    requires SameWriters(s, t) && Placed(s, init, h)
    ensures Placed(t, init, h)
  {
  }

  lemma SameWritersSettled(s: Sys, t: Sys, init: map<Id, Disk>, ws: Id)
    requires SameWriters(s, t) && NoWriter(t, ws) && (NoWriter(s, ws) ==> Settled(s, init, ws))
    ensures Settled(t, init, ws)
  {
    forall h | IsApplying(s, h) ensures s.grants[h].workspace != ws { assert IsApplying(t, h); }
  }

  lemma SameWritersFollow(s: Sys, t: Sys, init: map<Id, Disk>)
    requires Following(s, init) && SameWriters(s, t)
    ensures Following(t, init)
  {
    hide Placed, Settled, NoWriter;
    forall h | IsApplying(t, h) ensures Placed(t, init, h) { assert IsApplying(s, h); SameWritersPlaced(s, t, init, h); }
    forall h | h in t.live ensures IsApplying(t, h) { assert IsApplying(s, h); }
    forall ws | NoWriter(t, ws) ensures Settled(t, init, ws) { SameWritersSettled(s, t, init, ws); }
  }

  /** A workspace at rest takes a new transaction. */
  ghost predicate Admits(s: Sys, g: Id, rows: seq<Row>, r: Reading) {
    && g in s.grants && s.grants[g].state.Issued? && s.grants[g].workspace in s.known
    && s.grants[g].workspace !in s.blocked && Consumable(s, g, rows, r)
  }

  lemma ConsumeLocally(s: Sys, t: Sys, init: map<Id, Disk>, g: Id, rows: seq<Row>, r: Reading)
    requires RowsAgree(s) && AtRest(s, init) && Canonical(rows) && t == s.(refused := t.refused) && Admits(s, g, rows, r)
    ensures NoWriter(s, s.grants[g].workspace) && Local(s, Consume(t, g, rows), g) && Handled(Consume(t, g, rows), init, g)
  {
    hide Local;
    forall h | IsApplying(s, h) ensures s.grants[h].workspace != s.grants[g].workspace { assert h != g; }
    assert Settled(s, init, s.grants[g].workspace);
    BegunPlan(s, g, rows);
    ConsumePlaced(s, t, init, g, rows);
  }

  lemma ConsumeFollows(s: Sys, t: Sys, init: map<Id, Disk>, g: Id, rows: seq<Row>, r: Reading)
    requires RowsAgree(s) && OneWriter(s) && Following(s, init) && Canonical(rows) && t == s.(refused := t.refused) && Admits(s, g, rows, r)
    ensures Following(Consume(t, g, rows), init)
  {
    hide Local, Handled, Consume;
    ConsumeLocally(s, t, init, g, rows, r);
    LocalFollows(s, Consume(t, g, rows), g, init);
  }

  lemma ConsumeFilesOk(s: Sys, t: Sys, init: map<Id, Disk>, g: Id, rows: seq<Row>, r: Reading)
    requires Sound(s) && FilesOk(s, init) && Canonical(rows) && t == s.(refused := t.refused) && Admits(s, g, rows, r)
    ensures FilesOk(Consume(t, g, rows), init)
  {
    ConsumeLocally(s, t, init, g, rows, r);
    OwnKeeps(s, Consume(t, g, rows), g, init);
  }

  lemma LapseWriters(s: Sys, g: Id)
    requires g in s.grants && s.grants[g].state.Issued?
    ensures SameWriters(s, Lapse(s, g))
  {
  }

  /** The three ways a first transaction ends. */
  lemma BeginCases(s: Sys, g: Id, rows: seq<Row>, r: Reading)
    requires Canonical(rows) && g in s.grants && s.grants[g].state.Issued?
    ensures var t := Begin(s, g, rows, r);
      || SameWriters(s, t)
      || (Admits(s, g, rows, r) && t == Consume(s.(refused := t.refused), g, rows))
  {
    EnterEffect(s, s.grants[g].workspace, s.grants[g].target, r.intact);
    LapseWriters(s, g);
  }

  lemma BeginCalls(s: Sys, g: Id, rows: seq<Row>, r: Reading)
    ensures Begin(s, g, rows, r).rescues == s.rescues
  {
    if g in s.grants { EnterEffect(s, s.grants[g].workspace, s.grants[g].target, r.intact); }
  }

  lemma SoundRescues(s: Sys)
    requires Sound(s)
    ensures RowsAgree(s) && OneWriter(s) && RescuesOk(s)
  {
  }

  lemma BeginFilesOk(s: Sys, init: map<Id, Disk>, g: Id, rows: seq<Row>, r: Reading)
    requires Sound(s) && FilesOk(s, init) && Canonical(rows)
    ensures FilesOk(Begin(s, g, rows, r), init)
  {
    hide Begin, SameWriters, FilesOk, Sound, Consume, Admits;
    if g in s.grants && s.grants[g].state.Issued? {
      var t := Begin(s, g, rows, r);
      BeginCases(s, g, rows, r);
      if SameWriters(s, t) {
        SoundRescues(s);
        BeginCalls(s, g, rows, r);
        SameWritersKeep(s, t, init, "");
      } else {
        ConsumeFilesOk(s, s.(refused := t.refused), init, g, rows, r);
      }
    } else {
      NotBegun(s, g, rows, r);
    }
  }

  lemma NotBegun(s: Sys, g: Id, rows: seq<Row>, r: Reading)
    requires !(g in s.grants && s.grants[g].state.Issued?)
    ensures Begin(s, g, rows, r) == s
  {
  }

  lemma BegunPlan(s: Sys, g: Id, rows: seq<Row>)
    requires RowsAgree(s) && g in s.grants && Canonical(rows) && InScope(rows, s.grants[g].kinds, s.grants[g].prefixes)
    ensures PlanOk(rows)
  {
    forall i | 0 <= i < |rows| ensures RowOk(rows[i]) { assert rows[i].kind in s.grants[g].kinds; }
  }

  lemma IssueWriters(s: Sys, a: Action, r: Reading)
    requires a.Issuing? && Permitted(s, a)
    ensures SameWriters(s, Step(s, a, r)) && Step(s, a, r).rescues == s.rescues
  {
  }

  // ---------------------------------------------------------------- every step of a recovery

  lemma SettleHandled(s: Sys, init: map<Id, Disk>, g: Id, st: GrantState)
    requires Placed(s, init, g) && g !in s.live && Unfinished(s, g)
    requires (st.Failed? || st.IntegrityBlocked?) && Settled(s, init, s.grants[g].workspace)
    ensures Local(s, Settle(s, g, st), g) && Handled(Settle(s, g, st), init, g)
  {
  }

  /** Until the last transaction of a recovery the files are what its decision says, for any plan, also
      one that rewrites a file with its own content: untouched after FAILED, the whole plan in place
      after APPLIED, and the workspace blocked otherwise. */
  lemma DecidedMeaning(s: Sys, init: map<Id, Disk>, k: Rescue, v: GrantState)
    requires Witnessed(s, k) && k.stage == Decided(v) && Placed(s, init, k.grant)
    ensures v == Failed ==> PathDisk(s, k.grant) == Base(s, init, s.grants[k.grant].workspace)
    ensures v == Applied ==> PathDisk(s, k.grant) == WriteRows(Base(s, init, s.grants[k.grant].workspace), s.txs[k.grant].rows)
    ensures v == IntegrityBlocked ==> s.grants[k.grant].workspace in s.blocked
  {
    var g := k.grant;
    var base, rows := Base(s, init, s.grants[g].workspace), s.txs[g].rows;
    assert k.images == ImagesOf(PathDisk(s, g), rows);
    ClassifiesDisk(PathDisk(s, g), rows);
    if v == Failed { AllPreMeansUntouched(base, rows, s.done[g]); }
    if v == Applied { AllPostMeansApplied(base, rows, s.done[g]); }
  }

  /** What the last transaction writes, the calls aside. */
  function Concluded(s: Sys, c: Id, g: Id, v: GrantState): Sys
    requires c in s.rescues && g in s.grants && g in s.txs
  {
    Conclude(s, c, g, v).(rescues := s.rescues)
  }

  lemma ConcludedIs(s: Sys, c: Id, g: Id, v: GrantState)
    requires c in s.rescues && Unfinished(s, g)
    ensures Concluded(s, c, g, v) ==
      if !v.Applied? then Settle(s, g, v)
      else if TaskRunning(s.world.db, s.grants[g].task) then Complete(s, g, s.rescues[c].at)
      else s
  {
    LateIsComplete(s, g, s.rescues[c].at);
  }

  /** The last transaction of a recovery leaves its workspace at rest or blocked, or the transaction
      open with the files where the log and its plan put them. */
  lemma ConcludeHandled(s: Sys, init: map<Id, Disk>, c: Id, g: Id, v: GrantState)
    requires c in s.rescues && s.rescues[c].grant == g && s.rescues[c].stage == Decided(v) && StageOk(s.rescues[c].stage)
    requires Placed(s, init, g) && g !in s.live && Unfinished(s, g) && Witnessed(s, s.rescues[c])
    ensures Local(s, Conclude(s, c, g, v), g) && Handled(Conclude(s, c, g, v), init, g)
  {
    hide Local, Conclude;
    var t := Concluded(s, c, g, v);
    DecidedMeaning(s, init, s.rescues[c], v);
    ConcludedIs(s, c, g, v);
    if !v.Applied? {
      SettleHandled(s, init, g, v);
    } else if TaskRunning(s.world.db, s.grants[g].task) {
      CompleteHandled(s, init, g, s.rescues[c].at);
      assert Retire(t, g) == t;
    }
    CallsAside(s, t, Conclude(s, c, g, v), init, g);
  }

  lemma CallsAside(s: Sys, t: Sys, u: Sys, init: map<Id, Disk>, g: Id)
    requires Local(s, t, g) && Handled(t, init, g) && t == u.(rescues := t.rescues)
    ensures Local(s, u, g) && Handled(u, init, g)
  {
    CallsLocal(s, t, u, g);
    if IsApplying(t, g) { CallsPlaced(t, u, init, g); }
  }

  lemma CallsLocal(s: Sys, t: Sys, u: Sys, g: Id)
    requires Local(s, t, g) && t == u.(rescues := t.rescues)
    ensures Local(s, u, g)
  {
  }

  lemma CallsPlaced(t: Sys, u: Sys, init: map<Id, Disk>, g: Id)
    requires Placed(t, init, g) && t == u.(rescues := t.rescues)
    ensures Placed(u, init, g)
  {
  }

  /** Reading, deciding and losing move no files. */
  lemma LookWitnessed(s: Sys, c: Id, g: Id)
    requires c in s.rescues && s.rescues[c].grant == g && Witnessed(s, s.rescues[c])
    requires s.rescues[c].stage.Looking? && |s.rescues[c].images| < |s.txs[g].rows|
    ensures var t := Look(s, c, PathDisk(s, g), s.txs[g].rows); SameWriters(s, t) && OneWitnessed(s, t, c)
  {
    var t, all := Look(s, c, PathDisk(s, g), s.txs[g].rows), ImagesOf(PathDisk(s, g), s.txs[g].rows);
    var n := |s.rescues[c].images|;
    assert all[..n + 1] == all[..n] + [all[n]];
    assert Witnessed(t, t.rescues[c]);
  }

  lemma DecideWitnessed(s: Sys, c: Id, g: Id)
    requires c in s.rescues && s.rescues[c].grant == g && Witnessed(s, s.rescues[c]) && s.grants[g].workspace in s.known
    requires s.rescues[c].stage.Looking? && |s.rescues[c].images| == |s.txs[g].rows|
    ensures var t := Decide(s, c, s.grants[g].workspace, s.txs[g].rows); SameWriters(s, t) && OneWitnessed(s, t, c)
  {
    var t := Decide(s, c, s.grants[g].workspace, s.txs[g].rows);
    assert Witnessed(t, t.rescues[c]);
  }

  lemma EndWitnessed(s: Sys, c: Id, ws: Id)
    ensures SameWriters(s, EndCall(s, c)) && OneWitnessed(s, EndCall(s, c), c)
    ensures SameWriters(s, EndCall(Block(s, ws), c)) && OneWitnessed(s, EndCall(Block(s, ws), c), c)
  {
    hide Witnessed;
  }

  lemma ConcludeFilesOk(s: Sys, init: map<Id, Disk>, c: Id, g: Id, v: GrantState)
    requires Sound(s) && FilesOk(s, init) && c in s.rescues && s.rescues[c].grant == g && s.rescues[c].stage == Decided(v)
    ensures g in s.grants && g in s.txs && FilesOk(Conclude(s, c, g, v), init)
  {
    assert Abandoned(s, g) && TxOk(s, g) && Placed(s, init, g) && Witnessed(s, s.rescues[c]);
    ConcludeHandled(s, init, c, g, v);
    ConcludeCalls(s, c, g, v);
    ConcludeOther(s, c, g, v);
    LocalKeeps(s, Conclude(s, c, g, v), g, init);
  }

  lemma ConcludeOther(s: Sys, c: Id, g: Id, v: GrantState)
    requires c in s.rescues && s.rescues[c].grant == g && RescuesOk(s) && Witnessed(s, s.rescues[c]) && s.rescues[c].stage == Decided(v)
    ensures SameOtherCalls(s, Conclude(s, c, g, v), g)
    ensures var t := Conclude(s, c, g, v); forall d :: d in t.rescues && t.rescues[d].grant == g ==> Witnessed(t, t.rescues[d])
  {
    hide Witnessed;
    var t := Conclude(s, c, g, v);
    ConcludeKeeps(s, c, g, v);
    forall d | d in t.rescues && t.rescues[d].grant == g ensures Witnessed(t, t.rescues[d]) {
      assert d in s.rescues && s.rescues[d].grant == g;
      assert d == c;
    }
  }

  lemma ConcludeKeeps(s: Sys, c: Id, g: Id, v: GrantState)
    requires c in s.rescues && s.rescues[c].grant == g && Witnessed(s, s.rescues[c]) && s.rescues[c].stage == Decided(v)
    ensures var t := Conclude(s, c, g, v);
      || t.rescues == s.rescues - {c}
      || (t == s.(rescues := s.rescues[c := s.rescues[c].(stage := Losing)]) && Witnessed(t, t.rescues[c]))
  {
  }

  lemma LookFilesOk(s: Sys, init: map<Id, Disk>, c: Id, g: Id)
    requires Sound(s) && FilesOk(s, init) && c in s.rescues && s.rescues[c].grant == g && s.rescues[c].stage.Looking?
    requires g in s.grants && g in s.txs && s.grants[g].workspace in s.known && Witnessed(s, s.rescues[c])
    ensures |s.rescues[c].images| < |s.txs[g].rows| ==> FilesOk(Look(s, c, PathDisk(s, g), s.txs[g].rows), init)
    ensures |s.rescues[c].images| == |s.txs[g].rows| ==> FilesOk(Decide(s, c, s.grants[g].workspace, s.txs[g].rows), init)
  {
    hide FilesOk, SameWriters, OneWitnessed, Look, Decide;
    if |s.rescues[c].images| < |s.txs[g].rows| {
      LookWitnessed(s, c, g);
      SameWritersKeep(s, Look(s, c, PathDisk(s, g), s.txs[g].rows), init, c);
    } else {
      DecideWitnessed(s, c, g);
      SameWritersKeep(s, Decide(s, c, s.grants[g].workspace, s.txs[g].rows), init, c);
    }
  }

  lemma EndFilesOk(s: Sys, init: map<Id, Disk>, c: Id, ws: Id)
    requires Sound(s) && FilesOk(s, init)
    ensures FilesOk(EndCall(s, c), init) && FilesOk(EndCall(Block(s, ws), c), init)
  {
    hide FilesOk, SameWriters, OneWitnessed, EndCall;
    EndWitnessed(s, c, ws);
    SameWritersKeep(s, EndCall(s, c), init, c);
    SameWritersKeep(s, EndCall(Block(s, ws), c), init, c);
  }

  lemma ContinueFilesOk(s: Sys, init: map<Id, Disk>, c: Id, g: Id, r: Reading)
    requires Sound(s) && FilesOk(s, init)
    ensures FilesOk(Continue(s, c, g, r), init)
  {
    hide Look, Decide, Conclude, EndCall, Block;
    if c in s.rescues && s.rescues[c].grant == g {
      assert Abandoned(s, g) && Placed(s, init, g) && Witnessed(s, s.rescues[c]);
      if r.fault || s.rescues[c].stage.Losing? { EndFilesOk(s, init, c, s.grants[g].workspace); }
      else if s.rescues[c].stage.Looking? { LookFilesOk(s, init, c, g); }
      else { ConcludeFilesOk(s, init, c, g, s.rescues[c].stage.verdict); }
    }
  }

  lemma NothingSeen(s: Sys, t: Sys, g: Id, at: Time)
    requires SameWriters(s, t) && IsApplying(s, g) && g in s.txs
    ensures Witnessed(t, Rescue(g, at, [], Looking))
  {
    SeenNone(t, g, at);
  }

  lemma SurveyWitnessed(s: Sys, c: Id, g: Id, r: Reading)
    ensures OneWitnessed(s, Survey(s, c, g, r), c)
  {
    hide Survey, Witnessed, SameWriters;
    var t := Survey(s, c, g, r);
    SurveyEffect(s, c, g, r);
    SurveyWriters(s, c, g, r);
    if t.rescues != s.rescues { NothingSeen(s, t, g, r.now); }
  }

  lemma SurveyFilesOk(s: Sys, init: map<Id, Disk>, c: Id, g: Id, r: Reading)
    requires Sound(s) && FilesOk(s, init)
    ensures FilesOk(Survey(s, c, g, r), init)
  {
    hide Survey, FilesOk, OneWitnessed, SameWriters;
    SurveyWriters(s, c, g, r);
    SurveyWitnessed(s, c, g, r);
    SoundRescues(s);
    SameWritersKeep(s, Survey(s, c, g, r), init, c);
  }

  lemma SurveyWriters(s: Sys, c: Id, g: Id, r: Reading)
    ensures SameWriters(s, Survey(s, c, g, r))
  {
    if g in s.grants { EnterEffect(s, s.grants[g].workspace, s.grants[g].target, r.intact); }
  }

  lemma CrashFilesOk(s: Sys, init: map<Id, Disk>, gone: set<Id>, calls: set<Id>, forgotten: set<Id>)
    requires Sound(s) && FilesOk(s, init)
    ensures FilesOk(Crash(s, gone, calls, forgotten), init)
  {
    hide FilesOk;
    SameWritersKeep(s, Crash(s, gone, calls, forgotten), init, "");
  }

  lemma IssueFilesOk(s: Sys, init: map<Id, Disk>, a: Action, r: Reading)
    requires Sound(s) && FilesOk(s, init) && a.Issuing? && Permitted(s, a)
    ensures FilesOk(Step(s, a, r), init)
  {
    hide SameWriters, FilesOk, StoreRuns.Inv, Books, IssueGrant;
    IssueWriters(s, a, r);
    SameWritersKeep(s, Step(s, a, r), init, "");
  }

  lemma StepFilesOk(s: Sys, init: map<Id, Disk>, a: Action, r: Reading)
    requires Sound(s) && FilesOk(s, init) && Disciplined(s, a)
    ensures FilesOk(Step(s, a, r), init)
  {
    hide FilesOk, Sound;
    match a
    case Issuing(_, _, _, _, _, _, _, _, _) => IssueFilesOk(s, init, a, r);
    case Beginning(g, rows) => BeginFilesOk(s, init, g, rows, r);
    case Advancing(g) => AdvanceFilesOk(s, init, g, r);
    case Surveying(c, g) => SurveyFilesOk(s, init, c, g, r);
    case Rescuing(c, g) => ContinueFilesOk(s, init, c, g, r);
    case Crashing(gone, calls, forgotten) => CrashFilesOk(s, init, gone, calls, forgotten);
    case StoreStep(b, now) => StoreFilesOk(s, init, StoreRuns.Next(s.world, b, now));
  }

  lemma StoreFilesOk(s: Sys, init: map<Id, Disk>, w: StoreRuns.World)
    requires Sound(s) && FilesOk(s, init)
    ensures FilesOk(s.(world := w), init)
  {
    hide FilesOk;
    SameWritersKeep(s, s.(world := w), init, "");
  }

  // ---------------------------------------------------------------- refinement

  predicate DisciplinedRun(s: Sys, es: seq<Event>)
    decreases |es|
  {
    es == [] || (Disciplined(s, es[0].action) && DisciplinedRun(After(s, es[0]), es[1..]))
  }

  lemma {:induction false} RunFilesOk(s: Sys, init: map<Id, Disk>, es: seq<Event>)
    requires Sound(s) && FilesOk(s, init) && DisciplinedRun(s, es)
    ensures Sound(Run(s, es)) && FilesOk(Run(s, es), init) && Lasting(s, Run(s, es))
    decreases |es|
  {
    if es != [] {
      StepSound(s, es[0].action, es[0].reading);
      StepFilesOk(s, init, es[0].action, es[0].reading);
      RunFilesOk(After(s, es[0]), init, es[1..]);
    }
  }

  /** Refinement. For every interleaving of appliers, failures, crashes and recoveries, the
      files of a workspace that is not blocked and has no applying grant are the initial files
      with exactly the APPLIED plans replayed, in completion order. */
  lemma DiskRefinesLog(known: map<Id, Id>, init: map<Id, Disk>, es: seq<Event>, ws: Id)
    requires DisciplinedRun(NewSystem(known, init), es)
    ensures var s := Run(NewSystem(known, init), es);
      && LogOk(s) && OneWriter(s) && RowsAgree(s)
      && (ws !in s.blocked && NoWriter(s, ws) ==> DiskOf(s, ws) == Replay(Initial(init, ws), s.log, ws))
  {
    var s0 := NewSystem(known, init);
    NewSystemSound(known, init);
    hide Run, DisciplinedRun, StoreRuns.Inv, Conserved, RescuesOk, AllWitnessed;
    RunFilesOk(s0, init, es);
    var s := Run(s0, es);
    if NoWriter(s, ws) { assert Settled(s, init, ws); }
  }

  // ---------------------------------------------------------------- undisturbed recoveries

  lemma {:induction false} DisciplinedLast(s: Sys, es: seq<Event>, e: Event)
    requires DisciplinedRun(s, es) && Disciplined(Run(s, es), e.action)
    ensures DisciplinedRun(s, es + [e])
    decreases |es|
  {
    hide Disciplined, After;
    if es == [] {
      assert ([] + [e])[1..] == [];
    } else {
      assert (es + [e])[1..] == es[1..] + [e];
      DisciplinedLast(After(s, es[0]), es[1..], e);
    }
  }

  lemma {:induction false} CallDisciplined(s: Sys, c: Id, g: Id, r: Reading, n: nat)
    requires Permitted(s, Surveying(c, g))
    ensures DisciplinedRun(s, Call(c, g, r, n))
  {
    if n == 0 {
      DisciplinedLast(s, [], Event(Surveying(c, g), r));
      assert [] + [Event(Surveying(c, g), r)] == Call(c, g, r, 0);
    } else {
      hide Run, DisciplinedRun;
      CallDisciplined(s, c, g, r, n - 1);
      DisciplinedLast(s, Call(c, g, r, n - 1), Event(Rescuing(c, g), r));
    }
  }

  /** A recovery that nobody disturbs, of a grant nobody else owns. */
  lemma RecoverKeeps(s: Sys, init: map<Id, Disk>, c: Id, g: Id, r: Reading)
    requires Sound(s) && FilesOk(s, init) && g !in s.live && !BeingRescued(s, g) && c !in s.rescues
    ensures var t := Recover(s, g, r).0; Sound(t) && FilesOk(t, init) && Lasting(s, t)
  {
    hide Sound, FilesOk, Lasting, Recover, Run, DisciplinedRun;
    CallDisciplined(s, c, g, r, Length(s, g, r));
    RunFilesOk(s, init, Call(c, g, r, Length(s, g, r)));
    RecoverIsRun(s, c, g, r);
  }

  // ---------------------------------------------------------------- recovery after a crash

  /** Every REPLACE of the plan really changes its file. */
  predicate ChangesContent(rows: seq<Row>) {
    forall i :: 0 <= i < |rows| ==> rows[i].pre != rows[i].post
  }

  lemma CrashImages(s: Sys, init: map<Id, Disk>, g: Id, i: nat)
    requires Placed(s, init, g) && i < |s.txs[g].rows|
    ensures ImageAt(PathDisk(s, g), s.txs[g].rows[i].path) == if i < s.done[g] then s.txs[g].rows[i].post else s.txs[g].rows[i].pre
  {
    PrefixImages(Base(s, init, s.grants[g].workspace), s.txs[g].rows, s.done[g], i);
  }

  /** With `done` of N operations on the files all preimages are seen iff none is, and all postimages iff
      all are. */
  lemma CrashPoint(s: Sys, init: map<Id, Disk>, g: Id)
    requires Placed(s, init, g) && ChangesContent(s.txs[g].rows)
    ensures AllPre(PathDisk(s, g), s.txs[g].rows) <==> s.done[g] == 0
    ensures AllPost(PathDisk(s, g), s.txs[g].rows) <==> s.done[g] == |s.txs[g].rows|
  {
    var rows := s.txs[g].rows;
    forall i | 0 <= i < |rows|
      ensures ImageAt(PathDisk(s, g), rows[i].path) == if i < s.done[g] then rows[i].post else rows[i].pre
    {
      CrashImages(s, init, g, i);
    }
    if s.done[g] > 0 { assert ImageAt(PathDisk(s, g), rows[0].path) == rows[0].post; }
    if s.done[g] < |rows| { assert ImageAt(PathDisk(s, g), rows[|rows| - 1].path) == rows[|rows| - 1].pre; }
  }

  /** A recovery that has decided is right whatever crash it follows and whatever others do before its
      last transaction: that transaction makes the grant FAILED exactly when no operation is on the
      files, APPLIED exactly when all are and the task still runs, and INTEGRITY_BLOCKED, with the
      workspace blocked, exactly when some are; otherwise it leaves the grant applying. */
  lemma DecidedExact(s: Sys, init: map<Id, Disk>, c: Id, g: Id, v: GrantState, r: Reading)
    requires Sound(s) && FilesOk(s, init) && c in s.rescues && s.rescues[c].grant == g && s.rescues[c].stage == Decided(v)
    requires Placed(s, init, g) && ChangesContent(s.txs[g].rows) && !r.fault
    ensures var t := Continue(s, c, g, r);
      var n := |s.txs[g].rows|;
      && g in t.grants
      && (t.grants[g].state == Failed <==> s.done[g] == 0)
      && (t.grants[g].state == Applied <==> s.done[g] == n && TaskRunning(s.world.db, s.grants[g].task))
      && (t.grants[g].state == IntegrityBlocked <==> 0 < s.done[g] < n)
      && (t.grants[g].state == IntegrityBlocked ==> s.grants[g].workspace in t.blocked)
      && (s.done[g] == n && !TaskRunning(s.world.db, s.grants[g].task) ==> IsApplying(t, g) && c in t.rescues && t.rescues[c].stage.Losing?)
  {
    hide Placed, Witnessed, Sound, FilesOk, Conclude, Continue, ChangesContent;
    RescuedGrant(s, init, c);
    ContinueConcludes(s, c, g, v, r);
    DecidedVerdict(s, init, s.rescues[c], v);
    ConcludeState(s, c, g, v);
  }

  /** The grant of a running recovery. */
  lemma RescuedGrant(s: Sys, init: map<Id, Disk>, c: Id)
    requires Sound(s) && FilesOk(s, init) && c in s.rescues
    ensures var k := s.rescues[c];
      Unfinished(s, k.grant) && k.grant !in s.live && k.grant in s.done && Placed(s, init, k.grant) && Witnessed(s, k) && StageOk(k.stage)
  {
    hide Witnessed;
    assert Abandoned(s, s.rescues[c].grant) && TxOk(s, s.rescues[c].grant);
  }

  lemma ContinueConcludes(s: Sys, c: Id, g: Id, v: GrantState, r: Reading)
    requires c in s.rescues && s.rescues[c].grant == g && s.rescues[c].stage == Decided(v) && g in s.grants && g in s.txs && !r.fault
    ensures Continue(s, c, g, r) == Conclude(s, c, g, v)
  {
  }

  lemma DecidedVerdict(s: Sys, init: map<Id, Disk>, k: Rescue, v: GrantState)
    requires Witnessed(s, k) && k.stage == Decided(v) && Placed(s, init, k.grant) && ChangesContent(s.txs[k.grant].rows)
    ensures s.done[k.grant] <= |s.txs[k.grant].rows|
    ensures v == Failed <==> s.done[k.grant] == 0
    ensures v == Applied <==> s.done[k.grant] == |s.txs[k.grant].rows|
    ensures v == IntegrityBlocked ==> s.grants[k.grant].workspace in s.blocked
  {
    CrashPoint(s, init, k.grant);
    ClassifiesDisk(PathDisk(s, k.grant), s.txs[k.grant].rows);
    assert k.images == ImagesOf(PathDisk(s, k.grant), s.txs[k.grant].rows);
  }

  lemma ConcludeState(s: Sys, c: Id, g: Id, v: GrantState)
    requires c in s.rescues && Unfinished(s, g) && StageOk(Decided(v))
    ensures var t := Conclude(s, c, g, v);
      && g in t.grants && t.blocked == s.blocked
      && t.grants[g].state == (if v == Applied && !TaskRunning(s.world.db, s.grants[g].task) then Applying else v)
      && (v == Applied && !TaskRunning(s.world.db, s.grants[g].task) ==> c in t.rescues && t.rescues[c].stage.Losing?)
  {
  }

  /** Recovery is right at every crash point, forward or part-way through a rollback: with `done`
      of N operations on the files an undisturbed call answers FAILED exactly when none is, APPLIED exactly when
      all are and the task still runs, and otherwise blocks the workspace. */
  lemma RecoveryExact(s: Sys, init: map<Id, Disk>, g: Id, r: Reading)
    requires FilesOk(s, init) && IsApplying(s, g) && s.txs[g].state.Applying?
    requires ChangesContent(s.txs[g].rows) && !r.fault
    requires Enter(s, s.grants[g].workspace, s.grants[g].target, r.intact).1
    ensures var (t, v) := Recover(s, g, r);
      var n := |s.txs[g].rows|;
      && (v == Recovered(Failed) <==> s.done[g] == 0)
      && (v == Recovered(Applied) <==> s.done[g] == n && TaskRunning(s.world.db, s.grants[g].task))
      && (v == ReviewLost <==> s.done[g] == n && !TaskRunning(s.world.db, s.grants[g].task))
      && (v == Recovered(IntegrityBlocked) <==> 0 < s.done[g] < n)
      && (0 < s.done[g] && v != Recovered(Applied) ==> s.grants[g].workspace in t.blocked)
  {
    assert Placed(s, init, g);
    EnterEffect(s, s.grants[g].workspace, s.grants[g].target, r.intact);
    CrashPoint(s, init, g);
  }

  /** For any plan, rewriting a file with its own content included: FAILED means the files are
      untouched and APPLIED that the whole plan is in place. */
  lemma RecoveryMeaning(s: Sys, init: map<Id, Disk>, g: Id, r: Reading)
    requires FilesOk(s, init) && IsApplying(s, g)
    ensures var v := Recover(s, g, r).1;
      var base := Base(s, init, s.grants[g].workspace);
      && (v == Recovered(Failed) ==> PathDisk(s, g) == base)
      && (v == Recovered(Applied) ==> PathDisk(s, g) == WriteRows(base, s.txs[g].rows))
  {
    assert Placed(s, init, g);
    var base := Base(s, init, s.grants[g].workspace);
    EnterEffect(s, s.grants[g].workspace, s.grants[g].target, r.intact);
    if AllPre(PathDisk(s, g), s.txs[g].rows) { AllPreMeansUntouched(base, s.txs[g].rows, s.done[g]); }
    if AllPost(PathDisk(s, g), s.txs[g].rows) { AllPostMeansApplied(base, s.txs[g].rows, s.done[g]); }
  }
}
