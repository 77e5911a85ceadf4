/** One call of `apply` as steps of the machine: its own steps interleave with whatever its hooks
    let other parties do, and only files the call has backed up are ever changed by it. */
module ApplySteps {
  import opened Basics
  import opened Store
  import opened Disks
  import opened Execution
  import opened GrantHistory
  import Records = ExecutionRecords

  type Event = Records.Event

  /** The surroundings of one call of `apply`: what its hooks let other parties do, and what each
      of its steps reads. An applier never stands twice in the same place, so `reading` is any
      sequence of readings; a hook that raises is a fault in the reading after it. */
  datatype Surroundings = Surroundings(
    opening: Reading, reading: Applier -> Reading,
    beforeFirstWrite: seq<Event>, afterOperation: nat -> seq<Event>, beforeRollback: seq<Event>)

  datatype Outcome = Returned | Raised

  /** A step that belongs to somebody else: it neither runs, recovers, crashes nor restarts grant `g`. */
  predicate Foreign(a: Action, g: Id) {
    match a
    case Issuing(h, _, _, _, _, _, _, _, _) => h != g
    case Beginning(h, _) => h != g
    case Advancing(h) => h != g
    case Surveying(_, h) => h != g
    case Rescuing(_, h) => h != g
    case Crashing(gone, _, _) => g !in gone
    case StoreStep(_, _) => true
    case Tampering(_, _, _) => true
  }

  predicate ForeignAll(es: seq<Event>, g: Id) { forall i :: 0 <= i < |es| ==> Foreign(es[i].action, g) }

  /** The hooks never run, recover or crash the grant they are called for. */
  ghost predicate HooksForeign(env: Surroundings, g: Id) {
    && ForeignAll(env.beforeFirstWrite, g) && ForeignAll(env.beforeRollback, g)
    && forall i: nat :: ForeignAll(env.afterOperation(i), g)
  }

  ghost predicate FromHook(e: Event, env: Surroundings) {
    e in env.beforeFirstWrite || e in env.beforeRollback || exists i: nat :: e in env.afterOperation(i)
  }

  /** Every event is a step of the call itself or comes from one of its hooks. */
  ghost predicate FromCall(es: seq<Event>, g: Id, env: Surroundings) {
    forall e :: e in es ==> e.action == Advancing(g) || (e.action.Beginning? && e.action.g == g) || FromHook(e, env)
  }

  /** The planned files one step of grant `g` changed. */
  function Touched(s: Sys, e: Event, g: Id): set<Path> {
    if e.action == Advancing(g) && g in s.live && g in s.grants then
      var t := Records.After(s, e);
      set i | 0 <= i < |s.live[g].rows| &&
        BytesAt(DiskOf(t, s.grants[g].workspace), s.live[g].rows[i].path) != BytesAt(PathDisk(s, g), s.live[g].rows[i].path)
        :: s.live[g].rows[i].path
    else {}
  }

  function TouchedBy(s: Sys, es: seq<Event>, g: Id): set<Path>
    decreases |es|
  {
    if es == [] then {} else Touched(s, es[0], g) + TouchedBy(Records.After(s, es[0]), es[1..], g)
  }

  /** If this step is a write of the call for `g`, the file holds the plan's preimage. */
  predicate OnPreimage(s: Sys, e: Event, g: Id) {
    (&& e.action == Advancing(g) && g in s.live && g in s.grants
     && s.live[g].pc.Writing? && s.live[g].pc.i < |s.live[g].rows|)
    ==> ImageAt(PathDisk(s, g), s.live[g].rows[s.live[g].pc.i].path) == s.live[g].rows[s.live[g].pc.i].pre
  }

  /** The call never writes over anything but the preimage. */
  predicate Guarded(s: Sys, es: seq<Event>, g: Id)
    decreases |es|
  {
    es == [] || (OnPreimage(s, es[0], g) && Guarded(Records.After(s, es[0]), es[1..], g))
  }

  // ---------------------------------------------------------------- runs grow at the end

  lemma {:induction false} RunOneMore(s: Sys, es: seq<Event>, e: Event, g: Id)
    ensures Records.Run(s, es + [e]) == Records.After(Records.Run(s, es), e)
    ensures TouchedBy(s, es + [e], g) == TouchedBy(s, es, g) + Touched(Records.Run(s, es), e, g)
    ensures Guarded(s, es + [e], g) <==> Guarded(s, es, g) && OnPreimage(Records.Run(s, es), e, g)
    decreases |es|
  {
    if es == [] {
      assert ([] + [e])[1..] == [];
    } else {
      assert (es + [e])[1..] == es[1..] + [e];
      RunOneMore(Records.After(s, es[0]), es[1..], e, g);
    }
  }

  // ---------------------------------------------------------------- other parties leave grant g alone

  /** Everything about grant `g` but its files. */
  ghost predicate Kept(s: Sys, t: Sys, g: Id) {
    && (g in s.grants ==> g in t.grants && t.grants[g] == s.grants[g])
    && (g in s.txs ==> g in t.txs && t.txs[g] == s.txs[g])
    && (g in s.live ==> g in t.live && t.live[g] == s.live[g])
    && t.known == s.known
  }

  /** Grants and transactions are the same, and of the appliers only `h` may have moved. */
  ghost predicate OnlyApplier(s: Sys, t: Sys, h: Id) {
    && t == s.(live := t.live, blocked := t.blocked, refused := t.refused, disks := t.disks, done := t.done)
    && (t.live == s.live || (h in t.live && t.live == s.live[h := t.live[h]]))
  }

  lemma OnlyApplierKept(s: Sys, t: Sys, h: Id, g: Id)
    requires OnlyApplier(s, t, h) && h != g
    ensures Kept(s, t, g)
  {
  }

  lemma FreshKept(s: Sys, h: Id, r: Reading)
    requires h in s.live && h in s.grants && CheckingAuthority(s.live[h].pc) && !s.live[h].pc.Committing?
    ensures OnlyApplier(s, AdvanceAuthority(s, h, r), h)
  {
    Records.FreshEffect(s, h, r);
  }

  lemma CompletedKept(s: Sys, t: Sys, h: Id, at: Time, g: Id)
    requires h in t.grants && h in t.txs && t == s.(refused := t.refused) && h != g
    ensures Kept(s, Retire(Complete(t, h, at), h), g)
  {
  }

  lemma RaisedKept(s: Sys, t: Sys, h: Id, g: Id)
    requires h in t.live && t == s.(refused := t.refused) && h != g
    ensures Kept(s, Raise(t, h), g)
  {
  }

  lemma CommitKept(s: Sys, h: Id, at: Time, r: Reading, g: Id)
    requires h in s.live && h in s.grants && h != g
    ensures Kept(s, Commit(s, h, at, r), g)
  {
    hide Kept, Authority, Complete, Raise;
    var ws, target := s.grants[h].workspace, s.grants[h].target;
    var t := EnterAtomic(s, ws, target, r.intact).0;
    Records.EnterEffect(s, ws, target, r.intact);
    RaisedKept(s, s, h, g);
    RaisedKept(s, t, h, g);
    if Completable(t, h) { CompletedKept(s, t, h, at, g); }
  }

  lemma AuthorityKept(s: Sys, h: Id, r: Reading, g: Id)
    requires h in s.live && h in s.grants && CheckingAuthority(s.live[h].pc) && h != g
    ensures Kept(s, AdvanceAuthority(s, h, r), g)
  {
    if s.live[h].pc.Committing? { CommitKept(s, h, s.live[h].pc.at, r, g); }
    else { FreshKept(s, h, r); OnlyApplierKept(s, AdvanceAuthority(s, h, r), h, g); }
  }

  lemma GotoMove(s: Sys, h: Id, pc: Pc)
    requires h in s.live
    ensures OnlyApplier(s, Goto(s, h, pc), h) && OnlyApplier(s, Raise(s, h), h)
  {
  }

  lemma BackUpMove(s: Sys, h: Id, r: Reading)
    requires h in s.live && h in s.grants
    ensures OnlyApplier(s, BackUp(s, h, r), h)
  {
  }

  lemma WriteMove(s: Sys, h: Id, i: nat, r: Reading)
    requires h in s.live && h in s.grants && i < |s.live[h].rows|
    ensures OnlyApplier(s, Write(s, h, i, r), h)
  {
  }

  lemma RestoreMove(s: Sys, h: Id, i: nat, r: Reading)
    requires h in s.live && h in s.grants && i <= |s.live[h].backups| <= |s.live[h].rows|
    ensures OnlyApplier(s, Restore(s, h, i, r), h)
  {
  }

  lemma ConfirmMove(s: Sys, h: Id, i: nat, good: bool, r: Reading)
    requires h in s.live && h in s.grants && |s.live[h].backups| <= |s.live[h].rows|
    ensures OnlyApplier(s, Confirm(s, h, i, good, r), h)
  {
  }

  lemma BlockMove(s: Sys, h: Id)
    requires h in s.live && h in s.grants
    ensures OnlyApplier(s, Goto(Block(s, s.grants[h].workspace), h, Closing(false)), h)
  {
  }

  lemma CloseKept(s: Sys, h: Id, st: GrantState, g: Id)
    requires h != g
    ensures Kept(s, Close(s, h, st), g) && Kept(s, Retire(Close(s, h, st), h), g)
  {
  }

  lemma FilesMove(s: Sys, h: Id, r: Reading)
    requires h in s.live && h in s.grants && PcOk(s.live[h])
    requires !Undoing(s.live[h].pc) && !CheckingAuthority(s.live[h].pc)
    ensures OnlyApplier(s, AdvanceFiles(s, h, r), h)
  {
    match s.live[h].pc
    case BackingUp => BackUpMove(s, h, r);
    case Writing(i) => WriteMove(s, h, i, r);
    case Verifying(i) => GotoMove(s, h, Checking(i + 1));
    case FinalChecking(i, at) => GotoMove(s, h, Committing(at)); GotoMove(s, h, FinalChecking(i + 1, at));
  }

  lemma FilesKept(s: Sys, h: Id, r: Reading, g: Id)
    requires h in s.live && h in s.grants && PcOk(s.live[h]) && h != g
    requires !Undoing(s.live[h].pc) && !CheckingAuthority(s.live[h].pc)
    ensures Kept(s, AdvanceFiles(s, h, r), g)
  {
    FilesMove(s, h, r);
    OnlyApplierKept(s, AdvanceFiles(s, h, r), h, g);
  }

  lemma UndoKept(s: Sys, h: Id, r: Reading, g: Id)
    requires h in s.live && h in s.grants && PcOk(s.live[h]) && Undoing(s.live[h].pc) && h != g
    ensures Kept(s, AdvanceUndo(s, h, r), g)
  {
    hide OnlyApplier, Kept, Restore, Confirm;
    match s.live[h].pc
    case RollingBack(i) => RestoreMove(s, h, i, r); OnlyApplierKept(s, Restore(s, h, i, r), h, g);
    case Confirming(i, good) => ConfirmMove(s, h, i, good, r); OnlyApplierKept(s, Confirm(s, h, i, good, r), h, g);
    case Blocking => BlockMove(s, h); OnlyApplierKept(s, AdvanceUndo(s, h, r), h, g);
    case Closing(undone) => CloseKept(s, h, if undone then Failed else IntegrityBlocked, g);
  }

  lemma BeginKept(s: Sys, h: Id, rows: seq<Row>, r: Reading, g: Id)
    requires h != g
    ensures Kept(s, Begin(s, h, rows, r), g)
  {
    hide Authority, LeaseGone, EnterAtomic, Consumable, Consume, Lapse;
    if h in s.grants {
      var t := EnterAtomic(s, s.grants[h].workspace, s.grants[h].target, r.intact).0;
      Records.EnterEffect(s, s.grants[h].workspace, s.grants[h].target, r.intact);
      LapseKept(s, h, g);
      ConsumeKept(s, t, h, rows, g);
    }
  }

  lemma LapseKept(s: Sys, h: Id, g: Id)
    requires h in s.grants && h != g
    ensures Kept(s, Lapse(s, h), g)
  {
  }

  lemma ConsumeKept(s: Sys, t: Sys, h: Id, rows: seq<Row>, g: Id)
    requires h in s.grants && h != g && t == s.(refused := t.refused)
    ensures Kept(s, t, g) && Kept(s, Consume(t, h, rows), g)
  {
  }

  lemma SurveyKept(s: Sys, c: Id, h: Id, r: Reading, g: Id)
    ensures Kept(s, Survey(s, c, h, r), g)
  {
    if h in s.grants { Records.EnterEffect(s, s.grants[h].workspace, s.grants[h].target, r.intact); }
  }

  lemma ConcludeKept(s: Sys, c: Id, h: Id, v: GrantState, g: Id)
    requires c in s.rescues && h in s.grants && h in s.txs && h != g
    ensures Kept(s, Conclude(s, c, h, v), g)
  {
    hide Close, CompleteLate, EndCall, TaskRunning;
    CloseKept(s, h, v, g);
    CompleteKept(s, h, s.rescues[c].at, g);
    EndKept(s, Close(s, h, v), c, g);
    EndKept(s, CompleteLate(s, h, s.rescues[c].at), c, g);
  }

  lemma CompleteKept(s: Sys, h: Id, at: Time, g: Id)
    requires h in s.grants && h in s.txs && h != g
    ensures Kept(s, CompleteLate(s, h, at), g)
  {
  }

  lemma EndKept(s: Sys, t: Sys, c: Id, g: Id)
    requires Kept(s, t, g)
    ensures Kept(s, EndCall(t, c), g)
  {
  }

  lemma ContinueKept(s: Sys, c: Id, h: Id, r: Reading, g: Id)
    requires h != g
    ensures Kept(s, Continue(s, c, h, r), g)
  {
    hide Conclude;
    if c in s.rescues && s.rescues[c].grant == h && h in s.grants && h in s.txs && s.rescues[c].stage.Decided? {
      ConcludeKept(s, c, h, s.rescues[c].stage.verdict, g);
    }
  }

  lemma ForeignKept(s: Sys, a: Action, r: Reading, g: Id)
    requires Foreign(a, g)
    ensures Kept(s, Step(s, a, r), g)
  {
    match a
    case Issuing(h, t, k, sess, l, ws, kinds, ps, secs) =>
    case Beginning(h, rows) => BeginKept(s, h, rows, r, g);
    case Advancing(h) =>
      if h in s.live && h in s.grants && PcOk(s.live[h]) {
        if Undoing(s.live[h].pc) { UndoKept(s, h, r, g); }
        else if CheckingAuthority(s.live[h].pc) { AuthorityKept(s, h, r, g); }
        else { FilesKept(s, h, r, g); }
      }
    case Surveying(c, h) => SurveyKept(s, c, h, r, g);
    case Rescuing(c, h) => ContinueKept(s, c, h, r, g);
    case Crashing(gone, calls, forgotten) =>
    case StoreStep(b, now) =>
    case Tampering(ws, p, c) =>
  }

  lemma {:induction false} ForeignRunKept(s: Sys, es: seq<Event>, g: Id)
    requires ForeignAll(es, g)
    ensures Kept(s, Records.Run(s, es), g) && TouchedBy(s, es, g) == {} && Guarded(s, es, g)
    decreases |es|
  {
    if es != [] {
      ForeignKept(s, es[0].action, es[0].reading, g);
      ForeignRunKept(Records.After(s, es[0]), es[1..], g);
    }
  }

  lemma {:induction false} RunAppend(s: Sys, es: seq<Event>, more: seq<Event>, g: Id)
    ensures Records.Run(s, es + more) == Records.Run(Records.Run(s, es), more)
    ensures TouchedBy(s, es + more, g) == TouchedBy(s, es, g) + TouchedBy(Records.Run(s, es), more, g)
    ensures Guarded(s, es + more, g) <==> Guarded(s, es, g) && Guarded(Records.Run(s, es), more, g)
    decreases |es|
  {
    if es == [] {
      assert es + more == more;
    } else {
      assert (es + more)[1..] == es[1..] + more;
      RunAppend(Records.After(s, es[0]), es[1..], more, g);
    }
  }

  // ---------------------------------------------------------------- the controller

  function BackedUp(rows: seq<Row>, n: nat): set<Path> { set k | 0 <= k < n && k < |rows| :: rows[k].path }

  /** Grant `g` is being applied by a live call with plan `rows` in workspace `ws`. */
  ghost predicate Owned(s: Sys, g: Id, rows: seq<Row>, ws: Id) {
    && IsApplying(s, g) && s.grants[g].workspace == ws && ws in s.known
    && g in s.txs && s.txs[g] == Tx(rows, Applying, None)
    && g in s.live && s.live[g].rows == rows && PcOk(s.live[g])
    && (forall k :: 0 <= k < |s.live[g].backups| ==> ImageOf(s.live[g].backups[k]) == rows[k].pre)
  }

  function RaisePc(a: Applier): Pc {
    if |a.backups| > 0 then RollingBack(|a.backups|) else Closing(true)
  }

  function Own(g: Id, r: Reading): Event { Records.Event(Advancing(g), r) }

  // ---------------------------------------------------------------- what each own step does

  lemma OwnFiles(s: Sys, g: Id, r: Reading)
    requires g in s.live && g in s.grants && PcOk(s.live[g])
    requires !Undoing(s.live[g].pc) && !CheckingAuthority(s.live[g].pc)
    ensures Records.After(s, Own(g, r)) ==
      match s.live[g].pc
      case BackingUp => BackUp(s, g, r)
      case Writing(i) => Write(s, g, i, r)
      case Verifying(i) => Verify(s, g, i, r)
      case FinalChecking(i, at) => FinalCheck(s, g, i, at, r)
  {
  }

  lemma OwnAuthority(s: Sys, g: Id, r: Reading)
    requires g in s.live && g in s.grants && PcOk(s.live[g]) && CheckingAuthority(s.live[g].pc)
    ensures Records.After(s, Own(g, r)) == AdvanceAuthority(s, g, r)
  {
  }

  lemma OwnUndo(s: Sys, g: Id, r: Reading)
    requires g in s.live && g in s.grants && PcOk(s.live[g]) && Undoing(s.live[g].pc)
    ensures Records.After(s, Own(g, r)) == AdvanceUndo(s, g, r)
  {
  }

  lemma Untouched(s: Sys, g: Id, r: Reading, t: Sys)
    requires t == Records.After(s, Own(g, r)) && t.disks == s.disks
    ensures Touched(s, Own(g, r), g) == {}
  {
  }

  lemma TouchedOne(s: Sys, g: Id, r: Reading, t: Sys, i: nat, b: Option<Bytes>)
    requires g in s.live && g in s.grants && i < |s.live[g].rows|
    requires t == Records.After(s, Own(g, r))
    requires t.disks == s.disks[s.grants[g].workspace := Put(PathDisk(s, g), s.live[g].rows[i].path, b)]
    ensures Touched(s, Own(g, r), g) <= {s.live[g].rows[i].path}
  {
    forall k | 0 <= k < |s.live[g].rows| && s.live[g].rows[k].path != s.live[g].rows[i].path
      ensures BytesAt(DiskOf(t, s.grants[g].workspace), s.live[g].rows[k].path) == BytesAt(PathDisk(s, g), s.live[g].rows[k].path)
    {
      PutAt(PathDisk(s, g), s.live[g].rows[i].path, b, s.live[g].rows[k].path);
    }
  }

  /** The call has taken steps `es` since `s0`; its own steps changed only backed-up files, and wrote
      only over preimages. */
  ghost predicate Tracks(s0: Sys, es: seq<Event>, s: Sys, g: Id, rows: seq<Row>, ws: Id) {
    && s == Records.Run(s0, es) && Owned(s, g, rows, ws)
    && TouchedBy(s0, es, g) <= BackedUp(rows, |s.live[g].backups|) && Guarded(s0, es, g)
  }

  /** An own step that leaves the call in charge is tracked. */
  lemma TrackOwn(s0: Sys, es: seq<Event>, s: Sys, g: Id, rows: seq<Row>, ws: Id, r: Reading, t: Sys)
    requires Tracks(s0, es, s, g, rows, ws)
    requires t == Records.After(s, Own(g, r)) && Owned(t, g, rows, ws) && |s.live[g].backups| <= |t.live[g].backups|
    requires Touched(s, Own(g, r), g) <= BackedUp(rows, |s.live[g].backups|) && OnPreimage(s, Own(g, r), g)
    ensures Tracks(s0, es + [Own(g, r)], t, g, rows, ws)
  {
    hide Step;
    RunOneMore(s0, es, Own(g, r), g);
    BackedUpGrows(rows, |s.live[g].backups|, |t.live[g].backups|);
  }

  lemma BackedUpGrows(rows: seq<Row>, m: nat, n: nat)
    requires m <= n
    ensures BackedUp(rows, m) <= BackedUp(rows, n)
  {
  }

  /** Moving only the program counter, or adding a checked backup, keeps the call in charge. */
  lemma OwnedAfter(s: Sys, t: Sys, g: Id, rows: seq<Row>, ws: Id, a: Applier)
    requires Owned(s, g, rows, ws) && a.rows == rows && PcOk(a)
    requires t == s.(live := s.live[g := a], blocked := t.blocked, refused := t.refused, disks := t.disks, done := t.done)
    requires forall k :: 0 <= k < |a.backups| ==> ImageOf(a.backups[k]) == rows[k].pre
    ensures Owned(t, g, rows, ws)
  {
  }

  lemma AuthorizeStep(s0: Sys, es: seq<Event>, s: Sys, g: Id, rows: seq<Row>, ws: Id, r: Reading, next: Pc)
    requires Tracks(s0, es, s, g, rows, ws)
    requires (s.live[g].pc.Started? && next == BackingUp) || (s.live[g].pc.Final? && next == FinalChecking(0, r.now))
    ensures var t := Authorized(s, g, next, r); Tracks(s0, es + [Own(g, r)], t, g, rows, ws)
    ensures var t := Authorized(s, g, next, r);
      && t.disks == s.disks
      && t.live[g] == s.live[g].(pc := if FreshAuthority(s, g, r).1 then next else RaisePc(s.live[g]))
  {
    hide Records.Run, TouchedBy, Guarded, Step;
    var t := Authorized(s, g, next, r);
    Records.FreshEffect(s, g, r);
    OwnAuthority(s, g, r);
    OwnedAfter(s, t, g, rows, ws, t.live[g]);
    Untouched(s, g, r, t);
    TrackOwn(s0, es, s, g, rows, ws, r, t);
  }

  lemma CheckStep(s0: Sys, es: seq<Event>, s: Sys, g: Id, rows: seq<Row>, ws: Id, r: Reading, i: nat)
    requires Tracks(s0, es, s, g, rows, ws) && s.live[g].pc == Checking(i)
    ensures var t := Check(s, g, i, r); Tracks(s0, es + [Own(g, r)], t, g, rows, ws)
    ensures var t := Check(s, g, i, r);
      && t.disks == s.disks && t.live[g] == s.live[g].(pc := t.live[g].pc)
      && (t.live[g].pc == RaisePc(s.live[g]) || t.live[g].pc == if i < |rows| then Writing(i) else Final)
      && (t.live[g].pc == Writing(i) && i < |rows| ==> ImageAt(DiskOf(t, ws), rows[i].path) == rows[i].pre)
  {
    hide Records.Run, TouchedBy, Guarded, Step;
    var t := Check(s, g, i, r);
    Records.FreshEffect(s, g, r);
    OwnAuthority(s, g, r);
    OwnedAfter(s, t, g, rows, ws, t.live[g]);
    Untouched(s, g, r, t);
    TrackOwn(s0, es, s, g, rows, ws, r, t);
  }

  lemma BackUpStep(s0: Sys, es: seq<Event>, s: Sys, g: Id, rows: seq<Row>, ws: Id, r: Reading)
    requires Tracks(s0, es, s, g, rows, ws) && s.live[g].pc.BackingUp?
    ensures var t := BackUp(s, g, r); Tracks(s0, es + [Own(g, r)], t, g, rows, ws)
    ensures var t := BackUp(s, g, r); var n := |s.live[g].backups|;
      && t.disks == s.disks
      && (|| t.live[g] == s.live[g].(pc := RaisePc(s.live[g]))
          || (n == |rows| && t.live[g] == s.live[g].(pc := Checking(0)))
          || (n < |rows| && t.live[g].pc.BackingUp? && |t.live[g].backups| == n + 1))
  {
    hide Records.Run, Records.After, TouchedBy, Guarded, Step;
    var t := BackUp(s, g, r);
    OwnFiles(s, g, r);
    var j := |s.live[g].backups|;
    if j < |rows| { ImageIsBytes(PathDisk(s, g), rows[j].path); }
    OwnedAfter(s, t, g, rows, ws, t.live[g]);
    Untouched(s, g, r, t);
    TrackOwn(s0, es, s, g, rows, ws, r, t);
  }

  lemma WriteStep(s0: Sys, es: seq<Event>, s: Sys, g: Id, rows: seq<Row>, ws: Id, r: Reading, i: nat)
    requires Tracks(s0, es, s, g, rows, ws) && s.live[g].pc == Writing(i) && |s.live[g].backups| == |rows|
    requires ImageAt(DiskOf(s, ws), rows[i].path) == rows[i].pre
    ensures var t := Write(s, g, i, r); Tracks(s0, es + [Own(g, r)], t, g, rows, ws)
    ensures var t := Write(s, g, i, r);
      && t.live[g] == s.live[g].(pc := t.live[g].pc)
      && (t.live[g].pc == RaisePc(s.live[g]) || t.live[g].pc == Verifying(i))
  {
    hide Records.Run, Records.After, TouchedBy, Guarded, Step;
    var t := Write(s, g, i, r);
    OwnFiles(s, g, r);
    assert t == Records.After(s, Own(g, r));
    hide AdvanceFiles, Advance;
    OwnedAfter(s, t, g, rows, ws, t.live[g]);
    if t.disks == s.disks { Untouched(s, g, r, t); } else { TouchedOne(s, g, r, t, i, rows[i].data); }
    TrackOwn(s0, es, s, g, rows, ws, r, t);
  }

  lemma VerifyStep(s0: Sys, es: seq<Event>, s: Sys, g: Id, rows: seq<Row>, ws: Id, r: Reading, i: nat)
    requires Tracks(s0, es, s, g, rows, ws) && s.live[g].pc == Verifying(i)
    ensures var t := Verify(s, g, i, r); Tracks(s0, es + [Own(g, r)], t, g, rows, ws)
    ensures var t := Verify(s, g, i, r);
      && t.live[g] == s.live[g].(pc := t.live[g].pc)
      && (t.live[g].pc == RaisePc(s.live[g]) || t.live[g].pc == Checking(i + 1))
  {
    hide Records.Run, Records.After, TouchedBy, Guarded, Step;
    var t := Verify(s, g, i, r);
    OwnFiles(s, g, r);
    OwnedAfter(s, t, g, rows, ws, t.live[g]);
    Untouched(s, g, r, t);
    TrackOwn(s0, es, s, g, rows, ws, r, t);
  }

  lemma FinalCheckStep(s0: Sys, es: seq<Event>, s: Sys, g: Id, rows: seq<Row>, ws: Id, r: Reading, i: nat, at: Time)
    requires Tracks(s0, es, s, g, rows, ws) && s.live[g].pc == FinalChecking(i, at)
    ensures var t := FinalCheck(s, g, i, at, r); Tracks(s0, es + [Own(g, r)], t, g, rows, ws)
    ensures var t := FinalCheck(s, g, i, at, r);
      && t.disks == s.disks && t.live[g] == s.live[g].(pc := t.live[g].pc)
      && (|| t.live[g].pc == RaisePc(s.live[g])
          || (i >= |rows| && t.live[g].pc == Committing(at))
          || (i < |rows| && t.live[g].pc == FinalChecking(i + 1, at) && ImageAt(DiskOf(t, ws), rows[i].path) == rows[i].post))
  {
    hide Records.Run, Records.After, TouchedBy, Guarded, Step;
    var t := FinalCheck(s, g, i, at, r);
    OwnFiles(s, g, r);
    OwnedAfter(s, t, g, rows, ws, t.live[g]);
    Untouched(s, g, r, t);
    TrackOwn(s0, es, s, g, rows, ws, r, t);
  }

  lemma RestoreStep(s0: Sys, es: seq<Event>, s: Sys, g: Id, rows: seq<Row>, ws: Id, r: Reading, i: nat)
    requires Tracks(s0, es, s, g, rows, ws) && s.live[g].pc == RollingBack(i)
    ensures var t := Restore(s, g, i, r); Tracks(s0, es + [Own(g, r)], t, g, rows, ws)
    ensures var t := Restore(s, g, i, r);
      && t.live[g] == s.live[g].(pc := t.live[g].pc)
      && (t.live[g].pc == Blocking || t.live[g].pc == if i == 0 then Confirming(0, true) else RollingBack(i - 1))
  {
    hide Records.Run, TouchedBy, Guarded, Step;
    var t := Restore(s, g, i, r);
    OwnUndo(s, g, r);
    OwnedAfter(s, t, g, rows, ws, t.live[g]);
    if t.disks == s.disks { Untouched(s, g, r, t); } else { TouchedOne(s, g, r, t, i - 1, s.live[g].backups[i - 1]); }
    TrackOwn(s0, es, s, g, rows, ws, r, t);
  }

  lemma ConfirmStep(s0: Sys, es: seq<Event>, s: Sys, g: Id, rows: seq<Row>, ws: Id, r: Reading, i: nat, good: bool)
    requires Tracks(s0, es, s, g, rows, ws) && s.live[g].pc == Confirming(i, good)
    ensures var t := Confirm(s, g, i, good, r); Tracks(s0, es + [Own(g, r)], t, g, rows, ws)
    ensures var t := Confirm(s, g, i, good, r);
      && t.disks == s.disks
      && t.live[g] == s.live[g].(pc :=
           if i >= |s.live[g].backups| then (if good then Closing(true) else Blocking)
           else if r.fault then Blocking
           else Confirming(i + 1, good && ImageAt(DiskOf(s, ws), rows[i].path) == ImageOf(s.live[g].backups[i])))
  {
    hide Records.Run, TouchedBy, Guarded, Step;
    var t := Confirm(s, g, i, good, r);
    OwnUndo(s, g, r);
    OwnedAfter(s, t, g, rows, ws, t.live[g]);
    Untouched(s, g, r, t);
    TrackOwn(s0, es, s, g, rows, ws, r, t);
  }

  lemma BlockStep(s0: Sys, es: seq<Event>, s: Sys, g: Id, rows: seq<Row>, ws: Id, r: Reading)
    requires Tracks(s0, es, s, g, rows, ws) && s.live[g].pc == Blocking
    ensures var t := Goto(Block(s, ws), g, Closing(false));
      Tracks(s0, es + [Own(g, r)], t, g, rows, ws) && ws in t.blocked && ws in t.refused
  {
    hide Records.Run, TouchedBy, Guarded, Step;
    var t := Goto(Block(s, ws), g, Closing(false));
    OwnUndo(s, g, r);
    OwnedAfter(s, t, g, rows, ws, t.live[g]);
    Untouched(s, g, r, t);
    TrackOwn(s0, es, s, g, rows, ws, r, t);
  }

  /** The call is over after steps `es`: grant `g` ended in state `st`, only files the call had backed
      up were ever changed by it, and it wrote only over preimages. */
  ghost predicate Ended(s0: Sys, es: seq<Event>, s: Sys, g: Id, rows: seq<Row>, ws: Id, st: GrantState, backups: nat) {
    && s == Records.Run(s0, es) && g !in s.live
    && g in s.grants && s.grants[g].state == st && s.grants[g].workspace == ws
    && g in s.txs && s.txs[g].state == st && s.txs[g].rows == rows
    && TouchedBy(s0, es, g) <= BackedUp(rows, backups) && Guarded(s0, es, g)
  }

  lemma CloseStep(s0: Sys, es: seq<Event>, s: Sys, g: Id, rows: seq<Row>, ws: Id, r: Reading, undone: bool)
    requires Tracks(s0, es, s, g, rows, ws) && s.live[g].pc == Closing(undone)
    ensures var st := if undone then Failed else IntegrityBlocked;
      var t := Retire(Close(s, g, st), g);
      && Ended(s0, es + [Own(g, r)], t, g, rows, ws, st, |s.live[g].backups|)
      && t.disks == s.disks && t.blocked == s.blocked && t.refused == s.refused
  {
    hide Records.Run, TouchedBy, Guarded;
    var t := Retire(Close(s, g, if undone then Failed else IntegrityBlocked), g);
    OwnUndo(s, g, r);
    Untouched(s, g, r, t);
    RunOneMore(s0, es, Own(g, r), g);
  }

  /** What `apply` returns after: the grant, its transaction and its task moved together. */
  ghost predicate Accepted(s: Sys, g: Id, rows: seq<Row>) {
    && g in s.grants && g in s.txs
    && s.txs[g].evidence.Some? && s.txs[g].evidence.value == EnvelopeOf(s, g, rows, s.txs[g].evidence.value.at)
    && s.grants[g].task in s.world.db.tasks && s.world.db.tasks[s.grants[g].task].state.ReviewPending?
    && s.log != [] && s.log[|s.log| - 1] == Entry(g, s.grants[g].workspace, rows)
  }

  /** A commit leaves the call in charge of an unchanged transaction, or ends it completed. */
  lemma CommitOutcome(s: Sys, g: Id, rows: seq<Row>, ws: Id, r: Reading, at: Time)
    requires Owned(s, g, rows, ws) && s.live[g].pc == Committing(at)
    ensures var t := Commit(s, g, at, r);
      && t.disks == s.disks
      && (|| (Owned(t, g, rows, ws) && t.live[g] == s.live[g].(pc := RaisePc(s.live[g])))
          || (&& g !in t.live && g in t.grants && t.grants[g].state.Applied? && t.grants[g].workspace == ws
              && g in t.txs && t.txs[g].state.Applied? && t.txs[g].rows == rows && Accepted(t, g, rows)))
  {
    var t := Commit(s, g, at, r);
    Records.EnterEffect(s, s.grants[g].workspace, s.grants[g].target, r.intact);
    if g in t.live { OwnedAfter(s, t, g, rows, ws, t.live[g]); }
  }

  lemma CommitStep(s0: Sys, es: seq<Event>, s: Sys, g: Id, rows: seq<Row>, ws: Id, r: Reading, at: Time)
    requires Tracks(s0, es, s, g, rows, ws) && s.live[g].pc == Committing(at)
    ensures var t := Commit(s, g, at, r);
      && t.disks == s.disks
      && (|| (&& Tracks(s0, es + [Own(g, r)], t, g, rows, ws)
              && t.live[g] == s.live[g].(pc := RaisePc(s.live[g])))
          || (Ended(s0, es + [Own(g, r)], t, g, rows, ws, Applied, |s.live[g].backups|) && Accepted(t, g, rows)))
  {
    hide Records.Run, TouchedBy, Guarded;
    var t := Commit(s, g, at, r);
    OwnAuthority(s, g, r);
    CommitOutcome(s, g, rows, ws, r, at);
    Untouched(s, g, r, t);
    if Owned(t, g, rows, ws) { TrackOwn(s0, es, s, g, rows, ws, r, t); } else { RunOneMore(s0, es, Own(g, r), g); }
  }

  /** Whatever the hook does, the call stays in charge of its grant and its backups. */
  lemma HookStep(s0: Sys, es: seq<Event>, s: Sys, g: Id, rows: seq<Row>, ws: Id, hook: seq<Event>)
    requires Tracks(s0, es, s, g, rows, ws) && ForeignAll(hook, g)
    ensures var t := Records.Run(s, hook);
      Tracks(s0, es + hook, t, g, rows, ws) && t.live[g] == s.live[g]
  {
    RunAppend(s0, es, hook, g);
    ForeignRunKept(s, hook, g);
  }

  lemma ConsumeOwned(s: Sys, g: Id, rows: seq<Row>)
    requires g in s.grants && s.grants[g].workspace in s.known
    ensures var u := ConsumedFor(s, g, rows);
      Owned(u, g, rows, s.grants[g].workspace) && u.live[g] == Applier(rows, [], Started) && u.disks == s.disks
  {
  }

  lemma BeginOutcome(s: Sys, g: Id, rows: seq<Row>, r: Reading)
    ensures var t := Begin(s, g, rows, r);
      if MayConsume(s, g, rows, r) then g in s.grants && s.grants[g].workspace in s.known && t == ConsumedFor(s, g, rows) else LeftAlone(s, t, g, r.now)
    ensures MayConsume(s, g, rows, r) <==> IsApplying(Begin(s, g, rows, r), g) && !IsApplying(s, g)
  {
    hide Begin, Entitled, Allows, Over;
    if g in s.grants && s.grants[g].state.Issued? { Begins(s, g, rows, r); }
    else if g in s.grants { NoBegin(s, g, rows, r); }
    else { UnknownGrant(s, g, rows, r); }
  }

  /** The first transaction of a call leaves everything as it was, but that the grant may lapse; or, exactly when
      grant, authority, workspace, scope and files allow it, it consumes the grant, and the call is under way. */
  lemma BeginStep(s: Sys, g: Id, rows: seq<Row>, r: Reading)
    ensures var t := Begin(s, g, rows, r);
      if MayConsume(s, g, rows, r) then
        && g in s.grants && t == ConsumedFor(s, g, rows)
        && Tracks(s, [Records.Event(Beginning(g, rows), r)], t, g, rows, s.grants[g].workspace)
      else LeftAlone(s, t, g, r.now)
  {
    hide MayConsume, Begin;
    var e := Records.Event(Beginning(g, rows), r);
    BeginOutcome(s, g, rows, r);
    if MayConsume(s, g, rows, r) {
      assert g in s.grants && s.grants[g].workspace in s.known;
      RunOneMore(s, [], e, g);
      assert [] + [e] == [e];
      assert TouchedBy(s, [], g) == {} && Touched(s, e, g) == {} && Guarded(s, [], g);
      ConsumeOwned(s, g, rows);
    }
  }
}
