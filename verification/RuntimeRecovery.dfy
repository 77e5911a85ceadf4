/** `AutonomyRuntime._recover` after a restart, and what it means that `run_once` reconciles the
    store before it recovers transactions. */
module RuntimeRecovery {
  import opened Basics
  import opened Store
  import opened Ordering
  import opened Disks
  import opened Execution
  import opened ExecutionRecords
  import opened ExecutionFiles
  import opened GrantHistory
  import Calls = RecoveryCalls
  import Controller
  import SupervisorObject

  // ---------------------------------------------------------------- targets

  /** Every grant was issued for the registered target of its workspace. */
  ghost predicate TargetsOk(s: Sys) {
    forall g :: g in s.grants ==> s.grants[g].workspace in s.known && s.known[s.grants[g].workspace] == s.grants[g].target
  }

  /** Old grants keep their workspace and target. */
  ghost predicate SameTargets(s: Sys, t: Sys) {
    && t.known == s.known && t.grants.Keys == s.grants.Keys
    && forall g :: g in s.grants ==> t.grants[g].workspace == s.grants[g].workspace && t.grants[g].target == s.grants[g].target
  }

  lemma SameRecordsTargets(s: Sys, t: Sys)
    requires SameRecords(s, t)
    ensures SameTargets(s, t)
  {
  }

  lemma GrantedTargets(s: Sys, g: Id, t: Sys)
    requires g in s.grants && IsGranted(s, g, s.grants[g].(state := Lapsed), t)
    ensures SameTargets(s, t)
  {
  }

  lemma BegunTargets(s: Sys, g: Id, rows: seq<Row>, t: Sys)
    requires IsBegun(s, g, rows, t)
    ensures SameTargets(s, t)
  {
  }

  lemma FinishedTargets(s: Sys, g: Id, at: Time, t: Sys)
    requires IsFinished(s, g, at, t)
    ensures SameTargets(s, t)
  {
  }

  lemma SettledTargets(s: Sys, g: Id, st: GrantState, t: Sys)
    requires IsSettled(s, g, st, t)
    ensures SameTargets(s, t)
  {
  }

  lemma OpenedTargets(s: Sys, g: Id, rows: seq<Row>, t: Sys)
    requires || SameRecords(s, t) || (g in s.grants && IsGranted(s, g, s.grants[g].(state := Lapsed), t)) || IsBegun(s, g, rows, t)
    ensures SameTargets(s, t)
  {
    if SameRecords(s, t) { SameRecordsTargets(s, t); }
    else if IsBegun(s, g, rows, t) { BegunTargets(s, g, rows, t); }
    else { GrantedTargets(s, g, t); }
  }

  lemma ClosedTargets(s: Sys, g: Id, at: Time, t: Sys)
    requires IsClosed(s, g, at, t)
    ensures SameTargets(s, t)
  {
    if SameRecords(s, t) { SameRecordsTargets(s, t); }
    else if IsFinished(s, g, at, t) { FinishedTargets(s, g, at, t); }
    else if IsSettled(s, g, Failed, t) { SettledTargets(s, g, Failed, t); }
    else { SettledTargets(s, g, IntegrityBlocked, t); }
  }

  lemma RescueTargets(s: Sys, c: Id, g: Id, r: Reading)
    requires RowsAgree(s) && RescuesOk(s)
    ensures SameTargets(s, Continue(s, c, g, r)) && SameTargets(s, Survey(s, c, g, r))
  {
    var t, u := Continue(s, c, g, r), Survey(s, c, g, r);
    RescueEffect(s, c, g, r);
    ClosedTargets(s.(rescues := t.rescues), g, if c in s.rescues then s.rescues[c].at else 0.0, t);
    SurveyEffect(s, c, g, r);
    SameRecordsTargets(s.(rescues := u.rescues), u);
  }

  lemma AdvanceTargets(s: Sys, g: Id, r: Reading)
    requires RowsAgree(s)
    ensures SameTargets(s, Advance(s, g, r))
  {
    if g in s.live && g in s.grants && PcOk(s.live[g]) {
      if Undoing(s.live[g].pc) {
        UndoEffect(s, g, r);
        ClosedTargets(s, g, 0.0, AdvanceUndo(s, g, r));
      } else if CheckingAuthority(s.live[g].pc) {
        AuthorityEffect(s, g, r);
        ClosedTargets(s, g, if s.live[g].pc.Committing? then s.live[g].pc.at else 0.0, AdvanceAuthority(s, g, r));
      } else {
        FilesEffect(s, g, r);
        ClosedTargets(s, g, 0.0, AdvanceFiles(s, g, r));
      }
    }
  }

  lemma IssueTargets(s: Sys, a: Action, r: Reading)
    requires TargetsOk(s) && a.Issuing?
    ensures TargetsOk(Step(s, a, r))
  {
  }

  lemma SameTargetsOk(s: Sys, t: Sys)
    requires TargetsOk(s) && SameTargets(s, t)
    ensures TargetsOk(t)
  {
  }

  lemma StepTargets(s: Sys, a: Action, r: Reading)
    requires Sound(s) && Permitted(s, a) && TargetsOk(s)
    ensures TargetsOk(Step(s, a, r))
  {
    if a.Issuing? {
      IssueTargets(s, a, r);
    } else {
      if a.Beginning? {
        BeginEffect(s, a.g, a.rows, r);
        OpenedTargets(s, a.g, a.rows, Begin(s, a.g, a.rows, r));
      } else if a.Advancing? {
        AdvanceTargets(s, a.g, r);
      } else if a.Surveying? || a.Rescuing? {
        RescueTargets(s, a.c, a.g, r);
      }
      SameTargetsOk(s, Step(s, a, r));
    }
  }

  lemma {:induction false} RunTargets(s: Sys, es: seq<Event>)
    requires Sound(s) && PermittedRun(s, es) && TargetsOk(s)
    ensures TargetsOk(Run(s, es))
    decreases |es|
  {
    if es != [] {
      StepTargets(s, es[0].action, es[0].reading);
      StepSound(s, es[0].action, es[0].reading);
      RunTargets(After(s, es[0]), es[1..]);
    }
  }

  // ---------------------------------------------------------------- recovering every grant

  /** The readings of a recovery pass in which nothing raises and no directory was swapped. */
  function Calm(now: Time): Reading { Reading(now, false, true, false) }

  /** A grant of an unknown workspace, or of one blocked before the pass, is left alone. */
  function RecoverOne(s: Sys, g: Id, closed: set<Id>, now: Time): Sys {
    if g !in s.grants || s.grants[g].workspace !in s.known || s.grants[g].workspace in closed then s
    else Recover(s, g, Calm(now)).0
  }

  function RecoverEach(s: Sys, gs: seq<Id>, closed: set<Id>, now: Time): Sys
    decreases |gs|
  {
    if gs == [] then s else RecoverEach(RecoverOne(s, gs[0], closed, now), gs[1..], closed, now)
  }

  lemma JudgedOrBlocked(s: Sys, g: Id, r: Reading)
    requires g in s.grants && g in s.txs && s.grants[g].workspace in s.known
    ensures var t := Judge(s, g, r).0; IsApplying(t, g) ==> s.grants[g].workspace in t.blocked
  {
  }

  /** After its recovery a grant is no longer applying, or its workspace is durably blocked. */
  lemma RecoveredOrBlocked(s: Sys, g: Id, closed: set<Id>, now: Time)
    requires RowsAgree(s) && TargetsOk(s) && g in s.grants && closed <= s.blocked
    ensures var t := RecoverOne(s, g, closed, now); IsApplying(t, g) ==> s.grants[g].workspace in t.blocked
  {
    var ws := s.grants[g].workspace;
    if IsApplying(s, g) && ws !in closed {
      assert g in s.txs && TxOk(s, g);
      JudgedOrBlocked(s, g, Calm(now));
      hide Judge, RowsAgree;
      EnterEffect(s, ws, s.grants[g].target, true);
    } else {
      hide Judge, RowsAgree;
    }
  }

  /** Of the grants only the state of `g` may have changed. */
  ghost predicate OnlyState(s: Sys, t: Sys, g: Id) {
    SameTargets(s, t) && forall h :: h != g ==> (IsApplying(t, h) <==> IsApplying(s, h))
  }

  lemma StateMoves(s: Sys, t: Sys, g: Id, st: GrantState)
    requires g in s.grants && t.known == s.known && t.grants == s.grants[g := s.grants[g].(state := st)]
    ensures OnlyState(s, t, g)
  {
  }

  lemma JudgeTargets(s: Sys, g: Id, r: Reading)
    requires g in s.grants && g in s.txs
    ensures OnlyState(s, Judge(s, g, r).0, g)
  {
    hide OnlyState, AllPre, AllPost;
    var ws := s.grants[g].workspace;
    if AllPre(DiskOf(s, ws), s.txs[g].rows) {
      StateMoves(s, Settle(s, g, Failed), g, Failed);
    } else if !AllPost(DiskOf(s, ws), s.txs[g].rows) {
      StateMoves(s, Settle(Block(s, ws), g, IntegrityBlocked), g, IntegrityBlocked);
    } else if TaskRunning(s.world.db, s.grants[g].task) {
      StateMoves(s, Complete(s, g, r.now), g, Applied);
    } else {
      assert s.grants == s.grants[g := s.grants[g].(state := s.grants[g].state)];
      StateMoves(s, Block(s, ws), g, s.grants[g].state);
    }
  }

  lemma BlockCalls(s: Sys, ws: Id)
    ensures var t := Block(s, ws); t == s.(blocked := t.blocked, refused := t.refused) && s.blocked <= t.blocked
  {
  }

  lemma SettleCalls(s: Sys, g: Id, st: GrantState)
    requires g in s.grants && g in s.txs
    ensures var t := Settle(s, g, st); t.blocked == s.blocked && t.live == s.live && t.rescues == s.rescues
  {
  }

  lemma JudgeCalls(s: Sys, g: Id, r: Reading)
    requires g in s.grants && g in s.txs
    ensures var t := Judge(s, g, r).0; s.blocked <= t.blocked && t.live == s.live && t.rescues == s.rescues
  {
    hide AllPre, AllPost, AcceptExecution, Settle, Block;
    var ws := s.grants[g].workspace;
    BlockCalls(s, ws);
    SettleCalls(s, g, Failed);
    SettleCalls(Block(s, ws), g, IntegrityBlocked);
  }

  lemma RecordsOnly(s: Sys, t: Sys, g: Id)
    requires SameRecords(s, t)
    ensures OnlyState(s, t, g) && s.blocked <= t.blocked && t.rescues == s.rescues
  {
  }

  /** A call refuses, or judges the files. */
  lemma RecoverCases(s: Sys, g: Id, closed: set<Id>, now: Time)
    ensures var t := RecoverOne(s, g, closed, now);
      (SameRecords(s, t) && t.live == s.live) || (g in s.grants && g in s.txs && t == Judge(s, g, Calm(now)).0)
  {
    hide Judge;
    if g in s.grants { EnterEffect(s, s.grants[g].workspace, s.grants[g].target, true); }
  }

  lemma RecoverOthers(s: Sys, g: Id, closed: set<Id>, now: Time)
    ensures var t := RecoverOne(s, g, closed, now);
      OnlyState(s, t, g) && s.blocked <= t.blocked && t.live == s.live && t.rescues == s.rescues
  {
    hide Judge, OnlyState, RecoverOne, SameRecords;
    var t := RecoverOne(s, g, closed, now);
    RecoverCases(s, g, closed, now);
    if SameRecords(s, t) && t.live == s.live {
      RecordsOnly(s, t, g);
    } else {
      JudgeTargets(s, g, Calm(now));
      JudgeCalls(s, g, Calm(now));
    }
  }

  /** Every applying grant not yet recovered is still in the list, or its workspace is blocked. */
  ghost predicate Pending(s: Sys, gs: seq<Id>) {
    forall g :: IsApplying(s, g) ==> g in gs || s.grants[g].workspace in s.blocked
  }

  lemma OnePending(s: Sys, gs: seq<Id>, closed: set<Id>, now: Time)
    requires RowsAgree(s) && TargetsOk(s) && gs != [] && Pending(s, gs) && closed <= s.blocked
    ensures Pending(RecoverOne(s, gs[0], closed, now), gs[1..])
  {
    var t := RecoverOne(s, gs[0], closed, now);
    RecoverOthers(s, gs[0], closed, now);
    if gs[0] in s.grants { RecoveredOrBlocked(s, gs[0], closed, now); }
    forall g | IsApplying(t, g) ensures g in gs[1..] || t.grants[g].workspace in t.blocked {
      if g != gs[0] { assert IsApplying(s, g); }
    }
  }

  lemma {:induction false} PassRecovers(s: Sys, init: map<Id, Disk>, gs: seq<Id>, closed: set<Id>, now: Time)
    requires Sound(s) && FilesOk(s, init) && TargetsOk(s) && s.live == map[] && s.rescues == map[]
    requires Pending(s, gs) && closed <= s.blocked
    ensures var t := RecoverEach(s, gs, closed, now);
      && Sound(t) && FilesOk(t, init) && t.known == s.known && s.blocked <= t.blocked
      && forall g :: IsApplying(t, g) ==> t.grants[g].workspace in t.blocked
    decreases |gs|
  {
    if gs != [] {
      var t := RecoverOne(s, gs[0], closed, now);
      OnePending(s, gs, closed, now);
      RecoverOthers(s, gs[0], closed, now);
      SameTargetsOk(s, t);
      RecoverKeeps(s, init, "", gs[0], Calm(now));
      PassRecovers(t, init, gs[1..], closed, now);
    }
  }

  /** What the recovery of a grant answers in the pass. */
  function AnswerOne(s: Sys, g: Id, closed: set<Id>, now: Time): Verdict {
    if g !in s.grants || s.grants[g].workspace !in s.known || s.grants[g].workspace in closed then Refused
    else Recover(s, g, Calm(now)).1
  }

  /** And of the grants one after the other. */
  function Answers(s: Sys, gs: seq<Id>, closed: set<Id>, now: Time): seq<Verdict> {
    if gs == [] then []
    else
      var n := |gs| - 1;
      Answers(s, gs[..n], closed, now) + [AnswerOne(RecoverEach(s, gs[..n], closed, now), gs[n], closed, now)]
  }

  lemma AnswersLast(s: Sys, gs: seq<Id>, g: Id, closed: set<Id>, now: Time)
    ensures Answers(s, gs + [g], closed, now) == Answers(s, gs, closed, now) + [AnswerOne(RecoverEach(s, gs, closed, now), g, closed, now)]
  {
    assert (gs + [g])[..|gs|] == gs;
  }

  lemma {:induction false} RecoverEachLast(s: Sys, gs: seq<Id>, g: Id, closed: set<Id>, now: Time)
    ensures RecoverEach(s, gs + [g], closed, now) == RecoverOne(RecoverEach(s, gs, closed, now), g, closed, now)
    decreases |gs|
  {
    if gs == [] {
      assert ([] + [g])[1..] == [];
    } else {
      assert (gs + [g])[1..] == gs[1..] + [g];
      RecoverEachLast(RecoverOne(s, gs[0], closed, now), gs[1..], g, closed, now);
    }
  }

  lemma NoneYet(s: Sys, gs: seq<Id>, closed: set<Id>, now: Time)
    requires gs == []
    ensures RecoverEach(s, gs, closed, now) == s && Answers(s, gs, closed, now) == []
  {
  }

  /** Nothing about workspace `ws` moved: neither its grants and transactions nor its files nor its blocks. */
  ghost predicate Spared(s: Sys, t: Sys, ws: Id) {
    && t.disks == s.disks && (ws in t.blocked <==> ws in s.blocked) && (ws in t.refused <==> ws in s.refused)
    && forall g :: g in s.grants && s.grants[g].workspace == ws ==>
         && g in t.grants && t.grants[g] == s.grants[g]
         && (g in s.txs <==> g in t.txs) && (g in s.txs ==> t.txs[g] == s.txs[g])
  }

  lemma MovedSpares(s: Sys, t: Sys, g: Id, ws: Id)
    requires g in s.grants && s.grants[g].workspace != ws && t.disks == s.disks
    requires (ws in t.blocked <==> ws in s.blocked) && (ws in t.refused <==> ws in s.refused)
    requires forall h :: h != g ==> (h in s.grants ==> h in t.grants && t.grants[h] == s.grants[h])
    requires forall h :: h != g ==> (h in s.txs <==> h in t.txs) && (h in s.txs ==> t.txs[h] == s.txs[h])
    ensures Spared(s, t, ws)
  {
  }

  lemma SettleSpares(s: Sys, g: Id, st: GrantState, ws: Id)
    requires g in s.grants && g in s.txs && s.grants[g].workspace != ws
    ensures Spared(s, Settle(s, g, st), ws)
  {
    hide Spared;
    MovedSpares(s, Settle(s, g, st), g, ws);
  }

  lemma CompleteSpares(s: Sys, g: Id, at: Time, ws: Id)
    requires g in s.grants && g in s.txs && s.grants[g].workspace != ws
    ensures Spared(s, Complete(s, g, at), ws)
  {
    hide Spared, AcceptExecution, EnvelopeOf;
    MovedSpares(s, Complete(s, g, at), g, ws);
  }

  lemma BlockSpares(s: Sys, g: Id, ws: Id)
    requires g in s.grants && s.grants[g].workspace != ws
    ensures var t := Block(s, s.grants[g].workspace); Spared(s, t, ws) && t.grants == s.grants && t.txs == s.txs
  {
    hide Spared;
    MovedSpares(s, Block(s, s.grants[g].workspace), g, ws);
  }

  lemma JudgeSpares(s: Sys, g: Id, r: Reading, ws: Id)
    requires g in s.grants && g in s.txs && s.grants[g].workspace != ws
    ensures Spared(s, Judge(s, g, r).0, ws)
  {
    hide AllPre, AllPost, TaskRunning, Spared, Settle, Complete, Block;
    var t := Block(s, s.grants[g].workspace);
    SettleSpares(s, g, Failed, ws);
    CompleteSpares(s, g, r.now, ws);
    BlockSpares(s, g, ws);
    SettleSpares(t, g, IntegrityBlocked, ws);
    SparesOn(s, t, Settle(t, g, IntegrityBlocked), ws);
  }

  lemma OneSpares(s: Sys, g: Id, closed: set<Id>, now: Time, ws: Id)
    requires ws in closed
    ensures Spared(s, RecoverOne(s, g, closed, now), ws)
  {
    hide Judge, Spared;
    if g in s.grants && s.grants[g].workspace in s.known && s.grants[g].workspace !in closed {
      var t := Enter(s, s.grants[g].workspace, s.grants[g].target, true).0;
      EnterSpares(s, s.grants[g].workspace, s.grants[g].target, ws);
      if g in s.txs { JudgeSpares(t, g, Calm(now), ws); SparesOn(s, t, Judge(t, g, Calm(now)).0, ws); }
    }
    SparesSelf(s, ws);
  }

  lemma SparesSelf(s: Sys, ws: Id)
    ensures Spared(s, s, ws)
  {
  }

  lemma SparesOn(s: Sys, t: Sys, u: Sys, ws: Id)
    requires Spared(s, t, ws) && Spared(t, u, ws)
    ensures Spared(s, u, ws)
  {
  }

  lemma EnterSpares(s: Sys, at: Id, target: Id, ws: Id)
    requires at != ws
    ensures var t := Enter(s, at, target, true).0; Spared(s, t, ws) && t.grants == s.grants && t.txs == s.txs
  {
    hide Enter;
    EnteredExactly(s, at, target, true);
  }

  /** The pass leaves everything about the workspaces blocked before it alone. */
  lemma {:induction false} EachSpares(s: Sys, gs: seq<Id>, closed: set<Id>, now: Time, ws: Id)
    requires ws in closed
    ensures Spared(s, RecoverEach(s, gs, closed, now), ws)
    decreases |gs|
  {
    hide RecoverOne, Spared;
    if gs == [] {
      SparesSelf(s, ws);
    } else {
      var t := RecoverOne(s, gs[0], closed, now);
      OneSpares(s, gs[0], closed, now, ws);
      EachSpares(t, gs[1..], closed, now, ws);
      SparesOn(s, t, RecoverEach(t, gs[1..], closed, now), ws);
    }
  }

  /** A restart and one recovery pass over the applying grants bring every workspace to rest: it is
      durably blocked, or its files are exactly the initial files with the APPLIED plans replayed,
      wherever the crash struck. */
  lemma RestartSettlesFiles(known: map<Id, Id>, init: map<Id, Disk>, es: seq<Event>, gs: seq<Id>, now: Time, ws: Id)
    requires DisciplinedRun(NewSystem(known, init), es)
    requires Run(NewSystem(known, init), es).live == map[] && Run(NewSystem(known, init), es).rescues == map[]
    requires Pending(Run(NewSystem(known, init), es), gs)
    ensures var s := Run(NewSystem(known, init), es);
      var t := RecoverEach(s, gs, s.blocked, now);
      ws in t.blocked || (NoWriter(t, ws) && DiskOf(t, ws) == Replay(Initial(init, ws), t.log, ws))
  {
    var s0 := NewSystem(known, init);
    NewSystemSound(known, init);
    hide Run, DisciplinedRun, Sound, TargetsOk, RecoverEach, Pending, PermittedRun;
    RunFilesOk(s0, init, es);
    DisciplinedPermitted(s0, es);
    RunTargets(s0, es);
    PassSettles(Run(s0, es), init, gs, now, ws);
  }

  lemma PassSettles(s: Sys, init: map<Id, Disk>, gs: seq<Id>, now: Time, ws: Id)
    requires Sound(s) && FilesOk(s, init) && TargetsOk(s) && s.live == map[] && s.rescues == map[] && Pending(s, gs)
    ensures var t := RecoverEach(s, gs, s.blocked, now);
      ws in t.blocked || (NoWriter(t, ws) && DiskOf(t, ws) == Replay(Initial(init, ws), t.log, ws))
  {
    hide Sound, TargetsOk, RecoverEach, Pending;
    PassRecovers(s, init, gs, s.blocked, now);
    var t := RecoverEach(s, gs, s.blocked, now);
    if ws !in t.blocked { assert NoWriter(t, ws); assert Settled(t, init, ws); }
  }

  lemma {:induction false} DisciplinedPermitted(s: Sys, es: seq<Event>)
    requires DisciplinedRun(s, es)
    ensures PermittedRun(s, es)
    decreases |es|
  {
    if es != [] { DisciplinedPermitted(After(s, es[0]), es[1..]); }
  }

  // ---------------------------------------------------------------- reconcile first

  /** A crashed transaction with all its files in place, in a workspace that can be entered. */
  predicate InPlace(s: Sys, g: Id, r: Reading) {
    && IsApplying(s, g) && g in s.txs && s.txs[g].state.Applying? && !r.fault
    && Enter(s, s.grants[g].workspace, s.grants[g].target, r.intact).1
    && AllPost(PathDisk(s, g), s.txs[g].rows) && !AllPre(PathDisk(s, g), s.txs[g].rows)
  }

  /** `run_once` reconciles before it recovers. So a crashed transaction whose task has an expired
      lease, or runs under a stale owner, is never completed: if all its files are in place, they
      stay, the task is retried, and the workspace is blocked. */
  lemma ExpiredNeverApplied(s: Sys, g: Id, r: Reading, now: Time)
    requires g in s.grants
    requires s.grants[g].task in SupervisorObject.ExpiredOrStale(s.world.db, now)
    ensures var s2 := s.(world := s.world.(db := SupervisorObject.Reconciled(s.world.db, now)));
      var (t, v) := Recover(s2, g, r);
      && v != Recovered(Applied) && t.disks == s.disks
      && (v == ReviewLost ==> s.grants[g].workspace in t.blocked && IsApplying(t, g))
      && (InPlace(s, g, r) ==> v == ReviewLost)
  {
    var s2 := s.(world := s.world.(db := SupervisorObject.Reconciled(s.world.db, now)));
    assert !TaskRunning(s2.world.db, s.grants[g].task);
    hide SupervisorObject.Reconciled, SupervisorObject.ExpiredOrStale, TaskRunning;
    NotRunningLoses(s2, g, r);
    assert InPlace(s, g, r) ==> InPlace(s2, g, r);
  }

  lemma NotRunningLoses(s: Sys, g: Id, r: Reading)
    requires g in s.grants && !TaskRunning(s.world.db, s.grants[g].task)
    ensures var (t, v) := Recover(s, g, r);
      && v != Recovered(Applied) && t.disks == s.disks
      && (v == ReviewLost ==> s.grants[g].workspace in t.blocked && IsApplying(t, g))
      && (InPlace(s, g, r) ==> v == ReviewLost)
  {
    hide AllPre, AllPost, TaskRunning;
    EnterEffect(s, s.grants[g].workspace, s.grants[g].target, r.intact);
  }

  // ---------------------------------------------------------------- the pass

  /** The grants found applying are all there are to recover. */
  lemma FoundIsPending(s: Sys, gs: seq<Id>)
    requires Elements(gs) == set g | g in s.grants && s.grants[g].state.Applying?
    ensures Pending(s, gs)
  {
    forall g | IsApplying(s, g) ensures g in gs { assert g in Elements(gs); }
  }

  class AutonomyRuntime {
    const execution: Controller.GovernedExecutionController

    constructor (execution: Controller.GovernedExecutionController)
      ensures this.execution == execution
    {
      this.execution := execution;
    }

    function ApplyingGrants(): set<Id> reads execution {
      set g | g in execution.grants && execution.grants[g].state.Applying?
    }

    /** Recover one grant, unless its workspace is unknown or was blocked before the pass. */
    method RecoverNext(call: Id, g: Id, closed: set<Id>, now: Time) returns (v: Verdict)
      requires call !in execution.rescues
      modifies execution
      ensures execution.View() == RecoverOne(old(execution.View()), g, closed, now)
      ensures v == AnswerOne(old(execution.View()), g, closed, now) && execution.rescues == old(execution.rescues)
    {
      v := Refused;
      if g in execution.grants && execution.grants[g].workspace in execution.known && execution.grants[g].workspace !in closed {
        Calls.RecoverNotInCalls(execution.View(), g, Calm(now));
        v := execution.Recover(call, g, Calm(now));
      }
    }

    /** Recover the grants found applying, in order of their ids, when nothing raises and no other
        recovery goes by the name of `call`. */
    method RecoverAll(call: Id, now: Time) returns (outcomes: seq<Verdict>, ghost gs: seq<Id>)
      requires call !in execution.rescues
      modifies execution
      ensures Ascending(gs, TextLess) && Elements(gs) == old(ApplyingGrants())
      ensures Pending(old(execution.View()), gs)
      ensures execution.View() == RecoverEach(old(execution.View()), gs, old(execution.blocked), now)
      ensures outcomes == Answers(old(execution.View()), gs, old(execution.blocked), now)
      ensures forall ws :: ws in old(execution.blocked) ==> Spared(old(execution.View()), execution.View(), ws)
    {
      hide Spared, RecoverOne, RecoverEach, AnswerOne, Pending, Answers;
      TextOrders(ApplyingGrants());
      var rows := Sorted(ApplyingGrants(), TextLess);
      var closed := execution.blocked;
      gs, outcomes := rows, [];
      FoundIsPending(execution.View(), gs);
      NoneYet(execution.View(), rows[..0], closed, now);
      for k := 0 to |rows|
        invariant execution.rescues == old(execution.rescues)
        invariant execution.View() == RecoverEach(old(execution.View()), rows[..k], closed, now)
        invariant outcomes == Answers(old(execution.View()), rows[..k], closed, now)
      {
        assert rows[..k + 1] == rows[..k] + [rows[k]];
        RecoverEachLast(old(execution.View()), rows[..k], rows[k], closed, now);
        AnswersLast(old(execution.View()), rows[..k], rows[k], closed, now);
        var v := RecoverNext(call, rows[k], closed, now);
        outcomes := outcomes + [v];
      }
      assert rows[..|rows|] == rows;
      forall ws | ws in old(execution.blocked) ensures Spared(old(execution.View()), execution.View(), ws) {
        EachSpares(old(execution.View()), gs, closed, now, ws);
      }
    }
  }
}
