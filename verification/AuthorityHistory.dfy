/** Under whose authority files were written and plans applied, over whole runs with any number of calls,
    recoveries, crashes and overwritten files. */
module AuthorityHistory {
  import opened Basics
  import opened Store
  import opened Disks
  import opened Execution
  import opened ExecutionRecords
  import opened GrantHistory
  import opened WriteHistory
  import StoreRuns

  // ---------------------------------------------------------------- the states of a run

  /** The state after the first `i` steps. */
  function At(s: Sys, es: seq<Event>, i: nat): Sys
    requires i <= |es|
  {
    Run(s, es[..i])
  }

  lemma {:induction false} PermittedPrefix(s: Sys, es: seq<Event>, i: nat)
    requires PermittedRun(s, es) && i < |es|
    ensures PermittedRun(s, es[..i]) && Permitted(Run(s, es[..i]), es[i].action)
    ensures Run(s, es[..i + 1]) == After(Run(s, es[..i]), es[i])
    decreases i
  {
    hide Step;
    if i > 0 {
      assert es[1..][..i - 1] == es[..i][1..] && es[1..][..i] == es[..i + 1][1..];
      PermittedPrefix(After(s, es[0]), es[1..], i - 1);
    }
  }

  lemma {:induction false} StateOk(s: Sys, es: seq<Event>, i: nat)
    requires Sound(s) && CallsOk(s) && PermittedRun(s, es) && i <= |es|
    ensures Sound(At(s, es, i)) && CallsOk(At(s, es, i))
    decreases i
  {
    hide Step, Sound, CallsOk, Permitted;
    if i > 0 {
      StateOk(s, es, i - 1);
      PermittedPrefix(s, es, i - 1);
      StepSound(At(s, es, i - 1), es[i - 1].action, es[i - 1].reading);
      StepCallsOk(At(s, es, i - 1), es[i - 1].action, es[i - 1].reading);
    }
  }

  /** Step `i` of a run from a new system. */
  lemma StepAt(known: map<Id, Id>, disks: map<Id, Disk>, es: seq<Event>, i: nat)
    requires PermittedRun(NewSystem(known, disks), es) && i < |es|
    ensures var n := NewSystem(known, disks);
      && Sound(At(n, es, i)) && CallsOk(At(n, es, i)) && Permitted(At(n, es, i), es[i].action)
      && At(n, es, i + 1) == Step(At(n, es, i), es[i].action, es[i].reading)
  {
    hide Step, Sound;
    NewSystemSound(known, disks);
    StateOk(NewSystem(known, disks), es, i);
    PermittedPrefix(NewSystem(known, disks), es, i);
  }

  lemma AtEnds(s: Sys, es: seq<Event>)
    ensures At(s, es, 0) == s && At(s, es, |es|) == Run(s, es)
  {
    assert es[..|es|] == es;
  }

  // ---------------------------------------------------------------- who changes a file

  /** This step is one of the call for `g`, and leaves `after` at this path: the planned content when it stands
      before that write, or what it backed up there when it is rolling back. */
  ghost predicate Writes(s: Sys, e: Event, g: Id, ws: Id, p: Path, after: Option<Bytes>) {
    && e.action == Advancing(g) && CallOk(s, g) && s.grants[g].workspace == ws
    && var x := s.live[g];
      || (x.pc.Writing? && x.rows[x.pc.i].path == p && x.rows[x.pc.i].data == after)
      || (x.pc.RollingBack? && x.pc.i > 0 && x.rows[x.pc.i - 1].path == p && x.backups[x.pc.i - 1] == after)
  }

  lemma ConcludeFiles(s: Sys, c: Id, g: Id, v: GrantState)
    requires c in s.rescues && g in s.grants && g in s.txs
    ensures Conclude(s, c, g, v).disks == s.disks
  {
    hide AcceptExecution, EnvelopeOf;
  }

  lemma RescueFiles(s: Sys, c: Id, g: Id, r: Reading)
    ensures Continue(s, c, g, r).disks == s.disks
  {
    hide Conclude, Classify, ImageAt;
    if c in s.rescues && s.rescues[c].grant == g && g in s.grants && g in s.txs && s.rescues[c].stage.Decided? {
      ConcludeFiles(s, c, g, s.rescues[c].stage.verdict);
    }
  }

  lemma SurveyFiles(s: Sys, c: Id, g: Id, r: Reading)
    ensures Survey(s, c, g, r).disks == s.disks
  {
    hide Enter;
    if g in s.grants { EnteredExactly(s, s.grants[g].workspace, s.grants[g].target, r.intact); }
  }

  lemma IssueFiles(s: Sys, a: Action, r: Reading)
    requires a.Issuing?
    ensures Step(s, a, r).disks == s.disks && Step(s, a, r).live == s.live
  {
  }

  lemma BeginFiles(s: Sys, g: Id, rows: seq<Row>, r: Reading)
    ensures var t := Begin(s, g, rows, r);
      && t.disks == s.disks && (forall h :: h in t.live && h != g ==> h in s.live && t.live[h] == s.live[h])
      && (g in t.live ==> (g in s.live && t.live[g] == s.live[g]) || (MayConsume(s, g, rows, r) && t.live[g] == Applier(rows, [], Started)))
  {
    hide Begin, MayConsume, Over;
    if g in s.grants && s.grants[g].state.Issued? { Begins(s, g, rows, r); }
    else if g in s.grants { NoBegin(s, g, rows, r); }
    else { UnknownGrant(s, g, rows, r); }
  }

  lemma OthersFiles(s: Sys, a: Action, r: Reading)
    requires !a.Advancing? && !a.Tampering?
    ensures Step(s, a, r).disks == s.disks
  {
    hide Begin, Survey, Continue, MayConsume, StoreRuns.Next;
    match a
    case Issuing(_, _, _, _, _, _, _, _, _) => IssueFiles(s, a, r);
    case Beginning(g, rows) => BeginFiles(s, g, rows, r);
    case Surveying(c, g) => SurveyFiles(s, c, g, r);
    case Rescuing(c, g) => RescueFiles(s, c, g, r);
    case Crashing(_, _, _) =>
    case StoreStep(_, _) =>
  }

  /** Nobody but a running call changes a file. */
  lemma ChangedByCall(s: Sys, e: Event, ws: Id, p: Path)
    requires CallsOk(s) && !e.action.Tampering?
    requires BytesAt(DiskOf(After(s, e), ws), p) != BytesAt(DiskOf(s, ws), p)
    ensures e.action.Advancing? && Writes(s, e, e.action.g, ws, p, BytesAt(DiskOf(After(s, e), ws), p))
  {
    hide Step, CallsOk, Writable;
    if !e.action.Advancing? { OthersFiles(s, e.action, e.reading); }
    var g := e.action.g;
    if g !in s.live { Idle(s, g, e.reading); }
    assert CallOk(s, g) by { OneCall(s, g); }
    FilesExactly(s, g, e.reading);
  }

  lemma OneCall(s: Sys, g: Id)
    requires CallsOk(s) && g in s.live
    ensures CallOk(s, g)
  {
  }

  lemma Idle(s: Sys, g: Id, r: Reading)
    requires g !in s.live
    ensures Step(s, Advancing(g), r) == s
  {
  }

  // ---------------------------------------------------------------- where a call came from

  /** Call `g` is running, and is `x`. */
  predicate Stands(s: Sys, g: Id, x: Applier) { g in s.live && s.live[g] == x }

  /** A call comes to stand somewhere by its own step, or by beginning. */
  lemma CameTo(s: Sys, a: Action, r: Reading, g: Id, x: Applier)
    requires Sound(s) && CallsOk(s) && Permitted(s, a) && Stands(Step(s, a, r), g, x) && !Stands(s, g, x)
    ensures || (a == Advancing(g) && CallOk(s, g) && s.live[g].rows == x.rows)
            || (a.Beginning? && a.g == g && MayConsume(s, g, a.rows, r) && x == Applier(a.rows, [], Started))
  {
    hide Step, Sound, CallsOk, MayConsume;
    match a
    case Issuing(_, _, _, _, _, _, _, _, _) => IssueFiles(s, a, r);
    case Beginning(h, rows) => BeginStep(s, h, rows, r);
    case Advancing(h) =>
      if h in s.live { OneCall(s, h); StepKeepsCall(s, h, r); } else { Idle(s, h, r); }
    case _ => SameLive(s, a, r);
  }

  lemma BeginStep(s: Sys, h: Id, rows: seq<Row>, r: Reading)
    ensures var t := Step(s, Beginning(h, rows), r);
      && (forall g :: g in t.live && g != h ==> g in s.live && t.live[g] == s.live[g])
      && (h in t.live ==> (h in s.live && t.live[h] == s.live[h]) || (MayConsume(s, h, rows, r) && t.live[h] == Applier(rows, [], Started)))
  {
    hide Begin, MayConsume;
    BeginFiles(s, h, rows, r);
  }

  lemma SameLive(s: Sys, a: Action, r: Reading)
    requires !a.Issuing? && !a.Beginning? && !a.Advancing?
    ensures forall g :: g in Step(s, a, r).live ==> g in s.live && Step(s, a, r).live[g] == s.live[g]
  {
    hide Survey, Continue, StoreRuns.Next;
    match a
    case Surveying(c, g) => SurveyEffect(s, c, g, r);
    case Rescuing(c, g) => ContinueCalls(s, c, g, r);
    case Crashing(_, _, _) =>
    case StoreStep(_, _) =>
    case Tampering(_, _, _) =>
  }

  /** At this step the call for `g` was let write operation `j`: it came from its check, its authority was fresh,
      and the file was as the plan expects it. */
  ghost predicate LetWrite(s: Sys, e: Event, g: Id, j: nat) {
    && e.action == Advancing(g) && CallOk(s, g) && s.live[g].pc == Checking(j) && j < |s.live[g].rows|
    && Cleared(s, g, e.reading) && Shows(s, g, j, s.live[g].rows[j].pre)
  }

  /** Over any run, a call that stands before a write was let write by the last step it took. */
  lemma WriteWasLet(known: map<Id, Id>, disks: map<Id, Disk>, es: seq<Event>, i: nat, g: Id) returns (m: nat)
    requires PermittedRun(NewSystem(known, disks), es) && i < |es|
    requires var s := At(NewSystem(known, disks), es, i); g in s.live && s.live[g].pc.Writing?
    ensures var n := NewSystem(known, disks);
      && m < i && LetWrite(At(n, es, m), es[m], g, At(n, es, i).live[g].pc.i)
      && At(n, es, m).live[g].rows == At(n, es, i).live[g].rows
      && forall k :: m < k <= i ==> Stands(At(n, es, k), g, At(n, es, i).live[g])
  {
    hide Step, Run, Sound, CallsOk, Permitted, PermittedRun, MayConsume, Cleared, Shows;
    var n := NewSystem(known, disks);
    var x := At(n, es, i).live[g];
    AtEnds(n, es);
    var p := (j: nat) => j <= |es| && Stands(At(n, es, j), g, x);
    m := TurningPoint(i, p);
    forall k | m < k <= i ensures Stands(At(n, es, k), g, x) { assert p(k); }
    StepAt(known, disks, es, m);
    var s := At(n, es, m);
    CameTo(s, es[m].action, es[m].reading, g, x);
    ProceedsExactly(s, g, es[m].reading, x.pc);
  }

  lemma CallAllowed(s: Sys, g: Id, j: nat)
    requires Sound(s) && CallOk(s, g) && j < |s.live[g].rows|
    ensures Allows(s.grants[g], s.live[g].rows[j])
  {
    hide StoreRuns.Inv, Allows, InScope;
    assert TxOk(s, g);
    ScopeBySegments(s.txs[g].rows, s.grants[g]);
  }

  /** Over any run, whenever a file changes other than by somebody overwriting it, a running call changed it: in
      the workspace of its grant, on a path of its plan that its grant allows, putting there what the plan says
      or what it backed up; and a write was let by a step at which the grant was in force, its task running under
      its unexpired lease for a fresh worker in session, the workspace open and the file as expected. */
  lemma WrittenUnderAuthority(known: map<Id, Id>, disks: map<Id, Disk>, es: seq<Event>, i: nat, ws: Id, p: Path) returns (g: Id, m: nat)
    requires PermittedRun(NewSystem(known, disks), es) && i < |es| && !es[i].action.Tampering?
    requires var n := NewSystem(known, disks); BytesAt(DiskOf(At(n, es, i + 1), ws), p) != BytesAt(DiskOf(At(n, es, i), ws), p)
    ensures var n := NewSystem(known, disks);
      var s := At(n, es, i);
      && Writes(s, es[i], g, ws, p, BytesAt(DiskOf(At(n, es, i + 1), ws), p))
      && (s.live[g].pc.Writing? ==>
            && Allows(s.grants[g], s.live[g].rows[s.live[g].pc.i])
            && m < i && LetWrite(At(n, es, m), es[m], g, s.live[g].pc.i) && At(n, es, m).live[g].rows == s.live[g].rows)
  {
    hide Step, Run, Sound, CallsOk, Permitted, PermittedRun, LetWrite, Allows;
    var n := NewSystem(known, disks);
    StepAt(known, disks, es, i);
    var s := At(n, es, i);
    AfterIsStep(s, es[i]);
    ChangedByCall(s, es[i], ws, p);
    g, m := es[i].action.g, 0;
    if s.live[g].pc.Writing? {
      CallAllowed(s, g, s.live[g].pc.i);
      m := WriteWasLet(known, disks, es, i, g);
    }
  }

  lemma AfterIsStep(s: Sys, e: Event)
    ensures After(s, e) == Step(s, e.action, e.reading)
  {
  }

  // ---------------------------------------------------------------- where a grant came from

  predicate InState(s: Sys, g: Id, st: GrantState) { g in s.grants && s.grants[g].state == st }

  /** Over any run, an applied grant was applied by its own call, in force at its last check, or by a recovery
      that found every planned file written while the task ran. */
  lemma AppliedUnderAuthority(known: map<Id, Id>, disks: map<Id, Disk>, es: seq<Event>, g: Id) returns (i: nat)
    requires PermittedRun(NewSystem(known, disks), es) && InState(Run(NewSystem(known, disks), es), g, Applied)
    ensures i < |es| && EndsWell(At(NewSystem(known, disks), es, i), es[i].action, es[i].reading, g)
  {
    hide Step, Run, Sound, CallsOk, Permitted, PermittedRun, EndsWell, AcceptedFor;
    var n := NewSystem(known, disks);
    AtEnds(n, es);
    i := TurningPoint(|es|, (j: nat) => j <= |es| && InState(At(n, es, j), g, Applied));
    StepAt(known, disks, es, i);
    var s := At(n, es, i);
    if g in s.grants { AppliedExactly(s, es[i].action, es[i].reading, g); } else { IssuedExactly(s, es[i].action, es[i].reading, g); }
  }

  /** Over any run, a grant that applies, or has applied or failed, was consumed when it might be. */
  lemma ConsumedUnderAuthority(known: map<Id, Id>, disks: map<Id, Disk>, es: seq<Event>, g: Id) returns (i: nat)
    requires PermittedRun(NewSystem(known, disks), es) && InState(Run(NewSystem(known, disks), es), g, Applying)
    ensures i < |es| && es[i].action.Beginning? && es[i].action.g == g
    ensures MayConsume(At(NewSystem(known, disks), es, i), g, es[i].action.rows, es[i].reading)
  {
    hide Step, Run, Sound, CallsOk, Permitted, PermittedRun, MayConsume;
    var n := NewSystem(known, disks);
    AtEnds(n, es);
    i := TurningPoint(|es|, (j: nat) => j <= |es| && InState(At(n, es, j), g, Applying));
    StepAt(known, disks, es, i);
    var s := At(n, es, i);
    if g in s.grants { ConsumedExactly(s, es[i].action, es[i].reading, g); } else { IssuedExactly(s, es[i].action, es[i].reading, g); }
  }

  /** The columns a grant is issued with. */
  ghost predicate IssuedAs(s: Sys, e: Event, grant: Grant) {
    && e.action.Issuing? && MayIssue(s, e.action, e.reading)
    && grant.task == e.action.task && grant.worker == e.action.worker && grant.session == e.action.session && grant.lease == e.action.lease
    && grant.workspace == e.action.ws && grant.target == s.world.db.tasks[e.action.task].target
    && grant.kinds == e.action.kinds && grant.prefixes == e.action.prefixes
    && grant.expires <= s.world.db.tasks[e.action.task].lease.value.expires && grant.expires <= e.reading.now + e.action.seconds
  }

  lemma ColumnsStay(s: Sys, a: Action, r: Reading, g: Id)
    requires Sound(s) && Permitted(s, a) && g in s.grants
    ensures var t := Step(s, a, r); g in t.grants && t.grants[g] == s.grants[g].(state := t.grants[g].state)
  {
    hide Step, Sound, MayConsume, Permitted;
    if a.Beginning? && a.g == g {
      BeginColumns(s, g, a.rows, r);
    } else {
      OnlyEnds(s, a, r, g);
    }
  }

  lemma BeginColumns(s: Sys, g: Id, rows: seq<Row>, r: Reading)
    requires g in s.grants
    ensures var t := Step(s, Beginning(g, rows), r); g in t.grants && t.grants[g] == s.grants[g].(state := t.grants[g].state)
  {
    hide Begin, MayConsume, Over;
    if s.grants[g].state.Issued? { Begins(s, g, rows, r); } else { NoBegin(s, g, rows, r); }
  }

  /** Over any run, every grant was issued when it might be, with the columns it has. */
  lemma {:induction false} IssuedUnderAuthority(known: map<Id, Id>, disks: map<Id, Disk>, es: seq<Event>, n: nat, g: Id) returns (i: nat)
    requires PermittedRun(NewSystem(known, disks), es) && n <= |es| && g in At(NewSystem(known, disks), es, n).grants
    ensures i < n && es[i].action.Issuing? && es[i].action.g == g
    ensures IssuedAs(At(NewSystem(known, disks), es, i), es[i], At(NewSystem(known, disks), es, n).grants[g])
    decreases n
  {
    hide Step, Run, Sound, CallsOk, Permitted, PermittedRun, MayIssue;
    var o := NewSystem(known, disks);
    AtEnds(o, es);
    StepAt(known, disks, es, n - 1);
    var s := At(o, es, n - 1);
    if g in s.grants {
      i := IssuedUnderAuthority(known, disks, es, n - 1, g);
      ColumnsStay(s, es[n - 1].action, es[n - 1].reading, g);
    } else {
      i := n - 1;
      IssuedExactly(s, es[i].action, es[i].reading, g);
      IssueTarget(s, es[i].action, es[i].reading);
    }
  }

  lemma IssueTarget(s: Sys, a: Action, r: Reading)
    requires a.Issuing? && MayIssue(s, a, r)
    ensures a.task in s.world.db.tasks && a.ws in s.known && s.known[a.ws] == s.world.db.tasks[a.task].target
  {
  }
}
