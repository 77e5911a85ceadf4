/** `GovernedExecutionController`: `apply` and `recover` as they run, one database transaction or
    file operation after the other. */
module Controller {
  import opened Basics
  import opened Store
  import opened Disks
  import opened Execution
  import opened ApplySteps
  import opened GrantHistory
  import Calls = RecoveryCalls
  import Records = ExecutionRecords
  import Plans
  import StoreRuns

  class GovernedExecutionController {
    /** The durable rows, the registry's in-memory blocks and the workspace files. */
    var world: StoreRuns.World
    var grants: map<Id, Grant>
    var txs: map<Id, Tx>
    const known: map<Id, Id>
    var blocked: set<Id>
    var refused: set<Id>
    var disks: map<Id, Disk>
    /** The local variables of running calls, and history. */
    var live: map<Id, Applier>
    var rescues: map<Id, Rescue>
    var done: map<Id, nat>
    var log: seq<Entry>

    constructor (known: map<Id, Id>, disks: map<Id, Disk>)
      ensures View() == Records.NewSystem(known, disks)
    {
      this.known, this.disks := known, disks;
      world, grants, txs := StoreRuns.EMPTY_STORE, map[], map[];
      blocked, refused := {}, {};
      live, rescues, done, log := map[], map[], map[], [];
    }

    function View(): Sys reads this {
      Sys(world, grants, txs, known, blocked, refused, disks, live, rescues, done, log)
    }

    // -------------------------------------------------------------- authority

    method BlockWorkspace(ws: Id)
      modifies this
      ensures View() == Block(old(View()), ws)
    {
      if ws in known { blocked := blocked + {ws}; }
      refused := refused + {ws};
    }

    method WorkspaceAuthority(ws: Id, target: Id, intact: bool) returns (ok: bool)
      modifies this
      ensures (View(), ok) == Enter(old(View()), ws, target, intact)
    {
      ok := false;
      if ws !in known || ws in refused {
        BlockWorkspace(ws);
      } else if known[ws] == target {
        if !intact {
          BlockWorkspace(ws);
        } else if ws in blocked {
          refused := refused + {ws};
        } else {
          ok := true;
        }
      }
    }

    /** Inside a transaction whose failure rolls the durable block back. */
    method WorkspaceAuthorityAtomic(ws: Id, target: Id, intact: bool) returns (ok: bool)
      modifies this
      ensures (View(), ok) == EnterAtomic(old(View()), ws, target, intact)
    {
      var durable := blocked;
      ok := WorkspaceAuthority(ws, target, intact);
      blocked := durable;
    }

    method Reauthorize(g: Id, r: Reading) returns (ok: bool)
      requires g in grants
      modifies this
      ensures (View(), ok) == FreshAuthority(old(View()), g, r)
    {
      var grant := grants[g];
      if r.fault || !grant.state.Applying? || !Authority(world.db, grant, r.now, r.bound) {
        ok := false;
      } else {
        ok := WorkspaceAuthority(grant.workspace, grant.target, r.intact);
      }
    }

    // -------------------------------------------------------------- issuing

    method IssueGrant(g: Id, task: Id, worker: Id, session: Id, lease: Id, ws: Id,
                      kinds: set<Kind>, prefixes: set<Path>, seconds: Time, r: Reading)
      modifies this
      ensures View() == Execution.IssueGrant(old(View()), g, task, worker, session, lease, ws, kinds, prefixes, seconds, r)
    {
      if seconds <= 0.0 || kinds == {} || !(kinds <= {Create, Replace, Delete}) || r.fault { return; }
      if task !in world.db.tasks || worker !in world.db.workers { return; }
      var t, w := world.db.tasks[task], world.db.workers[worker];
      if !t.state.Running? || !HeldBy(t, worker, lease) || !Unexpired(t, r.now) || !Fresh(w, r.now) || !r.bound { return; }
      if ws !in known || ws in refused || known[ws] != t.target { return; }
      if !r.intact {
        refused := refused + {ws};
        return;
      }
      if t.capability !in w.capabilities || t.target !in w.targets { return; }
      var expires := if t.lease.value.expires < r.now + seconds then t.lease.value.expires else r.now + seconds;
      grants := grants[g := Grant(task, worker, session, lease, ws, t.target, kinds, prefixes, expires, Issued)];
    }

    // -------------------------------------------------------------- steps of one call

    method MoveTo(g: Id, pc: Pc)
      requires g in live
      modifies this
      ensures View() == Goto(old(View()), g, pc)
    {
      live := live[g := live[g].(pc := pc)];
    }

    method Fail(g: Id)
      requires g in live
      modifies this
      ensures View() == Raise(old(View()), g)
    {
      MoveTo(g, RaisePc(live[g]));
    }

    /** The transaction that consumes the grant, or refuses. */
    method ConsumeRow(g: Id, rows: seq<Row>, r: Reading) returns (ok: bool)
      modifies this
      ensures View() == Begin(old(View()), g, rows, r)
      ensures ok <==> IsApplying(View(), g) && !IsApplying(old(View()), g)
    {
      ok := false;
      if g !in grants || !grants[g].state.Issued? { return; }
      var grant := grants[g];
      if grant.expires <= r.now || LeaseGone(world.db, grant, r.now) {
        grants := grants[g := grant.(state := Lapsed)];
        return;
      }
      if !Authority(world.db, grant, r.now, r.bound) { return; }
      ok := WorkspaceAuthorityAtomic(grant.workspace, grant.target, r.intact);
      if ok && Consumable(View(), g, rows, r) {
        txs := txs[g := Tx(rows, Applying, None)];
        grants := grants[g := grant.(state := Applying)];
        live := live[g := Applier(rows, [], Started)];
        done := done[g := 0];
      } else {
        ok := false;
      }
    }

    /** Consume the grant exactly when it may be consumed for this plan; otherwise leave everything as it was. */
    method Consume(g: Id, rows: seq<Row>, r: Reading) returns (ok: bool)
      modifies this
      ensures View() == Begin(old(View()), g, rows, r)
      ensures ok <==> MayConsume(old(View()), g, rows, r)
      ensures if ok then View() == ConsumedFor(old(View()), g, rows) else LeftAlone(old(View()), View(), g, r.now)
    {
      hide MayConsume, ConsumedFor, LeftAlone;
      ok := ConsumeRow(g, rows, r);
      BeginOutcome(old(View()), g, rows, r);
    }

    method Authorize(g: Id, next: Pc, r: Reading)
      requires g in live && g in grants
      modifies this
      ensures View() == Authorized(old(View()), g, next, r)
    {
      var ok := Reauthorize(g, r);
      if ok { MoveTo(g, next); } else { Fail(g); }
    }

    method BackUpNext(g: Id, r: Reading)
      requires g in live && g in grants
      modifies this
      ensures View() == BackUp(old(View()), g, r)
    {
      var a := live[g];
      var j := |a.backups|;
      if j >= |a.rows| {
        MoveTo(g, Checking(0));
      } else {
        var files := DiskOf(View(), grants[g].workspace);
        if r.fault || ImageAt(files, a.rows[j].path) != a.rows[j].pre {
          Fail(g);
        } else {
          live := live[g := a.(backups := a.backups + [BytesAt(files, a.rows[j].path)])];
        }
      }
    }

    method CheckNext(g: Id, i: nat, r: Reading)
      requires g in live && g in grants
      modifies this
      ensures View() == Check(old(View()), g, i, r)
    {
      var a := live[g];
      if i >= |a.rows| {
        MoveTo(g, Final);
      } else {
        var ok := Reauthorize(g, r);
        if !ok || ImageAt(DiskOf(View(), grants[g].workspace), a.rows[i].path) != a.rows[i].pre {
          Fail(g);
        } else {
          MoveTo(g, Writing(i));
        }
      }
    }

    method WriteNext(g: Id, i: nat, r: Reading)
      requires g in live && g in grants && i < |live[g].rows|
      modifies this
      ensures View() == Write(old(View()), g, i, r)
    {
      var row := live[g].rows[i];
      var ws := grants[g].workspace;
      var files := DiskOf(View(), ws);
      if r.fault || Unwritable(files, row) {
        Fail(g);
      } else {
        disks := disks[ws := WriteRow(files, row)];
        done := done[g := i + 1];
        MoveTo(g, Verifying(i));
      }
    }

    method VerifyWritten(g: Id, i: nat, r: Reading)
      requires g in live && g in grants && i < |live[g].rows|
      modifies this
      ensures View() == Verify(old(View()), g, i, r)
    {
      var row := live[g].rows[i];
      if r.fault || ImageAt(DiskOf(View(), grants[g].workspace), row.path) != row.post {
        Fail(g);
      } else {
        MoveTo(g, Checking(i + 1));
      }
    }

    method FinalCheckNext(g: Id, i: nat, at: Time, r: Reading)
      requires g in live && g in grants
      modifies this
      ensures View() == FinalCheck(old(View()), g, i, at, r)
    {
      var a := live[g];
      if i >= |a.rows| {
        MoveTo(g, Committing(at));
      } else if r.fault || ImageAt(DiskOf(View(), grants[g].workspace), a.rows[i].path) != a.rows[i].post {
        Fail(g);
      } else {
        MoveTo(g, FinalChecking(i + 1, at));
      }
    }

    /** The three guarded updates of a completion. */
    method CompleteRows(g: Id, at: Time)
      requires g in grants && g in txs
      modifies this
      ensures View() == Complete(old(View()), g, at)
    {
      var rows := txs[g].rows;
      var grant := grants[g];
      txs := txs[g := Tx(rows, Applied, Some(EnvelopeOf(View(), g, rows, at)))];
      grants := grants[g := grant.(state := Applied)];
      world := world.(db := AcceptExecution(world.db, grant.task).db);
      log := log + [Entry(g, grant.workspace, rows)];
    }

    method CommitEvidence(g: Id, at: Time, r: Reading)
      requires g in live && g in grants
      modifies this
      ensures View() == Commit(old(View()), g, at, r)
    {
      if !Authority(world.db, grants[g], at, r.bound) {
        Fail(g);
      } else {
        var ok := WorkspaceAuthorityAtomic(grants[g].workspace, grants[g].target, r.intact);
        if !ok || r.fault || !Completable(View(), g) {
          Fail(g);
        } else {
          CompleteRows(g, at);
          live := live - {g};
        }
      }
    }

    method RestoreNext(g: Id, i: nat, r: Reading)
      requires g in live && g in grants && i <= |live[g].backups| <= |live[g].rows|
      modifies this
      ensures View() == Restore(old(View()), g, i, r)
    {
      var a := live[g];
      var ws := grants[g].workspace;
      if i == 0 {
        MoveTo(g, Confirming(0, true));
      } else if r.fault {
        MoveTo(g, Blocking);
      } else {
        disks := disks[ws := Put(DiskOf(View(), ws), a.rows[i - 1].path, a.backups[i - 1])];
        done := done[g := if g in done && done[g] < i - 1 then done[g] else i - 1];
        MoveTo(g, RollingBack(i - 1));
      }
    }

    method ConfirmNext(g: Id, i: nat, good: bool, r: Reading)
      requires g in live && g in grants && |live[g].backups| <= |live[g].rows|
      modifies this
      ensures View() == Confirm(old(View()), g, i, good, r)
    {
      var a := live[g];
      if i >= |a.backups| {
        MoveTo(g, if good then Closing(true) else Blocking);
      } else if r.fault {
        MoveTo(g, Blocking);
      } else {
        var same := ImageAt(DiskOf(View(), grants[g].workspace), a.rows[i].path) == ImageOf(a.backups[i]);
        MoveTo(g, Confirming(i + 1, good && same));
      }
    }

    method BlockForGood(g: Id)
      requires g in live && g in grants
      modifies this
      ensures View() == Goto(Block(old(View()), old(grants[g].workspace)), g, Closing(false))
    {
      BlockWorkspace(grants[g].workspace);
      MoveTo(g, Closing(false));
    }

    /** Record the failed transaction; the call raises after this. */
    method TerminalizeFailure(g: Id, undone: bool)
      modifies this
      ensures View() == Retire(Close(old(View()), g, if undone then Failed else IntegrityBlocked), g)
    {
      var verdict := if undone then Failed else IntegrityBlocked;
      if g in txs && txs[g].state.Applying? { txs := txs[g := txs[g].(state := verdict)]; }
      if g in grants && grants[g].state.Applying? { grants := grants[g := grants[g].(state := verdict)]; }
      live := live - {g};
    }

    /** Whatever the other parties do while a hook of the call for `g` runs. */
    method LetOthers(hook: seq<Event>, g: Id)
      requires ForeignAll(hook, g)
      modifies this
      ensures View() == Records.Run(old(View()), hook)
    {
      hide Step;
      ForeignRunKept(View(), hook, g);
      var t := Records.Run(View(), hook);
      world, grants, txs := t.world, t.grants, t.txs;
      blocked, refused, disks := t.blocked, t.refused, t.disks;
      live, rescues, done, log := t.live, t.rescues, t.done, t.log;
    }

    // -------------------------------------------------------------- the phases of a call

    method BackUpAll(g: Id, rows: seq<Row>, ws: Id, env: Surroundings, ghost s0: Sys, ghost before: seq<Event>)
      returns (ok: bool, ghost es: seq<Event>)
      requires Tracks(s0, before, View(), g, rows, ws) && live[g] == Applier(rows, [], BackingUp)
      requires FromCall(before, g, env)
      modifies this
      ensures Tracks(s0, es, View(), g, rows, ws) && FromCall(es, g, env)
      ensures if ok then live[g].pc == Checking(0) && |live[g].backups| == |rows| else live[g].pc == RaisePc(live[g])
    {
      hide Step;
      es := before;
      for j := 0 to |rows|
        invariant Tracks(s0, es, View(), g, rows, ws) && FromCall(es, g, env)
        invariant live[g].pc.BackingUp? && |live[g].backups| == j
      {
        var r := env.reading(live[g]);
        BackUpStep(s0, es, View(), g, rows, ws, r);
        BackUpNext(g, r);
        es := es + [Own(g, r)];
        if !live[g].pc.BackingUp? { return false, es; }
      }
      var r := env.reading(live[g]);
      BackUpStep(s0, es, View(), g, rows, ws, r);
      BackUpNext(g, r);
      es := es + [Own(g, r)];
      ok := live[g].pc == Checking(0);
    }

    method CheckOne(g: Id, rows: seq<Row>, ws: Id, i: nat, env: Surroundings, ghost s0: Sys, ghost before: seq<Event>)
      returns (ghost es: seq<Event>)
      requires Tracks(s0, before, View(), g, rows, ws) && FromCall(before, g, env) && live[g].pc == Checking(i)
      modifies this
      ensures Tracks(s0, es, View(), g, rows, ws) && FromCall(es, g, env) && live[g] == old(live[g]).(pc := live[g].pc)
      ensures live[g].pc == RaisePc(live[g]) || live[g].pc == if i < |rows| then Writing(i) else Final
      ensures live[g].pc == Writing(i) && i < |rows| ==> ImageAt(DiskOf(View(), ws), rows[i].path) == rows[i].pre
    {
      hide Step;
      var r := env.reading(live[g]);
      CheckStep(s0, before, View(), g, rows, ws, r, i);
      CheckNext(g, i, r);
      es := before + [Own(g, r)];
    }

    method WriteOne(g: Id, rows: seq<Row>, ws: Id, i: nat, env: Surroundings, ghost s0: Sys, ghost before: seq<Event>)
      returns (ghost es: seq<Event>)
      requires Tracks(s0, before, View(), g, rows, ws) && FromCall(before, g, env)
      requires live[g].pc == Writing(i) && |live[g].backups| == |rows|
      requires ImageAt(DiskOf(View(), ws), rows[i].path) == rows[i].pre
      modifies this
      ensures Tracks(s0, es, View(), g, rows, ws) && FromCall(es, g, env) && live[g] == old(live[g]).(pc := live[g].pc)
      ensures live[g].pc == RaisePc(live[g]) || live[g].pc == Verifying(i)
    {
      hide Step;
      var r := env.reading(live[g]);
      WriteStep(s0, before, View(), g, rows, ws, r, i);
      WriteNext(g, i, r);
      es := before + [Own(g, r)];
    }

    method VerifyOne(g: Id, rows: seq<Row>, ws: Id, i: nat, env: Surroundings, ghost s0: Sys, ghost before: seq<Event>)
      returns (ghost es: seq<Event>)
      requires Tracks(s0, before, View(), g, rows, ws) && FromCall(before, g, env) && live[g].pc == Verifying(i)
      modifies this
      ensures Tracks(s0, es, View(), g, rows, ws) && FromCall(es, g, env) && live[g] == old(live[g]).(pc := live[g].pc)
      ensures live[g].pc == RaisePc(live[g]) || live[g].pc == Checking(i + 1)
    {
      hide Step;
      var r := env.reading(live[g]);
      VerifyStep(s0, before, View(), g, rows, ws, r, i);
      VerifyWritten(g, i, r);
      es := before + [Own(g, r)];
    }

    /** One operation: fresh authority and preimage, the write, its verification, the hook. */
    method ApplyOne(g: Id, rows: seq<Row>, ws: Id, i: nat, env: Surroundings, ghost s0: Sys, ghost before: seq<Event>)
      returns (ok: bool, ghost es: seq<Event>)
      requires Tracks(s0, before, View(), g, rows, ws) && FromCall(before, g, env) && HooksForeign(env, g)
      requires i < |rows| && live[g].pc == Checking(i) && |live[g].backups| == |rows|
      modifies this
      ensures Tracks(s0, es, View(), g, rows, ws) && FromCall(es, g, env) && |live[g].backups| == |rows|
      ensures live[g].pc == if ok then Checking(i + 1) else RaisePc(live[g])
    {
      hide Step;
      ok := false;
      es := CheckOne(g, rows, ws, i, env, s0, before);
      if live[g].pc != Writing(i) { return; }
      es := WriteOne(g, rows, ws, i, env, s0, es);
      if live[g].pc != Verifying(i) { return; }
      es := VerifyOne(g, rows, ws, i, env, s0, es);
      if live[g].pc != Checking(i + 1) { return; }
      HookStep(s0, es, View(), g, rows, ws, env.afterOperation(i));
      LetOthers(env.afterOperation(i), g);
      es := es + env.afterOperation(i);
      ok := true;
    }

    method ApplyAll(g: Id, rows: seq<Row>, ws: Id, env: Surroundings, ghost s0: Sys, ghost before: seq<Event>)
      returns (ok: bool, ghost es: seq<Event>)
      requires Tracks(s0, before, View(), g, rows, ws) && FromCall(before, g, env) && HooksForeign(env, g)
      requires live[g].pc == Checking(0) && |live[g].backups| == |rows|
      modifies this
      ensures Tracks(s0, es, View(), g, rows, ws) && FromCall(es, g, env) && |live[g].backups| == |rows|
      ensures live[g].pc == if ok then Final else RaisePc(live[g])
    {
      hide Step;
      es := before;
      for i := 0 to |rows|
        invariant Tracks(s0, es, View(), g, rows, ws) && FromCall(es, g, env)
        invariant live[g].pc == Checking(i) && |live[g].backups| == |rows|
      {
        ok, es := ApplyOne(g, rows, ws, i, env, s0, es);
        if !ok { return; }
      }
      es := CheckOne(g, rows, ws, |rows|, env, s0, es);
      ok := live[g].pc == Final;
    }

    method FinalCheckOne(g: Id, rows: seq<Row>, ws: Id, i: nat, at: Time, env: Surroundings,
                         ghost s0: Sys, ghost before: seq<Event>)
      returns (ghost es: seq<Event>)
      requires Tracks(s0, before, View(), g, rows, ws) && FromCall(before, g, env)
      requires live[g].pc == FinalChecking(i, at)
      modifies this
      ensures Tracks(s0, es, View(), g, rows, ws) && FromCall(es, g, env)
      ensures disks == old(disks) && live[g] == old(live[g]).(pc := live[g].pc)
      ensures || live[g].pc == RaisePc(live[g])
              || (i >= |rows| && live[g].pc == Committing(at))
              || (i < |rows| && live[g].pc == FinalChecking(i + 1, at) && ImageAt(DiskOf(View(), ws), rows[i].path) == rows[i].post)
    {
      hide Step;
      var r := env.reading(live[g]);
      FinalCheckStep(s0, before, View(), g, rows, ws, r, i, at);
      FinalCheckNext(g, i, at, r);
      es := before + [Own(g, r)];
    }

    method Seal(g: Id, rows: seq<Row>, ws: Id, at: Time, env: Surroundings, ghost s0: Sys, ghost before: seq<Event>)
      returns (ok: bool, ghost es: seq<Event>)
      requires Working(s0, before, View(), g, rows, ws, env) && g in live && live[g].pc == Committing(at) && |live[g].backups| == |rows|
      modifies this
      ensures FromCall(es, g, env) && disks == old(disks)
      ensures !ok ==> Working(s0, es, View(), g, rows, ws, env) && g in live && live[g].pc == RaisePc(live[g])
      ensures ok ==> Ended(s0, es, View(), g, rows, ws, Applied, |rows|) && ApplySteps.Accepted(View(), g, rows)
    {
      hide Step;
      var r := env.reading(live[g]);
      CommitStep(s0, before, View(), g, rows, ws, r, at);
      CommitEvidence(g, at, r);
      es := before + [Own(g, r)];
      ok := g !in live;
    }

    method AuthorizeFinal(g: Id, rows: seq<Row>, ws: Id, env: Surroundings, ghost s0: Sys, ghost before: seq<Event>)
      returns (at: Time, ghost es: seq<Event>)
      requires Working(s0, before, View(), g, rows, ws, env) && g in live && live[g].pc == Final
      modifies this
      ensures Working(s0, es, View(), g, rows, ws, env) && g in live
      ensures live[g] == old(live[g]).(pc := live[g].pc)
      ensures live[g].pc == FinalChecking(0, at) || live[g].pc == RaisePc(live[g])
    {
      hide Step;
      var r := env.reading(live[g]);
      at := r.now;
      AuthorizeStep(s0, before, View(), g, rows, ws, r, FinalChecking(0, at));
      Authorize(g, FinalChecking(0, at), r);
      es := before + [Own(g, r)];
    }

    /** One file of the final verification. */
    method VerifyTurn(g: Id, rows: seq<Row>, ws: Id, i: nat, at: Time, env: Surroundings,
                      ghost s0: Sys, ghost before: seq<Event>, ghost a: Applier)
      returns (ok: bool, ghost es: seq<Event>)
      requires Working(s0, before, View(), g, rows, ws, env) && i < |rows|
      requires live[g] == a.(pc := FinalChecking(i, at)) && PostUpTo(DiskOf(View(), ws), rows, i)
      modifies this
      ensures Working(s0, es, View(), g, rows, ws, env) && g in live
      ensures live[g] == a.(pc := if ok then FinalChecking(i + 1, at) else RaisePc(a))
      ensures ok ==> PostUpTo(DiskOf(View(), ws), rows, i + 1)
    {
      hide FromCall, TouchedBy, Guarded, Records.Run, ImageAt, Step;
      es := FinalCheckOne(g, rows, ws, i, at, env, s0, before);
      ok := live[g].pc == FinalChecking(i + 1, at);
    }

    method VerifyFiles(g: Id, rows: seq<Row>, ws: Id, at: Time, env: Surroundings, ghost s0: Sys, ghost before: seq<Event>)
      returns (ok: bool, ghost es: seq<Event>)
      requires Working(s0, before, View(), g, rows, ws, env) && g in live
      requires live[g].pc == FinalChecking(0, at)
      modifies this
      ensures Working(s0, es, View(), g, rows, ws, env) && g in live
      ensures live[g] == old(live[g]).(pc := if ok then FinalChecking(|rows|, at) else RaisePc(old(live[g])))
      ensures ok ==> PostUpTo(DiskOf(View(), ws), rows, |rows|)
    {
      hide Working, PostUpTo, Step;
      NonePost(DiskOf(View(), ws), rows);
      es := before;
      for i := 0 to |rows|
        invariant Working(s0, es, View(), g, rows, ws, env) && g in live
        invariant live[g] == old(live[g]).(pc := FinalChecking(i, at)) && PostUpTo(DiskOf(View(), ws), rows, i)
      {
        ok, es := VerifyTurn(g, rows, ws, i, at, env, s0, es, old(live[g]));
        if !ok { return; }
      }
      ok := true;
    }

    /** Every file verified again, and on to the commit. */
    method VerifyAll(g: Id, rows: seq<Row>, ws: Id, at: Time, env: Surroundings, ghost s0: Sys, ghost before: seq<Event>)
      returns (ghost es: seq<Event>)
      requires Working(s0, before, View(), g, rows, ws, env) && g in live && live[g].pc == FinalChecking(0, at)
      modifies this
      ensures Working(s0, es, View(), g, rows, ws, env) && g in live
      ensures live[g] == old(live[g]).(pc := live[g].pc)
      ensures live[g].pc == RaisePc(live[g]) || (live[g].pc == Committing(at) && AllPost(DiskOf(View(), ws), rows))
    {
      hide FromCall, TouchedBy, Guarded, Records.Run, ImageAt, Step;
      var ok;
      ok, es := VerifyFiles(g, rows, ws, at, env, s0, before);
      if !ok { return; }
      es := FinalCheckOne(g, rows, ws, |rows|, at, env, s0, es);
    }

    /** Fresh authority once more, every file verified again, and the commit. */
    method Finish(g: Id, rows: seq<Row>, ws: Id, env: Surroundings, ghost s0: Sys, ghost before: seq<Event>)
      returns (ok: bool, ghost es: seq<Event>)
      requires Working(s0, before, View(), g, rows, ws, env) && g in live && live[g].pc == Final && |live[g].backups| == |rows|
      modifies this
      ensures FromCall(es, g, env)
      ensures !ok ==> Working(s0, es, View(), g, rows, ws, env) && g in live && live[g].pc == RaisePc(live[g])
      ensures ok ==> Ended(s0, es, View(), g, rows, ws, Applied, |rows|) && ApplySteps.Accepted(View(), g, rows)
      ensures ok ==> AllPost(DiskOf(View(), ws), rows)
    {
      hide Working, AllPost, Ended, FromCall, ApplySteps.Accepted, Tracks, Records.Run, Records.After, Step;
      InCharge(s0, before, View(), g, rows, ws, env);
      ok := false;
      var at;
      at, es := AuthorizeFinal(g, rows, ws, env, s0, before);
      InCharge(s0, es, View(), g, rows, ws, env);
      if live[g].pc != FinalChecking(0, at) { return; }
      es := VerifyAll(g, rows, ws, at, env, s0, es);
      InCharge(s0, es, View(), g, rows, ws, env);
      if live[g].pc != Committing(at) { return; }
      ok, es := Seal(g, rows, ws, at, env, s0, es);
    }

    method RestoreOne(g: Id, rows: seq<Row>, ws: Id, i: nat, env: Surroundings, ghost s0: Sys, ghost before: seq<Event>)
      returns (ghost es: seq<Event>)
      requires Working(s0, before, View(), g, rows, ws, env) && g in live && live[g].pc == RollingBack(i)
      modifies this
      ensures Working(s0, es, View(), g, rows, ws, env) && g in live
      ensures live[g] == old(live[g]).(pc := live[g].pc)
      ensures live[g].pc == Blocking || live[g].pc == if i == 0 then Confirming(0, true) else RollingBack(i - 1)
    {
      hide Step;
      var r := env.reading(live[g]);
      RestoreStep(s0, before, View(), g, rows, ws, r, i);
      RestoreNext(g, i, r);
      es := before + [Own(g, r)];
    }

    /** Undo the backed-up files, last first. */
    method RestoreFiles(g: Id, rows: seq<Row>, ws: Id, env: Surroundings, ghost s0: Sys, ghost before: seq<Event>)
      returns (ghost es: seq<Event>)
      requires Working(s0, before, View(), g, rows, ws, env) && g in live && live[g].pc == RollingBack(|live[g].backups|)
      modifies this
      ensures Working(s0, es, View(), g, rows, ws, env) && g in live && live[g].backups == old(live[g].backups)
      ensures live[g].pc == Confirming(0, true) || live[g].pc == Blocking
    {
      hide Working, Step;
      es := before;
      for i := |live[g].backups| downto 0
        invariant Working(s0, es, View(), g, rows, ws, env) && g in live && live[g].backups == old(live[g].backups)
        invariant live[g].pc == RollingBack(i)
      {
        es := RestoreOne(g, rows, ws, i + 1, env, s0, es);
        if live[g].pc != RollingBack(i) { return; }
      }
      es := RestoreOne(g, rows, ws, 0, env, s0, es);
    }

    /** The hook comes first. */
    method RestoreAll(g: Id, rows: seq<Row>, ws: Id, env: Surroundings, ghost s0: Sys, ghost before: seq<Event>)
      returns (ghost es: seq<Event>)
      requires Tracks(s0, before, View(), g, rows, ws) && FromCall(before, g, env) && HooksForeign(env, g)
      requires live[g].pc == RollingBack(|live[g].backups|)
      modifies this
      ensures Tracks(s0, es, View(), g, rows, ws) && FromCall(es, g, env) && live[g].backups == old(live[g].backups)
      ensures live[g].pc == Confirming(0, true) || live[g].pc == Blocking
    {
      hide TouchedBy, Guarded, Records.Run, Step;
      HookStep(s0, before, View(), g, rows, ws, env.beforeRollback);
      LetOthers(env.beforeRollback, g);
      es := RestoreFiles(g, rows, ws, env, s0, before + env.beforeRollback);
    }

    method ConfirmOne(g: Id, rows: seq<Row>, ws: Id, i: nat, good: bool, env: Surroundings, ghost s0: Sys, ghost before: seq<Event>)
      returns (same: bool, ghost es: seq<Event>)
      requires Tracks(s0, before, View(), g, rows, ws) && FromCall(before, g, env)
      requires live[g].pc == Confirming(i, good) && i < |live[g].backups|
      modifies this
      ensures Tracks(s0, es, View(), g, rows, ws) && FromCall(es, g, env)
      ensures disks == old(disks) && live[g] == old(live[g]).(pc := live[g].pc)
      ensures live[g].pc == Blocking || live[g].pc == Confirming(i + 1, good && same)
      ensures same <==> BytesAt(DiskOf(View(), ws), rows[i].path) == live[g].backups[i]
    {
      hide Step;
      var r := env.reading(live[g]);
      ConfirmStep(s0, before, View(), g, rows, ws, r, i, good);
      same := ImageAt(DiskOf(View(), ws), rows[i].path) == ImageOf(live[g].backups[i]);
      ImageIsBytes(DiskOf(View(), ws), rows[i].path);
      ConfirmNext(g, i, good, r);
      es := before + [Own(g, r)];
    }

    /** One restored file read back. */
    method ConfirmTurn(g: Id, rows: seq<Row>, ws: Id, i: nat, good: bool, env: Surroundings,
                       ghost s0: Sys, ghost before: seq<Event>, ghost a: Applier)
      returns (ok: bool, still: bool, ghost es: seq<Event>)
      requires Confirmed(s0, before, View(), g, rows, ws, env, a, i, good) && i < |a.backups|
      modifies this
      ensures if ok then Confirmed(s0, es, View(), g, rows, ws, env, a, i + 1, still) else Stuck(s0, es, View(), g, rows, ws, env, a)
    {
      hide FromCall, TouchedBy, Guarded, Records.Run, ImageAt, BytesAt, Step;
      var same;
      same, es := ConfirmOne(g, rows, ws, i, good, env, s0, before);
      still := good && same;
      ok := live[g].pc != Blocking;
    }

    /** Read every restored file back. */
    method ConfirmFiles(g: Id, rows: seq<Row>, ws: Id, env: Surroundings, ghost s0: Sys, ghost before: seq<Event>)
      returns (ok: bool, good: bool, ghost es: seq<Event>)
      requires Working(s0, before, View(), g, rows, ws, env) && g in live && live[g].pc == Confirming(0, true)
      modifies this
      ensures ok ==> Confirmed(s0, es, View(), g, rows, ws, env, old(live[g]), |old(live[g].backups)|, good)
      ensures !ok ==> Stuck(s0, es, View(), g, rows, ws, env, old(live[g]))
    {
      hide Working, Confirmed, Stuck, Tracks, Records.Run, Records.After, Step;
      NoneConfirmed(s0, before, View(), g, rows, ws, env);
      ghost var a := live[g];
      var n := |live[g].backups|;
      good, es := true, before;
      for i := 0 to n
        invariant Confirmed(s0, es, View(), g, rows, ws, env, a, i, good)
      {
        ok, good, es := ConfirmTurn(g, rows, ws, i, good, env, s0, es, a);
        if !ok { return; }
      }
      ok := true;
    }

    /** Only an exact restoration closes as undone. */
    method ConfirmAll(g: Id, rows: seq<Row>, ws: Id, env: Surroundings, ghost s0: Sys, ghost before: seq<Event>)
      returns (ghost es: seq<Event>)
      requires Tracks(s0, before, View(), g, rows, ws) && FromCall(before, g, env) && live[g].pc == Confirming(0, true)
      modifies this
      ensures Tracks(s0, es, View(), g, rows, ws) && FromCall(es, g, env) && live[g].backups == old(live[g].backups)
      ensures live[g].pc == Closing(true) || live[g].pc == Blocking
      ensures live[g].pc == Closing(true) ==> PutBack(DiskOf(View(), ws), rows, live[g].backups, |live[g].backups|)
    {
      hide TouchedBy, Guarded, Records.Run, ImageAt, BytesAt, Step;
      var ok, good;
      ok, good, es := ConfirmFiles(g, rows, ws, env, s0, before);
      if !ok { return; }
      var r := env.reading(live[g]);
      ConfirmStep(s0, es, View(), g, rows, ws, r, |live[g].backups|, good);
      ConfirmNext(g, |live[g].backups|, good, r);
      es := es + [Own(g, r)];
    }

    method Terminalize(g: Id, rows: seq<Row>, ws: Id, undone: bool, env: Surroundings, ghost s0: Sys, ghost before: seq<Event>)
      returns (ghost es: seq<Event>)
      requires Tracks(s0, before, View(), g, rows, ws) && FromCall(before, g, env) && live[g].pc == Closing(undone)
      modifies this
      ensures Ended(s0, es, View(), g, rows, ws, if undone then Failed else IntegrityBlocked, |old(live[g].backups)|)
      ensures FromCall(es, g, env) && disks == old(disks) && blocked == old(blocked) && refused == old(refused)
    {
      hide Step;
      var r := env.reading(live[g]);
      CloseStep(s0, before, View(), g, rows, ws, r, undone);
      TerminalizeFailure(g, undone);
      es := before + [Own(g, r)];
    }

    /** A rollback that cannot be proved blocks the workspace. */
    method GiveUp(g: Id, rows: seq<Row>, ws: Id, env: Surroundings, ghost s0: Sys, ghost before: seq<Event>)
      returns (ghost es: seq<Event>)
      requires Tracks(s0, before, View(), g, rows, ws) && FromCall(before, g, env) && live[g].pc == Blocking
      modifies this
      ensures LockedOut(s0, es, View(), g, rows, ws, old(live[g].backups)) && FromCall(es, g, env)
    {
      hide Step;
      var r := env.reading(live[g]);
      BlockStep(s0, before, View(), g, rows, ws, r);
      BlockForGood(g);
      es := before + [Own(g, r)];
      es := Terminalize(g, rows, ws, false, env, s0, es);
    }

    /** The exception handler. */
    method RollBack(g: Id, rows: seq<Row>, ws: Id, env: Surroundings, ghost s0: Sys, ghost before: seq<Event>)
      returns (ghost es: seq<Event>)
      requires Tracks(s0, before, View(), g, rows, ws) && FromCall(before, g, env) && HooksForeign(env, g)
      requires live[g].pc == RaisePc(live[g])
      modifies this
      ensures FromCall(es, g, env)
      ensures Undone(s0, es, View(), g, rows, ws, old(live[g].backups)) || LockedOut(s0, es, View(), g, rows, ws, old(live[g].backups))
    {
      hide TouchedBy, Guarded, Records.Run, Step;
      es := before;
      if live[g].backups != [] {
        es := RestoreAll(g, rows, ws, env, s0, es);
        if live[g].pc != Blocking { es := ConfirmAll(g, rows, ws, env, s0, es); }
        if live[g].pc == Blocking {
          es := GiveUp(g, rows, ws, env, s0, es);
          return;
        }
      }
      es := Terminalize(g, rows, ws, true, env, s0, es);
    }

    // -------------------------------------------------------------- apply

    /** Everything between the consumed grant and the exception handler. */
    method Attempt(g: Id, rows: seq<Row>, ws: Id, env: Surroundings, ghost s0: Sys, ghost before: seq<Event>)
      returns (ok: bool, ghost es: seq<Event>)
      requires Tracks(s0, before, View(), g, rows, ws) && FromCall(before, g, env) && HooksForeign(env, g)
      requires live[g] == Applier(rows, [], Started)
      modifies this
      ensures FromCall(es, g, env)
      ensures !ok ==> Tracks(s0, es, View(), g, rows, ws) && live[g].pc == RaisePc(live[g])
      ensures ok ==> Ended(s0, es, View(), g, rows, ws, Applied, |rows|) && ApplySteps.Accepted(View(), g, rows)
      ensures ok ==> AllPost(DiskOf(View(), ws), rows)
    {
      hide TouchedBy, Guarded, Records.Run, Step;
      HookStep(s0, before, View(), g, rows, ws, env.beforeFirstWrite);
      LetOthers(env.beforeFirstWrite, g);
      es := before + env.beforeFirstWrite;
      var r := env.reading(live[g]);
      AuthorizeStep(s0, es, View(), g, rows, ws, r, BackingUp);
      Authorize(g, BackingUp, r);
      es := es + [Own(g, r)];
      if !live[g].pc.BackingUp? { return false, es; }
      ok, es := BackUpAll(g, rows, ws, env, s0, es);
      if !ok { return; }
      ok, es := ApplyAll(g, rows, ws, env, s0, es);
      if !ok { return; }
      ok, es := Finish(g, rows, ws, env, s0, es);
    }

    /** `apply`: all or nothing, for every plan, every reading and whatever the hooks do to the
        planned files. A return means every planned file holds its postimage and grant, transaction
        and task moved together; an exception means nothing was touched, or the files were put back,
        or the workspace is blocked. Unless the grant, its authority, its scope, its workspace and the
        files allowed the plan when the call began, nothing was touched. The trace says the call was
        a run of the machine in which all else came from its hooks. */
    method Apply(g: Id, ops: seq<Plans.FileOperation>, u: Plans.Unicode, env: Surroundings)
      returns (outcome: Outcome, ghost rows: seq<Row>, ghost backups: seq<Option<Bytes>>, ghost es: seq<Event>)
      requires HooksForeign(env, g)
      modifies this
      ensures FromCall(es, g, env)
      ensures outcome.Returned? ==>
        && Plans.CanonicalOf(rows, ops, u) && MayConsume(old(View()), g, rows, env.opening)
        && Ended(old(View()), es, View(), g, rows, old(grants[g].workspace), Applied, |rows|)
        && ApplySteps.Accepted(View(), g, rows) && AllPost(DiskOf(View(), old(grants[g].workspace)), rows)
      ensures outcome.Raised? ==>
        || LeftAlone(old(View()), View(), g, env.opening.now)
        || (&& Plans.CanonicalOf(rows, ops, u) && MayConsume(old(View()), g, rows, env.opening)
            && (|| Undone(old(View()), es, View(), g, rows, old(grants[g].workspace), backups)
                || LockedOut(old(View()), es, View(), g, rows, old(grants[g].workspace), backups)))
    {
      hide Step, Plans.PlanFits, Plans.Lists, Plans.CanonicalOf, Canonical, MayConsume;
      outcome, rows, backups, es := Raised, [], [], [];
      var plan := Plans.CanonicalPlan(ops, u);
      if plan.None? { return; }
      rows := plan.value;
      BeginStep(View(), g, plan.value, env.opening);
      var ok := Consume(g, plan.value, env.opening);
      if !ok { return; }
      var ws := grants[g].workspace;
      es := [Records.Event(Beginning(g, rows), env.opening)];
      ok, es := Attempt(g, plan.value, ws, env, old(View()), es);
      if ok { return Returned, rows, backups, es; }
      backups := live[g].backups;
      es := RollBack(g, plan.value, ws, env, old(View()), es);
    }

    // -------------------------------------------------------------- recover

    /** The checks of `recover` before it reads any file. */
    method BeginRecovery(c: Id, g: Id, r: Reading) returns (ok: bool)
      modifies this
      ensures View() == Survey(old(View()), c, g, r)
      ensures ok <==> c !in old(rescues) && c in rescues
    {
      ok := false;
      if c in rescues || g !in grants || g !in txs || !grants[g].state.Applying? || !txs[g].state.Applying? { return; }
      ok := WorkspaceAuthority(grants[g].workspace, grants[g].target, r.intact);
      if ok && !r.fault { rescues := rescues[c := Rescue(g, r.now, [], Looking)]; } else { ok := false; }
    }

    method ReadImage(c: Id, g: Id)
      requires c in rescues && g in grants && g in txs && |rescues[c].images| < |txs[g].rows|
      modifies this
      ensures View() == Look(old(View()), c, PathDisk(old(View()), g), old(txs[g].rows))
    {
      var k := rescues[c];
      var image := ImageAt(DiskOf(View(), grants[g].workspace), txs[g].rows[|k.images|].path);
      rescues := rescues[c := k.(images := k.images + [image])];
    }

    method DecideVerdict(c: Id, g: Id) returns (v: GrantState)
      requires c in rescues && g in grants && g in txs
      modifies this
      ensures View() == Decide(old(View()), c, old(grants[g].workspace), old(txs[g].rows))
      ensures v == Classify(old(rescues[c].images), old(txs[g].rows))
    {
      var k, rows := rescues[c], txs[g].rows;
      if k.images == Pres(rows) {
        v := Failed;
      } else if k.images == Posts(rows) {
        v := Applied;
      } else {
        v := IntegrityBlocked;
        BlockWorkspace(grants[g].workspace);
      }
      rescues := rescues[c := k.(stage := Decided(v))];
    }

    /** The last transaction: guarded updates whose counts are not looked at, and the task, whose count
        is; losing it rolls everything back. */
    method ConcludeRecovery(c: Id, g: Id, v: GrantState) returns (ended: bool)
      requires c in rescues && g in grants && g in txs
      modifies this
      ensures View() == Conclude(old(View()), c, g, v)
      ensures ended <==> c !in rescues
    {
      hide AcceptExecution, TaskRunning;
      var txs0, grants0, log0, grant, rows := txs, grants, log, grants[g], txs[g].rows;
      var open := txs[g].state.Applying?;
      if open { txs := txs[g := if v.Applied? then Tx(rows, Applied, Some(EnvelopeOf(View(), g, rows, rescues[c].at))) else txs[g].(state := v)]; }
      if grant.state.Applying? { grants := grants[g := grant.(state := v)]; }
      if v.Applied? {
        if open { log := log + [Entry(g, grant.workspace, rows)]; }
        if !TaskRunning(world.db, grant.task) {
          txs, grants, log := txs0, grants0, log0;
          rescues := rescues[c := rescues[c].(stage := Losing)];
          return false;
        }
        world := world.(db := AcceptExecution(world.db, grant.task).db);
      }
      rescues := rescues - {c};
      ended := true;
    }

    method LoseReview(c: Id, g: Id)
      requires g in grants
      modifies this
      ensures View() == EndCall(Block(old(View()), old(grants[g].workspace)), c)
    {
      BlockWorkspace(grants[g].workspace);
      rescues := rescues - {c};
    }

    /** Read every planned file. */
    method ReadImages(c: Id, g: Id, r: Reading, ghost s0: Sys)
      requires g in s0.grants && g in s0.txs && !r.fault && View() == Calls.With(s0, c, Calls.Seen(s0, g, r.now, 0))
      modifies this
      ensures View() == Calls.With(s0, c, Calls.Seen(s0, g, r.now, |s0.txs[g].rows|))
    {
      for k := 0 to |txs[g].rows|
        invariant View() == Calls.With(s0, c, Calls.Seen(s0, g, r.now, k))
      {
        Calls.LookNext(s0, c, g, r, r.now, k);
        ReadImage(c, g);
      }
    }

    /** From the images to the verdict. */
    method DecideRecovery(c: Id, g: Id, r: Reading, ghost s0: Sys) returns (v: GrantState)
      requires Calls.Unfinished(s0, g) && c !in s0.rescues && !r.fault
      requires View() == Calls.With(s0, c, Calls.Seen(s0, g, r.now, |s0.txs[g].rows|))
      modifies this
      ensures v == Classify(ImagesOf(PathDisk(s0, g), s0.txs[g].rows), s0.txs[g].rows)
      ensures View() == Calls.With(if v.IntegrityBlocked? then Block(s0, s0.grants[g].workspace) else s0, c,
                                   Rescue(g, r.now, ImagesOf(PathDisk(s0, g), s0.txs[g].rows), Decided(v)))
    {
      Calls.SeenNone(s0, g, r.now);
      ghost var k := rescues[c];
      Calls.Decides(s0, c, g, r, k, Classify(k.images, s0.txs[g].rows));
      v := DecideVerdict(c, g);
    }

    /** From the verdict to the end of the call. */
    method SettleRecovery(c: Id, g: Id, st: GrantState, r: Reading, ghost s0: Sys, ghost t: Sys) returns (v: Verdict)
      requires Calls.Unfinished(s0, g) && c !in s0.rescues && !r.fault
      requires st == Classify(ImagesOf(PathDisk(s0, g), s0.txs[g].rows), s0.txs[g].rows)
      requires t == if st.IntegrityBlocked? then Block(s0, s0.grants[g].workspace) else s0
      requires View() == Calls.With(t, c, Rescue(g, r.now, ImagesOf(PathDisk(s0, g), s0.txs[g].rows), Decided(st)))
      modifies this
      ensures (View(), v) == Judge(s0, g, r)
    {
      hide Classify, ImagesOf, AllPre, AllPost, Conclude, Look, Decide, Step;
      Calls.ClassifyTells(PathDisk(s0, g), s0.txs[g].rows);
      ghost var k := rescues[c];
      if !st.Applied? {
        Calls.ConcludesSettled(t, c, g, r, k, st);
      } else if TaskRunning(s0.world.db, s0.grants[g].task) {
        Calls.ConcludesCompleted(s0, c, g, r, k);
      } else {
        Calls.ConcludesLosing(s0, c, g, r, k);
        Calls.Loses(s0, c, g, r, k.(stage := Losing));
      }
      var ended := ConcludeRecovery(c, g, st);
      if ended {
        v := Recovered(st);
      } else {
        LoseReview(c, g);
        v := ReviewLost;
      }
    }

    /** `recover`, as call `c`, with nobody in between: its steps are a run of the machine, and come to
        the closed form. */
    method Recover(c: Id, g: Id, r: Reading) returns (v: Verdict)
      requires c !in rescues
      modifies this
      ensures (View(), v) == Execution.Recover(old(View()), g, r)
      ensures View() == Records.Run(old(View()), Calls.Call(c, g, r, Calls.Length(old(View()), g, r)))
    {
      hide Step;
      ghost var s0 := View();
      Calls.RecoverIsRun(s0, c, g, r);
      var ok := BeginRecovery(c, g, r);
      if !ok {
        Calls.SurveyRefused(s0, c, g, r);
        return Refused;
      }
      Calls.SurveyStarted(s0, c, g, r);
      ReadImages(c, g, r, s0);
      var st := DecideRecovery(c, g, r, s0);
      v := SettleRecovery(c, g, st, r, s0, if st.IntegrityBlocked? then Block(s0, s0.grants[g].workspace) else s0);
    }
  }

  /** The call for grant `g` is in charge and has come this far. */
  ghost predicate Working(s0: Sys, es: seq<Event>, s: Sys, g: Id, rows: seq<Row>, ws: Id, env: Surroundings) {
    Tracks(s0, es, s, g, rows, ws) && FromCall(es, g, env)
  }

  lemma InCharge(s0: Sys, es: seq<Event>, s: Sys, g: Id, rows: seq<Row>, ws: Id, env: Surroundings)
    requires Working(s0, es, s, g, rows, ws, env)
    ensures g in s.live && FromCall(es, g, env)
  {
  }

  /** The first `n` planned files hold their postimages. */
  ghost predicate PostUpTo(d: Disk, rows: seq<Row>, n: nat) {
    forall k :: 0 <= k < n && k < |rows| ==> ImageAt(d, rows[k].path) == rows[k].post
  }

  lemma NonePost(d: Disk, rows: seq<Row>)
    ensures PostUpTo(d, rows, 0)
  {
  }

  /** The first `n` planned paths hold their original content. */
  ghost predicate PutBack(d: Disk, rows: seq<Row>, backups: seq<Option<Bytes>>, n: nat) {
    n <= |backups| <= |rows| && forall k :: 0 <= k < n ==> BytesAt(d, rows[k].path) == backups[k]
  }

  /** The first `i` restored files have been read back, and `good` says whether they hold their original
      content. */
  ghost predicate Confirmed(s0: Sys, es: seq<Event>, s: Sys, g: Id, rows: seq<Row>, ws: Id, env: Surroundings, a: Applier, i: nat, good: bool) {
    && Working(s0, es, s, g, rows, ws, env) && s.live[g] == a.(pc := Confirming(i, good))
    && (good <==> PutBack(DiskOf(s, ws), rows, a.backups, i))
  }

  /** A file could not be read. */
  ghost predicate Stuck(s0: Sys, es: seq<Event>, s: Sys, g: Id, rows: seq<Row>, ws: Id, env: Surroundings, a: Applier) {
    Working(s0, es, s, g, rows, ws, env) && s.live[g] == a.(pc := Blocking)
  }

  lemma NoneConfirmed(s0: Sys, es: seq<Event>, s: Sys, g: Id, rows: seq<Row>, ws: Id, env: Surroundings)
    requires Working(s0, es, s, g, rows, ws, env) && s.live[g].pc == Confirming(0, true)
    ensures Confirmed(s0, es, s, g, rows, ws, env, s.live[g], 0, true)
  {
  }

  /** The call failed and undid itself: every file it had backed up holds its original bytes, which
      were the plan's preimage, and it changed no other planned file. */
  ghost predicate Undone(s0: Sys, es: seq<Event>, s: Sys, g: Id, rows: seq<Row>, ws: Id, backups: seq<Option<Bytes>>) {
    && Ended(s0, es, s, g, rows, ws, Failed, |backups|)
    && PutBack(DiskOf(s, ws), rows, backups, |backups|)
    && forall k :: 0 <= k < |backups| ==> ImageOf(backups[k]) == rows[k].pre
  }

  /** The call could not prove its rollback: the workspace is blocked, durably and in memory. */
  ghost predicate LockedOut(s0: Sys, es: seq<Event>, s: Sys, g: Id, rows: seq<Row>, ws: Id, backups: seq<Option<Bytes>>) {
    Ended(s0, es, s, g, rows, ws, IntegrityBlocked, |backups|) && ws in s.blocked && ws in s.refused
  }
}
