/** What became of a grant, told in columns, segments and file images: when it is issued, consumed, lapses,
    lets a file be written and is applied, step by step and over whole runs. */
module GrantHistory {
  import opened Basics
  import opened Store
  import opened Disks
  import opened Execution
  import opened ExecutionRecords
  import Plans
  import Rows = StoreHistory
  import StoreRuns

  // ---------------------------------------------------------------- scope

  /** One of the grant's prefixes is empty, or its segments are an initial part of the path's segments. */
  ghost predicate Covered(path: Path, prefixes: set<Path>) {
    exists p :: p in prefixes && (p == "" || Plans.Segments(p) <= Plans.Segments(path))
  }

  /** The grant allows this operation on this path. */
  ghost predicate Allows(grant: Grant, row: Row) { row.kind in grant.kinds && Covered(row.path, grant.prefixes) }

  /** A text begins with a prefix and a separator, or is the prefix, exactly when its segments begin with the
      prefix's. */
  lemma {:induction false} BeginsBySegments(path: string, prefix: string)
    ensures (path == prefix || prefix + "/" <= path) <==> Plans.Segments(prefix) <= Plans.Segments(path)
  {
    if prefix == "" {
      SegmentsEmpty(path);
    } else if path != "" && path[0] == prefix[0] {
      BeginsBySegments(path[1..], prefix[1..]);
      TextsAlike(path, prefix);
      if path[0] == '/' { SameHead("", Plans.Segments(prefix[1..]), Plans.Segments(path[1..])); }
      else { SameGrown(path[0], Plans.Segments(prefix[1..]), Plans.Segments(path[1..])); }
    } else {
      HeadsDiffer(path, prefix);
    }
  }

  lemma SegmentsEmpty(path: string)
    ensures (path == "" || "" + "/" <= path) <==> Plans.Segments("") <= Plans.Segments(path)
  {
    assert "" + "/" == "/";
  }

  lemma TextsAlike(path: string, prefix: string)
    requires prefix != "" && path != "" && path[0] == prefix[0]
    ensures path == prefix <==> path[1..] == prefix[1..]
    ensures prefix + "/" <= path <==> prefix[1..] + "/" <= path[1..]
  {
    assert path == [path[0]] + path[1..] && prefix == [prefix[0]] + prefix[1..];
    assert prefix + "/" == [prefix[0]] + (prefix[1..] + "/");
    SameFirst(path[0], prefix[1..] + "/", path[1..]);
  }

  lemma SameFirst(c: char, a: string, b: string)
    ensures [c] + a <= [c] + b <==> a <= b
  {
    if [c] + a <= [c] + b { assert a == ([c] + a)[1..] && b == ([c] + b)[1..]; }
  }

  lemma SameHead(x: string, a: seq<string>, b: seq<string>)
    ensures [x] + a <= [x] + b <==> a <= b
  {
    if [x] + a <= [x] + b { assert a == ([x] + a)[1..] && b == ([x] + b)[1..]; }
  }

  lemma SameGrown(c: char, a: seq<string>, b: seq<string>)
    requires a != [] && b != []
    ensures [[c] + a[0]] + a[1..] <= [[c] + b[0]] + b[1..] <==> a <= b
  {
    var x, y := [[c] + a[0]] + a[1..], [[c] + b[0]] + b[1..];
    if x <= y {
      forall i | 0 <= i < |a| ensures i < |b| && a[i] == b[i] {
        assert x[i] == y[i];
        assert ([c] + a[0])[1..] == a[0] && ([c] + b[0])[1..] == b[0];
      }
    }
    if a <= b {
      forall i | 0 <= i < |x| ensures i < |y| && x[i] == y[i] { assert a[i] == b[i]; }
    }
  }

  lemma FirstSegment(v: string)
    requires v != ""
    ensures if v[0] == '/' then Plans.Segments(v)[0] == "" && |Plans.Segments(v)| > 1
            else Plans.Segments(v)[0] != "" && Plans.Segments(v)[0][0] == v[0]
  {
  }

  lemma HeadsDiffer(path: string, prefix: string)
    requires prefix != "" && (path == "" || path[0] != prefix[0])
    ensures !(Plans.Segments(prefix) <= Plans.Segments(path)) && path != prefix && !(prefix + "/" <= path)
  {
    FirstSegment(prefix);
    if path != "" { FirstSegment(path); }
    assert (prefix + "/")[0] == prefix[0];
  }

  lemma CoveredExactly(path: Path, prefixes: set<Path>)
    ensures (exists p :: p in prefixes && Under(path, p)) <==> Covered(path, prefixes)
  {
    hide Plans.Segments;
    if p :| p in prefixes && Under(path, p) { BeginsBySegments(path, p); }
    if Covered(path, prefixes) {
      var p :| p in prefixes && (p == "" || Plans.Segments(p) <= Plans.Segments(path));
      BeginsBySegments(path, p);
      assert Under(path, p);
    }
  }

  /** The code's test of characters is the test of segments. */
  lemma ScopeBySegments(rows: seq<Row>, grant: Grant)
    ensures InScope(rows, grant.kinds, grant.prefixes) <==> forall i :: 0 <= i < |rows| ==> Allows(grant, rows[i])
  {
    hide Covered, Under;
    forall i | 0 <= i < |rows|
      ensures (exists p :: p in grant.prefixes && Under(rows[i].path, p)) <==> Covered(rows[i].path, grant.prefixes)
    {
      CoveredExactly(rows[i].path, grant.prefixes);
    }
  }

  lemma GrantsSound(known: map<Id, Id>, disks: map<Id, Disk>, es: seq<Event>)
    requires PermittedRun(NewSystem(known, disks), es)
    ensures Sound(Run(NewSystem(known, disks), es))
  {
    hide Step;
    NewSystemSound(known, disks);
    RunSound(NewSystem(known, disks), es);
  }

  /** Over every permitted run, every operation of every transaction, so of every applied plan in the log, is
      one its grant allows: of one of its kinds, and under one of its prefixes, segment by segment. */
  lemma LoggedInScope(known: map<Id, Id>, disks: map<Id, Disk>, es: seq<Event>)
    requires PermittedRun(NewSystem(known, disks), es)
    ensures var s := Run(NewSystem(known, disks), es);
      && (forall g :: g in s.txs ==> g in s.grants)
      && (forall g, i :: g in s.txs && 0 <= i < |s.txs[g].rows| ==> Allows(s.grants[g], s.txs[g].rows[i]))
      && (forall k :: 0 <= k < |s.log| ==> s.log[k].grant in s.grants && s.log[k].workspace == s.grants[s.log[k].grant].workspace)
      && (forall k, i :: 0 <= k < |s.log| && 0 <= i < |s.log[k].rows| ==> Allows(s.grants[s.log[k].grant], s.log[k].rows[i]))
  {
    hide Step, StoreRuns.Inv, InScope, Allows, PlanOk;
    var s := Run(NewSystem(known, disks), es);
    GrantsSound(known, disks, es);
    forall g | g in s.txs ensures g in s.grants && forall i :: 0 <= i < |s.txs[g].rows| ==> Allows(s.grants[g], s.txs[g].rows[i]) {
      assert TxOk(s, g);
      ScopeBySegments(s.txs[g].rows, s.grants[g]);
    }
    forall k | 0 <= k < |s.log|
      ensures s.log[k].grant in s.txs && s.log[k].rows == s.txs[s.log[k].grant].rows
      ensures s.log[k].grant in s.grants && s.log[k].workspace == s.grants[s.log[k].grant].workspace
    {
      assert Logged(s, s.log[k]);
    }
  }

  /** Files, transactions, calls and the store are as they were, and grants too, but that this one may lapse
      because it or its lease is over. */
  ghost predicate LeftAlone(s: Sys, t: Sys, g: Id, now: Time) {
    && t == s.(grants := t.grants, refused := t.refused)
    && (|| t.grants == s.grants
        || (&& g in s.grants && s.grants[g].state.Issued? && Over(s.world.db, s.grants[g], now)
            && t.grants == s.grants[g := s.grants[g].(state := Lapsed)]))
  }

  /** The grant has expired, or its lease has, or the task is on another lease or none. */
  predicate Over(db: Db, grant: Grant, now: Time) {
    || grant.expires <= now || grant.task !in db.tasks || db.tasks[grant.task].lease.None?
    || db.tasks[grant.task].lease.value.id != grant.lease || db.tasks[grant.task].lease.value.expires <= now
  }

  // ---------------------------------------------------------------- authority

  /** The grant's task runs under the grant's lease, neither of them expired, for a worker with a fresh heartbeat
      whose session the gateway confirms. */
  predicate Entitled(db: Db, grant: Grant, now: Time, bound: bool) {
    && grant.task in db.tasks && db.tasks[grant.task].state.Running?
    && Rows.OnLeaseOf(db.tasks[grant.task], grant.worker, grant.lease, now) && grant.expires > now
    && Rows.Beats(db, grant.worker, now) && bound
  }

  lemma EntitledIsAuthority(db: Db, grant: Grant, now: Time, bound: bool)
    ensures Authority(db, grant, now, bound) <==> Entitled(db, grant, now, bound)
  {
  }

  /** The workspace is registered for this target, is the registered directory, and is not blocked. */
  predicate Open(s: Sys, ws: Id, target: Id, intact: bool) {
    ws in s.known && s.known[ws] == target && intact && ws !in s.blocked && ws !in s.refused
  }

  /** Entering a workspace succeeds exactly when it is open. Otherwise it is blocked durably when it is
      registered and was refused before or is no longer the registered directory; and refused in memory when it
      is not registered, or was refused before, or has the target and is swapped or blocked. */
  lemma EnteredExactly(s: Sys, ws: Id, target: Id, intact: bool)
    ensures var (t, ok) := Enter(s, ws, target, intact);
      && (ok <==> Open(s, ws, target, intact))
      && t == s.(blocked := t.blocked, refused := t.refused)
      && t.blocked == s.blocked + (if ws in s.known && (ws in s.refused || (s.known[ws] == target && !intact)) then {ws} else {})
      && t.refused == s.refused + (if ws !in s.known || ws in s.refused || (s.known[ws] == target && (!intact || ws in s.blocked)) then {ws} else {})
  {
  }

  // ---------------------------------------------------------------- issuing

  predicate Ending(st: GrantState) { st.Applied? || st.Failed? || st.IntegrityBlocked? }

  /** Grants neither come nor go, and only an applying one changes: it ends. */
  ghost predicate GrantsEnd(s: Sys, t: Sys) {
    && t.grants.Keys == s.grants.Keys
    && forall g :: g in s.grants ==>
         || t.grants[g] == s.grants[g]
         || (s.grants[g].state.Applying? && Ending(t.grants[g].state) && t.grants[g] == s.grants[g].(state := t.grants[g].state))
  }

  lemma FinishedGrants(s: Sys, g: Id, at: Time, t: Sys)
    requires IsFinished(s, g, at, t)
    ensures GrantsEnd(s, t)
  {
    hide AcceptExecution, EnvelopeOf;
  }

  lemma SettledGrants(s: Sys, g: Id, st: GrantState, t: Sys)
    requires IsSettled(s, g, st, t)
    ensures GrantsEnd(s, t)
  {
  }

  lemma ClosedGrants(s: Sys, g: Id, at: Time, t: Sys)
    requires IsClosed(s, g, at, t)
    ensures GrantsEnd(s, t)
  {
    hide IsFinished, IsSettled;
    if IsFinished(s, g, at, t) { FinishedGrants(s, g, at, t); }
    else if IsSettled(s, g, Failed, t) { SettledGrants(s, g, Failed, t); }
    else if IsSettled(s, g, IntegrityBlocked, t) { SettledGrants(s, g, IntegrityBlocked, t); }
  }

  lemma GrantsStay(s: Sys, a: Action, r: Reading)
    requires Sound(s) && Permitted(s, a) && !a.Issuing? && !a.Beginning?
    ensures GrantsEnd(s, Step(s, a, r))
  {
    hide IsClosed, StoreRuns.Inv, StoreRuns.Next, Advance, Continue, Survey;
    var t := Step(s, a, r);
    match a
    case Advancing(g) => var at := AdvanceClosed(s, g, r); ClosedGrants(s, g, at, t);
    case Rescuing(c, g) =>
      RescueEffect(s, c, g, r);
      ClosedGrants(s.(rescues := t.rescues), g, if c in s.rescues then s.rescues[c].at else 0.0, t);
    case Surveying(c, g) => SurveyEffect(s, c, g, r);
    case Crashing(_, _, _) =>
    case StoreStep(_, _) =>
    case Tampering(_, _, _) =>
  }

  /** The lease, session, worker and workspace asked for are in force. */
  predicate MayIssue(s: Sys, a: Action, r: Reading)
    requires a.Issuing?
  {
    var db := s.world.db;
    && a.seconds > 0.0 && a.kinds != {} && a.kinds <= {Create, Replace, Delete} && !r.fault
    && a.task in db.tasks && db.tasks[a.task].state.Running? && Rows.OnLeaseOf(db.tasks[a.task], a.worker, a.lease, r.now)
    && Rows.Beats(db, a.worker, r.now) && r.bound
    && a.ws in s.known && a.ws !in s.refused && s.known[a.ws] == db.tasks[a.task].target && r.intact
    && db.tasks[a.task].capability in db.workers[a.worker].capabilities && db.tasks[a.task].target in db.workers[a.worker].targets
  }

  lemma Issues(s: Sys, a: Action, r: Reading)
    requires a.Issuing? && a.g !in s.grants
    ensures var t := Step(s, a, r);
      && (a.g in t.grants <==> MayIssue(s, a, r))
      && (a.g in t.grants ==>
            && t == s.(grants := s.grants[a.g := t.grants[a.g]])
            && t.grants[a.g] == Grant(a.task, a.worker, a.session, a.lease, a.ws, s.known[a.ws], a.kinds, a.prefixes, t.grants[a.g].expires, Issued)
            && var e := s.world.db.tasks[a.task].lease.value.expires;
              t.grants[a.g].expires == if e < r.now + a.seconds then e else r.now + a.seconds)
  {
  }

  lemma OnlyIssues(s: Sys, a: Action, r: Reading, g: Id)
    requires Sound(s) && Permitted(s, a) && g !in s.grants && !(a.Issuing? && a.g == g)
    ensures g !in Step(s, a, r).grants
  {
    hide StoreRuns.Inv, Books, RescuesOk, InScope, Begin;
    if a.Issuing? { IssueEffect(s, a, r); }
    else if a.Beginning? { BeginEffect(s, a.g, a.rows, r); }
    else { GrantsStay(s, a, r); }
  }

  /** A grant appears exactly when it is issued: for a task running under an unexpired lease of a worker that has a
      fresh heartbeat, the capability and the target, and whose session is confirmed, in a workspace registered for
      the task's target. It ends with the lease or after the seconds asked for, whichever is first. */
  lemma IssuedExactly(s: Sys, a: Action, r: Reading, g: Id)
    requires Sound(s) && Permitted(s, a) && g !in s.grants
    ensures var t := Step(s, a, r);
      && (g in t.grants <==> a.Issuing? && a.g == g && MayIssue(s, a, r))
      && (g in t.grants ==>
            && t == s.(grants := s.grants[g := t.grants[g]])
            && t.grants[g] == Grant(a.task, a.worker, a.session, a.lease, a.ws, s.known[a.ws], a.kinds, a.prefixes, t.grants[g].expires, Issued)
            && var e := s.world.db.tasks[a.task].lease.value.expires;
              t.grants[g].expires == if e < r.now + a.seconds then e else r.now + a.seconds)
  {
    hide Step, Sound, Permitted;
    if a.Issuing? && a.g == g { Issues(s, a, r); } else { OnlyIssues(s, a, r, g); }
  }

  // ---------------------------------------------------------------- consuming

  /** Grant `g` may be consumed for this plan: it and its lease are in force, its workspace is open and no other
      grant applies there, it allows every operation, and every planned file is as the plan expects it. */
  ghost predicate MayConsume(s: Sys, g: Id, rows: seq<Row>, r: Reading) {
    && g in s.grants && s.grants[g].state.Issued?
    && Entitled(s.world.db, s.grants[g], r.now, r.bound)
    && Open(s, s.grants[g].workspace, s.grants[g].target, r.intact) && !r.fault
    && (forall h :: h in s.grants && s.grants[h].state.Applying? ==> s.grants[h].workspace != s.grants[g].workspace)
    && (forall i :: 0 <= i < |rows| ==> Allows(s.grants[g], rows[i]))
    && (forall i :: 0 <= i < |rows| ==> ImageAt(DiskOf(s, s.grants[g].workspace), rows[i].path) == rows[i].pre)
  }

  /** What consuming it does. */
  function ConsumedFor(s: Sys, g: Id, rows: seq<Row>): Sys
    requires g in s.grants
  {
    s.(grants := s.grants[g := s.grants[g].(state := Applying)], txs := s.txs[g := Tx(rows, Applying, None)],
       live := s.live[g := Applier(rows, [], Started)], done := s.done[g := 0])
  }

  lemma ConsumableExactly(s: Sys, g: Id, rows: seq<Row>, r: Reading)
    requires g in s.grants && s.grants[g].state.Issued?
    ensures Consumable(s, g, rows, r) <==>
      && (forall h :: h in s.grants && s.grants[h].state.Applying? ==> s.grants[h].workspace != s.grants[g].workspace)
      && (forall i :: 0 <= i < |rows| ==> Allows(s.grants[g], rows[i])) && !r.fault
      && (forall i :: 0 <= i < |rows| ==> ImageAt(DiskOf(s, s.grants[g].workspace), rows[i].path) == rows[i].pre)
  {
    hide Allows, InScope;
    ScopeBySegments(rows, s.grants[g]);
  }

  lemma BeginsOver(s: Sys, g: Id, rows: seq<Row>, r: Reading)
    requires g in s.grants && s.grants[g].state.Issued? && Over(s.world.db, s.grants[g], r.now)
    ensures Begin(s, g, rows, r) == s.(grants := s.grants[g := s.grants[g].(state := Lapsed)])
    ensures !MayConsume(s, g, rows, r)
  {
  }

  lemma BeginsInForce(s: Sys, g: Id, rows: seq<Row>, r: Reading)
    requires g in s.grants && s.grants[g].state.Issued? && !Over(s.world.db, s.grants[g], r.now)
    ensures var t := Begin(s, g, rows, r);
      if MayConsume(s, g, rows, r) then t == ConsumedFor(s, g, rows) else t == s.(refused := t.refused)
  {
    hide Consumable, Authority, Enter, Allows, Open, Entitled;
    var grant := s.grants[g];
    EntitledIsAuthority(s.world.db, grant, r.now, r.bound);
    EnterEffect(s, grant.workspace, grant.target, r.intact);
    EnteredExactly(s, grant.workspace, grant.target, r.intact);
    var t := EnterAtomic(s, grant.workspace, grant.target, r.intact).0;
    ConsumableExactly(t, g, rows, r);
  }

  lemma Begins(s: Sys, g: Id, rows: seq<Row>, r: Reading)
    requires g in s.grants && s.grants[g].state.Issued?
    ensures var t := Begin(s, g, rows, r);
      if MayConsume(s, g, rows, r) then t == ConsumedFor(s, g, rows) else LeftAlone(s, t, g, r.now)
    ensures var t := Begin(s, g, rows, r);
      && g in t.grants
      && if Over(s.world.db, s.grants[g], r.now) then t == s.(grants := s.grants[g := s.grants[g].(state := Lapsed)]) else t.grants[g].state != Lapsed
  {
    hide Begin, MayConsume, Over;
    if Over(s.world.db, s.grants[g], r.now) { BeginsOver(s, g, rows, r); } else { BeginsInForce(s, g, rows, r); }
  }

  /** A plan with an operation the grant does not allow leaves everything as it was. */
  lemma OutOfScopeRefused(s: Sys, g: Id, rows: seq<Row>, r: Reading, i: nat)
    requires i < |rows| && (g in s.grants ==> !Allows(s.grants[g], rows[i]))
    ensures LeftAlone(s, Step(s, Beginning(g, rows), r), g, r.now)
  {
    hide Allows, Begin;
    if g in s.grants && s.grants[g].state.Issued? { Begins(s, g, rows, r); }
    else if g in s.grants { NoBegin(s, g, rows, r); }
    else { UnknownGrant(s, g, rows, r); }
  }

  /** A grant becomes applying exactly when a plan begins under it that it may be consumed for; then its
      transaction and its call begin, and nothing else happens. */
  lemma ConsumedExactly(s: Sys, a: Action, r: Reading, g: Id)
    requires Sound(s) && Permitted(s, a) && g in s.grants
    ensures var t := Step(s, a, r);
      && g in t.grants
      && (t.grants[g].state.Applying? && !s.grants[g].state.Applying? <==> a.Beginning? && a.g == g && MayConsume(s, g, a.rows, r))
      && (t.grants[g].state.Applying? && !s.grants[g].state.Applying? ==> t == ConsumedFor(s, g, a.rows))
  {
    hide StoreRuns.Inv, Books, RescuesOk, MayConsume, Begin, Over;
    if a.Beginning? && a.g == g {
      if s.grants[g].state.Issued? { Begins(s, g, a.rows, r); } else { NoBegin(s, g, a.rows, r); }
    } else {
      OnlyEnds(s, a, r, g);
    }
  }

  lemma NoBegin(s: Sys, g: Id, rows: seq<Row>, r: Reading)
    requires g in s.grants && !s.grants[g].state.Issued?
    ensures Begin(s, g, rows, r) == s && !MayConsume(s, g, rows, r)
  {
  }

  lemma IssueSpares(s: Sys, a: Action, r: Reading, g: Id)
    requires a.Issuing? && Permitted(s, a) && g in s.grants
    ensures var t := Step(s, a, r); g in t.grants && t.grants[g] == s.grants[g]
  {
    IssueEffect(s, a, r);
  }

  lemma BeginSpares(s: Sys, a: Action, r: Reading, g: Id)
    requires a.Beginning? && Permitted(s, a) && g in s.grants && a.g != g
    ensures var t := Step(s, a, r); g in t.grants && t.grants[g] == s.grants[g]
  {
    hide Begin, MayConsume, Over;
    if a.g in s.grants && s.grants[a.g].state.Issued? { Begins(s, a.g, a.rows, r); }
    else if a.g in s.grants { NoBegin(s, a.g, a.rows, r); }
    else { UnknownGrant(s, a.g, a.rows, r); }
  }

  lemma UnknownGrant(s: Sys, g: Id, rows: seq<Row>, r: Reading)
    requires g !in s.grants
    ensures Begin(s, g, rows, r) == s
  {
  }

  lemma OnlyEnds(s: Sys, a: Action, r: Reading, g: Id)
    requires Sound(s) && Permitted(s, a) && g in s.grants && !(a.Beginning? && a.g == g)
    ensures var t := Step(s, a, r);
      && g in t.grants
      && (|| t.grants[g] == s.grants[g]
          || (s.grants[g].state.Applying? && Ending(t.grants[g].state) && t.grants[g] == s.grants[g].(state := t.grants[g].state)))
  {
    hide Sound, Step, Permitted;
    if a.Issuing? { IssueSpares(s, a, r, g); }
    else if a.Beginning? { BeginSpares(s, a, r, g); }
    else { GrantsStay(s, a, r); }
  }

  /** A grant lapses exactly when a plan begins under it after it or its lease is over. */
  lemma LapsedExactly(s: Sys, a: Action, r: Reading, g: Id)
    requires Sound(s) && Permitted(s, a) && g in s.grants
    ensures var t := Step(s, a, r);
      && g in t.grants
      && (t.grants[g].state.Lapsed? && !s.grants[g].state.Lapsed? <==>
            a.Beginning? && a.g == g && s.grants[g].state.Issued? && Over(s.world.db, s.grants[g], r.now))
      && (t.grants[g].state.Lapsed? && !s.grants[g].state.Lapsed? ==> t == s.(grants := s.grants[g := s.grants[g].(state := Lapsed)]))
  {
    hide StoreRuns.Inv, Books, RescuesOk, MayConsume, Begin, Over;
    if a.Beginning? && a.g == g {
      if s.grants[g].state.Issued? { Begins(s, g, a.rows, r); } else { NoBegin(s, g, a.rows, r); }
    } else {
      OnlyEnds(s, a, r, g);
    }
  }
}
