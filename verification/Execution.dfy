/** Governed file transactions as a machine of atomic steps. Each `BEGIN IMMEDIATE … COMMIT`
    is one step, each file operation is one step, and any number of appliers, recoveries, store
    operations and crashes interleave between them. */
module Execution {
  import opened Basics
  import opened Store
  import opened Disks
  import StoreRuns

  datatype GrantState = Issued | Applying | Applied | Failed | Lapsed | IntegrityBlocked

  datatype Grant = Grant(
    task: Id, worker: Id, session: Id, lease: Id, workspace: Id, target: Id,
    kinds: set<Kind>, prefixes: set<Path>, expires: Time, state: GrantState)

  datatype Envelope = Envelope(
    grant: Id, task: Id, worker: Id, session: Id, lease: Id, workspace: Id, rows: seq<Row>, at: Time)

  /** A row of `execution_transactions`. The manifest column keeps path, operation and images of
      each row; nothing below reads the `data` of a stored row. */
  datatype Tx = Tx(rows: seq<Row>, state: GrantState, evidence: Option<Envelope>)

  /** Where a running `apply` stands. */
  datatype Pc =
    | Started | BackingUp | Checking(i: nat) | Writing(i: nat) | Verifying(i: nat)
    | Final | FinalChecking(i: nat, at: Time) | Committing(at: Time)
    | RollingBack(i: nat) | Confirming(i: nat, good: bool) | Blocking | Closing(undone: bool)

  datatype Applier = Applier(rows: seq<Row>, backups: seq<Option<Bytes>>, pc: Pc)

  /** What a step learns from outside the model: the clock, whether the gateway confirms the
      session, whether the workspace root is the registered directory, and whether anything
      else raises (a hook, a path check, the operating system). */
  datatype Reading = Reading(now: Time, bound: bool, intact: bool, fault: bool)

  datatype Entry = Entry(grant: Id, workspace: Id, rows: seq<Row>)

  /** Where a running `recover` stands: looking at one planned file after the other, about to write its
      verdict, or about to block a workspace because the task left RUNNING. */
  datatype Stage = Looking | Decided(verdict: GrantState) | Losing

  /** One running call of `recover`, with what it has read so far. */
  datatype Rescue = Rescue(grant: Id, at: Time, images: seq<Image>, stage: Stage)

  /** `known` gives the registered target of each workspace, `blocked` the rows durably
      INTEGRITY_BLOCKED, `refused` the registry's in-memory blocks, `live` the running appliers,
      `rescues` the running recoveries by call.
      `done` (operations of a grant now on disk) and `log` (applied plans, in completion order)
      are history. */
  datatype Sys = Sys(
    world: StoreRuns.World, grants: map<Id, Grant>, txs: map<Id, Tx>,
    known: map<Id, Id>, blocked: set<Id>, refused: set<Id>,
    disks: map<Id, Disk>, live: map<Id, Applier>, rescues: map<Id, Rescue>,
    done: map<Id, nat>, log: seq<Entry>)

  function DiskOf(s: Sys, ws: Id): Disk { if ws in s.disks then s.disks[ws] else map[] }

  function SetDisk(s: Sys, ws: Id, d: Disk): Sys { s.(disks := s.disks[ws := d]) }

  predicate IsApplying(s: Sys, g: Id) { g in s.grants && s.grants[g].state.Applying? }

  // ---------------------------------------------------------------- authority

  /** `_authority`. */
  predicate Authority(db: Db, g: Grant, now: Time, bound: bool) {
    && g.task in db.tasks && g.worker in db.workers
    && db.tasks[g.task].state.Running? && HeldBy(db.tasks[g.task], g.worker, g.lease)
    && Unexpired(db.tasks[g.task], now) && g.expires > now
    && Fresh(db.workers[g.worker], now) && bound
  }

  /** `_block_workspace`. */
  function Block(s: Sys, ws: Id): Sys {
    s.(blocked := if ws in s.known then s.blocked + {ws} else s.blocked, refused := s.refused + {ws})
  }

  /** `_workspace_authority`, outside a database transaction. */
  function Enter(s: Sys, ws: Id, target: Id, intact: bool): (Sys, bool) {
    if ws !in s.known || ws in s.refused then (Block(s, ws), false)
    else if s.known[ws] != target then (s, false)
    else if !intact then (Block(s, ws), false)
    else if ws in s.blocked then (s.(refused := s.refused + {ws}), false)
    else (s, true)
  }

  /** The same inside a transaction that is rolled back on failure: the durable block is undone,
      the in-memory one is not. */
  function EnterAtomic(s: Sys, ws: Id, target: Id, intact: bool): (Sys, bool) {
    var (t, ok) := Enter(s, ws, target, intact);
    (s.(refused := t.refused), ok)
  }

  /** `_fresh_authority`. */
  function FreshAuthority(s: Sys, g: Id, r: Reading): (Sys, bool)
    requires g in s.grants
  {
    var grant := s.grants[g];
    if r.fault || !grant.state.Applying? || !Authority(s.world.db, grant, r.now, r.bound) then (s, false)
    else Enter(s, grant.workspace, grant.target, r.intact)
  }

  // ---------------------------------------------------------------- issuing and beginning

  function IssueGrant(s: Sys, g: Id, task: Id, worker: Id, session: Id, lease: Id, ws: Id,
                      kinds: set<Kind>, prefixes: set<Path>, seconds: Time, r: Reading): Sys {
    var db := s.world.db;
    if seconds <= 0.0 || kinds == {} || !(kinds <= {Create, Replace, Delete}) || r.fault
       || task !in db.tasks || worker !in db.workers || !db.tasks[task].state.Running?
       || !HeldBy(db.tasks[task], worker, lease) || !Unexpired(db.tasks[task], r.now)
       || !Fresh(db.workers[worker], r.now) || !r.bound then s
    else if ws !in s.known || ws in s.refused || s.known[ws] != db.tasks[task].target then s
    else if !r.intact then s.(refused := s.refused + {ws})
    else if db.tasks[task].capability !in db.workers[worker].capabilities
            || db.tasks[task].target !in db.workers[worker].targets then s
    else
      var e := db.tasks[task].lease.value.expires;
      var grant := Grant(task, worker, session, lease, ws, db.tasks[task].target, kinds, prefixes,
                         if e < r.now + seconds then e else r.now + seconds, Issued);
      s.(grants := s.grants[g := grant])
  }

  predicate Under(path: Path, prefix: Path) {
    prefix == "" || path == prefix || prefix + "/" <= path
  }

  predicate InScope(rows: seq<Row>, kinds: set<Kind>, prefixes: set<Path>) {
    forall i :: 0 <= i < |rows| ==> rows[i].kind in kinds && exists p :: p in prefixes && Under(rows[i].path, p)
  }

  predicate WorkspaceBusy(s: Sys, g: Id)
    requires g in s.grants
  {
    exists h :: h in s.grants && h != g && s.grants[h].state.Applying? && s.grants[h].workspace == s.grants[g].workspace
  }

  /** The lease named by the grant is no longer a live lease of its task. */
  predicate LeaseGone(db: Db, g: Grant, now: Time) {
    || g.task !in db.tasks || db.tasks[g.task].lease.None?
    || db.tasks[g.task].lease.value.id != g.lease || db.tasks[g.task].lease.value.expires <= now
  }

  predicate Consumable(s: Sys, g: Id, rows: seq<Row>, r: Reading)
    requires g in s.grants
  {
    !WorkspaceBusy(s, g) && InScope(rows, s.grants[g].kinds, s.grants[g].prefixes) && !r.fault && AllPre(DiskOf(s, s.grants[g].workspace), rows)
  }

  function Consume(s: Sys, g: Id, rows: seq<Row>): Sys
    requires g in s.grants
  {
    s.(txs := s.txs[g := Tx(rows, Applying, None)],
       grants := s.grants[g := s.grants[g].(state := Applying)],
       live := s.live[g := Applier(rows, [], Started)],
       done := s.done[g := 0])
  }

  function Lapse(s: Sys, g: Id): Sys
    requires g in s.grants
  {
    s.(grants := s.grants[g := s.grants[g].(state := Lapsed)])
  }

  /** The first transaction of `apply`: consume the grant, or refuse. */
  function Begin(s: Sys, g: Id, rows: seq<Row>, r: Reading): Sys {
    if g !in s.grants || !s.grants[g].state.Issued? then s
    else
      var grant := s.grants[g];
      if grant.expires <= r.now || LeaseGone(s.world.db, grant, r.now) then
        Lapse(s, g)
      else if !Authority(s.world.db, grant, r.now, r.bound) then s
      else
        var (t, ok) := EnterAtomic(s, grant.workspace, grant.target, r.intact);
        if ok && Consumable(s, g, rows, r) then Consume(t, g, rows) else t
  }

  // ---------------------------------------------------------------- one applier, one step

  function Goto(s: Sys, g: Id, pc: Pc): Sys
    requires g in s.live
  {
    s.(live := s.live[g := s.live[g].(pc := pc)])
  }

  /** The exception handler: roll back what was backed up, or close at once. */
  function Raise(s: Sys, g: Id): Sys
    requires g in s.live
  {
    var n := |s.live[g].backups|;
    Goto(s, g, if n > 0 then RollingBack(n) else Closing(true))
  }

  function PathDisk(s: Sys, g: Id): Disk
    requires g in s.grants
  {
    DiskOf(s, s.grants[g].workspace)
  }

  /** A fresh authority check that leads to `pc`. */
  function Authorized(s: Sys, g: Id, pc: Pc, r: Reading): Sys
    requires g in s.live && g in s.grants
  {
    var (t, ok) := FreshAuthority(s, g, r);
    if ok then Goto(t, g, pc) else Raise(t, g)
  }

  function BackUp(s: Sys, g: Id, r: Reading): Sys
    requires g in s.live && g in s.grants
  {
    var a := s.live[g];
    var j := |a.backups|;
    if j >= |a.rows| then Goto(s, g, Checking(0))
    else if r.fault || ImageAt(PathDisk(s, g), a.rows[j].path) != a.rows[j].pre then Raise(s, g)
    else s.(live := s.live[g := a.(backups := a.backups + [BytesAt(PathDisk(s, g), a.rows[j].path)])])
  }

  function Check(s: Sys, g: Id, i: nat, r: Reading): Sys
    requires g in s.live && g in s.grants
  {
    var a := s.live[g];
    if i >= |a.rows| then Goto(s, g, Final)
    else
      var (t, ok) := FreshAuthority(s, g, r);
      if !ok || ImageAt(PathDisk(s, g), a.rows[i].path) != a.rows[i].pre then Raise(t, g)
      else Goto(t, g, Writing(i))
  }

  /** The write is refused by what the file now is. */
  predicate Unwritable(d: Disk, row: Row) {
    match row.kind
    case Create => row.path in d
    case Replace => ImageAt(d, row.path) != row.pre
    case Delete => row.path !in d
    case Unknown => true
  }

  function Write(s: Sys, g: Id, i: nat, r: Reading): Sys
    requires g in s.live && g in s.grants && i < |s.live[g].rows|
  {
    var row := s.live[g].rows[i];
    if r.fault || Unwritable(PathDisk(s, g), row) then Raise(s, g)
    else
      var t := SetDisk(s, s.grants[g].workspace, WriteRow(PathDisk(s, g), row));
      Goto(t.(done := s.done[g := i + 1]), g, Verifying(i))
  }

  function Verify(s: Sys, g: Id, i: nat, r: Reading): Sys
    requires g in s.live && g in s.grants && i < |s.live[g].rows|
  {
    var row := s.live[g].rows[i];
    if r.fault || ImageAt(PathDisk(s, g), row.path) != row.post then Raise(s, g)
    else Goto(s, g, Checking(i + 1))
  }

  function FinalCheck(s: Sys, g: Id, i: nat, at: Time, r: Reading): Sys
    requires g in s.live && g in s.grants
  {
    var a := s.live[g];
    if i >= |a.rows| then Goto(s, g, Committing(at))
    else if r.fault || ImageAt(PathDisk(s, g), a.rows[i].path) != a.rows[i].post then Raise(s, g)
    else Goto(s, g, FinalChecking(i + 1, at))
  }

  function EnvelopeOf(s: Sys, g: Id, rows: seq<Row>, at: Time): Envelope
    requires g in s.grants
  {
    var grant := s.grants[g];
    Envelope(g, grant.task, grant.worker, grant.session, grant.lease, grant.workspace, rows, at)
  }

  /** The three guarded updates of a completion, with the task moved to review. */
  function Complete(s: Sys, g: Id, at: Time): Sys
    requires g in s.grants && g in s.txs
  {
    var rows := s.txs[g].rows;
    s.(txs := s.txs[g := Tx(rows, Applied, Some(EnvelopeOf(s, g, rows, at)))],
       grants := s.grants[g := s.grants[g].(state := Applied)],
       world := s.world.(db := AcceptExecution(s.world.db, s.grants[g].task).db),
       log := s.log + [Entry(g, s.grants[g].workspace, rows)])
  }

  predicate TaskRunning(db: Db, t: Id) { t in db.tasks && db.tasks[t].state.Running? }

  predicate Completable(s: Sys, g: Id) {
    && g in s.grants && s.grants[g].state.Applying? && g in s.txs && s.txs[g].state.Applying?
    && TaskRunning(s.world.db, s.grants[g].task)
  }

  function Retire(s: Sys, g: Id): Sys { s.(live := s.live - {g}) }

  function Commit(s: Sys, g: Id, at: Time, r: Reading): Sys
    requires g in s.live && g in s.grants
  {
    if !Authority(s.world.db, s.grants[g], at, r.bound) then Raise(s, g)
    else
      var (t, ok) := EnterAtomic(s, s.grants[g].workspace, s.grants[g].target, r.intact);
      if !ok || r.fault || !Completable(t, g) then Raise(t, g)
      else Retire(Complete(t, g, at), g)
  }

  /** Undo, last backup first. */
  function Restore(s: Sys, g: Id, i: nat, r: Reading): Sys
    requires g in s.live && g in s.grants && i <= |s.live[g].backups| <= |s.live[g].rows|
  {
    var a := s.live[g];
    if i == 0 then Goto(s, g, Confirming(0, true))
    else if r.fault then Goto(s, g, Blocking)
    else
      var t := SetDisk(s, s.grants[g].workspace, Put(PathDisk(s, g), a.rows[i - 1].path, a.backups[i - 1]));
      var d := if g in s.done && s.done[g] < i - 1 then s.done[g] else i - 1;
      Goto(t.(done := s.done[g := d]), g, RollingBack(i - 1))
  }

  function Confirm(s: Sys, g: Id, i: nat, good: bool, r: Reading): Sys
    requires g in s.live && g in s.grants && |s.live[g].backups| <= |s.live[g].rows|
  {
    var a := s.live[g];
    if i >= |a.backups| then Goto(s, g, if good then Closing(true) else Blocking)
    else if r.fault then Goto(s, g, Blocking)
    else
      var same := ImageAt(PathDisk(s, g), a.rows[i].path) == ImageOf(a.backups[i]);
      Goto(s, g, Confirming(i + 1, good && same))
  }

  /** `_terminalize_failure`. */
  function Close(s: Sys, g: Id, verdict: GrantState): Sys {
    s.(txs := if g in s.txs && s.txs[g].state.Applying? then s.txs[g := s.txs[g].(state := verdict)] else s.txs,
       grants := if IsApplying(s, g) then s.grants[g := s.grants[g].(state := verdict)] else s.grants)
  }

  predicate PcOk(a: Applier) {
    && |a.backups| <= |a.rows|
    && (a.pc.Writing? || a.pc.Verifying? ==> a.pc.i < |a.rows|)
    && (a.pc.RollingBack? ==> a.pc.i <= |a.backups|)
  }

  predicate Undoing(pc: Pc) { pc.RollingBack? || pc.Confirming? || pc.Blocking? || pc.Closing? }

  predicate CheckingAuthority(pc: Pc) { pc.Started? || pc.Checking? || pc.Final? || pc.Committing? }

  function AdvanceUndo(s: Sys, g: Id, r: Reading): Sys
    requires g in s.live && g in s.grants && PcOk(s.live[g]) && Undoing(s.live[g].pc)
  {
    match s.live[g].pc
    case RollingBack(i) => Restore(s, g, i, r)
    case Confirming(i, good) => Confirm(s, g, i, good, r)
    case Blocking => Goto(Block(s, s.grants[g].workspace), g, Closing(false))
    case Closing(undone) => Retire(Close(s, g, if undone then Failed else IntegrityBlocked), g)
  }

  function AdvanceAuthority(s: Sys, g: Id, r: Reading): Sys
    requires g in s.live && g in s.grants && CheckingAuthority(s.live[g].pc)
  {
    match s.live[g].pc
    case Started => Authorized(s, g, BackingUp, r)
    case Checking(i) => Check(s, g, i, r)
    case Final => Authorized(s, g, FinalChecking(0, r.now), r)
    case Committing(at) => Commit(s, g, at, r)
  }

  function AdvanceFiles(s: Sys, g: Id, r: Reading): Sys
    requires g in s.live && g in s.grants && PcOk(s.live[g])
    requires !Undoing(s.live[g].pc) && !CheckingAuthority(s.live[g].pc)
  {
    match s.live[g].pc
    case BackingUp => BackUp(s, g, r)
    case Writing(i) => Write(s, g, i, r)
    case Verifying(i) => Verify(s, g, i, r)
    case FinalChecking(i, at) => FinalCheck(s, g, i, at, r)
  }

  /** One step of the applier of grant `g`. */
  function Advance(s: Sys, g: Id, r: Reading): Sys {
    if g !in s.live || g !in s.grants || !PcOk(s.live[g]) then s
    else if Undoing(s.live[g].pc) then AdvanceUndo(s, g, r)
    else if CheckingAuthority(s.live[g].pc) then AdvanceAuthority(s, g, r)
    else AdvanceFiles(s, g, r)
  }

  // ---------------------------------------------------------------- recovery, one step

  function ImagesOf(d: Disk, rows: seq<Row>): seq<Image> { seq(|rows|, i requires 0 <= i < |rows| => ImageAt(d, rows[i].path)) }

  function Pres(rows: seq<Row>): seq<Image> { seq(|rows|, i requires 0 <= i < |rows| => rows[i].pre) }

  function Posts(rows: seq<Row>): seq<Image> { seq(|rows|, i requires 0 <= i < |rows| => rows[i].post) }

  /** Classify an unfinished transaction from the images read. */
  function Classify(images: seq<Image>, rows: seq<Row>): GrantState {
    if images == Pres(rows) then Failed
    else if images == Posts(rows) then Applied
    else IntegrityBlocked
  }

  /** The checks before the files are read: refuse, or start call `c`. */
  function Survey(s: Sys, c: Id, g: Id, r: Reading): Sys {
    if c in s.rescues || g !in s.grants || g !in s.txs || !s.grants[g].state.Applying? || !s.txs[g].state.Applying? then s
    else
      var (t, ok) := Enter(s, s.grants[g].workspace, s.grants[g].target, r.intact);
      if !ok || r.fault then t else t.(rescues := t.rescues[c := Rescue(g, r.now, [], Looking)])
  }

  function EndCall(s: Sys, c: Id): Sys { s.(rescues := s.rescues - {c}) }

  /** Look at the next planned file. */
  function Look(s: Sys, c: Id, d: Disk, rows: seq<Row>): Sys
    requires c in s.rescues && |s.rescues[c].images| < |rows|
  {
    var k := s.rescues[c];
    s.(rescues := s.rescues[c := k.(images := k.images + [ImageAt(d, rows[|k.images|].path)])])
  }

  /** Mixed images block the workspace before any transaction begins. */
  function Decide(s: Sys, c: Id, ws: Id, rows: seq<Row>): Sys
    requires c in s.rescues
  {
    var v := Classify(s.rescues[c].images, rows);
    var t := if v.IntegrityBlocked? then Block(s, ws) else s;
    t.(rescues := s.rescues[c := s.rescues[c].(stage := Decided(v))])
  }

  /** What a recovery that decided APPLIED writes while the task runs: the updates of grant and
      transaction are guarded by APPLYING and not counted, the task moves in any case. */
  function CompleteLate(s: Sys, g: Id, at: Time): Sys
    requires g in s.grants && g in s.txs
  {
    var rows := s.txs[g].rows;
    var open := s.txs[g].state.Applying?;
    s.(txs := if open then s.txs[g := Tx(rows, Applied, Some(EnvelopeOf(s, g, rows, at)))] else s.txs,
       grants := if IsApplying(s, g) then s.grants[g := s.grants[g].(state := Applied)] else s.grants,
       world := s.world.(db := AcceptExecution(s.world.db, s.grants[g].task).db),
       log := if open then s.log + [Entry(g, s.grants[g].workspace, rows)] else s.log)
  }

  /** The transaction of `recover`; only the update of the task is counted, and losing it rolls back. */
  function Conclude(s: Sys, c: Id, g: Id, v: GrantState): Sys
    requires c in s.rescues && g in s.grants && g in s.txs
  {
    if !v.Applied? then EndCall(Close(s, g, v), c)
    else if TaskRunning(s.world.db, s.grants[g].task) then EndCall(CompleteLate(s, g, s.rescues[c].at), c)
    else s.(rescues := s.rescues[c := s.rescues[c].(stage := Losing)])
  }

  /** One step of call `c`, which recovers grant `g`. */
  function Continue(s: Sys, c: Id, g: Id, r: Reading): Sys {
    if c !in s.rescues || s.rescues[c].grant != g || g !in s.grants || g !in s.txs then s
    else if r.fault then EndCall(s, c)
    else
      var k, rows, ws := s.rescues[c], s.txs[g].rows, s.grants[g].workspace;
      match k.stage
      case Looking => if |k.images| < |rows| then Look(s, c, DiskOf(s, ws), rows) else Decide(s, c, ws, rows)
      case Decided(v) => Conclude(s, c, g, v)
      case Losing => EndCall(Block(s, ws), c)
  }

  // ---------------------------------------------------------------- recovery, undisturbed

  datatype Verdict = Refused | Recovered(state: GrantState) | ReviewLost

  function Settle(s: Sys, g: Id, state: GrantState): Sys
    requires g in s.grants && g in s.txs
  {
    s.(txs := s.txs[g := s.txs[g].(state := state)], grants := s.grants[g := s.grants[g].(state := state)])
  }

  function Judge(s: Sys, g: Id, r: Reading): (Sys, Verdict)
    requires g in s.grants && g in s.txs
  {
    var ws := s.grants[g].workspace;
    if AllPre(DiskOf(s, ws), s.txs[g].rows) then (Settle(s, g, Failed), Recovered(Failed))
    else if AllPost(DiskOf(s, ws), s.txs[g].rows) then
      if TaskRunning(s.world.db, s.grants[g].task) then (Complete(s, g, r.now), Recovered(Applied))
      else (Block(s, ws), ReviewLost)
    else (Settle(Block(s, ws), g, IntegrityBlocked), Recovered(IntegrityBlocked))
  }

  /** What a call of `recover` comes to when nobody else moves meanwhile. */
  function Recover(s: Sys, g: Id, r: Reading): (Sys, Verdict) {
    if g !in s.grants || g !in s.txs || !s.grants[g].state.Applying? || !s.txs[g].state.Applying? then (s, Refused)
    else
      var (t, ok) := Enter(s, s.grants[g].workspace, s.grants[g].target, r.intact);
      if !ok || r.fault then (t, Refused) else Judge(t, g, r)
  }

  // ---------------------------------------------------------------- the machine

  datatype Action =
    | Issuing(g: Id, task: Id, worker: Id, session: Id, lease: Id, ws: Id,
              kinds: set<Kind>, prefixes: set<Path>, seconds: Time)
    | Beginning(g: Id, rows: seq<Row>)
    | Advancing(g: Id)
    | Surveying(c: Id, g: Id)
    | Rescuing(c: Id, g: Id)
    | Crashing(gone: set<Id>, calls: set<Id>, forgotten: set<Id>)
    | StoreStep(a: StoreRuns.Action, now: Time)
    | Tampering(ws: Id, path: Path, content: Option<Bytes>)

  /** A crash loses appliers, with their backups, recoveries, and in-memory blocks; nothing durable. */
  function Crash(s: Sys, gone: set<Id>, calls: set<Id>, forgotten: set<Id>): Sys {
    s.(live := s.live - gone, rescues := s.rescues - calls, refused := s.refused - forgotten)
  }

  function Step(s: Sys, a: Action, r: Reading): Sys {
    match a
    case Issuing(g, t, k, sess, l, ws, kinds, ps, secs) => IssueGrant(s, g, t, k, sess, l, ws, kinds, ps, secs, r)
    case Beginning(g, rows) => Begin(s, g, rows, r)
    case Advancing(g) => Advance(s, g, r)
    case Surveying(c, g) => Survey(s, c, g, r)
    case Rescuing(c, g) => Continue(s, c, g, r)
    case Crashing(gone, calls, forgotten) => Crash(s, gone, calls, forgotten)
    case StoreStep(b, now) => s.(world := StoreRuns.Next(s.world, b, now))
    case Tampering(ws, p, c) => SetDisk(s, ws, Put(DiskOf(s, ws), p, c))
  }
}
