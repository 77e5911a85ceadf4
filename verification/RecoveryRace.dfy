/** Three runs in which a recovery does not have its grant to itself: beside the running applier it ends
    with a task under review on nothing, or with a log that is ahead of the files; beside a second
    recovery it ends with a task under review on nothing again. */
module RecoveryRace {
  import opened Basics
  import opened Store
  import opened Disks
  import opened Execution
  import opened ExecutionRecords
  import opened ExecutionFiles
  import StoreRuns

  // ---------------------------------------------------------------- the scene

  /** A plan that creates one empty file. */
  const ROW := Row(Create, "a", Absent, Sha(Digest([])), Sha(Digest([])), Some([]))
  const CALM := Reading(1.0, true, true, false)
  const FAULT := Reading(1.0, true, true, true)
  const BEFORE: Disk := map[]
  const AFTER: Disk := map["a" := []]

  const TASK := Task(None, "p", "edit", Running, 0, 0.0, false, true, 0, 1, Some(Lease("w", "l", 50.0)), NoEvidence)
  const WORKER := Worker("local", {"edit"}, {"p"}, 0.0, 100.0, 1)
  const TABLES := Db(map["t" := TASK], map["w" := WORKER], map[])

  function TheGrant(st: GrantState): Grant { Grant("t", "w", "session", "l", "ws", "p", {Create}, {""}, 11.0, st) }

  /** The grant and its transaction in state `st`, one worker, one running task. */
  function Scene(w: StoreRuns.World, st: GrantState, d: Disk, live: map<Id, Applier>, rescues: map<Id, Rescue>, done: nat): Sys {
    Sys(w, map["g" := TheGrant(st)], map["g" := Tx([ROW], st, None)], map["ws" := "p"], {}, {},
        map["ws" := d], live, rescues, map["g" := done], [])
  }

  /** The applier of the grant at `pc`, with what it has backed up. */
  function At(pc: Pc, backups: seq<Option<Bytes>>): map<Id, Applier> { map["g" := Applier([ROW], backups, pc)] }

  const SAVED: seq<Option<Bytes>> := [None]

  // ---------------------------------------------------------------- steps of the applier

  lemma Again<V>(x: V, y: V)
    ensures map["g" := x]["g" := y] == map["g" := y]
  {
  }

  lemma Went(w: StoreRuns.World, d: Disk, pc: Pc, b: seq<Option<Bytes>>, ks: map<Id, Rescue>, n: nat, next: Pc)
    ensures Goto(Scene(w, Applying, d, At(pc, b), ks, n), "g", next) == Scene(w, Applying, d, At(next, b), ks, n)
  {
    Again(Applier([ROW], b, pc), Applier([ROW], b, next));
  }

  /** `s` with the applier at `pc` and file `d`, whatever its rows say. */
  function Moved(s: Sys, d: Disk, pc: Pc, n: nat): Sys {
    s.(disks := map["ws" := d], live := At(pc, SAVED), done := map["g" := n])
  }

  predicate InPlace(s: Sys) { "g" in s.grants && s.grants["g"].workspace == "ws" }

  lemma WentOn(s: Sys, d: Disk, pc: Pc, n: nat, next: Pc)
    ensures Goto(Moved(s, d, pc, n), "g", next) == Moved(s, d, next, n)
  {
    Again(Applier([ROW], SAVED, pc), Applier([ROW], SAVED, next));
  }

  lemma Authorised(w: StoreRuns.World, d: Disk, live: map<Id, Applier>, ks: map<Id, Rescue>, n: nat)
    requires w.db == TABLES
    ensures FreshAuthority(Scene(w, Applying, d, live, ks, n), "g", CALM) == (Scene(w, Applying, d, live, ks, n), true)
  {
  }

  lemma Starts(w: StoreRuns.World, ks: map<Id, Rescue>)
    requires w.db == TABLES
    ensures Advance(Scene(w, Applying, BEFORE, At(Started, []), ks, 0), "g", CALM)
      == Scene(w, Applying, BEFORE, At(BackingUp, []), ks, 0)
  {
    Authorised(w, BEFORE, At(Started, []), ks, 0);
    Went(w, BEFORE, Started, [], ks, 0, BackingUp);
  }

  lemma BacksUp(w: StoreRuns.World, ks: map<Id, Rescue>)
    ensures Advance(Scene(w, Applying, BEFORE, At(BackingUp, []), ks, 0), "g", CALM)
      == Scene(w, Applying, BEFORE, At(BackingUp, SAVED), ks, 0)
    ensures Advance(Scene(w, Applying, BEFORE, At(BackingUp, SAVED), ks, 0), "g", CALM)
      == Scene(w, Applying, BEFORE, At(Checking(0), SAVED), ks, 0)
  {
    assert [] + [BytesAt(BEFORE, "a")] == SAVED;
    Again(Applier([ROW], [], BackingUp), Applier([ROW], SAVED, BackingUp));
    Went(w, BEFORE, BackingUp, SAVED, ks, 0, Checking(0));
  }

  lemma Checks(w: StoreRuns.World, ks: map<Id, Rescue>)
    requires w.db == TABLES
    ensures Advance(Scene(w, Applying, BEFORE, At(Checking(0), SAVED), ks, 0), "g", CALM)
      == Scene(w, Applying, BEFORE, At(Writing(0), SAVED), ks, 0)
  {
    Authorised(w, BEFORE, At(Checking(0), SAVED), ks, 0);
    Went(w, BEFORE, Checking(0), SAVED, ks, 0, Writing(0));
  }

  lemma Writes(w: StoreRuns.World, ks: map<Id, Rescue>)
    ensures Advance(Scene(w, Applying, BEFORE, At(Writing(0), SAVED), ks, 0), "g", CALM)
      == Scene(w, Applying, AFTER, At(Verifying(0), SAVED), ks, 1)
  {
    Again(Applier([ROW], SAVED, Writing(0)), Applier([ROW], SAVED, Verifying(0)));
    Again(0, 1);
    assert map["ws" := BEFORE]["ws" := AFTER] == map["ws" := AFTER];
    assert WriteRow(BEFORE, ROW) == AFTER;
  }

  lemma Verifies(w: StoreRuns.World, ks: map<Id, Rescue>)
    ensures Advance(Scene(w, Applying, AFTER, At(Verifying(0), SAVED), ks, 1), "g", CALM)
      == Scene(w, Applying, AFTER, At(Checking(1), SAVED), ks, 1)
    ensures Advance(Scene(w, Applying, AFTER, At(Checking(1), SAVED), ks, 1), "g", CALM)
      == Scene(w, Applying, AFTER, At(Final, SAVED), ks, 1)
  {
    Went(w, AFTER, Verifying(0), SAVED, ks, 1, Checking(1));
    Went(w, AFTER, Checking(1), SAVED, ks, 1, Final);
  }

  lemma Fails(w: StoreRuns.World, ks: map<Id, Rescue>)
    ensures Advance(Scene(w, Applying, AFTER, At(Final, SAVED), ks, 1), "g", FAULT)
      == Scene(w, Applying, AFTER, At(RollingBack(1), SAVED), ks, 1)
  {
    Went(w, AFTER, Final, SAVED, ks, 1, RollingBack(1));
  }

  lemma Restores(s: Sys)
    requires InPlace(s)
    ensures Advance(Moved(s, AFTER, RollingBack(1), 1), "g", CALM) == Moved(s, BEFORE, RollingBack(0), 0)
    ensures Advance(Moved(s, BEFORE, RollingBack(0), 0), "g", CALM) == Moved(s, BEFORE, Confirming(0, true), 0)
  {
    Again(Applier([ROW], SAVED, RollingBack(1)), Applier([ROW], SAVED, RollingBack(0)));
    Again(1, 0);
    assert map["ws" := AFTER]["ws" := BEFORE] == map["ws" := BEFORE];
    assert Put(AFTER, "a", None) == BEFORE;
    WentOn(s, BEFORE, RollingBack(0), 0, Confirming(0, true));
  }

  lemma Confirms(s: Sys)
    requires InPlace(s)
    ensures Advance(Moved(s, BEFORE, Confirming(0, true), 0), "g", CALM) == Moved(s, BEFORE, Confirming(1, true), 0)
    ensures Advance(Moved(s, BEFORE, Confirming(1, true), 0), "g", CALM) == Moved(s, BEFORE, Closing(true), 0)
  {
    WentOn(s, BEFORE, Confirming(0, true), 0, Confirming(1, true));
    WentOn(s, BEFORE, Confirming(1, true), 0, Closing(true));
  }

  lemma Closes(w: StoreRuns.World, ks: map<Id, Rescue>)
    ensures Advance(Scene(w, Applying, BEFORE, At(Closing(true), SAVED), ks, 0), "g", CALM)
      == Scene(w, Failed, BEFORE, map[], ks, 0)
  {
    Again(Tx([ROW], Applying, None), Tx([ROW], Failed, None));
    Again(TheGrant(Applying), TheGrant(Failed));
    assert At(Closing(true), SAVED) - {"g"} == map[];
  }

  // ---------------------------------------------------------------- steps of a recovery

  const PRE: seq<Image> := [Absent]
  const POST: seq<Image> := [Sha(Digest([]))]

  function K(images: seq<Image>, stage: Stage): Rescue { Rescue("g", 1.0, images, stage) }

  lemma Surveys(w: StoreRuns.World, d: Disk, live: map<Id, Applier>, ks: map<Id, Rescue>, n: nat, c: Id)
    requires c !in ks
    ensures Survey(Scene(w, Applying, d, live, ks, n), c, "g", CALM)
      == Scene(w, Applying, d, live, ks[c := K([], Looking)], n)
  {
  }

  lemma Looks(w: StoreRuns.World, d: Disk, live: map<Id, Applier>, ks: map<Id, Rescue>, n: nat, c: Id)
    requires c in ks && ks[c] == K([], Looking)
    ensures Continue(Scene(w, Applying, d, live, ks, n), c, "g", CALM)
         == Scene(w, Applying, d, live, ks[c := K([ImageAt(d, "a")], Looking)], n)
  {
    assert [] + [ImageAt(d, "a")] == [ImageAt(d, "a")];
  }

  lemma Decides(w: StoreRuns.World, d: Disk, live: map<Id, Applier>, ks: map<Id, Rescue>, n: nat, c: Id, v: GrantState)
    requires c in ks
    requires (ks[c] == K(PRE, Looking) && v == Failed) || (ks[c] == K(POST, Looking) && v == Applied)
    ensures Continue(Scene(w, Applying, d, live, ks, n), c, "g", CALM)
         == Scene(w, Applying, d, live, ks[c := ks[c].(stage := Decided(v))], n)
  {
    assert Pres([ROW]) == PRE && Posts([ROW]) == POST;
    assert PRE[0] != POST[0];
  }

  lemma Settles(w: StoreRuns.World, d: Disk, ks: map<Id, Rescue>, n: nat, c: Id)
    requires c in ks && ks[c] == K(PRE, Decided(Failed))
    ensures Continue(Scene(w, Applying, d, map[], ks, n), c, "g", CALM) == Scene(w, Failed, d, map[], ks - {c}, n)
  {
    Again(Tx([ROW], Applying, None), Tx([ROW], Failed, None));
    Again(TheGrant(Applying), TheGrant(Failed));
  }

  /** The task is under review and nothing stands behind it. */
  ghost predicate Stray(s: Sys, task: Id) {
    UnderReview(s.world.db, task) && EvidenceOf(s.world.db, task) == {} && AppliedFor(s, task) == {}
  }

  /** The last transaction of a recovery that decided APPLIED finds the grant failed. */
  lemma Strays(w: StoreRuns.World, d: Disk, ks: map<Id, Rescue>, n: nat, c: Id)
    requires w.db == TABLES && c in ks && ks[c] == K(POST, Decided(Applied))
    ensures Stray(Continue(Scene(w, Failed, d, map[], ks, n), c, "g", CALM), "t")
  {
  }

  lemma NotConserved(t: Sys, task: Id)
    requires Stray(t, task)
    ensures !Conserved(t)
  {
    assert |EvidenceOf(t.world.db, task)| + |AppliedFor(t, task)| == 0;
  }

  // ---------------------------------------------------------------- permitted runs

  ghost predicate Trail(s: Sys, es: seq<Event>, t: Sys) { Run(s, es) == t && PermittedRun(s, es) }

  lemma {:induction false} PermittedLast(s: Sys, es: seq<Event>, e: Event)
    requires PermittedRun(s, es) && Permitted(Run(s, es), e.action)
    ensures PermittedRun(s, es + [e])
    decreases |es|
  {
    hide Permitted, After;
    if es == [] {
      assert ([] + [e])[1..] == [];
    } else {
      assert (es + [e])[1..] == es[1..] + [e];
      PermittedLast(After(s, es[0]), es[1..], e);
    }
  }

  lemma Then(s: Sys, es: seq<Event>, t: Sys, a: Action, r: Reading, u: Sys) returns (more: seq<Event>)
    requires Trail(s, es, t) && Permitted(t, a) && Step(t, a, r) == u
    ensures Trail(s, more, u)
  {
    more := es + [Event(a, r)];
    hide Permitted, Step, Run, PermittedRun;
    RunLast(s, es, Event(a, r));
    PermittedLast(s, es, Event(a, r));
  }

  lemma Nothing(s: Sys)
    ensures Trail(s, [], s)
  {
  }

  // ---------------------------------------------------------------- the grant is consumed

  function Outset(): Sys { NewSystem(map["ws" := "p"], map["ws" := BEFORE]) }

  const W1 := StoreRuns.Next(StoreRuns.EMPTY_STORE, StoreRuns.Registering("w", "local", {"edit"}, {"p"}, 100.0, 1, 0.0), 0.0)
  const W2 := StoreRuns.Next(W1, StoreRuns.Creating("t", None, "p", "edit", 0, false, true, 1), 0.0)
  const W3 := StoreRuns.Next(W2, StoreRuns.Claiming("t", "w", "l", 50.0), 0.0)
  const W4 := StoreRuns.Next(W3, StoreRuns.Starting("t", "w", "l"), 0.0)

  lemma Worked()
    ensures W1.clock == W2.clock == W3.clock == W4.clock == 0.0 && "l" !in W2.issued
    ensures W4.db == TABLES && W4.issued == map["l" := ("t", "w")]
  {
    assert W1.db == Db(map[], map["w" := WORKER], map[]);
    var queued := TASK.(state := Queued, lease := None);
    assert W2.db == Db(map["t" := queued], map["w" := WORKER], map[]);
    assert Active(W2.db, "w", 0.0) == {};
    assert W3.db == Db(map["t" := TASK.(state := Leased)], map["w" := WORKER], map[]);
  }

  function Ready(w: StoreRuns.World, grants: map<Id, Grant>): Sys {
    Sys(w, grants, map[], map["ws" := "p"], {}, {}, map["ws" := BEFORE], map[], map[], map[], [])
  }

  const ISSUE := Issuing("g", "t", "w", "session", "l", "ws", {Create}, {""}, 10.0)

  lemma Issues(w: StoreRuns.World)
    requires w.db == TABLES
    ensures Step(Ready(w, map[]), ISSUE, CALM) == Ready(w, map["g" := TheGrant(Issued)])
  {
  }

  lemma Begins(w: StoreRuns.World)
    requires w.db == TABLES
    ensures Step(Ready(w, map["g" := TheGrant(Issued)]), Beginning("g", [ROW]), CALM)
      == Scene(w, Applying, BEFORE, At(Started, []), map[], 0)
    ensures Permitted(Ready(w, map["g" := TheGrant(Issued)]), Beginning("g", [ROW]))
  {
    var s := Ready(w, map["g" := TheGrant(Issued)]);
    assert !WorkspaceBusy(s, "g");
    assert "" in s.grants["g"].prefixes && Under("a", "");
    assert InScope([ROW], s.grants["g"].kinds, s.grants["g"].prefixes);
    Again(TheGrant(Issued), TheGrant(Applying));
  }

  /** One more operation of the store. */
  lemma ThenStore(s: Sys, es: seq<Event>, w: StoreRuns.World, a: StoreRuns.Action, w2: StoreRuns.World) returns (more: seq<Event>)
    requires Trail(s, es, Ready(w, map[])) && StoreRuns.Allowed(w, a, 0.0) && !a.Accepting? && StoreRuns.Next(w, a, 0.0) == w2
    ensures Trail(s, more, Ready(w2, map[]))
  {
    hide Trail, StoreRuns.Next, StoreRuns.Allowed;
    more := Then(s, es, Ready(w, map[]), StoreStep(a, 0.0), CALM, Ready(w2, map[]));
  }

  lemma Working() returns (es: seq<Event>)
    ensures Trail(Outset(), es, Ready(W4, map[]))
  {
    hide Trail, StoreRuns.Next;
    Worked();
    Nothing(Outset());
    es := ThenStore(Outset(), [], StoreRuns.EMPTY_STORE, StoreRuns.Registering("w", "local", {"edit"}, {"p"}, 100.0, 1, 0.0), W1);
    es := ThenStore(Outset(), es, W1, StoreRuns.Creating("t", None, "p", "edit", 0, false, true, 1), W2);
    es := ThenStore(Outset(), es, W2, StoreRuns.Claiming("t", "w", "l", 50.0), W3);
    es := ThenStore(Outset(), es, W3, StoreRuns.Starting("t", "w", "l"), W4);
  }

  lemma Consumed() returns (es: seq<Event>)
    ensures Trail(Outset(), es, Scene(W4, Applying, BEFORE, At(Started, []), map[], 0))
  {
    hide Trail, IssueGrant, Begin, Scene;
    Worked();
    Issues(W4);
    Begins(W4);
    es := Working();
    es := Then(Outset(), es, Ready(W4, map[]), ISSUE, CALM, Ready(W4, map["g" := TheGrant(Issued)]));
    es := Then(Outset(), es, Ready(W4, map["g" := TheGrant(Issued)]), Beginning("g", [ROW]), CALM,
               Scene(W4, Applying, BEFORE, At(Started, []), map[], 0));
  }

  // ---------------------------------------------------------------- the applier fails after all

  lemma Written(s: Sys, before: seq<Event>, w: StoreRuns.World) returns (es: seq<Event>)
    requires w.db == TABLES && Trail(s, before, Scene(w, Applying, BEFORE, At(Started, []), map[], 0))
    ensures Trail(s, es, Scene(w, Applying, AFTER, At(Final, SAVED), map[], 1))
  {
    hide Trail, Advance, Scene;
    var a := Advancing("g");
    Starts(w, map[]);
    BacksUp(w, map[]);
    Checks(w, map[]);
    Writes(w, map[]);
    Verifies(w, map[]);
    es := Then(s, before, Scene(w, Applying, BEFORE, At(Started, []), map[], 0), a, CALM,
               Scene(w, Applying, BEFORE, At(BackingUp, []), map[], 0));
    es := Then(s, es, Scene(w, Applying, BEFORE, At(BackingUp, []), map[], 0), a, CALM,
               Scene(w, Applying, BEFORE, At(BackingUp, SAVED), map[], 0));
    es := Then(s, es, Scene(w, Applying, BEFORE, At(BackingUp, SAVED), map[], 0), a, CALM,
               Scene(w, Applying, BEFORE, At(Checking(0), SAVED), map[], 0));
    es := Then(s, es, Scene(w, Applying, BEFORE, At(Checking(0), SAVED), map[], 0), a, CALM,
               Scene(w, Applying, BEFORE, At(Writing(0), SAVED), map[], 0));
    es := Then(s, es, Scene(w, Applying, BEFORE, At(Writing(0), SAVED), map[], 0), a, CALM,
               Scene(w, Applying, AFTER, At(Verifying(0), SAVED), map[], 1));
    es := Then(s, es, Scene(w, Applying, AFTER, At(Verifying(0), SAVED), map[], 1), a, CALM,
               Scene(w, Applying, AFTER, At(Checking(1), SAVED), map[], 1));
    es := Then(s, es, Scene(w, Applying, AFTER, At(Checking(1), SAVED), map[], 1), a, CALM,
               Scene(w, Applying, AFTER, At(Final, SAVED), map[], 1));
  }

  /** The applier puts its file back. */
  lemma Undone(s0: Sys, before: seq<Event>, s: Sys) returns (es: seq<Event>)
    requires InPlace(s) && Trail(s0, before, Moved(s, AFTER, RollingBack(1), 1))
    ensures Trail(s0, es, Moved(s, BEFORE, Closing(true), 0))
  {
    hide Trail, Advance, Moved;
    var a := Advancing("g");
    Restores(s);
    Confirms(s);
    es := Then(s0, before, Moved(s, AFTER, RollingBack(1), 1), a, CALM, Moved(s, BEFORE, RollingBack(0), 0));
    es := Then(s0, es, Moved(s, BEFORE, RollingBack(0), 0), a, CALM, Moved(s, BEFORE, Confirming(0, true), 0));
    es := Then(s0, es, Moved(s, BEFORE, Confirming(0, true), 0), a, CALM, Moved(s, BEFORE, Confirming(1, true), 0));
    es := Then(s0, es, Moved(s, BEFORE, Confirming(1, true), 0), a, CALM, Moved(s, BEFORE, Closing(true), 0));
  }

  lemma SceneMoved(w: StoreRuns.World, ks: map<Id, Rescue>, d: Disk, pc: Pc, n: nat)
    ensures Moved(Scene(w, Applying, BEFORE, map[], ks, 0), d, pc, n) == Scene(w, Applying, d, At(pc, SAVED), ks, n)
  {
  }

  lemma RolledBack(s: Sys, before: seq<Event>, w: StoreRuns.World, ks: map<Id, Rescue>) returns (es: seq<Event>)
    requires Trail(s, before, Scene(w, Applying, AFTER, At(Final, SAVED), ks, 1))
    ensures Trail(s, es, Scene(w, Failed, BEFORE, map[], ks, 0))
  {
    var s1 := Scene(w, Applying, BEFORE, map[], ks, 0);
    assert InPlace(s1);
    hide Trail, Advance, Scene, Moved;
    var a := Advancing("g");
    Fails(w, ks);
    Closes(w, ks);
    es := Then(s, before, Scene(w, Applying, AFTER, At(Final, SAVED), ks, 1), a, FAULT,
               Scene(w, Applying, AFTER, At(RollingBack(1), SAVED), ks, 1));
    SceneMoved(w, ks, AFTER, RollingBack(1), 1);
    es := Undone(s, es, s1);
    SceneMoved(w, ks, BEFORE, Closing(true), 0);
    es := Then(s, es, Scene(w, Applying, BEFORE, At(Closing(true), SAVED), ks, 0), a, CALM,
               Scene(w, Failed, BEFORE, map[], ks, 0));
  }

  lemma DecidedBy(s: Sys, before: seq<Event>, w: StoreRuns.World, d: Disk, live: map<Id, Applier>, ks: map<Id, Rescue>, n: nat, c: Id, v: GrantState)
    returns (es: seq<Event>)
    requires c in ks && ks[c] == K([], Looking) && ((d == BEFORE && v == Failed) || (d == AFTER && v == Applied))
    requires Trail(s, before, Scene(w, Applying, d, live, ks, n))
    ensures Trail(s, es, Scene(w, Applying, d, live, ks[c := K([ImageAt(d, "a")], Decided(v))], n))
  {
    hide Trail, Continue, Scene;
    var ks1 := ks[c := K([ImageAt(d, "a")], Looking)];
    Looks(w, d, live, ks, n, c);
    Decides(w, d, live, ks1, n, c, v);
    assert ks1[c := ks1[c].(stage := Decided(v))] == ks[c := K([ImageAt(d, "a")], Decided(v))];
    es := Then(s, before, Scene(w, Applying, d, live, ks, n), Rescuing(c, "g"), CALM,
               Scene(w, Applying, d, live, ks1, n));
    es := Then(s, es, Scene(w, Applying, d, live, ks1, n), Rescuing(c, "g"), CALM,
               Scene(w, Applying, d, live, ks1[c := ks1[c].(stage := Decided(v))], n));
  }

  lemma LateVerdict(w: StoreRuns.World, ks: map<Id, Rescue>) returns (es: seq<Event>, t: Sys)
    requires w.db == TABLES && ks == map["c" := K([], Looking)]
    ensures Trail(Scene(w, Applying, AFTER, At(Final, SAVED), ks, 1), es, t) && Stray(t, "t")
  {
    hide Trail, Continue, Scene, Stray;
    var s, ks2 := Scene(w, Applying, AFTER, At(Final, SAVED), ks, 1), ks["c" := K(POST, Decided(Applied))];
    Nothing(s);
    es := DecidedBy(s, [], w, AFTER, At(Final, SAVED), ks, 1, "c", Applied);
    assert [ImageAt(AFTER, "a")] == POST;
    es := RolledBack(s, es, w, ks2);
    Strays(w, BEFORE, ks2, 0, "c");
    t := Continue(Scene(w, Failed, BEFORE, map[], ks2, 0), "c", "g", CALM);
    es := Then(s, es, Scene(w, Failed, BEFORE, map[], ks2, 0), Rescuing("c", "g"), CALM, t);
  }

  /** A recovery that starts while the applier of its grant still runs. Everything before and after is
      permitted: the applier writes the whole plan, the recovery reads the files and decides APPLIED,
      the applier's final authority check fails and it puts the file back and closes as FAILED, and
      then the recovery moves the task to review. */
  lemma RaceWithApplier() returns (before: seq<Event>, after: seq<Event>)
    ensures PermittedRun(Outset(), before) && Sound(Run(Outset(), before))
    ensures var s := Run(Outset(), before);
      var s1 := Survey(s, "c", "g", CALM);
      "g" in s.live && !BeingRescued(s, "g") && PermittedRun(s1, after) && Stray(Run(s1, after), "t") && !Conserved(Run(s1, after))
  {
    Worked();
    before := Consumed();
    before := Written(Outset(), before, W4);
    NewSystemSound(map["ws" := "p"], map["ws" := BEFORE]);
    RunSound(Outset(), before);
    Surveys(W4, AFTER, At(Final, SAVED), map[], 1, "c");
    var t;
    after, t := LateVerdict(W4, map["c" := K([], Looking)]);
    NotConserved(t, "t");
  }

  // ---------------------------------------------------------------- the log ahead of the files

  /** The recovery has completed what the applier is still working on. */
  function Overtaken(w: StoreRuns.World, d: Disk, live: map<Id, Applier>, n: nat): Sys {
    Sys(w.(db := AcceptExecution(w.db, "t").db), map["g" := TheGrant(Applied)], map["g" := Tx([ROW], Applied, Some(EVIDENCE))],
        map["ws" := "p"], {}, {}, map["ws" := d], live, map[], map["g" := n], [Entry("g", "ws", [ROW])])
  }

  const EVIDENCE := Envelope("g", "t", "w", "session", "l", "ws", [ROW], 1.0)

  lemma Overtakes(w: StoreRuns.World, ks: map<Id, Rescue>)
    requires w.db == TABLES && ks == map["c" := K(POST, Decided(Applied))]
    ensures Continue(Scene(w, Applying, AFTER, At(Final, SAVED), ks, 1), "c", "g", CALM) == Overtaken(w, AFTER, At(Final, SAVED), 1)
  {
    Again(Tx([ROW], Applying, None), Tx([ROW], Applied, Some(EVIDENCE)));
    Again(TheGrant(Applying), TheGrant(Applied));
    assert ks - {"c"} == map[];
    assert [] + [Entry("g", "ws", [ROW])] == [Entry("g", "ws", [ROW])];
  }

  lemma OvertakenFails(w: StoreRuns.World)
    ensures Advance(Overtaken(w, AFTER, At(Final, SAVED), 1), "g", CALM) == Moved(Overtaken(w, BEFORE, map[], 0), AFTER, RollingBack(1), 1)
    ensures Advance(Moved(Overtaken(w, BEFORE, map[], 0), BEFORE, Closing(true), 0), "g", CALM) == Overtaken(w, BEFORE, map[], 0)
  {
    WentOn(Overtaken(w, BEFORE, map[], 0), AFTER, Final, 1, RollingBack(1));
    assert At(Closing(true), SAVED) - {"g"} == map[];
  }

  lemma Ahead(w: StoreRuns.World)
    ensures var t := Overtaken(w, BEFORE, map[], 0);
      && NoWriter(t, "ws") && "ws" !in t.blocked && DiskOf(t, "ws") == BEFORE
      && Replay(Initial(map["ws" := BEFORE], "ws"), t.log, "ws") == AFTER
  {
    ReplayOne(BEFORE, [], Entry("g", "ws", [ROW]), "ws");
    assert [] + [Entry("g", "ws", [ROW])] == [Entry("g", "ws", [ROW])];
    assert WriteRow(BEFORE, ROW) == AFTER;
    assert [ROW][..0] == [];
    assert WriteRows(BEFORE, [ROW]) == AFTER;
  }

  lemma LogAhead(w: StoreRuns.World, ks: map<Id, Rescue>) returns (es: seq<Event>)
    requires w.db == TABLES && ks == map["c" := K([], Looking)]
    ensures Trail(Scene(w, Applying, AFTER, At(Final, SAVED), ks, 1), es, Overtaken(w, BEFORE, map[], 0))
  {
    var end := Overtaken(w, BEFORE, map[], 0);
    assert InPlace(end);
    hide Trail, Continue, Advance, Scene, Overtaken, Moved;
    var s, ks2 := Scene(w, Applying, AFTER, At(Final, SAVED), ks, 1), ks["c" := K(POST, Decided(Applied))];
    Nothing(s);
    es := DecidedBy(s, [], w, AFTER, At(Final, SAVED), ks, 1, "c", Applied);
    assert [ImageAt(AFTER, "a")] == POST;
    Overtakes(w, ks2);
    OvertakenFails(w);
    es := Then(s, es, Scene(w, Applying, AFTER, At(Final, SAVED), ks2, 1), Rescuing("c", "g"), CALM, Overtaken(w, AFTER, At(Final, SAVED), 1));
    es := Then(s, es, Overtaken(w, AFTER, At(Final, SAVED), 1), Advancing("g"), CALM, Moved(end, AFTER, RollingBack(1), 1));
    es := Undone(s, es, end);
    es := Then(s, es, Moved(end, BEFORE, Closing(true), 0), Advancing("g"), CALM, end);
  }

  /** The same start, but the recovery concludes before the applier's final check: the grant is APPLIED
      and the plan is in the log, then the applier's authority fails, it puts the file back and closes
      nothing. Nobody is left, the workspace is not blocked, and its files are not what the log says. */
  lemma RecoveryOvertakes() returns (before: seq<Event>, after: seq<Event>)
    ensures PermittedRun(Outset(), before)
    ensures var s := Run(Outset(), before);
      var s1 := Survey(s, "c", "g", CALM);
      var t := Run(s1, after);
      && "g" in s.live && !BeingRescued(s, "g") && PermittedRun(s1, after)
      && t.live == map[] && t.rescues == map[] && NoWriter(t, "ws") && "ws" !in t.blocked
      && DiskOf(t, "ws") == BEFORE && Replay(Initial(map["ws" := BEFORE], "ws"), t.log, "ws") == AFTER
  {
    Worked();
    before := Consumed();
    before := Written(Outset(), before, W4);
    Surveys(W4, AFTER, At(Final, SAVED), map[], 1, "c");
    Ahead(W4);
    after := LogAhead(W4, map["c" := K([], Looking)]);
  }

  // ---------------------------------------------------------------- two recoveries

  /** Two recoveries of one abandoned grant, with a file overwritten between their readings. The first
      reads the preimage and decides FAILED, the second reads the postimage and decides APPLIED. */
  lemma TwoRecoveries() returns (before: seq<Event>, after: seq<Event>)
    ensures PermittedRun(Outset(), before) && Sound(Run(Outset(), before))
    ensures var s := Run(Outset(), before);
      var s1 := Survey(s, "d", "g", CALM);
      "g" !in s.live && BeingRescued(s, "g") && PermittedRun(s1, after) && Stray(Run(s1, after), "t") && !Conserved(Run(s1, after))
  {
    Worked();
    var ks := map["c" := K(PRE, Decided(Failed))];
    before := Undecided(W4);
    NewSystemSound(map["ws" := "p"], map["ws" := BEFORE]);
    RunSound(Outset(), before);
    assert ks["c"].grant == "g";
    Surveys(W4, AFTER, map[], ks, 0, "d");
    var t;
    after, t := SecondVerdict(W4, ks);
    NotConserved(t, "t");
  }

  lemma Overwritten(w: StoreRuns.World, ks: map<Id, Rescue>)
    ensures Step(Scene(w, Applying, BEFORE, map[], ks, 0), Tampering("ws", "a", Some([])), CALM)
      == Scene(w, Applying, AFTER, map[], ks, 0)
  {
    assert map["ws" := BEFORE]["ws" := AFTER] == map["ws" := AFTER];
  }

  lemma Crashes(w: StoreRuns.World)
    ensures Step(Scene(w, Applying, BEFORE, At(Started, []), map[], 0), Crashing({"g"}, {}, {}), CALM)
      == Scene(w, Applying, BEFORE, map[], map[], 0)
  {
    assert At(Started, []) - {"g"} == map[];
  }

  lemma MaySurvey(w: StoreRuns.World)
    ensures Permitted(Scene(w, Applying, BEFORE, map[], map[], 0), Surveying("c", "g"))
  {
  }

  lemma Surveyed(w: StoreRuns.World) returns (es: seq<Event>)
    requires w == W4
    ensures Trail(Outset(), es, Scene(w, Applying, BEFORE, map[], map["c" := K([], Looking)], 0))
  {
    hide Trail, Survey, Scene, Crash;
    es := Consumed();
    Crashes(w);
    es := Then(Outset(), es, Scene(w, Applying, BEFORE, At(Started, []), map[], 0), Crashing({"g"}, {}, {}), CALM,
               Scene(w, Applying, BEFORE, map[], map[], 0));
    MaySurvey(w);
    Surveys(w, BEFORE, map[], map[], 0, "c");
    assert map[]["c" := K([], Looking)] == map["c" := K([], Looking)];
    es := Then(Outset(), es, Scene(w, Applying, BEFORE, map[], map[], 0), Surveying("c", "g"), CALM,
               Scene(w, Applying, BEFORE, map[], map["c" := K([], Looking)], 0));
  }

  lemma Undecided(w: StoreRuns.World) returns (es: seq<Event>)
    requires w == W4
    ensures Trail(Outset(), es, Scene(w, Applying, AFTER, map[], map["c" := K(PRE, Decided(Failed))], 0))
  {
    hide Trail, Scene, Continue, Survey, Advance, Begin, IssueGrant, Crash;
    var ks, ks2 := map["c" := K([], Looking)], map["c" := K(PRE, Decided(Failed))];
    es := Surveyed(w);
    assert [ImageAt(BEFORE, "a")] == PRE && ks["c" := K(PRE, Decided(Failed))] == ks2;
    es := DecidedBy(Outset(), es, w, BEFORE, map[], ks, 0, "c", Failed);
    Overwritten(w, ks2);
    es := Then(Outset(), es, Scene(w, Applying, BEFORE, map[], ks2, 0), Tampering("ws", "a", Some([])), CALM,
               Scene(w, Applying, AFTER, map[], ks2, 0));
  }

  lemma SecondVerdict(w: StoreRuns.World, ks: map<Id, Rescue>) returns (es: seq<Event>, t: Sys)
    requires w.db == TABLES && ks == map["c" := K(PRE, Decided(Failed))]
    ensures Trail(Scene(w, Applying, AFTER, map[], ks["d" := K([], Looking)], 0), es, t) && Stray(t, "t")
  {
    hide Trail, Continue, Scene, Stray;
    var s, ks2 := Scene(w, Applying, AFTER, map[], ks["d" := K([], Looking)], 0), ks["d" := K(POST, Decided(Applied))];
    Nothing(s);
    es := DecidedBy(s, [], w, AFTER, map[], ks["d" := K([], Looking)], 0, "d", Applied);
    assert [ImageAt(AFTER, "a")] == POST && ks["d" := K([], Looking)]["d" := K(POST, Decided(Applied))] == ks2;
    Settles(w, AFTER, ks2, 0, "c");
    es := Then(s, es, Scene(w, Applying, AFTER, map[], ks2, 0), Rescuing("c", "g"), CALM,
               Scene(w, Failed, AFTER, map[], ks2 - {"c"}, 0));
    Strays(w, AFTER, ks2 - {"c"}, 0, "d");
    t := Continue(Scene(w, Failed, AFTER, map[], ks2 - {"c"}, 0), "d", "g", CALM);
    es := Then(s, es, Scene(w, Failed, AFTER, map[], ks2 - {"c"}, 0), Rescuing("d", "g"), CALM, t);
  }
}
