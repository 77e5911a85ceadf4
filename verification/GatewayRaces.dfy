/** A run in which one lease is dispatched under two sessions of its worker. */
module GatewayRaces {
  import opened Basics
  import opened Store
  import opened Gateway
  import opened GatewayRuns
  import StoreRuns

  const PROFILE := Profile("local", {"edit"}, {"p"}, 1, 10.0)
  const PROFILES: map<Id, Profile> := map["w" := PROFILE]

  function Hail(session: Id, at: Time): Call { Hello("w", "local", {"edit"}, {"p"}, session, 0, at, 1, false) }

  function Send(session: Id): Call { Dispatched("t", "edit", "p", "w", "l", session) }

  function Row(state: TaskState, lease: Option<Lease>): Task { Task(None, "p", "edit", state, 0, 0.0, false, true, 0, 1, lease, NoEvidence) }

  const LEASE := Some(Lease("w", "l", 50.0))

  function Tables(state: TaskState, lease: Option<Lease>, heard: Time): Db {
    Db(map["t" := Row(state, lease)], map["w" := Worker("local", {"edit"}, {"p"}, heard, 10.0, 1)], map[])
  }

  // ---------------------------------------------------------------- the store

  const V1 := StoreRuns.Next(StoreRuns.EMPTY_STORE, StoreRuns.Registering("w", "local", {"edit"}, {"p"}, 10.0, 1, 0.0), 0.0)
  const V2 := StoreRuns.Next(V1, StoreRuns.Creating("t", None, "p", "edit", 0, false, true, 1), 0.0)
  const V3 := StoreRuns.Next(V2, StoreRuns.Claiming("t", "w", "l", 50.0), 0.0)
  const V4 := StoreRuns.Next(V3, StoreRuns.Registering("w", "local", {"edit"}, {"p"}, 10.0, 1, 20.0), 20.0)
  const V5 := StoreRuns.Next(V4, StoreRuns.Starting("t", "w", "l"), 20.0)

  lemma Leasing()
    ensures V1.clock == V2.clock == V3.clock == 0.0 && "l" !in V2.issued
    ensures V3.db == Tables(Leased, LEASE, 0.0)
  {
    assert V1.db == Db(map[], map["w" := Worker("local", {"edit"}, {"p"}, 0.0, 10.0, 1)], map[]);
    assert V2.db == Tables(Queued, None, 0.0);
    assert Active(V2.db, "w", 0.0) == {};
  }

  lemma Again()
    ensures V4.clock == 20.0 && V4.db == Tables(Leased, LEASE, 20.0)
    ensures StoreRuns.Succeeds(V3.db, StoreRuns.Registering("w", "local", {"edit"}, {"p"}, 10.0, 1, 20.0), 20.0)
  {
    hide V3;
    Leasing();
  }

  lemma Started()
    ensures V5.clock == 20.0 && V5.db == Tables(Running, LEASE, 20.0)
    ensures StoreRuns.Succeeds(V4.db, StoreRuns.Starting("t", "w", "l"), 20.0)
  {
    hide V3, V4;
    Again();
  }

  // ---------------------------------------------------------------- the memory

  const FIRST := KeyText("t", "w", "a", "l")
  const SECOND := KeyText("t", "w", "b", "l")

  function Sent(session: Id, acked: Option<Time>): Dispatch { Dispatch(Envelope("t", "w", session, "l", 50.0, "edit", "p"), acked, false) }

  function Mem(session: Id, at: Time, dispatches: map<string, Dispatch>): Memory {
    Memory(map["w" := Session(session, 0, at, 1)], dispatches, map[])
  }

  lemma Identifiers()
    ensures IsIdentifier("w") && IsIdentifier("t") && IsIdentifier("l") && IsIdentifier("a") && IsIdentifier("b")
    ensures FIRST != SECOND
  {
    if FIRST == SECOND { KeyInjective("t", "w", "a", "l", "t", "w", "b", "l"); }
  }

  // ---------------------------------------------------------------- the run

  ghost predicate Trail(es: seq<Event>, t: State) { Run(PROFILES, EMPTY, es) == t && Legal(PROFILES, EMPTY, es) }

  lemma {:induction false} Last(ps: map<Id, Profile>, s: State, es: seq<Event>, e: Event)
    requires Legal(ps, s, es) && Allowed(Run(ps, s, es), e)
    ensures Run(ps, s, es + [e]) == After(ps, Run(ps, s, es), e) && Legal(ps, s, es + [e])
    decreases |es|
  {
    hide After, Allowed;
    if es == [] {
      assert ([] + [e])[1..] == [];
    } else {
      assert (es + [e])[1..] == es[1..] + [e];
      Last(ps, After(ps, s, es[0]), es[1..], e);
    }
  }

  lemma Then(es: seq<Event>, t: State, e: Event, u: State) returns (more: seq<Event>)
    requires Trail(es, t) && Allowed(t, e) && After(PROFILES, t, e) == u
    ensures Trail(more, u)
  {
    hide After, Allowed, Run, Legal;
    more := es + [e];
    Last(PROFILES, EMPTY, es, e);
  }

  lemma Nothing()
    ensures Trail([], EMPTY)
  {
  }

  lemma FirstHello()
    ensures After(PROFILES, EMPTY, Calling(Hail("a", 0.0), 0.0)) == State(V1, Mem("a", 0.0, map[]), true)
  {
    Identifiers();
  }

  lemma SecondHello(ds: map<string, Dispatch>)
    ensures After(PROFILES, State(V3, Mem("a", 0.0, ds), true), Calling(Hail("b", 20.0), 20.0)) == State(V4, Mem("b", 20.0, ds), true)
  {
    hide V3;
    Identifiers();
    Again();
    assert map["w" := Session("a", 0, 0.0, 1)]["w" := Session("b", 0, 20.0, 1)] == map["w" := Session("b", 0, 20.0, 1)];
  }

  lemma Sends(w: StoreRuns.World, session: Id, at: Time, ds: map<string, Dispatch>)
    requires w.db == Tables(Leased, LEASE, at) && IsIdentifier(session) && KeyText("t", "w", session, "l") !in ds && 0.0 <= at < 50.0
    ensures After(PROFILES, State(w, Mem(session, at, ds), true), Calling(Send(session), at))
         == State(w, Mem(session, at, ds[KeyText("t", "w", session, "l") := Sent(session, None)]), true)
  {
    Identifiers();
  }

  lemma Acks(ds: map<string, Dispatch>)
    requires SECOND in ds && ds[SECOND] == Sent("b", None)
    ensures After(PROFILES, State(V4, Mem("b", 20.0, ds), true), Calling(Ack(SECOND, "t", "w", "b", "l", 20.0), 20.0))
         == State(V5, Mem("b", 20.0, ds[SECOND := Sent("b", Some(20.0))]), true)
  {
    hide V4, StoreRuns.Next, StoreRuns.Succeeds;
    Identifiers();
    Again();
    Started();
  }

  lemma LeasedRun() returns (es: seq<Event>)
    ensures Trail(es, State(V3, Mem("a", 0.0, map[]), true))
  {
    hide Trail, StoreRuns.Next, Mem, After;
    Leasing();
    Nothing();
    FirstHello();
    es := Then([], EMPTY, Calling(Hail("a", 0.0), 0.0), State(V1, Mem("a", 0.0, map[]), true));
    es := Stored(es, V1, StoreRuns.Creating("t", None, "p", "edit", 0, false, true, 1), V2);
    es := Stored(es, V2, StoreRuns.Claiming("t", "w", "l", 50.0), V3);
  }

  lemma Stored(es: seq<Event>, w: StoreRuns.World, op: StoreRuns.Action, w2: StoreRuns.World) returns (more: seq<Event>)
    requires Trail(es, State(w, Mem("a", 0.0, map[]), true)) && w.clock == 0.0 && (op.Creating? || op.Claiming?)
    requires StoreRuns.Allowed(w, op, 0.0) && StoreRuns.Next(w, op, 0.0) == w2
    ensures Trail(more, State(w2, Mem("a", 0.0, map[]), true))
  {
    hide Trail, StoreRuns.Next, StoreRuns.Allowed, Mem;
    more := Then(es, State(w, Mem("a", 0.0, map[]), true), Storing(op, 0.0), State(w2, Mem("a", 0.0, map[]), true));
  }

  const ONE: map<string, Dispatch> := map[FIRST := Sent("a", None)]
  const TWO: map<string, Dispatch> := map[FIRST := Sent("a", None), SECOND := Sent("b", None)]

  lemma SentTwice() returns (es: seq<Event>)
    ensures Trail(es, State(V4, Mem("b", 20.0, TWO), true))
  {
    Leasing();
    Again();
    Identifiers();
    hide V3, V4, After, Mem, Trail, Sent, Tables;
    es := LeasedRun();
    Sends(V3, "a", 0.0, map[]);
    es := Then(es, State(V3, Mem("a", 0.0, map[]), true), Calling(Send("a"), 0.0), State(V3, Mem("a", 0.0, ONE), true));
    SecondHello(ONE);
    es := Then(es, State(V3, Mem("a", 0.0, ONE), true), Calling(Hail("b", 20.0), 20.0), State(V4, Mem("b", 20.0, ONE), true));
    Sends(V4, "b", 20.0, ONE);
    es := Then(es, State(V4, Mem("b", 20.0, ONE), true), Calling(Send("b"), 20.0), State(V4, Mem("b", 20.0, TWO), true));
  }

  /** From the empty store and gateway: the task is claimed and dispatched under session `a`, the session
      falls silent, the worker comes back under session `b` within the lease, the task is dispatched
      again and the second dispatch acknowledged. The task runs, and the first dispatch still stands
      unacknowledged for the same lease. */
  lemma OneLeaseTwoDispatches() returns (es: seq<Event>)
    ensures Legal(PROFILES, EMPTY, es)
    ensures var s := Run(PROFILES, EMPTY, es);
      && s.mem.dispatches == map[FIRST := Sent("a", None), SECOND := Sent("b", Some(20.0))] && FIRST != SECOND
      && "t" in s.world.db.tasks && s.world.db.tasks["t"] == Row(Running, LEASE)
  {
    Again();
    Started();
    Identifiers();
    hide V4, V5, After, Run, Legal;
    es := SentTwice();
    Acks(TWO);
    es := Then(es, State(V4, Mem("b", 20.0, TWO), true), Calling(Ack(SECOND, "t", "w", "b", "l", 20.0), 20.0),
               State(V5, Mem("b", 20.0, TWO[SECOND := Sent("b", Some(20.0))]), true));
  }
}
