/** `_message` checks a frame and `_accept` spends it in separate statements, without a lock or a
    transaction. Here the acceptance comes after anything others did since the check, and the lemmas
    say exactly when replay protection survives it. */
module LateMessages {
  import opened Basics
  import opened Store
  import opened ExternalGateway

  /** The counters of a session row are overwritten, whatever they are. */
  function Overwritten(row: Session, f: Frame, heartbeat: Option<Time>, capacity: int): Session {
    var counted := row.(lastSequence := f.sequence);
    if heartbeat.Some? then counted.(lastHeartbeat := heartbeat.value, capacity := capacity) else counted
  }

  /** `_accept` of a frame checked under the worker's `epoch`-th authentication. A spent id makes the
      insertion fail; else the id is spent and the worker's present session row, if any, overwritten. */
  function LateAccept(s: State, f: Frame, epoch: nat, domain: Domain, heartbeat: Option<Time>, capacity: int, dispatch: Option<Id>): State {
    if f.message in s.messages then s
    else
      s.(messages := s.messages + {f.message},
         sessions := if f.worker in s.sessions then s.sessions[f.worker := Overwritten(s.sessions[f.worker], f, heartbeat, capacity)]
                     else s.sessions,
         log := s.log + [Accepted(f.message, f.worker, epoch, f.sequence, domain, heartbeat, dispatch)])
  }

  /** With nothing in between it is the acceptance of the handlers. */
  lemma PromptAccept(ps: map<Id, Profile>, s: State, f: Frame, domain: Domain, heartbeat: Option<Time>, capacity: int, dispatch: Option<Id>, now: Time)
    requires MessageOk(ps, s, f, now)
    ensures LateAccept(s, f, EpochOf(s, f.worker), domain, heartbeat, capacity, dispatch) == Accept(s, f, domain, heartbeat, capacity, dispatch)
  {
  }

  /** The frame comes after the accepted message `a`, when both belong to one authentication. */
  predicate After(a: Accepted, f: Frame, epoch: nat, heartbeat: Option<Time>) {
    a.worker == f.worker && a.epoch == epoch ==>
      a.sequence < f.sequence && (a.heartbeat.Some? && heartbeat.Some? ==> a.heartbeat.value < heartbeat.value)
  }

  /** The counters the frame leaves are not below the accepted message `a` of the present session. */
  predicate NotBelow(a: Accepted, s: State, f: Frame, heartbeat: Option<Time>) {
    a.worker == f.worker && f.worker in s.sessions && a.epoch == EpochOf(s, f.worker) ==>
      a.sequence <= f.sequence && (a.heartbeat.Some? && heartbeat.Some? ==> a.heartbeat.value <= heartbeat.value)
  }

  predicate InOrder(s: State, f: Frame, epoch: nat, heartbeat: Option<Time>) {
    forall i :: 0 <= i < |s.log| ==> After(s.log[i], f, epoch, heartbeat) && NotBelow(s.log[i], s, f, heartbeat)
  }

  lemma LateSpent(s: State, f: Frame, epoch: nat, domain: Domain, heartbeat: Option<Time>, capacity: int, dispatch: Option<Id>)
    requires Spent(s)
    ensures Spent(LateAccept(s, f, epoch, domain, heartbeat, capacity, dispatch))
  {
  }

  lemma LateOrdered(s: State, f: Frame, epoch: nat, domain: Domain, heartbeat: Option<Time>, capacity: int, dispatch: Option<Id>)
    requires Ordered(s) && f.message !in s.messages
    ensures Ordered(LateAccept(s, f, epoch, domain, heartbeat, capacity, dispatch)) <==>
      forall i :: 0 <= i < |s.log| ==> After(s.log[i], f, epoch, heartbeat)
  {
    var t, n := LateAccept(s, f, epoch, domain, heartbeat, capacity, dispatch), |s.log|;
    assert t.log[..n] == s.log;
    if Ordered(t) {
      forall i | 0 <= i < n ensures After(s.log[i], f, epoch, heartbeat) { assert t.log[i] == s.log[i] && t.log[n].sequence == f.sequence; }
    }
    if forall i :: 0 <= i < n ==> After(s.log[i], f, epoch, heartbeat) {
      forall i, j | 0 <= i < j < |t.log| && t.log[i].worker == t.log[j].worker && t.log[i].epoch == t.log[j].epoch
        ensures t.log[i].sequence < t.log[j].sequence
        ensures t.log[i].heartbeat.Some? && t.log[j].heartbeat.Some? ==> t.log[i].heartbeat.value < t.log[j].heartbeat.value
      {
        assert t.log[i] == s.log[i];
        if j < n { assert t.log[j] == s.log[j]; } else { assert After(s.log[i], f, epoch, heartbeat); }
      }
    }
  }

  /** The counters of the present session bound message `a`. */
  predicate Bounded(a: Accepted, s: State) {
    a.worker in s.sessions && a.epoch == EpochOf(s, a.worker) ==>
      && a.sequence <= s.sessions[a.worker].lastSequence
      && (a.heartbeat.Some? ==> a.heartbeat.value <= s.sessions[a.worker].lastHeartbeat)
  }

  lemma LateBounded(s: State, f: Frame, epoch: nat, domain: Domain, heartbeat: Option<Time>, capacity: int, dispatch: Option<Id>, a: Accepted)
    requires Bounded(a, s) && f.message !in s.messages
    ensures Bounded(a, LateAccept(s, f, epoch, domain, heartbeat, capacity, dispatch)) <==> NotBelow(a, s, f, heartbeat)
  {
  }

  lemma CountedIs(s: State)
    ensures Counted(s) <==>
      && (forall w :: w in s.sessions ==> EpochOf(s, w) > 0)
      && (forall i :: 0 <= i < |s.log| ==> s.log[i].epoch <= EpochOf(s, s.log[i].worker))
      && (forall i :: 0 <= i < |s.log| ==> Bounded(s.log[i], s))
  {
  }

  lemma LateCounted(s: State, f: Frame, epoch: nat, domain: Domain, heartbeat: Option<Time>, capacity: int, dispatch: Option<Id>)
    requires Counted(s) && f.message !in s.messages && epoch <= EpochOf(s, f.worker)
    ensures Counted(LateAccept(s, f, epoch, domain, heartbeat, capacity, dispatch)) <==>
      forall i :: 0 <= i < |s.log| ==> NotBelow(s.log[i], s, f, heartbeat)
  {
    var t, n := LateAccept(s, f, epoch, domain, heartbeat, capacity, dispatch), |s.log|;
    assert t.log[..n] == s.log && t.epochs == s.epochs;
    CountedIs(s);
    CountedIs(t);
    assert Bounded(t.log[n], t);
    hide Counted, Bounded, NotBelow, LateAccept;
    forall i | 0 <= i < n ensures t.log[i] == s.log[i] && (Bounded(t.log[i], t) <==> NotBelow(s.log[i], s, f, heartbeat)) {
      assert t.log[i] == s.log[i];
      LateBounded(s, f, epoch, domain, heartbeat, capacity, dispatch, s.log[i]);
    }
  }

  lemma LateFlagged(s: State, f: Frame, epoch: nat, domain: Domain, heartbeat: Option<Time>, capacity: int, dispatch: Option<Id>)
    requires Flagged(s)
    ensures Flagged(LateAccept(s, f, epoch, domain, heartbeat, capacity, dispatch))
  {
    var t := LateAccept(s, f, epoch, domain, heartbeat, capacity, dispatch);
    if t != s {
      assert t.log[..|s.log|] == s.log;
      GrownFlags(s, t);
    }
  }

  /** Whatever happened since the check, accepting the frame keeps replay protection exactly when its id
      is spent by now, so that nothing is accepted, or the frame comes after every accepted message of
      its authentication and does not set the counters of the present session back. */
  lemma LateAcceptExactly(s: State, f: Frame, epoch: nat, domain: Domain, heartbeat: Option<Time>, capacity: int, dispatch: Option<Id>)
    requires Protected(s) && epoch <= EpochOf(s, f.worker)
    ensures Protected(LateAccept(s, f, epoch, domain, heartbeat, capacity, dispatch)) <==>
      f.message in s.messages || InOrder(s, f, epoch, heartbeat)
  {
    hide Spent, Counted, Ordered, Flagged, After, NotBelow;
    if f.message !in s.messages {
      LateSpent(s, f, epoch, domain, heartbeat, capacity, dispatch);
      LateOrdered(s, f, epoch, domain, heartbeat, capacity, dispatch);
      LateCounted(s, f, epoch, domain, heartbeat, capacity, dispatch);
      LateFlagged(s, f, epoch, domain, heartbeat, capacity, dispatch);
    }
  }

  // ---------------------------------------------------------------- two frames at once

  /** A frame passes the checks of its handler. */
  predicate Passes(ps: map<Id, Profile>, s: State, f: Frame, heartbeat: Option<Time>, now: Time) {
    MessageOk(ps, s, f, now) && (heartbeat.Some? ==> heartbeat.value > s.sessions[f.worker].lastHeartbeat)
  }

  /** A frame that passes comes after everything accepted so far. */
  lemma PassesInOrder(ps: map<Id, Profile>, s: State, f: Frame, heartbeat: Option<Time>, now: Time)
    requires Counted(s) && Passes(ps, s, f, heartbeat, now)
    ensures InOrder(s, f, EpochOf(s, f.worker), heartbeat)
  {
  }

  lemma SecondInOrder(s: State, t: State, a: Accepted, g: Frame, heartbeat: Option<Time>)
    requires InOrder(s, g, EpochOf(s, g.worker), heartbeat) && t.log == s.log + [a] && t.epochs == s.epochs
    requires g.worker in s.sessions && g.worker in t.sessions && a.worker == g.worker && a.epoch == EpochOf(s, g.worker)
    ensures InOrder(t, g, EpochOf(s, g.worker), heartbeat) <==> After(a, g, a.epoch, heartbeat)
  {
    var n := |s.log|;
    assert t.log[n] == a && t.log[..n] == s.log;
    forall i | 0 <= i < n ensures After(t.log[i], g, EpochOf(s, g.worker), heartbeat) && NotBelow(t.log[i], t, g, heartbeat) {
      assert t.log[i] == s.log[i];
      assert After(s.log[i], g, EpochOf(s, g.worker), heartbeat) && NotBelow(s.log[i], s, g, heartbeat);
    }
  }

  /** Two frames of one session that are both checked before either is accepted: accepting the one and
      then the other keeps replay protection exactly when they are in order. */
  lemma CheckedTogether(ps: map<Id, Profile>, s: State, f: Frame, g: Frame, df: Domain, dg: Domain,
                        hf: Option<Time>, hg: Option<Time>, cf: int, cg: int, idf: Option<Id>, idg: Option<Id>, now: Time)
    requires Protected(s) && Passes(ps, s, f, hf, now) && Passes(ps, s, g, hg, now) && f.worker == g.worker && f.message != g.message
    ensures var t := Accept(s, f, df, hf, cf, idf);
      Protected(LateAccept(t, g, EpochOf(s, g.worker), dg, hg, cg, idg)) <==>
        f.sequence < g.sequence && (hf.Some? && hg.Some? ==> hf.value < hg.value)
  {
    var e := EpochOf(s, f.worker);
    var t := Accept(s, f, df, hf, cf, idf);
    var a := Accepted(f.message, f.worker, e, f.sequence, df, hf, idf);
    PassesInOrder(ps, s, f, hf, now);
    PassesInOrder(ps, s, g, hg, now);
    assert t.log == s.log + [a] && t.epochs == s.epochs && g.message !in t.messages && g.worker in t.sessions;
    PromptAccept(ps, s, f, df, hf, cf, idf, now);
    hide Protected, InOrder, LateAccept, Accept, MessageOk;
    LateAcceptExactly(s, f, e, df, hf, cf, idf);
    SecondInOrder(s, t, a, g, hg);
    LateAcceptExactly(t, g, e, dg, hg, cg, idg);
  }

  // ---------------------------------------------------------------- a run

  const PROFILE := Profile("external", "k", Digest([]), {"edit"}, {"p"}, 1, 10.0, true)
  const PROFILES: map<Id, Profile> := map["w" := PROFILE]
  const HELLO := Hello("c", "w", "k", Some([]), PROTOCOL, Digest([]), 0.0, 30.0, "a", 1, true)
  const CHALLENGE := Challenge("w", "k", Digest([]), Digest([]), 0.0, 30.0, false)

  const OPENING: seq<Event> := [Issuing("c", "w", "k", [], 30.0, 0.0), Authenticating(HELLO, 0.0)]

  /** The worker's frames: the later one by its number is `SECOND`. */
  const FIRST := Frame(PROTOCOL, "w", "k", "a", "m", 1, 1.0, true)
  const SECOND := Frame(PROTOCOL, "w", "k", "a", "n", 2, 1.0, true)

  function NewDb(): Db { Db(map[], map[], map[]) }

  function Challenged(): State { NewGateway(NewDb(), {}).(challenges := map["c" := CHALLENGE]) }

  lemma Identifiers()
    ensures IsIdentifier("w") && IsIdentifier("k") && IsIdentifier("a") && IsIdentifier("c") && IsIdentifier("m") && IsIdentifier("n")
  {
  }

  lemma Opened()
    ensures var s := Run(PROFILES, NewGateway(NewDb(), {}), OPENING);
      Passes(PROFILES, s, FIRST, None, 1.0) && Passes(PROFILES, s, SECOND, None, 1.0)
  {
    var s0, e, f := NewGateway(NewDb(), {}), OPENING[0], OPENING[1];
    Identifiers();
    assert ExternalGateway.After(PROFILES, s0, e) == Challenged();
    assert OPENING[1..] == [f] && [f][1..] == [];
    var s := ExternalGateway.After(PROFILES, Challenged(), f);
    calc {
      Run(PROFILES, s0, OPENING);
      Run(PROFILES, Challenged(), [f]);
      Run(PROFILES, s, []);
      s;
    }
    assert s == Authenticate(PROFILES, Challenged(), HELLO, 0.0).0;
    assert s.sessions["w"] == Session("a", "k", Digest([]), 0.0, 0, 0.0, 1, Authenticated);
  }

  /** From a new gateway: the worker authenticates, two of its frames pass the checks, and accepting the
      second before the first breaks the order of sequence numbers. */
  lemma DescendingAcceptance(df: Domain, dg: Domain, idf: Option<Id>, idg: Option<Id>)
    ensures var s := Run(PROFILES, NewGateway(NewDb(), {}), OPENING);
      && Protected(s) && MessageOk(PROFILES, s, FIRST, 1.0) && MessageOk(PROFILES, s, SECOND, 1.0)
      && !Protected(LateAccept(Accept(s, SECOND, df, None, 0, idf), FIRST, EpochOf(s, "w"), dg, None, 0, idg))
  {
    var s := Run(PROFILES, NewGateway(NewDb(), {}), OPENING);
    Opened();
    hide Run, Protected, MessageOk, LateAccept, Accept;
    RunProtected(PROFILES, NewDb(), {}, OPENING);
    CheckedTogether(PROFILES, s, SECOND, FIRST, df, dg, None, None, 0, 0, idf, idg, 1.0);
  }
}
