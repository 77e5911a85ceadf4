/** The authenticated external gateway: challenges, sessions, signed messages and dispatches. */
module ExternalGateway {
  import opened Basics
  import opened Store

  const PROTOCOL := "AF05/1"

  /** A trusted worker; `active` is enabled and not revoked in the registry, which never changes. */
  datatype Profile = Profile(
    kind: Id, key: Id, digest: Digest, capabilities: set<Id>, targets: set<Id>, maxCapacity: nat, sla: Time, active: bool)

  datatype Challenge = Challenge(
    worker: Id, key: Id, nonce: Digest, digest: Digest, issued: Time, expires: Time, consumed: bool)

  datatype SessionState = Authenticated | ReauthRequired | Revoked

  datatype Session = Session(
    id: Id, key: Id, digest: Digest, since: Time, lastSequence: int, lastHeartbeat: Time, capacity: int, state: SessionState)

  datatype Dispatch = Dispatch(task: Id, worker: Id, session: Id, lease: Id, expires: Time, acked: Option<Time>, resulted: bool)

  datatype Domain = HeartbeatDomain | AckDomain | ResultDomain

  /** History: an accepted message, in the worker's `epoch`-th authentication. */
  datatype Accepted = Accepted(message: Id, worker: Id, epoch: nat, sequence: int, domain: Domain, heartbeat: Option<Time>, dispatch: Option<Id>)

  /** `epochs`, `log` and `proofs` (the challenges that authenticated, in order) are history. */
  datatype State = State(
    db: Db, challenges: map<Id, Challenge>, sessions: map<Id, Session>, messages: set<Id>,
    dispatches: map<Id, Dispatch>, revoked: set<Id>,
    epochs: map<Id, nat>, log: seq<Accepted>, proofs: seq<Id>)

  predicate Trusted(ps: map<Id, Profile>, s: State, worker: Id) {
    IsIdentifier(worker) && worker in ps && ps[worker].active && worker !in s.revoked
  }

  function EpochOf(s: State, worker: Id): nat { if worker in s.epochs then s.epochs[worker] else 0 }

  // ---------------------------------------------------------------- challenges and sessions

  /** The challenge id is the digest of the fresh nonce and the worker; a collision is refused. */
  function IssueChallenge(ps: map<Id, Profile>, s: State, id: Id, worker: Id, key: Id, nonce: Bytes, ttl: Time, now: Time): (State, bool) {
    if now < 0.0 || !Trusted(ps, s, worker) || key != ps[worker].key || id in s.challenges then (s, false)
    else
      var c := Challenge(worker, key, Digest(nonce), ps[worker].digest, now, now + ttl, false);
      (s.(challenges := s.challenges[id := c]), true)
  }

  /** The signed session frame; `signed` says whether its signature verifies under the profile's key. */
  datatype Hello = Hello(
    challenge: Id, worker: Id, key: Id, nonce: Option<Bytes>, protocol: string, digest: Digest,
    issued: Time, expires: Time, session: Id, capacity: int, signed: bool)

  predicate ChallengeOk(ps: map<Id, Profile>, s: State, h: Hello, now: Time)
    requires h.worker in ps
  {
    && h.challenge in s.challenges && h.nonce.Some?
    && var c := s.challenges[h.challenge];
      && !c.consumed && c.worker == h.worker && c.key == h.key && c.digest == ps[h.worker].digest
      && c.nonce == Digest(h.nonce.value) && c.issued == h.issued && c.expires == h.expires
      && c.expires > now && c.issued <= now + 1.0
  }

  /** A different session of the worker is authenticated and still alive. */
  predicate Takeover(ps: map<Id, Profile>, s: State, h: Hello, now: Time)
    requires h.worker in ps
  {
    && h.worker in s.sessions && s.sessions[h.worker].id != h.session && s.sessions[h.worker].state.Authenticated?
    && now - s.sessions[h.worker].lastHeartbeat <= ps[h.worker].sla
  }

  predicate HelloOk(ps: map<Id, Profile>, s: State, h: Hello, now: Time) {
    && now >= 0.0 && IsIdentifier(h.key) && IsIdentifier(h.session) && IsIdentifier(h.challenge) && Trusted(ps, s, h.worker)
    && h.key == ps[h.worker].key && h.protocol == PROTOCOL && h.digest == ps[h.worker].digest
    && 0 <= h.capacity <= ps[h.worker].maxCapacity
    && ChallengeOk(ps, s, h, now) && h.signed && !Takeover(ps, s, h, now)
  }

  /** `INSERT OR REPLACE` on a table whose session ids are unique: a row of any other worker with
      this session id is deleted. */
  function Displace(sessions: map<Id, Session>, worker: Id, row: Session): map<Id, Session> {
    (map w | w in sessions && (w == worker || sessions[w].id != row.id) :: sessions[w])[worker := row]
  }

  function Authenticate(ps: map<Id, Profile>, s: State, h: Hello, now: Time): (State, bool) {
    if !HelloOk(ps, s, h, now) then (s, false)
    else
      var p := ps[h.worker];
      var r := RegisterWorker(s.db, h.worker, p.kind, p.capabilities, p.targets, p.sla, h.capacity, now);
      if r.answer.Blocked? then (s, false)
      else
        (s.(db := r.db,
            challenges := s.challenges[h.challenge := s.challenges[h.challenge].(consumed := true)],
            sessions := Displace(s.sessions, h.worker, Session(h.session, h.key, h.digest, now, 0, now, h.capacity, Authenticated)),
            epochs := s.epochs[h.worker := EpochOf(s, h.worker) + 1],
            proofs := s.proofs + [h.challenge]), true)
  }

  // ---------------------------------------------------------------- messages

  datatype Frame = Frame(
    protocol: string, worker: Id, key: Id, session: Id, message: Id, sequence: int, observed: Time, signed: bool)

  /** `_message`: the frame is fresh, in order, and from the authenticated session. */
  predicate MessageOk(ps: map<Id, Profile>, s: State, f: Frame, now: Time) {
    && now >= 0.0 && f.observed >= 0.0 && IsIdentifier(f.key) && IsIdentifier(f.session) && IsIdentifier(f.message)
    && Trusted(ps, s, f.worker) && f.worker in s.sessions
    && s.sessions[f.worker].state.Authenticated? && s.sessions[f.worker].id == f.session && s.sessions[f.worker].key == f.key
    && s.sessions[f.worker].digest == ps[f.worker].digest && f.protocol == PROTOCOL
    && f.sequence > s.sessions[f.worker].lastSequence && f.observed <= now + 1.0 && f.message !in s.messages
    && f.signed
  }

  /** `_accept`: the message id is spent and the session's counters move. */
  function Accept(s: State, f: Frame, domain: Domain, heartbeat: Option<Time>, capacity: int, dispatch: Option<Id>): State
    requires f.worker in s.sessions
  {
    var row := s.sessions[f.worker].(lastSequence := f.sequence);
    var beaten := if heartbeat.Some? then row.(lastHeartbeat := heartbeat.value, capacity := capacity) else row;
    s.(messages := s.messages + {f.message},
       sessions := s.sessions[f.worker := beaten],
       log := s.log + [Accepted(f.message, f.worker, EpochOf(s, f.worker), f.sequence, domain, heartbeat, dispatch)])
  }

  function Heartbeat(ps: map<Id, Profile>, s: State, f: Frame, capacity: int, now: Time): (State, bool) {
    if !MessageOk(ps, s, f, now) || f.observed <= s.sessions[f.worker].lastHeartbeat || now - f.observed > ps[f.worker].sla
       || !(0 <= capacity <= ps[f.worker].maxCapacity) then (s, false)
    else
      var r := HeartbeatWithCapacity(s.db, f.worker, capacity, now, f.observed);
      if r.answer.Blocked? then (s, false)
      else (Accept(s.(db := r.db), f, HeartbeatDomain, Some(f.observed), capacity, None), true)
  }

  // ---------------------------------------------------------------- dispatches

  function SendDispatch(s: State, id: Id, task: Id, capability: Id, target: Id, worker: Id, lease: Id, session: Id, now: Time): (State, bool) {
    if now < 0.0 || !IsIdentifier(worker) || !IsIdentifier(task) || !IsIdentifier(lease)
       || worker !in s.sessions || !s.sessions[worker].state.Authenticated? || s.sessions[worker].id != session
       || task !in s.db.tasks || !s.db.tasks[task].state.Leased? || !HeldBy(s.db.tasks[task], worker, lease)
       || !Unexpired(s.db.tasks[task], now)
       || capability != s.db.tasks[task].capability || target != s.db.tasks[task].target then (s, false)
    else if id in s.dispatches then (s, true)
    else
      var d := Dispatch(task, worker, session, lease, s.db.tasks[task].lease.value.expires, None, false);
      (s.(dispatches := s.dispatches[id := d]), true)
  }

  /** `_bound`. */
  predicate Bound(s: State, f: Frame, dispatch: Id, task: Id, lease: Id) {
    && IsIdentifier(dispatch) && dispatch in s.dispatches
    && var d := s.dispatches[dispatch]; (task, f.worker, f.session, lease) == (d.task, d.worker, d.session, d.lease)
  }

  /** The message is accepted before the task is started: when the start is refused, the message id
      and the sequence number are spent and the dispatch stays unacknowledged. */
  function Acknowledge(ps: map<Id, Profile>, s: State, f: Frame, dispatch: Id, task: Id, lease: Id, now: Time): (State, bool) {
    if !MessageOk(ps, s, f, now) || !Bound(s, f, dispatch, task, lease) || s.dispatches[dispatch].acked.Some? then (s, false)
    else
      var t := Accept(s, f, AckDomain, None, 0, Some(dispatch));
      var r := Start(s.db, task, f.worker, lease, now);
      if r.answer.Blocked? then (t, false)
      else (t.(db := r.db, dispatches := s.dispatches[dispatch := s.dispatches[dispatch].(acked := Some(f.observed))]), true)
  }

  /** `content` is what the evidence spool holds under the id. */
  function AcceptResult(ps: map<Id, Profile>, s: State, f: Frame, dispatch: Id, task: Id, lease: Id,
                        succeeded: bool, evidence: Id, digest: Option<Digest>, content: Option<Bytes>, now: Time): (State, bool) {
    if !MessageOk(ps, s, f, now) || !Bound(s, f, dispatch, task, lease)
       || s.dispatches[dispatch].acked.None? || s.dispatches[dispatch].resulted || s.dispatches[dispatch].expires <= now || !succeeded
       || !IsIdentifier(evidence) || content.None? || digest != Some(Digest(content.value)) then (s, false)
    else
      var t := Accept(s, f, ResultDomain, None, 0, Some(dispatch));
      var r := SubmitResult(s.db, task, f.worker, lease, evidence, digest, now);
      if r.answer.Blocked? then (t.(db := r.db), false)
      else (t.(db := r.db, dispatches := s.dispatches[dispatch := s.dispatches[dispatch].(resulted := true)]), true)
  }

  // ---------------------------------------------------------------- revocation and restart

  function Revoke(ps: map<Id, Profile>, s: State, worker: Id): (State, bool) {
    if !IsIdentifier(worker) || worker !in ps then (s, false)
    else
      (s.(revoked := s.revoked + {worker},
          sessions := if worker in s.sessions then s.sessions[worker := s.sessions[worker].(state := Revoked)] else s.sessions), true)
  }

  /** What constructing the gateway over existing tables does. */
  function Restart(s: State): State {
    s.(sessions := map w | w in s.sessions ::
         if s.sessions[w].state.Authenticated? then s.sessions[w].(state := ReauthRequired) else s.sessions[w])
  }

  // ---------------------------------------------------------------- the machine

  datatype Event =
    | Issuing(id: Id, worker: Id, key: Id, nonce: Bytes, ttl: Time, now: Time)
    | Authenticating(hello: Hello, now: Time)
    | Beating(frame: Frame, capacity: int, now: Time)
    | Dispatching(id: Id, task: Id, capability: Id, target: Id, worker: Id, lease: Id, session: Id, now: Time)
    | Acking(frame: Frame, id: Id, task: Id, lease: Id, now: Time)
    | Resulting(frame: Frame, id: Id, task: Id, lease: Id, succeeded: bool, evidence: Id,
                digest: Option<Digest>, content: Option<Bytes>, now: Time)
    | Revoking(worker: Id)
    | Restarting
    | Storing(db: Db)

  /** `Storing` is anything any other party does to the store. */
  function After(ps: map<Id, Profile>, s: State, e: Event): State {
    match e
    case Issuing(id, w, k, n, ttl, now) => IssueChallenge(ps, s, id, w, k, n, ttl, now).0
    case Authenticating(h, now) => Authenticate(ps, s, h, now).0
    case Beating(f, c, now) => Heartbeat(ps, s, f, c, now).0
    case Dispatching(id, t, c, tg, w, l, sess, now) => SendDispatch(s, id, t, c, tg, w, l, sess, now).0
    case Acking(f, id, t, l, now) => Acknowledge(ps, s, f, id, t, l, now).0
    case Resulting(f, id, t, l, ok, ev, d, c, now) => AcceptResult(ps, s, f, id, t, l, ok, ev, d, c, now).0
    case Revoking(w) => Revoke(ps, s, w).0
    case Restarting => Restart(s)
    case Storing(db) => s.(db := db)
  }

  function Run(ps: map<Id, Profile>, s: State, es: seq<Event>): State
    decreases |es|
  {
    if es == [] then s else Run(ps, After(ps, s, es[0]), es[1..])
  }

  function NewGateway(db: Db, revoked: set<Id>): State {
    State(db, map[], map[], {}, map[], revoked, map[], [], [])
  }

  // ---------------------------------------------------------------- replay protection

  /** Messages and challenges are spent when they succeed, and never return. */
  ghost predicate Spent(s: State) {
    && (forall i :: 0 <= i < |s.log| ==> s.log[i].message in s.messages)
    && (forall i, j :: 0 <= i < j < |s.log| ==> s.log[i].message != s.log[j].message)
    && (forall i :: 0 <= i < |s.proofs| ==> s.proofs[i] in s.challenges && s.challenges[s.proofs[i]].consumed)
    && (forall i, j :: 0 <= i < j < |s.proofs| ==> s.proofs[i] != s.proofs[j])
  }

  /** Every accepted message lies in a past epoch, or at most at the counters of the session. */
  ghost predicate Counted(s: State) {
    && (forall w :: w in s.sessions ==> EpochOf(s, w) > 0)
    && (forall i :: 0 <= i < |s.log| ==> s.log[i].epoch <= EpochOf(s, s.log[i].worker))
    && (forall i :: 0 <= i < |s.log| && s.log[i].worker in s.sessions && s.log[i].epoch == EpochOf(s, s.log[i].worker) ==>
          && s.log[i].sequence <= s.sessions[s.log[i].worker].lastSequence
          && (s.log[i].heartbeat.Some? ==> s.log[i].heartbeat.value <= s.sessions[s.log[i].worker].lastHeartbeat))
  }

  /** Within one epoch of a worker, sequence numbers and heartbeat times strictly increase. */
  ghost predicate Ordered(s: State) {
    forall i, j :: 0 <= i < j < |s.log| && s.log[i].worker == s.log[j].worker && s.log[i].epoch == s.log[j].epoch ==>
      && s.log[i].sequence < s.log[j].sequence
      && (s.log[i].heartbeat.Some? && s.log[j].heartbeat.Some? ==> s.log[i].heartbeat.value < s.log[j].heartbeat.value)
  }

  /** A result flag implies the acknowledgement flag, and each flag an accepted message. */
  ghost predicate Flagged(s: State) {
    forall d :: d in s.dispatches ==>
      && (s.dispatches[d].resulted ==> s.dispatches[d].acked.Some?)
      && (s.dispatches[d].acked.Some? ==> exists i :: 0 <= i < |s.log| && s.log[i].domain.AckDomain? && s.log[i].dispatch == Some(d))
      && (s.dispatches[d].resulted ==> exists i :: 0 <= i < |s.log| && s.log[i].domain.ResultDomain? && s.log[i].dispatch == Some(d))
  }

  ghost predicate Protected(s: State) { Spent(s) && Counted(s) && Ordered(s) && Flagged(s) }

  ghost predicate Covered(s: State, d: Id, domain: Domain) {
    exists i :: 0 <= i < |s.log| && s.log[i].domain == domain && s.log[i].dispatch == Some(d)
  }

  /** Only the store, unconsumed challenges, new unflagged dispatches, revocations and session states
      differ. */
  ghost predicate Quiet(s: State, t: State) {
    && t == s.(db := t.db, challenges := t.challenges, sessions := t.sessions, dispatches := t.dispatches, revoked := t.revoked)
    && (forall c :: c in s.challenges ==> c in t.challenges && t.challenges[c] == s.challenges[c])
    && t.sessions.Keys == s.sessions.Keys
    && (forall w :: w in s.sessions ==> t.sessions[w] == s.sessions[w].(state := t.sessions[w].state))
    && (forall w :: w in s.sessions && t.sessions[w].state.Authenticated? ==> s.sessions[w].state.Authenticated?)
    && (forall d :: d in s.dispatches ==> d in t.dispatches && t.dispatches[d] == s.dispatches[d])
    && (forall d :: d in t.dispatches && d !in s.dispatches ==> t.dispatches[d].acked.None? && !t.dispatches[d].resulted)
    && s.revoked <= t.revoked
  }

  lemma QuietKeeps(s: State, t: State)
    requires Protected(s) && Quiet(s, t)
    ensures Protected(t)
  {
    assert Flagged(t) by {
      forall d | d in t.dispatches
        ensures (t.dispatches[d].acked.Some? ==> Covered(t, d, AckDomain)) && (t.dispatches[d].resulted ==> Covered(t, d, ResultDomain))
      {
        if d in s.dispatches && s.dispatches[d].acked.Some? { assert Covered(s, d, AckDomain); }
        if d in s.dispatches && s.dispatches[d].resulted { assert Covered(s, d, ResultDomain); }
      }
    }
  }

  lemma CoveredGrows(s: State, t: State, d: Id, domain: Domain)
    requires Covered(s, d, domain) && |s.log| <= |t.log| && t.log[..|s.log|] == s.log
    ensures Covered(t, d, domain)
  {
    var i :| 0 <= i < |s.log| && s.log[i].domain == domain && s.log[i].dispatch == Some(d);
    assert t.log[i] == t.log[..|s.log|][i];
  }

  lemma GrownFlags(s: State, t: State)
    requires Flagged(s) && t.dispatches == s.dispatches && |s.log| <= |t.log| && t.log[..|s.log|] == s.log
    ensures Flagged(t)
  {
    forall d | d in t.dispatches
      ensures (t.dispatches[d].acked.Some? ==> Covered(t, d, AckDomain)) && (t.dispatches[d].resulted ==> Covered(t, d, ResultDomain))
    {
      if s.dispatches[d].acked.Some? { assert Covered(s, d, AckDomain); CoveredGrows(s, t, d, AckDomain); }
      if s.dispatches[d].resulted { assert Covered(s, d, ResultDomain); CoveredGrows(s, t, d, ResultDomain); }
    }
  }

  lemma AcceptCounts(ps: map<Id, Profile>, s: State, f: Frame, domain: Domain, heartbeat: Option<Time>, capacity: int, dispatch: Option<Id>, now: Time)
    requires Counted(s) && Ordered(s) && MessageOk(ps, s, f, now)
    requires heartbeat.Some? ==> heartbeat.value > s.sessions[f.worker].lastHeartbeat
    ensures var t := Accept(s, f, domain, heartbeat, capacity, dispatch); Counted(t) && Ordered(t)
  {
  }

  /** Accepting a message that passed the checks. */
  lemma AcceptKeeps(ps: map<Id, Profile>, s: State, f: Frame, domain: Domain, heartbeat: Option<Time>, capacity: int, dispatch: Option<Id>, now: Time)
    requires Protected(s) && MessageOk(ps, s, f, now)
    requires heartbeat.Some? ==> heartbeat.value > s.sessions[f.worker].lastHeartbeat
    ensures Protected(Accept(s, f, domain, heartbeat, capacity, dispatch))
  {
    var t := Accept(s, f, domain, heartbeat, capacity, dispatch);
    AcceptCounts(ps, s, f, domain, heartbeat, capacity, dispatch, now);
    assert t.log[..|s.log|] == s.log;
    GrownFlags(s, t);
  }

  /** Setting a flag of a dispatch whose message has been accepted. */
  lemma FlagRest(s: State, t: State)
    requires Spent(s) && Counted(s) && Ordered(s) && t == s.(db := t.db, dispatches := t.dispatches)
    ensures Spent(t) && Counted(t) && Ordered(t)
  {
  }

  lemma FlagKeeps(s: State, t: State, d: Id)
    requires Protected(s) && d in s.dispatches && d in t.dispatches
    requires t == s.(db := t.db, dispatches := s.dispatches[d := t.dispatches[d]])
    requires t.dispatches[d].resulted ==> t.dispatches[d].acked.Some? && Covered(s, d, ResultDomain)
    requires t.dispatches[d].acked.Some? ==> Covered(s, d, AckDomain)
    ensures Protected(t)
  {
    hide Spent, Counted, Ordered;
    FlagRest(s, t);
    assert Flagged(t) by {
      forall e | e in t.dispatches
        ensures (t.dispatches[e].acked.Some? ==> Covered(t, e, AckDomain)) && (t.dispatches[e].resulted ==> Covered(t, e, ResultDomain))
      {
        if e in s.dispatches && s.dispatches[e].acked.Some? { assert Covered(s, e, AckDomain); }
        if e in s.dispatches && s.dispatches[e].resulted { assert Covered(s, e, ResultDomain); }
      }
    }
  }

  lemma AuthenticateSpends(ps: map<Id, Profile>, s: State, h: Hello, now: Time)
    requires Spent(s)
    ensures Spent(Authenticate(ps, s, h, now).0)
  {
  }

  lemma AuthenticateCounts(ps: map<Id, Profile>, s: State, h: Hello, now: Time)
    requires Counted(s) && Ordered(s)
    ensures var t := Authenticate(ps, s, h, now).0; Counted(t) && Ordered(t)
  {
  }

  lemma AuthenticateKeeps(ps: map<Id, Profile>, s: State, h: Hello, now: Time)
    requires Protected(s)
    ensures Protected(Authenticate(ps, s, h, now).0)
  {
    AuthenticateSpends(ps, s, h, now);
    AuthenticateCounts(ps, s, h, now);
    hide Spent, Counted, Ordered, Covered;
    GrownFlags(s, Authenticate(ps, s, h, now).0);
  }

  lemma HeartbeatKeeps(ps: map<Id, Profile>, s: State, f: Frame, capacity: int, now: Time)
    requires Protected(s)
    ensures Protected(Heartbeat(ps, s, f, capacity, now).0)
  {
    var (t, ok) := Heartbeat(ps, s, f, capacity, now);
    if ok {
      QuietKeeps(s, s.(db := t.db));
      AcceptKeeps(ps, s.(db := t.db), f, HeartbeatDomain, Some(f.observed), capacity, None, now);
    }
  }

  /** An accepted message about a dispatch is in the log, after everything that was there. */
  lemma AcceptCovers(s: State, f: Frame, domain: Domain, d: Id)
    requires f.worker in s.sessions
    ensures var t := Accept(s, f, domain, None, 0, Some(d));
      Covered(t, d, domain) && |s.log| <= |t.log| && t.log[..|s.log|] == s.log && t.dispatches == s.dispatches
  {
    var t := Accept(s, f, domain, None, 0, Some(d));
    assert t.log[|s.log|].dispatch == Some(d) && t.log[|s.log|].domain == domain;
  }

  lemma AckKeeps(ps: map<Id, Profile>, s: State, f: Frame, d: Id, task: Id, lease: Id, now: Time)
    requires Protected(s)
    ensures Protected(Acknowledge(ps, s, f, d, task, lease, now).0)
  {
    if MessageOk(ps, s, f, now) && Bound(s, f, d, task, lease) && s.dispatches[d].acked.None? {
      hide Protected, MessageOk, Covered;
      AcceptKeeps(ps, s, f, AckDomain, None, 0, Some(d), now);
      AcceptCovers(s, f, AckDomain, d);
      Unresulted(s, d);
      var (u, ok) := Acknowledge(ps, s, f, d, task, lease, now);
      if ok { FlagKeeps(Accept(s, f, AckDomain, None, 0, Some(d)), u, d); }
    }
  }

  lemma Unresulted(s: State, d: Id)
    requires Protected(s) && d in s.dispatches && s.dispatches[d].acked.None?
    ensures !s.dispatches[d].resulted
  {
  }

  lemma AckedCovered(s: State, d: Id)
    requires Protected(s) && d in s.dispatches && s.dispatches[d].acked.Some?
    ensures Covered(s, d, AckDomain)
  {
  }

  /** A result is refused, or its message is accepted and its dispatch then keeps or gains its flag. */
  lemma ResultCases(ps: map<Id, Profile>, s: State, f: Frame, d: Id, task: Id, lease: Id, succeeded: bool,
                    evidence: Id, digest: Option<Digest>, content: Option<Bytes>, now: Time)
    ensures var u := AcceptResult(ps, s, f, d, task, lease, succeeded, evidence, digest, content, now).0;
      u == s || (MessageOk(ps, s, f, now) && d in s.dispatches && s.dispatches[d].acked.Some?
        && var t := Accept(s, f, ResultDomain, None, 0, Some(d));
           u == t.(db := u.db) || u == t.(db := u.db, dispatches := s.dispatches[d := s.dispatches[d].(resulted := true)]))
  {
  }

  lemma StoreQuiet(s: State, t: State)
    requires t == s.(db := t.db)
    ensures Quiet(s, t)
  {
  }

  lemma ResultKeeps(ps: map<Id, Profile>, s: State, f: Frame, d: Id, task: Id, lease: Id, succeeded: bool,
                    evidence: Id, digest: Option<Digest>, content: Option<Bytes>, now: Time)
    requires Protected(s)
    ensures Protected(AcceptResult(ps, s, f, d, task, lease, succeeded, evidence, digest, content, now).0)
  {
    hide Protected, Covered, Quiet, AcceptResult, Accept;
    var u := AcceptResult(ps, s, f, d, task, lease, succeeded, evidence, digest, content, now).0;
    ResultCases(ps, s, f, d, task, lease, succeeded, evidence, digest, content, now);
    if u != s {
      var t := Accept(s, f, ResultDomain, None, 0, Some(d));
      AcceptKeeps(ps, s, f, ResultDomain, None, 0, Some(d), now);
      AcceptCovers(s, f, ResultDomain, d);
      AckedCovered(s, d);
      CoveredGrows(s, t, d, AckDomain);
      if u == t.(db := u.db) { StoreQuiet(t, u); QuietKeeps(t, u); } else { FlagKeeps(t, u, d); }
    }
  }

  predicate IsQuiet(e: Event) { e.Issuing? || e.Dispatching? || e.Revoking? || e.Restarting? || e.Storing? }

  lemma IssueQuiet(ps: map<Id, Profile>, s: State, e: Event)
    requires e.Issuing?
    ensures Quiet(s, After(ps, s, e))
  {
  }

  lemma DispatchQuiet(ps: map<Id, Profile>, s: State, e: Event)
    requires e.Dispatching?
    ensures Quiet(s, After(ps, s, e))
  {
    hide Quiet, SendDispatch;
    SendQuiet(s, e.id, e.task, e.capability, e.target, e.worker, e.lease, e.session, e.now);
  }

  lemma SendQuiet(s: State, id: Id, task: Id, capability: Id, target: Id, worker: Id, lease: Id, session: Id, now: Time)
    ensures Quiet(s, SendDispatch(s, id, task, capability, target, worker, lease, session, now).0)
  {
    hide HeldBy, Unexpired, IsIdentifier;
  }

  lemma RevokeQuiet(ps: map<Id, Profile>, s: State, e: Event)
    requires e.Revoking?
    ensures Quiet(s, After(ps, s, e))
  {
  }

  lemma RestartQuiet(s: State)
    ensures Quiet(s, Restart(s))
  {
  }

  lemma EventQuiet(ps: map<Id, Profile>, s: State, e: Event)
    requires IsQuiet(e)
    ensures Quiet(s, After(ps, s, e))
  {
    if e.Issuing? { IssueQuiet(ps, s, e); }
    else if e.Dispatching? { DispatchQuiet(ps, s, e); }
    else if e.Revoking? { RevokeQuiet(ps, s, e); }
    else if e.Restarting? { RestartQuiet(s); }
  }

  lemma StepKeeps(ps: map<Id, Profile>, s: State, e: Event)
    requires Protected(s)
    ensures Protected(After(ps, s, e))
  {
    if IsQuiet(e) {
      EventQuiet(ps, s, e);
      QuietKeeps(s, After(ps, s, e));
    } else if e.Authenticating? {
      AuthenticateKeeps(ps, s, e.hello, e.now);
    } else if e.Beating? {
      HeartbeatKeeps(ps, s, e.frame, e.capacity, e.now);
    } else if e.Acking? {
      AckKeeps(ps, s, e.frame, e.id, e.task, e.lease, e.now);
    } else {
      ResultKeeps(ps, s, e.frame, e.id, e.task, e.lease, e.succeeded, e.evidence, e.digest, e.content, e.now);
    }
  }

  lemma {:induction false} RunKeeps(ps: map<Id, Profile>, s: State, es: seq<Event>)
    requires Protected(s)
    ensures Protected(Run(ps, s, es))
    decreases |es|
  {
    if es != [] {
      StepKeeps(ps, s, es[0]);
      RunKeeps(ps, After(ps, s, es[0]), es[1..]);
    }
  }

  lemma NewGatewayProtected(db: Db, revoked: set<Id>)
    ensures Protected(NewGateway(db, revoked))
  {
  }

  /** From a gateway over empty tables, over every run, with restarts, re-authentications, revocations
      and any use of the store by others: no message id is accepted twice, no challenge authenticates
      twice, sequence numbers and heartbeat times strictly increase within each authentication, and a
      result flag implies the acknowledgement flag. */
  lemma RunProtected(ps: map<Id, Profile>, db: Db, revoked: set<Id>, es: seq<Event>)
    ensures Protected(Run(ps, NewGateway(db, revoked), es))
  {
    NewGatewayProtected(db, revoked);
    RunKeeps(ps, NewGateway(db, revoked), es);
  }

  // ---------------------------------------------------------------- revocation and restart

  /** Every message accepted after the first `n` is in an epoch later than `base`, and so is every
      authenticated session; revoked workers have none. */
  ghost predicate Renewed(s: State, base: map<Id, nat>, gone: set<Id>, n: nat) {
    && n <= |s.log| && gone <= s.revoked
    && (forall w :: Get(base, w) <= EpochOf(s, w))
    && (forall w :: w in s.sessions && s.sessions[w].state.Authenticated? ==> EpochOf(s, w) > Get(base, w))
    && (forall i :: n <= i < |s.log| ==> s.log[i].epoch > Get(base, s.log[i].worker) && s.log[i].worker !in gone)
  }

  function Get(m: map<Id, nat>, k: Id): nat { if k in m then m[k] else 0 }

  lemma QuietRenews(s: State, t: State, base: map<Id, nat>, gone: set<Id>, n: nat)
    requires Renewed(s, base, gone, n) && Quiet(s, t)
    ensures Renewed(t, base, gone, n)
  {
    forall w | w in t.sessions && t.sessions[w].state.Authenticated? ensures EpochOf(t, w) > Get(base, w) {
      assert s.sessions[w].state.Authenticated?;
    }
  }

  lemma AcceptRenews(ps: map<Id, Profile>, s: State, f: Frame, domain: Domain, heartbeat: Option<Time>, capacity: int,
                     dispatch: Option<Id>, now: Time, base: map<Id, nat>, gone: set<Id>, n: nat)
    requires Renewed(s, base, gone, n) && MessageOk(ps, s, f, now)
    ensures Renewed(Accept(s, f, domain, heartbeat, capacity, dispatch), base, gone, n)
  {
  }

  lemma AuthenticateRenews(ps: map<Id, Profile>, s: State, h: Hello, now: Time, base: map<Id, nat>, gone: set<Id>, n: nat)
    requires Renewed(s, base, gone, n)
    ensures Renewed(Authenticate(ps, s, h, now).0, base, gone, n)
  {
    var (t, ok) := Authenticate(ps, s, h, now);
    if ok {
      forall w | w in t.sessions && t.sessions[w].state.Authenticated? ensures EpochOf(t, w) > Get(base, w) {
        if w != h.worker { assert w in s.sessions; }
      }
    }
  }

  /** What a message does besides being accepted does not matter here. */
  lemma MessageEffect(ps: map<Id, Profile>, s: State, e: Event) returns (heartbeat: Option<Time>, capacity: int)
    requires e.Beating? || e.Acking? || e.Resulting?
    ensures var t := After(ps, s, e);
      || t == s
      || (&& MessageOk(ps, s, e.frame, e.now)
          && var domain := if e.Beating? then HeartbeatDomain else if e.Acking? then AckDomain else ResultDomain;
            var dispatch := if e.Beating? then None else Some(e.id);
            t == Accept(s, e.frame, domain, heartbeat, capacity, dispatch).(db := t.db, dispatches := t.dispatches))
  {
    heartbeat := if e.Beating? then Some(e.frame.observed) else None;
    capacity := if e.Beating? then e.capacity else 0;
  }

  lemma RestRenews(s: State, t: State, base: map<Id, nat>, gone: set<Id>, n: nat)
    requires Renewed(s, base, gone, n) && t == s.(db := t.db, dispatches := t.dispatches)
    ensures Renewed(t, base, gone, n)
  {
  }

  lemma StepRenews(ps: map<Id, Profile>, s: State, e: Event, base: map<Id, nat>, gone: set<Id>, n: nat)
    requires Renewed(s, base, gone, n)
    ensures Renewed(After(ps, s, e), base, gone, n)
  {
    hide Renewed, Quiet;
    if IsQuiet(e) {
      EventQuiet(ps, s, e);
      QuietRenews(s, After(ps, s, e), base, gone, n);
    } else if e.Authenticating? {
      AuthenticateRenews(ps, s, e.hello, e.now, base, gone, n);
    } else {
      var heartbeat, capacity := MessageEffect(ps, s, e);
      if After(ps, s, e) != s {
        var domain := if e.Beating? then HeartbeatDomain else if e.Acking? then AckDomain else ResultDomain;
        var dispatch := if e.Beating? then None else Some(e.id);
        AcceptRenews(ps, s, e.frame, domain, heartbeat, capacity, dispatch, e.now, base, gone, n);
        RestRenews(Accept(s, e.frame, domain, heartbeat, capacity, dispatch), After(ps, s, e), base, gone, n);
      }
    }
  }

  lemma {:induction false} RunRenews(ps: map<Id, Profile>, s: State, es: seq<Event>, base: map<Id, nat>, gone: set<Id>, n: nat)
    requires Renewed(s, base, gone, n)
    ensures Renewed(Run(ps, s, es), base, gone, n)
    decreases |es|
  {
    if es != [] {
      StepRenews(ps, s, es[0], base, gone, n);
      RunRenews(ps, After(ps, s, es[0]), es[1..], base, gone, n);
    }
  }

  /** After a restart, every message accepted belongs to an authentication made since, and none is
      from a worker revoked before. */
  lemma RestartCutsOff(ps: map<Id, Profile>, s: State, es: seq<Event>)
    ensures var t := Run(ps, Restart(s), es);
      && |s.log| <= |t.log|
      && forall i :: |s.log| <= i < |t.log| ==> t.log[i].epoch > EpochOf(s, t.log[i].worker) && t.log[i].worker !in s.revoked
  {
    assert Renewed(Restart(s), s.epochs, s.revoked, |s.log|);
    RunRenews(ps, Restart(s), es, s.epochs, s.revoked, |s.log|);
    assert forall w :: Get(s.epochs, w) == EpochOf(s, w);
  }

  /** A revoked worker never has a message accepted again. */
  lemma RevokedForever(ps: map<Id, Profile>, s: State, es: seq<Event>)
    requires Counted(s)
    ensures var t := Run(ps, s, es);
      |s.log| <= |t.log| && forall i :: |s.log| <= i < |t.log| ==> t.log[i].worker !in s.revoked
  {
    assert Renewed(s, map[], s.revoked, |s.log|);
    RunRenews(ps, s, es, map[], s.revoked, |s.log|);
  }

  // ---------------------------------------------------------------- one session id, one worker

  /** Authenticating leaves every other worker's session alone exactly when none has the same
      session id; the unique column makes the insertion delete such a row. */
  lemma DisplacesExactly(ps: map<Id, Profile>, s: State, h: Hello, now: Time)
    requires Authenticate(ps, s, h, now).1
    ensures var t := Authenticate(ps, s, h, now).0;
      (forall w :: w in s.sessions && w != h.worker ==> w in t.sessions && t.sessions[w] == s.sessions[w])
      <==> (forall w :: w in s.sessions && w != h.worker ==> s.sessions[w].id != h.session)
  {
  }
}
