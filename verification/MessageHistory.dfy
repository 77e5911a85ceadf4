/** What each handler of the authenticated gateway does, told in frames, profiles, sessions and rows; and where
    every accepted message and every authentication came from, over whole runs. */
module MessageHistory {
  import opened Basics
  import opened Store
  import opened ExternalGateway
  import Rows = StoreHistory

  // ---------------------------------------------------------------- frames

  /** The registry trusts the worker and it has not been revoked. */
  predicate Enabled(ps: map<Id, Profile>, s: State, k: Id) { IsIdentifier(k) && k in ps && ps[k].active && k !in s.revoked }

  /** The signature verifies; the worker is enabled and its authenticated session is the one named, under the same
      key and the registered digest; the protocol is this one; the sequence number is new, the message id unspent,
      and the observation not from the future. */
  predicate Genuine(ps: map<Id, Profile>, s: State, f: Frame, now: Time) {
    && f.signed && Enabled(ps, s, f.worker) && f.worker in s.sessions
    && s.sessions[f.worker].state == Authenticated && s.sessions[f.worker].id == f.session && s.sessions[f.worker].key == f.key
    && s.sessions[f.worker].digest == ps[f.worker].digest && f.protocol == "AF05/1"
    && f.sequence > s.sessions[f.worker].lastSequence && f.message !in s.messages
    && 0.0 <= f.observed <= now + 1.0 && now >= 0.0
    && IsIdentifier(f.key) && IsIdentifier(f.session) && IsIdentifier(f.message)
  }

  lemma GenuineExactly(ps: map<Id, Profile>, s: State, f: Frame, now: Time)
    ensures MessageOk(ps, s, f, now) <==> Genuine(ps, s, f, now)
  {
  }

  /** How often the worker has authenticated. */
  function Epoch(s: State, k: Id): nat { if k in s.epochs then s.epochs[k] else 0 }

  /** The message is spent: its id is taken, its session stands at its sequence number, and history notes it. */
  function SpentBy(s: State, f: Frame, domain: Domain, dispatch: Option<Id>): State
    requires f.worker in s.sessions
  {
    s.(messages := s.messages + {f.message},
       sessions := s.sessions[f.worker := s.sessions[f.worker].(lastSequence := f.sequence)],
       log := s.log + [Accepted(f.message, f.worker, Epoch(s, f.worker), f.sequence, domain, None, dispatch)])
  }

  /** A heartbeat is accepted exactly when its frame is genuine, it is observed later than the last and within the
      profile's SLA, its capacity is within the profile's, and the worker is registered. Session and worker row
      then have its time and capacity; otherwise nothing changes. */
  lemma BeatExactly(ps: map<Id, Profile>, s: State, f: Frame, capacity: int, now: Time)
    ensures var (t, ok) := Heartbeat(ps, s, f, capacity, now);
      && (ok <==>
            && Genuine(ps, s, f, now) && f.observed > s.sessions[f.worker].lastHeartbeat && now - f.observed <= ps[f.worker].sla
            && 0 <= capacity <= ps[f.worker].maxCapacity && f.worker in s.db.workers)
      && (ok ==>
            && f.worker in s.sessions && f.worker in s.db.workers && capacity >= 0
            && t == SpentBy(s, f, HeartbeatDomain, None).(
                 sessions := s.sessions[f.worker := s.sessions[f.worker].(
                   lastSequence := f.sequence, lastHeartbeat := f.observed, capacity := capacity)],
                 log := s.log + [Accepted(f.message, f.worker, Epoch(s, f.worker), f.sequence, HeartbeatDomain, Some(f.observed), None)],
                 db := s.db.(workers := s.db.workers[f.worker := s.db.workers[f.worker].(heartbeat := f.observed, capacity := capacity)])))
      && (!ok ==> t == s)
  {
    hide IsIdentifier;
    GenuineExactly(ps, s, f, now);
  }

  // ---------------------------------------------------------------- dispatches

  /** The frame's worker and session, and this task and lease, are those of the dispatch. */
  predicate Names(s: State, f: Frame, id: Id, task: Id, lease: Id) {
    && IsIdentifier(id) && id in s.dispatches
    && s.dispatches[id].task == task && s.dispatches[id].worker == f.worker
    && s.dispatches[id].session == f.session && s.dispatches[id].lease == lease
  }

  /** A dispatch is sent exactly for a task leased under an unexpired lease to a worker whose authenticated
      session it names; the first writes the row. */
  lemma SendExactly(s: State, id: Id, task: Id, capability: Id, target: Id, worker: Id, lease: Id, session: Id, now: Time)
    ensures var (t, ok) := SendDispatch(s, id, task, capability, target, worker, lease, session, now);
      && (ok <==>
            && now >= 0.0 && IsIdentifier(worker) && IsIdentifier(task) && IsIdentifier(lease)
            && worker in s.sessions && s.sessions[worker].state == Authenticated && s.sessions[worker].id == session
            && Rows.OnLeaseNow(s.db, task, worker, lease, now) && s.db.tasks[task].state.Leased?
            && s.db.tasks[task].capability == capability && s.db.tasks[task].target == target)
      && t == if ok && id !in s.dispatches then
                s.(dispatches := s.dispatches[id := Dispatch(task, worker, session, lease, s.db.tasks[task].lease.value.expires, None, false)])
              else s
  {
    hide IsIdentifier;
  }

  /** An acknowledgement spends its message exactly when the frame is genuine and names a dispatch not yet
      acknowledged; it is accepted exactly when, besides, the task is leased under the dispatch's unexpired lease
      to a worker with a fresh heartbeat. Then the task runs and the dispatch notes when. */
  lemma AckExactly(ps: map<Id, Profile>, s: State, f: Frame, id: Id, task: Id, lease: Id, now: Time)
    ensures var (t, ok) := Acknowledge(ps, s, f, id, task, lease, now);
      var spends := Genuine(ps, s, f, now) && Names(s, f, id, task, lease) && s.dispatches[id].acked.None?;
      && (ok <==> spends && Rows.OnLeaseNow(s.db, task, f.worker, lease, now) && s.db.tasks[task].state.Leased? && Rows.Beats(s.db, f.worker, now))
      && (!spends ==> t == s)
      && (spends && !ok ==> t == SpentBy(s, f, AckDomain, Some(id)))
      && (ok ==>
            t == SpentBy(s, f, AckDomain, Some(id)).(
              db := s.db.(tasks := s.db.tasks[task := s.db.tasks[task].(state := Running)]),
              dispatches := s.dispatches[id := s.dispatches[id].(acked := Some(f.observed))]))
  {
    hide IsIdentifier, MessageOk;
    GenuineExactly(ps, s, f, now);
  }

  /** The dispatch was acknowledged, has no result and has not expired, and the result is a success whose
      evidence is in the spool under its digest. */
  predicate Delivers(s: State, id: Id, succeeded: bool, evidence: Id, digest: Option<Digest>, content: Option<Bytes>, now: Time) {
    && id in s.dispatches && s.dispatches[id].acked.Some? && !s.dispatches[id].resulted && s.dispatches[id].expires > now
    && succeeded && IsIdentifier(evidence) && content.Some? && digest == Some(Digest(content.value))
  }

  /** The store takes the result: from the worker of the task's unexpired lease, with a fresh heartbeat, before
      any review, and with evidence new to the task. */
  ghost predicate Submittable(db: Db, task: Id, worker: Id, lease: Id, evidence: Id, digest: Digest, now: Time) {
    && Rows.OnLeaseNow(db, task, worker, lease, now) && Rows.Beats(db, worker, now)
    && (db.tasks[task].state.Leased? || db.tasks[task].state.Running? || db.tasks[task].state.EvidencePending?)
    && Rows.NewEvidence(db, task, evidence, digest)
  }

  lemma Submits(db: Db, task: Id, worker: Id, lease: Id, evidence: Id, digest: Digest, now: Time)
    requires now >= 0.0
    ensures var r := SubmitResult(db, task, worker, lease, evidence, Some(digest), now);
      && (r.answer.Done? <==> Submittable(db, task, worker, lease, evidence, digest, now))
      && r.db == if Submittable(db, task, worker, lease, evidence, digest, now) then
                   db.(tasks := db.tasks[task := db.tasks[task].(state := ReviewPending, evidence := Received)],
                       evidence := db.evidence[EvidenceKey(task, evidence) := digest])
                 else db
  {
  }

  /** A result spends its message exactly when the frame is genuine and names a dispatch that it delivers; it is
      accepted exactly when, besides, the store takes it. Then the task is under review. */
  lemma ResultExactly(ps: map<Id, Profile>, s: State, f: Frame, id: Id, task: Id, lease: Id,
                      succeeded: bool, evidence: Id, digest: Option<Digest>, content: Option<Bytes>, now: Time)
    ensures var (t, ok) := AcceptResult(ps, s, f, id, task, lease, succeeded, evidence, digest, content, now);
      var spends := Genuine(ps, s, f, now) && Names(s, f, id, task, lease) && Delivers(s, id, succeeded, evidence, digest, content, now);
      && (ok <==> spends && Submittable(s.db, task, f.worker, lease, evidence, digest.value, now))
      && (!spends ==> t == s)
      && (spends && !ok ==> t == SpentBy(s, f, ResultDomain, Some(id)))
      && (ok ==>
            t == SpentBy(s, f, ResultDomain, Some(id)).(
              db := s.db.(tasks := s.db.tasks[task := s.db.tasks[task].(state := ReviewPending, evidence := Received)],
                          evidence := s.db.evidence[EvidenceKey(task, evidence) := digest.value]),
              dispatches := s.dispatches[id := s.dispatches[id].(resulted := true)]))
  {
    hide IsIdentifier, MessageOk, SubmitResult, Submittable;
    GenuineExactly(ps, s, f, now);
    if now >= 0.0 && digest.Some? { Submits(s.db, task, f.worker, lease, evidence, digest.value, now); }
  }

  // ---------------------------------------------------------------- authentication

  /** The hello answers a challenge issued to its worker under its key and digest: not consumed, not expired, not
      from the future, with the nonce it was issued for and its times. */
  predicate Answers(ps: map<Id, Profile>, s: State, h: Hello, now: Time)
    requires h.worker in ps
  {
    && h.challenge in s.challenges && h.nonce.Some?
    && s.challenges[h.challenge].worker == h.worker && s.challenges[h.challenge].key == h.key
    && s.challenges[h.challenge].digest == ps[h.worker].digest && s.challenges[h.challenge].nonce == Digest(h.nonce.value)
    && s.challenges[h.challenge].issued == h.issued && s.challenges[h.challenge].expires == h.expires
    && !s.challenges[h.challenge].consumed && now < s.challenges[h.challenge].expires && s.challenges[h.challenge].issued <= now + 1.0
  }

  /** The signature verifies, worker, key, digest, protocol and capacity are the registered ones, and the hello
      answers a challenge; and no other session of the worker is authenticated and alive. */
  predicate Proven(ps: map<Id, Profile>, s: State, h: Hello, now: Time) {
    && h.signed && now >= 0.0 && Enabled(ps, s, h.worker)
    && h.key == ps[h.worker].key && h.digest == ps[h.worker].digest && h.protocol == "AF05/1" && 0 <= h.capacity <= ps[h.worker].maxCapacity
    && IsIdentifier(h.key) && IsIdentifier(h.session) && IsIdentifier(h.challenge)
    && Answers(ps, s, h, now)
    && (h.worker in s.sessions && s.sessions[h.worker].state == Authenticated ==>
          s.sessions[h.worker].id == h.session || now > s.sessions[h.worker].lastHeartbeat + ps[h.worker].sla)
  }

  lemma ProvenExactly(ps: map<Id, Profile>, s: State, h: Hello, now: Time)
    ensures HelloOk(ps, s, h, now) <==> Proven(ps, s, h, now)
  {
  }

  /** A hello is accepted exactly when it is proven (and the profile's SLA is positive). It consumes its challenge
      and opens the worker's session from sequence number 0; of the other sessions it removes those with its id. */
  lemma AuthenticateExactly(ps: map<Id, Profile>, s: State, h: Hello, now: Time)
    ensures var (t, ok) := Authenticate(ps, s, h, now);
      && (ok <==> Proven(ps, s, h, now) && ps[h.worker].sla > 0.0)
      && (!ok ==> t == s)
      && (ok ==>
            && h.worker in ps && h.challenge in s.challenges && h.capacity >= 0
            && t == s.(db := t.db, sessions := t.sessions,
                       challenges := s.challenges[h.challenge := s.challenges[h.challenge].(consumed := true)],
                       epochs := s.epochs[h.worker := Epoch(s, h.worker) + 1], proofs := s.proofs + [h.challenge])
            && var p := ps[h.worker];
              t.db == s.db.(workers := s.db.workers[h.worker := Worker(p.kind, p.capabilities, p.targets, now, p.sla, h.capacity)]))
      && (ok ==>
            && h.worker in t.sessions
            && t.sessions[h.worker] == Session(h.session, h.key, h.digest, now, 0, now, h.capacity, Authenticated)
            && forall w :: w != h.worker ==>
                 (w in t.sessions <==> w in s.sessions && s.sessions[w].id != h.session) && (w in t.sessions ==> t.sessions[w] == s.sessions[w]))
  {
    hide IsIdentifier, HelloOk, Answers;
    ProvenExactly(ps, s, h, now);
    ProvenFields(ps, s, h, now);
    if Authenticate(ps, s, h, now).1 { Displaced(s.sessions, h.worker, Session(h.session, h.key, h.digest, now, 0, now, h.capacity, Authenticated)); }
  }

  lemma Displaced(sessions: map<Id, Session>, k: Id, row: Session)
    ensures var t := Displace(sessions, k, row);
      && k in t && t[k] == row
      && forall w :: w != k ==> (w in t <==> w in sessions && sessions[w].id != row.id) && (w in t ==> t[w] == sessions[w])
  {
  }

  lemma ProvenFields(ps: map<Id, Profile>, s: State, h: Hello, now: Time)
    ensures Proven(ps, s, h, now) ==> now >= 0.0 && h.worker in ps && h.challenge in s.challenges && h.capacity >= 0
  {
  }

  /** A challenge is issued exactly to an enabled worker under its registered key, with an id not in use; it holds
      the digest of its nonce and lasts for the time to live. */
  lemma IssueExactly(ps: map<Id, Profile>, s: State, id: Id, worker: Id, key: Id, nonce: Bytes, ttl: Time, now: Time)
    ensures var (t, ok) := IssueChallenge(ps, s, id, worker, key, nonce, ttl, now);
      && (ok <==> now >= 0.0 && Enabled(ps, s, worker) && key == ps[worker].key && id !in s.challenges)
      && t == if ok then s.(challenges := s.challenges[id := Challenge(worker, key, Digest(nonce), ps[worker].digest, now, now + ttl, false)]) else s
  {
  }

  /** A revocation is accepted exactly for a registered worker; it stays revoked, and so does its session. */
  lemma RevokeExactly(ps: map<Id, Profile>, s: State, worker: Id)
    ensures var (t, ok) := Revoke(ps, s, worker);
      && (ok <==> IsIdentifier(worker) && worker in ps)
      && t == s.(revoked := t.revoked, sessions := t.sessions) && t.revoked == (if ok then s.revoked + {worker} else s.revoked)
      && t.sessions.Keys == s.sessions.Keys
      && forall w :: w in s.sessions ==> t.sessions[w] == if ok && w == worker then s.sessions[w].(state := Revoked) else s.sessions[w]
  {
  }

  /** A restart makes every authenticated session authenticate again, and changes nothing else. */
  lemma RestartExactly(s: State)
    ensures var t := Restart(s);
      && t == s.(sessions := t.sessions) && t.sessions.Keys == s.sessions.Keys
      && forall w :: w in s.sessions ==>
           t.sessions[w] == if s.sessions[w].state == Authenticated then s.sessions[w].(state := ReauthRequired) else s.sessions[w]
  {
  }

  // ---------------------------------------------------------------- one step

  predicate Carries(e: Event) { e.Beating? || e.Acking? || e.Resulting? }

  /** A frame whose signature does not verify is answered false and changes nothing. */
  lemma UnsignedRefused(ps: map<Id, Profile>, s: State, e: Event)
    requires Carries(e) && !e.frame.signed
    ensures After(ps, s, e) == s
    ensures e.Beating? ==> Heartbeat(ps, s, e.frame, e.capacity, e.now) == (s, false)
    ensures e.Acking? ==> Acknowledge(ps, s, e.frame, e.id, e.task, e.lease, e.now) == (s, false)
    ensures e.Resulting? ==>
      AcceptResult(ps, s, e.frame, e.id, e.task, e.lease, e.succeeded, e.evidence, e.digest, e.content, e.now) == (s, false)
  {
    hide Heartbeat, Acknowledge, AcceptResult;
    match e
    case Beating(f, c, now) => BeatExactly(ps, s, f, c, now);
    case Acking(f, id, t, l, now) => AckExactly(ps, s, f, id, t, l, now);
    case Resulting(f, id, t, l, ok, ev, d, c, now) => ResultExactly(ps, s, f, id, t, l, ok, ev, d, c, now);
  }

  /** Nor does a hello whose signature does not verify open a session or consume a challenge. */
  lemma UnsignedHelloRefused(ps: map<Id, Profile>, s: State, h: Hello, now: Time)
    requires !h.signed
    ensures Authenticate(ps, s, h, now) == (s, false)
  {
    hide Authenticate, Answers;
    AuthenticateExactly(ps, s, h, now);
  }

  /** The history of messages. */
  ghost predicate LogMoves(ps: map<Id, Profile>, s: State, e: Event, log: seq<Accepted>) {
    || log == s.log
    || (&& Carries(e) && Genuine(ps, s, e.frame, e.now) && |log| == |s.log| + 1 && log[..|s.log|] == s.log
        && log[|s.log|].message == e.frame.message && log[|s.log|].worker == e.frame.worker && log[|s.log|].sequence == e.frame.sequence
        && (e.Acking? || e.Resulting? ==> log[|s.log|].dispatch == Some(e.id) && Names(s, e.frame, e.id, e.task, e.lease)))
  }

  lemma LogStep(ps: map<Id, Profile>, s: State, e: Event)
    ensures LogMoves(ps, s, e, After(ps, s, e).log)
  {
    hide Heartbeat, Acknowledge, AcceptResult, Authenticate, SendDispatch, IssueChallenge, Revoke, Restart;
    hide Genuine, Names, Delivers, Submittable, Proven;
    match e
    case Issuing(id, w, k, n, ttl, now) => IssueExactly(ps, s, id, w, k, n, ttl, now);
    case Authenticating(h, now) => AuthenticateExactly(ps, s, h, now);
    case Beating(f, c, now) => BeatExactly(ps, s, f, c, now);
    case Dispatching(id, t, c, tg, w, l, sess, now) => SendExactly(s, id, t, c, tg, w, l, sess, now);
    case Acking(f, id, t, l, now) => AckExactly(ps, s, f, id, t, l, now);
    case Resulting(f, id, t, l, ok, ev, d, c, now) => ResultExactly(ps, s, f, id, t, l, ok, ev, d, c, now);
    case Revoking(w) => RevokeExactly(ps, s, w);
    case Restarting => RestartExactly(s);
    case Storing(_) =>
  }

  /** A session appears or changes its id only by a proven hello, and is authenticated only by one. */
  ghost predicate SessionMoves(ps: map<Id, Profile>, s: State, e: Event, k: Id, v: Session) {
    || (&& k in s.sessions && s.sessions[k].id == v.id && s.sessions[k].key == v.key
        && (v.state == Authenticated ==> s.sessions[k].state == Authenticated))
    || (&& e.Authenticating? && e.hello.worker == k && Proven(ps, s, e.hello, e.now)
        && v.id == e.hello.session && v.key == e.hello.key && v.digest == e.hello.digest)
  }

  lemma GenuineSession(ps: map<Id, Profile>, s: State, f: Frame, now: Time)
    ensures Genuine(ps, s, f, now) ==> f.worker in s.sessions
  {
  }

  lemma MessageSession(ps: map<Id, Profile>, s: State, e: Event, k: Id)
    requires Carries(e) && k in After(ps, s, e).sessions
    ensures k in s.sessions && s.sessions[k] == After(ps, s, e).sessions[k].(
      lastSequence := s.sessions[k].lastSequence, lastHeartbeat := s.sessions[k].lastHeartbeat, capacity := s.sessions[k].capacity)
  {
    hide Heartbeat, Acknowledge, AcceptResult, Genuine, Names, Delivers, Submittable;
    GenuineSession(ps, s, e.frame, e.now);
    match e
    case Beating(f, c, now) => BeatExactly(ps, s, f, c, now);
    case Acking(f, id, t, l, now) => AckExactly(ps, s, f, id, t, l, now);
    case Resulting(f, id, t, l, ok, ev, d, c, now) => ResultExactly(ps, s, f, id, t, l, ok, ev, d, c, now);
  }

  lemma SessionStep(ps: map<Id, Profile>, s: State, e: Event, k: Id)
    requires k in After(ps, s, e).sessions
    ensures SessionMoves(ps, s, e, k, After(ps, s, e).sessions[k])
  {
    hide Heartbeat, Acknowledge, AcceptResult, Authenticate, SendDispatch, IssueChallenge, Revoke, Restart, Proven;
    if Carries(e) { MessageSession(ps, s, e, k); }
    match e
    case Issuing(id, w, c, n, ttl, now) => IssueExactly(ps, s, id, w, c, n, ttl, now);
    case Authenticating(h, now) => AuthenticateExactly(ps, s, h, now);
    case Dispatching(id, t, c, tg, w, l, sess, now) => SendExactly(s, id, t, c, tg, w, l, sess, now);
    case Revoking(w) => RevokeExactly(ps, s, w);
    case Restarting => RestartExactly(s);
    case _ =>
  }

  // ---------------------------------------------------------------- over whole runs

  /** The state after the first `i` events. */
  function At(ps: map<Id, Profile>, s: State, es: seq<Event>, i: nat): State
    requires i <= |es|
  {
    Run(ps, s, es[..i])
  }

  lemma {:induction false} StepAt(ps: map<Id, Profile>, s: State, es: seq<Event>, i: nat)
    requires i < |es|
    ensures At(ps, s, es, i + 1) == After(ps, At(ps, s, es, i), es[i])
    decreases i
  {
    hide After;
    if i == 0 {
      assert es[..0] == [] && es[..1] == [es[0]] && es[..1][1..] == [];
      assert Run(ps, After(ps, s, es[0]), []) == After(ps, s, es[0]);
    } else {
      assert es[1..][..i - 1] == es[..i][1..] && es[1..][..i] == es[..i + 1][1..];
      StepAt(ps, After(ps, s, es[0]), es[1..], i - 1);
    }
  }

  lemma Ends(ps: map<Id, Profile>, s: State, es: seq<Event>)
    ensures At(ps, s, es, 0) == s && At(ps, s, es, |es|) == Run(ps, s, es)
  {
    assert es[..|es|] == es;
  }

  predicate Notes(s: State, n: nat, a: Accepted) { n < |s.log| && s.log[n] == a }

  lemma LogKept(ps: map<Id, Profile>, s: State, e: Event, log: seq<Accepted>)
    requires LogMoves(ps, s, e, log)
    ensures |s.log| <= |log| && forall m :: 0 <= m < |s.log| ==> log[m] == s.log[m]
  {
    hide Genuine, Names;
    if log != s.log {
      forall m | 0 <= m < |s.log| ensures log[m] == s.log[m] { assert log[..|s.log|][m] == log[m]; }
    }
  }

  lemma NotedNow(ps: map<Id, Profile>, s: State, e: Event, n: nat, a: Accepted)
    requires !Notes(s, n, a) && Notes(After(ps, s, e), n, a)
    ensures Carries(e) && Genuine(ps, s, e.frame, e.now) && n == |s.log|
    ensures a.message == e.frame.message && a.worker == e.frame.worker && a.sequence == e.frame.sequence
    ensures e.Acking? || e.Resulting? ==> a.dispatch == Some(e.id) && Names(s, e.frame, e.id, e.task, e.lease)
  {
    hide After, Genuine, Names;
    LogStep(ps, s, e);
    LogKept(ps, s, e, After(ps, s, e).log);
  }

  /** Over every run from a new gateway, every accepted message came from a frame that was genuine when it was
      accepted: signed, from the worker's authenticated session, with a new sequence number and message id. */
  lemma EveryMessageGenuine(ps: map<Id, Profile>, db: Db, revoked: set<Id>, es: seq<Event>, n: nat) returns (i: nat)
    requires n < |Run(ps, NewGateway(db, revoked), es).log|
    ensures i < |es| && Carries(es[i])
    ensures var o := NewGateway(db, revoked);
      var s, f, a := At(ps, o, es, i), es[i].frame, Run(ps, o, es).log[n];
      && f.signed && Genuine(ps, s, f, es[i].now) && |s.log| == n
      && a.message == f.message && a.worker == f.worker && a.sequence == f.sequence
      && (es[i].Acking? || es[i].Resulting? ==> a.dispatch == Some(es[i].id) && Names(s, f, es[i].id, es[i].task, es[i].lease))
  {
    hide Run, After, Names;
    var o := NewGateway(db, revoked);
    var a := Run(ps, o, es).log[n];
    Ends(ps, o, es);
    i := TurningPoint(|es|, (j: nat) => j <= |es| && Notes(At(ps, o, es, j), n, a));
    StepAt(ps, o, es, i);
    NotedNow(ps, At(ps, o, es, i), es[i], n, a);
  }

  predicate InSession(s: State, k: Id, session: Id, key: Id) {
    k in s.sessions && s.sessions[k].state == Authenticated && s.sessions[k].id == session && s.sessions[k].key == key
  }

  /** Over every run from a new gateway, an authenticated session was opened by a proven hello: signed by a worker
      enabled then, under its registered key, answering a challenge of its own that had not expired. */
  lemma EverySessionProven(ps: map<Id, Profile>, db: Db, revoked: set<Id>, es: seq<Event>, k: Id, session: Id, key: Id) returns (i: nat)
    requires InSession(Run(ps, NewGateway(db, revoked), es), k, session, key)
    ensures i < |es| && es[i].Authenticating? && es[i].hello.worker == k && es[i].hello.session == session && es[i].hello.key == key
    ensures es[i].hello.signed && Proven(ps, At(ps, NewGateway(db, revoked), es, i), es[i].hello, es[i].now)
  {
    hide Run, After, Answers;
    var o := NewGateway(db, revoked);
    Ends(ps, o, es);
    i := TurningPoint(|es|, (j: nat) => j <= |es| && InSession(At(ps, o, es, j), k, session, key));
    StepAt(ps, o, es, i);
    SessionStep(ps, At(ps, o, es, i), es[i], k);
  }
}
