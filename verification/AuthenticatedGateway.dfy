/** `AuthenticatedExternalGateway`: the handlers over the durable challenge, session, message and
    dispatch rows. */
module AuthenticatedGateway {
  import opened Basics
  import opened Store
  import Spec = ExternalGateway
  import opened AutonomyStoreObject

  class AuthenticatedExternalGateway {
    const store: AutonomyStore
    const profiles: map<Id, Spec.Profile>
    const ttl: Time
    var challenges: map<Id, Spec.Challenge>
    var sessions: map<Id, Spec.Session>
    var messages: set<Id>
    var dispatches: map<Id, Spec.Dispatch>
    var revoked: set<Id>
    ghost var epochs: map<Id, nat>
    ghost var log: seq<Spec.Accepted>
    ghost var proofs: seq<Id>

    constructor (store: AutonomyStore, profiles: map<Id, Spec.Profile>, revoked: set<Id>, ttl: Time)
      requires 1.0 <= ttl <= 300.0
      ensures this.store == store && this.profiles == profiles && this.ttl == ttl
      ensures View() == Spec.NewGateway(store.Tables(), revoked) && Spec.Protected(View())
    {
      this.store, this.profiles, this.ttl, this.revoked := store, profiles, ttl, revoked;
      challenges, sessions, messages, dispatches := map[], map[], {}, map[];
      epochs, log, proofs := map[], [], [];
    }

    ghost function View(): Spec.State reads this, store {
      Spec.State(store.Tables(), challenges, sessions, messages, dispatches, revoked, epochs, log, proofs)
    }

    predicate Trusted(worker: Id) reads this {
      IsIdentifier(worker) && worker in profiles && profiles[worker].active && worker !in revoked
    }

    /** Replay protection is what every handler hands on. */
    lemma Kept(s: Spec.State, e: Spec.Event)
      ensures Spec.Protected(s) ==> Spec.Protected(Spec.After(profiles, s, e))
    {
      if Spec.Protected(s) { Spec.StepKeeps(profiles, s, e); }
    }

    method IssueChallenge(id: Id, worker: Id, key: Id, nonce: Bytes, now: Time) returns (ok: bool)
      modifies this
      ensures (View(), ok) == Spec.IssueChallenge(profiles, old(View()), id, worker, key, nonce, ttl, now)
      ensures old(Spec.Protected(View())) ==> Spec.Protected(View())
    {
      hide Spec.Protected;
      Kept(View(), Spec.Issuing(id, worker, key, nonce, ttl, now));
      if now < 0.0 || !Trusted(worker) || key != profiles[worker].key || id in challenges { return false; }
      challenges := challenges[id := Spec.Challenge(worker, key, Digest(nonce), profiles[worker].digest, now, now + ttl, false)];
      ok := true;
    }

    method ChallengeAvailable(h: Spec.Hello, now: Time) returns (ok: bool)
      requires h.worker in profiles
      ensures ok == Spec.ChallengeOk(profiles, View(), h, now) && (ok ==> h.challenge in challenges)
    {
      if h.challenge !in challenges || h.nonce.None? { return false; }
      var c := challenges[h.challenge];
      ok := !c.consumed && c.worker == h.worker && c.key == h.key && c.digest == profiles[h.worker].digest
            && c.nonce == Digest(h.nonce.value) && c.issued == h.issued && c.expires == h.expires
            && c.expires > now && c.issued <= now + 1.0;
    }

    method AuthenticateSession(h: Spec.Hello, now: Time) returns (ok: bool)
      modifies this, store
      ensures (View(), ok) == Spec.Authenticate(profiles, old(View()), h, now)
      ensures old(Spec.Protected(View())) ==> Spec.Protected(View())
      ensures !h.signed || h.worker in old(revoked) ==> !ok && View() == old(View())
    {
      hide Spec.Protected, Spec.Displace, Spec.ChallengeOk, IsIdentifier;
      Kept(View(), Spec.Authenticating(h, now));
      ok := false;
      if now < 0.0 || !IsIdentifier(h.key) || !IsIdentifier(h.session) || !IsIdentifier(h.challenge) || !Trusted(h.worker) { return; }
      var p := profiles[h.worker];
      if h.key != p.key || h.protocol != Spec.PROTOCOL || h.digest != p.digest || !(0 <= h.capacity <= p.maxCapacity) { return; }
      var available := ChallengeAvailable(h, now);
      if !available || !h.signed { return; }
      if h.worker in sessions {
        var active := sessions[h.worker];
        if active.id != h.session && active.state.Authenticated? && now - active.lastHeartbeat <= p.sla { return; }
      }
      var r := store.Register(h.worker, p.kind, p.capabilities, p.targets, p.sla, h.capacity, now);
      ok := r.Done?;
      if ok {
        challenges := challenges[h.challenge := challenges[h.challenge].(consumed := true)];
        sessions := Spec.Displace(sessions, h.worker, Spec.Session(h.session, h.key, h.digest, now, 0, now, h.capacity, Spec.Authenticated));
        epochs := epochs[h.worker := Spec.EpochOf(old(View()), h.worker) + 1];
        proofs := proofs + [h.challenge];
      }
    }

    method CheckMessage(f: Spec.Frame, now: Time) returns (ok: bool)
      ensures ok == Spec.MessageOk(profiles, View(), f, now)
      ensures !f.signed || f.worker in revoked || f.message in messages ==> !ok
    {
      if now < 0.0 || f.observed < 0.0 || !IsIdentifier(f.key) || !IsIdentifier(f.session) || !IsIdentifier(f.message) { return false; }
      if !Trusted(f.worker) || f.worker !in sessions { return false; }
      var row := sessions[f.worker];
      ok := row.state.Authenticated? && row.id == f.session && row.key == f.key && row.digest == profiles[f.worker].digest
            && f.protocol == Spec.PROTOCOL && f.sequence > row.lastSequence && f.observed <= now + 1.0
            && f.message !in messages && f.signed;
    }

    method Accept(f: Spec.Frame, ghost domain: Spec.Domain, heartbeat: Option<Time>, capacity: int, ghost dispatch: Option<Id>)
      requires f.worker in sessions
      modifies this
      ensures View() == Spec.Accept(old(View()), f, domain, heartbeat, capacity, dispatch)
    {
      messages := messages + {f.message};
      var row := sessions[f.worker].(lastSequence := f.sequence);
      if heartbeat.Some? { row := row.(lastHeartbeat := heartbeat.value, capacity := capacity); }
      sessions := sessions[f.worker := row];
      log := log + [Spec.Accepted(f.message, f.worker, Spec.EpochOf(old(View()), f.worker), f.sequence, domain, heartbeat, dispatch)];
    }

    method Heartbeat(f: Spec.Frame, capacity: int, now: Time) returns (ok: bool)
      modifies this, store
      ensures (View(), ok) == Spec.Heartbeat(profiles, old(View()), f, capacity, now)
      ensures old(Spec.Protected(View())) ==> Spec.Protected(View())
      ensures !f.signed || f.worker in old(revoked) || f.message in old(messages) ==> !ok && View() == old(View())
    {
      hide Spec.Protected;
      Kept(View(), Spec.Beating(f, capacity, now));
      ok := CheckMessage(f, now);
      if !ok { return; }
      if f.observed <= sessions[f.worker].lastHeartbeat || now - f.observed > profiles[f.worker].sla
         || !(0 <= capacity <= profiles[f.worker].maxCapacity) { return false; }
      var r := store.Heartbeat(f.worker, capacity, now, f.observed);
      ok := r.Done?;
      if ok { Accept(f, Spec.HeartbeatDomain, Some(f.observed), capacity, None); }
    }

    method SendDispatch(id: Id, task: Id, capability: Id, target: Id, worker: Id, lease: Id, session: Id, now: Time) returns (ok: bool)
      modifies this
      ensures (View(), ok) == Spec.SendDispatch(old(View()), id, task, capability, target, worker, lease, session, now)
      ensures old(Spec.Protected(View())) ==> Spec.Protected(View())
    {
      hide Spec.Protected;
      Kept(View(), Spec.Dispatching(id, task, capability, target, worker, lease, session, now));
      ok := false;
      if now < 0.0 || !IsIdentifier(worker) || !IsIdentifier(task) || !IsIdentifier(lease) { return; }
      if worker !in sessions || !sessions[worker].state.Authenticated? || sessions[worker].id != session { return; }
      if task !in store.tasks { return; }
      var t := store.tasks[task];
      if !t.state.Leased? || !HeldBy(t, worker, lease) || !Unexpired(t, now) || capability != t.capability || target != t.target { return; }
      if id !in dispatches {
        dispatches := dispatches[id := Spec.Dispatch(task, worker, session, lease, t.lease.value.expires, None, false)];
      }
      ok := true;
    }

    method CheckBound(f: Spec.Frame, id: Id, task: Id, lease: Id) returns (ok: bool)
      ensures ok == Spec.Bound(View(), f, id, task, lease)
    {
      if !IsIdentifier(id) || id !in dispatches { return false; }
      var d := dispatches[id];
      ok := task == d.task && f.worker == d.worker && f.session == d.session && lease == d.lease;
    }

    /** The message is spent before the task is started. */
    method Acknowledge(f: Spec.Frame, id: Id, task: Id, lease: Id, now: Time) returns (ok: bool)
      modifies this, store
      ensures (View(), ok) == Spec.Acknowledge(profiles, old(View()), f, id, task, lease, now)
      ensures old(Spec.Protected(View())) ==> Spec.Protected(View())
      ensures !f.signed || f.worker in old(revoked) || f.message in old(messages) ==> !ok && View() == old(View())
    {
      hide Spec.Protected;
      Kept(View(), Spec.Acking(f, id, task, lease, now));
      ok := CheckMessage(f, now);
      if !ok { return; }
      ok := CheckBound(f, id, task, lease);
      if !ok { return; }
      if dispatches[id].acked.Some? { return false; }
      Accept(f, Spec.AckDomain, None, 0, Some(id));
      var r := store.StartTask(task, f.worker, lease, now);
      ok := r.Done?;
      if ok { dispatches := dispatches[id := dispatches[id].(acked := Some(f.observed))]; }
    }

    method AcceptResult(f: Spec.Frame, id: Id, task: Id, lease: Id, succeeded: bool, evidence: Id,
                        digest: Option<Digest>, content: Option<Bytes>, now: Time) returns (ok: bool)
      modifies this, store
      ensures (View(), ok) == Spec.AcceptResult(profiles, old(View()), f, id, task, lease, succeeded, evidence, digest, content, now)
      ensures old(Spec.Protected(View())) ==> Spec.Protected(View())
      ensures !f.signed || f.worker in old(revoked) || f.message in old(messages) ==> !ok && View() == old(View())
    {
      hide Spec.Protected;
      Kept(View(), Spec.Resulting(f, id, task, lease, succeeded, evidence, digest, content, now));
      ok := CheckMessage(f, now);
      if !ok { return; }
      ok := CheckBound(f, id, task, lease);
      if !ok { return; }
      var d := dispatches[id];
      if d.acked.None? || d.resulted || d.expires <= now || !succeeded { return false; }
      if !IsIdentifier(evidence) || content.None? || digest != Some(Digest(content.value)) { return false; }
      Accept(f, Spec.ResultDomain, None, 0, Some(id));
      var r := store.Submit(task, f.worker, lease, evidence, digest, now);
      ok := r.Done?;
      if ok { dispatches := dispatches[id := d.(resulted := true)]; }
    }

    method Revoke(worker: Id) returns (ok: bool)
      modifies this
      ensures (View(), ok) == Spec.Revoke(profiles, old(View()), worker)
      ensures old(Spec.Protected(View())) ==> Spec.Protected(View())
    {
      hide Spec.Protected;
      Kept(View(), Spec.Revoking(worker));
      if !IsIdentifier(worker) || worker !in profiles { return false; }
      revoked := revoked + {worker};
      if worker in sessions { sessions := sessions[worker := sessions[worker].(state := Spec.Revoked)]; }
      ok := true;
    }

    /** What the constructor does to the rows it finds. */
    method Restart()
      modifies this
      ensures View() == Spec.Restart(old(View()))
      ensures old(Spec.Protected(View())) ==> Spec.Protected(View())
    {
      hide Spec.Protected;
      Kept(View(), Spec.Restarting);
      sessions := map w | w in sessions ::
        if sessions[w].state.Authenticated? then sessions[w].(state := Spec.ReauthRequired) else sessions[w];
    }
  }
}
