/** One routing pass as a function of the choices made, and why those choices are a maximal greedy
    assignment. */
module RoutingPass {
  import opened Basics
  import opened Store
  import opened Ordering
  import opened Gateway
  import StoreRuns

  /** What a pass starts from: the tables, the gateway's memory, the batch in priority order, and the
      lease ids it will draw. */
  datatype Pass = Pass(
    profiles: map<Id, Profile>, mem: Memory, db: Db, ids: seq<Id>, lease: nat -> Id, seconds: Time, now: Time)

  /** The batch is schedulable and without repetition, and the gateway mirrors the store. */
  ghost predicate PassOk(p: Pass) {
    && p.now >= 0.0 && p.seconds > 0.0 && SessionsMirror(p.profiles, p.mem, p.db)
    && (forall i :: 0 <= i < |p.ids| ==> p.ids[i] in p.db.tasks && Schedulable(p.db.tasks[p.ids[i]]))
    && (forall i, j :: 0 <= i < j < |p.ids| ==> p.ids[i] != p.ids[j])
  }

  /** One task: claimed for the chosen worker, or waiting. */
  function Routed(db: Db, t: Id, pick: Option<Id>, lease: Id, seconds: Time, now: Time): (d: Db)
    ensures d == db.(tasks := d.tasks) && d.tasks.Keys == db.tasks.Keys
  {
    if pick.Some? then Claim(db, t, pick.value, lease, seconds, now).db else MarkWaitingCapacity(db, t, now).db
  }

  /** The tables after the first `k` tasks of the batch. */
  function PassTo(p: Pass, picks: seq<Option<Id>>, k: nat): (d: Db)
    requires k <= |picks| <= |p.ids|
    ensures d == p.db.(tasks := d.tasks) && d.tasks.Keys == p.db.tasks.Keys
  {
    if k == 0 then p.db
    else Routed(PassTo(p, picks, k - 1), p.ids[k - 1], picks[k - 1], p.lease(k - 1), p.seconds, p.now)
  }

  /** The choice is the least eligible worker, or nobody is eligible. */
  ghost predicate Best(p: Pass, db: Db, t: Id, pick: Option<Id>)
    requires t in p.db.tasks
  {
    var e := EligibleSet(p.profiles, p.mem, db, p.db.tasks[t].capability, p.db.tasks[t].target, p.now);
    if pick.Some? then IsLeast(pick.value, e, TextLess) else e == {}
  }

  ghost predicate BestAt(p: Pass, picks: seq<Option<Id>>, i: nat)
    requires PassOk(p) && i < |picks| <= |p.ids|
  {
    Best(p, PassTo(p, picks, i), p.ids[i], picks[i])
  }

  ghost predicate Greedy(p: Pass, picks: seq<Option<Id>>)
    requires PassOk(p)
  {
    |picks| <= |p.ids| && forall i {:trigger BestAt(p, picks, i)} :: 0 <= i < |picks| ==> BestAt(p, picks, i)
  }

  lemma {:induction false} PassToExtends(p: Pass, picks: seq<Option<Id>>, pick: Option<Id>, k: nat)
    requires k <= |picks| < |p.ids|
    ensures PassTo(p, picks + [pick], k) == PassTo(p, picks, k)
  {
    if k > 0 { PassToExtends(p, picks, pick, k - 1); }
  }

  // ---------------------------------------------------------------- where every row ends

  /** The row of batch task `i` once it has been routed. */
  function RowAfter(p: Pass, picks: seq<Option<Id>>, i: nat): Task
    requires i < |picks| <= |p.ids| && p.ids[i] in p.db.tasks
  {
    var t := p.db.tasks[p.ids[i]];
    if picks[i].Some? then t.(state := Leased, lease := Some(Lease(picks[i].value, p.lease(i), p.now + p.seconds)))
    else t.(state := WaitingCapacity)
  }

  /** Rows routed so far are leased to their worker or waiting; all else is as before the pass. */
  ghost predicate Shape(p: Pass, picks: seq<Option<Id>>, k: nat, db: Db)
    requires PassOk(p) && k <= |picks| <= |p.ids|
  {
    && db == p.db.(tasks := db.tasks) && db.tasks.Keys == p.db.tasks.Keys
    && (forall i :: 0 <= i < k ==> db.tasks[p.ids[i]] == RowAfter(p, picks, i))
    && (forall i :: k <= i < |p.ids| ==> db.tasks[p.ids[i]] == p.db.tasks[p.ids[i]])
    && (forall t :: t in p.db.tasks && t !in Elements(p.ids) ==> db.tasks[t] == p.db.tasks[t])
  }

  /** An eligible worker can take the task, so the claim cannot be refused. */
  lemma ClaimSucceeds(p: Pass, picks: seq<Option<Id>>, k: nat, db: Db)
    requires PassOk(p) && k < |picks| <= |p.ids| && Shape(p, picks, k, db) && Best(p, db, p.ids[k], picks[k])
    ensures picks[k].Some? ==>
      Claim(db, p.ids[k], picks[k].value, p.lease(k), p.seconds, p.now).answer
      == Done(Lease(picks[k].value, p.lease(k), p.now + p.seconds))
    ensures picks[k].None? ==> MarkWaitingCapacity(db, p.ids[k], p.now).answer == Done(())
    ensures Routed(db, p.ids[k], picks[k], p.lease(k), p.seconds, p.now) == db.(tasks := db.tasks[p.ids[k] := RowAfter(p, picks, k)])
  {
    assert db.tasks[p.ids[k]] == p.db.tasks[p.ids[k]];
    if picks[k].Some? { EligibleIsCanTake(p.profiles, p.mem, db, picks[k].value, db.tasks[p.ids[k]], p.now); }
  }

  lemma ShapeOneMore(p: Pass, picks: seq<Option<Id>>, k: nat, db: Db)
    requires PassOk(p) && k < |picks| <= |p.ids| && Shape(p, picks, k, db)
    ensures Shape(p, picks, k + 1, db.(tasks := db.tasks[p.ids[k] := RowAfter(p, picks, k)]))
  {
  }

  lemma PassStep(p: Pass, picks: seq<Option<Id>>, k: nat, db: Db, next: Db)
    requires PassOk(p) && k < |picks| <= |p.ids| && Shape(p, picks, k, db) && Best(p, db, p.ids[k], picks[k])
    requires next == Routed(db, p.ids[k], picks[k], p.lease(k), p.seconds, p.now)
    ensures Shape(p, picks, k + 1, next)
  {
    ClaimSucceeds(p, picks, k, db);
    ShapeOneMore(p, picks, k, db);
  }

  lemma PassToNext(p: Pass, picks: seq<Option<Id>>, k: nat)
    requires k < |picks| <= |p.ids|
    ensures PassTo(p, picks, k + 1) == Routed(PassTo(p, picks, k), p.ids[k], picks[k], p.lease(k), p.seconds, p.now)
  {
  }

  lemma {:induction false} PassShape(p: Pass, picks: seq<Option<Id>>, k: nat)
    requires PassOk(p) && Greedy(p, picks) && k <= |picks|
    ensures Shape(p, picks, k, PassTo(p, picks, k))
  {
    if k > 0 {
      var i := k - 1;
      PassShape(p, picks, i);
      assert Best(p, PassTo(p, picks, i), p.ids[i], picks[i]) by { assert BestAt(p, picks, i); }
      PassToNext(p, picks, i);
      PassStep(p, picks, i, PassTo(p, picks, i), PassTo(p, picks, k));
    }
  }

  lemma ShapesGrow(p: Pass, picks: seq<Option<Id>>, i: nat, k: nat, d: Db, e: Db, w: Id)
    requires PassOk(p) && i <= k <= |picks| <= |p.ids| && Shape(p, picks, i, d) && Shape(p, picks, k, e)
    ensures |Active(d, w, p.now)| <= |Active(e, w, p.now)|
  {
    forall t | t in Active(d, w, p.now) ensures t in Active(e, w, p.now) {
      if t in Elements(p.ids) {
        var j :| 0 <= j < |p.ids| && p.ids[j] == t;
        assert j < i;
      }
    }
    StoreRuns.SubsetSize(Active(d, w, p.now), Active(e, w, p.now));
  }

  /** During a pass a worker only takes on more. */
  lemma ActiveGrows(p: Pass, picks: seq<Option<Id>>, i: nat, k: nat, w: Id)
    requires PassOk(p) && Greedy(p, picks) && i <= k <= |picks|
    ensures |Active(PassTo(p, picks, i), w, p.now)| <= |Active(PassTo(p, picks, k), w, p.now)|
  {
    PassShape(p, picks, i);
    PassShape(p, picks, k);
    ShapesGrow(p, picks, i, k, PassTo(p, picks, i), PassTo(p, picks, k), w);
  }

  /** So nobody becomes eligible during a pass. */
  lemma EligibleShrinks(p: Pass, picks: seq<Option<Id>>, i: nat, k: nat, capability: Id, target: Id)
    requires PassOk(p) && Greedy(p, picks) && i <= k <= |picks|
    ensures EligibleSet(p.profiles, p.mem, PassTo(p, picks, k), capability, target, p.now)
            <= EligibleSet(p.profiles, p.mem, PassTo(p, picks, i), capability, target, p.now)
  {
    forall w | w in EligibleSet(p.profiles, p.mem, PassTo(p, picks, k), capability, target, p.now)
      ensures w in EligibleSet(p.profiles, p.mem, PassTo(p, picks, i), capability, target, p.now)
    {
      ActiveGrows(p, picks, i, k, w);
    }
  }

  // ---------------------------------------------------------------- the guarantees

  /** No eligible choice is later refused: every claim, and every wait, succeeds. */
  lemma NeverRefused(p: Pass, picks: seq<Option<Id>>, i: nat)
    requires PassOk(p) && Greedy(p, picks) && i < |picks|
    ensures var db := PassTo(p, picks, i);
      if picks[i].Some? then Claim(db, p.ids[i], picks[i].value, p.lease(i), p.seconds, p.now).answer.Done?
      else MarkWaitingCapacity(db, p.ids[i], p.now).answer.Done?
  {
    PassShape(p, picks, i);
    assert BestAt(p, picks, i);
    ClaimSucceeds(p, picks, i, PassTo(p, picks, i));
  }

  /** Maximal: a task left waiting has no eligible session, not even at the end of the pass. */
  lemma WaitingMeansNobody(p: Pass, picks: seq<Option<Id>>, i: nat)
    requires PassOk(p) && Greedy(p, picks) && i < |picks| && picks[i].None?
    ensures var end, t := PassTo(p, picks, |picks|), p.db.tasks[p.ids[i]];
      && end.tasks[p.ids[i]] == t.(state := WaitingCapacity)
      && EligibleSet(p.profiles, p.mem, end, t.capability, t.target, p.now) == {}
  {
    PassShape(p, picks, |picks|);
    var t := p.db.tasks[p.ids[i]];
    EligibleShrinks(p, picks, i, |picks|, t.capability, t.target);
    assert BestAt(p, picks, i);
  }

  /** Fair: of two tasks with the same needs, the later is never served while the earlier waits. */
  lemma NeverSkipped(p: Pass, picks: seq<Option<Id>>, i: nat, j: nat)
    requires PassOk(p) && Greedy(p, picks) && i < j < |picks| && picks[j].Some?
    requires p.db.tasks[p.ids[i]].capability == p.db.tasks[p.ids[j]].capability
    requires p.db.tasks[p.ids[i]].target == p.db.tasks[p.ids[j]].target
    ensures picks[i].Some?
  {
    var t := p.db.tasks[p.ids[i]];
    EligibleShrinks(p, picks, i, j, t.capability, t.target);
    assert BestAt(p, picks, j);
    assert BestAt(p, picks, i);
  }

  // ---------------------------------------------------------------- dispatches

  function EnvelopeFor(p: Pass, w: Id, i: nat): Envelope
    requires i < |p.ids| && p.ids[i] in p.db.tasks && w in p.mem.sessions
  {
    var t := p.db.tasks[p.ids[i]];
    Envelope(p.ids[i], w, p.mem.sessions[w].id, p.lease(i), p.now + p.seconds, t.capability, t.target)
  }

  function KeyFor(e: Envelope): string { KeyText(e.task, e.worker, e.session, e.lease) }

  /** Batch task `i` is claimed and can be dispatched: its id is identifier-shaped. */
  predicate Sent(p: Pass, picks: seq<Option<Id>>, i: nat) {
    && i < |picks| <= |p.ids| && picks[i].Some? && picks[i].value in p.mem.sessions
    && p.ids[i] in p.db.tasks && IsIdentifier(p.ids[i])
  }

  /** The envelopes sent for the first `k` tasks, in order. */
  function Envelopes(p: Pass, picks: seq<Option<Id>>, k: nat): seq<Envelope> {
    if k == 0 then []
    else Envelopes(p, picks, k - 1) + (if Sent(p, picks, k - 1) then [EnvelopeFor(p, picks[k - 1].value, k - 1)] else [])
  }

  function DispatchesTo(p: Pass, picks: seq<Option<Id>>, k: nat): map<string, Dispatch> {
    if k == 0 then p.mem.dispatches
    else if Sent(p, picks, k - 1) then
      var e := EnvelopeFor(p, picks[k - 1].value, k - 1);
      DispatchesTo(p, picks, k - 1)[KeyFor(e) := Dispatch(e, None, false)]
    else DispatchesTo(p, picks, k - 1)
  }

  lemma {:induction false} SentExtends(p: Pass, picks: seq<Option<Id>>, pick: Option<Id>, k: nat)
    requires k <= |picks| < |p.ids|
    ensures Envelopes(p, picks + [pick], k) == Envelopes(p, picks, k)
    ensures DispatchesTo(p, picks + [pick], k) == DispatchesTo(p, picks, k)
  {
    if k > 0 {
      SentExtends(p, picks, pick, k - 1);
      assert Sent(p, picks + [pick], k - 1) == Sent(p, picks, k - 1);
    }
  }

  /** The lease ids are new to the gateway and shaped like ids. */
  ghost predicate LeasesNew(p: Pass) {
    && (forall i: nat :: IsIdentifier(p.lease(i)))
    && (forall i: nat, t, w, s :: KeyText(t, w, s, p.lease(i)) !in p.mem.dispatches)
  }

  lemma {:induction false} KeyStaysNew(p: Pass, picks: seq<Option<Id>>, k: nat, j: nat, w: Id)
    requires PassOk(p) && LeasesNew(p) && k <= |picks| <= |p.ids| && k <= j < |p.ids| && w in p.mem.sessions
    requires IsIdentifier(p.ids[j])
    ensures KeyFor(EnvelopeFor(p, w, j)) !in DispatchesTo(p, picks, k)
  {
    if k > 0 {
      KeyStaysNew(p, picks, k - 1, j, w);
      if Sent(p, picks, k - 1) {
        var v := picks[k - 1].value;
        if KeyFor(EnvelopeFor(p, w, j)) == KeyFor(EnvelopeFor(p, v, k - 1)) {
          KeyInjective(p.ids[j], w, p.mem.sessions[w].id, p.lease(j), p.ids[k - 1], v, p.mem.sessions[v].id, p.lease(k - 1));
        }
      }
    }
  }

  /** A claimed task is dispatched exactly when its id is identifier-shaped. */
  lemma DispatchSucceeds(p: Pass, picks: seq<Option<Id>>, k: nat, m: Memory, db: Db, w: Id)
    requires PassOk(p) && LeasesNew(p) && k < |picks| <= |p.ids| && picks[k] == Some(w)
    requires Shape(p, picks, k + 1, db) && m == p.mem.(dispatches := DispatchesTo(p, picks, k))
    requires var t := p.db.tasks[p.ids[k]]; exists d :: w in EligibleSet(p.profiles, p.mem, d, t.capability, t.target, p.now)
    ensures var t := p.db.tasks[p.ids[k]];
      var c := Dispatched(p.ids[k], t.capability, t.target, w, p.lease(k), p.mem.sessions[w].id);
      PlanDispatch(p.profiles, m, db, c, p.now)
      == if Sent(p, picks, k) then Keep(p.mem.(dispatches := DispatchesTo(p, picks, k + 1))) else Refuse
  {
    if IsIdentifier(p.ids[k]) { KeyStaysNew(p, picks, k, k, w); }
    assert db.tasks[p.ids[k]] == RowAfter(p, picks, k);
  }

  lemma {:induction false} SentInOrder(p: Pass, picks: seq<Option<Id>>, k: nat, i: nat)
    requires i < k <= |picks| <= |p.ids| && Sent(p, picks, i)
    ensures EnvelopeFor(p, picks[i].value, i) in Envelopes(p, picks, k)
  {
    if i < k - 1 { SentInOrder(p, picks, k - 1, i); }
  }

  lemma {:induction false} OnlySent(p: Pass, picks: seq<Option<Id>>, k: nat, e: Envelope)
    requires k <= |picks| <= |p.ids| && e in Envelopes(p, picks, k)
    ensures exists i :: 0 <= i < k && Sent(p, picks, i) && e == EnvelopeFor(p, picks[i].value, i)
  {
    if e in Envelopes(p, picks, k - 1) { OnlySent(p, picks, k - 1, e); }
    else { assert Sent(p, picks, k - 1) && e == EnvelopeFor(p, picks[k - 1].value, k - 1); }
  }

  lemma PickInSession(p: Pass, picks: seq<Option<Id>>, i: nat)
    requires PassOk(p) && Greedy(p, picks) && i < |picks| == |p.ids| && picks[i].Some?
    ensures picks[i].value in p.mem.sessions
  {
    assert BestAt(p, picks, i);
  }

  /** A batch task ends leased to a worker in session, or waiting with nobody eligible. */
  lemma EveryTaskEnds(p: Pass, picks: seq<Option<Id>>, i: nat, end: Db)
    requires PassOk(p) && Greedy(p, picks) && i < |picks| == |p.ids| && end == PassTo(p, picks, |picks|)
    ensures end.tasks[p.ids[i]] == RowAfter(p, picks, i)
    ensures picks[i].Some? ==> end.tasks[p.ids[i]].state.Leased? && picks[i].value in p.mem.sessions
    ensures picks[i].None? ==>
      && end.tasks[p.ids[i]].state.WaitingCapacity?
      && EligibleSet(p.profiles, p.mem, end, p.db.tasks[p.ids[i]].capability, p.db.tasks[p.ids[i]].target, p.now) == {}
  {
    assert Shape(p, picks, |picks|, end) by { PassShape(p, picks, |picks|); }
    if picks[i].None? { WaitingMeansNobody(p, picks, i); } else { PickInSession(p, picks, i); }
  }

  /** An envelope is sent for a batch task exactly when it is leased and its id is
      identifier-shaped; it names that worker, its session and that lease. */
  lemma EveryEnvelope(p: Pass, picks: seq<Option<Id>>, i: nat)
    requires PassOk(p) && Greedy(p, picks) && i < |picks| == |p.ids|
    ensures var sent := Envelopes(p, picks, |picks|);
      && ((exists e :: e in sent && e.task == p.ids[i]) <==> picks[i].Some? && IsIdentifier(p.ids[i]))
      && (forall e :: e in sent && e.task == p.ids[i] ==>
            picks[i].Some? && picks[i].value in p.mem.sessions && e == EnvelopeFor(p, picks[i].value, i))
  {
    if picks[i].Some? { PickInSession(p, picks, i); }
    if Sent(p, picks, i) { SentInOrder(p, picks, |picks|, i); }
    forall e | e in Envelopes(p, picks, |picks|) && e.task == p.ids[i]
      ensures Sent(p, picks, i) && e == EnvelopeFor(p, picks[i].value, i)
    {
      OnlySent(p, picks, |picks|, e);
    }
  }
}
