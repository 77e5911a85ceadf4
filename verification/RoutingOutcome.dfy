/** What a routing pass leaves behind, told in rows, sessions and profiles. */
module RoutingOutcome {
  import opened Basics
  import opened Store
  import opened Ordering
  import opened Gateway
  import opened AutonomyStoreObject
  import opened RoutingPass
  import StoreRuns
  import StoreHistory

  /** Worker `k` is in a session observed within its SLA, and not in the future, by a profile with the task's
      capability and target. */
  predicate Fits(profiles: map<Id, Profile>, m: Memory, k: Id, row: Task, now: Time) {
    && k in m.sessions && k in profiles
    && m.sessions[k].observed <= now + 1.0 && now - m.sessions[k].observed <= profiles[k].sla
    && row.capability in profiles[k].capabilities && row.target in profiles[k].targets
  }

  /** And it holds fewer unexpired leases than the session's capacity. */
  predicate Serves(profiles: map<Id, Profile>, m: Memory, db: Db, k: Id, row: Task, now: Time) {
    Fits(profiles, m, k, row, now) && |StoreHistory.HeldRows(db, k, now)| < m.sessions[k].capacity
  }

  lemma EligibleServes(profiles: map<Id, Profile>, m: Memory, db: Db, k: Id, row: Task, now: Time)
    requires SessionsMirror(profiles, m, db)
    ensures Eligible(profiles, m, db, k, row.capability, row.target, now) <==> Serves(profiles, m, db, k, row, now)
  {
    StoreHistory.HeldAreActive(db, k, now);
  }

  /** The row is leased to `w`, the least worker by id of those that could still take it, within its capacity. */
  ghost predicate Served(profiles: map<Id, Profile>, m: Memory, row: Task, after: Db, t: Id, w: Id, now: Time) {
    && t in after.tasks && after.tasks[t].lease.Some? && after.tasks[t].lease.value.worker == w
    && after.tasks[t] == row.(state := Leased, lease := after.tasks[t].lease)
    && Fits(profiles, m, w, row, now) && |StoreHistory.HeldRows(after, w, now)| <= m.sessions[w].capacity
    && forall k :: Serves(profiles, m, after, k, row, now) ==> k == w || TextLess(w, k)
  }

  /** The row waits for capacity, and no worker could take it. */
  ghost predicate Unserved(profiles: map<Id, Profile>, m: Memory, row: Task, after: Db, t: Id, now: Time) {
    && t in after.tasks && after.tasks[t] == row.(state := WaitingCapacity)
    && forall k :: !Serves(profiles, m, after, k, row, now)
  }

  lemma RoutesAtMostOne(db: Db, t: Id, row: Task, w: Id, now: Time)
    requires t in db.tasks
    ensures |Active(db.(tasks := db.tasks[t := row]), w, now)| <= |Active(db, w, now)| + 1
    ensures !Occupies(row, w, now) ==> |Active(db.(tasks := db.tasks[t := row]), w, now)| <= |Active(db, w, now)|
  {
    var after := Active(db.(tasks := db.tasks[t := row]), w, now);
    assert after <= Active(db, w, now) + {t};
    StoreRuns.SubsetSize(after, Active(db, w, now) + {t});
    if !Occupies(row, w, now) { StoreRuns.SubsetSize(after, Active(db, w, now)); }
  }

  lemma StepWithin(p: Pass, picks: seq<Option<Id>>, k: nat, w: Id)
    requires PassOk(p) && Greedy(p, picks) && k < |picks| && w in p.mem.sessions
    requires |Active(PassTo(p, picks, k), w, p.now)| <= p.mem.sessions[w].capacity
    ensures |Active(PassTo(p, picks, k + 1), w, p.now)| <= p.mem.sessions[w].capacity
  {
    hide PassTo, Claim, MarkWaitingCapacity;
    PassShape(p, picks, k);
    assert BestAt(p, picks, k);
    ClaimSucceeds(p, picks, k, PassTo(p, picks, k));
    PassToNext(p, picks, k);
    RoutesAtMostOne(PassTo(p, picks, k), p.ids[k], RowAfter(p, picks, k), w, p.now);
  }

  /** Once a worker has been chosen within its capacity, it stays within it for the rest of the pass. */
  lemma {:induction false} StaysWithin(p: Pass, picks: seq<Option<Id>>, i: nat, k: nat, w: Id)
    requires PassOk(p) && Greedy(p, picks) && i <= k <= |picks| && w in p.mem.sessions
    requires |Active(PassTo(p, picks, i), w, p.now)| <= p.mem.sessions[w].capacity
    ensures |Active(PassTo(p, picks, k), w, p.now)| <= p.mem.sessions[w].capacity
    decreases k
  {
    hide PassTo, PassOk, Greedy, Active;
    if i < k {
      StaysWithin(p, picks, i, k - 1, w);
      StepWithin(p, picks, k - 1, w);
    }
  }

  lemma ServedTask(p: Pass, picks: seq<Option<Id>>, i: nat, end: Db)
    requires PassOk(p) && Greedy(p, picks) && i < |picks| == |p.ids| && end == PassTo(p, picks, |picks|) && picks[i].Some?
    ensures Served(p.profiles, p.mem, p.db.tasks[p.ids[i]], end, p.ids[i], picks[i].value, p.now)
  {
    hide PassTo;
    var row, w := p.db.tasks[p.ids[i]], picks[i].value;
    EveryTaskEnds(p, picks, i, end);
    assert BestAt(p, picks, i);
    StaysWithin(p, picks, i, |picks|, w);
    StoreHistory.HeldAreActive(end, w, p.now);
    EligibleShrinks(p, picks, i, |picks|, row.capability, row.target);
    forall k | Serves(p.profiles, p.mem, end, k, row, p.now) ensures k == w || TextLess(w, k) {
      assert SessionsMirror(p.profiles, p.mem, end);
      EligibleServes(p.profiles, p.mem, end, k, row, p.now);
    }
  }

  lemma UnservedTask(p: Pass, picks: seq<Option<Id>>, i: nat, end: Db)
    requires PassOk(p) && Greedy(p, picks) && i < |picks| == |p.ids| && end == PassTo(p, picks, |picks|) && picks[i].None?
    ensures Unserved(p.profiles, p.mem, p.db.tasks[p.ids[i]], end, p.ids[i], p.now)
  {
    hide PassTo;
    var row := p.db.tasks[p.ids[i]];
    EveryTaskEnds(p, picks, i, end);
    forall k ensures !Serves(p.profiles, p.mem, end, k, row, p.now) {
      assert SessionsMirror(p.profiles, p.mem, end);
      EligibleServes(p.profiles, p.mem, end, k, row, p.now);
      assert k !in EligibleSet(p.profiles, p.mem, end, row.capability, row.target, p.now);
    }
  }

  /** What a pass makes of each row: every task of the batch is leased to a worker that can take it, the least
      one by id, or waits because nobody can; every other row is as before. */
  lemma EveryRowEnds(p: Pass, picks: seq<Option<Id>>, end: Db, t: Id)
    requires PassOk(p) && Greedy(p, picks) && |picks| == |p.ids| && end == PassTo(p, picks, |picks|) && t in p.db.tasks
    ensures t in end.tasks
    ensures if t in p.ids then
        || Unserved(p.profiles, p.mem, p.db.tasks[t], end, t, p.now)
        || exists w :: Served(p.profiles, p.mem, p.db.tasks[t], end, t, w, p.now)
      else end.tasks[t] == p.db.tasks[t]
  {
    if t in p.ids {
      var i :| 0 <= i < |p.ids| && p.ids[i] == t;
      if picks[i].Some? { ServedTask(p, picks, i, end); } else { UnservedTask(p, picks, i, end); }
    } else {
      PassShape(p, picks, |picks|);
    }
  }

  /** Of two due tasks with the same capability and target, row `a` goes before row `b`: it has the larger
      priority, else it was created earlier, else its id is smaller. */
  predicate GoesBefore(rows: map<Id, Task>, a: Id, b: Id) {
    && a in rows && b in rows && Due(rows[a]) && Due(rows[b])
    && rows[a].capability == rows[b].capability && rows[a].target == rows[b].target
    && (|| rows[a].priority > rows[b].priority
        || (rows[a].priority == rows[b].priority
            && (rows[a].created < rows[b].created || (rows[a].created == rows[b].created && TextLess(a, b)))))
  }

  /** A task is not leased while one that goes before it, with the same needs, is left unleased. */
  lemma MostUrgentFirst(p: Pass, picks: seq<Option<Id>>, end: Db, limit: nat, a: Id, b: Id)
    requires PassOk(p) && Greedy(p, picks) && |picks| == |p.ids| && end == PassTo(p, picks, |picks|)
    requires MostUrgent(p.db.tasks, limit, p.ids) && GoesBefore(p.db.tasks, a, b)
    ensures a in end.tasks && b in end.tasks && (end.tasks[b].state.Leased? ==> end.tasks[a].state.Leased?)
  {
    hide PassTo;
    PassShape(p, picks, |picks|);
    if end.tasks[b].state.Leased? {
      assert b in p.ids;
      assert Stands(p.ids, a, b);
      var i, j :| 0 <= i < j < |p.ids| && p.ids[i] == a && p.ids[j] == b;
      EveryTaskEnds(p, picks, j, end);
      NeverSkipped(p, picks, i, j);
      EveryTaskEnds(p, picks, i, end);
    }
  }

  /** One pass over the rows `before`, in rows, sessions and profiles only. */
  ghost predicate PassLeaves(profiles: map<Id, Profile>, m: Memory, before: map<Id, Task>, after: Db, ids: seq<Id>, limit: nat, now: Time) {
    && MostUrgent(before, limit, ids)
    && (forall t :: t in before ==> t in after.tasks)
    && (forall t :: t in before && t !in ids ==> after.tasks[t] == before[t])
    && (forall t :: t in ids ==>
          || Unserved(profiles, m, before[t], after, t, now)
          || exists w :: Served(profiles, m, before[t], after, t, w, now))
    && (forall a, b :: GoesBefore(before, a, b) && after.tasks[b].state.Leased? ==> after.tasks[a].state.Leased?)
  }

  lemma PassIsSettled(p: Pass, picks: seq<Option<Id>>, end: Db, limit: nat)
    requires PassOk(p) && Greedy(p, picks) && |picks| == |p.ids| && end == PassTo(p, picks, |picks|) && IsBatch(p.db, limit, p.ids)
    ensures PassLeaves(p.profiles, p.mem, p.db.tasks, end, p.ids, limit, p.now)
  {
    hide PassTo, PassOk, Greedy, IsBatch, Served, Unserved, GoesBefore;
    BatchIsMostUrgent(p.db, limit, p.ids);
    forall t | t in p.db.tasks
      ensures t in end.tasks
      ensures if t in p.ids then
          || Unserved(p.profiles, p.mem, p.db.tasks[t], end, t, p.now)
          || exists w :: Served(p.profiles, p.mem, p.db.tasks[t], end, t, w, p.now)
        else end.tasks[t] == p.db.tasks[t]
    {
      EveryRowEnds(p, picks, end, t);
    }
    forall a, b | GoesBefore(p.db.tasks, a, b) ensures a in end.tasks && b in end.tasks && (end.tasks[b].state.Leased? ==> end.tasks[a].state.Leased?) {
      MostUrgentFirst(p, picks, end, limit, a, b);
    }
  }
}
