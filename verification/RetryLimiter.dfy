/** `RecoveryEngine.attempt_retry`: a sliding window kept as a pruned history. */
module RetryLimiter {
  import opened Basics

  type Time = real

  /** The attempts no more than `window` before `now`, in order. */
  function Recent(ts: seq<Time>, now: Time, window: Time): seq<Time> {
    if ts == [] then []
    else (if now - ts[0] <= window then [ts[0]] else []) + Recent(ts[1..], now, window)
  }

  /** The history kept after attempts at times `ts`: pruned at each attempt, then extended. */
  function Pruned(ts: seq<Time>, window: Time): seq<Time> {
    if ts == [] then []
    else Recent(Pruned(ts[..|ts| - 1], window), ts[|ts| - 1], window) + [ts[|ts| - 1]]
  }

  predicate Nondecreasing(ts: seq<Time>) { forall i, j :: 0 <= i < j < |ts| ==> ts[i] <= ts[j] }

  /** Attempt `i` is authorised: the kept history, with it, is within the limit. */
  predicate Authorised(ts: seq<Time>, window: Time, limit: int, i: nat)
    requires i < |ts|
  {
    |Pruned(ts[..i + 1], window)| <= limit
  }

  // ---------------------------------------------------------------- pruning loses nothing

  lemma {:induction false} RecentAppend(xs: seq<Time>, ys: seq<Time>, now: Time, window: Time)
    ensures Recent(xs + ys, now, window) == Recent(xs, now, window) + Recent(ys, now, window)
  {
    if xs == [] {
      assert xs + ys == ys;
    } else {
      assert (xs + ys)[1..] == xs[1..] + ys;
      RecentAppend(xs[1..], ys, now, window);
    }
  }

  /** Pruning earlier first makes no difference. */
  lemma {:induction false} RecentOfRecent(ts: seq<Time>, earlier: Time, now: Time, window: Time)
    requires earlier <= now
    ensures Recent(Recent(ts, earlier, window), now, window) == Recent(ts, now, window)
  {
    if ts != [] {
      RecentOfRecent(ts[1..], earlier, now, window);
      var head := if earlier - ts[0] <= window then [ts[0]] else [];
      RecentAppend(head, Recent(ts[1..], earlier, window), now, window);
      assert Recent([ts[0]], now, window) == if now - ts[0] <= window then [ts[0]] else [] by { assert [ts[0]][1..] == []; }
    }
  }

  /** The pruned history is the full attempt log filtered by the window, plus the attempt itself. */
  lemma {:induction false} PrunedIsFiltered(ts: seq<Time>, window: Time)
    requires Nondecreasing(ts) && ts != []
    ensures Pruned(ts, window) == Recent(ts[..|ts| - 1], ts[|ts| - 1], window) + [ts[|ts| - 1]]
    decreases |ts|
  {
    var n := |ts| - 1;
    if n > 0 {
      var before, last := ts[..n], ts[n];
      PrunedIsFiltered(before, window);
      RecentAppend(Recent(before[..n - 1], before[n - 1], window), [before[n - 1]], last, window);
      RecentOfRecent(before[..n - 1], before[n - 1], last, window);
      RecentAppend(before[..n - 1], [before[n - 1]], last, window);
      assert before == before[..n - 1] + [before[n - 1]];
    }
  }

  /** How many of the attempts, authorised or refused, fall in `[from, from + window]`. */
  function Hits(ts: seq<Time>, from: Time, window: Time): nat {
    if ts == [] then 0
    else Hits(ts[..|ts| - 1], from, window) + (if from <= ts[|ts| - 1] <= from + window then 1 else 0)
  }

  /** An attempt is authorised exactly when, refused attempts counted too, the window that ends at
      it holds at most `limit` attempts. */
  lemma AuthorisedExactly(ts: seq<Time>, window: Time, limit: int, i: nat)
    requires Nondecreasing(ts) && i < |ts|
    ensures Authorised(ts, window, limit, i) <==> |Recent(ts[..i], ts[i], window)| + 1 <= limit
  {
    assert ts[..i + 1][..i] == ts[..i] && ts[..i + 1][i] == ts[i];
    PrunedIsFiltered(ts[..i + 1], window);
  }

  // ---------------------------------------------------------------- the limit holds everywhere

  lemma {:induction false} HitsAreRecent(ts: seq<Time>, from: Time, now: Time, window: Time)
    requires from <= now <= from + window
    ensures Hits(ts, from, window) <= |Recent(ts, now, window)|
    decreases |ts|
  {
    if ts != [] {
      var n := |ts| - 1;
      HitsAreRecent(ts[..n], from, now, window);
      assert ts == ts[..n] + [ts[n]];
      RecentAppend(ts[..n], [ts[n]], now, window);
    }
  }

  lemma {:induction false} RecentAreHits(ts: seq<Time>, now: Time, window: Time)
    requires forall i :: 0 <= i < |ts| ==> ts[i] <= now
    ensures |Recent(ts, now, window)| == Hits(ts, now - window, window)
    decreases |ts|
  {
    if ts != [] {
      var n := |ts| - 1;
      RecentAreHits(ts[..n], now, window);
      assert ts == ts[..n] + [ts[n]];
      RecentAppend(ts[..n], [ts[n]], now, window);
      assert [ts[n]][1..] == [];
    }
  }

  /** An attempt is authorised exactly when it is one of at most `limit` attempts, refused ones counted, since
      `window` before it. */
  lemma AuthorisedByCount(ts: seq<Time>, window: Time, limit: int, i: nat)
    requires Nondecreasing(ts) && i < |ts|
    ensures Authorised(ts, window, limit, i) <==> Hits(ts[..i], ts[i] - window, window) + 1 <= limit
  {
    AuthorisedExactly(ts, window, limit, i);
    RecentAreHits(ts[..i], ts[i], window);
  }

  /** How many of the first `n` attempts are authorised and fall in `[from, from + window]`. */
  function Authorisations(ts: seq<Time>, window: Time, limit: int, from: Time, n: nat): nat
    requires n <= |ts|
  {
    if n == 0 then 0
    else Authorisations(ts, window, limit, from, n - 1)
         + (if from <= ts[n - 1] <= from + window && Authorised(ts, window, limit, n - 1) then 1 else 0)
  }

  lemma {:induction false} AuthorisationsAreHits(ts: seq<Time>, window: Time, limit: int, from: Time, n: nat)
    requires n <= |ts|
    ensures Authorisations(ts, window, limit, from, n) <= Hits(ts[..n], from, window)
  {
    if n > 0 {
      AuthorisationsAreHits(ts, window, limit, from, n - 1);
      assert ts[..n][..n - 1] == ts[..n - 1];
    }
  }

  /** In every closed interval as long as the window, at most `limit` attempts are authorised. */
  lemma {:induction false} LimitHolds(ts: seq<Time>, window: Time, limit: int, from: Time, n: nat)
    requires Nondecreasing(ts) && n <= |ts|
    ensures Authorisations(ts, window, limit, from, n) <= if limit < 0 then 0 else limit
  {
    if n > 0 {
      var i := n - 1;
      if from <= ts[i] <= from + window && Authorised(ts, window, limit, i) {
        AuthorisationsAreHits(ts, window, limit, from, i);
        HitsAreRecent(ts[..i], from, ts[i], window);
        AuthorisedExactly(ts, window, limit, i);
      } else {
        LimitHolds(ts, window, limit, from, i);
      }
    }
  }

  // ---------------------------------------------------------------- the engine

  class RecoveryEngine {
    const limit: int
    const window: Time
    var history: map<Id, seq<Time>>
    /** Every attempt ever made, by directive. */
    ghost var attempts: map<Id, seq<Time>>

    constructor (limit: int, window: Time)
      ensures Valid() && this.limit == limit && this.window == window && attempts == map[]
    {
      this.limit, this.window := limit, window;
      history, attempts := map[], map[];
    }

    ghost predicate Valid() reads this {
      history.Keys == attempts.Keys && forall d :: d in history ==> history[d] == Pruned(attempts[d], window)
    }

    ghost function Past(directive: Id): seq<Time> reads this {
      if directive in attempts then attempts[directive] else []
    }

    /** Keep what is still in the window. */
    method Prune(past: seq<Time>, now: Time) returns (recent: seq<Time>)
      ensures recent == Recent(past, now, window)
    {
      recent := [];
      for i := 0 to |past|
        invariant recent == Recent(past[..i], now, window)
      {
        assert past[..i + 1] == past[..i] + [past[i]];
        RecentAppend(past[..i], [past[i]], now, window);
        if now - past[i] <= window { recent := recent + [past[i]]; }
      }
      assert past[..|past|] == past;
    }

    /** The attempt is logged, and authorised by the rule above; other directives are untouched. */
    method AttemptRetry(directive: Id, now: Time) returns (authorised: bool, count: nat)
      requires Valid()
      modifies this
      ensures Valid() && attempts == old(attempts)[directive := old(Past(directive)) + [now]]
      ensures count == |Pruned(attempts[directive], window)|
      ensures authorised <==> Authorised(attempts[directive], window, limit, |attempts[directive]| - 1)
    {
      hide Pruned, Recent, Authorised;
      ghost var all := Past(directive);
      NothingPruned(window);
      PrunedOneMore(all, now, window, limit);
      var recent := Prune(if directive in history then history[directive] else [], now);
      recent := recent + [now];
      history := history[directive := recent];
      attempts := attempts[directive := all + [now]];
      count := |recent|;
      authorised := count <= limit;
    }
  }

  lemma NothingPruned(window: Time)
    ensures Pruned([], window) == []
  {
  }

  lemma PrunedOneMore(ts: seq<Time>, now: Time, window: Time, limit: int)
    ensures Pruned(ts + [now], window) == Recent(Pruned(ts, window), now, window) + [now]
    ensures Authorised(ts + [now], window, limit, |ts|) <==> |Pruned(ts + [now], window)| <= limit
  {
    assert (ts + [now])[..|ts|] == ts;
    assert (ts + [now])[..|ts| + 1] == ts + [now];
  }
}
