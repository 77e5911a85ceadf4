/** `AutonomyServiceHost.run`: the bounded cycle, backoff and failure-limit loop. */
module ServiceLoop {

  type Time = real

  /** How a call or a health write ends: normally, or with an exception of one of four kinds. */
  datatype Outcome = Fine | Transient | Integrity | Blocked | Fatal

  /** The configuration as loading it has checked it. */
  datatype Config = Config(initial: Time, max: Time, multiplier: Time, limit: nat)

  predicate ConfigOk(c: Config) { 0.0 < c.initial <= c.max && c.multiplier >= 1.0 && c.limit >= 1 }

  /** What the surroundings do in the `i`-th turn of the loop: whether a stop was requested, and how
      the RUNNING write, `run_once`, the IDLE write and a write inside an exception handler end. */
  datatype Surroundings = Surroundings(
    stop: nat -> bool, running: nat -> Outcome, once: nat -> Outcome, idle: nat -> Outcome, report: nat -> Outcome)

  /** A wait: for `Delay(config, failures)` seconds after a failure, else for the cadence. */
  datatype Wait = Backoff(failures: nat) | Cadence

  /** 0, 3, 4 and 5, or an exception that leaves `run`. */
  datatype Exit = Graceful | BlockedExit | IntegrityExit | Crashed | Escaped

  /** `failures` and `completed` are the local variables, `cycles` the durable cycle count, the rest
      counts turns, calls of `run_once` and lost IDLE writes, and lists the waits. */
  datatype Host = Host(
    failures: nat, completed: nat, cycles: nat, turns: nat, calls: nat, lost: nat, waits: seq<Wait>)

  datatype Turn = Going(host: Host) | Ended(host: Host, exit: Exit)

  // ---------------------------------------------------------------- backoff

  function Power(m: Time, k: nat): Time { if k == 0 then 1.0 else m * Power(m, k - 1) }

  function Min(a: Time, b: Time): Time { if a <= b then a else b }

  function Delay(c: Config, failures: nat): Time
    requires failures > 0
  {
    Min(c.initial * Power(c.multiplier, failures - 1), c.max)
  }

  lemma Scale(a: Time, b: Time, m: Time)
    requires 0.0 <= a <= b && m >= 0.0
    ensures m * a <= m * b
  {
  }

  lemma {:induction false} PowerGrows(m: Time, j: nat, k: nat)
    requires m >= 1.0 && j <= k
    ensures 1.0 <= Power(m, j) <= Power(m, k)
    decreases k
  {
    if j < k {
      PowerGrows(m, j, k - 1);
      Scale(1.0, m, Power(m, k - 1));
      assert Power(m, k) == Power(m, k - 1) * m;
    } else if k > 0 {
      PowerGrows(m, k - 1, k - 1);
      Scale(1.0, m, Power(m, k - 1));
      assert Power(m, k) == Power(m, k - 1) * m;
    }
  }

  /** Delays never shrink as failures add up, and stay between the initial and the maximal delay. */
  lemma DelayGrows(c: Config, f: nat, g: nat)
    requires ConfigOk(c) && 0 < f <= g
    ensures c.initial <= Delay(c, f) <= Delay(c, g) <= c.max
  {
    hide Power;
    var p, q := Power(c.multiplier, f - 1), Power(c.multiplier, g - 1);
    PowerGrows(c.multiplier, f - 1, g - 1);
    Scale(1.0, p, c.initial);
    Scale(p, q, c.initial);
    assert c.initial * 1.0 == c.initial;
  }

  /** The first delay is the initial one; each further failure in a row multiplies it, up to the maximum. */
  lemma DelayExactly(c: Config, f: nat)
    requires ConfigOk(c) && f > 0
    ensures Delay(c, 1) == c.initial
    ensures Delay(c, f + 1) == if c.multiplier * Delay(c, f) <= c.max then c.multiplier * Delay(c, f) else c.max
  {
    hide Power;
    PowerSteps(c.multiplier, f);
    var p, q := c.initial * Power(c.multiplier, f - 1), c.initial * Power(c.multiplier, f);
    Reorder(c.initial, c.multiplier, Power(c.multiplier, f - 1));
    assert c.initial * 1.0 == c.initial;
    Capped(p, c.multiplier, c.max);
  }

  lemma PowerSteps(m: Time, k: nat)
    requires k > 0
    ensures Power(m, 0) == 1.0 && Power(m, k) == m * Power(m, k - 1)
  {
  }

  /** Capping before multiplying makes no difference to the cap. */
  lemma Capped(p: Time, m: Time, max: Time)
    requires m >= 1.0 && max > 0.0
    ensures Min(m * p, max) == Min(m * Min(p, max), max)
  {
    if p > max {
      Scale(1.0, m, max);
      Scale(max, p, m);
      assert max * 1.0 == max && max * m == m * max;
    }
  }

  lemma Reorder(a: Time, m: Time, p: Time)
    ensures a * (m * p) == m * (a * p)
  {
  }

  // ---------------------------------------------------------------- one turn

  /** The exception handlers. */
  function Handle(c: Config, reported: bool, h: Host, o: Outcome): Turn
    requires !o.Fine?
  {
    match o
    case Integrity => Ended(h, if reported then IntegrityExit else Escaped)
    case Blocked => Ended(h, if reported then BlockedExit else Escaped)
    case Fatal => Ended(h, if reported then Crashed else Escaped)
    case Transient =>
      var f := h.(failures := h.failures + 1);
      if !reported then Ended(f, Escaped)
      else if f.failures > c.limit then Ended(f, Crashed)
      else Going(f.(waits := f.waits + [Backoff(f.failures)]))
  }

  /** A successful call: failures are forgotten and the cycle counted before the IDLE write. */
  function Completed(h: Host): Host { h.(calls := h.calls + 1, failures := 0, completed := h.completed + 1) }

  /** The body of the `try`: what was done, and how it ended. */
  function Try(env: Surroundings, i: nat, h: Host): (Host, Outcome) {
    if !env.running(i).Fine? then (h, env.running(i))
    else if !env.once(i).Fine? then (h.(calls := h.calls + 1), env.once(i))
    else if !env.idle(i).Fine? then (Completed(h).(lost := h.lost + 1), env.idle(i))
    else (Completed(h).(cycles := h.cycles + 1), Fine)
  }

  function Stopped(h: Host, reported: bool): Turn { Ended(h, if reported then Graceful else Escaped) }

  /** After a turn without an exception: the last, or wait for the cadence. */
  function Paced(bound: nat, h: Host, reported: bool): Turn {
    if h.completed >= bound then Stopped(h, reported) else Going(h.(waits := h.waits + [Cadence]))
  }

  /** One turn of the loop; `bound` is the requested number of cycles. */
  function Step(c: Config, env: Surroundings, bound: nat, h: Host): Turn {
    var i := h.turns;
    var reported := env.report(i).Fine?;
    var tried := Try(env, i, h.(turns := i + 1));
    if env.stop(i) then Stopped(h.(turns := i + 1), reported)
    else if !tried.1.Fine? then Handle(c, reported, tried.0, tried.1)
    else Paced(bound, tried.0, reported)
  }

  function Turns(c: Config, env: Surroundings, bound: nat, h: Host, n: nat): Turn {
    if n == 0 then Going(h)
    else match Turns(c, env, bound, h, n - 1)
      case Ended(g, e) => Ended(g, e)
      case Going(g) => Step(c, env, bound, g)
  }

  function Start(cycles: nat): Host { Host(0, 0, cycles, 0, 0, 0, []) }

  // ---------------------------------------------------------------- invariant

  /** Backoffs in a row count up by one; only a lost IDLE write starts over without a cadence wait. */
  ghost predicate WaitsOk(c: Config, ws: seq<Wait>, lost: nat) {
    && (forall i :: 0 <= i < |ws| && ws[i].Backoff? ==> 0 < ws[i].failures <= c.limit)
    && (forall i :: 0 <= i < |ws| - 1 && ws[i].Backoff? && ws[i + 1].Backoff? ==>
          ws[i + 1].failures == ws[i].failures + 1 || (lost > 0 && ws[i + 1].failures == 1))
  }

  function LastFailures(ws: seq<Wait>): nat {
    if ws != [] && ws[|ws| - 1].Backoff? then ws[|ws| - 1].failures else 0
  }

  /** The durable count grows by the cycles whose IDLE write succeeded. */
  ghost predicate CountsOk(h: Host, cycles: nat) {
    h.cycles + h.lost == cycles + h.completed && h.completed <= h.calls && h.lost <= h.completed && h.lost <= h.turns
  }

  /** While the loop goes on: at most `limit` failing calls precede each success. */
  ghost predicate LoopOk(c: Config, h: Host, cycles: nat, bound: nat) {
    && CountsOk(h, cycles) && h.failures <= c.limit && h.completed - h.lost < bound
    && h.calls <= Quota(c, h.completed) + h.failures
    && WaitsOk(c, h.waits, h.lost) && LastFailures(h.waits) == h.failures
  }

  /** When it has ended. */
  ghost predicate EndOk(c: Config, h: Host, cycles: nat, bound: nat) {
    CountsOk(h, cycles) && WaitsOk(c, h.waits, h.lost) && h.calls <= Quota(c, bound + h.lost)
  }

  ghost predicate TurnOk(c: Config, t: Turn, cycles: nat, bound: nat) {
    if t.Going? then LoopOk(c, t.host, cycles, bound) else EndOk(c, t.host, cycles, bound)
  }

  /** Calls allowed for `n` successes: each, and `limit` failures before it. */
  function Quota(c: Config, n: nat): nat { if n == 0 then 0 else Quota(c, n - 1) + c.limit + 1 }

  lemma {:induction false} QuotaIs(c: Config, n: nat)
    ensures Quota(c, n) == n * (c.limit + 1)
  {
    if n > 0 {
      QuotaIs(c, n - 1);
      assert n * (c.limit + 1) == (n - 1) * (c.limit + 1) + (c.limit + 1);
    }
  }

  lemma {:induction false} QuotaGrows(c: Config, m: nat, n: nat)
    requires m <= n
    ensures Quota(c, m) <= Quota(c, n)
  {
    if m < n { QuotaGrows(c, m, n - 1); }
  }

  /** Any exception, after which the counters still allow this turn's call. */
  lemma HandleKeeps(c: Config, reported: bool, h: Host, o: Outcome, cycles: nat, bound: nat)
    requires ConfigOk(c) && !o.Fine? && CountsOk(h, cycles) && h.failures <= c.limit && h.completed - h.lost < bound
    requires h.calls <= Quota(c, h.completed) + h.failures + 1
    requires WaitsOk(c, h.waits, h.lost) && (LastFailures(h.waits) == h.failures || (h.lost > 0 && h.failures == 0))
    ensures TurnOk(c, Handle(c, reported, h, o), cycles, bound)
  {
    hide WaitsOk, LastFailures;
    QuotaGrows(c, h.completed + 1, bound + h.lost);
    if o.Transient? && reported && h.failures + 1 <= c.limit { BackoffWaits(c, h); }
  }

  /** One backoff more. */
  lemma BackoffWaits(c: Config, h: Host)
    requires h.failures + 1 <= c.limit && WaitsOk(c, h.waits, h.lost)
    requires LastFailures(h.waits) == h.failures || (h.lost > 0 && h.failures == 0)
    ensures var ws := h.waits + [Backoff(h.failures + 1)]; WaitsOk(c, ws, h.lost) && LastFailures(ws) == h.failures + 1
  {
  }

  /** A successful call keeps the counters, whatever its IDLE write does. */
  lemma CompletedCounts(c: Config, h: Host, cycles: nat, bound: nat)
    requires ConfigOk(c) && LoopOk(c, h, cycles, bound)
    ensures Completed(h).calls <= Quota(c, Completed(h).completed) <= Quota(c, bound + h.lost)
  {
    QuotaGrows(c, h.completed + 1, bound + h.lost);
  }

  /** Whatever the body does, the counters stay within what the handlers and the loop need. */
  lemma TryKeeps(c: Config, env: Surroundings, i: nat, h: Host, cycles: nat, bound: nat)
    requires ConfigOk(c) && LoopOk(c, h, cycles, bound)
    ensures var (g, o) := Try(env, i, h.(turns := h.turns + 1));
      && CountsOk(g, cycles) && g.waits == h.waits && g.failures <= c.limit && h.lost <= g.lost
      && (o.Fine? ==> g == Completed(h.(turns := h.turns + 1)).(cycles := h.cycles + 1))
      && (!o.Fine? ==>
            && g.completed - g.lost < bound && g.calls <= Quota(c, g.completed) + g.failures + 1
            && (g.failures == h.failures || (g.lost > 0 && g.failures == 0)))
  {
    CompletedCounts(c, h, cycles, bound);
  }

  lemma StopKeeps(c: Config, h: Host, cycles: nat, bound: nat)
    requires ConfigOk(c) && LoopOk(c, h, cycles, bound)
    ensures EndOk(c, h.(turns := h.turns + 1), cycles, bound)
  {
    QuotaGrows(c, h.completed + 1, bound + h.lost);
  }

  lemma DoneKeeps(c: Config, h: Host, cycles: nat, bound: nat)
    requires ConfigOk(c) && LoopOk(c, h, cycles, bound)
    ensures var done := Completed(h.(turns := h.turns + 1)).(cycles := h.cycles + 1);
      && EndOk(c, done, cycles, bound)
      && (done.completed < bound ==> LoopOk(c, done.(waits := done.waits + [Cadence]), cycles, bound))
  {
    CompletedCounts(c, h, cycles, bound);
  }

  lemma WaitsLater(c: Config, ws: seq<Wait>, lost: nat, more: nat)
    requires WaitsOk(c, ws, lost) && lost <= more
    ensures WaitsOk(c, ws, more)
  {
  }

  lemma SuccessKeeps(c: Config, env: Surroundings, reported: bool, i: nat, h: Host, cycles: nat, bound: nat)
    requires ConfigOk(c) && LoopOk(c, h, cycles, bound) && Try(env, i, h.(turns := h.turns + 1)).1.Fine?
    ensures var g := Try(env, i, h.(turns := h.turns + 1)).0;
      TurnOk(c, Paced(bound, g, reported), cycles, bound)
  {
    DoneKeeps(c, h, cycles, bound);
  }

  lemma StoppedStep(c: Config, env: Surroundings, bound: nat, h: Host, cycles: nat)
    requires ConfigOk(c) && LoopOk(c, h, cycles, bound) && env.stop(h.turns)
    ensures TurnOk(c, Step(c, env, bound, h), cycles, bound)
  {
    StopKeeps(c, h, cycles, bound);
  }

  lemma StepFails(c: Config, env: Surroundings, bound: nat, h: Host, g: Host, o: Outcome)
    requires (g, o) == Try(env, h.turns, h.(turns := h.turns + 1)) && !env.stop(h.turns) && !o.Fine?
    ensures Step(c, env, bound, h) == Handle(c, env.report(h.turns).Fine?, g, o)
  {
  }

  lemma FailedStep(c: Config, env: Surroundings, bound: nat, h: Host, cycles: nat, g: Host, o: Outcome)
    requires ConfigOk(c) && LoopOk(c, h, cycles, bound)
    requires (g, o) == Try(env, h.turns, h.(turns := h.turns + 1)) && !o.Fine?
    ensures TurnOk(c, Handle(c, env.report(h.turns).Fine?, g, o), cycles, bound)
  {
    TryKeeps(c, env, h.turns, h, cycles, bound);
    WaitsLater(c, h.waits, h.lost, g.lost);
    HandleKeeps(c, env.report(h.turns).Fine?, g, o, cycles, bound);
  }

  lemma PacedStep(c: Config, env: Surroundings, bound: nat, h: Host, cycles: nat)
    requires ConfigOk(c) && LoopOk(c, h, cycles, bound) && !env.stop(h.turns)
    requires Try(env, h.turns, h.(turns := h.turns + 1)).1.Fine?
    ensures TurnOk(c, Step(c, env, bound, h), cycles, bound)
  {
    SuccessKeeps(c, env, env.report(h.turns).Fine?, h.turns, h, cycles, bound);
  }

  /** Every turn keeps the counters, the waits and the budget of calls. */
  lemma StepKeeps(c: Config, env: Surroundings, bound: nat, h: Host, cycles: nat)
    requires ConfigOk(c) && LoopOk(c, h, cycles, bound)
    ensures TurnOk(c, Step(c, env, bound, h), cycles, bound)
  {
    var (g, o) := Try(env, h.turns, h.(turns := h.turns + 1));
    if env.stop(h.turns) {
      StoppedStep(c, env, bound, h, cycles);
    } else if o.Fine? {
      PacedStep(c, env, bound, h, cycles);
    } else {
      FailedStep(c, env, bound, h, cycles, g, o);
      StepFails(c, env, bound, h, g, o);
    }
  }

  // ---------------------------------------------------------------- termination

  /** From turn `quiet` on, no IDLE write fails transiently. */
  ghost predicate IdleSettles(env: Surroundings, quiet: nat) {
    forall i: nat :: i >= quiet ==> !env.idle(i).Transient?
  }

  /** Turns still possible. */
  function Left(c: Config, bound: nat, quiet: nat, h: Host): int
    requires h.completed <= bound + quiet
  {
    Quota(c, bound + quiet - h.completed) - h.failures
  }

  lemma Goes(c: Config, bound: nat, quiet: nat, h: Host, g: Host)
    requires h.failures <= c.limit && g.failures <= c.limit
    requires (g.completed == h.completed && g.failures == h.failures + 1) || (g.completed == h.completed + 1)
    requires g.completed < bound + quiet && h.completed < bound + quiet
    ensures 0 <= Left(c, bound, quiet, g) < Left(c, bound, quiet, h)
  {
    QuotaGrows(c, 1, bound + quiet - g.completed);
  }

  /** Every turn that goes on uses one up. */
  lemma StepShrinks(c: Config, env: Surroundings, bound: nat, h: Host, cycles: nat, quiet: nat)
    requires ConfigOk(c) && LoopOk(c, h, cycles, bound) && IdleSettles(env, quiet) && h.lost <= quiet
    requires Step(c, env, bound, h).Going?
    ensures var g := Step(c, env, bound, h).host;
      g.lost <= quiet && 0 <= Left(c, bound, quiet, g) < Left(c, bound, quiet, h)
  {
    StepKeeps(c, env, bound, h, cycles);
    var g := Step(c, env, bound, h).host;
    Goes(c, bound, quiet, h, g);
  }

  lemma {:induction false} TurnsFirst(c: Config, env: Surroundings, bound: nat, h: Host, n: nat)
    ensures Turns(c, env, bound, h, n + 1) ==
      match Step(c, env, bound, h) case Going(g) => Turns(c, env, bound, g, n) case Ended(g, e) => Ended(g, e)
  {
    if n > 0 { TurnsFirst(c, env, bound, h, n - 1); }
  }

  lemma {:induction false} EndsWithin(c: Config, env: Surroundings, bound: nat, h: Host, cycles: nat, quiet: nat) returns (n: nat)
    requires ConfigOk(c) && LoopOk(c, h, cycles, bound) && IdleSettles(env, quiet) && h.lost <= quiet
    ensures n <= Left(c, bound, quiet, h) + 1
    ensures Turns(c, env, bound, h, n).Ended? && EndOk(c, Turns(c, env, bound, h, n).host, cycles, bound)
    decreases Left(c, bound, quiet, h)
  {
    StepKeeps(c, env, bound, h, cycles);
    var t := Step(c, env, bound, h);
    if t.Ended? {
      n := 1;
      TurnsFirst(c, env, bound, h, 0);
    } else {
      StepShrinks(c, env, bound, h, cycles, quiet);
      var m := EndsWithin(c, env, bound, t.host, cycles, quiet);
      TurnsFirst(c, env, bound, h, m);
      n := m + 1;
    }
  }

  lemma StartOk(c: Config, cycles: nat, bound: nat, quiet: nat)
    requires ConfigOk(c) && bound >= 1
    ensures LoopOk(c, Start(cycles), cycles, bound) && Left(c, bound, quiet, Start(cycles)) == (bound + quiet) * (c.limit + 1)
  {
    QuotaIs(c, bound + quiet);
  }

  /** A bounded run ends, after at most `(bound + quiet) * (limit + 1) + 1` turns, if from some turn
      `quiet` on no IDLE write fails transiently. */
  lemma BoundedRunEnds(c: Config, env: Surroundings, bound: nat, cycles: nat, quiet: nat) returns (n: nat)
    requires ConfigOk(c) && bound >= 1 && IdleSettles(env, quiet)
    ensures n <= (bound + quiet) * (c.limit + 1) + 1
    ensures var t := Turns(c, env, bound, Start(cycles), n); t.Ended? && EndOk(c, t.host, cycles, bound)
  {
    StartOk(c, cycles, bound, quiet);
    n := EndsWithin(c, env, bound, Start(cycles), cycles, quiet);
  }

  predicate WritesSucceed(env: Surroundings, n: nat) { forall i :: 0 <= i < n ==> env.idle(i).Fine? }

  lemma StepLoses(c: Config, env: Surroundings, bound: nat, h: Host)
    requires env.idle(h.turns).Fine?
    ensures Step(c, env, bound, h).host.lost == h.lost && Step(c, env, bound, h).host.turns == h.turns + 1
  {
  }

  lemma {:induction false} NothingLost(c: Config, env: Surroundings, bound: nat, cycles: nat, n: nat)
    requires WritesSucceed(env, n)
    ensures var t := Turns(c, env, bound, Start(cycles), n); t.host.lost == 0 && t.host.turns <= n && (t.Going? ==> t.host.turns == n)
  {
    if n > 0 {
      hide Step;
      NothingLost(c, env, bound, cycles, n - 1);
      var t := Turns(c, env, bound, Start(cycles), n - 1);
      if t.Going? { StepLoses(c, env, bound, t.host); }
    }
  }

  /** When the IDLE writes succeed: the run ends, `run_once` is called at most
      `bound * (limit + 1)` times, the durable count grows by exactly the completed cycles, and
      backoff delays in a row never shrink. */
  lemma BoundedRun(c: Config, env: Surroundings, bound: nat, cycles: nat) returns (n: nat)
    requires ConfigOk(c) && bound >= 1 && forall i: nat :: env.idle(i).Fine?
    ensures var t := Turns(c, env, bound, Start(cycles), n);
      && t.Ended? && t.host.calls <= bound * (c.limit + 1) && t.host.cycles == cycles + t.host.completed
      && forall i :: 0 <= i < |t.host.waits| - 1 && t.host.waits[i].Backoff? && t.host.waits[i + 1].Backoff? ==>
           && 0 < t.host.waits[i].failures && 0 < t.host.waits[i + 1].failures
           && c.initial <= Delay(c, t.host.waits[i].failures) <= Delay(c, t.host.waits[i + 1].failures) <= c.max
  {
    n := BoundedRunEnds(c, env, bound, cycles, 0);
    QuotaIs(c, bound);
    NothingLost(c, env, bound, cycles, n);
    var ws := Turns(c, env, bound, Start(cycles), n).host.waits;
    forall i | 0 <= i < |ws| - 1 && ws[i].Backoff? && ws[i + 1].Backoff?
      ensures 0 < ws[i].failures && 0 < ws[i + 1].failures
      ensures c.initial <= Delay(c, ws[i].failures) <= Delay(c, ws[i + 1].failures) <= c.max
    {
      DelayGrows(c, ws[i].failures, ws[i + 1].failures);
    }
  }

  // ---------------------------------------------------------------- when exactly it ends

  /** Turn `i` completes a cycle. */
  predicate Completes(env: Surroundings, i: nat) { env.running(i).Fine? && env.once(i).Fine? }

  /** How the body of turn `i` ends. */
  function OutcomeOf(env: Surroundings, i: nat): Outcome {
    if !env.running(i).Fine? then env.running(i) else if !env.once(i).Fine? then env.once(i) else env.idle(i)
  }

  /** Cycles completed in the first `n` turns. */
  function CompletedBy(env: Surroundings, n: nat): nat {
    if n == 0 then 0 else CompletedBy(env, n - 1) + if Completes(env, n - 1) then 1 else 0
  }

  /** Failures in a row after `n` turns; a lost IDLE write is the first after its success. */
  function FailuresBy(env: Surroundings, n: nat): nat {
    if n == 0 then 0
    else if OutcomeOf(env, n - 1).Fine? then 0
    else if Completes(env, n - 1) then 1
    else FailuresBy(env, n - 1) + 1
  }

  /** What the surroundings do in turn `i` that ends a run: a stop is requested; or the last cycle is
      completed and its IDLE write succeeds; or the turn fails otherwise than transiently, or once too
      often in a row, or its failure cannot be written down. */
  predicate EndsAt(c: Config, env: Surroundings, bound: nat, i: nat) {
    || env.stop(i)
    || (OutcomeOf(env, i).Fine? && CompletedBy(env, i + 1) >= bound)
    || (!OutcomeOf(env, i).Fine?
        && (!OutcomeOf(env, i).Transient? || !env.report(i).Fine? || FailuresBy(env, i + 1) > c.limit))
  }

  /** The counters after `n` turns that did not end the run. */
  ghost predicate CountsTurns(env: Surroundings, h: Host, n: nat) {
    h.turns == n && h.completed == CompletedBy(env, n) && h.failures == FailuresBy(env, n)
  }

  lemma StepEnds(c: Config, env: Surroundings, bound: nat, h: Host, n: nat)
    requires CountsTurns(env, h, n)
    ensures var t := Step(c, env, bound, h); (t.Ended? <==> EndsAt(c, env, bound, n)) && (t.Going? ==> CountsTurns(env, t.host, n + 1))
  {
  }

  /** A run goes on exactly as long as no turn ends it. */
  lemma {:induction false} GoesOn(c: Config, env: Surroundings, bound: nat, cycles: nat, n: nat)
    ensures var t := Turns(c, env, bound, Start(cycles), n);
      && (t.Going? <==> forall i :: 0 <= i < n ==> !EndsAt(c, env, bound, i))
      && (t.Going? ==> CountsTurns(env, t.host, n))
  {
    if n > 0 {
      hide Step, EndsAt, CountsTurns;
      GoesOn(c, env, bound, cycles, n - 1);
      var t := Turns(c, env, bound, Start(cycles), n - 1);
      if t.Going? { StepEnds(c, env, bound, t.host, n - 1); }
    } else {
      assert CountsTurns(env, Start(cycles), 0);
    }
  }

  /** Whatever the surroundings do, a run ends exactly when some turn of theirs ends it. */
  lemma EndsExactly(c: Config, env: Surroundings, bound: nat, cycles: nat)
    ensures (exists n :: Turns(c, env, bound, Start(cycles), n).Ended?) <==> (exists i: nat :: EndsAt(c, env, bound, i))
  {
    hide EndsAt, CountsTurns;
    if i: nat :| EndsAt(c, env, bound, i) {
      GoesOn(c, env, bound, cycles, i + 1);
      assert Turns(c, env, bound, Start(cycles), i + 1).Ended?;
    } else {
      forall n ensures !Turns(c, env, bound, Start(cycles), n).Ended? { GoesOn(c, env, bound, cycles, n); }
    }
  }

  // ---------------------------------------------------------------- what a run does, turn by turn

  /** Calls of `run_once` in the first `n` turns: one in each turn whose RUNNING write succeeds. */
  function CallsBy(env: Surroundings, n: nat): nat {
    if n == 0 then 0 else CallsBy(env, n - 1) + if env.running(n - 1).Fine? then 1 else 0
  }

  /** IDLE writes that succeed. */
  function WrittenBy(env: Surroundings, n: nat): nat {
    if n == 0 then 0 else WrittenBy(env, n - 1) + if Completes(env, n - 1) && env.idle(n - 1).Fine? then 1 else 0
  }

  /** The wait after turn `i`: the cadence if it goes well, else a backoff for the failures in a row. */
  function WaitAfter(env: Surroundings, i: nat): Wait {
    if OutcomeOf(env, i).Fine? then Cadence else Backoff(FailuresBy(env, i + 1))
  }

  /** The counters and waits after `n` turns, read off the surroundings. */
  ghost predicate Tells(env: Surroundings, h: Host, cycles: nat, n: nat) {
    && h.turns == n && h.completed == CompletedBy(env, n) && h.failures == FailuresBy(env, n) && h.calls == CallsBy(env, n)
    && h.cycles == cycles + WrittenBy(env, n) && |h.waits| == n && forall i :: 0 <= i < n ==> h.waits[i] == WaitAfter(env, i)
  }

  lemma StepTells(c: Config, env: Surroundings, bound: nat, h: Host, cycles: nat, n: nat)
    requires Tells(env, h, cycles, n) && Step(c, env, bound, h).Going?
    ensures Tells(env, Step(c, env, bound, h).host, cycles, n + 1)
  {
  }

  /** How a run ends that turn `i` ends: on a stop, or once the requested cycles are done, gracefully; otherwise
      with the code of its exception, and that of a crash after too many transient failures; and with the
      exception itself when the last health write fails too. */
  function ExitAt(env: Surroundings, i: nat): Exit {
    if !env.report(i).Fine? then Escaped
    else if env.stop(i) then Graceful
    else match OutcomeOf(env, i)
      case Fine => Graceful
      case Integrity => IntegrityExit
      case Blocked => BlockedExit
      case Fatal => Crashed
      case Transient => Crashed
  }

  lemma StepExits(c: Config, env: Surroundings, bound: nat, h: Host, cycles: nat, n: nat)
    requires Tells(env, h, cycles, n) && Step(c, env, bound, h).Ended?
    ensures var t := Step(c, env, bound, h);
      && t.exit == ExitAt(env, n) && t.host.turns == n + 1 && t.host.waits == h.waits
      && t.host.calls == (if env.stop(n) then CallsBy(env, n) else CallsBy(env, n + 1))
      && t.host.completed == (if env.stop(n) then CompletedBy(env, n) else CompletedBy(env, n + 1))
      && t.host.cycles == cycles + if env.stop(n) then WrittenBy(env, n) else WrittenBy(env, n + 1)
  {
  }

  lemma StartTells(env: Surroundings, cycles: nat)
    ensures Tells(env, Start(cycles), cycles, 0)
  {
  }

  /** A run that goes on has made one call in each turn whose RUNNING write succeeded, has counted the cycles whose
      IDLE write succeeded, and has waited after each turn as its outcome says. */
  lemma {:induction false} RunTells(c: Config, env: Surroundings, bound: nat, cycles: nat, n: nat)
    ensures var t := Turns(c, env, bound, Start(cycles), n); t.Going? ==> Tells(env, t.host, cycles, n)
  {
    hide Step, Tells;
    if n == 0 {
      StartTells(env, cycles);
    } else {
      RunTells(c, env, bound, cycles, n - 1);
      var t := Turns(c, env, bound, Start(cycles), n - 1);
      if t.Going? && Step(c, env, bound, t.host).Going? { StepTells(c, env, bound, t.host, cycles, n - 1); }
    }
  }

  /** A run that is over was ended by the first turn that ends one, and its exit code, its calls and its durable
      count are what that turn leaves. */
  lemma {:induction false} RunExits(c: Config, env: Surroundings, bound: nat, cycles: nat, n: nat) returns (i: nat)
    requires Turns(c, env, bound, Start(cycles), n).Ended?
    ensures i < n && EndsAt(c, env, bound, i) && forall j :: 0 <= j < i ==> !EndsAt(c, env, bound, j)
    ensures var t := Turns(c, env, bound, Start(cycles), n);
      && t.exit == ExitAt(env, i) && t.host.turns == i + 1
      && (forall j :: 0 <= j < |t.host.waits| ==> t.host.waits[j] == WaitAfter(env, j)) && |t.host.waits| == i
      && t.host.calls == (if env.stop(i) then CallsBy(env, i) else CallsBy(env, i + 1))
      && t.host.completed == (if env.stop(i) then CompletedBy(env, i) else CompletedBy(env, i + 1))
      && t.host.cycles == cycles + if env.stop(i) then WrittenBy(env, i) else WrittenBy(env, i + 1)
  {
    hide Step, EndsAt, CountsTurns, ExitAt, WaitAfter;
    var t := Turns(c, env, bound, Start(cycles), n - 1);
    if t.Ended? {
      i := RunExits(c, env, bound, cycles, n - 1);
    } else {
      i := n - 1;
      GoesOn(c, env, bound, cycles, i);
      RunTells(c, env, bound, cycles, i);
      StepEnds(c, env, bound, t.host, i);
      StepExits(c, env, bound, t.host, cycles, i);
    }
  }

  /** Nothing goes wrong but, perhaps, IDLE writes that fail transiently. */
  ghost predicate OnlyIdleFails(env: Surroundings) {
    forall i: nat :: !env.stop(i) && env.running(i).Fine? && env.once(i).Fine? && env.report(i).Fine?
      && (env.idle(i).Fine? || env.idle(i).Transient?)
  }

  lemma {:induction false} OnlyIdleCounts(c: Config, env: Surroundings, n: nat)
    requires ConfigOk(c) && OnlyIdleFails(env)
    ensures CompletedBy(env, n) == n && FailuresBy(env, n) <= 1
  {
    if n > 0 { OnlyIdleCounts(c, env, n - 1); }
  }

  /** So the bound alone does not end a run: with nothing else going wrong, it ends exactly when some
      IDLE write after the requested number of cycles succeeds. When none does, `run_once` is called
      without limit, because each success forgets the failures counted before. */
  lemma IdleEndsExactly(c: Config, env: Surroundings, bound: nat, cycles: nat)
    requires ConfigOk(c) && OnlyIdleFails(env)
    ensures (exists n :: Turns(c, env, bound, Start(cycles), n).Ended?) <==> (exists i: nat :: bound <= i + 1 && env.idle(i).Fine?)
  {
    EndsExactly(c, env, bound, cycles);
    forall i: nat ensures EndsAt(c, env, bound, i) <==> bound <= i + 1 && env.idle(i).Fine? {
      OnlyIdleCounts(c, env, i + 1);
    }
    assert (exists i: nat :: bound <= i + 1 && env.idle(i).Fine?) ==> exists i: nat :: EndsAt(c, env, bound, i);
  }

  // ---------------------------------------------------------------- the host

  class AutonomyServiceHost {
    const config: Config
    /** `af07_service_health.cycle_count`. */
    var cycleCount: nat

    constructor (config: Config, cycleCount: nat)
      ensures this.config == config && this.cycleCount == cycleCount
    {
      this.config, this.cycleCount := config, cycleCount;
    }

    /** The exception handlers: an exit, or a wait before the next turn. */
    method HandleFailure(h: Host, o: Outcome, reported: bool) returns (t: Turn)
      requires !o.Fine?
      ensures t == Handle(config, reported, h, o)
    {
      if !o.Transient? {
        var code := if o.Integrity? then IntegrityExit else if o.Blocked? then BlockedExit else Crashed;
        return Ended(h, if reported then code else Escaped);
      }
      var failures := h.failures + 1;
      if !reported { return Ended(h.(failures := failures), Escaped); }
      if failures > config.limit { return Ended(h.(failures := failures), Crashed); }
      t := Going(h.(failures := failures, waits := h.waits + [Backoff(failures)]));
    }

    /** The body of the `try`. */
    method TryOnce(h0: Host, env: Surroundings) returns (h: Host, o: Outcome)
      requires h0.cycles == cycleCount
      modifies this
      ensures (h, o) == Try(env, h0.turns, h0.(turns := h0.turns + 1)) && h.cycles == cycleCount
    {
      var i := h0.turns;
      h := h0.(turns := i + 1);
      o := env.running(i);
      if !o.Fine? { return; }
      h := h.(calls := h.calls + 1);
      o := env.once(i);
      if !o.Fine? { return; }
      h := h.(failures := 0, completed := h.completed + 1);
      o := env.idle(i);
      if o.Fine? {
        cycleCount := cycleCount + 1;
        h := h.(cycles := cycleCount);
      } else {
        h := h.(lost := h.lost + 1);
      }
    }

    method RunTurn(h: Host, bound: nat, env: Surroundings) returns (t: Turn)
      requires h.cycles == cycleCount
      modifies this
      ensures t == Step(config, env, bound, h) && t.host.cycles == cycleCount
    {
      var reported := env.report(h.turns).Fine?;
      if env.stop(h.turns) {
        return Ended(h.(turns := h.turns + 1), if reported then Graceful else Escaped);
      }
      var g, o := TryOnce(h, env);
      if !o.Fine? {
        t := HandleFailure(g, o, reported);
      } else if g.completed >= bound {
        t := Ended(g, if reported then Graceful else Escaped);
      } else {
        t := Going(g.(waits := g.waits + [Cadence]));
      }
    }

    /** The loop. It answers how it ended and what it did, which is a run of the turns above; all it
        needs is some turn that ends it. */
    method Run(bound: nat, env: Surroundings, ghost last: nat) returns (exit: Exit, h: Host)
      requires ConfigOk(config) && bound >= 1 && EndsAt(config, env, bound, last)
      modifies this
      ensures Turns(config, env, bound, Start(old(cycleCount)), h.turns) == Ended(h, exit) && h.cycles == cycleCount
      ensures EndOk(config, h, old(cycleCount), bound) && h.turns <= last + 1
    {
      h := Start(cycleCount);
      StartOk(config, cycleCount, bound, 0);
      while true
        invariant Turns(config, env, bound, Start(old(cycleCount)), h.turns) == Going(h)
        invariant LoopOk(config, h, old(cycleCount), bound) && h.turns <= last && h.cycles == cycleCount
        decreases last - h.turns
      {
        TurnEffect(config, env, bound, h, old(cycleCount), last);
        var t := RunTurn(h, bound, env);
        if t.Ended? { return t.exit, t.host; }
        h := t.host;
      }
    }
  }

  /** All the loop needs to know of its next turn. */
  lemma TurnEffect(c: Config, env: Surroundings, bound: nat, h: Host, cycles: nat, last: nat)
    requires ConfigOk(c) && LoopOk(c, h, cycles, bound) && EndsAt(c, env, bound, last) && h.turns <= last
    requires Turns(c, env, bound, Start(cycles), h.turns) == Going(h)
    ensures var t := Step(c, env, bound, h);
      && TurnOk(c, t, cycles, bound) && Turns(c, env, bound, Start(cycles), t.host.turns) == t
      && t.host.turns == h.turns + 1 && (t.Going? ==> t.host.turns <= last)
  {
    hide EndsAt, LoopOk, TurnOk;
    StepKeeps(c, env, bound, h, cycles);
    StepCounts(c, env, bound, h);
    GoesOn(c, env, bound, cycles, h.turns + 1);
  }

  lemma StepCounts(c: Config, env: Surroundings, bound: nat, h: Host)
    ensures Step(c, env, bound, h).host.turns == h.turns + 1
  {
  }
}
