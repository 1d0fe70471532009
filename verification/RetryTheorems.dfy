/** What one resilient provider call keeps, for every script of provider behaviour. */
module RetryTheorems {
  import opened Wrappers
  import opened Retry
  import B = Breaker

  /**
   * A call starts before the deadline and is given no more time than is left; a pause is meant to end before the
   * deadline.
   */
  ghost predicate InBudget(e: Event, deadline: real) {
    match e
    case Call(_, start, timeout, _) => start < deadline && timeout <= deadline - start
    case Sleep(start, delay, _) => start + delay < deadline
  }

  /** The call kept to its timeout, as the opening of a stream is made to; the pause ended when it was meant to. */
  ghost predicate Honoured(mode: Mode, e: Event) {
    match e
    case Call(_, start, timeout, end) => mode == StreamOpen || end <= start + timeout
    case Sleep(start, delay, end) => end == start + delay
  }

  ghost predicate Extends(w: World, w1: World) {
    && w.log <= w1.log
    && w.now <= w1.now
    && w.calls <= w1.calls
  }

  ghost predicate Disciplined(w: World, w1: World, deadline: real) {
    && Extends(w, w1)
    && (forall i :: |w.log| <= i < |w1.log| ==> InBudget(w1.log[i], deadline))
  }

  /** If everything since `w` honoured its time, the clock has not passed the deadline. */
  ghost predicate OnTime(mode: Mode, w: World, w1: World, deadline: real) {
    w.now <= deadline && w.log <= w1.log && (forall i :: |w.log| <= i < |w1.log| ==> Honoured(mode, w1.log[i])) ==>
      w1.now <= deadline
  }

  lemma {:induction false} Chain(mode: Mode, w: World, w1: World, w2: World, deadline: real)
    requires Disciplined(w, w1, deadline) && Disciplined(w1, w2, deadline)
    requires OnTime(mode, w, w1, deadline) && OnTime(mode, w1, w2, deadline)
    ensures Disciplined(w, w2, deadline) && OnTime(mode, w, w2, deadline)
  {
    forall i | |w.log| <= i < |w1.log| ensures w1.log[i] == w2.log[i] {}
  }

  // ---------- induction over attempts ----------

  /** What may be said of the attempts from this one on: where they started, where they ended, and the outcome. */
  type Claim = (nat, World, World, Outcome) -> bool

  /** The claim holds if this attempt is the last, and carries over from the next attempt if it is not. */
  ghost predicate CarriesOver(claim: Claim, name: string, attempt: nat, mode: Mode, cfg: Reliability, s: B.Settings,
                              deadline: Option<real>, script: Script, w: World)
  {
    var (w1, ended) := AttemptOnce(name, attempt, mode, cfg, s, deadline, script, w);
    if ended.Some? then claim(attempt, w, w1, ended.value)
    else forall next: nat, w2, out :: next == attempt + 1 && claim(next, w1, w2, out) ==> claim(attempt, w, w2, out)
  }

  lemma {:induction false} AttemptsInduction(claim: Claim, name: string, attempt: nat, mode: Mode, cfg: Reliability,
                                             s: B.Settings, deadline: Option<real>, script: Script, w: World)
    requires attempt <= cfg.maxRetries
    requires forall n: nat, v ::
               n <= cfg.maxRetries ==> CarriesOver(claim, name, n, mode, cfg, s, deadline, script, v)
    ensures
      var (w1, out) := Attempts(name, attempt, mode, cfg, s, deadline, script, w);
      claim(attempt, w, w1, out)
    decreases cfg.maxRetries - attempt
  {
    assert CarriesOver(claim, name, attempt, mode, cfg, s, deadline, script, w);
    var (w1, ended) := AttemptOnce(name, attempt, mode, cfg, s, deadline, script, w);
    if ended.None? {
      var next := attempt + 1;
      AttemptsInduction(claim, name, next, mode, cfg, s, deadline, script, w1);
      var (w2, out) := Attempts(name, next, mode, cfg, s, deadline, script, w1);
      assert claim(next, w1, w2, out);
      assert claim(attempt, w, w2, out);
    }
  }

  // ---------- the deadline ----------

  lemma {:induction false} CallKeepsDeadline(name: string, mode: Mode, cfg: Reliability, deadline: real, script: Script,
                                             w: World)
    requires !BudgetGone(Some(deadline), w.now)
    ensures var w1 := AfterCall(name, mode, cfg, Some(deadline), script, w);
            && Disciplined(w, w1, deadline) && OnTime(mode, w, w1, deadline)
  {
    var called := AfterCall(name, mode, cfg, Some(deadline), script, w);
    assert InBudget(called.log[|w.log|], deadline);
  }

  lemma {:induction false} FailureKeepsDeadline(mode: Mode, name: string, attempt: nat, cfg: Reliability, s: B.Settings,
                                                deadline: real, e: CallError, jitter: Duration, lag: Duration, w: World)
    ensures var w1 := AfterFailure(name, attempt, cfg, s, Some(deadline), e, jitter, lag, w).0;
            && Disciplined(w, w1, deadline) && OnTime(mode, w, w1, deadline)
  {
    var w1 := AfterFailure(name, attempt, cfg, s, Some(deadline), e, jitter, lag, w).0;
    if |w1.log| > |w.log| {
      assert InBudget(w1.log[|w.log|], deadline);
    }
  }

  lemma {:induction false} AttemptKeepsDeadline(name: string, attempt: nat, mode: Mode, cfg: Reliability, s: B.Settings,
                                                deadline: real, script: Script, w: World)
    ensures var w1 := AttemptOnce(name, attempt, mode, cfg, s, Some(deadline), script, w).0;
            && Disciplined(w, w1, deadline) && OnTime(mode, w, w1, deadline)
  {
    if !BudgetGone(Some(deadline), w.now) {
      var reply := script(w.calls);
      var called := AfterCall(name, mode, cfg, Some(deadline), script, w);
      CallKeepsDeadline(name, mode, cfg, deadline, script, w);
      if !CutOff(mode, Some(deadline), w.now, reply) && reply.failure.Some? {
        FailureKeepsDeadline(mode, name, attempt, cfg, s, deadline, reply.failure.value, reply.jitter, reply.lag,
            called);
        Chain(mode, w, called, AttemptOnce(name, attempt, mode, cfg, s, Some(deadline), script, w).0, deadline);
      }
    }
  }

  lemma {:induction false} AttemptsKeepDeadline(name: string, attempt: nat, mode: Mode, cfg: Reliability, s: B.Settings,
                                                deadline: real, script: Script, w: World)
    requires attempt <= cfg.maxRetries
    ensures var w1 := Attempts(name, attempt, mode, cfg, s, Some(deadline), script, w).0;
            && Disciplined(w, w1, deadline) && OnTime(mode, w, w1, deadline)
    decreases cfg.maxRetries - attempt
  {
    AttemptKeepsDeadline(name, attempt, mode, cfg, s, deadline, script, w);
    var (w1, out) := AttemptOnce(name, attempt, mode, cfg, s, Some(deadline), script, w);
    if out.None? {
      AttemptsKeepDeadline(name, attempt + 1, mode, cfg, s, deadline, script, w1);
      Chain(mode, w, w1, Attempts(name, attempt + 1, mode, cfg, s, Some(deadline), script, w1).0, deadline);
    }
  }

  /** Retrying one provider: nothing starts late, nothing is given too long, no pause is meant to outlive the budget. */
  lemma {:induction false} ResilientKeepsDeadline(name: string, mode: Mode, cfg: Reliability, s: B.Settings,
                                                  deadline: real, script: Script, w: World)
    ensures var w1 := Resilient(name, mode, cfg, s, Some(deadline), script, w).0;
            && Disciplined(w, w1, deadline) && OnTime(mode, w, w1, deadline)
  {
    var asked := w.(breakers := w.breakers[name := B.Allow(B.Of(w.breakers, name), s, w.now).0]);
    AttemptsKeepDeadline(name, 0, mode, cfg, s, deadline, script, asked);
  }

  // ---------- back-off ----------

  /** Timeouts and transport errors, and the statuses of a provider that is busy or broken. */
  ghost predicate WorthRetrying(e: CallError) {
    || e.Timeout? || e.Transport?
    || (e.Status? && (e.code == 408 || e.code == 409 || e.code == 429 || e.code >= 500))
  }

  /** What the server asked for; nothing else carries a Retry-After. */
  ghost predicate AskedFor(e: CallError, seconds: real) {
    e.Status? && e.retryAfter == Some(seconds)
  }

  ghost function Pow2(n: nat): real {
    if n == 0 then 1.0 else 2.0 * Pow2(n - 1)
  }

  lemma {:induction false} PowersDouble(m: nat, n: nat)
    ensures Pow2(0) == 1.0 && Pow2(1) == 2.0 && Pow2(m + n) == Pow2(m) * Pow2(n)
  {
    if m > 0 {
      PowersDouble(m - 1, n);
      assert 2.0 * (Pow2(m - 1) * Pow2(n)) == (2.0 * Pow2(m - 1)) * Pow2(n);
    }
  }

  lemma {:induction false} ExponentialIsPower(base: Duration, attempt: nat)
    ensures Exponential(base, attempt) == base * Pow2(attempt) >= 0.0
  {
    if attempt > 0 {
      ExponentialIsPower(base, attempt - 1);
      assert 2.0 * (base * Pow2(attempt - 1)) == base * (2.0 * Pow2(attempt - 1));
    }
  }

  /** Long enough: as long as the server asked, and as the back-off with its jitter, or the cap. */
  ghost predicate LongEnough(cfg: Reliability, delay: real, attempt: nat, e: CallError, jitter: Duration) {
    && (forall seconds :: AskedFor(e, seconds) ==> seconds <= delay)
    && (Exponential(cfg.baseDelayS, attempt) + jitter <= delay || cfg.maxBackoffS <= delay)
  }

  /** And no longer than it must be. */
  ghost predicate NoLonger(cfg: Reliability, delay: real, attempt: nat, e: CallError, jitter: Duration) {
    AskedFor(e, delay) || (delay <= Exponential(cfg.baseDelayS, attempt) + jitter && delay <= cfg.maxBackoffS)
  }

  /** The pause follows a call that failed transiently on this attempt, at once, and is as long as it must be. */
  ghost predicate PausesWell(cfg: Reliability, log: seq<Event>, i: nat, attempt: nat, reply: Reply)
    requires 0 < i < |log|
  {
    && log[i].Sleep? && log[i - 1].Call? && log[i].start == log[i - 1].end && log[i].start + log[i].delay <= log[i].end
    && reply.failure.Some? && WorthRetrying(reply.failure.value)
    && LongEnough(cfg, log[i].delay, attempt, reply.failure.value, reply.jitter)
    && NoLonger(cfg, log[i].delay, attempt, reply.failure.value, reply.jitter)
  }

  lemma {:induction false} DelayIsRight(cfg: Reliability, attempt: nat, e: CallError, jitter: Duration)
    ensures
      var delay := RetryDelay(e, attempt, cfg, jitter);
      LongEnough(cfg, delay, attempt, e, jitter) && NoLonger(cfg, delay, attempt, e, jitter)
  {
    ExponentialIsPower(cfg.baseDelayS, attempt);
  }

  /** The i-th event of the log is the call, or the pause after it, that its place from `from` on asks for. */
  ghost predicate InPlace(cfg: Reliability, script: Script, log: seq<Event>, from: nat, calls: nat, attempt: nat,
                          i: nat)
    requires from <= i < |log|
  {
    var k := i - from;
    if k % 2 == 0 then log[i].Call? else PausesWell(cfg, log, i, attempt + k / 2, script(calls + k / 2))
  }

  /** From `from` on, calls and pauses alternate, and the k-th pause answers the k-th call. */
  ghost predicate Alternates(cfg: Reliability, script: Script, log: seq<Event>, from: nat, calls: nat, attempt: nat) {
    forall i :: from <= i < |log| ==> InPlace(cfg, script, log, from, calls, attempt, i)
  }

  ghost function BacksOff(cfg: Reliability, script: Script): Claim {
    (attempt: nat, w: World, w1: World, out: Outcome) =>
      w.log <= w1.log && Alternates(cfg, script, w1.log, |w.log|, w.calls, attempt)
  }

  lemma {:induction false} AttemptBacksOff(name: string, attempt: nat, mode: Mode, cfg: Reliability, s: B.Settings,
                                           deadline: Option<real>, script: Script, w: World)
    ensures CarriesOver(BacksOff(cfg, script), name, attempt, mode, cfg, s, deadline, script, w)
  {
    var (w1, ended) := AttemptOnce(name, attempt, mode, cfg, s, deadline, script, w);
    if ended.None? {
      OnePause(name, attempt, mode, cfg, s, deadline, script, w);
      forall next: nat, w2, out | next == attempt + 1 && BacksOff(cfg, script)(next, w1, w2, out)
        ensures BacksOff(cfg, script)(attempt, w, w2, out)
      {
        TwoEarlier(cfg, script, w2.log, |w.log|, w.calls, attempt);
      }
    } else {
      NoPause(name, attempt, mode, cfg, s, deadline, script, w);
    }
  }

  lemma {:induction false} NoPause(name: string, attempt: nat, mode: Mode, cfg: Reliability, s: B.Settings,
                                   deadline: Option<real>, script: Script, w: World)
    requires AttemptOnce(name, attempt, mode, cfg, s, deadline, script, w).1.Some?
    ensures
      var w1 := AttemptOnce(name, attempt, mode, cfg, s, deadline, script, w).0;
      w.log <= w1.log && |w1.log| <= |w.log| + 1 && (|w1.log| > |w.log| ==> w1.log[|w.log|].Call?)
  {
  }

  lemma {:induction false} OnePause(name: string, attempt: nat, mode: Mode, cfg: Reliability, s: B.Settings,
                                    deadline: Option<real>, script: Script, w: World)
    requires AttemptOnce(name, attempt, mode, cfg, s, deadline, script, w).1.None?
    ensures
      var w1 := AttemptOnce(name, attempt, mode, cfg, s, deadline, script, w).0;
      && w.log <= w1.log && |w1.log| == |w.log| + 2 && w1.calls == w.calls + 1
      && w1.log[|w.log|].Call? && PausesWell(cfg, w1.log, |w.log| + 1, attempt, script(w.calls))
  {
    var reply := script(w.calls);
    DelayIsRight(cfg, attempt, reply.failure.value, reply.jitter);
  }

  lemma {:induction false} TwoEarlier(cfg: Reliability, script: Script, log: seq<Event>, from: nat, calls: nat,
                                      attempt: nat)
    requires from + 2 <= |log| && Alternates(cfg, script, log, from + 2, calls + 1, attempt + 1)
    requires log[from].Call? && PausesWell(cfg, log, from + 1, attempt, script(calls))
    ensures Alternates(cfg, script, log, from, calls, attempt)
  {
    forall i | from <= i < |log| ensures InPlace(cfg, script, log, from, calls, attempt, i) {
      if i >= from + 2 {
        OnePlaceEarlier(cfg, script, log, from, calls, attempt, i);
      }
    }
  }

  lemma {:induction false} OnePlaceEarlier(cfg: Reliability, script: Script, log: seq<Event>, from: nat, calls: nat,
                                           attempt: nat, i: nat)
    requires from + 2 <= i < |log| && InPlace(cfg, script, log, from + 2, calls + 1, attempt + 1, i)
    ensures InPlace(cfg, script, log, from, calls, attempt, i)
  {
    var k := i - from;
    assert k % 2 == (k - 2) % 2 && k / 2 == (k - 2) / 2 + 1;
  }

  /** Retrying one provider: each retry waits for as long as the server asked and the back-off demands. */
  lemma {:induction false} ResilientBacksOff(name: string, mode: Mode, cfg: Reliability, s: B.Settings,
                                             deadline: Option<real>, script: Script, w: World)
    ensures
      var w1 := Resilient(name, mode, cfg, s, deadline, script, w).0;
      w.log <= w1.log && Alternates(cfg, script, w1.log, |w.log|, w.calls, 0)
  {
    var asked := w.(breakers := w.breakers[name := B.Allow(B.Of(w.breakers, name), s, w.now).0]);
    forall n: nat, v ensures CarriesOver(BacksOff(cfg, script), name, n, mode, cfg, s, deadline, script, v) {
      AttemptBacksOff(name, n, mode, cfg, s, deadline, script, v);
    }
    AttemptsInduction(BacksOff(cfg, script), name, 0, mode, cfg, s, deadline, script, asked);
  }

  /**
   * In powers of two: a pause is no longer than what was asked or than base * 2^k + jitter, and no shorter than that or
   * the cap. Unless the server asked, it stays within base * (2^k + 1) when the jitter is within the base.
   */
  lemma {:induction false} PausesStayExponential(cfg: Reliability, log: seq<Event>, i: nat, attempt: nat, reply: Reply)
    requires 0 < i < |log| && PausesWell(cfg, log, i, attempt, reply)
    ensures
      var sum := cfg.baseDelayS * Pow2(attempt) + reply.jitter;
      var unasked := forall seconds :: !AskedFor(reply.failure.value, seconds);
      && (sum <= log[i].delay || cfg.maxBackoffS <= log[i].delay)
      && (unasked ==> log[i].delay <= sum && log[i].delay <= cfg.maxBackoffS)
      && (unasked && reply.jitter <= cfg.baseDelayS ==> log[i].delay <= cfg.baseDelayS * (Pow2(attempt) + 1.0))
  {
    ExponentialIsPower(cfg.baseDelayS, attempt);
  }

  // ---------- accounting ----------

  lemma {:induction false} AttemptsAccount(name: string, attempt: nat, mode: Mode, cfg: Reliability, s: B.Settings,
                                           deadline: Option<real>, script: Script, w: World)
    requires attempt <= cfg.maxRetries
    ensures
      var (w1, out) := Attempts(name, attempt, mode, cfg, s, deadline, script, w);
      && !out.Unavailable?
      && attempt <= Retries(out) <= cfg.maxRetries
      && w1.retriesRecorded - w.retriesRecorded == Retries(out) - attempt
      && Retries(out) - attempt <= w1.calls - w.calls <= Retries(out) - attempt + 1
    decreases cfg.maxRetries - attempt
  {
    var (w1, out) := AttemptOnce(name, attempt, mode, cfg, s, deadline, script, w);
    if out.None? {
      AttemptsAccount(name, attempt + 1, mode, cfg, s, deadline, script, w1);
    }
  }

  /** The retries an outcome carries are the retries the counter recorded; calls are bounded by the retry limit. */
  lemma {:induction false} ResilientAccounts(name: string, mode: Mode, cfg: Reliability, s: B.Settings,
                                             deadline: Option<real>, script: Script, w: World)
    ensures
      var (w1, out) := Resilient(name, mode, cfg, s, deadline, script, w);
      && w1.retriesRecorded == w.retriesRecorded + Retries(out)
      && Retries(out) <= w1.calls - w.calls <= Retries(out) + 1 <= cfg.maxRetries + 1
  {
    var asked := w.(breakers := w.breakers[name := B.Allow(B.Of(w.breakers, name), s, w.now).0]);
    AttemptsAccount(name, 0, mode, cfg, s, deadline, script, asked);
  }

  // ---------- what the breaker hears ----------

  /** The breaker of an admitted call, once it has heard the outcome. A stream's success is reported later. */
  function Heard(b: B.Snapshot, s: B.Settings, mode: Mode, out: Outcome, now: real): B.Snapshot {
    match out
    case Served(_) => if mode == NonStream then B.FRESH else b
    case Failed(e, _) => if e.IsProviderFailure() then B.Failure(b, s, now) else B.Cancelled(b, now)
    case BudgetSpent(_) => B.Failure(b, s, now)
    case Unavailable => b
  }

  /** Does some attempt, this one or a later one, start with the budget spent? */
  ghost predicate SpentStart(name: string, attempt: nat, mode: Mode, cfg: Reliability, s: B.Settings,
                             deadline: Option<real>, script: Script, w: World)
    requires attempt <= cfg.maxRetries
    decreases cfg.maxRetries - attempt
  {
    BudgetGone(deadline, w.now) ||
    var (w1, out) := AttemptOnce(name, attempt, mode, cfg, s, deadline, script, w);
    out.None? && SpentStart(name, attempt + 1, mode, cfg, s, deadline, script, w1)
  }

  lemma {:induction false} AttemptsReportOnce(name: string, attempt: nat, mode: Mode, cfg: Reliability, s: B.Settings,
                                              deadline: Option<real>, script: Script, w: World)
    requires attempt <= cfg.maxRetries
    ensures
      var (w1, out) := Attempts(name, attempt, mode, cfg, s, deadline, script, w);
      var spent := SpentStart(name, attempt, mode, cfg, s, deadline, script, w);
      var silent := spent || (out.Served? && mode == StreamOpen);
      && (spent ==> out.BudgetSpent?)
      && w1.reports == w.reports + (if silent then 0 else 1)
      && w1.breakers == if silent then w.breakers
                        else w.breakers[name := Heard(B.Of(w.breakers, name), s, mode, out, w1.now)]
    decreases cfg.maxRetries - attempt
  {
    var (w1, out) := AttemptOnce(name, attempt, mode, cfg, s, deadline, script, w);
    if out.None? {
      AttemptsReportOnce(name, attempt + 1, mode, cfg, s, deadline, script, w1);
    }
  }

  /** The world once the breaker has been asked, and let the call through or not. */
  function Asked(name: string, s: B.Settings, w: World): World {
    w.(breakers := w.breakers[name := B.Allow(B.Of(w.breakers, name), s, w.now).0])
  }

  /**
   * A call reports to its breaker, once and to no other, exactly unless it is refused, or some attempt of it starts
   * with the budget spent, or it opens a stream, which reports when it ends.
   */
  lemma {:induction false} ReportsExactlyOnce(name: string, mode: Mode, cfg: Reliability, s: B.Settings,
                                              deadline: Option<real>, script: Script, w: World)
    ensures
      var allowed := B.Allow(B.Of(w.breakers, name), s, w.now).1;
      var asked := Asked(name, s, w);
      var (w1, out) := Resilient(name, mode, cfg, s, deadline, script, w);
      var spent := SpentStart(name, 0, mode, cfg, s, deadline, script, asked);
      var silent := !allowed || spent || (out.Served? && mode == StreamOpen);
      && (out.Unavailable? <==> !allowed)
      && (allowed && spent ==> out.BudgetSpent?)
      && w1.reports == w.reports + (if silent then 0 else 1)
      && w1.breakers == if silent then asked.breakers
                        else asked.breakers[name := Heard(B.Of(asked.breakers, name), s, mode, out, w1.now)]
  {
    if B.Allow(B.Of(w.breakers, name), s, w.now).1 {
      AttemptsAccount(name, 0, mode, cfg, s, deadline, script, Asked(name, s, w));
      AttemptsReportOnce(name, 0, mode, cfg, s, deadline, script, Asked(name, s, w));
    }
  }

  /** If no pause overruns, no attempt but the first can start with the budget spent. */
  lemma {:induction false} PromptNeverSpent(name: string, attempt: nat, mode: Mode, cfg: Reliability, s: B.Settings,
                                            deadline: Option<real>, script: Script, w: World)
    requires attempt <= cfg.maxRetries && forall n :: script(n).lag == 0.0
    ensures SpentStart(name, attempt, mode, cfg, s, deadline, script, w) <==> BudgetGone(deadline, w.now)
    decreases cfg.maxRetries - attempt
  {
    var (w1, out) := AttemptOnce(name, attempt, mode, cfg, s, deadline, script, w);
    if out.None? {
      PromptNeverSpent(name, attempt + 1, mode, cfg, s, deadline, script, w1);
    }
  }

  // ---------- half-open probes ----------

  /** Half open only with a probe in flight, as every trace of a breaker leaves it. */
  ghost predicate ProbesTracked(bs: B.Breakers) {
    forall name :: name in bs && bs[name].state == B.HalfOpen ==> bs[name].probeInFlight
  }

  /** The request is let through as a probe. */
  ghost predicate IsProbe(name: string, s: B.Settings, w: World) {
    var b := B.Of(w.breakers, name);
    b.state == B.Open && B.Allow(b, s, w.now).1
  }

  /**
   * A call leaves its breaker half open exactly if it was so before, or the call was a probe and some attempt of it
   * started with the budget spent, or it has opened a stream that has yet to end.
   */
  lemma {:induction false} ProbeLeftExactly(name: string, mode: Mode, cfg: Reliability, s: B.Settings,
                                            deadline: Option<real>, script: Script, w: World)
    requires ProbesTracked(w.breakers)
    ensures
      var (w1, out) := Resilient(name, mode, cfg, s, deadline, script, w);
      var spent := SpentStart(name, 0, mode, cfg, s, deadline, script, Asked(name, s, w));
      && ProbesTracked(w1.breakers)
      && (forall other :: other != name ==> B.Of(w1.breakers, other) == B.Of(w.breakers, other))
      && (B.Of(w1.breakers, name).state == B.HalfOpen <==>
            || B.Of(w.breakers, name).state == B.HalfOpen
            || (IsProbe(name, s, w) && (spent || (out.Served? && mode == StreamOpen))))
  {
    ReportsExactlyOnce(name, mode, cfg, s, deadline, script, w);
    var out := Resilient(name, mode, cfg, s, deadline, script, w).1;
    var b, now := B.Of(Asked(name, s, w).breakers, name), Resilient(name, mode, cfg, s, deadline, script, w).0.now;
    assert !out.Unavailable? && !(out.Served? && mode == StreamOpen)
        ==> Heard(b, s, mode, out, now).state != B.HalfOpen;
  }
}
