/** How one resilient provider call ends, and what its circuit breaker hears of it. */
module RetryOutcomes {
  import opened Wrappers
  import opened Retry
  import opened RetryTheorems
  import B = Breaker
  import T = BreakerTheorems

  // ---------- how long a call is given ----------

  /**
   * A call goes to the provider asked for. Without a deadline it is given the configured timeout; with one, a stream
   * has all the time left to open in, and any other call the shorter of the two.
   */
  ghost predicate GivenItsTime(name: string, mode: Mode, cfg: Reliability, deadline: Option<real>, e: Event) {
    e.Call? ==>
      && e.provider == name
      && match deadline
         case None => e.timeout == cfg.timeoutS
         case Some(d) =>
           if mode == StreamOpen then e.timeout == d - e.start
           else && e.timeout <= d - e.start && e.timeout <= cfg.timeoutS
                && (e.timeout == d - e.start || e.timeout == cfg.timeoutS)
  }

  /** Every call logged since is. */
  ghost predicate AllGiven(name: string, mode: Mode, cfg: Reliability, deadline: Option<real>, before: seq<Event>,
                           after: seq<Event>)
  {
    before <= after && forall i :: |before| <= i < |after| ==> GivenItsTime(name, mode, cfg, deadline, after[i])
  }

  lemma {:induction false} AllGivenChains(name: string, mode: Mode, cfg: Reliability, deadline: Option<real>,
                                          a: seq<Event>, b: seq<Event>, c: seq<Event>)
    requires AllGiven(name, mode, cfg, deadline, a, b) && AllGiven(name, mode, cfg, deadline, b, c)
    ensures AllGiven(name, mode, cfg, deadline, a, c)
  {
    assert forall i :: 0 <= i < |b| ==> c[i] == b[i];
  }

  ghost function GivesTime(name: string, mode: Mode, cfg: Reliability, deadline: Option<real>): Claim {
    (attempt: nat, w: World, w1: World, out: Outcome) => AllGiven(name, mode, cfg, deadline, w.log, w1.log)
  }

  lemma {:induction false} AttemptGivesTime(name: string, attempt: nat, mode: Mode, cfg: Reliability, s: B.Settings,
                                            deadline: Option<real>, script: Script, w: World)
    ensures CarriesOver(GivesTime(name, mode, cfg, deadline), name, attempt, mode, cfg, s, deadline, script, w)
  {
    var claim := GivesTime(name, mode, cfg, deadline);
    var (w1, ended) := AttemptOnce(name, attempt, mode, cfg, s, deadline, script, w);
    OneAttemptLogged(name, attempt, mode, cfg, s, deadline, script, w);
    if ended.None? {
      forall next: nat, w2, out | claim(next, w1, w2, out) ensures claim(attempt, w, w2, out) {
        AllGivenChains(name, mode, cfg, deadline, w.log, w1.log, w2.log);
      }
    }
  }

  lemma {:induction false} OneAttemptLogged(name: string, attempt: nat, mode: Mode, cfg: Reliability, s: B.Settings,
                                            deadline: Option<real>, script: Script, w: World)
    ensures AllGiven(name, mode, cfg, deadline, w.log,
                     AttemptOnce(name, attempt, mode, cfg, s, deadline, script, w).0.log)
  {
  }

  lemma {:induction false} ResilientGivesTime(name: string, mode: Mode, cfg: Reliability, s: B.Settings,
                                              deadline: Option<real>, script: Script, w: World)
    ensures AllGiven(name, mode, cfg, deadline, w.log, Resilient(name, mode, cfg, s, deadline, script, w).0.log)
  {
    var claim := GivesTime(name, mode, cfg, deadline);
    forall n: nat, v ensures CarriesOver(claim, name, n, mode, cfg, s, deadline, script, v) {
      AttemptGivesTime(name, n, mode, cfg, s, deadline, script, v);
    }
    AttemptsInduction(claim, name, 0, mode, cfg, s, deadline, script, Asked(name, s, w));
  }

  // ---------- how a call ends ----------

  /** The pause that this failure calls for reaches the deadline. */
  ghost predicate NoTimeToPause(cfg: Reliability, attempt: nat, e: CallError, jitter: Duration, now: real,
                                deadline: real)
  {
    || (exists seconds :: AskedFor(e, seconds) && now + seconds >= deadline)
    || (now + Exponential(cfg.baseDelayS, attempt) + jitter >= deadline && now + cfg.maxBackoffS >= deadline)
  }

  /** The last reply, the retry limit and the budget are what the outcome says they are. */
  ghost predicate EndsRightly(mode: Mode, cfg: Reliability, deadline: Option<real>, retries: nat, reply: Reply,
                              now: real, out: Outcome)
  {
    match out
    case Served(n) =>
      n == retries && reply.failure.None? && (mode == StreamOpen && deadline.Some? ==> now < deadline.value)
    case Failed(e, n) =>
      n == retries && reply.failure == Some(e) && (WorthRetrying(e) ==> n == cfg.maxRetries)
    case BudgetSpent(n) =>
      && n == retries && deadline.Some?
      && (|| now >= deadline.value
          || (&& reply.failure.Some? && WorthRetrying(reply.failure.value) && n < cfg.maxRetries
              && NoTimeToPause(cfg, n, reply.failure.value, reply.jitter, now, deadline.value)))
    case Unavailable => false
  }

  ghost function EndsAsReplied(mode: Mode, cfg: Reliability, deadline: Option<real>, script: Script): Claim {
    (attempt: nat, w: World, w1: World, out: Outcome) =>
      && Retries(out) >= attempt
      && EndsRightly(mode, cfg, deadline, Retries(out), script(w.calls + Retries(out) - attempt), w1.now, out)
  }

  lemma {:induction false} AttemptEndsRightly(name: string, attempt: nat, mode: Mode, cfg: Reliability, s: B.Settings,
                                              deadline: Option<real>, script: Script, w: World)
    requires attempt <= cfg.maxRetries && AttemptOnce(name, attempt, mode, cfg, s, deadline, script, w).1.Some?
    ensures
      var (w1, out) := AttemptOnce(name, attempt, mode, cfg, s, deadline, script, w);
      Retries(out.value) == attempt && EndsRightly(mode, cfg, deadline, attempt, script(w.calls), w1.now, out.value)
  {
    var reply := script(w.calls);
    if reply.failure.Some? && reply.failure.value.Status? && reply.failure.value.retryAfter.Some? {
      assert AskedFor(reply.failure.value, reply.failure.value.retryAfter.value);
    }
  }

  lemma {:induction false} OneMoreCall(name: string, attempt: nat, mode: Mode, cfg: Reliability, s: B.Settings,
                                       deadline: Option<real>, script: Script, w: World)
    requires AttemptOnce(name, attempt, mode, cfg, s, deadline, script, w).1.None?
    ensures AttemptOnce(name, attempt, mode, cfg, s, deadline, script, w).0.calls == w.calls + 1
  {
  }

  lemma {:induction false} AttemptEndsAsReplied(name: string, attempt: nat, mode: Mode, cfg: Reliability,
                                                s: B.Settings, deadline: Option<real>, script: Script, w: World)
    requires attempt <= cfg.maxRetries
    ensures CarriesOver(EndsAsReplied(mode, cfg, deadline, script), name, attempt, mode, cfg, s, deadline, script, w)
  {
    if AttemptOnce(name, attempt, mode, cfg, s, deadline, script, w).1.None? {
      OneMoreCall(name, attempt, mode, cfg, s, deadline, script, w);
    } else {
      AttemptEndsRightly(name, attempt, mode, cfg, s, deadline, script, w);
    }
  }

  /**
   * An admitted call is answered by the reply after its last retry: served if that is no failure, and for a stream in
   * time, failed only if that is not worth retrying or the retries are used up, and out of budget only if time is up or
   * the pause would reach the deadline.
   */
  lemma {:induction false} ResilientEndsRightly(name: string, mode: Mode, cfg: Reliability, s: B.Settings,
                                                deadline: Option<real>, script: Script, w: World)
    ensures
      var (w1, out) := Resilient(name, mode, cfg, s, deadline, script, w);
      || (out.Unavailable? && w1.now == w.now && w1.calls == w.calls)
      || EndsRightly(mode, cfg, deadline, Retries(out), script(w.calls + Retries(out)), w1.now, out)
  {
    var claim := EndsAsReplied(mode, cfg, deadline, script);
    forall n: nat, v | n <= cfg.maxRetries ensures CarriesOver(claim, name, n, mode, cfg, s, deadline, script, v) {
      AttemptEndsAsReplied(name, n, mode, cfg, s, deadline, script, v);
    }
    AttemptsInduction(claim, name, 0, mode, cfg, s, deadline, script, Asked(name, s, w));
  }

  // ---------- what the breaker is told, as a trace ----------

  /** Errors that are the request's own: a bad payload, and the statuses of one the provider cannot accept. */
  ghost predicate RequestsFault(e: CallError) {
    || e.Payload?
    || (e.Status? && e.code < 500 && e.code != 401 && e.code != 403 && e.code != 404 && e.code != 408 && e.code != 409
        && e.code != 429)
  }

  /** What an admitted call comes to for its breaker. */
  ghost function Tells(mode: Mode, out: Outcome, at: real): seq<T.Event> {
    match out
    case Served(_) => if mode == NonStream then [T.Succeeded(at)] else []
    case Failed(e, _) => if RequestsFault(e) then [T.Abandoned(at)] else [T.Failed(at)]
    case BudgetSpent(_) => [T.Failed(at)]
    case Unavailable => []
  }

  /** To its breaker a call is one request, and unless it starts with the budget spent, what it came to. */
  lemma {:induction false} BreakerHearsCall(name: string, mode: Mode, cfg: Reliability, s: B.Settings,
                                            deadline: Option<real>, script: Script, w: World)
    ensures
      var (w1, out) := Resilient(name, mode, cfg, s, deadline, script, w);
      var spent := !out.Unavailable? && SpentStart(name, 0, mode, cfg, s, deadline, script, Asked(name, s, w));
      && B.Of(w1.breakers, name)
         == T.From(B.Of(w.breakers, name), s, [T.Asked(w.now)] + if spent then [] else Tells(mode, out, w1.now))
      && forall other :: other != name ==> B.Of(w1.breakers, other) == B.Of(w.breakers, other)
  {
    var (w1, out) := Resilient(name, mode, cfg, s, deadline, script, w);
    ReportsExactlyOnce(name, mode, cfg, s, deadline, script, w);
    var b := B.Of(w.breakers, name);
    HearingIsStepping(B.Of(Asked(name, s, w).breakers, name), s, mode, out, w1.now);
    OneThenOne(b, s, T.Asked(w.now), Tells(mode, out, w1.now));
    OneThenOne(b, s, T.Asked(w.now), []);
  }

  lemma {:induction false} HearingIsStepping(b: B.Snapshot, s: B.Settings, mode: Mode, out: Outcome, at: real)
    ensures Heard(b, s, mode, out, at) == var es := Tells(mode, out, at); if es == [] then b else T.Step(b, s, es[0])
  {
  }

  lemma {:induction false} OneThenOne(b: B.Snapshot, s: B.Settings, e: T.Event, es: seq<T.Event>)
    requires |es| <= 1
    ensures T.From(b, s, [e] + es) == var b1 := T.Step(b, s, e); if es == [] then b1 else T.Step(b1, s, es[0])
  {
    assert [e][..0] == [] && T.From(b, s, [e]) == T.Step(b, s, e);
    if es == [] {
      assert [e] + es == [e];
    } else {
      assert ([e] + es)[..1] == [e];
    }
  }

  /** A stream that ends in error counts as a failure, one that is cancelled does not, and one that ends well resets. */
  lemma {:induction false} StreamEndIsReported(w: World, s: B.Settings, name: string, end: StreamEnd, at: real,
                                               before: seq<T.Event>)
    requires B.Of(w.breakers, name) == T.Run(s, before)
    ensures
      var told := match end
        case EndedWell => T.Succeeded(at)
        case EndedInError => T.Failed(at)
        case EndedCancelled => T.Abandoned(at);
      var w1 := StreamEnded(w, s, name, end, at);
      && B.Of(w1.breakers, name) == T.Run(s, before + [told])
      && (T.SinceSuccess(before + [told]) == match end
            case EndedWell => []
            case EndedInError => T.SinceSuccess(before) + [at]
            case EndedCancelled => T.SinceSuccess(before))
      && (forall other :: other != name ==> B.Of(w1.breakers, other) == B.Of(w.breakers, other))
  {
    forall told ensures (before + [told])[..|before|] == before {}
  }
}
