/** One provider, retried under the request's deadline and reported to its circuit breaker. */
module Retry {
  import opened Wrappers
  import B = Breaker

  type Duration = d: real | d >= 0.0

  /** What a provider call raises. Only a status error can carry a Retry-After header, parsed to seconds. */
  datatype CallError =
    | Timeout                                     // httpx.TimeoutException
    | Transport                                   // any other httpx.TransportError
    | Status(code: int, retryAfter: Option<real>) // httpx.HTTPStatusError
    | Payload                                     // ProviderPayloadError
    | Other
  {
    predicate IsTransient() {
      match this
      case Timeout => true
      case Transport => true
      case Status(code, _) => code >= 500 || code in {408, 409, 429}
      case Payload => false
      case Other => false
    }

    predicate IsProviderFailure() {
      match this
      case Payload => false
      case Status(code, _) => code >= 500 || code in {401, 403, 404, 408, 409, 429}
      case _ => true
    }
  }

  /** `call_provider_with_resilience`, or `open_provider_stream_with_resilience`. */
  datatype Mode = NonStream | StreamOpen

  datatype Reliability = Reliability(timeoutS: Duration, maxRetries: nat, baseDelayS: Duration, maxBackoffS: Duration)

  /**
   * What the n-th provider call will do: how it ends, how long it takes, the jitter drawn after it, and by how much the
   * pause that may follow overruns.
   */
  datatype Reply = Reply(failure: Option<CallError>, elapsed: Duration, jitter: Duration, lag: Duration)
  type Script = nat -> Reply

  datatype Event =
    | Call(provider: string, start: real, timeout: real, end: real)
    | Sleep(start: real, delay: Duration, end: real)

  /**
   * Everything the loop touches: the clock, the calls made, the breakers, the retry counter, and the outcomes reported.
   */
  datatype World = World(now: real, calls: nat, log: seq<Event>, breakers: B.Breakers, retriesRecorded: nat,
      reports: nat)

  datatype Outcome =
    | Served(retries: nat)
    | Failed(error: CallError, retries: nat)
    | BudgetSpent(retries: nat)   // RetryBudgetExceededError
    | Unavailable                 // ProviderUnavailableError, which carries no retry count

  function Retries(out: Outcome): nat {
    if out.Unavailable? then 0 else out.retries
  }

  function Max(a: real, b: real): real { if a >= b then a else b }
  function Min(a: real, b: real): real { if a <= b then a else b }

  /** `base * 2 ** attempt`. */
  function Exponential(base: real, attempt: nat): real {
    if attempt == 0 then base else 2.0 * Exponential(base, attempt - 1)
  }

  function RetryAfterSeconds(e: CallError): real {
    if e.Status? && e.retryAfter.Some? then Max(0.0, e.retryAfter.value) else 0.0
  }

  function RetryDelay(e: CallError, attempt: nat, cfg: Reliability, jitter: Duration): (d: Duration)
  {
    var backoff := Min(cfg.maxBackoffS, Exponential(cfg.baseDelayS, attempt) + jitter);
    Max(backoff, RetryAfterSeconds(e))
  }

  function Remaining(deadline: Option<real>, now: real): Option<real> {
    if deadline.None? then None else Some(deadline.value - now)
  }

  predicate BudgetGone(deadline: Option<real>, now: real) {
    deadline.Some? && deadline.value - now <= 0.0
  }

  /** The time a call is given: the configured timeout cut to the budget, or for a stream the whole budget. */
  function AttemptTimeout(mode: Mode, cfg: Reliability, deadline: Option<real>, now: real): real {
    match mode
    case NonStream => if deadline.None? then cfg.timeoutS else Min(cfg.timeoutS, deadline.value - now)
    case StreamOpen => if deadline.None? then cfg.timeoutS else deadline.value - now
  }

  /** `asyncio.wait_for` cuts a stream that has not opened when the budget ends. */
  predicate CutOff(mode: Mode, deadline: Option<real>, now: real, reply: Reply) {
    mode == StreamOpen && deadline.Some? && reply.elapsed >= deadline.value - now
  }

  function Report(bs: B.Breakers, s: B.Settings, name: string, providerFailure: bool, now: real): B.Breakers {
    bs[name := if providerFailure then B.Failure(B.Of(bs, name), s, now) else B.Cancelled(B.Of(bs, name), now)]
  }

  // ---------- the attempt loop, as a function ----------

  /** The world when the call made now has ended. */
  function AfterCall(name: string, mode: Mode, cfg: Reliability, deadline: Option<real>, script: Script,
                     w: World): World {
    var reply := script(w.calls);
    var end := if CutOff(mode, deadline, w.now, reply) then deadline.value else w.now + reply.elapsed;
    w.(now := end, calls := w.calls + 1,
       log := w.log + [Call(name, w.now, AttemptTimeout(mode, cfg, deadline, w.now), end)])
  }

  function AfterSleep(w: World, delay: Duration, lag: Duration): World {
    w.(now := w.now + delay + lag, log := w.log + [Sleep(w.now, delay, w.now + delay + lag)],
       retriesRecorded := w.retriesRecorded + 1)
  }

  /** The world once the provider's breaker has been told how the call ended. */
  function Told(w: World, s: B.Settings, name: string, providerFailure: bool): World {
    w.(breakers := Report(w.breakers, s, name, providerFailure, w.now), reports := w.reports + 1)
  }

  /** One turn of the loop; no outcome means the loop goes round again. */
  function AttemptOnce(name: string, attempt: nat, mode: Mode, cfg: Reliability, s: B.Settings, deadline: Option<real>,
                       script: Script, w: World): (World, Option<Outcome>)
  {
    if BudgetGone(deadline, w.now) then (w, Some(BudgetSpent(attempt)))
    else
      var reply := script(w.calls);
      var w1 := AfterCall(name, mode, cfg, deadline, script, w);
      if CutOff(mode, deadline, w.now, reply) then
        (Told(w1, s, name, true), Some(BudgetSpent(attempt)))
      else if reply.failure.None? then
        (if mode == NonStream then w1.(breakers := w1.breakers[name := B.FRESH], reports := w1.reports + 1) else w1,
         Some(Served(attempt)))
      else
        AfterFailure(name, attempt, cfg, s, deadline, reply.failure.value, reply.jitter, reply.lag, w1)
  }

  /** The `except` clause: give up and report, or back off if the budget allows it. */
  function AfterFailure(name: string, attempt: nat, cfg: Reliability, s: B.Settings, deadline: Option<real>,
                        e: CallError, jitter: Duration, lag: Duration, w: World): (World, Option<Outcome>)
  {
    var reported := Told(w, s, name, e.IsProviderFailure());
    var delay := RetryDelay(e, attempt, cfg, jitter);
    if !e.IsTransient() || attempt == cfg.maxRetries then (reported, Some(Failed(e, attempt)))
    else if deadline.Some? && delay >= deadline.value - w.now then (reported, Some(BudgetSpent(attempt)))
    else (AfterSleep(w, delay, lag), None)
  }

  function Attempts(name: string, attempt: nat, mode: Mode, cfg: Reliability, s: B.Settings, deadline: Option<real>,
                    script: Script, w: World): (World, Outcome)
    requires attempt <= cfg.maxRetries
    decreases cfg.maxRetries - attempt
  {
    var (w1, out) := AttemptOnce(name, attempt, mode, cfg, s, deadline, script, w);
    if out.Some? then (w1, out.value) else Attempts(name, attempt + 1, mode, cfg, s, deadline, script, w1)
  }

  function Resilient(name: string, mode: Mode, cfg: Reliability, s: B.Settings, deadline: Option<real>, script: Script,
                     w: World): (World, Outcome)
  {
    var (b, allowed) := B.Allow(B.Of(w.breakers, name), s, w.now);
    var asked := w.(breakers := w.breakers[name := b]);
    if allowed then Attempts(name, 0, mode, cfg, s, deadline, script, asked) else (asked, Unavailable)
  }

  // ---------- retry.py ----------

  /** The clock, the network and the retry counter. */
  class Network {
    const script: Script
    var now: real
    var calls: nat
    var log: seq<Event>
    var retriesRecorded: nat
    var reports: nat

    constructor (script: Script, now: real)
      ensures this.script == script && this.now == now && calls == 0 && log == [] && retriesRecorded == 0 == reports
    {
      this.script, this.now, calls, log, retriesRecorded, reports := script, now, 0, [], 0, 0;
    }

    /** One provider call; a stream open may be cut at `cut`. */
    method Send(name: string, timeout: real, cut: Option<real>) returns (reply: Reply, cutOff: bool)
      modifies this
      ensures reply == script(old(calls))
      ensures cutOff == (cut.Some? && reply.elapsed >= cut.value)
      ensures now == old(now) + (if cutOff then cut.value else reply.elapsed)
      ensures calls == old(calls) + 1 && retriesRecorded == old(retriesRecorded) && reports == old(reports)
      ensures log == old(log) + [Call(name, old(now), timeout, now)]
    {
      reply := script(calls);
      cutOff := cut.Some? && reply.elapsed >= cut.value;
      var end := now + if cutOff then cut.value else reply.elapsed;
      log := log + [Call(name, now, timeout, end)];
      now := end;
      calls := calls + 1;
    }

    method Backoff(delay: Duration, lag: Duration)
      modifies this
      ensures now == old(now) + delay + lag && log == old(log) + [Sleep(old(now), delay, now)]
      ensures calls == old(calls) && retriesRecorded == old(retriesRecorded) + 1 && reports == old(reports)
    {
      retriesRecorded := retriesRecorded + 1;
      log := log + [Sleep(now, delay, now + delay + lag)];
      now := now + delay + lag;
    }
  }

  ghost function View(net: Network, breaker: B.CircuitBreakerRegistry): World
    requires breaker.Valid()
    reads net, breaker, breaker.Repr
  {
    World(net.now, net.calls, net.log, breaker.View(), net.retriesRecorded, net.reports)
  }

  method RecordTerminalFailure(breaker: B.CircuitBreakerRegistry, name: string, providerFailure: bool, net: Network)
    requires breaker.Valid() && net !in breaker.Repr
    modifies net`reports, breaker.Repr
    ensures breaker.Valid() && fresh(breaker.Repr - old(breaker.Repr))
    ensures View(net, breaker) == Told(old(View(net, breaker)), breaker.settings, name, providerFailure)
  {
    net.reports := net.reports + 1;
    if providerFailure {
      breaker.RecordFailure(name, net.now);
    } else {
      breaker.RecordCancelled(name, net.now);
    }
  }

  /** The body of the loop in `call_provider_with_resilience`. */
  method TryCall(name: string, attempt: nat, cfg: Reliability, deadline: Option<real>, net: Network,
                 breaker: B.CircuitBreakerRegistry)
    returns (out: Option<Outcome>)
    requires breaker.Valid() && net !in breaker.Repr
    modifies net, breaker.Repr
    ensures breaker.Valid() && fresh(breaker.Repr - old(breaker.Repr))
    ensures (View(net, breaker), out) ==
            AttemptOnce(name, attempt, NonStream, cfg, breaker.settings, deadline, net.script, old(View(net, breaker)))
  {
    var remaining := Remaining(deadline, net.now);
    if remaining.Some? && remaining.value <= 0.0 {
      return Some(BudgetSpent(attempt));
    }
    var timeout := if remaining.Some? then Min(cfg.timeoutS, remaining.value) else cfg.timeoutS;
    var reply, _ := net.Send(name, timeout, None);
    assert View(net, breaker) == AfterCall(name, NonStream, cfg, deadline, net.script, old(View(net, breaker)));
    if reply.failure.None? {
      net.reports := net.reports + 1;
      breaker.RecordSuccess(name);
      return Some(Served(attempt));
    }
    out := HandleFailure(name, attempt, reply.failure.value, reply.jitter, reply.lag, cfg, deadline, net, breaker);
  }

  /** The body of the loop in `open_provider_stream_with_resilience`. */
  method TryOpen(name: string, attempt: nat, cfg: Reliability, deadline: Option<real>, net: Network,
                 breaker: B.CircuitBreakerRegistry)
    returns (out: Option<Outcome>)
    requires breaker.Valid() && net !in breaker.Repr
    modifies net, breaker.Repr
    ensures breaker.Valid() && fresh(breaker.Repr - old(breaker.Repr))
    ensures (View(net, breaker), out) ==
            AttemptOnce(name, attempt, StreamOpen, cfg, breaker.settings, deadline, net.script, old(View(net, breaker)))
  {
    var remaining := Remaining(deadline, net.now);
    if remaining.Some? && remaining.value <= 0.0 {
      return Some(BudgetSpent(attempt));
    }
    var reply, cutOff := net.Send(name, if remaining.Some? then remaining.value else cfg.timeoutS, remaining);
    assert View(net, breaker) == AfterCall(name, StreamOpen, cfg, deadline, net.script, old(View(net, breaker)));
    if cutOff {
      RecordTerminalFailure(breaker, name, true, net);
      return Some(BudgetSpent(attempt));
    }
    if reply.failure.None? {
      return Some(Served(attempt));
    }
    out := HandleFailure(name, attempt, reply.failure.value, reply.jitter, reply.lag, cfg, deadline, net, breaker);
  }

  /** The `except` clause the two loops share. */
  method HandleFailure(name: string, attempt: nat, error: CallError, jitter: Duration, lag: Duration, cfg: Reliability,
                       deadline: Option<real>, net: Network, breaker: B.CircuitBreakerRegistry)
    returns (out: Option<Outcome>)
    requires breaker.Valid() && net !in breaker.Repr
    modifies net, breaker.Repr
    ensures breaker.Valid() && fresh(breaker.Repr - old(breaker.Repr))
    ensures (View(net, breaker), out) ==
            AfterFailure(name, attempt, cfg, breaker.settings, deadline, error, jitter, lag, old(View(net, breaker)))
  {
    if !error.IsTransient() || attempt == cfg.maxRetries {
      RecordTerminalFailure(breaker, name, error.IsProviderFailure(), net);
      return Some(Failed(error, attempt));
    }
    var delay := RetryDelay(error, attempt, cfg, jitter);
    var left := Remaining(deadline, net.now);
    if left.Some? && delay >= left.value {
      RecordTerminalFailure(breaker, name, error.IsProviderFailure(), net);
      return Some(BudgetSpent(attempt));
    }
    net.Backoff(delay, lag);
    return None;
  }

  method CallProviderWithResilience(name: string, cfg: Reliability, deadline: Option<real>, net: Network,
                                    breaker: B.CircuitBreakerRegistry)
    returns (out: Outcome)
    requires breaker.Valid() && net !in breaker.Repr
    modifies net, breaker.Repr
    ensures breaker.Valid() && fresh(breaker.Repr - old(breaker.Repr))
    ensures (View(net, breaker), out) ==
            Resilient(name, NonStream, cfg, breaker.settings, deadline, net.script, old(View(net, breaker)))
  {
    var allowed := breaker.AllowRequest(name, net.now);
    if !allowed {
      return Unavailable;
    }
    var attempt := 0;
    ghost var start := View(net, breaker);
    while true
      invariant breaker.Valid() && fresh(breaker.Repr - old(breaker.Repr)) && net !in breaker.Repr
      invariant attempt <= cfg.maxRetries
      invariant Attempts(name, attempt, NonStream, cfg, breaker.settings, deadline, net.script, View(net, breaker))
                == Attempts(name, 0, NonStream, cfg, breaker.settings, deadline, net.script, start)
      decreases cfg.maxRetries - attempt
    {
      var ended := TryCall(name, attempt, cfg, deadline, net, breaker);
      if ended.Some? {
        return ended.value;
      }
      attempt := attempt + 1;
    }
  }

  method OpenProviderStreamWithResilience(name: string, cfg: Reliability, deadline: Option<real>, net: Network,
                                          breaker: B.CircuitBreakerRegistry)
    returns (out: Outcome)
    requires breaker.Valid() && net !in breaker.Repr
    modifies net, breaker.Repr
    ensures breaker.Valid() && fresh(breaker.Repr - old(breaker.Repr))
    ensures (View(net, breaker), out) ==
            Resilient(name, StreamOpen, cfg, breaker.settings, deadline, net.script, old(View(net, breaker)))
  {
    var allowed := breaker.AllowRequest(name, net.now);
    if !allowed {
      return Unavailable;
    }
    var attempt := 0;
    ghost var start := View(net, breaker);
    while true
      invariant breaker.Valid() && fresh(breaker.Repr - old(breaker.Repr)) && net !in breaker.Repr
      invariant attempt <= cfg.maxRetries
      invariant Attempts(name, attempt, StreamOpen, cfg, breaker.settings, deadline, net.script, View(net, breaker))
                == Attempts(name, 0, StreamOpen, cfg, breaker.settings, deadline, net.script, start)
      decreases cfg.maxRetries - attempt
    {
      var ended := TryOpen(name, attempt, cfg, deadline, net, breaker);
      if ended.Some? {
        return ended.value;
      }
      attempt := attempt + 1;
    }
  }

  // ---------- main.py: how an opened stream ends ----------

  datatype StreamEnd = EndedWell | EndedInError | EndedCancelled

  /** What the breaker is told, at the end of the stream, of the provider that served it. */
  function StreamEnded(w: World, s: B.Settings, name: string, end: StreamEnd, at: real): World {
    var b := B.Of(w.breakers, name);
    var told :=
      match end
      case EndedWell => B.FRESH
      case EndedInError => B.Failure(b, s, at)
      case EndedCancelled => B.Cancelled(b, at);
    w.(now := at, breakers := w.breakers[name := told], reports := w.reports + 1)
  }

  /** The `finally` clause of the downstream generator. */
  method FinishStream(name: string, end: StreamEnd, at: real, net: Network, breaker: B.CircuitBreakerRegistry)
    requires breaker.Valid() && net !in breaker.Repr
    modifies net, breaker.Repr
    ensures breaker.Valid() && fresh(breaker.Repr - old(breaker.Repr))
    ensures View(net, breaker) == StreamEnded(old(View(net, breaker)), breaker.settings, name, end, at)
  {
    net.now, net.reports := at, net.reports + 1;
    match end {
      case EndedWell => breaker.RecordSuccess(name);
      case EndedInError => breaker.RecordFailure(name, at);
      case EndedCancelled => breaker.RecordCancelled(name, at);
    }
  }
}
