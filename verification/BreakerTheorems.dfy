/** The breaker over whole traces of calls. */
module BreakerTheorems {
  import opened Lists
  import opened Breaker

  datatype Event = Asked(at: real) | Succeeded(at: real) | Failed(at: real) | Abandoned(at: real)

  function Step(b: Snapshot, s: Settings, e: Event): Snapshot {
    match e
    case Asked(t) => Allow(b, s, t).0
    case Succeeded(_) => FRESH
    case Failed(t) => Failure(b, s, t)
    case Abandoned(t) => Cancelled(b, t)
  }

  function Run(s: Settings, es: seq<Event>): Snapshot {
    if es == [] then FRESH else Step(Run(s, es[..|es| - 1]), s, es[|es| - 1])
  }

  /** Clocks do not go back. */
  ghost predicate Timely(es: seq<Event>) {
    forall i, j :: 0 <= i <= j < |es| ==> es[i].at <= es[j].at
  }

  // ---------- the full failure history ----------

  /** Every failure reported after the last success, old ones included. */
  function SinceSuccess(es: seq<Event>): seq<real> {
    if es == [] then []
    else
      var before := SinceSuccess(es[..|es| - 1]);
      match es[|es| - 1]
      case Succeeded(_) => []
      case Failed(t) => before + [t]
      case _ => before
  }

  function InWindow(failures: seq<real>, s: Settings, now: real): seq<real> {
    Filter(failures, NewerThan(now - s.windowSeconds))
  }

  /** The k-th event is a failure that makes the count inside its window reach the threshold. */
  ghost predicate Trips(s: Settings, es: seq<Event>, k: nat)
    requires k < |es|
  {
    es[k].Failed? && |InWindow(SinceSuccess(es[..k + 1]), s, es[k].at)| >= s.failureThreshold
  }

  ghost predicate TrippedSinceSuccess(s: Settings, es: seq<Event>) {
    exists k: nat :: TripsForGood(s, es, k)
  }

  /** The k-th event trips the breaker, and no success follows it. */
  ghost predicate TripsForGood(s: Settings, es: seq<Event>, k: nat) {
    k < |es| && Trips(s, es, k) && forall i :: k < i < |es| ==> !es[i].Succeeded?
  }

  lemma {:induction false} TripsStill(s: Settings, es: seq<Event>, e: Event, k: nat)
    requires k < |es|
    ensures TripsForGood(s, es + [e], k) <==> !e.Succeeded? && TripsForGood(s, es, k)
  {
    var all := es + [e];
    assert all[..k + 1] == es[..k + 1] && all[|es|] == e;
    assert forall i :: 0 <= i < |es| ==> all[i] == es[i];
  }

  lemma {:induction false} TrippedStep(s: Settings, es: seq<Event>, e: Event)
    ensures TrippedSinceSuccess(s, es + [e]) <==>
            !e.Succeeded? && (TrippedSinceSuccess(s, es) || Trips(s, es + [e], |es|))
  {
    var all := es + [e];
    forall k: nat | k < |es| ensures TripsForGood(s, all, k) <==> !e.Succeeded? && TripsForGood(s, es, k) {
      TripsStill(s, es, e, k);
    }
    assert TripsForGood(s, all, |es|) <==> Trips(s, all, |es|);
    assert Trips(s, all, |es|) ==> all[|es|].Failed?;
  }

  lemma {:induction false} HistoryIsOlder(es: seq<Event>, e: Event)
    requires Timely(es + [e])
    ensures forall t :: t in SinceSuccess(es) ==> t <= e.at
  {
    if es != [] {
      var n := |es| - 1;
      var all := es + [e];
      forall i, j | 0 <= i <= j < |es| ensures (es[..n] + [e])[i].at <= (es[..n] + [e])[j].at {
        assert all[i].at <= all[j].at && all[i].at <= all[|es|].at;
      }
      assert all[n].at <= all[|es|].at;
      HistoryIsOlder(es[..n], e);
    }
  }

  lemma {:induction false} OlderFailuresStayOut(failures: seq<real>, s: Settings, before: real, now: real)
    requires before <= now
    ensures Filter(InWindow(failures, s, before) + [now], NewerThan(now - s.windowSeconds))
            == InWindow(failures + [now], s, now)
  {
    NewerAlone(failures, before - s.windowSeconds, now - s.windowSeconds);
    FilterConcat(InWindow(failures, s, before), [now], NewerThan(now - s.windowSeconds));
    FilterConcat(failures, [now], NewerThan(now - s.windowSeconds));
  }

  lemma {:induction false} NewerAlone(failures: seq<real>, low: real, high: real)
    requires low <= high
    ensures Filter(Filter(failures, NewerThan(low)), NewerThan(high)) == Filter(failures, NewerThan(high))
  {
    assert forall t :: NewerThan(high)(t) <==> NewerThan(high)(t) && NewerThan(low)(t);
    FilterSplit(failures, NewerThan(high), NewerThan(low), NewerThan(high));
  }

  /** The history cut to the window of its latest failure. */
  function Recent(history: seq<real>, s: Settings): seq<real> {
    if history == [] then [] else InWindow(history, s, history[|history| - 1])
  }

  ghost predicate Agrees(s: Settings, b: Snapshot, es: seq<Event>) {
    && (b.state == Closed <==> !TrippedSinceSuccess(s, es))
    && (b.state == Closed ==> b.failures == Recent(SinceSuccess(es), s))
  }

  lemma {:induction false} StepAgrees(s: Settings, b: Snapshot, es: seq<Event>, e: Event)
    requires Timely(es + [e]) && Agrees(s, b, es)
    ensures Agrees(s, Step(b, s, e), es + [e])
  {
    var all, history := es + [e], SinceSuccess(es);
    assert all[..|es|] == es && all[..|es| + 1] == all;
    TrippedStep(s, es, e);
    if e.Failed? {
      HistoryIsOlder(es, e);
      assert SinceSuccess(all) == history + [e.at];
      if b.state == Closed {
        FailureCountsWindow(s, b, history, e.at);
      }
    }
  }

  /**
   * The pruned list loses nothing that matters: the breaker is closed exactly while no failure since the last
   * success has filled its window, and its list is then the full history cut to the window of the latest failure.
   */
  lemma {:induction false} PrunedListRefinesHistory(s: Settings, es: seq<Event>)
    requires Timely(es)
    ensures Run(s, es).state == Closed <==> !TrippedSinceSuccess(s, es)
    ensures Run(s, es).state == Closed ==> Run(s, es).failures == Recent(SinceSuccess(es), s)
  {
    assert Agrees(s, Run(s, es), es) by {
      if es != [] {
        var n := |es| - 1;
        PrunedListRefinesHistory(s, es[..n]);
        assert es == es[..n] + [es[n]];
        StepAgrees(s, Run(s, es[..n]), es[..n], es[n]);
      }
    }
  }

  lemma {:induction false} FailureCountsWindow(s: Settings, b: Snapshot, history: seq<real>, now: real)
    requires b.state == Closed
    requires b.failures == if history == [] then [] else InWindow(history, s, history[|history| - 1])
    requires forall t :: t in history ==> t <= now
    ensures
      var recent := InWindow(history + [now], s, now);
      var after := Failure(b, s, now);
      after.failures == recent && (after.state == Open <==> |recent| >= s.failureThreshold) && after.state != HalfOpen
  {
    if history != [] {
      assert history[|history| - 1] in history;
      OlderFailuresStayOut(history, s, history[|history| - 1], now);
    }
  }

  // ---------- half-open probes ----------

  ghost predicate Admitted(s: Settings, es: seq<Event>, i: nat)
    requires i < |es|
  {
    es[i].Asked? && Allow(Run(s, es[..i]), s, es[i].at).1
  }

  /** An admission while the breaker is not closed. */
  ghost predicate Probe(s: Settings, es: seq<Event>, i: nat)
    requires i < |es|
  {
    Admitted(s, es, i) && Run(s, es[..i]).state != Closed
  }

  /** At method boundaries a breaker is half open exactly while a probe is in flight; open, it knows since when. */
  lemma {:induction false} HalfOpenMeansProbeInFlight(s: Settings, es: seq<Event>)
    ensures var b := Run(s, es); (b.state == HalfOpen <==> b.probeInFlight) && (b.state == Open ==> b.openedAt.Some?)
  {
    if es != [] {
      HalfOpenMeansProbeInFlight(s, es[..|es| - 1]);
    }
  }

  /** Exactly which requests are let through, after any trace. */
  lemma {:induction false} AdmittedExactly(s: Settings, es: seq<Event>, now: real)
    ensures var b := Run(s, es);
            Allow(b, s, now).1 <==>
            b.state == Closed || (b.state == Open && b.openedAt.Some? && now >= b.openedAt.value + s.cooldownSeconds)
  {
    HalfOpenMeansProbeInFlight(s, es);
  }

  /** While open, the breaker's opening time is no earlier than any admission so far. */
  lemma {:induction false} OpenedAfterAdmissions(s: Settings, es: seq<Event>, i: nat)
    requires Timely(es) && i < |es| && Admitted(s, es, i)
    requires Run(s, es).state == Open
    ensures Run(s, es).openedAt.Some? && es[i].at <= Run(s, es).openedAt.value
  {
    var n := |es| - 1;
    HalfOpenMeansProbeInFlight(s, es);
    var b := Run(s, es[..n]);
    if b.state == Open && Run(s, es).openedAt == b.openedAt {
      if i < n {
        assert es[..n][..i] == es[..i];
        OpenedAfterAdmissions(s, es[..n], i);
      }
    }
  }

  /** A probe comes at least a cooldown after every earlier admission, whatever else was reported in between. */
  lemma {:induction false} ProbesAreSpaced(s: Settings, es: seq<Event>, i: nat, j: nat)
    requires Timely(es) && i < j < |es|
    requires Admitted(s, es, i) && Probe(s, es, j)
    ensures es[j].at >= es[i].at + s.cooldownSeconds
  {
    AdmittedExactly(s, es[..j], es[j].at);
    assert es[..j][..i] == es[..i];
    OpenedAfterAdmissions(s, es[..j], i);
  }

  /** One probe per half-open episode: between two probes somebody reported an outcome. */
  lemma {:induction false} ProbesAreSingle(s: Settings, es: seq<Event>, i: nat, j: nat)
    requires i < j < |es| && Probe(s, es, i) && Probe(s, es, j)
    ensures exists k :: i < k < j && !es[k].Asked?
  {
    if forall k :: i < k < j ==> es[k].Asked? {
      StaysHalfOpen(s, es, i, j);
      AdmittedExactly(s, es[..j], es[j].at);
    }
  }

  lemma {:induction false} StaysHalfOpen(s: Settings, es: seq<Event>, i: nat, j: nat)
    requires i < j <= |es| && Probe(s, es, i)
    requires forall k :: i < k < j ==> es[k].Asked?
    ensures Run(s, es[..j]).state == HalfOpen
    decreases j
  {
    assert es[..j][..j - 1] == es[..j - 1];
    if j - 1 > i {
      StaysHalfOpen(s, es, i, j - 1);
    } else {
      AdmittedExactly(s, es[..i], es[i].at);
    }
  }

  // ---------- a probe nobody answers for ----------

  /** The breaker after more events. */
  function From(b: Snapshot, s: Settings, es: seq<Event>): Snapshot {
    if es == [] then b else Step(From(b, s, es[..|es| - 1]), s, es[|es| - 1])
  }

  /** While a probe is in flight every request is refused until somebody reports, be it on an earlier call. */
  lemma {:induction false} RefusesUntilReport(b: Snapshot, s: Settings, es: seq<Event>, now: real)
    requires b.state == HalfOpen && b.probeInFlight
    ensures (forall k :: 0 <= k < |es| ==> es[k].Asked?) ==> From(b, s, es) == b
    ensures Allow(From(b, s, es), s, now).1 ==> exists k :: 0 <= k < |es| && !es[k].Asked?
  {
    if es != [] && forall k :: 0 <= k < |es| ==> es[k].Asked? {
      RefusesUntilReport(b, s, es[..|es| - 1], now);
    }
  }

  /**
   * A report lets requests through again: at once if it leaves the breaker closed, as a success always does, and
   * otherwise a cooldown later.
   */
  lemma {:induction false} ReportFrees(b: Snapshot, s: Settings, e: Event, now: real)
    requires b.state != Open && !e.Asked?
    ensures Allow(Step(b, s, e), s, now).1 <==> Step(b, s, e).state == Closed || now >= e.at + s.cooldownSeconds
    ensures e.Succeeded? ==> Step(b, s, e).state == Closed
    ensures b.state == HalfOpen && !e.Succeeded? ==> Step(b, s, e).state == Open
  {
  }

  /** A failure reported while open starts the cooldown again exactly if it fills the window. */
  lemma {:induction false} LateFailuresExtend(b: Snapshot, s: Settings, at: real, now: real)
    requires b.state == Open
    ensures Allow(Step(b, s, Failed(at)), s, now).1 <==>
            if |InWindow(b.failures + [at], s, at)| >= s.failureThreshold then now >= at + s.cooldownSeconds
            else Allow(b, s, now).1
  {
  }

  // ---------- what routing is shown ----------

  /** A probe was let through, and nobody has reported since. */
  ghost predicate ProbeOutstanding(s: Settings, es: seq<Event>) {
    exists i :: 0 <= i < |es| && Probe(s, es, i) && forall k :: i < k < |es| ==> es[k].Asked?
  }

  lemma {:induction false} HalfOpenExactly(s: Settings, es: seq<Event>)
    ensures Run(s, es).state == HalfOpen <==> ProbeOutstanding(s, es)
  {
    if ProbeOutstanding(s, es) {
      var i :| 0 <= i < |es| && Probe(s, es, i) && forall k :: i < k < |es| ==> es[k].Asked?;
      assert es[..|es|] == es;
      StaysHalfOpen(s, es, i, |es|);
    }
    if es != [] && Run(s, es).state == HalfOpen {
      var n := |es| - 1;
      assert es[n].Asked?;
      if Run(s, es[..n]).state == HalfOpen {
        HalfOpenExactly(s, es[..n]);
        var i :| 0 <= i < n && Probe(s, es[..n], i) && forall k :: i < k < n ==> es[..n][k].Asked?;
        assert es[..n][..i] == es[..i];
        assert forall k :: i < k < n ==> es[..n][k] == es[k];
        assert Probe(s, es, i);
      } else {
        assert Probe(s, es, n);
      }
    }
  }

  /**
   * A provider is shown as down exactly while a failure since its last success has filled the window and no probe of it
   * is out; one nobody has called yet is not.
   */
  lemma {:induction false} ShownDownExactly(s: Settings, es: seq<Event>, bs: Breakers, name: string)
    requires Timely(es) && Of(bs, name) == Run(s, es)
    ensures
      var health := HealthSnapshot(bs);
      && health.Keys == bs.Keys
      && (name in health ==> health[name] in {"down", "healthy"})
      && (name in health && health[name] == "down" <==> TrippedSinceSuccess(s, es) && !ProbeOutstanding(s, es))
  {
    PrunedListRefinesHistory(s, es);
    HalfOpenExactly(s, es);
  }
}
