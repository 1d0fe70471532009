/** A whole request: every provider tried, every retry, one deadline. */
module FailoverTheorems {
  import opened Wrappers
  import opened Lists
  import opened Retry
  import opened RetryTheorems
  import opened Failover
  import B = Breaker
  import R = Router
  import T = BreakerTheorems
  import M = RouterTheorems

  ghost predicate Distinct(names: seq<string>) {
    forall i, j :: 0 <= i < j < |names| ==> names[i] != names[j]
  }

  // ---------- deadline ----------

  /**
   * Across all retries and failovers nothing starts late, and a request whose calls and pauses honour their times ends
   * in time.
   */
  lemma {:induction false} RequestKeepsDeadline(providers: seq<R.Provider>, pick: Picker, mode: Mode, cfg: Reliability,
                                                s: B.Settings, deadline: real, script: Script, chosen: R.Provider,
                                                tried: seq<string>, failedRetries: nat, w: World)
    requires PicksUntried(pick, providers) && chosen in providers && chosen.name !in tried
    ensures
      var e := Rounds(providers, pick, mode, cfg, s, deadline, script, chosen, tried, failedRetries, w);
      && Disciplined(w, e.world, deadline) && OnTime(mode, w, e.world, deadline)
      && (e.verdict == BadGateway ==> e.world.now < deadline)
    decreases |Names(providers) - TriedNames(tried)|
  {
    ResilientKeepsDeadline(chosen.name, mode, cfg, s, deadline, script, w);
    var nowTried := tried + [chosen.name];
    var (w1, turn) := Round(pick, mode, cfg, s, deadline, script, chosen, nowTried, failedRetries, w);
    if turn.TryNext? {
      FewerUntried(providers, tried, chosen);
      RequestKeepsDeadline(providers, pick, mode, cfg, s, deadline, script, turn.provider, nowTried,
          turn.failedRetries, w1);
      var e := Rounds(providers, pick, mode, cfg, s, deadline, script, turn.provider, nowTried, turn.failedRetries, w1);
      Chain(mode, w, w1, e.world, deadline);
    }
  }

  // ---------- accounting ----------

  lemma {:induction false} RoundTurns(providers: seq<R.Provider>, pick: Picker, mode: Mode, cfg: Reliability,
                                      s: B.Settings, deadline: real, script: Script, chosen: R.Provider,
                                      nowTried: seq<string>, failedRetries: nat, w: World)
    requires PicksUntried(pick, providers)
    ensures
      var turn := Round(pick, mode, cfg, s, deadline, script, chosen, nowTried, failedRetries, w).1;
      && (turn.TryNext? ==>
            && turn.provider in providers && turn.provider.name !in nowTried
            && exists t, bs :: pick(t, bs).Some?)
      && (turn.Done? && turn.verdict.Completed? ==> turn.verdict.provider == chosen)
  {
  }

  /** What `RequestTriesDistinct` says of the names tried and of who answered. */
  ghost predicate TriedWell(providers: seq<R.Provider>, tried: seq<string>, e: Ended) {
    && Distinct(e.tried) && TriedNames(e.tried) <= Names(providers)
    && tried <= e.tried
    && (e.verdict.Completed? ==>
          e.tried != [] && e.verdict.provider in providers && e.verdict.provider.name == e.tried[|e.tried| - 1])
  }

  lemma {:induction false} LastOneTried(providers: seq<R.Provider>, tried: seq<string>, chosen: R.Provider,
                                        verdict: Verdict, w: World)
    requires Distinct(tried) && TriedNames(tried) <= Names(providers) && chosen in providers
    requires tried != [] && tried[|tried| - 1] == chosen.name
    requires verdict.Completed? ==> verdict.provider == chosen
    ensures TriedWell(providers, tried, Ended(w, verdict, tried))
  {
  }

  lemma {:induction false} TriedBefore(providers: seq<R.Provider>, tried: seq<string>, name: string, e: Ended)
    requires TriedWell(providers, tried + [name], e)
    ensures TriedWell(providers, tried, e)
  {
    assert tried == (tried + [name])[..|tried|];
  }

  /** Providers are tried at most once each, in the order the loop chose them, and the last one answers. */
  lemma {:induction false} RequestTriesDistinct(providers: seq<R.Provider>, pick: Picker, mode: Mode, cfg: Reliability,
                                                s: B.Settings, deadline: real, script: Script, chosen: R.Provider,
                                                tried: seq<string>, failedRetries: nat, w: World)
    requires PicksUntried(pick, providers) && chosen in providers && chosen.name !in tried
    requires Distinct(tried) && TriedNames(tried) <= Names(providers)
    ensures TriedWell(providers, tried + [chosen.name],
                      Rounds(providers, pick, mode, cfg, s, deadline, script, chosen, tried, failedRetries, w))
    decreases |Names(providers) - TriedNames(tried)|
  {
    var nowTried := tried + [chosen.name];
    OneMoreTried(tried, chosen.name);
    RoundTurns(providers, pick, mode, cfg, s, deadline, script, chosen, nowTried, failedRetries, w);
    var (w1, turn) := Round(pick, mode, cfg, s, deadline, script, chosen, nowTried, failedRetries, w);
    if turn.TryNext? {
      FewerUntried(providers, tried, chosen);
      RequestTriesDistinct(providers, pick, mode, cfg, s, deadline, script, turn.provider, nowTried,
                           turn.failedRetries, w1);
      var e := Rounds(providers, pick, mode, cfg, s, deadline, script, turn.provider, nowTried, turn.failedRetries, w1);
      TriedBefore(providers, nowTried, turn.provider.name, e);
    } else {
      LastOneTried(providers, nowTried, chosen, turn.verdict, w1);
    }
  }

  /** A request that nothing can fail over tries its first choice alone. */
  lemma {:induction false} ForcedTriesOne(providers: seq<R.Provider>, pick: Picker, mode: Mode, cfg: Reliability,
                                          s: B.Settings, deadline: real, script: Script, chosen: R.Provider, w: World)
    requires PicksUntried(pick, providers) && chosen in providers && forall t, bs :: pick(t, bs).None?
    ensures Rounds(providers, pick, mode, cfg, s, deadline, script, chosen, [], 0, w).tried == [chosen.name]
  {
    assert [] + [chosen.name] == [chosen.name];
    RoundTurns(providers, pick, mode, cfg, s, deadline, script, chosen, [chosen.name], 0, w);
  }

  lemma {:induction false} OneMoreTried(tried: seq<string>, name: string)
    requires Distinct(tried) && name !in tried
    ensures Distinct(tried + [name]) && TriedNames(tried + [name]) == TriedNames(tried) + {name}
  {
    var all := tried + [name];
    forall i, j | 0 <= i < j < |all| ensures all[i] != all[j] {
      assert tried[i] in tried;
    }
  }

  /** One round, from `w` to `w1`: calls are bounded, and the turn carries on the retries recorded. */
  ghost predicate RoundAccounted(w: World, w1: World, turn: Turn, failedRetries: nat, perRound: nat) {
    && w.retriesRecorded <= w1.retriesRecorded
    && w1.calls - w.calls <= perRound
    && (turn.TryNext? ==> turn.failedRetries == failedRetries + (w1.retriesRecorded - w.retriesRecorded))
    && (turn.Done? && turn.verdict.Completed? ==>
          turn.verdict.retries == failedRetries + (w1.retriesRecorded - w.retriesRecorded))
  }

  lemma {:induction false} RoundAccounts(pick: Picker, mode: Mode, cfg: Reliability, s: B.Settings, deadline: real,
                                         script: Script, chosen: R.Provider, nowTried: seq<string>, failedRetries: nat,
                                         w: World)
    ensures
      var (w1, turn) := Round(pick, mode, cfg, s, deadline, script, chosen, nowTried, failedRetries, w);
      RoundAccounted(w, w1, turn, failedRetries, cfg.maxRetries + 1)
  {
    ResilientAccounts(chosen.name, mode, cfg, s, Some(deadline), script, w);
  }

  /** From `w` on: calls are bounded by the rounds, and every counted retry is in the answer. */
  ghost predicate Accounted(e: Ended, triedBefore: nat, failedRetries: nat, perRound: nat, w: World) {
    && triedBefore < |e.tried|
    && (e.verdict.Completed? ==> e.verdict.retries == failedRetries + (e.world.retriesRecorded - w.retriesRecorded))
    && w.retriesRecorded <= e.world.retriesRecorded
    && e.world.calls - w.calls <= (|e.tried| - triedBefore) * perRound
  }

  lemma {:induction false} RequestAccounts(providers: seq<R.Provider>, pick: Picker, mode: Mode, cfg: Reliability,
                                           s: B.Settings, deadline: real, script: Script, chosen: R.Provider,
                                           tried: seq<string>, failedRetries: nat, w: World)
    requires PicksUntried(pick, providers) && chosen in providers && chosen.name !in tried
    ensures Accounted(Rounds(providers, pick, mode, cfg, s, deadline, script, chosen, tried, failedRetries, w),
                      |tried|, failedRetries, cfg.maxRetries + 1, w)
    decreases |Names(providers) - TriedNames(tried)|
  {
    var nowTried := tried + [chosen.name];
    RoundAccounts(pick, mode, cfg, s, deadline, script, chosen, nowTried, failedRetries, w);
    var (w1, turn) := Round(pick, mode, cfg, s, deadline, script, chosen, nowTried, failedRetries, w);
    if turn.TryNext? {
      FewerUntried(providers, tried, chosen);
      RequestAccounts(providers, pick, mode, cfg, s, deadline, script, turn.provider, nowTried, turn.failedRetries, w1);
      var e := Rounds(providers, pick, mode, cfg, s, deadline, script, turn.provider, nowTried, turn.failedRetries, w1);
      OneRoundMore(e, |tried|, failedRetries, turn, cfg.maxRetries + 1, w, w1);
    } else {
      OneRoundOnly(nowTried, |tried|, failedRetries, turn, cfg.maxRetries + 1, w, w1);
    }
  }

  lemma {:induction false} OneRoundOnly(tried: seq<string>, triedBefore: nat, failedRetries: nat, turn: Turn,
                                        perRound: nat, w: World, w1: World)
    requires |tried| == triedBefore + 1 && turn.Done? && RoundAccounted(w, w1, turn, failedRetries, perRound)
    ensures Accounted(Ended(w1, turn.verdict, tried), triedBefore, failedRetries, perRound, w)
  {
  }

  lemma {:induction false} OneRoundMore(e: Ended, triedBefore: nat, failedRetries: nat, turn: Turn, perRound: nat,
                                        w: World, w1: World)
    requires turn.TryNext? && RoundAccounted(w, w1, turn, failedRetries, perRound)
    requires Accounted(e, triedBefore + 1, turn.failedRetries, perRound, w1)
    ensures Accounted(e, triedBefore, failedRetries, perRound, w)
  {
    var rounds := |e.tried| - triedBefore;
    assert rounds * perRound == (rounds - 1) * perRound + perRound;
  }

  lemma {:induction false} AtMostOnceEach(providers: seq<R.Provider>, tried: seq<string>)
    requires Distinct(tried) && TriedNames(tried) <= Names(providers)
    ensures |tried| <= |providers|
  {
    SizeOfDistinct(tried);
    SizeOfNames(providers);
    SubsetSize(TriedNames(tried), Names(providers));
  }

  lemma {:induction false} SizeOfDistinct(names: seq<string>)
    requires Distinct(names)
    ensures |TriedNames(names)| == |names|
  {
    if names != [] {
      var n := |names| - 1;
      SizeOfDistinct(names[..n]);
      assert names == names[..n] + [names[n]];
      assert TriedNames(names) == TriedNames(names[..n]) + {names[n]};
    }
  }

  lemma {:induction false} SizeOfNames(providers: seq<R.Provider>)
    ensures |Names(providers)| <= |providers|
  {
    if providers != [] {
      var n := |providers| - 1;
      SizeOfNames(providers[..n]);
      assert providers == providers[..n] + [providers[n]];
      assert Names(providers) == Names(providers[..n]) + {providers[n].name};
    }
  }

  // ---------- the decision record ----------

  datatype DecisionFields = DecisionFields(initialProvider: string, chosenProvider: string, retries: nat,
                                           failoverFrom: Option<string>, failoverCount: nat)

  function DecisionOf(tried: seq<string>, provider: R.Provider, retries: nat): DecisionFields
    requires tried != []
  {
    DecisionFields(tried[0], provider.name, retries, if |tried| > 1 then Some(tried[0]) else None, |tried| - 1)
  }

  /** The record's own validator. */
  predicate FailoverFieldsValid(d: DecisionFields) {
    && !(d.failoverCount == 0 && d.failoverFrom.Some?)
    && !(d.failoverCount > 0 && d.failoverFrom.None?)
  }

  /** The record of a served request tells the truth and passes its own validator. */
  ghost predicate RecordedWell(e: Ended, first: R.Provider, w: World)
    requires e.tried != []
  {
    e.verdict.Completed? ==>
      var d := DecisionOf(e.tried, e.verdict.provider, e.verdict.retries);
      && d.retries == e.world.retriesRecorded - w.retriesRecorded
      && FailoverFieldsValid(d)
      && d.initialProvider == first.name
      && (d.failoverCount == 0 <==> d.chosenProvider == first.name)
      && (d.failoverFrom.Some? ==> d.failoverFrom.value == first.name)
  }

  lemma {:induction false} RecordIsTrue(providers: seq<R.Provider>, e: Ended, first: R.Provider, perRound: nat,
                                        w: World)
    requires TriedWell(providers, [first.name], e) && Accounted(e, 0, 0, perRound, w)
    ensures RecordedWell(e, first, w)
  {
    assert e.tried[0] == [first.name][0];
    if e.verdict.Completed? && |e.tried| > 1 {
      assert e.tried[0] != e.tried[|e.tried| - 1];
    }
  }

  lemma {:induction false} BoundsInProviders(providers: seq<R.Provider>, e: Ended, first: R.Provider, perRound: nat,
                                             w: World)
    requires TriedWell(providers, [first.name], e) && Accounted(e, 0, 0, perRound, w)
    ensures 1 <= |e.tried| <= |providers| && e.world.calls - w.calls <= |providers| * perRound
  {
    AtMostOnceEach(providers, e.tried);
    MoreRoundsMoreCalls(|e.tried|, |providers|, perRound);
  }

  /** A request from its first choice: the bounds, the exact retry count, the deadline, and a true record. */
  lemma {:induction false} ServedRequest(providers: seq<R.Provider>, req: Request, mode: Mode, cfg: Reliability,
                                         s: B.Settings, deadline: real, script: Script, first: R.Provider, w: World)
    requires first in providers
    ensures
      var pick := Routing(providers, req);
      PicksUntried(pick, providers) &&
      var e := Rounds(providers, pick, mode, cfg, s, deadline, script, first, [], 0, w);
      && 1 <= |e.tried| <= |providers| && Distinct(e.tried)
      && (!req.auto ==> e.tried == [first.name])
      && e.world.calls - w.calls <= |providers| * (cfg.maxRetries + 1)
      && Disciplined(w, e.world, deadline) && OnTime(mode, w, e.world, deadline)
      && RecordedWell(e, first, w)
  {
    var pick := Routing(providers, req);
    RoutingPicksUntried(providers, req);
    var e := Rounds(providers, pick, mode, cfg, s, deadline, script, first, [], 0, w);
    RequestTriesDistinct(providers, pick, mode, cfg, s, deadline, script, first, [], 0, w);
    assert [] + [first.name] == [first.name];
    if !req.auto {
      ForcedTriesOne(providers, pick, mode, cfg, s, deadline, script, first, w);
    }
    RequestAccounts(providers, pick, mode, cfg, s, deadline, script, first, [], 0, w);
    RequestKeepsDeadline(providers, pick, mode, cfg, s, deadline, script, first, [], 0, w);
    BoundsInProviders(providers, e, first, cfg.maxRetries + 1, w);
    RecordIsTrue(providers, e, first, cfg.maxRetries + 1, w);
  }

  lemma {:induction false} MoreRoundsMoreCalls(a: nat, b: nat, perRound: nat)
    requires a <= b
    ensures a * perRound <= b * perRound
  {
  }

  // ---------- whom a request fails over to ----------

  /** An untried provider that the guardrails allow: privacy, capabilities and breaker. */
  ghost predicate MayServe(p: R.Provider, providers: seq<R.Provider>, req: Request, tried: seq<string>,
                           bs: B.Breakers)
  {
    && p in providers && p.name !in tried
    && (req.constraints.privacyHigh ==> p.privacy == "internal")
    && req.required <= p.capabilities
    && B.Of(bs, p.name).state != B.Open
  }

  /** And is within budget, or the budget is soft and nobody that may serve is within it. */
  ghost predicate WithinBudget(p: R.Provider, providers: seq<R.Provider>, req: Request, tried: seq<string>,
                               bs: B.Breakers)
  {
    && MayServe(p, providers, req, tried, bs)
    && (req.cost(p) <= req.constraints.maxCostUsd
        || (req.policy.budgetMode == R.Soft
            && forall o :: MayServe(o, providers, req, tried, bs) ==> req.cost(o) > req.constraints.maxCostUsd))
  }

  /** And is within the latency target, or that is soft and nobody within budget is within it. */
  ghost predicate WithinLimits(p: R.Provider, providers: seq<R.Provider>, req: Request, tried: seq<string>,
                               bs: B.Breakers)
  {
    && WithinBudget(p, providers, req, tried, bs)
    && (p.typicalLatencyMs <= req.constraints.latencyTargetMs
        || (req.policy.latencyMode == R.Soft
            && forall o :: WithinBudget(o, providers, req, tried, bs) ==>
                 o.typicalLatencyMs > req.constraints.latencyTargetMs))
  }

  /** The strategy looks at the ranks of the real providers within the limits, and one of those is no rank. */
  ghost predicate RanksFail(providers: seq<R.Provider>, req: Request, tried: seq<string>, bs: B.Breakers) {
    && req.constraints.quality == R.HighQuality && req.policy.highQualityStrategy == R.PreferReal
    && exists o :: WithinLimits(o, providers, req, tried, bs) && o.kind == "real" && o.qualityRank < 0
  }

  lemma {:induction false} PassingMayServe(providers: seq<R.Provider>, req: Request, tried: seq<string>,
                                           bs: B.Breakers, p: R.Provider)
    ensures M.Passes(p, Filter(providers, Untried(tried)), req.constraints, B.HealthSnapshot(bs), req.required)
       <==> MayServe(p, providers, req, tried, bs)
  {
    FilterMember(providers, Untried(tried), p);
  }

  lemma {:induction false} FittingIsWithin(providers: seq<R.Provider>, req: Request, tried: seq<string>,
                                           bs: B.Breakers)
    ensures
      var rest, health := Filter(providers, Untried(tried)), B.HealthSnapshot(bs);
      forall p :: M.Fits(p, rest, req.constraints, health, req.required, req.policy, req.cost)
             <==> WithinLimits(p, providers, req, tried, bs)
  {
    var rest, health := Filter(providers, Untried(tried)), B.HealthSnapshot(bs);
    forall p
      ensures M.Passes(p, rest, req.constraints, health, req.required) <==> MayServe(p, providers, req, tried, bs)
    {
      PassingMayServe(providers, req, tried, bs, p);
    }
    assert forall p :: M.FitsBudget(p, rest, req.constraints, health, req.required, req.policy, req.cost)
                  <==> WithinBudget(p, providers, req, tried, bs);
  }

  /** Whoever is named next is within the limits, and nobody is named only when there is nobody to name. */
  lemma {:induction false} FallbackExactly(providers: seq<R.Provider>, req: Request, tried: seq<string>,
                                           bs: B.Breakers)
    ensures
      var next := Fallback(providers, req, tried, bs);
      && (next.Some? ==> req.auto && WithinLimits(next.value, providers, req, tried, bs))
      && (next.Some? <==>
            && req.auto
            && (exists p :: WithinLimits(p, providers, req, tried, bs))
            && !RanksFail(providers, req, tried, bs))
  {
    FittingIsWithin(providers, req, tried, bs);
    M.SelectsExactly(Filter(providers, Untried(tried)), req.constraints, B.HealthSnapshot(bs), req.required, req.policy,
        req.cost);
  }

  lemma {:induction false} FallbackContends(providers: seq<R.Provider>, req: Request, tried: seq<string>,
                                            bs: B.Breakers, p: R.Provider, q: R.Provider)
    requires Fallback(providers, req, tried, bs) == Some(p) && WithinLimits(q, providers, req, tried, bs)
    ensures
      var rest, health := Filter(providers, Untried(tried)), B.HealthSnapshot(bs);
      && R.Select(rest, req.constraints, health, req.required, req.policy, req.cost) == Ok(p)
      && M.Contends(q, rest, req.constraints, health, req.required, req.cost)
  {
    var rest, health := Filter(providers, Untried(tried)), B.HealthSnapshot(bs);
    FittingIsWithin(providers, req, tried, bs);
    M.PoolFits(rest, req.constraints, health, req.required, req.policy, req.cost);
    M.FinalPoolMembers(rest, req.constraints, health, req.required, req.cost, q);
  }

  /** Of those within the limits, whoever is named next suits the quality and the strategy asked for best. */
  lemma {:induction false} FallbackIsBest(providers: seq<R.Provider>, req: Request, tried: seq<string>,
                                          bs: B.Breakers, p: R.Provider, q: R.Provider)
    requires req.policy.Valid()
    requires Fallback(providers, req, tried, bs) == Some(p) && WithinLimits(q, providers, req, tried, bs)
    ensures M.Suits(p, q, req.constraints.quality, req.policy, req.cost)
  {
    FallbackContends(providers, req, tried, bs, p, q);
    var rest, health := Filter(providers, Untried(tried)), B.HealthSnapshot(bs);
    M.ChosenSuitsBest(rest, req.constraints, health, req.required, req.policy, req.cost, p, q);
  }

  /** One call of the loop: to whom, in which world, and what came of it. */
  datatype Called = Called(provider: R.Provider, before: World, outcome: Outcome, after: World)

  /** The calls of a request, in order. */
  ghost function Calls(providers: seq<R.Provider>, pick: Picker, mode: Mode, cfg: Reliability, s: B.Settings,
                       deadline: real, script: Script, chosen: R.Provider, tried: seq<string>, failedRetries: nat,
                       w: World): (cs: seq<Called>)
    requires PicksUntried(pick, providers) && chosen in providers && chosen.name !in tried
    ensures cs != []
    decreases |Names(providers) - TriedNames(tried)|
  {
    var nowTried := tried + [chosen.name];
    var call := CallOf(mode, cfg, s, deadline, script, chosen, w);
    var (w1, turn) := Round(pick, mode, cfg, s, deadline, script, chosen, nowTried, failedRetries, w);
    if turn.Done? then [call]
    else
      FewerUntried(providers, tried, chosen);
      [call] + Calls(providers, pick, mode, cfg, s, deadline, script, turn.provider, nowTried, turn.failedRetries, w1)
  }

  ghost function CallOf(mode: Mode, cfg: Reliability, s: B.Settings, deadline: real, script: Script,
                        chosen: R.Provider, w: World): Called
  {
    var (w1, out) := Resilient(chosen.name, mode, cfg, s, Some(deadline), script, w);
    Called(chosen, w, out, w1)
  }

  ghost function NamesOf(cs: seq<Called>): seq<string> {
    seq(|cs|, i requires 0 <= i < |cs| => cs[i].provider.name)
  }

  /** The call failed with time left. */
  ghost predicate MayFailOver(c: Called, deadline: real) {
    (c.outcome.Failed? || c.outcome.Unavailable?) && c.after.now < deadline
  }

  /** This call goes to a provider within the limits by then, after one that failed with time left. */
  ghost predicate FollowsWell(providers: seq<R.Provider>, req: Request, deadline: real, tried: seq<string>,
                              before: Called, c: Called)
  {
    && req.auto && MayFailOver(before, deadline) && c.before == before.after
    && WithinLimits(c.provider, providers, req, tried, c.before.breakers)
  }

  /** Every call but the first does. */
  ghost predicate FailsOverWell(providers: seq<R.Provider>, req: Request, deadline: real, tried: seq<string>,
                                cs: seq<Called>)
  {
    forall j, k :: 0 <= j && k == j + 1 && k < |cs| ==>
      FollowsWell(providers, req, deadline, tried + NamesOf(cs[..k]), cs[j], cs[k])
  }

  /** The last call decides the answer; a failure with time left is final only when nobody is left to turn to. */
  ghost predicate EndsWell(providers: seq<R.Provider>, req: Request, deadline: real, last: Called, e: Ended) {
    && e.world == last.after
    && match e.verdict
       case Completed(p, _) => last.outcome.Served? && p == last.provider
       case ProviderTimeout =>
         || last.outcome.BudgetSpent?
         || (!last.outcome.Served? && last.after.now >= deadline)
         || (last.outcome.Failed? && last.outcome.error == Timeout
             && NobodyLeft(providers, req, e.tried, last.after.breakers))
       case BadGateway =>
         && MayFailOver(last, deadline) && (last.outcome.Failed? ==> last.outcome.error != Timeout)
         && NobodyLeft(providers, req, e.tried, last.after.breakers)
  }

  /** The client named its provider, or no untried one is within the limits, or a rank spoils the routing. */
  ghost predicate NobodyLeft(providers: seq<R.Provider>, req: Request, tried: seq<string>, bs: B.Breakers) {
    req.auto && !RanksFail(providers, req, tried, bs) ==> forall p :: !WithinLimits(p, providers, req, tried, bs)
  }

  lemma {:induction false} FirstFailsOver(providers: seq<R.Provider>, req: Request, deadline: real, tried: seq<string>,
                                          c: Called, cs: seq<Called>)
    requires cs != [] && FollowsWell(providers, req, deadline, tried + [c.provider.name], c, cs[0])
    requires FailsOverWell(providers, req, deadline, tried + [c.provider.name], cs)
    ensures FailsOverWell(providers, req, deadline, tried, [c] + cs)
  {
    var all := [c] + cs;
    forall j, k | 0 <= j && k == j + 1 && k < |all|
      ensures FollowsWell(providers, req, deadline, tried + NamesOf(all[..k]), all[j], all[k])
    {
      assert all[..k] == [c] + cs[..j];
      assert tried + NamesOf(all[..k]) == tried + [c.provider.name] + NamesOf(cs[..j]);
      if j > 0 {
        assert FollowsWell(providers, req, deadline, tried + [c.provider.name] + NamesOf(cs[..j]), cs[j - 1], cs[j]);
      }
    }
  }

  /** From the names tried before, these calls come to this end, and all goes well. */
  ghost predicate GoesWell(providers: seq<R.Provider>, req: Request, deadline: real, tried: seq<string>,
                           cs: seq<Called>, e: Ended)
  {
    && cs != [] && e.tried == tried + NamesOf(cs)
    && FailsOverWell(providers, req, deadline, tried, cs)
    && EndsWell(providers, req, deadline, cs[|cs| - 1], e)
  }

  lemma {:induction false} OnlyCall(providers: seq<R.Provider>, req: Request, deadline: real, tried: seq<string>,
                                    c: Called, e: Ended)
    requires e.tried == tried + [c.provider.name] && EndsWell(providers, req, deadline, c, e)
    ensures GoesWell(providers, req, deadline, tried, [c], e)
  {
    assert NamesOf([c]) == [c.provider.name];
  }

  lemma {:induction false} OneCallMore(providers: seq<R.Provider>, req: Request, deadline: real, tried: seq<string>,
                                       c: Called, cs: seq<Called>, e: Ended)
    requires GoesWell(providers, req, deadline, tried + [c.provider.name], cs, e)
    requires FollowsWell(providers, req, deadline, tried + [c.provider.name], c, cs[0])
    ensures GoesWell(providers, req, deadline, tried, [c] + cs, e)
  {
    FirstFailsOver(providers, req, deadline, tried, c, cs);
    assert NamesOf([c] + cs) == [c.provider.name] + NamesOf(cs);
    assert ([c] + cs)[|cs|] == cs[|cs| - 1];
  }

  /** What a round says of the calls so far: it ends well, or goes on to somebody within the limits. */
  lemma {:induction false} RoundGoesWell(providers: seq<R.Provider>, req: Request, mode: Mode, cfg: Reliability,
                                         s: B.Settings, deadline: real, script: Script, chosen: R.Provider,
                                         nowTried: seq<string>, failedRetries: nat, w: World)
    ensures
      var pick := Routing(providers, req);
      var (w1, turn) := Round(pick, mode, cfg, s, deadline, script, chosen, nowTried, failedRetries, w);
      var call := CallOf(mode, cfg, s, deadline, script, chosen, w);
      && w1 == call.after
      && (turn.TryNext? ==>
            && req.auto && MayFailOver(call, deadline)
            && WithinLimits(turn.provider, providers, req, nowTried, w1.breakers))
      && (turn.Done? ==> EndsWell(providers, req, deadline, call, Ended(w1, turn.verdict, nowTried)))
  {
    var call := CallOf(mode, cfg, s, deadline, script, chosen, w);
    FallbackExactly(providers, req, nowTried, call.after.breakers);
  }

  /**
   * A request over routing: its names are those of its calls, each failover is allowed and within the limits when it is
   * made, and it is answered as its last call and whoever is left ask for.
   */
  lemma {:induction false} RequestFailsOverWell(providers: seq<R.Provider>, req: Request, mode: Mode, cfg: Reliability,
                                                s: B.Settings, deadline: real, script: Script, chosen: R.Provider,
                                                tried: seq<string>, failedRetries: nat, w: World)
    requires PicksUntried(Routing(providers, req), providers) && chosen in providers && chosen.name !in tried
    ensures
      var pick := Routing(providers, req);
      var e := Rounds(providers, pick, mode, cfg, s, deadline, script, chosen, tried, failedRetries, w);
      var cs := Calls(providers, pick, mode, cfg, s, deadline, script, chosen, tried, failedRetries, w);
      && cs[0] == CallOf(mode, cfg, s, deadline, script, chosen, w)
      && GoesWell(providers, req, deadline, tried, cs, e)
    decreases |Names(providers) - TriedNames(tried)|
  {
    var nowTried := tried + [chosen.name];
    var pick := Routing(providers, req);
    var call := CallOf(mode, cfg, s, deadline, script, chosen, w);
    RoundGoesWell(providers, req, mode, cfg, s, deadline, script, chosen, nowTried, failedRetries, w);
    var (w1, turn) := Round(pick, mode, cfg, s, deadline, script, chosen, nowTried, failedRetries, w);
    if turn.TryNext? {
      FewerUntried(providers, tried, chosen);
      RequestFailsOverWell(providers, req, mode, cfg, s, deadline, script, turn.provider, nowTried, turn.failedRetries,
          w1);
      OneCallMore(providers, req, deadline, tried, call,
          Calls(providers, pick, mode, cfg, s, deadline, script, turn.provider, nowTried, turn.failedRetries, w1),
          Rounds(providers, pick, mode, cfg, s, deadline, script, turn.provider, nowTried, turn.failedRetries, w1));
    } else {
      OnlyCall(providers, req, deadline, tried, call, Ended(w1, turn.verdict, nowTried));
    }
  }

  // ---------- no half-open probe is left behind ----------

  /**
   * Some round that the request comes to is a probe of this provider, and an attempt of it starts with the budget
   * spent.
   */
  ghost predicate LeaksProbe(providers: seq<R.Provider>, pick: Picker, mode: Mode, cfg: Reliability, s: B.Settings,
                             deadline: real, script: Script, chosen: R.Provider, tried: seq<string>, failedRetries: nat,
                             w: World, name: string)
    requires PicksUntried(pick, providers) && chosen in providers && chosen.name !in tried
    decreases |Names(providers) - TriedNames(tried)|
  {
    var nowTried := tried + [chosen.name];
    var (w1, turn) := Round(pick, mode, cfg, s, deadline, script, chosen, nowTried, failedRetries, w);
    || (chosen.name == name && IsProbe(name, s, w)
        && SpentStart(name, 0, mode, cfg, s, Some(deadline), script, Asked(name, s, w)))
    || (turn.TryNext? &&
        (FewerUntried(providers, tried, chosen);
         LeaksProbe(providers, pick, mode, cfg, s, deadline, script, turn.provider, nowTried, turn.failedRetries, w1,
             name)))
  }

  /** The breakers when the request is over: for a stream, when that has ended too. */
  function Settled(e: Ended, mode: Mode, s: B.Settings, end: StreamEnd, at: real): B.Breakers {
    if mode == StreamOpen && e.verdict.Completed?
    then StreamEnded(e.world, s, e.verdict.provider.name, end, at).breakers
    else e.world.breakers
  }

  lemma {:induction false} StreamEndLeavesNoProbe(w: World, s: B.Settings, name: string, end: StreamEnd, at: real)
    ensures B.Of(StreamEnded(w, s, name, end, at).breakers, name).state != B.HalfOpen
    ensures forall other :: other != name ==>
              B.Of(StreamEnded(w, s, name, end, at).breakers, other) == B.Of(w.breakers, other)
  {
  }

  /** The last round: what it and the end of its stream leave half open. */
  lemma {:induction false} LastRoundLeaves(mode: Mode, cfg: Reliability, s: B.Settings, deadline: real, script: Script,
                                           chosen: R.Provider, tried: seq<string>, verdict: Verdict, w: World,
                                           name: string, end: StreamEnd, at: real)
    requires ProbesTracked(w.breakers)
    requires
      var out := Resilient(chosen.name, mode, cfg, s, Some(deadline), script, w).1;
      (verdict.Completed? <==> out.Served?) && (verdict.Completed? ==> verdict.provider == chosen)
    ensures
      var w1 := Resilient(chosen.name, mode, cfg, s, Some(deadline), script, w).0;
      var final := Settled(Ended(w1, verdict, tried), mode, s, end, at);
      B.Of(final, name).state == B.HalfOpen <==>
        || B.Of(w.breakers, name).state == B.HalfOpen
        || (chosen.name == name && IsProbe(name, s, w)
            && SpentStart(name, 0, mode, cfg, s, Some(deadline), script, Asked(name, s, w)))
  {
    var (w1, out) := Resilient(chosen.name, mode, cfg, s, Some(deadline), script, w);
    ProbeLeftExactly(chosen.name, mode, cfg, s, Some(deadline), script, w);
    ReportsExactlyOnce(chosen.name, mode, cfg, s, Some(deadline), script, w);
    if mode == StreamOpen && out.Served? {
      StreamEndLeavesNoProbe(w1, s, chosen.name, end, at);
    }
  }

  /**
   * A whole request, whole answers and streams alike, with the end of its stream: it leaves a breaker half open exactly
   * if that was so before, or one of its rounds probed it and had an attempt start with the budget spent.
   */
  lemma {:induction false} RequestLeavesProbeExactly(providers: seq<R.Provider>, pick: Picker, mode: Mode,
                                                     cfg: Reliability, s: B.Settings, deadline: real, script: Script,
                                                     chosen: R.Provider, tried: seq<string>, failedRetries: nat,
                                                     w: World, name: string, end: StreamEnd, at: real)
    requires PicksUntried(pick, providers) && chosen in providers && chosen.name !in tried && ProbesTracked(w.breakers)
    ensures
      var e := Rounds(providers, pick, mode, cfg, s, deadline, script, chosen, tried, failedRetries, w);
      B.Of(Settled(e, mode, s, end, at), name).state == B.HalfOpen <==>
        || B.Of(w.breakers, name).state == B.HalfOpen
        || LeaksProbe(providers, pick, mode, cfg, s, deadline, script, chosen, tried, failedRetries, w, name)
    decreases |Names(providers) - TriedNames(tried)|
  {
    var nowTried := tried + [chosen.name];
    var (w1, turn) := Round(pick, mode, cfg, s, deadline, script, chosen, nowTried, failedRetries, w);
    if turn.TryNext? {
      FewerUntried(providers, tried, chosen);
      ProbeLeftExactly(chosen.name, mode, cfg, s, Some(deadline), script, w);
      RequestLeavesProbeExactly(providers, pick, mode, cfg, s, deadline, script, turn.provider, nowTried,
                                turn.failedRetries, w1, name, end, at);
    } else {
      LastRoundLeaves(mode, cfg, s, deadline, script, chosen, nowTried, turn.verdict, w, name, end, at);
    }
  }

  /** When the request starts inside its budget and no pause overruns, every probe it is granted is answered for. */
  lemma {:induction false} RequestLeavesNoProbe(providers: seq<R.Provider>, pick: Picker, mode: Mode, cfg: Reliability,
                                                s: B.Settings, deadline: real, script: Script, chosen: R.Provider,
                                                tried: seq<string>, failedRetries: nat, w: World, name: string)
    requires PicksUntried(pick, providers) && chosen in providers && chosen.name !in tried
    requires w.now < deadline && forall n :: script(n).lag == 0.0
    ensures !LeaksProbe(providers, pick, mode, cfg, s, deadline, script, chosen, tried, failedRetries, w, name)
    decreases |Names(providers) - TriedNames(tried)|
  {
    PromptNeverSpent(chosen.name, 0, mode, cfg, s, Some(deadline), script, Asked(chosen.name, s, w));
    var nowTried := tried + [chosen.name];
    var (w1, turn) := Round(pick, mode, cfg, s, deadline, script, chosen, nowTried, failedRetries, w);
    if turn.TryNext? {
      FewerUntried(providers, tried, chosen);
      RequestLeavesNoProbe(providers, pick, mode, cfg, s, deadline, script, turn.provider, nowTried,
          turn.failedRetries, w1, name);
    }
  }

  /**
   * A probe of which some attempt starts with the budget spent leaks: whatever other requests ask afterwards, they are
   * refused until some other call reports to that breaker.
   */
  lemma {:induction false} SpentBudgetLeaksProbe(name: string, mode: Mode, cfg: Reliability, s: B.Settings,
                                                 deadline: real, script: Script, w: World, es: seq<T.Event>,
                                                 later: real)
    requires IsProbe(name, s, w) && SpentStart(name, 0, mode, cfg, s, Some(deadline), script, Asked(name, s, w))
    ensures
      var (w1, out) := Resilient(name, mode, cfg, s, Some(deadline), script, w);
      var leaked := B.Of(w1.breakers, name);
      && out.BudgetSpent? && w1.reports == w.reports
      && leaked.state == B.HalfOpen
      && (T.From(leaked, s, es) == leaked || exists k :: 0 <= k < |es| && !es[k].Asked?)
      && (B.Allow(T.From(leaked, s, es), s, later).1 ==> exists k :: 0 <= k < |es| && !es[k].Asked?)
  {
    ReportsExactlyOnce(name, mode, cfg, s, Some(deadline), script, w);
    var leaked := B.Of(Resilient(name, mode, cfg, s, Some(deadline), script, w).0.breakers, name);
    T.RefusesUntilReport(leaked, s, es, later);
  }

  /**
   * Two ways to come to that, whatever else is configured: the budget is spent on entry, or a first call fails
   * transiently with a pause that fits the budget and then overruns it.
   */
  lemma {:induction false} WaysToSpend(name: string, mode: Mode, cfg: Reliability, s: B.Settings, deadline: real,
                                       script: Script, w: World)
    ensures w.now >= deadline ==> SpentStart(name, 0, mode, cfg, s, Some(deadline), script, w)
    ensures
      var reply := script(w.calls);
      (&& cfg.maxRetries > 0 && reply.failure.Some? && reply.failure.value.IsTransient()
       && w.now + reply.elapsed + RetryDelay(reply.failure.value, 0, cfg, reply.jitter) < deadline
       && w.now + reply.elapsed + RetryDelay(reply.failure.value, 0, cfg, reply.jitter) + reply.lag >= deadline)
      ==> !BudgetGone(Some(deadline), w.now) && SpentStart(name, 0, mode, cfg, s, Some(deadline), script, w)
  {
  }
}
