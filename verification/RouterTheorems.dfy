/** What a routing decision guarantees, stated without the filters that compute it. */
module RouterTheorems {
  import opened Wrappers
  import opened Lists
  import opened Router

  // ---------- an independent description of the last pool ----------

  ghost predicate IsCandidate(q: Provider, providers: seq<Provider>, c: Constraints, health: Health,
                              required: set<string>) {
    q in providers && Eligible(q, c, health, required)
  }

  /** Within budget, if any candidate is. */
  ghost predicate MeetsBudget(q: Provider, providers: seq<Provider>, c: Constraints, health: Health,
                              required: set<string>, cost: Cost)
  {
    && IsCandidate(q, providers, c, health, required)
    && ((exists o :: IsCandidate(o, providers, c, health, required) && cost(o) <= c.maxCostUsd)
        ==> cost(q) <= c.maxCostUsd)
  }

  /** A contender is within the latency target too, if anything that meets the budget rule is. */
  ghost predicate Contends(q: Provider, providers: seq<Provider>, c: Constraints, health: Health, required: set<string>,
                           cost: Cost)
  {
    && MeetsBudget(q, providers, c, health, required, cost)
    && ((exists o :: MeetsBudget(o, providers, c, health, required, cost) && o.typicalLatencyMs <= c.latencyTargetMs)
        ==> q.typicalLatencyMs <= c.latencyTargetMs)
  }

  function EligiblePool(providers: seq<Provider>, c: Constraints, health: Health,
                        required: set<string>): seq<Provider> {
    Filter(providers, IsEligible(c, health, required))
  }

  function FinalPool(providers: seq<Provider>, c: Constraints, health: Health, required: set<string>,
                     cost: Cost): seq<Provider> {
    LatencyPool(BudgetPool(EligiblePool(providers, c, health, required), c, cost), c)
  }

  lemma {:induction false} BudgetPoolMembers(providers: seq<Provider>, c: Constraints, health: Health,
                                             required: set<string>, cost: Cost, q: Provider)
    ensures q in BudgetPool(EligiblePool(providers, c, health, required), c, cost)
            <==> MeetsBudget(q, providers, c, health, required, cost)
  {
    var pool := EligiblePool(providers, c, health, required);
    var affordable := Filter(pool, Affordable(c, cost));
    forall o ensures o in affordable <==> IsCandidate(o, providers, c, health, required) && cost(o) <= c.maxCostUsd {
      FilterMember(providers, IsEligible(c, health, required), o);
      FilterMember(pool, Affordable(c, cost), o);
    }
    FilterMember(providers, IsEligible(c, health, required), q);
    if affordable != [] {
      assert affordable[0] in affordable;
    }
  }

  lemma {:induction false} FinalPoolMembers(providers: seq<Provider>, c: Constraints, health: Health,
                                            required: set<string>, cost: Cost, q: Provider)
    ensures q in FinalPool(providers, c, health, required, cost) <==> Contends(q, providers, c, health, required, cost)
  {
    var pool := BudgetPool(EligiblePool(providers, c, health, required), c, cost);
    var fast := Filter(pool, Fast(c));
    forall o
      ensures o in fast <==> MeetsBudget(o, providers, c, health, required, cost) && Fast(c)(o)
    {
      BudgetPoolMembers(providers, c, health, required, cost, o);
      FilterMember(pool, Fast(c), o);
    }
    BudgetPoolMembers(providers, c, health, required, cost, q);
    if fast != [] {
      assert fast[0] in fast;
    }
  }

  /** A decision is a pick from the final pool; what was hard was met by somebody. */
  lemma {:induction false} SelectPicks(providers: seq<Provider>, c: Constraints, health: Health, required: set<string>,
                                       policy: GatewayRoutingPolicy, cost: Cost, p: Provider)
    requires Select(providers, c, health, required, policy, cost) == Ok(p)
    ensures
      var pool := FinalPool(providers, c, health, required, cost);
      pool != [] && p in pool && Pick(pool, c.quality, policy, cost) == Ok(p)
  {
    var pool := FinalPool(providers, c, health, required, cost);
    assert Pick(pool, c.quality, policy, cost) == Ok(p);
    PickIsMember(pool, c.quality, policy, cost, p);
  }

  lemma {:induction false} PickIsMember(pool: seq<Provider>, quality: Quality, policy: GatewayRoutingPolicy, cost: Cost,
                                        p: Provider)
    requires pool != [] && Pick(pool, quality, policy, cost) == Ok(p)
    ensures p in pool
  {
    var reals := Reals(pool);
    FilterMember(pool, IsReal(), p);
    if reals != [] {
      FilterMember(reals, HasRank(MaxKey(reals, Rank())), p);
    }
  }

  // ---------- what a chosen provider satisfies ----------

  /**
   * Every policy, every mode: the guardrails hold of the result and the relaxable constraints yield only when they
   * must.
   */
  lemma {:induction false} ChosenContends(providers: seq<Provider>, c: Constraints, health: Health,
                                          required: set<string>, policy: GatewayRoutingPolicy, cost: Cost, p: Provider)
    requires Select(providers, c, health, required, policy, cost) == Ok(p)
    ensures Contends(p, providers, c, health, required, cost)
    ensures policy.budgetMode == Hard ==> cost(p) <= c.maxCostUsd
    ensures policy.latencyMode == Hard ==> p.typicalLatencyMs <= c.latencyTargetMs
  {
    SelectPicks(providers, c, health, required, policy, cost, p);
    FinalPoolMembers(providers, c, health, required, cost, p);
    var pool := EligiblePool(providers, c, health, required);
    var affordable := BudgetPool(pool, c, cost);
    FilterMember(pool, Affordable(c, cost), p);
    FilterMember(affordable, Fast(c), p);
  }

  /** `balanced` and `cheap` bound the price; `high` is optimal by rank and then by price. */
  lemma {:induction false} ChosenIsPricedWell(providers: seq<Provider>, c: Constraints, health: Health,
                                              required: set<string>, policy: GatewayRoutingPolicy, cost: Cost,
                                              p: Provider, q: Provider)
    requires policy.Valid()
    requires Select(providers, c, health, required, policy, cost) == Ok(p)
    requires Contends(q, providers, c, health, required, cost)
    ensures c.quality == Cheap ==> cost(p) <= cost(q)
    ensures c.quality == Balanced ==>
              cost(p) <= cost(q) || cost(p) <= cost(q) * (1.0 + policy.balancedPriceTolerance)
    ensures c.quality == HighQuality && policy.highQualityStrategy == LowestCost ==> cost(p) <= cost(q)
    ensures c.quality == HighQuality && policy.highQualityStrategy == PreferReal ==>
              if q.kind == "real"
              then p.kind == "real" && (p.qualityRank > q.qualityRank
                                        || (p.qualityRank == q.qualityRank && cost(p) <= cost(q)))
              else p.kind == "real" || cost(p) <= cost(q)
  {
    SelectPicks(providers, c, health, required, policy, cost, p);
    FinalPoolMembers(providers, c, health, required, cost, q);
    PickIsPricedWell(FinalPool(providers, c, health, required, cost), c.quality, policy, cost, p, q);
  }

  lemma {:induction false} PickIsPricedWell(pool: seq<Provider>, quality: Quality, policy: GatewayRoutingPolicy,
                                            cost: Cost, p: Provider, q: Provider)
    requires policy.Valid()
    requires pool != [] && Pick(pool, quality, policy, cost) == Ok(p) && q in pool
    ensures quality == Cheap ==> cost(p) <= cost(q)
    ensures quality == Balanced ==>
              cost(p) <= cost(q) || cost(p) <= cost(q) * (1.0 + policy.balancedPriceTolerance)
    ensures quality == HighQuality && policy.highQualityStrategy == LowestCost ==> cost(p) <= cost(q)
    ensures quality == HighQuality && policy.highQualityStrategy == PreferReal ==>
              if q.kind == "real"
              then p.kind == "real" && (p.qualityRank > q.qualityRank
                                        || (p.qualityRank == q.qualityRank && cost(p) <= cost(q)))
              else p.kind == "real" || cost(p) <= cost(q)
  {
    var cheapest := ArgMin(pool, cost);
    ArgMinLeast(pool, cost, q);
    match quality
    case Cheap =>
    case Balanced => ScaledUp(cost(cheapest), cost(q), policy.balancedPriceTolerance);
    case HighQuality =>
      if policy.highQualityStrategy == PreferReal {
        HighestIsBest(pool, policy, cost, p, q);
      }
  }

  lemma {:induction false} HighestIsBest(pool: seq<Provider>, policy: GatewayRoutingPolicy, cost: Cost, p: Provider,
                                         q: Provider)
    requires policy.highQualityStrategy == PreferReal && q in pool
    requires Pick(pool, HighQuality, policy, cost) == Ok(p)
    ensures if q.kind == "real"
            then p.kind == "real" && (p.qualityRank > q.qualityRank
                                      || (p.qualityRank == q.qualityRank && cost(p) <= cost(q)))
            else p.kind == "real" || cost(p) <= cost(q)
  {
    var reals := Reals(pool);
    FilterMember(pool, IsReal(), q);
    FilterMember(pool, IsReal(), p);
    if q.kind == "real" {
      TopRankedIsBest(reals, cost, q);
    } else if reals == [] {
      ArgMinLeast(pool, cost, q);
    } else {
      TopRankedIsBest(reals, cost, reals[0]);
    }
  }

  lemma {:induction false} EstimateIsNonNegative(p: Provider, inputTokens: nat, outputTokens: nat)
    requires p.pricePer1kInput >= 0.0 && p.pricePer1kOutput >= 0.0
    ensures EstimateCost(p, inputTokens, outputTokens) >= 0.0
  {
    var x, y := p.pricePer1kInput * inputTokens as real, p.pricePer1kOutput * outputTokens as real;
    assert x >= 0.0 && y >= 0.0;
    assert x / 1000.0 + y / 1000.0 >= 0.0;
  }

  lemma {:induction false} EstimatedIsNonNegative(contents: seq<string>, policy: GatewayRoutingPolicy, p: Provider)
    requires p.pricePer1kInput >= 0.0 && p.pricePer1kOutput >= 0.0
    ensures EstimatedCost(contents, policy)(p) >= 0.0
  {
    EstimateIsNonNegative(p, RoughInputTokens(contents), policy.assumedOutputTokens);
  }

  /** Where costs are not negative, `balanced` is within the tolerance of every contender. */
  lemma {:induction false} BalancedStaysInTolerance(providers: seq<Provider>, c: Constraints, health: Health,
                                                    required: set<string>, policy: GatewayRoutingPolicy, cost: Cost,
                                                    p: Provider, q: Provider)
    requires policy.Valid() && c.quality == Balanced
    requires Select(providers, c, health, required, policy, cost) == Ok(p)
    requires Contends(q, providers, c, health, required, cost) && cost(q) >= 0.0
    ensures cost(p) <= cost(q) * (1.0 + policy.balancedPriceTolerance)
  {
    ChosenIsPricedWell(providers, c, health, required, policy, cost, p, q);
    ScaledUp(cost(q), cost(q), policy.balancedPriceTolerance);
  }

  lemma {:induction false} TopRankedIsBest(reals: seq<Provider>, cost: Cost, q: Provider)
    requires reals != [] && q in reals
    ensures
      var p := ArgMin(TopRanked(reals), cost);
      p in reals && (p.qualityRank > q.qualityRank || (p.qualityRank == q.qualityRank && cost(p) <= cost(q)))
  {
    var top := MaxKey(reals, Rank());
    MaxKeyLargest(reals, Rank(), q);
    FilterMember(reals, HasRank(top), ArgMin(TopRanked(reals), cost));
    FilterMember(reals, HasRank(top), q);
    if q.qualityRank == top {
      ArgMinLeast(TopRanked(reals), cost, q);
    }
  }

  lemma {:induction false} ScaledUp(low: real, high: real, tolerance: real)
    requires low <= high && tolerance >= 0.0
    ensures MarkedUp(low, tolerance) <= MarkedUp(high, tolerance)
    ensures high >= 0.0 ==> low <= MarkedUp(high, tolerance)
  {
    var factor := 1.0 + tolerance;
    assert low * factor <= high * factor;
    assert high * factor == high + high * tolerance;
    if high >= 0.0 {
      assert high * tolerance >= 0.0;
    }
  }

  /** `balanced` keeps a mock only when every real contender costs more than the tolerance allows. */
  lemma {:induction false} BalancedPrefersReal(providers: seq<Provider>, c: Constraints, health: Health,
                                               required: set<string>, policy: GatewayRoutingPolicy, cost: Cost,
                                               p: Provider, q: Provider)
    requires c.quality == Balanced
    requires Select(providers, c, health, required, policy, cost) == Ok(p) && p.kind != "real"
    requires Contends(q, providers, c, health, required, cost) && q.kind == "real"
    ensures cost(q) > cost(p) * (1.0 + policy.balancedPriceTolerance)
  {
    SelectPicks(providers, c, health, required, policy, cost, p);
    FinalPoolMembers(providers, c, health, required, cost, q);
    PickBalancedPrefersReal(FinalPool(providers, c, health, required, cost), policy, cost, p, q);
  }

  lemma {:induction false} PickBalancedPrefersReal(pool: seq<Provider>, policy: GatewayRoutingPolicy, cost: Cost,
                                                   p: Provider, q: Provider)
    requires q in pool && q.kind == "real" && Pick(pool, Balanced, policy, cost) == Ok(p) && p.kind != "real"
    ensures cost(q) > cost(p) * (1.0 + policy.balancedPriceTolerance)
  {
    FilterMember(pool, IsReal(), q);
    ArgMinLeast(Reals(pool), cost, q);
    FilterMember(pool, IsReal(), ArgMin(Reals(pool), cost));
  }

  /** Whether real or not, what `balanced` takes is the cheapest of that kind; if not real, of all. */
  lemma {:induction false} BalancedIsCheapestOfKind(providers: seq<Provider>, c: Constraints, health: Health,
                                                    required: set<string>, policy: GatewayRoutingPolicy, cost: Cost,
                                                    p: Provider, q: Provider)
    requires c.quality == Balanced
    requires Select(providers, c, health, required, policy, cost) == Ok(p)
    requires Contends(q, providers, c, health, required, cost) && (p.kind == "real" ==> q.kind == "real")
    ensures cost(p) <= cost(q)
  {
    SelectPicks(providers, c, health, required, policy, cost, p);
    FinalPoolMembers(providers, c, health, required, cost, q);
    var pool := FinalPool(providers, c, health, required, cost);
    ArgMinLeast(pool, cost, q);
    if p.kind == "real" {
      FilterMember(pool, IsReal(), q);
      ArgMinLeast(Reals(pool), cost, q);
    } else if Reals(pool) != [] {
      FilterMember(pool, IsReal(), ArgMin(Reals(pool), cost));
    }
  }

  /** One provider suits the quality and the strategy asked for at least as well as another. */
  ghost predicate Suits(p: Provider, q: Provider, quality: Quality, policy: GatewayRoutingPolicy, cost: Cost) {
    match quality
    case Cheap => cost(p) <= cost(q)
    case Balanced =>
      if p.kind == "real"
      then cost(p) <= cost(q) || (q.kind != "real" && cost(p) <= cost(q) * (1.0 + policy.balancedPriceTolerance))
      else cost(p) <= cost(q) && (q.kind == "real" ==> cost(q) > cost(p) * (1.0 + policy.balancedPriceTolerance))
    case HighQuality =>
      if policy.highQualityStrategy == LowestCost then cost(p) <= cost(q)
      else if q.kind == "real"
      then p.kind == "real" && (p.qualityRank > q.qualityRank
                                || (p.qualityRank == q.qualityRank && cost(p) <= cost(q)))
      else p.kind == "real" || cost(p) <= cost(q)
  }

  /** Whoever is chosen suits best. */
  lemma {:induction false} ChosenSuitsBest(providers: seq<Provider>, c: Constraints, health: Health,
                                           required: set<string>, policy: GatewayRoutingPolicy, cost: Cost,
                                           p: Provider, q: Provider)
    requires policy.Valid()
    requires Select(providers, c, health, required, policy, cost) == Ok(p)
    requires Contends(q, providers, c, health, required, cost)
    ensures Suits(p, q, c.quality, policy, cost)
  {
    ChosenIsPricedWell(providers, c, health, required, policy, cost, p, q);
    if c.quality == Balanced {
      if p.kind != "real" && q.kind == "real" {
        BalancedPrefersReal(providers, c, health, required, policy, cost, p, q);
      }
      if p.kind != "real" || q.kind == "real" {
        BalancedIsCheapestOfKind(providers, c, health, required, policy, cost, p, q);
      }
    }
  }

  lemma {:induction false} NoCandidates(providers: seq<Provider>, c: Constraints, health: Health, required: set<string>)
    ensures EligiblePool(providers, c, health, required) == []
            <==> forall q :: !IsCandidate(q, providers, c, health, required)
  {
    var pool := EligiblePool(providers, c, health, required);
    forall o ensures o in pool <==> IsCandidate(o, providers, c, health, required) {
      FilterMember(providers, IsEligible(c, health, required), o);
    }
    assert pool != [] ==> pool[0] in pool;
  }

  lemma {:induction false} NoneAffordable(providers: seq<Provider>, c: Constraints, health: Health,
                                          required: set<string>, cost: Cost)
    ensures Filter(EligiblePool(providers, c, health, required), Affordable(c, cost)) == [] <==>
            forall q :: IsCandidate(q, providers, c, health, required) ==> cost(q) > c.maxCostUsd
  {
    var pool := EligiblePool(providers, c, health, required);
    var affordable := Filter(pool, Affordable(c, cost));
    forall o ensures o in affordable <==> IsCandidate(o, providers, c, health, required) && cost(o) <= c.maxCostUsd {
      FilterMember(providers, IsEligible(c, health, required), o);
      FilterMember(pool, Affordable(c, cost), o);
    }
    assert affordable != [] ==> affordable[0] in affordable;
  }

  /** Exactly when routing raises for want of a candidate or of budget. */
  lemma {:induction false} BudgetErrorsExactly(providers: seq<Provider>, c: Constraints, health: Health,
                                               required: set<string>, policy: GatewayRoutingPolicy, cost: Cost)
    ensures Select(providers, c, health, required, policy, cost) == Err(OverBudget) <==>
            && policy.budgetMode == Hard
            && forall q :: IsCandidate(q, providers, c, health, required) ==> cost(q) > c.maxCostUsd
    ensures Select(providers, c, health, required, policy, cost) == Err(NoEligibleProvider) <==>
            policy.budgetMode == Soft && forall q :: !IsCandidate(q, providers, c, health, required)
  {
    NoCandidates(providers, c, health, required);
    NoneAffordable(providers, c, health, required, cost);
  }

  /** Exactly when the latency constraint refuses: it is hard and nobody left after the budget rule meets it. */
  lemma {:induction false} LatencyErrorExactly(providers: seq<Provider>, c: Constraints, health: Health,
                                               required: set<string>, policy: GatewayRoutingPolicy, cost: Cost)
    ensures Select(providers, c, health, required, policy, cost) == Err(OverLatency) <==>
            && policy.latencyMode == Hard
            && (exists q ::
                  && IsCandidate(q, providers, c, health, required)
                  && (policy.budgetMode == Hard ==> cost(q) <= c.maxCostUsd))
            && forall q :: MeetsBudget(q, providers, c, health, required, cost) ==>
                 q.typicalLatencyMs > c.latencyTargetMs
  {
    BudgetErrorsExactly(providers, c, health, required, policy, cost);
    var affordable := BudgetPool(EligiblePool(providers, c, health, required), c, cost);
    var fast := Filter(affordable, Fast(c));
    forall o
      ensures o in fast <==> MeetsBudget(o, providers, c, health, required, cost) && Fast(c)(o)
    {
      BudgetPoolMembers(providers, c, health, required, cost, o);
      FilterMember(affordable, Fast(c), o);
    }
    assert fast != [] ==> fast[0] in fast;
  }

  // ---------- exactly when there is a decision ----------

  /** The guardrails, in the provider's own fields. */
  ghost predicate Passes(q: Provider, providers: seq<Provider>, c: Constraints, health: Health, required: set<string>) {
    && q in providers
    && (c.privacyHigh ==> q.privacy == "internal")
    && required <= q.capabilities
    && (q.name in health ==> health[q.name] != "down")
  }

  lemma {:induction false} CandidatesPass(q: Provider, providers: seq<Provider>, c: Constraints, health: Health,
                                          required: set<string>)
    ensures IsCandidate(q, providers, c, health, required) <==> Passes(q, providers, c, health, required)
  {
    if required - q.capabilities == {} {
      forall x | x in required ensures x in q.capabilities {
        assert x !in required - q.capabilities;
      }
    }
  }

  /** Passes the guardrails; is within budget, or the budget is soft and nobody that passes is within it. */
  ghost predicate FitsBudget(q: Provider, providers: seq<Provider>, c: Constraints, health: Health,
                             required: set<string>, policy: GatewayRoutingPolicy, cost: Cost)
  {
    && Passes(q, providers, c, health, required)
    && (cost(q) <= c.maxCostUsd
        || (policy.budgetMode == Soft
            && forall o :: Passes(o, providers, c, health, required) ==> cost(o) > c.maxCostUsd))
  }

  /** And is within the latency target, or that is soft and nobody that fits the budget is within it. */
  ghost predicate Fits(q: Provider, providers: seq<Provider>, c: Constraints, health: Health, required: set<string>,
                       policy: GatewayRoutingPolicy, cost: Cost)
  {
    && FitsBudget(q, providers, c, health, required, policy, cost)
    && (q.typicalLatencyMs <= c.latencyTargetMs
        || (policy.latencyMode == Soft
            && forall o :: FitsBudget(o, providers, c, health, required, policy, cost) ==>
                 o.typicalLatencyMs > c.latencyTargetMs))
  }

  /** `high` looks at the rank of every real provider that fits, and one of them is invalid. */
  ghost predicate HasBadRank(providers: seq<Provider>, c: Constraints, health: Health, required: set<string>,
                             policy: GatewayRoutingPolicy, cost: Cost)
  {
    && c.quality == HighQuality && policy.highQualityStrategy == PreferReal
    && exists q :: Fits(q, providers, c, health, required, policy, cost) && q.kind == "real" && q.qualityRank < 0
  }

  lemma {:induction false} FittingBudgetMeetsIt(providers: seq<Provider>, c: Constraints, health: Health,
                                                required: set<string>, policy: GatewayRoutingPolicy, cost: Cost)
    ensures forall q :: FitsBudget(q, providers, c, health, required, policy, cost) <==>
              && MeetsBudget(q, providers, c, health, required, cost)
              && (policy.budgetMode == Hard ==> cost(q) <= c.maxCostUsd)
  {
    forall q ensures IsCandidate(q, providers, c, health, required) <==> Passes(q, providers, c, health, required) {
      CandidatesPass(q, providers, c, health, required);
    }
  }

  predicate Refuses(r: Result<Provider, RouteError>) {
    r.Err? && r.error != InvalidQualityRank
  }

  /** The budget rule refuses nobody that meets it, or refuses altogether. */
  lemma {:induction false} HardBudgetFits(providers: seq<Provider>, c: Constraints, health: Health,
                                          required: set<string>, policy: GatewayRoutingPolicy, cost: Cost)
    requires policy.budgetMode == Hard ==>
               exists q :: IsCandidate(q, providers, c, health, required) && cost(q) <= c.maxCostUsd
    ensures forall q :: FitsBudget(q, providers, c, health, required, policy, cost) <==>
              MeetsBudget(q, providers, c, health, required, cost)
  {
    FittingBudgetMeetsIt(providers, c, health, required, policy, cost);
  }

  /** Past the refusals, whatever is hard is met by somebody, and what is left is the pick from the last pool. */
  lemma {:induction false} PastRefusals(providers: seq<Provider>, c: Constraints, health: Health, required: set<string>,
                                        policy: GatewayRoutingPolicy, cost: Cost)
    requires !Refuses(Select(providers, c, health, required, policy, cost))
    ensures
      var pool := FinalPool(providers, c, health, required, cost);
      pool != [] && Pick(pool, c.quality, policy, cost) == Select(providers, c, health, required, policy, cost)
    ensures policy.budgetMode == Hard ==>
              exists q :: IsCandidate(q, providers, c, health, required) && cost(q) <= c.maxCostUsd
    ensures policy.latencyMode == Hard ==>
              exists q :: MeetsBudget(q, providers, c, health, required, cost)
                && q.typicalLatencyMs <= c.latencyTargetMs
  {
    BudgetErrorsExactly(providers, c, health, required, policy, cost);
    LatencyErrorExactly(providers, c, health, required, policy, cost);
    var pool := FinalPool(providers, c, health, required, cost);
    if policy.latencyMode == Hard {
      FinalPoolMembers(providers, c, health, required, cost, pool[0]);
      BudgetPoolMembers(providers, c, health, required, cost, pool[0]);
      FilterMember(BudgetPool(EligiblePool(providers, c, health, required), c, cost), Fast(c), pool[0]);
    }
  }

  lemma {:induction false} PoolFits(providers: seq<Provider>, c: Constraints, health: Health, required: set<string>,
                                    policy: GatewayRoutingPolicy, cost: Cost)
    requires !Refuses(Select(providers, c, health, required, policy, cost))
    ensures forall q :: q in FinalPool(providers, c, health, required, cost)
              <==> Fits(q, providers, c, health, required, policy, cost)
  {
    PastRefusals(providers, c, health, required, policy, cost);
    HardBudgetFits(providers, c, health, required, policy, cost);
    forall q ensures q in FinalPool(providers, c, health, required, cost)
               <==> Fits(q, providers, c, health, required, policy, cost)
    {
      FinalPoolMembers(providers, c, health, required, cost, q);
    }
  }

  lemma {:induction false} RankErrorExactly(pool: seq<Provider>, quality: Quality, policy: GatewayRoutingPolicy,
                                            cost: Cost)
    requires pool != []
    ensures Pick(pool, quality, policy, cost).Err? <==>
            && quality == HighQuality && policy.highQualityStrategy == PreferReal
            && exists q :: q in pool && q.kind == "real" && q.qualityRank < 0
    ensures var r := Pick(pool, quality, policy, cost); r.Err? ==> r.error == InvalidQualityRank
  {
    var reals := Reals(pool);
    forall q ensures q in reals <==> q in pool && q.kind == "real" {
      FilterMember(pool, IsReal(), q);
    }
  }

  /** Past the refusals the last pool is everybody that fits, and the pick comes from it. */
  lemma {:induction false} PickedFits(providers: seq<Provider>, c: Constraints, health: Health, required: set<string>,
                                      policy: GatewayRoutingPolicy, cost: Cost)
    requires !Refuses(Select(providers, c, health, required, policy, cost))
    ensures exists q :: Fits(q, providers, c, health, required, policy, cost)
    ensures
      var r := Select(providers, c, health, required, policy, cost);
      && (r.Err? <==> HasBadRank(providers, c, health, required, policy, cost))
      && (r.Ok? ==> Fits(r.value, providers, c, health, required, policy, cost))
  {
    PastRefusals(providers, c, health, required, policy, cost);
    PoolFits(providers, c, health, required, policy, cost);
    var pool := FinalPool(providers, c, health, required, cost);
    assert pool[0] in pool;
    RankErrorExactly(pool, c.quality, policy, cost);
    var r := Select(providers, c, health, required, policy, cost);
    if r.Ok? {
      PickIsMember(pool, c.quality, policy, cost, r.value);
    }
  }

  /**
   * Routing finds a provider exactly if one fits, and no rank it has to look at is invalid; and the one it finds fits.
   */
  lemma {:induction false} SelectsExactly(providers: seq<Provider>, c: Constraints, health: Health,
                                          required: set<string>, policy: GatewayRoutingPolicy, cost: Cost)
    ensures
      var r := Select(providers, c, health, required, policy, cost);
      && (r.Ok? ==> Fits(r.value, providers, c, health, required, policy, cost))
      && (r.Ok? <==>
            && (exists q :: Fits(q, providers, c, health, required, policy, cost))
            && !HasBadRank(providers, c, health, required, policy, cost))
  {
    BudgetErrorsExactly(providers, c, health, required, policy, cost);
    LatencyErrorExactly(providers, c, health, required, policy, cost);
    FittingBudgetMeetsIt(providers, c, health, required, policy, cost);
    NoneAffordable(providers, c, health, required, cost);
    NoCandidates(providers, c, health, required);
    var r := Select(providers, c, health, required, policy, cost);
    if r.Err? && r.error != InvalidQualityRank {
      assert forall q :: !Fits(q, providers, c, health, required, policy, cost);
    } else {
      PickedFits(providers, c, health, required, policy, cost);
    }
  }

  // ---------- relations between decisions ----------

  /** Hardening a constraint never changes a decision; it can only refuse one. */
  lemma {:induction false} HardRefinesSoft(providers: seq<Provider>, c: Constraints, health: Health,
                                           required: set<string>, policy: GatewayRoutingPolicy,
                                           relaxed: GatewayRoutingPolicy, cost: Cost, p: Provider)
    requires relaxed == policy.(budgetMode := relaxed.budgetMode, latencyMode := relaxed.latencyMode)
    requires relaxed.budgetMode == Hard ==> policy.budgetMode == Hard
    requires relaxed.latencyMode == Hard ==> policy.latencyMode == Hard
    requires Select(providers, c, health, required, policy, cost) == Ok(p)
    ensures Select(providers, c, health, required, relaxed, cost) == Ok(p)
  {
    var affordable := BudgetPool(EligiblePool(providers, c, health, required), c, cost);
    if affordable != [] {
      PickIgnoresModes(LatencyPool(affordable, c), c.quality, policy, relaxed, cost);
    }
  }

  lemma {:induction false} PickIgnoresModes(pool: seq<Provider>, quality: Quality, policy: GatewayRoutingPolicy,
                                            relaxed: GatewayRoutingPolicy, cost: Cost)
    requires relaxed == policy.(budgetMode := relaxed.budgetMode, latencyMode := relaxed.latencyMode) && pool != []
    ensures Pick(pool, quality, relaxed, cost) == Pick(pool, quality, policy, cost)
  {
  }

  function Narrow(pool: seq<Provider>, rule: Provider -> bool): seq<Provider> {
    if Filter(pool, rule) != [] then Filter(pool, rule) else pool
  }

  /** Dropping unchosen providers first and narrowing then is the same as narrowing first. */
  lemma {:induction false} NarrowingCommutes(pool: seq<Provider>, rule: Provider -> bool, keep: Provider -> bool,
                                             p: Provider)
    requires keep(p) && p in Narrow(pool, rule)
    ensures Narrow(Filter(pool, keep), rule) == Filter(Narrow(pool, rule), keep)
    ensures Filter(pool, rule) != [] <==> Filter(Filter(pool, keep), rule) != []
  {
    FiltersCommute(pool, keep, rule);
    FilterMember(Filter(pool, rule), keep, p);
  }

  /** As long as a provider of the top rank stays, so does the top rank. */
  lemma {:induction false} TopRankStays(reals: seq<Provider>, keep: Provider -> bool, p: Provider)
    requires reals != [] && p in TopRanked(reals) && keep(p)
    ensures Filter(reals, keep) != [] && MaxKey(Filter(reals, keep), Rank()) == MaxKey(reals, Rank())
    ensures TopRanked(Filter(reals, keep)) == Filter(TopRanked(reals), keep)
  {
    var fewer, top := Filter(reals, keep), MaxKey(reals, Rank());
    FilterMember(reals, HasRank(top), p);
    FilterMember(reals, keep, p);
    var best := MaxKeyAttained(fewer, Rank());
    FilterMember(reals, keep, best);
    MaxKeyLargest(reals, Rank(), best);
    MaxKeyLargest(fewer, Rank(), p);
    FiltersCommute(reals, keep, HasRank(top));
  }

  lemma {:induction false} PickHighestIndependent(reals: seq<Provider>, cost: Cost, keep: Provider -> bool, p: Provider)
    requires reals != [] && PickHighest(reals, cost) == Ok(p) && keep(p)
    ensures Filter(reals, keep) != [] && PickHighest(Filter(reals, keep), cost) == Ok(p)
  {
    TopRankStays(reals, keep, p);
    ArgMinSurvivesFilter(TopRanked(reals), cost, keep);
    forall q | q in Filter(reals, keep) ensures q.qualityRank >= 0 {
      FilterMember(reals, keep, q);
    }
  }

  lemma {:induction false} PickBalancedIndependent(pool: seq<Provider>, policy: GatewayRoutingPolicy, cost: Cost,
                                                   keep: Provider -> bool, p: Provider)
    requires policy.Valid()
    requires pool != [] && PickBalanced(pool, policy, cost) == p && keep(p)
    ensures Filter(pool, keep) != [] && PickBalanced(Filter(pool, keep), policy, cost) == p
  {
    PickIsMember(pool, Balanced, policy, cost, p);
    FilterMember(pool, keep, p);
    FiltersCommute(pool, keep, IsReal());
    if p == ArgMin(pool, cost) {
      CheapestStays(pool, policy, cost, keep);
    } else {
      CheapestRealStays(pool, policy, cost, keep);
    }
  }

  /** The cheapest was kept although a real one exists: without some of the others it is kept still. */
  lemma {:induction false} CheapestStays(pool: seq<Provider>, policy: GatewayRoutingPolicy, cost: Cost,
                                         keep: Provider -> bool)
    requires pool != [] && PickBalanced(pool, policy, cost) == ArgMin(pool, cost) && keep(ArgMin(pool, cost))
    requires Reals(Filter(pool, keep)) == Filter(Reals(pool), keep)
    ensures Filter(pool, keep) != [] && PickBalanced(Filter(pool, keep), policy, cost) == ArgMin(pool, cost)
  {
    ArgMinSurvivesFilter(pool, cost, keep);
    var reals, fewerReals := Reals(pool), Filter(Reals(pool), keep);
    if fewerReals != [] {
      var now := ArgMin(fewerReals, cost);
      FilterMember(reals, keep, now);
      ArgMinLeast(reals, cost, now);
      FilterMember(pool, IsReal(), ArgMin(reals, cost));
    }
  }

  /** A real one was preferred to a cheaper mock: it is preferred to whatever is cheapest among fewer, too. */
  lemma {:induction false} CheapestRealStays(pool: seq<Provider>, policy: GatewayRoutingPolicy, cost: Cost,
                                             keep: Provider -> bool)
    requires policy.Valid()
    requires pool != [] && PickBalanced(pool, policy, cost) != ArgMin(pool, cost)
            && keep(PickBalanced(pool, policy, cost))
    requires Reals(Filter(pool, keep)) == Filter(Reals(pool), keep) && Filter(pool, keep) != []
    ensures PickBalanced(Filter(pool, keep), policy, cost) == PickBalanced(pool, policy, cost)
  {
    var fewer := Filter(pool, keep);
    RealWon(pool, policy, cost);
    ArgMinSurvivesFilter(Reals(pool), cost, keep);
    if ArgMin(fewer, cost).kind == "real" {
      ArgMinSurvivesFilter(fewer, cost, IsReal());
    } else {
      FilterMember(pool, keep, ArgMin(fewer, cost));
      ArgMinLeast(pool, cost, ArgMin(fewer, cost));
      RealStillWins(pool, fewer, policy, cost);
    }
  }

  lemma {:induction false} RealStillWins(pool: seq<Provider>, fewer: seq<Provider>, policy: GatewayRoutingPolicy,
                                         cost: Cost)
    requires policy.Valid() && pool != [] && fewer != [] && ArgMin(fewer, cost).kind != "real"
    requires Reals(pool) != [] && Reals(fewer) != [] && ArgMin(Reals(fewer), cost) == ArgMin(Reals(pool), cost)
    requires cost(ArgMin(pool, cost)) <= cost(ArgMin(fewer, cost))
    requires cost(ArgMin(Reals(pool), cost)) <= MarkedUp(cost(ArgMin(pool, cost)), policy.balancedPriceTolerance)
    ensures PickBalanced(fewer, policy, cost) == ArgMin(Reals(pool), cost)
  {
    StillWithin(cost(ArgMin(Reals(pool), cost)), cost(ArgMin(pool, cost)), cost(ArgMin(fewer, cost)),
                policy.balancedPriceTolerance);
    RealWins(fewer, policy, cost);
  }

  lemma {:induction false} StillWithin(x: real, low: real, high: real, tolerance: real)
    requires low <= high && tolerance >= 0.0 && x <= MarkedUp(low, tolerance)
    ensures x <= MarkedUp(high, tolerance)
  {
    ScaledUp(low, high, tolerance);
  }

  lemma {:induction false} RealWon(pool: seq<Provider>, policy: GatewayRoutingPolicy, cost: Cost)
    requires pool != [] && PickBalanced(pool, policy, cost) != ArgMin(pool, cost)
    ensures Reals(pool) != [] && PickBalanced(pool, policy, cost) == ArgMin(Reals(pool), cost)
    ensures cost(ArgMin(Reals(pool), cost)) <= MarkedUp(cost(ArgMin(pool, cost)), policy.balancedPriceTolerance)
  {
  }

  lemma {:induction false} RealWins(pool: seq<Provider>, policy: GatewayRoutingPolicy, cost: Cost)
    requires pool != [] && ArgMin(pool, cost).kind != "real" && Reals(pool) != []
    requires cost(ArgMin(Reals(pool), cost)) <= MarkedUp(cost(ArgMin(pool, cost)), policy.balancedPriceTolerance)
    ensures PickBalanced(pool, policy, cost) == ArgMin(Reals(pool), cost)
  {
  }

  lemma {:induction false} PickIndependent(pool: seq<Provider>, quality: Quality, policy: GatewayRoutingPolicy,
                                           cost: Cost, keep: Provider -> bool, p: Provider)
    requires policy.Valid()
    requires pool != [] && Pick(pool, quality, policy, cost) == Ok(p) && keep(p)
    ensures Filter(pool, keep) != [] && Pick(Filter(pool, keep), quality, policy, cost) == Ok(p)
  {
    FiltersCommute(pool, keep, IsReal());
    match quality
    case Balanced => PickBalancedIndependent(pool, policy, cost, keep, p);
    case Cheap => ArgMinSurvivesFilter(pool, cost, keep);
    case HighQuality =>
      if policy.highQualityStrategy == LowestCost || Reals(pool) == [] {
        ArgMinSurvivesFilter(pool, cost, keep);
      } else {
        PickHighestIndependent(Reals(pool), cost, keep, p);
        FilterMember(Filter(pool, keep), IsReal(), Reals(Filter(pool, keep))[0]);
      }
  }

  lemma {:induction false} ChosenInPools(pool: seq<Provider>, c: Constraints, policy: GatewayRoutingPolicy, cost: Cost,
                                         p: Provider)
    requires Choose(pool, c, policy, cost) == Ok(p)
    ensures
      var affordable := BudgetPool(pool, c, cost);
      var last := LatencyPool(affordable, c);
      && p in pool && p in affordable && p in last
      && Pick(last, c.quality, policy, cost) == Ok(p)
  {
    var affordable := BudgetPool(pool, c, cost);
    PickIsMember(LatencyPool(affordable, c), c.quality, policy, cost, p);
    FilterMember(pool, Affordable(c, cost), p);
    FilterMember(affordable, Fast(c), p);
  }

  lemma {:induction false} ChooseIndependent(pool: seq<Provider>, c: Constraints, policy: GatewayRoutingPolicy,
                                             cost: Cost, keep: Provider -> bool, p: Provider)
    requires policy.Valid()
    requires Choose(pool, c, policy, cost) == Ok(p) && keep(p)
    ensures Choose(Filter(pool, keep), c, policy, cost) == Ok(p)
  {
    ChosenInPools(pool, c, policy, cost, p);
    FilterMember(pool, keep, p);
    NarrowingCommutes(pool, Affordable(c, cost), keep, p);
    NarrowingCommutes(BudgetPool(pool, c, cost), Fast(c), keep, p);
    PickIndependent(LatencyPool(BudgetPool(pool, c, cost), c), c.quality, policy, cost, keep, p);
  }

  /** Removing any set of unchosen providers leaves the decision as it was. */
  lemma {:induction false} IndependentOfUnchosen(providers: seq<Provider>, c: Constraints, health: Health,
                                                 required: set<string>, policy: GatewayRoutingPolicy, cost: Cost,
                                                 keep: Provider -> bool, p: Provider)
    requires policy.Valid()
    requires Select(providers, c, health, required, policy, cost) == Ok(p) && keep(p)
    ensures Select(Filter(providers, keep), c, health, required, policy, cost) == Ok(p)
  {
    FiltersCommute(providers, keep, IsEligible(c, health, required));
    ChooseIndependent(EligiblePool(providers, c, health, required), c, policy, cost, keep, p);
  }

  /** A provider going down does not move traffic that was not routed to it. */
  lemma {:induction false} IndependentOfOtherOutages(providers: seq<Provider>, c: Constraints, health: Health,
                                                     required: set<string>, policy: GatewayRoutingPolicy, cost: Cost,
                                                     down: string, p: Provider)
    requires policy.Valid()
    requires Select(providers, c, health, required, policy, cost) == Ok(p) && p.name != down
    ensures Select(providers, c, health[down := "down"], required, policy, cost) == Ok(p)
  {
    var others := (q: Provider) => q.name != down;
    FilterSplit(providers, others, IsEligible(c, health, required), IsEligible(c, health[down := "down"], required));
    ChooseIndependent(EligiblePool(providers, c, health, required), c, policy, cost, others, p);
  }

  // ---------- ties ----------

  /** Alike in all but the name, and as a candidate. */
  ghost predicate Twins(p: Provider, q: Provider, health: Health, cost: Cost) {
    && q == p.(name := q.name) && cost(q) == cost(p)
    && (Healthy(p, health) <==> Healthy(q, health))
  }

  lemma {:induction false} AllOrNone(s: seq<Provider>, keep: Provider -> bool)
    requires s != [] && forall x :: x in s ==> keep(x) == keep(s[0])
    ensures Filter(s, keep) == if keep(s[0]) then s else []
  {
    if keep(s[0]) {
      FilterAll(s, keep);
    } else if Filter(s, keep) != [] {
      FilterMember(s, keep, Filter(s, keep)[0]);
    }
  }

  lemma {:induction false} FirstOfEquals(s: seq<Provider>, cost: Cost)
    requires s != [] && forall x :: x in s ==> cost(x) == cost(s[0])
    ensures ArgMin(s, cost) == s[0]
  {
    if |s| > 1 {
      assert s[|s| - 1] in s && forall x :: x in s[..|s| - 1] ==> x in s;
      FirstOfEquals(s[..|s| - 1], cost);
    }
  }

  lemma {:induction false} PickFirstTwin(s: seq<Provider>, quality: Quality, policy: GatewayRoutingPolicy,
                                         health: Health, cost: Cost, p: Provider)
    requires s != [] && forall x :: x in s ==> Twins(s[0], x, health, cost)
    requires Pick(s, quality, policy, cost) == Ok(p)
    ensures p == s[0]
  {
    FirstOfEquals(s, cost);
    match quality
    case Cheap =>
    case Balanced => AllOrNone(s, IsReal());
    case HighQuality =>
      AllOrNone(s, IsReal());
      assert Reals(s) == s || Reals(s) == [];
      if Reals(s) == s {
        HighestOfEquals(s, cost);
      }
  }

  lemma {:induction false} HighestOfEquals(s: seq<Provider>, cost: Cost)
    requires s != [] && forall x :: x in s ==> cost(x) == cost(s[0]) && x.qualityRank == s[0].qualityRank
    ensures ArgMin(TopRanked(s), cost) == s[0]
  {
    var best := MaxKeyAttained(s, Rank());
    AllOrNone(s, HasRank(MaxKey(s, Rank())));
    FirstOfEquals(s, cost);
  }

  lemma {:induction false} SelectFirstTwin(s: seq<Provider>, c: Constraints, health: Health, required: set<string>,
                                           policy: GatewayRoutingPolicy, cost: Cost, p: Provider)
    requires s != [] && forall x :: x in s ==> Twins(s[0], x, health, cost)
    requires Select(s, c, health, required, policy, cost) == Ok(p)
    ensures p == s[0]
  {
    AllOrNone(s, IsEligible(c, health, required));
    AllOrNone(s, Affordable(c, cost));
    AllOrNone(s, Fast(c));
    PickFirstTwin(s, c.quality, policy, health, cost, p);
  }

  /** The first of those kept comes before every other one that is kept. */
  lemma {:induction false} FilterHead(s: seq<Provider>, keep: Provider -> bool) returns (i: nat)
    requires Filter(s, keep) != []
    ensures i < |s| && s[i] == Filter(s, keep)[0]
    ensures forall j :: 0 <= j < i ==> !keep(s[j])
  {
    var n := |s| - 1;
    var rest := s[..n];
    if Filter(rest, keep) != [] {
      i := FilterHead(rest, keep);
      forall j | 0 <= j < i ensures !keep(s[j]) {
        assert s[j] == rest[j];
      }
    } else {
      i := n;
      forall j | 0 <= j < n ensures !keep(s[j]) {
        assert rest[j] in rest;
        FilterMember(rest, keep, rest[j]);
      }
    }
  }

  /** Of two candidates alike in all but their names, the one configured first is chosen, whatever the quality. */
  lemma {:induction false} FirstTwinWins(providers: seq<Provider>, c: Constraints, health: Health,
                                         required: set<string>, policy: GatewayRoutingPolicy, cost: Cost, p: Provider,
                                         q: Provider)
    requires policy.Valid() && Select(providers, c, health, required, policy, cost) == Ok(p)
    requires q in providers && Twins(p, q, health, cost)
    ensures exists i :: 0 <= i < |providers| && providers[i] == p && forall j :: 0 <= j < i ==> providers[j] != q
  {
    var either := (x: Provider) => x == p || x == q;
    IndependentOfUnchosen(providers, c, health, required, policy, cost, either, p);
    FilterMember(providers, either, q);
    EitherTwins(providers, either, health, cost, p, q);
    SelectFirstTwin(Filter(providers, either), c, health, required, policy, cost, p);
    var i := FilterHead(providers, either);
    assert forall j :: 0 <= j < i ==> providers[j] != q;
  }

  lemma {:induction false} EitherTwins(providers: seq<Provider>, either: Provider -> bool, health: Health, cost: Cost,
                                       p: Provider, q: Provider)
    requires Twins(p, q, health, cost) && q in Filter(providers, either)
    requires forall x :: either(x) <==> x == p || x == q
    ensures var s := Filter(providers, either); forall x :: x in s ==> Twins(s[0], x, health, cost)
  {
    var s := Filter(providers, either);
    FilterMember(providers, either, s[0]);
    forall x | x in s ensures Twins(s[0], x, health, cost) {
      FilterMember(providers, either, x);
    }
  }

  // ---------- estimates ----------

  /** An estimate is within half a unit in the eighth decimal of the tokens at their prices. */
  lemma {:induction false} EstimatesAreClose(contents: seq<string>, policy: GatewayRoutingPolicy, p: Provider)
    ensures
      var input, output := RoughInputTokens(contents) as real, policy.assumedOutputTokens as real;
      var exact := p.pricePer1kInput * input / 1000.0 + p.pricePer1kOutput * output / 1000.0;
      exact - 0.000000005 <= EstimatedCost(contents, policy)(p) <= exact + 0.000000005
  {
    var input, output := RoughInputTokens(contents), policy.assumedOutputTokens;
    assert Priced(p.pricePer1kInput, input) == p.pricePer1kInput * input as real / 1000.0;
    assert Priced(p.pricePer1kOutput, output) == p.pricePer1kOutput * output as real / 1000.0;
    assert EstimatedCost(contents, policy)(p) == EstimateCost(p, input, output);
  }

  function Joined(contents: seq<string>): string {
    if contents == [] then "" else contents[0] + Joined(contents[1..])
  }

  /** A token to every four characters of all contents together, and never less than one. */
  lemma {:induction false} TokensAreQuarters(contents: seq<string>)
    ensures
      var n, chars := RoughInputTokens(contents), |Joined(contents)|;
      if chars < 4 then n == 1 else 4 * n <= chars < 4 * n + 4
  {
    CharsJoined(contents);
  }

  lemma {:induction false} CharsJoined(contents: seq<string>)
    ensures TotalChars(contents) == |Joined(contents)|
  {
    if contents != [] {
      CharsJoined(contents[1..]);
    }
  }
}
