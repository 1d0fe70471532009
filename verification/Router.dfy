/** Provider choice: staged guardrail filters, soft or hard constraints, then the final pick. */
module Router {
  import opened Wrappers
  import opened Lists

  datatype Provider = Provider(
    name: string,
    kind: string,
    privacy: string,
    capabilities: set<string>,
    typicalLatencyMs: int,
    qualityRank: int,        // negative stands for any value the source rejects as invalid
    pricePer1kInput: real,
    pricePer1kOutput: real)

  datatype Quality = Balanced | HighQuality | Cheap
  datatype Mode = Soft | Hard
  datatype HighQualityStrategy = PreferReal | LowestCost

  datatype Constraints = Constraints(privacyHigh: bool, quality: Quality, maxCostUsd: real, latencyTargetMs: int)

  datatype GatewayRoutingPolicy = GatewayRoutingPolicy(
    assumedOutputTokens: nat,
    balancedPriceTolerance: real,
    budgetMode: Mode,
    latencyMode: Mode,
    highQualityStrategy: HighQualityStrategy)
  {
    /** The range the policy schema enforces on the tolerance. */
    ghost predicate Valid() { 0.0 <= balancedPriceTolerance <= 2.0 }
  }

  const DEFAULT_GATEWAY_POLICY := GatewayRoutingPolicy(256, 0.20, Soft, Soft, PreferReal)

  datatype RouteError = OverBudget | NoEligibleProvider | OverLatency | InvalidQualityRank

  type Health = map<string, string>
  type Cost = Provider -> real

  // ---------- cost.py ----------

  /** Python's `round(x, 8)` on exact reals: nearest, ties to even. */
  function Round8(x: real): (r: real)
    ensures -0.000000005 <= r - x <= 0.000000005
  {
    var scaled := x * 100000000.0;
    var down := scaled.Floor;
    var frac := scaled - down as real;
    var whole := if frac < 0.5 || (frac == 0.5 && down % 2 == 0) then down else down + 1;
    whole as real / 100000000.0
  }

  function Priced(pricePer1k: real, tokens: nat): real {
    pricePer1k * tokens as real / 1000.0
  }

  function EstimateCost(p: Provider, inputTokens: nat, outputTokens: nat): real {
    Round8(Priced(p.pricePer1kInput, inputTokens) + Priced(p.pricePer1kOutput, outputTokens))
  }

  function TotalChars(contents: seq<string>): nat {
    if contents == [] then 0 else |contents[0]| + TotalChars(contents[1..])
  }

  function RoughInputTokens(contents: seq<string>): (n: nat)
    ensures n >= 1
  {
    var quarter := TotalChars(contents) / 4;
    if quarter < 1 then 1 else quarter
  }

  function EstimatedCost(contents: seq<string>, policy: GatewayRoutingPolicy): Cost {
    var inputTokens := RoughInputTokens(contents);
    (p: Provider) => EstimateCost(p, inputTokens, policy.assumedOutputTokens)
  }

  // ---------- router.py: the filters ----------

  predicate Healthy(p: Provider, health: Health) {
    p.name in health ==> health[p.name] != "down"
  }

  function MissingCapabilities(p: Provider, required: set<string>): set<string> {
    required - p.capabilities
  }

  predicate Supports(p: Provider, required: set<string>) {
    MissingCapabilities(p, required) == {}
  }

  /** The guardrails, which no policy can relax. */
  predicate Eligible(p: Provider, c: Constraints, health: Health, required: set<string>) {
    && (c.privacyHigh ==> p.privacy == "internal")
    && Supports(p, required)
    && Healthy(p, health)
  }

  // The conditions of the source's comprehensions, as values.
  function IsInternal(): Provider -> bool { (p: Provider) => p.privacy == "internal" }
  function SupportsAll(required: set<string>): Provider -> bool { (p: Provider) => Supports(p, required) }
  function IsHealthy(health: Health): Provider -> bool { (p: Provider) => Healthy(p, health) }
  function IsEligible(c: Constraints, health: Health, required: set<string>): Provider -> bool {
    (p: Provider) => Eligible(p, c, health, required)
  }
  function Affordable(c: Constraints, cost: Cost): Provider -> bool { (p: Provider) => cost(p) <= c.maxCostUsd }
  function Fast(c: Constraints): Provider -> bool { (p: Provider) => p.typicalLatencyMs <= c.latencyTargetMs }
  function IsReal(): Provider -> bool { (p: Provider) => p.kind == "real" }
  function Rank(): Provider -> int { (p: Provider) => p.qualityRank }
  function HasRank(rank: int): Provider -> bool { (p: Provider) => p.qualityRank == rank }

  function BudgetPool(pool: seq<Provider>, c: Constraints, cost: Cost): seq<Provider> {
    var affordable := Filter(pool, Affordable(c, cost));
    if affordable != [] then affordable else pool
  }

  function LatencyPool(pool: seq<Provider>, c: Constraints): seq<Provider> {
    var within := Filter(pool, Fast(c));
    if within != [] then within else pool
  }

  function Reals(pool: seq<Provider>): seq<Provider> {
    Filter(pool, IsReal())
  }

  function TopRanked(reals: seq<Provider>): (r: seq<Provider>)
    requires reals != []
    ensures r != []
  {
    var top := MaxKey(reals, Rank());
    assert Filter(reals, HasRank(top)) != [] by {
      var best := MaxKeyAttained(reals, Rank());
      FilterMember(reals, HasRank(top), best);
    }
    Filter(reals, HasRank(top))
  }

  // ---------- router.py: the final pick ----------

  /** `quality_rank` is looked at only for real providers, and an invalid one raises. */
  function PickHighest(reals: seq<Provider>, cost: Cost): Result<Provider, RouteError>
    requires reals != []
  {
    if exists p :: p in reals && p.qualityRank < 0 then Err(InvalidQualityRank)
    else Ok(ArgMin(TopRanked(reals), cost))
  }

  /** The price up to which a real provider is preferred. */
  function MarkedUp(price: real, tolerance: real): real {
    price * (1.0 + tolerance)
  }

  function PickBalanced(pool: seq<Provider>, policy: GatewayRoutingPolicy, cost: Cost): Provider
    requires pool != []
  {
    var cheapest := ArgMin(pool, cost);
    var reals := Reals(pool);
    if cheapest.kind == "real" || reals == [] then cheapest
    else
      var cheapestReal := ArgMin(reals, cost);
      if cost(cheapestReal) <= MarkedUp(cost(cheapest), policy.balancedPriceTolerance) then cheapestReal else cheapest
  }

  function Pick(pool: seq<Provider>, quality: Quality, policy: GatewayRoutingPolicy, cost: Cost):
    Result<Provider, RouteError>
    requires pool != []
  {
    match quality
    case HighQuality =>
      if policy.highQualityStrategy == LowestCost || Reals(pool) == [] then Ok(ArgMin(pool, cost))
      else PickHighest(Reals(pool), cost)
    case Cheap => Ok(ArgMin(pool, cost))
    case Balanced => Ok(PickBalanced(pool, policy, cost))
  }

  // ---------- router.py: select_provider ----------

  /** What is left of `select_provider` once the guardrails have been applied. */
  function Choose(pool: seq<Provider>, c: Constraints, policy: GatewayRoutingPolicy, cost: Cost):
    Result<Provider, RouteError>
  {
    if policy.budgetMode == Hard && Filter(pool, Affordable(c, cost)) == [] then Err(OverBudget)
    else if pool == [] then Err(NoEligibleProvider)
    else
      var affordable := BudgetPool(pool, c, cost);
      if policy.latencyMode == Hard && Filter(affordable, Fast(c)) == [] then Err(OverLatency)
      else Pick(LatencyPool(affordable, c), c.quality, policy, cost)
  }

  function Select(providers: seq<Provider>, c: Constraints, health: Health, required: set<string>,
                  policy: GatewayRoutingPolicy, cost: Cost): Result<Provider, RouteError>
  {
    Choose(Filter(providers, IsEligible(c, health, required)), c, policy, cost)
  }

  method SelectProvider(providers: seq<Provider>, contents: seq<string>, c: Constraints, health: Health,
                        required: set<string>, maybePolicy: Option<GatewayRoutingPolicy>)
    returns (r: Result<Provider, RouteError>, candidates: seq<(string, real)>)
    ensures
      var policy := if maybePolicy.Some? then maybePolicy.value else DEFAULT_GATEWAY_POLICY;
      r == Select(providers, c, health, required, policy, EstimatedCost(contents, policy))
    ensures
      var policy := if maybePolicy.Some? then maybePolicy.value else DEFAULT_GATEWAY_POLICY;
      && |candidates| == |providers|
      && forall i :: 0 <= i < |providers| ==>
           candidates[i] == (providers[i].name, EstimatedCost(contents, policy)(providers[i]))
  {
    var policy := if maybePolicy.Some? then maybePolicy.value else DEFAULT_GATEWAY_POLICY;
    var pool := providers;
    if c.privacyHigh {
      pool := Filter(pool, IsInternal());
    }
    if required != {} {
      pool := Filter(pool, SupportsAll(required));
    }
    pool := Filter(pool, IsHealthy(health));
    StagedFilters(providers, c, health, required);
    var cost := EstimatedCost(contents, policy);
    r := ChooseFrom(pool, c, policy, cost);
    candidates := seq(|providers|, i requires 0 <= i < |providers| => (providers[i].name, cost(providers[i])));
  }

  method ChooseFrom(eligible: seq<Provider>, c: Constraints, policy: GatewayRoutingPolicy, cost: Cost)
    returns (r: Result<Provider, RouteError>)
    ensures r == Choose(eligible, c, policy, cost)
  {
    var pool := eligible;
    var affordable := Filter(pool, Affordable(c, cost));
    if affordable != [] {
      pool := affordable;
    } else if policy.budgetMode == Hard {
      return Err(OverBudget);
    }
    if pool == [] {
      return Err(NoEligibleProvider);
    }

    var latencyPool := Filter(pool, Fast(c));
    if latencyPool == [] {
      if policy.latencyMode == Hard {
        return Err(OverLatency);
      }
      latencyPool := pool;
    }
    r := Pick(latencyPool, c.quality, policy, cost);
  }

  /** The source filters by privacy, then capability, then health; together they keep the eligible providers. */
  lemma {:induction false} StagedFilters(providers: seq<Provider>, c: Constraints, health: Health,
                                         required: set<string>)
    ensures
      var afterPrivacy := if c.privacyHigh then Filter(providers, IsInternal()) else providers;
      var afterCapabilities := if required != {} then Filter(afterPrivacy, SupportsAll(required)) else afterPrivacy;
      Filter(afterCapabilities, IsHealthy(health)) == Filter(providers, IsEligible(c, health, required))
  {
    var allowed := (p: Provider) => c.privacyHigh ==> p.privacy == "internal";
    var capable := (p: Provider) => allowed(p) && Supports(p, required);
    var afterPrivacy := if c.privacyHigh then Filter(providers, IsInternal()) else providers;
    if c.privacyHigh {
      FilterSame(providers, allowed, IsInternal());
    } else {
      FilterAll(providers, allowed);
    }
    if required == {} {
      FilterAll(afterPrivacy, SupportsAll(required));
    }
    FilterSplit(providers, SupportsAll(required), allowed, capable);
    FilterSplit(providers, IsHealthy(health), capable, IsEligible(c, health, required));
  }
}
