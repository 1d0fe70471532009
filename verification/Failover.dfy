/** The failover loop around `Retry`: one deadline, one retry count, a different provider every round. */
module Failover {
  import opened Wrappers
  import opened Lists
  import opened Retry
  import B = Breaker
  import R = Router
  import T = RouterTheorems

  /** The parts of a request that steer the loop; `auto` is false when the client named a provider. */
  datatype Request = Request(auto: bool, constraints: R.Constraints, required: set<string>,
                             policy: R.GatewayRoutingPolicy, cost: R.Cost)

  datatype Verdict =
    | Completed(provider: R.Provider, retries: nat)
    | ProviderTimeout
    | BadGateway

  function Untried(tried: seq<string>): R.Provider -> bool { (p: R.Provider) => p.name !in tried }

  function Names(providers: seq<R.Provider>): set<string> {
    set p | p in providers :: p.name
  }

  function TriedNames(tried: seq<string>): set<string> {
    set name | name in tried
  }

  /** Does the error end the whole request, or count as a timeout when nothing is left to try? */
  predicate BudgetExhausted(out: Outcome, deadline: real, now: real) {
    out.BudgetSpent? || now >= deadline
  }

  predicate TimedOut(out: Outcome, deadline: real, now: real) {
    BudgetExhausted(out, deadline, now) || (out.Failed? && out.error == Timeout)
  }

  function GiveUp(out: Outcome, deadline: real, now: real): Verdict {
    if TimedOut(out, deadline, now) then ProviderTimeout else BadGateway
  }

  /** The next provider to try, if the request may fail over and routing finds one. */
  function Fallback(providers: seq<R.Provider>, req: Request, tried: seq<string>, bs: B.Breakers): Option<R.Provider> {
    if !req.auto then None
    else
      var routed := R.Select(Filter(providers, Untried(tried)), req.constraints, B.HealthSnapshot(bs),
                             req.required, req.policy, req.cost);
      if routed.Ok? then Some(routed.value) else None
  }

  lemma {:induction false} FallbackIsUntried(providers: seq<R.Provider>, req: Request, tried: seq<string>,
                                             bs: B.Breakers)
    ensures Fallback(providers, req, tried, bs).Some? ==>
              var p := Fallback(providers, req, tried, bs).value; p in providers && p.name !in tried
  {
    var next := Fallback(providers, req, tried, bs);
    if next.Some? {
      var remaining := Filter(providers, Untried(tried));
      T.SelectPicks(remaining, req.constraints, B.HealthSnapshot(bs), req.required, req.policy, req.cost, next.value);
      T.ChosenContends(remaining, req.constraints, B.HealthSnapshot(bs), req.required, req.policy, req.cost,
          next.value);
      FilterMember(providers, Untried(tried), next.value);
    }
  }

  /** How the loop finds its next provider, given the names tried and the breakers. */
  type Picker = (seq<string>, B.Breakers) -> Option<R.Provider>

  function Routing(providers: seq<R.Provider>, req: Request): Picker {
    (tried: seq<string>, bs: B.Breakers) => Fallback(providers, req, tried, bs)
  }

  ghost predicate PicksUntried(pick: Picker, providers: seq<R.Provider>) {
    forall tried, bs :: pick(tried, bs).Some? ==>
      pick(tried, bs).value in providers && pick(tried, bs).value.name !in tried
  }

  lemma {:induction false} RoutingPicksUntried(providers: seq<R.Provider>, req: Request)
    ensures PicksUntried(Routing(providers, req), providers)
    ensures !req.auto ==> forall tried, bs :: Routing(providers, req)(tried, bs).None?
  {
    forall tried, bs | Routing(providers, req)(tried, bs).Some?
      ensures Routing(providers, req)(tried, bs).value in providers
      ensures Routing(providers, req)(tried, bs).value.name !in tried
    {
      FallbackIsUntried(providers, req, tried, bs);
    }
  }

  // ---------- the loop, as a function ----------

  datatype Turn = Done(verdict: Verdict) | TryNext(provider: R.Provider, failedRetries: nat)

  /** One round: call the chosen provider, then answer, give up, or name the next one. */
  function Round(pick: Picker, mode: Mode, cfg: Reliability, s: B.Settings, deadline: real, script: Script,
                 chosen: R.Provider, nowTried: seq<string>, failedRetries: nat, w: World): (World, Turn)
  {
    var (w1, out) := Resilient(chosen.name, mode, cfg, s, Some(deadline), script, w);
    (w1, Concluded(pick, deadline, chosen, nowTried, failedRetries, w1, out))
  }

  /** What the round comes to, once the call is over. */
  function Concluded(pick: Picker, deadline: real, chosen: R.Provider, nowTried: seq<string>, failedRetries: nat,
                     w1: World, out: Outcome): Turn
  {
    if out.Served? then Done(Completed(chosen, out.retries + failedRetries))
    else if BudgetExhausted(out, deadline, w1.now) then Done(ProviderTimeout)
    else
      var next := pick(nowTried, w1.breakers);
      if next.None? then Done(GiveUp(out, deadline, w1.now)) else TryNext(next.value, failedRetries + Retries(out))
  }

  datatype Ended = Ended(world: World, verdict: Verdict, tried: seq<string>)

  function Rounds(providers: seq<R.Provider>, pick: Picker, mode: Mode, cfg: Reliability, s: B.Settings, deadline: real,
                  script: Script, chosen: R.Provider, tried: seq<string>, failedRetries: nat, w: World): Ended
    requires PicksUntried(pick, providers)
    requires chosen in providers && chosen.name !in tried
    decreases |Names(providers) - TriedNames(tried)|
  {
    var nowTried := tried + [chosen.name];
    var (w1, turn) := Round(pick, mode, cfg, s, deadline, script, chosen, nowTried, failedRetries, w);
    match turn
    case Done(verdict) => Ended(w1, verdict, nowTried)
    case TryNext(next, retries) =>
      FewerUntried(providers, tried, chosen);
      Rounds(providers, pick, mode, cfg, s, deadline, script, next, nowTried, retries, w1)
  }

  lemma {:induction false} FewerUntried(providers: seq<R.Provider>, tried: seq<string>, chosen: R.Provider)
    requires chosen in providers && chosen.name !in tried
    ensures |Names(providers) - TriedNames(tried + [chosen.name])| < |Names(providers) - TriedNames(tried)|
  {
    var before := Names(providers) - TriedNames(tried);
    assert chosen.name in before;
    assert Names(providers) - TriedNames(tried + [chosen.name]) == before - {chosen.name};
  }

  // ---------- main.py: _call_non_stream and the opening half of _stream_response ----------

  method ServeRequest(providers: seq<R.Provider>, req: Request, mode: Mode, cfg: Reliability, deadline: real,
                      first: R.Provider, net: Network, breaker: B.CircuitBreakerRegistry)
    returns (verdict: Verdict, tried: seq<string>)
    requires first in providers
    requires breaker.Valid() && net !in breaker.Repr
    modifies net, breaker.Repr
    ensures breaker.Valid() && fresh(breaker.Repr - old(breaker.Repr))
    ensures PicksUntried(Routing(providers, req), providers)
    ensures Ended(View(net, breaker), verdict, tried) ==
            Rounds(providers, Routing(providers, req), mode, cfg, breaker.settings, deadline, net.script, first, [], 0,
                   old(View(net, breaker)))
  {
    RoutingPicksUntried(providers, req);
    tried := [];
    var failedRetries: nat := 0;
    var chosen := first;
    ghost var start := View(net, breaker);
    ghost var pick := Routing(providers, req);
    while true
      invariant breaker.Valid() && fresh(breaker.Repr - old(breaker.Repr)) && net !in breaker.Repr
      invariant chosen in providers && chosen.name !in tried
      invariant Rounds(providers, pick, mode, cfg, breaker.settings, deadline, net.script, chosen, tried, failedRetries,
                       View(net, breaker))
                == Rounds(providers, pick, mode, cfg, breaker.settings, deadline, net.script, first, [], 0, start)
      decreases |Names(providers) - TriedNames(tried)|
    {
      FewerUntried(providers, tried, chosen);
      tried := tried + [chosen.name];
      var turn := RunRound(providers, req, mode, cfg, deadline, chosen, tried, failedRetries, net, breaker);
      if turn.Done? {
        return turn.verdict, tried;
      }
      chosen, failedRetries := turn.provider, turn.failedRetries;
    }
  }

  /** The loop's body. */
  method RunRound(providers: seq<R.Provider>, req: Request, mode: Mode, cfg: Reliability, deadline: real,
                  chosen: R.Provider, tried: seq<string>, failedRetries: nat, net: Network,
                  breaker: B.CircuitBreakerRegistry)
    returns (turn: Turn)
    requires breaker.Valid() && net !in breaker.Repr
    modifies net, breaker.Repr
    ensures breaker.Valid() && fresh(breaker.Repr - old(breaker.Repr))
    ensures (View(net, breaker), turn) ==
            Round(Routing(providers, req), mode, cfg, breaker.settings, deadline, net.script, chosen, tried,
                failedRetries,
                  old(View(net, breaker)))
  {
    var out := CallOnce(chosen.name, mode, cfg, deadline, net, breaker);
    turn := Conclude(providers, req, deadline, chosen, tried, failedRetries, out, net, breaker);
  }

  method Conclude(providers: seq<R.Provider>, req: Request, deadline: real, chosen: R.Provider, tried: seq<string>,
                  failedRetries: nat, out: Outcome, net: Network, breaker: B.CircuitBreakerRegistry)
    returns (turn: Turn)
    requires breaker.Valid()
    ensures turn == Concluded(Routing(providers, req), deadline, chosen, tried, failedRetries, View(net, breaker), out)
  {
    if out.Served? {
      return Done(Completed(chosen, out.retries + failedRetries));
    }
    var retries := failedRetries + Retries(out);
    if BudgetExhausted(out, deadline, net.now) {
      return Done(ProviderTimeout);
    }
    var next := NextProvider(providers, req, tried, breaker);
    assert next == Routing(providers, req)(tried, breaker.View());
    turn := if next.None? then Done(GiveUp(out, deadline, net.now)) else TryNext(next.value, retries);
  }

  method CallOnce(name: string, mode: Mode, cfg: Reliability, deadline: real, net: Network,
                  breaker: B.CircuitBreakerRegistry)
    returns (out: Outcome)
    requires breaker.Valid() && net !in breaker.Repr
    modifies net, breaker.Repr
    ensures breaker.Valid() && fresh(breaker.Repr - old(breaker.Repr))
    ensures (View(net, breaker), out) ==
            Resilient(name, mode, cfg, breaker.settings, Some(deadline), net.script, old(View(net, breaker)))
  {
    if mode == NonStream {
      out := CallProviderWithResilience(name, cfg, Some(deadline), net, breaker);
    } else {
      out := OpenProviderStreamWithResilience(name, cfg, Some(deadline), net, breaker);
    }
  }

  method NextProvider(providers: seq<R.Provider>, req: Request, tried: seq<string>, breaker: B.CircuitBreakerRegistry)
    returns (next: Option<R.Provider>)
    requires breaker.Valid()
    ensures next == Fallback(providers, req, tried, breaker.View())
  {
    var remaining := if req.auto then Filter(providers, Untried(tried)) else [];
    if remaining == [] {
      assert R.Select([], req.constraints, B.HealthSnapshot(breaker.View()), req.required, req.policy, req.cost).Err?;
      return None;
    }
    var health := breaker.ReadHealth();
    var routed := R.Select(remaining, req.constraints, health, req.required, req.policy, req.cost);
    next := if routed.Ok? then Some(routed.value) else None;
  }
}
