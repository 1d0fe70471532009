/** The per-provider circuit breaker and the registry that owns one per provider name. */
module Breaker {
  import opened Wrappers
  import opened Lists

  datatype State = Closed | Open | HalfOpen

  datatype Settings = Settings(failureThreshold: int, windowSeconds: real, cooldownSeconds: real)

  datatype Snapshot = Snapshot(state: State, failures: seq<real>, openedAt: Option<real>, probeInFlight: bool)

  const FRESH := Snapshot(Closed, [], None, false)

  function NewerThan(cutoff: real): real -> bool { (t: real) => t > cutoff }

  // ---------- the transitions, as functions of the breaker's fields ----------

  function Allow(b: Snapshot, s: Settings, now: real): (Snapshot, bool) {
    match b.state
    case Closed => (b, true)
    case Open =>
      if b.openedAt.Some? && now - b.openedAt.value >= s.cooldownSeconds
      then (b.(state := HalfOpen, probeInFlight := true), true)
      else (b, false)
    case HalfOpen => (b.(probeInFlight := true), !b.probeInFlight)
  }

  function Failure(b: Snapshot, s: Settings, now: real): Snapshot {
    if b.state == HalfOpen then b.(state := Open, openedAt := Some(now), probeInFlight := false)
    else
      var recent := Filter(b.failures + [now], NewerThan(now - s.windowSeconds));
      if |recent| >= s.failureThreshold then b.(failures := recent, state := Open, openedAt := Some(now))
      else b.(failures := recent)
  }

  function Cancelled(b: Snapshot, now: real): Snapshot {
    if b.state == HalfOpen then b.(state := Open, openedAt := Some(now), probeInFlight := false) else b
  }

  // ---------- circuit_breaker.py ----------

  class ProviderBreaker {
    const settings: Settings
    var state: State
    var failures: seq<real>
    var openedAt: Option<real>
    var probeInFlight: bool

    function View(): Snapshot
      reads this
    {
      Snapshot(state, failures, openedAt, probeInFlight)
    }

    constructor (settings: Settings)
      ensures this.settings == settings && View() == FRESH
    {
      this.settings := settings;
      state, failures, openedAt, probeInFlight := Closed, [], None, false;
    }

    method PruneOldFailures(now: real)
      modifies this`failures
      ensures failures == Filter(old(failures), NewerThan(now - settings.windowSeconds))
      ensures forall t :: t in failures <==> t in old(failures) && t > now - settings.windowSeconds
    {
      var cutoff := now - settings.windowSeconds;
      failures := Filter(failures, NewerThan(cutoff));
      forall t ensures t in failures <==> t in old(failures) && t > cutoff {
        FilterMember(old(failures), NewerThan(cutoff), t);
      }
    }

    method AllowRequest(now: real) returns (allowed: bool)
      modifies this
      ensures (View(), allowed) == Allow(old(View()), settings, now)
    {
      if state == Closed {
        return true;
      }
      if state == Open {
        if openedAt.Some? && now - openedAt.value >= settings.cooldownSeconds {
          state := HalfOpen;
          probeInFlight := false;
        } else {
          return false;
        }
      }
      if probeInFlight {
        return false;
      }
      probeInFlight := true;
      return true;
    }

    method RecordSuccess()
      modifies this
      ensures View() == FRESH
    {
      state := Closed;
      failures := [];
      openedAt := None;
      probeInFlight := false;
    }

    method RecordFailure(now: real)
      modifies this
      ensures View() == Failure(old(View()), settings, now)
    {
      if state == HalfOpen {
        state := Open;
        openedAt := Some(now);
        probeInFlight := false;
        return;
      }
      failures := failures + [now];
      PruneOldFailures(now);
      if |failures| >= settings.failureThreshold {
        state := Open;
        openedAt := Some(now);
      }
    }

    method RecordCancelled(now: real)
      modifies this
      ensures View() == Cancelled(old(View()), now)
    {
      if state == HalfOpen {
        state := Open;
        openedAt := Some(now);
        probeInFlight := false;
      }
    }
  }

  // ---------- the registry ----------

  type Breakers = map<string, Snapshot>

  /** A breaker is created, closed, the first time its provider is named. */
  function Of(bs: Breakers, name: string): Snapshot {
    if name in bs then bs[name] else FRESH
  }

  function HealthSnapshot(bs: Breakers): map<string, string> {
    map name | name in bs :: if bs[name].state == Open then "down" else "healthy"
  }

  lemma {:induction false} Overwritten(bs: Breakers, name: string, first: Snapshot, last: Snapshot)
    ensures bs[name := first][name := last] == bs[name := last]
  {
  }

  class CircuitBreakerRegistry {
    const settings: Settings
    var breakers: map<string, ProviderBreaker>
    ghost var Repr: set<object>

    ghost predicate Valid()
      reads this, Repr
    {
      && this in Repr
      && (forall name :: name in breakers ==>
           breakers[name] in Repr && (breakers[name] as object) != this && breakers[name].settings == settings)
      && (forall a, b :: a in breakers && b in breakers && a != b ==> breakers[a] != breakers[b])
    }

    ghost function View(): Breakers
      requires Valid()
      reads this, Repr
    {
      map name | name in breakers :: breakers[name].View()
    }

    constructor (settings: Settings)
      ensures Valid() && fresh(Repr) && this.settings == settings && View() == map[]
    {
      this.settings := settings;
      breakers := map[];
      Repr := {this};
    }

    method Get(name: string) returns (b: ProviderBreaker)
      requires Valid()
      modifies this
      ensures Valid() && fresh(Repr - old(Repr))
      ensures name in breakers && breakers[name] == b
      ensures View() == old(View())[name := Of(old(View()), name)]
    {
      if name !in breakers {
        b := new ProviderBreaker(settings);
        breakers := breakers[name := b];
        Repr := Repr + {b};
      }
      b := breakers[name];
    }

    /** If only the named breaker has changed, so has only its entry in the view. */
    twostate lemma OneChanged(name: string)
      requires old(Valid()) && Valid() && breakers == old(breakers) && name in breakers
      requires forall other :: other in breakers && other != name ==> unchanged(breakers[other])
      ensures View() == old(View())[name := breakers[name].View()]
    {
    }

    method AllowRequest(name: string, now: real) returns (allowed: bool)
      requires Valid()
      modifies Repr
      ensures Valid() && fresh(Repr - old(Repr))
      ensures var (b, ok) := Allow(Of(old(View()), name), settings, now);
              View() == old(View())[name := b] && allowed == ok
    {
      var b := Get(name);
      assert b.View() == View()[name] == Of(old(View()), name);
      label got:
      allowed := b.AllowRequest(now);
      OneChanged@got(name);
      Overwritten(old(View()), name, Of(old(View()), name), b.View());
    }

    method RecordSuccess(name: string)
      requires Valid()
      modifies Repr
      ensures Valid() && fresh(Repr - old(Repr))
      ensures View() == old(View())[name := FRESH]
    {
      var b := Get(name);
      label got:
      b.RecordSuccess();
      OneChanged@got(name);
      Overwritten(old(View()), name, Of(old(View()), name), b.View());
    }

    method RecordFailure(name: string, now: real)
      requires Valid()
      modifies Repr
      ensures Valid() && fresh(Repr - old(Repr))
      ensures View() == old(View())[name := Failure(Of(old(View()), name), settings, now)]
    {
      var b := Get(name);
      assert b.View() == View()[name] == Of(old(View()), name);
      label got:
      b.RecordFailure(now);
      OneChanged@got(name);
      Overwritten(old(View()), name, Of(old(View()), name), b.View());
    }

    method RecordCancelled(name: string, now: real)
      requires Valid()
      modifies Repr
      ensures Valid() && fresh(Repr - old(Repr))
      ensures View() == old(View())[name := Cancelled(Of(old(View()), name), now)]
    {
      var b := Get(name);
      assert b.View() == View()[name] == Of(old(View()), name);
      label got:
      b.RecordCancelled(now);
      OneChanged@got(name);
      Overwritten(old(View()), name, Of(old(View()), name), b.View());
    }

    method ReadHealth() returns (health: map<string, string>)
      requires Valid()
      ensures health == HealthSnapshot(View())
    {
      health := map[];
      var todo := breakers.Keys;
      while todo != {}
        invariant todo <= breakers.Keys && health.Keys == breakers.Keys - todo
        invariant forall name :: name in health ==> health[name] == HealthSnapshot(View())[name]
        decreases todo
      {
        var name :| name in todo;
        health := health[name := if breakers[name].state == Open then "down" else "healthy"];
        todo := todo - {name};
      }
    }
  }
}
