/** Runs of the gateway around its answer cache: who gets a stored answer, and whose answer it is. */
module CacheRuns {
  import opened Wrappers
  import opened CacheKey
  import opened Whitespace
  import PolicyProtocol
  import PolicyReaders
  import PolicyModel
  import R = Router

  // ---------- models.py and main.py: which requests use the cache, and under which scope ----------

  /** `text` is there if the content is a string; `fields` are the fields of the message that are set. */
  datatype ChatMessage = ChatMessage(role: string, text: Option<string>, fields: set<string>, hasToolCalls: bool)

  datatype ChatRequest = ChatRequest(
    model: string,
    messages: seq<ChatMessage>,
    payloadFields: set<string>,
    required: set<string>,
    hasTools: bool,
    stream: bool,
    noStore: bool,
    hasSession: bool,
    privacyHigh: bool,
    quality: R.Quality,
    cost: Number,
    latencyMs: nat)

  predicate IsPlain(m: ChatMessage) {
    m.fields <= {"role", "content"} && m.role != "tool" && !m.hasToolCalls && m.text.Some?
  }

  predicate BypassCache(req: ChatRequest) {
    || req.noStore || req.hasSession || req.stream || req.hasTools
    || !(req.payloadFields <= {"model", "messages", "stream"})
    || exists m :: m in req.messages && !IsPlain(m)
  }

  function PlainMessages(messages: seq<ChatMessage>): seq<Message>
    requires forall m :: m in messages ==> IsPlain(m)
  {
    if messages == [] then []
    else
      assert IsPlain(messages[0]);
      [Message(messages[0].role, messages[0].text.value)] + PlainMessages(messages[1..])
  }

  datatype ForcedError = UnknownProvider | PrivacyForbidsExternal | LacksCapabilities

  function FindProvider(providers: seq<R.Provider>, name: string): (r: Option<R.Provider>)
    ensures r.Some? ==> r.value.name == name
  {
    if providers == [] then None
    else if providers[0].name == name then Some(providers[0])
    else FindProvider(providers[1..], name)
  }

  function Forced(providers: seq<R.Provider>, req: ChatRequest): Result<Option<R.Provider>, ForcedError> {
    if req.model == "auto" then Ok(None)
    else
      var forced := FindProvider(providers, req.model);
      if forced.None? then Err(UnknownProvider)
      else if req.privacyHigh && forced.value.privacy == "external" then Err(PrivacyForbidsExternal)
      else if R.MissingCapabilities(forced.value, req.required) != {} then Err(LacksCapabilities)
      else Ok(forced)
  }

  function Scope(forced: Option<R.Provider>): string {
    if forced.Some? then forced.value.name else "auto"
  }

  function KeyFields(req: ChatRequest, scope: string, version: nat): Fields
    requires !BypassCache(req)
  {
    Fields(PlainMessages(req.messages), req.privacyHigh, scope, req.quality, req.cost, req.latencyMs, version)
  }

  // ---------- cache.py: the lazily reconnecting client ----------

  datatype Client = Client(connected: bool, lastAttempt: Option<real>)

  /**
   * Whether Redis accepts a connection, whether the command on it raises, and whether a SET that raises was applied.
   */
  datatype Link = Link(reachable: bool, raises: bool, applied: bool)

  predicate Attempts(c: Client, now: real, backoff: real) {
    !c.connected && (c.lastAttempt.Some? ==> now - c.lastAttempt.value >= backoff)
  }

  function Connected(c: Client, now: real, backoff: real, link: Link): Client {
    if Attempts(c, now, backoff) then Client(link.reachable, Some(now)) else c
  }

  function AfterCommand(c: Client, link: Link): Client {
    if c.connected && link.raises then c.(connected := false) else c
  }

  datatype CachedAnswer = CachedAnswer(answer: string, inputTokens: nat, outputTokens: nat)

  /** A stored text that does not parse is as good as none. */
  datatype Entry = Intact(value: CachedAnswer) | Garbled

  type Store = map<string, Entry>

  function Fetch(c: Client, store: Store, key: string, link: Link): Option<CachedAnswer> {
    if c.connected && !link.raises && key in store && store[key].Intact? then Some(store[key].value) else None
  }

  function Stored(c: Client, store: Store, key: string, value: CachedAnswer, link: Link): Store {
    if c.connected && (!link.raises || link.applied) then store[key := Intact(value)] else store
  }

  class Cache {
    const backoff: real
    var connected: bool
    var lastAttempt: Option<real>
    var store: Store          // what Redis holds

    function View(): Client
      reads this
    {
      Client(connected, lastAttempt)
    }

    constructor (backoff: real, now: real, link: Link)
      ensures this.backoff == backoff && store == map[]
      ensures View() == Connected(Client(false, None), now, backoff, link)
    {
      this.backoff := backoff;
      store := map[];
      connected, lastAttempt := link.reachable, Some(now);
    }

    method GetClient(now: real, link: Link) returns (available: bool)
      modifies this
      ensures View() == Connected(old(View()), now, backoff, link) && store == old(store)
      ensures available == connected
    {
      if connected {
        return true;
      }
      if lastAttempt.Some? && now - lastAttempt.value < backoff {
        return false;
      }
      lastAttempt := Some(now);
      connected := link.reachable;
      return connected;
    }

    method Get(key: string, now: real, link: Link) returns (value: Option<CachedAnswer>)
      modifies this
      ensures
        var c := Connected(old(View()), now, backoff, link);
        View() == AfterCommand(c, link) && value == Fetch(c, old(store), key, link) && store == old(store)
    {
      var available := GetClient(now, link);
      if !available {
        return None;
      }
      if link.raises {
        connected := false;
        return None;
      }
      if key !in store {
        return None;
      }
      return match store[key]
        case Intact(stored) => Some(stored)
        case Garbled => None;
    }

    method Set(key: string, value: CachedAnswer, now: real, link: Link)
      modifies this
      ensures
        var c := Connected(old(View()), now, backoff, link);
        View() == AfterCommand(c, link) && store == Stored(c, old(store), key, value, link)
    {
      var available := GetClient(now, link);
      if !available {
        return;
      }
      if !link.raises || link.applied {
        store := store[key := Intact(value)];
      }
      if link.raises {
        connected := false;
      }
    }
  }

  // ---------- runs of requests ----------

  /** A request that is being answered: its cache scope, the policy it started under, and its first-choice provider. */
  datatype Flight = Flight(req: ChatRequest, scope: string, policy: PolicyReaders.GatewaySnapshot, first: string)

  /** A provider's answer, with the providers tried for it in order. */
  datatype Delivery = Delivery(flight: Flight, tried: seq<string>, answer: CachedAnswer)

  datatype Setup = Setup(providers: seq<R.Provider>, digest: string -> string, backoff: real)

  /** `deliveries` is a record of all answers so far, which the gateway itself does not keep. */
  datatype Gateway = Gateway(
    policy: PolicyReaders.GatewaySnapshot,
    client: Client,
    store: Store,
    flights: map<nat, Flight>,
    deliveries: seq<Delivery>)

  function Key(setup: Setup, f: Flight): string
    requires !BypassCache(f.req)
  {
    "pg:" + setup.digest(KeyText(KeyFields(f.req, f.scope, f.policy.version)))
  }

  datatype Event =
    | Arrive(id: nat, req: ChatRequest, routed: string, now: real, link: Link)   // `routed`: the router's choice
    | Deliver(id: nat, tried: seq<string>, answer: CachedAnswer, now: real, link: Link)
    | GiveUp(id: nat)
    | LoadPolicy(policy: PolicyReaders.GatewaySnapshot)
    | Evict(key: string)
    | Corrupt(key: string)

  /** Delivery comes from the failover loop, which tries the first choice first and answers with the last name tried. */
  ghost predicate Enabled(setup: Setup, g: Gateway, e: Event) {
    match e
    case Arrive(id, req, _, _, _) => id !in g.flights
    case Deliver(id, tried, _, _, _) => id in g.flights && tried != [] && tried[0] == g.flights[id].first
    case GiveUp(id) => id in g.flights
    case _ => true
  }

  function Begun(setup: Setup, policy: PolicyReaders.GatewaySnapshot, req: ChatRequest,
                 routed: string): Option<Flight> {
    var forced := Forced(setup.providers, req);
    if forced.Err? then None
    else Some(Flight(req, Scope(forced.value), policy, if forced.value.Some? then forced.value.value.name else routed))
  }

  /** The answer served from the cache, if the request is, and the gateway after the event. */
  ghost function Effect(setup: Setup, g: Gateway, e: Event): (Gateway, Option<CachedAnswer>)
    requires Enabled(setup, g, e)
  {
    match e
    case Arrive(id, req, routed, now, link) =>
      var flight := Begun(setup, g.policy, req, routed);
      if flight.None? then (g, None)
      else if BypassCache(req) then (g.(flights := g.flights[id := flight.value]), None)
      else
        var c := Connected(g.client, now, setup.backoff, link);
        var found := Fetch(c, g.store, Key(setup, flight.value), link);
        var looked := g.(client := AfterCommand(c, link));
        if found.Some? then (looked, found) else (looked.(flights := g.flights[id := flight.value]), None)
    case Deliver(id, tried, answer, now, link) =>
      var flight := g.flights[id];
      var done := g.(flights := g.flights - {id}, deliveries := g.deliveries + [Delivery(flight, tried, answer)]);
      if !BypassCache(flight.req) && answer.answer != "" && |tried| == 1 then
        var c := Connected(g.client, now, setup.backoff, link);
        (done.(client := AfterCommand(c, link), store := Stored(c, g.store, Key(setup, flight), answer, link)), None)
      else (done, None)
    case GiveUp(id) => (g.(flights := g.flights - {id}), None)
    case LoadPolicy(policy) => (g.(policy := policy), None)
    case Evict(key) => (g.(store := g.store - {key}), None)
    case Corrupt(key) => (g.(store := g.store[key := Garbled]), None)
  }

  /** An answer fit to be stored under this key. */
  ghost predicate Backs(setup: Setup, d: Delivery, key: string, value: CachedAnswer) {
    && !BypassCache(d.flight.req) && Key(setup, d.flight) == key
    && d.answer == value && value.answer != ""
    && d.tried == [d.flight.first]
    && d.flight.scope == d.flight.req.model
  }

  ghost predicate Backed(setup: Setup, deliveries: seq<Delivery>, key: string, value: CachedAnswer) {
    exists d :: d in deliveries && Backs(setup, d, key, value)
  }

  ghost predicate StoreIsBacked(setup: Setup, g: Gateway) {
    && (forall id :: id in g.flights ==> g.flights[id].scope == g.flights[id].req.model)
    && (forall key :: key in g.store && g.store[key].Intact? ==> Backed(setup, g.deliveries, key, g.store[key].value))
  }

  lemma {:induction false} BackedForGood(setup: Setup, deliveries: seq<Delivery>, d: Delivery, key: string,
                                         value: CachedAnswer)
    requires Backed(setup, deliveries, key, value)
    ensures Backed(setup, deliveries + [d], key, value)
  {
    var b :| b in deliveries && Backs(setup, b, key, value);
    assert b in deliveries + [d];
  }

  lemma {:induction false} EffectKeepsStoreBacked(setup: Setup, g: Gateway, e: Event)
    requires StoreIsBacked(setup, g) && Enabled(setup, g, e)
    ensures StoreIsBacked(setup, Effect(setup, g, e).0)
  {
    if e.Deliver? {
      DeliverKeepsStoreBacked(setup, g, e);
    } else if e.Arrive? {
      ArriveKeepsStore(setup, g, e);
    }
  }

  lemma {:induction false} ArriveKeepsStore(setup: Setup, g: Gateway, e: Event)
    requires Enabled(setup, g, e) && e.Arrive?
    ensures
      var after := Effect(setup, g, e).0;
      && after.store == g.store && after.deliveries == g.deliveries
      && forall id :: id in after.flights ==>
           (id in g.flights && after.flights[id] == g.flights[id])
               || after.flights[id].scope == after.flights[id].req.model
  {
  }

  lemma {:induction false} DeliverKeepsStoreBacked(setup: Setup, g: Gateway, e: Event)
    requires StoreIsBacked(setup, g) && Enabled(setup, g, e) && e.Deliver?
    ensures StoreIsBacked(setup, Effect(setup, g, e).0)
  {
    var after := Effect(setup, g, e).0;
    var d := Delivery(g.flights[e.id], e.tried, e.answer);
    assert after.deliveries == g.deliveries + [d];
    forall key | key in after.store && after.store[key].Intact?
      ensures Backed(setup, after.deliveries, key, after.store[key].value)
    {
      if key in g.store && g.store[key] == after.store[key] {
        BackedForGood(setup, g.deliveries, d, key, g.store[key].value);
      } else {
        assert Backs(setup, d, key, after.store[key].value);
        assert d in after.deliveries;
      }
    }
  }

  ghost predicate IsRun(setup: Setup, states: seq<Gateway>, events: seq<Event>) {
    && |states| == |events| + 1
    && states[0].store == map[] && states[0].flights == map[]
    && forall i :: 0 <= i < |events| ==>
         Enabled(setup, states[i], events[i]) && states[i + 1] == Effect(setup, states[i], events[i]).0
  }

  lemma {:induction false} RunsKeepStoreBacked(setup: Setup, states: seq<Gateway>, events: seq<Event>, n: nat)
    requires IsRun(setup, states, events) && n < |states|
    ensures StoreIsBacked(setup, states[n])
  {
    if n > 0 {
      RunsKeepStoreBacked(setup, states, events, n - 1);
      EffectKeepsStoreBacked(setup, states[n - 1], events[n - 1]);
    }
  }

  ghost predicate CollisionFree(digest: string -> string) {
    forall a, b :: digest(a) == digest(b) ==> a == b
  }

  /** The same role and, up to surrounding white space, the same text. */
  ghost predicate SameMessage(a: ChatMessage, b: ChatMessage) {
    && a.role == b.role
    && a.text.Some? && b.text.Some? && PyStrip(a.text.value) == PyStrip(b.text.value)
  }

  /** The two requests are the same for routing and, up to surrounding white space, for the provider. */
  ghost predicate Alike(a: ChatRequest, b: ChatRequest) {
    && !BypassCache(a) && !BypassCache(b)
    && |a.messages| == |b.messages|
    && (forall i :: 0 <= i < |a.messages| ==> SameMessage(a.messages[i], b.messages[i]))
    && a.model == b.model && a.privacyHigh == b.privacyHigh && a.quality == b.quality
    && a.cost == b.cost && a.latencyMs == b.latencyMs
  }

  /**
   * Every answer served from the cache was given to a cacheable request alike, under the same policy version, by the
   * provider chosen first, without failover, and was not empty.
   */
  lemma {:induction false} HitsAreSound(setup: Setup, states: seq<Gateway>, events: seq<Event>, n: nat)
    returns (d: Delivery)
    requires IsRun(setup, states, events) && n < |events| && events[n].Arrive?
    requires Effect(setup, states[n], events[n]).1.Some? && CollisionFree(setup.digest)
    ensures d in states[n].deliveries
    ensures Alike(d.flight.req, events[n].req)
    ensures d.flight.policy.version == states[n].policy.version
    ensures d.tried == [d.flight.first]
    ensures d.answer == Effect(setup, states[n], events[n]).1.value && d.answer.answer != ""
  {
    RunsKeepStoreBacked(setup, states, events, n);
    d := HitIsBacked(setup, states[n], events[n]);
  }

  lemma {:induction false} HitIsStored(setup: Setup, g: Gateway, e: Event) returns (flight: Flight)
    requires Enabled(setup, g, e) && e.Arrive? && Effect(setup, g, e).1.Some?
    ensures !BypassCache(e.req) && flight.req == e.req && flight.policy == g.policy && flight.scope == e.req.model
    ensures Key(setup, flight) in g.store && g.store[Key(setup, flight)] == Intact(Effect(setup, g, e).1.value)
  {
    flight := Begun(setup, g.policy, e.req, e.routed).value;
  }

  lemma {:induction false} HitIsBacked(setup: Setup, g: Gateway, e: Event) returns (d: Delivery)
    requires StoreIsBacked(setup, g) && CollisionFree(setup.digest)
    requires Enabled(setup, g, e) && e.Arrive? && Effect(setup, g, e).1.Some?
    ensures d in g.deliveries && Alike(d.flight.req, e.req) && d.flight.policy.version == g.policy.version
    ensures d.tried == [d.flight.first] && d.answer == Effect(setup, g, e).1.value && d.answer.answer != ""
  {
    var flight := HitIsStored(setup, g, e);
    var key := Key(setup, flight);
    assert Backed(setup, g.deliveries, key, g.store[key].value);
    d :| d in g.deliveries && Backs(setup, d, key, g.store[key].value);
    KeysAgreeExactly(setup, d.flight, flight);
  }

  // ---------- who is kept away from the cache ----------

  /** No opt-out, session, stream, tool or further option, and nothing in the messages but text under a role. */
  ghost predicate Cacheable(req: ChatRequest) {
    && !req.noStore && !req.hasSession && !req.stream && !req.hasTools
    && (forall field :: field in req.payloadFields ==> field == "model" || field == "messages" || field == "stream")
    && forall m :: m in req.messages ==>
         && (forall field :: field in m.fields ==> field == "role" || field == "content")
         && m.text.Some? && m.role != "tool" && !m.hasToolCalls
  }

  lemma {:induction false} CacheableExactly(req: ChatRequest)
    ensures Cacheable(req) <==> !BypassCache(req)
  {
    if Cacheable(req) {
      forall m | m in req.messages ensures IsPlain(m) {
        assert m.fields <= {"role", "content"};
      }
      assert req.payloadFields <= {"model", "messages", "stream"};
    }
  }

  /** The request that an event is about. */
  ghost function RequestOf(g: Gateway, e: Event): Option<ChatRequest> {
    match e
    case Arrive(_, req, _, _, _) => Some(req)
    case Deliver(id, _, _, _, _) => if id in g.flights then Some(g.flights[id].req) else None
    case _ => None
  }

  /**
   * In every run, a request that is not cacheable neither is served from the cache nor changes it, and does not even
   * use the connection; and whatever is served or stored was asked for by one that is.
   */
  lemma {:induction false} OnlyCacheableUseCache(setup: Setup, states: seq<Gateway>, events: seq<Event>, n: nat)
    requires IsRun(setup, states, events) && n < |events| && RequestOf(states[n], events[n]).Some?
    ensures
      var g, after, served := states[n], states[n + 1], Effect(setup, states[n], events[n]).1;
      served.Some? || after.store != g.store || after.client != g.client ==>
        Cacheable(RequestOf(g, events[n]).value)
  {
    CacheableExactly(RequestOf(states[n], events[n]).value);
  }

  /** The client named nobody, or a provider that there is and that its privacy and its needs allow. */
  ghost predicate MayAsk(setup: Setup, req: ChatRequest) {
    req.model == "auto" ||
    exists i :: 0 <= i < |setup.providers| && FirstNamed(setup.providers, req.model, i)
      && req.required <= setup.providers[i].capabilities
      && (req.privacyHigh ==> setup.providers[i].privacy != "external")
  }

  ghost predicate FirstNamed(providers: seq<R.Provider>, name: string, i: nat)
    requires i < |providers|
  {
    providers[i].name == name && forall j :: 0 <= j < i ==> providers[j].name != name
  }

  lemma {:induction false} FindsFirstNamed(providers: seq<R.Provider>, name: string)
    ensures
      var r := FindProvider(providers, name);
      if r.None? then forall p :: p in providers ==> p.name != name
      else exists i :: 0 <= i < |providers| && providers[i] == r.value && FirstNamed(providers, name, i)
  {
    if providers != [] {
      FindsFirstNamed(providers[1..], name);
      if providers[0].name == name {
        assert FirstNamed(providers, name, 0);
      } else if FindProvider(providers, name).Some? {
        var i :| 0 <= i < |providers[1..]| && providers[1..][i] == FindProvider(providers, name).value
                 && FirstNamed(providers[1..], name, i);
        assert forall j :: 0 <= j < i ==> providers[1..][j] == providers[j + 1];
        assert FirstNamed(providers, name, i + 1);
      }
    }
  }

  lemma {:induction false} NothingMissing(p: R.Provider, required: set<string>)
    ensures R.MissingCapabilities(p, required) == {} <==> required <= p.capabilities
  {
    forall x | x in required && x !in p.capabilities ensures x in R.MissingCapabilities(p, required) {}
  }

  /** A request is begun exactly if it may be asked for, and goes first to whom it named or the router chose. */
  lemma {:induction false} BegunExactly(setup: Setup, policy: PolicyReaders.GatewaySnapshot, req: ChatRequest,
                                        routed: string)
    ensures
      var flight := Begun(setup, policy, req, routed);
      && (flight.Some? <==> MayAsk(setup, req))
      && (flight.Some? ==>
            flight.value == Flight(req, req.model, policy, if req.model == "auto" then routed else req.model))
  {
    var found := FindProvider(setup.providers, req.model);
    FindsFirstNamed(setup.providers, req.model);
    if req.model != "auto" && found.Some? {
      assert forall i, j :: 0 <= i < |setup.providers| && 0 <= j < |setup.providers|
                            && FirstNamed(setup.providers, req.model, i) && FirstNamed(setup.providers, req.model, j)
                            ==> i == j;
      NothingMissing(found.value, req.required);
    }
  }

  /** There is a connection, or it is time to try again and Redis accepts one. */
  ghost predicate Reaches(c: Client, now: real, backoff: real, link: Link) {
    || c.connected
    || (link.reachable && (c.lastAttempt == None || exists at :: c.lastAttempt == Some(at) && at + backoff <= now))
  }

  /** What the client is after a use: connected if the command went through, with any attempt remembered. */
  ghost predicate Used(c: Client, after: Client, now: real, backoff: real, link: Link) {
    && (after.connected <==> Reaches(c, now, backoff, link) && !link.raises)
    && (after.lastAttempt == c.lastAttempt || after.lastAttempt == Some(now))
    && (c.connected ==> after.lastAttempt == c.lastAttempt)
    && (!c.connected && Reaches(c, now, backoff, link) ==> after.lastAttempt == Some(now))
  }

  lemma {:induction false} UsesTell(c: Client, now: real, backoff: real, link: Link)
    ensures Connected(c, now, backoff, link).connected <==> Reaches(c, now, backoff, link)
    ensures Used(c, AfterCommand(Connected(c, now, backoff, link), link), now, backoff, link)
  {
    if c.lastAttempt.Some? {
      var at := c.lastAttempt.value;
      assert c.lastAttempt == Some(at);
    }
  }

  /** The key of a request under a policy version. */
  ghost function KeyOf(setup: Setup, req: ChatRequest, version: nat): string
    requires !BypassCache(req)
  {
    "pg:" + setup.digest(KeyText(KeyFields(req, req.model, version)))
  }

  /**
   * A request is served from the cache exactly if it is cacheable, may be asked, and the look-up reaches a readable
   * answer under its key; and that is what it is served.
   */
  lemma {:induction false} ServedExactly(setup: Setup, g: Gateway, e: Event)
    requires Enabled(setup, g, e) && e.Arrive?
    ensures
      var (after, served) := Effect(setup, g, e);
      if !Cacheable(e.req) || !MayAsk(setup, e.req) then served.None? && after.client == g.client
      else
        !BypassCache(e.req) &&
        var key := KeyOf(setup, e.req, g.policy.version);
        && (served.Some? <==> Reaches(g.client, e.now, setup.backoff, e.link) && !e.link.raises
                              && key in g.store && g.store[key].Intact?)
        && (served.Some? ==> g.store[key] == Intact(served.value))
        && Used(g.client, after.client, e.now, setup.backoff, e.link)
  {
    CacheableExactly(e.req);
    BegunExactly(setup, g.policy, e.req, e.routed);
    UsesTell(g.client, e.now, setup.backoff, e.link);
  }

  /** An answer is stored exactly if it is the first choice's, not empty, and the write reaches Redis and is applied. */
  lemma {:induction false} StoredExactly(setup: Setup, g: Gateway, e: Event)
    requires Enabled(setup, g, e) && e.Deliver? && g.flights[e.id].scope == g.flights[e.id].req.model
    ensures
      var after, flight := Effect(setup, g, e).0, g.flights[e.id];
      if !Cacheable(flight.req) || e.answer.answer == "" || |e.tried| > 1
      then after.store == g.store && after.client == g.client
      else
        !BypassCache(flight.req) &&
        var key := KeyOf(setup, flight.req, flight.policy.version);
        && after.store == (if Reaches(g.client, e.now, setup.backoff, e.link) && (!e.link.raises || e.link.applied)
                           then g.store[key := Intact(e.answer)] else g.store)
        && Used(g.client, after.client, e.now, setup.backoff, e.link)
  {
    CacheableExactly(g.flights[e.id].req);
    UsesTell(g.client, e.now, setup.backoff, e.link);
  }

  /** What is stored is served: the next request alike, under the same version, is given that answer. */
  lemma {:induction false} StoredIsServed(setup: Setup, g: Gateway, deliver: Event, arrive: Event)
    requires Enabled(setup, g, deliver) && deliver.Deliver? && arrive.Arrive?
    requires Enabled(setup, Effect(setup, g, deliver).0, arrive)
    requires g.client.connected && !deliver.link.raises && !arrive.link.raises
    requires deliver.answer.answer != "" && |deliver.tried| == 1
    requires
      var flight := g.flights[deliver.id];
      && flight.scope == flight.req.model && Alike(flight.req, arrive.req) && MayAsk(setup, arrive.req)
      && flight.policy.version == g.policy.version && CollisionFree(setup.digest)
    ensures Effect(setup, Effect(setup, g, deliver).0, arrive).1 == Some(deliver.answer)
  {
    var flight := g.flights[deliver.id];
    BegunExactly(setup, g.policy, arrive.req, arrive.routed);
    var asked := Begun(setup, g.policy, arrive.req, arrive.routed).value;
    KeysAgreeExactly(setup, flight, asked);
    var g1 := Effect(setup, g, deliver).0;
    assert g1.store == g.store[Key(setup, flight) := Intact(deliver.answer)];
  }

  // ---------- the same version, the same policy ----------

  /** Every request was started under a policy a gateway can hold while the store has this history. */
  ghost predicate PoliciesHeld(docs: seq<PolicyModel.Document>, g: Gateway) {
    && (forall id :: id in g.flights ==> PolicyReaders.Held(docs, g.flights[id].policy))
    && (forall d :: d in g.deliveries ==> PolicyReaders.Held(docs, d.flight.policy))
  }

  lemma {:induction false} EffectKeepsPolicies(docs: seq<PolicyModel.Document>, setup: Setup, g: Gateway, e: Event)
    requires PoliciesHeld(docs, g) && PolicyReaders.Held(docs, g.policy) && Enabled(setup, g, e)
    ensures PoliciesHeld(docs, Effect(setup, g, e).0)
  {
    var after := Effect(setup, g, e).0;
    if e.Deliver? {
      assert after.deliveries == g.deliveries + [Delivery(g.flights[e.id], e.tried, e.answer)];
    }
  }

  lemma {:induction false} RunsKeepPolicies(docs: seq<PolicyModel.Document>, setup: Setup, states: seq<Gateway>,
                                            events: seq<Event>, n: nat)
    requires IsRun(setup, states, events) && states[0].deliveries == [] && n < |states|
    requires forall i :: 0 <= i < |states| ==> PolicyReaders.Held(docs, states[i].policy)
    ensures PoliciesHeld(docs, states[n])
  {
    if n > 0 {
      RunsKeepPolicies(docs, setup, states, events, n - 1);
      EffectKeepsPolicies(docs, setup, states[n - 1], events[n - 1]);
    }
  }

  /**
   * A hit was answered under the very policy in force, not just under its number, exactly unless one of the two is the
   * built-in default policy and the other is not.
   */
  lemma {:induction false} HitsKeepPolicy(docs: seq<PolicyModel.Document>, setup: Setup, states: seq<Gateway>,
                                          events: seq<Event>, n: nat)
    returns (d: Delivery)
    requires PolicyProtocol.IsChain(docs) && IsRun(setup, states, events) && states[0].deliveries == []
    requires forall i :: 0 <= i < |states| ==> PolicyReaders.Held(docs, states[i].policy)
    requires n < |events| && events[n].Arrive? && Effect(setup, states[n], events[n]).1.Some?
            && CollisionFree(setup.digest)
    ensures d in states[n].deliveries && Alike(d.flight.req, events[n].req)
    ensures d.answer == Effect(setup, states[n], events[n]).1.value
    ensures d.flight.policy == states[n].policy <==>
            (d.flight.policy == PolicyReaders.DEFAULT_SNAPSHOT <==> states[n].policy == PolicyReaders.DEFAULT_SNAPSHOT)
  {
    d := HitsAreSound(setup, states, events, n);
    RunsKeepPolicies(docs, setup, states, events, n);
    PolicyReaders.VersionsMeanPolicies(docs, d.flight.policy, states[n].policy);
  }

  /**
   * Such a hit: an answer given on the built-in defaults, and asked for again once version 1 of the store, which
   * differs, is loaded.
   */
  lemma {:induction false} DefaultAnswerServedLater(setup: Setup, req: ChatRequest, routed: string,
                                                    answer: CachedAnswer, now: real,
                                                    stored: PolicyReaders.GatewaySnapshot)
    returns (states: seq<Gateway>)
    requires req.model == "auto" && !BypassCache(req) && answer.answer != ""
    requires stored.version == 1 && stored != PolicyReaders.DEFAULT_SNAPSHOT
    ensures
      var link := Link(true, false, true);
      var events := [Arrive(0, req, routed, now, link), Deliver(0, [routed], answer, now, link), LoadPolicy(stored),
                     Arrive(1, req, routed, now, link)];
      && IsRun(setup, states, events) && states[0].deliveries == []
      && states[3].deliveries
         == [Delivery(Flight(req, "auto", PolicyReaders.DEFAULT_SNAPSHOT, routed), [routed], answer)]
      && states[3].policy == stored
      && Effect(setup, states[3], events[3]).1 == Some(answer)
  {
    var link := Link(true, false, true);
    var g0 := Gateway(PolicyReaders.DEFAULT_SNAPSHOT, Client(false, None), map[], map[], []);
    var asked := Arrive(0, req, routed, now, link);
    var answered := Deliver(0, [routed], answer, now, link);
    var g1 := Effect(setup, g0, asked).0;
    var flight := Flight(req, "auto", PolicyReaders.DEFAULT_SNAPSHOT, routed);
    assert g1 == Gateway(g0.policy, Client(true, Some(now)), map[], map[0 := flight], []);
    var g2 := Effect(setup, g1, answered).0;
    assert g2 == Gateway(g0.policy, Client(true, Some(now)), map[Key(setup, flight) := Intact(answer)], map[],
                         [Delivery(flight, [routed], answer)]);
    var g3 := g2.(policy := stored);
    assert Key(setup, Flight(req, "auto", stored, routed)) == Key(setup, flight);
    states := [g0, g1, g2, g3, Effect(setup, g3, Arrive(1, req, routed, now, link)).0];
  }

  // ---------- keys ----------

  lemma {:induction false} NormalizedAlike(a: seq<ChatMessage>, b: seq<ChatMessage>)
    requires forall m :: m in a || m in b ==> IsPlain(m)
    ensures Normalize(PlainMessages(a)) == Normalize(PlainMessages(b)) <==>
            |a| == |b| && forall i :: 0 <= i < |a| ==> SameMessage(a[i], b[i])
  {
    if a != [] && b != [] {
      assert IsPlain(a[0]) && IsPlain(b[0]);
      NormalizedAlike(a[1..], b[1..]);
      var x, y := Normalize(PlainMessages(a)), Normalize(PlainMessages(b));
      assert x[1..] == Normalize(PlainMessages(a[1..])) && y[1..] == Normalize(PlainMessages(b[1..]));
      assert x == [x[0]] + x[1..] && y == [y[0]] + y[1..];
      assert forall i :: 0 < i < |a| ==> a[i] == a[1..][i - 1];
      assert forall i :: 0 < i < |b| ==> b[i] == b[1..][i - 1];
    }
  }

  /** Two cacheable requests share a key exactly if they are alike and started under one policy version. */
  lemma {:induction false} KeysAgreeExactly(setup: Setup, a: Flight, b: Flight)
    requires CollisionFree(setup.digest) && !BypassCache(a.req) && !BypassCache(b.req)
    requires a.scope == a.req.model && b.scope == b.req.model
    ensures Key(setup, a) == Key(setup, b) <==> Alike(a.req, b.req) && a.policy.version == b.policy.version
  {
    NormalizedAlike(a.req.messages, b.req.messages);
    var fa, fb := KeyFields(a.req, a.scope, a.policy.version), KeyFields(b.req, b.scope, b.policy.version);
    if Key(setup, a) == Key(setup, b) {
      DropCommon("pg:", setup.digest(KeyText(fa)), setup.digest(KeyText(fb)));
      KeyTextIsInjective(fa, fb);
    }
  }

  // ---------- reconnecting ----------

  /** One use of the client: the time, and what the link does. */
  datatype Use = Use(now: real, link: Link)

  ghost predicate IsUsage(clients: seq<Client>, uses: seq<Use>, backoff: real) {
    && |clients| == |uses| + 1 && clients[0] == Client(false, None)
    && (forall i :: 0 <= i < |uses| ==>
          clients[i + 1] == AfterCommand(Connected(clients[i], uses[i].now, backoff, uses[i].link), uses[i].link))
    && (forall i, j :: 0 <= i <= j < |uses| ==> uses[i].now <= uses[j].now)
  }

  /** The last attempt is never forgotten, not even by a connection made and lost since. */
  lemma {:induction false} LastAttemptStands(clients: seq<Client>, uses: seq<Use>, backoff: real, i: nat, n: nat)
    requires IsUsage(clients, uses, backoff) && i < n <= |uses| && Attempts(clients[i], uses[i].now, backoff)
    ensures clients[n].lastAttempt.Some? && uses[i].now <= clients[n].lastAttempt.value
  {
    if i + 1 < n {
      LastAttemptStands(clients, uses, backoff, i, n - 1);
    }
  }

  /** However often the cache is used, two connection attempts are at least the back-off apart. */
  lemma {:induction false} ReconnectsAreSpaced(clients: seq<Client>, uses: seq<Use>, backoff: real, i: nat, j: nat)
    requires IsUsage(clients, uses, backoff) && i < j < |uses|
    requires Attempts(clients[i], uses[i].now, backoff) && Attempts(clients[j], uses[j].now, backoff)
    ensures uses[j].now - uses[i].now >= backoff
  {
    LastAttemptStands(clients, uses, backoff, i, j);
  }
}
