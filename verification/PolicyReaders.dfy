/** The pollers that keep a copy of a manager's active policy, by conditional requests on its version. */
module PolicyReaders {
  import opened Wrappers
  import opened Decimals
  import opened PolicyModel
  import opened PolicyManagement
  import opened PolicyProtocol
  import Router

  // ---------- main.py: GET /v1/policies/active ----------

  datatype ActivePolicy = ActivePolicy(version: nat, publishedAt: real, policy: PolicyDraft)

  function Served(record: PolicyVersion): ActivePolicy {
    ActivePolicy(record.version, record.createdAt, record.policy)
  }

  function ETag(version: nat): string {
    "\"policy-v" + Decimal(version) + "\""
  }

  lemma {:induction false} ETagIsInjective(a: nat, b: nat)
    requires ETag(a) == ETag(b)
    ensures a == b
  {
    var head := "\"policy-v";
    assert ETag(a)[|head|..|ETag(a)| - 1] == Decimal(a);
    assert ETag(b)[|head|..|ETag(b)| - 1] == Decimal(b);
    DecimalIsInjective(a, b);
  }

  datatype Response = NotModified | Full(etag: string, body: ActivePolicy)

  function Answer(active: PolicyVersion, ifNoneMatch: Option<string>): Response {
    if ifNoneMatch == Some(ETag(active.version)) then NotModified else Full(ETag(active.version), Served(active))
  }

  /** What becomes of the response on its way to the reader. */
  datatype Transit = Delivered | TransportError | UnexpectedStatus | InvalidBody

  // ---------- automation/app/policy_runtime.py ----------

  /** The mounted policy file: not there, not a document at all, or a document, valid or not. */
  datatype Mounted = Absent | Unreadable | File(document: Document)

  /** The mounted file first, if it is valid, then the API; with neither the process gives up. */
  function WorkerBoot(file: Mounted, api: Option<PolicyVersion>): Option<ActivePolicy> {
    if file.File? && ValidDocument(file.document) then Some(Served(ActiveOf(file.document)))
    else if api.Some? then Some(Served(api.value))
    else None
  }

  function WorkerRefreshed(active: ActivePolicy, server: PolicyVersion, transit: Transit): (ActivePolicy, bool) {
    var response := Answer(server, Some(ETag(active.version)));
    if transit == Delivered && response.Full? then (response.body, true) else (active, false)
  }

  class PolicyRuntime {
    var active: ActivePolicy

    constructor (initial: ActivePolicy)
      ensures active == initial
    {
      active := initial;
    }

    method RefreshOnce(server: PolicyVersion, transit: Transit) returns (reloaded: bool)
      modifies this
      ensures (active, reloaded) == WorkerRefreshed(old(active), server, transit)
    {
      var etag := ETag(active.version);
      if transit == TransportError {
        return false;
      }
      var response := Answer(server, Some(etag));
      if transit == UnexpectedStatus || response.NotModified? {
        return false;
      }
      if transit == InvalidBody {
        return false;
      }
      active := response.body;
      return true;
    }
  }

  // ---------- gateway/app/policy.py ----------

  datatype GatewaySnapshot = GatewaySnapshot(version: nat, gateway: Router.GatewayRoutingPolicy)

  datatype GatewayReader = GatewayReader(snapshot: GatewaySnapshot, etag: Option<string>)

  function GatewayPart(active: ActivePolicy): GatewaySnapshot {
    GatewaySnapshot(active.version, active.policy.gateway)
  }

  const DEFAULT_SNAPSHOT := GatewaySnapshot(1, Router.DEFAULT_GATEWAY_POLICY)

  datatype PolicyLoadError = InvalidJson | InvalidStore

  /** The record the mounted file calls active, whatever else the file holds, or built-in defaults if there is none. */
  function GatewayBoot(file: Mounted): Result<GatewayReader, PolicyLoadError> {
    match file
    case Absent => Ok(GatewayReader(DEFAULT_SNAPSHOT, None))
    case Unreadable => Err(InvalidJson)
    case File(d) =>
      var found := Find(d.versions, d.activeVersion);
      if found.Some? then Ok(GatewayReader(GatewayPart(Served(found.value)), None)) else Err(InvalidStore)
  }

  /** On a valid document the gateway and the worker start on the same policy. */
  lemma {:induction false} BootsAgree(d: Document, api: Option<PolicyVersion>)
    requires ValidDocument(d)
    ensures GatewayBoot(File(d)).Ok? && WorkerBoot(File(d), api).Some?
    ensures GatewayBoot(File(d)).value.snapshot == GatewayPart(WorkerBoot(File(d), api).value)
  {
    assert ActiveOf(d) in d.versions;
  }

  function GatewayRefreshed(reader: GatewayReader, server: PolicyVersion, transit: Transit): GatewayReader {
    var response := Answer(server, reader.etag);
    if transit == Delivered && response.Full? then GatewayReader(GatewayPart(response.body), Some(response.etag))
        else reader
  }

  method LoadInitialSnapshot(file: Mounted) returns (r: Result<GatewayReader, PolicyLoadError>)
    ensures r == GatewayBoot(file)
  {
    if file.Absent? {
      return Ok(GatewayReader(DEFAULT_SNAPSHOT, None));
    }
    if file.Unreadable? {
      return Err(InvalidJson);
    }
    var record := Find(file.document.versions, file.document.activeVersion);
    if record.None? {
      return Err(InvalidStore);
    }
    return Ok(GatewayReader(GatewaySnapshot(record.value.version, record.value.policy.gateway), None));
  }

  class GatewayPolicyRuntime {
    var snapshot: GatewaySnapshot
    var etag: Option<string>

    function View(): GatewayReader
      reads this
    {
      GatewayReader(snapshot, etag)
    }

    constructor (initial: GatewayReader)
      ensures View() == initial
    {
      snapshot, etag := initial.snapshot, initial.etag;
    }

    method RefreshOnce(server: PolicyVersion, transit: Transit)
      modifies this
      ensures View() == GatewayRefreshed(old(View()), server, transit)
    {
      if transit == TransportError {
        return;
      }
      var response := Answer(server, etag);
      if transit == UnexpectedStatus || response.NotModified? {
        return;
      }
      if transit == InvalidBody {
        return;
      }
      snapshot := GatewayPart(response.body);
      etag := Some(response.etag);
    }
  }

  // ---------- runs of managers and readers ----------

  datatype World = World(sys: System, workers: map<nat, ActivePolicy>, gateways: map<nat, GatewayReader>)

  /** A reader boots from any document the store ever held, for its mounted copy may lag behind. */
  datatype Event =
    | Manage(step: Step)
    | BootWorker(w: nat, file: Mounted, api: Option<nat>)
    | PollWorker(w: nat, m: nat, transit: Transit)
    | BootGateway(g: nat, file: Mounted)
    | PollGateway(g: nat, m: nat, transit: Transit)

  function Api(managers: map<nat, Manager>, api: Option<nat>): Option<PolicyVersion> {
    if api.Some? && api.value in managers then Some(managers[api.value].active) else None
  }

  ghost predicate Happens(before: World, event: Event, after: World) {
    && Sound(before.sys)
    && match event
       case Manage(step) => Enabled(before.sys, step) && after == before.(sys := After(before.sys, step))
       case BootWorker(w, file, api) =>
         && (file.File? ==> file.document in before.sys.docs)
         && WorkerBoot(file, Api(before.sys.managers, api)).Some?
         && after == before.(workers := before.workers[w := WorkerBoot(file, Api(before.sys.managers, api)).value])
       case PollWorker(w, m, transit) =>
         && w in before.workers && m in before.sys.managers
         && after == before.(workers :=
              before.workers[w := WorkerRefreshed(before.workers[w], before.sys.managers[m].active, transit).0])
       case BootGateway(g, file) =>
         && (file.File? ==> file.document in before.sys.docs)
         && GatewayBoot(file).Ok?
         && after == before.(gateways := before.gateways[g := GatewayBoot(file).value])
       case PollGateway(g, m, transit) =>
         && g in before.gateways && m in before.sys.managers
         && after == before.(gateways :=
              before.gateways[g := GatewayRefreshed(before.gateways[g], before.sys.managers[m].active, transit)])
  }

  ghost predicate IsHistory(worlds: seq<World>, events: seq<Event>) {
    && |worlds| == |events| + 1
    && IsInitial(worlds[0].sys) && worlds[0].workers == map[] && worlds[0].gateways == map[]
    && forall i :: 0 <= i < |events| ==> Happens(worlds[i], events[i], worlds[i + 1])
  }

  lemma {:induction false} HistoriesAreConsistent(worlds: seq<World>, events: seq<Event>, n: nat)
    requires IsHistory(worlds, events) && n < |worlds|
    ensures Consistent(worlds[n].sys)
  {
    if n > 0 {
      HistoriesAreConsistent(worlds, events, n - 1);
      assert Happens(worlds[n - 1], events[n - 1], worlds[n]);
      if events[n - 1].Manage? {
        StepKeepsConsistent(worlds[n - 1].sys, events[n - 1].step);
      }
    }
  }

  lemma {:induction false} OneEvent(worlds: seq<World>, events: seq<Event>, i: nat)
    requires IsHistory(worlds, events) && i < |events|
    ensures Happens(worlds[i], events[i], worlds[i + 1])
  {
  }

  /** What a worker holds was once the active policy. */
  ghost predicate WasServed(docs: seq<Document>, active: ActivePolicy) {
    exists record :: WasActive(docs, record) && Served(record) == active
  }

  function Tagged(record: PolicyVersion): GatewayReader {
    GatewayReader(GatewayPart(Served(record)), Some(ETag(record.version)))
  }

  /** A gateway that remembers an entity tag holds the policy the tag was sent with. */
  ghost predicate TagFits(docs: seq<Document>, reader: GatewayReader) {
    reader.etag.Some? ==>
      exists record :: WasActive(docs, record) && reader == Tagged(record)
  }

  /** The snapshot was read off a policy that was active. */
  ghost predicate FromStore(docs: seq<Document>, snapshot: GatewaySnapshot) {
    exists record :: WasActive(docs, record) && snapshot == GatewayPart(Served(record))
  }

  ghost predicate Held(docs: seq<Document>, snapshot: GatewaySnapshot) {
    FromStore(docs, snapshot) || snapshot == DEFAULT_SNAPSHOT
  }

  ghost predicate GatewayOk(docs: seq<Document>, reader: GatewayReader) {
    TagFits(docs, reader) && Held(docs, reader.snapshot)
  }

  ghost predicate ReadersOk(world: World) {
    && (forall w :: w in world.workers ==> WasServed(world.sys.docs, world.workers[w]))
    && (forall g :: g in world.gateways ==> GatewayOk(world.sys.docs, world.gateways[g]))
  }

  lemma {:induction false} HeldForGood(docs: seq<Document>, more: seq<Document>, snapshot: GatewaySnapshot)
    requires Held(docs, snapshot)
    ensures Held(docs + more, snapshot)
    ensures FromStore(docs, snapshot) ==> FromStore(docs + more, snapshot)
  {
    if FromStore(docs, snapshot) {
      var record :| WasActive(docs, record) && snapshot == GatewayPart(Served(record));
      WasActiveForGood(docs, more, record);
    }
  }

  lemma {:induction false} TagFitsForGood(docs: seq<Document>, more: seq<Document>, reader: GatewayReader)
    requires TagFits(docs, reader)
    ensures TagFits(docs + more, reader)
  {
    if reader.etag.Some? {
      var record :| WasActive(docs, record) && reader == Tagged(record);
      WasActiveForGood(docs, more, record);
    }
  }

  lemma {:induction false} ReadersStayOk(world: World, next: World, more: seq<Document>)
    requires ReadersOk(world) && next.workers == world.workers && next.gateways == world.gateways
    requires next.sys.docs == world.sys.docs + more
    ensures ReadersOk(next)
  {
    forall w | w in next.workers ensures WasServed(next.sys.docs, next.workers[w]) {
      var record :| WasActive(world.sys.docs, record) && Served(record) == world.workers[w];
      WasActiveForGood(world.sys.docs, more, record);
    }
    forall g | g in next.gateways ensures GatewayOk(next.sys.docs, next.gateways[g]) {
      assert GatewayOk(world.sys.docs, world.gateways[g]);
      TagFitsForGood(world.sys.docs, more, world.gateways[g]);
      HeldForGood(world.sys.docs, more, world.gateways[g].snapshot);
    }
  }

  lemma {:induction false} ManagersServeOnce(sys: System, m: nat)
    requires Consistent(sys) && m in sys.managers
    ensures WasActive(sys.docs, sys.managers[m].active)
  {
    assert ManagerOk(sys, m);
  }

  lemma {:induction false} DocumentWasActive(docs: seq<Document>, d: Document)
    requires d in docs && ValidDocument(d)
    ensures WasActive(docs, ActiveOf(d))
  {
    assert IsActiveIn(d, ActiveOf(d));
  }

  lemma {:induction false} BootedGatewayIsOk(docs: seq<Document>, file: Mounted)
    requires file.File? ==> file.document in docs && ValidDocument(file.document)
    requires GatewayBoot(file).Ok?
    ensures GatewayOk(docs, GatewayBoot(file).value)
  {
    if file.File? {
      DocumentWasActive(docs, file.document);
      assert GatewayBoot(file).value.snapshot == GatewayPart(Served(ActiveOf(file.document)));
    }
  }

  lemma {:induction false} WorkerSetIsOk(world: World, w: nat, active: ActivePolicy)
    requires ReadersOk(world) && WasServed(world.sys.docs, active)
    ensures ReadersOk(world.(workers := world.workers[w := active]))
  {
  }

  lemma {:induction false} GatewaySetIsOk(world: World, g: nat, reader: GatewayReader)
    requires ReadersOk(world) && GatewayOk(world.sys.docs, reader)
    ensures ReadersOk(world.(gateways := world.gateways[g := reader]))
  {
  }

  lemma {:induction false} PolledWorkerIsOk(docs: seq<Document>, active: ActivePolicy, server: PolicyVersion,
                                            transit: Transit)
    requires WasServed(docs, active) && WasActive(docs, server)
    ensures WasServed(docs, WorkerRefreshed(active, server, transit).0)
  {
    assert WasServed(docs, Served(server));
  }

  lemma {:induction false} PolledGatewayIsOk(docs: seq<Document>, reader: GatewayReader, server: PolicyVersion,
                                             transit: Transit)
    requires GatewayOk(docs, reader) && WasActive(docs, server)
    ensures GatewayOk(docs, GatewayRefreshed(reader, server, transit))
  {
    assert TagFits(docs, Tagged(server)) && FromStore(docs, Tagged(server).snapshot);
  }

  lemma {:induction false} ManagedReadersStayOk(world: World, step: Step, next: World)
    requires Sound(world.sys) && Enabled(world.sys, step) && ReadersOk(world)
    requires next == world.(sys := After(world.sys, step))
    ensures ReadersOk(next)
  {
    var more := if Applies(world.sys, step) then [world.sys.managers[step.m].phase.attempt.next] else [];
    ReadersStayOk(world, next, more);
  }

  lemma {:induction false} BootedWorkerReadersOk(world: World, w: nat, file: Mounted, api: Option<nat>)
    requires Consistent(world.sys) && ReadersOk(world)
    requires file.File? ==> file.document in world.sys.docs && ValidDocument(file.document)
    requires WorkerBoot(file, Api(world.sys.managers, api)).Some?
    ensures ReadersOk(world.(workers := world.workers[w := WorkerBoot(file, Api(world.sys.managers, api)).value]))
  {
    if api.Some? && api.value in world.sys.managers {
      ManagersServeOnce(world.sys, api.value);
    }
    WorkerSetIsOk(world, w, WorkerBoot(file, Api(world.sys.managers, api)).value);
  }

  lemma {:induction false} PolledWorkerReadersOk(world: World, w: nat, m: nat, transit: Transit)
    requires Consistent(world.sys) && ReadersOk(world) && w in world.workers && m in world.sys.managers
    ensures ReadersOk(world.(workers :=
              world.workers[w := WorkerRefreshed(world.workers[w], world.sys.managers[m].active, transit).0]))
  {
    ManagersServeOnce(world.sys, m);
    PolledWorkerIsOk(world.sys.docs, world.workers[w], world.sys.managers[m].active, transit);
    WorkerSetIsOk(world, w, WorkerRefreshed(world.workers[w], world.sys.managers[m].active, transit).0);
  }

  lemma {:induction false} PolledGatewayReadersOk(world: World, g: nat, m: nat, transit: Transit)
    requires Consistent(world.sys) && ReadersOk(world) && g in world.gateways && m in world.sys.managers
    ensures ReadersOk(world.(gateways :=
              world.gateways[g := GatewayRefreshed(world.gateways[g], world.sys.managers[m].active, transit)]))
  {
    ManagersServeOnce(world.sys, m);
    PolledGatewayIsOk(world.sys.docs, world.gateways[g], world.sys.managers[m].active, transit);
    GatewaySetIsOk(world, g, GatewayRefreshed(world.gateways[g], world.sys.managers[m].active, transit));
  }

  lemma {:induction false} HistoriesKeepReaders(worlds: seq<World>, events: seq<Event>, n: nat)
    requires IsHistory(worlds, events) && n < |worlds|
    ensures ReadersOk(worlds[n])
  {
    if n > 0 {
      HistoriesKeepReaders(worlds, events, n - 1);
      HistoriesAreConsistent(worlds, events, n - 1);
      OneEvent(worlds, events, n - 1);
      var world := worlds[n - 1];
      match events[n - 1]
      case Manage(step) => ManagedReadersStayOk(world, step, worlds[n]);
      case BootWorker(w, file, api) => BootedWorkerReadersOk(world, w, file, api);
      case PollWorker(w, m, transit) => PolledWorkerReadersOk(world, w, m, transit);
      case BootGateway(g, file) =>
        BootedGatewayIsOk(world.sys.docs, file);
        GatewaySetIsOk(world, g, GatewayBoot(file).value);
      case PollGateway(g, m, transit) => PolledGatewayReadersOk(world, g, m, transit);
    }
  }

  lemma {:induction false} ActiveTellsIndex(docs: seq<Document>, i: nat, record: PolicyVersion)
    requires IsChain(docs) && i < |docs| && IsActiveIn(docs[i], record)
    ensures record.version == docs[0].activeVersion + i && DistinctVersions(docs[i].versions)
  {
    VersionsCount(docs, i);
  }

  /** Two records that were active under one number are the same record. */
  lemma {:induction false} ActiveOncePerVersion(docs: seq<Document>, a: PolicyVersion, b: PolicyVersion)
    requires IsChain(docs) && WasActive(docs, a) && WasActive(docs, b) && a.version == b.version
    ensures a == b
  {
    var i :| 0 <= i < |docs| && IsActiveIn(docs[i], a);
    var j :| 0 <= j < |docs| && IsActiveIn(docs[j], b);
    ActiveTellsIndex(docs, i, a);
    ActiveTellsIndex(docs, j, b);
    OneRecordPerVersion(docs[i].versions, a, b);
  }

  /**
   * After a poll answered with 200 or 304 the worker holds exactly what the polled manager serves. In the 304 case
   * this rests on the number: whatever the worker has read before under it is what the manager means by it.
   */
  lemma {:induction false} PolledWorkerAgrees(worlds: seq<World>, events: seq<Event>, n: nat)
    requires IsHistory(worlds, events) && n < |events| && events[n].PollWorker? && events[n].transit == Delivered
    ensures events[n].w in worlds[n + 1].workers && events[n].m in worlds[n].sys.managers
    ensures
      var record := worlds[n].sys.managers[events[n].m].active;
      worlds[n + 1].workers[events[n].w] == ActivePolicy(record.version, record.createdAt, record.policy)
  {
    HistoriesAreConsistent(worlds, events, n);
    HistoriesKeepReaders(worlds, events, n);
    var world, w, m := worlds[n], events[n].w, events[n].m;
    assert Happens(world, events[n], worlds[n + 1]);
    ManagersServeOnce(world.sys, m);
    WorkerAgrees(world.sys.docs, world.sys.managers[m].active, world.workers[w]);
  }

  lemma {:induction false} WorkerAgrees(docs: seq<Document>, server: PolicyVersion, active: ActivePolicy)
    requires IsChain(docs) && WasActive(docs, server) && WasServed(docs, active)
    ensures WorkerRefreshed(active, server, Delivered).0 == Served(server)
  {
    var record :| WasActive(docs, record) && Served(record) == active;
    if ETag(active.version) == ETag(server.version) {
      ETagIsInjective(active.version, server.version);
      ActiveOncePerVersion(docs, record, server);
    }
  }

  /** The same for a gateway, even one that came up on its built-in defaults. */
  lemma {:induction false} PolledGatewayAgrees(worlds: seq<World>, events: seq<Event>, n: nat)
    requires IsHistory(worlds, events) && n < |events| && events[n].PollGateway? && events[n].transit == Delivered
    ensures events[n].g in worlds[n + 1].gateways && events[n].m in worlds[n].sys.managers
    ensures
      var record := worlds[n].sys.managers[events[n].m].active;
      worlds[n + 1].gateways[events[n].g].snapshot == GatewaySnapshot(record.version, record.policy.gateway)
  {
    HistoriesAreConsistent(worlds, events, n);
    HistoriesKeepReaders(worlds, events, n);
    var world, g, m := worlds[n], events[n].g, events[n].m;
    assert Happens(world, events[n], worlds[n + 1]);
    ManagersServeOnce(world.sys, m);
    GatewayAgrees(world.sys.docs, world.sys.managers[m].active, world.gateways[g]);
  }

  lemma {:induction false} GatewayAgrees(docs: seq<Document>, server: PolicyVersion, reader: GatewayReader)
    requires IsChain(docs) && WasActive(docs, server) && TagFits(docs, reader)
    ensures GatewayRefreshed(reader, server, Delivered).snapshot == GatewayPart(Served(server))
  {
    if reader.etag == Some(ETag(server.version)) {
      var record :| WasActive(docs, record) && reader == Tagged(record);
      ETagIsInjective(record.version, server.version);
      ActiveOncePerVersion(docs, record, server);
    }
  }

  /** Any other poll leaves the reader as it was, entity tag and all. */
  lemma {:induction false} FailedPollsKeep(before: World, event: Event, after: World)
    requires Happens(before, event, after)
    requires (event.PollWorker? || event.PollGateway?) && event.transit != Delivered
    ensures after == before
  {
    if event.PollWorker? {
      assert before.workers[event.w := before.workers[event.w]] == before.workers;
    } else {
      assert before.gateways[event.g := before.gateways[event.g]] == before.gateways;
    }
  }

  /** A worker starts on the active record of a valid mounted file, else on what the API serves, else not at all. */
  lemma {:induction false} WorkerBootsFrom(file: Mounted, api: Option<PolicyVersion>)
    ensures
      var r := WorkerBoot(file, api);
      if file.File? && ValidDocument(file.document)
      then r.Some? && exists v :: v in file.document.versions && v.version == file.document.activeVersion
                             && r == Some(ActivePolicy(v.version, v.createdAt, v.policy))
      else if api.Some? then r == Some(ActivePolicy(api.value.version, api.value.createdAt, api.value.policy))
      else r == None
  {
    if file.File? && ValidDocument(file.document) {
      assert ActiveOf(file.document) in file.document.versions;
    }
  }

  /**
   * A gateway without a mounted file starts on version 1 and the defaults; with one, on the gateway part of the first
   * record of the number it calls active, and not at all if there is none or the file cannot be read.
   */
  lemma {:induction false} GatewayBootsFrom(file: Mounted)
    ensures
      var r := GatewayBoot(file);
      match file
      case Absent => r == Ok(GatewayReader(GatewaySnapshot(1, Router.DEFAULT_GATEWAY_POLICY), None))
      case Unreadable => r == Err(InvalidJson)
      case File(d) =>
        if exists v :: v in d.versions && v.version == d.activeVersion
        then exists i :: 0 <= i < |d.versions| && IsFirst(d.versions, d.activeVersion, i)
               && r == Ok(GatewayReader(GatewaySnapshot(d.activeVersion, d.versions[i].policy.gateway), None))
        else r == Err(InvalidStore)
  {
    if file.File? {
      FindsFirst(file.document.versions, file.document.activeVersion);
    }
  }

  ghost predicate IsFirst(vs: seq<PolicyVersion>, version: nat, i: nat)
    requires i < |vs|
  {
    vs[i].version == version && forall j :: 0 <= j < i ==> vs[j].version != version
  }

  lemma {:induction false} FindsFirst(vs: seq<PolicyVersion>, version: nat)
    ensures
      var r := Find(vs, version);
      r.Some? ==> exists i :: 0 <= i < |vs| && IsFirst(vs, version, i) && vs[i] == r.value
  {
    if vs != [] {
      FindsFirst(vs[1..], version);
      if vs[0].version == version {
        assert IsFirst(vs, version, 0);
      } else if Find(vs, version).Some? {
        var i :| 0 <= i < |vs[1..]| && IsFirst(vs[1..], version, i) && vs[1..][i] == Find(vs, version).value;
        assert forall j :: 0 <= j < i ==> vs[1..][j] == vs[j + 1];
        assert IsFirst(vs, version, i + 1);
      }
    }
  }

  /**
   * Two gateways, or one at two times, that hold the same version number hold the same policy, exactly unless one of
   * them is on the built-in defaults, which call themselves version 1, and the other is not.
   */
  lemma {:induction false} VersionsMeanPolicies(docs: seq<Document>, a: GatewaySnapshot, b: GatewaySnapshot)
    requires IsChain(docs) && Held(docs, a) && Held(docs, b) && a.version == b.version
    ensures a == b <==> (a == DEFAULT_SNAPSHOT <==> b == DEFAULT_SNAPSHOT)
  {
    if a != DEFAULT_SNAPSHOT && b != DEFAULT_SNAPSHOT {
      var one :| WasActive(docs, one) && a == GatewayPart(Served(one));
      var other :| WasActive(docs, other) && b == GatewayPart(Served(other));
      ActiveOncePerVersion(docs, one, other);
    }
  }

  lemma {:induction false} HeldLater(worlds: seq<World>, events: seq<Event>, i: nat, n: nat, snapshot: GatewaySnapshot)
    requires IsHistory(worlds, events) && i <= n < |worlds| && Held(worlds[i].sys.docs, snapshot)
    ensures Held(worlds[n].sys.docs, snapshot)
  {
    if i < n {
      HeldLater(worlds, events, i, n - 1, snapshot);
      var before, after := worlds[n - 1].sys.docs, worlds[n].sys.docs;
      assert Happens(worlds[n - 1], events[n - 1], worlds[n]);
      assert before <= after && after == before + after[|before|..];
      HeldForGood(before, after[|before|..], snapshot);
    }
  }

  lemma {:induction false} GatewaysAgreeOnVersions(worlds: seq<World>, events: seq<Event>, i: nat, n: nat, g: nat,
                                                   h: nat)
    requires IsHistory(worlds, events) && i <= n < |worlds| && g in worlds[i].gateways && h in worlds[n].gateways
    requires worlds[i].gateways[g].snapshot.version == worlds[n].gateways[h].snapshot.version
    ensures
      var a, b := worlds[i].gateways[g].snapshot, worlds[n].gateways[h].snapshot;
      a == b <==> (a == DEFAULT_SNAPSHOT <==> b == DEFAULT_SNAPSHOT)
  {
    HistoriesAreConsistent(worlds, events, n);
    HistoriesKeepReaders(worlds, events, i);
    HistoriesKeepReaders(worlds, events, n);
    HeldLater(worlds, events, i, n, worlds[i].gateways[g].snapshot);
    VersionsMeanPolicies(worlds[n].sys.docs, worlds[i].gateways[g].snapshot, worlds[n].gateways[h].snapshot);
  }

  /** A store whose first record, published before anything else, carries this policy. */
  function FirstDocument(policy: PolicyDraft, at: real, who: string, note: string): Document {
    Document(1, [PolicyVersion(1, Active, at, who, note, None, policy)])
  }

  /**
   * One version number, two policies: a gateway without a mounted file and one with a copy of a store at version 1
   * whose gateway part is not the default.
   */
  lemma {:induction false} DefaultsShareVersion(policy: PolicyDraft, at: real, who: string, note: string, g: nat,
                                                h: nat)
    requires g != h && policy.gateway != Router.DEFAULT_GATEWAY_POLICY
    ensures exists worlds: seq<World> ::
              && IsHistory(worlds, [BootGateway(g, Absent), BootGateway(h, File(FirstDocument(policy, at, who, note)))])
              && g in worlds[2].gateways && h in worlds[2].gateways
              && worlds[2].gateways[g].snapshot == DEFAULT_SNAPSHOT
              && worlds[2].gateways[h].snapshot == GatewaySnapshot(1, policy.gateway)
              && DEFAULT_SNAPSHOT.version == 1 && DEFAULT_SNAPSHOT != GatewaySnapshot(1, policy.gateway)
  {
    var d := FirstDocument(policy, at, who, note);
    var sys := System([d], [0], map[]);
    var booted := GatewayReader(DEFAULT_SNAPSHOT, None);
    var mounted := GatewayBoot(File(d)).value;
    var worlds := [World(sys, map[], map[]), World(sys, map[], map[g := booted]),
        World(sys, map[], map[g := booted][h := mounted])];
    assert IsHistory(worlds, [BootGateway(g, Absent), BootGateway(h, File(d))]);
  }

  /** The states of a history are all sound: that an event asks for it excludes none. */
  lemma {:induction false} HistoriesAreSound(worlds: seq<World>, events: seq<Event>, n: nat)
    requires IsHistory(worlds, events) && n < |worlds|
    ensures Sound(worlds[n].sys)
  {
    HistoriesAreConsistent(worlds, events, n);
    ConsistentIsSound(worlds[n].sys);
  }
}
