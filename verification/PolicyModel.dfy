/** Policy store documents, and the document a publish or rollback would write next. */
module PolicyModel {
  import opened Wrappers
  import opened Lists
  import Router
  import JobQueue

  /** The parts of a draft that somebody reads; `rest` stands for the other fields. */
  datatype PolicyDraft = PolicyDraft(gateway: Router.GatewayRoutingPolicy, queue: JobQueue.QueuePolicy, rest: string)

  datatype Status = Active | Archived

  datatype PolicyVersion = PolicyVersion(
    version: nat,
    status: Status,
    createdAt: real,
    createdBy: string,
    changeNote: string,
    rollbackFrom: Option<nat>,
    policy: PolicyDraft)

  datatype Document = Document(activeVersion: nat, versions: seq<PolicyVersion>)

  const MAX_VERSIONS: nat := 20

  // ---------- policy_models.py: the document's validators ----------

  predicate DistinctVersions(vs: seq<PolicyVersion>) {
    forall i, j :: 0 <= i < j < |vs| ==> vs[i].version != vs[j].version
  }

  predicate ValidDocument(d: Document) {
    && 1 <= |d.versions| <= MAX_VERSIONS
    && (forall v :: v in d.versions ==> 1 <= v.version <= d.activeVersion)
    && DistinctVersions(d.versions)
    && (exists v :: v in d.versions && v.version == d.activeVersion)
    && (forall v :: v in d.versions ==> (v.status == Active <==> v.version == d.activeVersion))
  }

  function Find(vs: seq<PolicyVersion>, version: nat): (r: Option<PolicyVersion>)
    ensures r.Some? ==> r.value in vs && r.value.version == version
    ensures r.None? ==> forall v :: v in vs ==> v.version != version
  {
    if vs == [] then None else if vs[0].version == version then Some(vs[0]) else Find(vs[1..], version)
  }

  /** The `active` property: exactly one record, on a valid document. */
  function ActiveOf(d: Document): (v: PolicyVersion)
    requires ValidDocument(d)
    ensures v in d.versions && v.version == d.activeVersion && v.status == Active
  {
    Find(d.versions, d.activeVersion).value
  }

  lemma {:induction false} OneRecordPerVersion(vs: seq<PolicyVersion>, a: PolicyVersion, b: PolicyVersion)
    requires DistinctVersions(vs) && a in vs && b in vs && a.version == b.version
    ensures a == b
  {
  }

  // ---------- policy_manager.py: the next document ----------

  /** What the caller and the clock contribute to a new record. */
  datatype Entry = Entry(createdAt: real, createdBy: string, changeNote: string, rollbackFrom: Option<nat>,
      policy: PolicyDraft)

  function NewRecord(version: nat, e: Entry): PolicyVersion {
    PolicyVersion(version, Active, e.createdAt, e.createdBy, e.changeNote, e.rollbackFrom, e.policy)
  }

  function EntryOf(v: PolicyVersion): Entry {
    Entry(v.createdAt, v.createdBy, v.changeNote, v.rollbackFrom, v.policy)
  }

  function VersionKey(): PolicyVersion -> int { (v: PolicyVersion) => v.version }
  function IsArchived(): PolicyVersion -> bool { (v: PolicyVersion) => v.status == Archived }
  function NotDropped(drop: set<nat>): PolicyVersion -> bool { (v: PolicyVersion) => v.version !in drop }

  function Demoted(v: PolicyVersion): PolicyVersion { v.(status := Archived) }

  function DemoteAll(vs: seq<PolicyVersion>): seq<PolicyVersion> {
    if vs == [] then [] else DemoteAll(vs[..|vs| - 1]) + [Demoted(vs[|vs| - 1])]
  }

  function Insert(v: PolicyVersion, sorted: seq<PolicyVersion>): seq<PolicyVersion> {
    if sorted == [] || v.version < sorted[0].version then [v] + sorted else [sorted[0]] + Insert(v, sorted[1..])
  }

  /** `sorted(..., key=version)` */
  function SortByVersion(vs: seq<PolicyVersion>): (r: seq<PolicyVersion>)
    ensures |r| == |vs|
  {
    if vs == [] then []
    else
      InsertLength(vs[|vs| - 1], SortByVersion(vs[..|vs| - 1]));
      Insert(vs[|vs| - 1], SortByVersion(vs[..|vs| - 1]))
  }

  lemma {:induction false} InsertLength(v: PolicyVersion, sorted: seq<PolicyVersion>)
    ensures |Insert(v, sorted)| == |sorted| + 1
  {
    if sorted != [] {
      InsertLength(v, sorted[1..]);
    }
  }

  /** The versions a list of more than twenty gives up: the lowest archived ones. */
  function Dropped(vs: seq<PolicyVersion>): set<nat>
    requires |vs| > MAX_VERSIONS
  {
    var archived := SortByVersion(Filter(vs, IsArchived()));
    var toDrop := |vs| - MAX_VERSIONS;
    VersionsOf(if toDrop <= |archived| then archived[..toDrop] else archived)
  }

  function VersionsOf(vs: seq<PolicyVersion>): set<nat> {
    set v | v in vs :: v.version
  }

  function Truncated(vs: seq<PolicyVersion>): seq<PolicyVersion> {
    if |vs| <= MAX_VERSIONS then vs else Filter(vs, NotDropped(Dropped(vs)))
  }

  function NextVersion(d: Document): nat
    requires d.versions != []
  {
    var top := MaxKey(d.versions, VersionKey());
    if top < 0 then 0 else top + 1
  }

  /** The document after the entry is committed on top of `d`. */
  function Next(d: Document, e: Entry): Document
    requires d.versions != []
  {
    var version := NextVersion(d);
    Document(version, Truncated(DemoteAll(d.versions) + [NewRecord(version, e)]))
  }

  method BuildNext(d: Document, e: Entry) returns (next: Document)
    requires ValidDocument(d)
    ensures next == Next(d, e)
  {
    var newVersionNum := NextVersion(d);
    var newVersions := Demote(d.versions);
    newVersions := newVersions + [NewRecord(newVersionNum, e)];
    if |newVersions| > MAX_VERSIONS {
      newVersions := Filter(newVersions, NotDropped(Dropped(newVersions)));
    }
    next := Document(newVersionNum, newVersions);
  }

  /** The loop that archives the record that was active. */
  method Demote(versions: seq<PolicyVersion>) returns (demoted: seq<PolicyVersion>)
    ensures demoted == DemoteAll(versions)
  {
    demoted := [];
    for i := 0 to |versions|
      invariant demoted == DemoteAll(versions[..i])
    {
      var v := versions[i];
      assert versions[..i + 1][..i] == versions[..i];
      if v.status == Active {
        demoted := demoted + [v.(status := Archived)];
      } else {
        assert v == Demoted(v);
        demoted := demoted + [v];
      }
    }
    assert versions[..|versions|] == versions;
  }

  // ---------- what the next document holds ----------

  lemma {:induction false} NextVersionIsNew(d: Document)
    requires ValidDocument(d)
    ensures NextVersion(d) == d.activeVersion + 1
  {
    var top := MaxKeyAttained(d.versions, VersionKey());
    MaxKeyLargest(d.versions, VersionKey(), ActiveOf(d));
  }

  lemma {:induction false} DemotedMembers(vs: seq<PolicyVersion>)
    ensures |DemoteAll(vs)| == |vs|
    ensures forall i :: 0 <= i < |vs| ==> DemoteAll(vs)[i] == Demoted(vs[i])
  {
    if vs != [] {
      DemotedMembers(vs[..|vs| - 1]);
    }
  }

  /** Sorting puts the record with the lowest version first. */
  lemma {:induction false} SortedHeadIsLowest(vs: seq<PolicyVersion>)
    requires vs != []
    ensures SortByVersion(vs)[0] in vs
    ensures forall v :: v in vs ==> SortByVersion(vs)[0].version <= v.version
  {
    var n := |vs| - 1;
    var rest := vs[..n];
    assert vs == rest + [vs[n]] && forall v :: v in vs <==> v in rest || v == vs[n];
    if n > 0 {
      SortedHeadIsLowest(rest);
      var lowest := SortByVersion(rest)[0];
      assert SortByVersion(vs)[0] == if vs[n].version < lowest.version then vs[n] else lowest;
    }
  }

  lemma {:induction false} DropOne(vs: seq<PolicyVersion>, drop: set<nat>, gone: PolicyVersion)
    requires DistinctVersions(vs) && gone in vs && drop == {gone.version}
    ensures |Filter(vs, NotDropped(drop))| == |vs| - 1
  {
    var n := |vs| - 1;
    var rest := vs[..n];
    assert vs == rest + [vs[n]];
    if vs[n] == gone {
      forall v | v in rest ensures NotDropped(drop)(v) {
        var i :| 0 <= i < n && rest[i] == v;
        assert vs[i].version != vs[n].version;
      }
      FilterAll(rest, NotDropped(drop));
    } else {
      var i :| 0 <= i < |vs| && vs[i] == gone;
      assert rest[i] == gone;
      DropOne(rest, drop, gone);
      assert NotDropped(drop)(vs[n]);
    }
  }

  lemma {:induction false} FilterKeepsDistinct(vs: seq<PolicyVersion>, keep: PolicyVersion -> bool)
    requires DistinctVersions(vs)
    ensures DistinctVersions(Filter(vs, keep))
  {
    if vs != [] {
      var n := |vs| - 1;
      FilterKeepsDistinct(vs[..n], keep);
      forall v | v in Filter(vs[..n], keep) ensures v.version != vs[n].version {
        FilterMember(vs[..n], keep, v);
        var i :| 0 <= i < n && vs[i] == v;
      }
    }
  }

  /** The list before truncation: old records demoted, the new one on top. */
  function Grown(d: Document, e: Entry): seq<PolicyVersion>
    requires d.versions != []
  {
    DemoteAll(d.versions) + [NewRecord(NextVersion(d), e)]
  }

  lemma {:induction false} GrownMembers(d: Document, e: Entry)
    requires ValidDocument(d)
    ensures DistinctVersions(Grown(d, e)) && |Grown(d, e)| == |d.versions| + 1
    ensures forall r :: r in Grown(d, e) <==>
              r == NewRecord(d.activeVersion + 1, e) || exists v :: v in d.versions && r == Demoted(v)
  {
    NextVersionIsNew(d);
    DemotedMembers(d.versions);
    var grown := Grown(d, e);
    forall v | v in d.versions ensures Demoted(v) in grown {
      var i :| 0 <= i < |d.versions| && d.versions[i] == v;
      assert grown[i] == Demoted(v);
    }
    assert grown[|d.versions|] == NewRecord(d.activeVersion + 1, e);
    forall r | r in grown
      ensures r == NewRecord(d.activeVersion + 1, e) || exists v :: v in d.versions && r == Demoted(v)
    {
      var i :| 0 <= i < |grown| && grown[i] == r;
      if i < |d.versions| {
        assert d.versions[i] in d.versions;
      }
    }
  }

  lemma {:induction false} DroppedIsLowest(d: Document, e: Entry) returns (lowest: PolicyVersion)
    requires ValidDocument(d) && |Grown(d, e)| > MAX_VERSIONS
    ensures lowest in Grown(d, e) && Dropped(Grown(d, e)) == {lowest.version}
    ensures forall r :: r in Grown(d, e) ==> lowest.version <= r.version
    ensures lowest.version <= d.activeVersion
  {
    GrownMembers(d, e);
    var grown := Grown(d, e);
    var archived := Filter(grown, IsArchived());
    forall r | r in grown ensures r in archived <==> r != NewRecord(d.activeVersion + 1, e) {
      FilterMember(grown, IsArchived(), r);
    }
    assert Demoted(d.versions[0]) in grown && Demoted(d.versions[0]) in archived;
    SortedHeadIsLowest(archived);
    lowest := SortByVersion(archived)[0];
    FilterMember(grown, IsArchived(), lowest);
    assert SortByVersion(archived)[..1] == [lowest];
  }

  /** Truncation drops exactly one record, the one with the lowest version of all, and only from twenty-one. */
  lemma {:induction false} TruncationDropsLowest(d: Document, e: Entry)
    requires ValidDocument(d)
    ensures
      var grown, kept := Grown(d, e), Next(d, e).versions;
      && DistinctVersions(kept)
      && |kept| == (if |grown| <= MAX_VERSIONS then |grown| else MAX_VERSIONS)
      && (forall r :: r in kept ==> r in grown)
      && (forall r, q :: r in kept && q in grown && q !in kept ==> q.version < r.version)
      && NewRecord(d.activeVersion + 1, e) in kept
  {
    GrownMembers(d, e);
    var grown := Grown(d, e);
    assert Next(d, e).versions == Truncated(grown);
    if |grown| > MAX_VERSIONS {
      var lowest := DroppedIsLowest(d, e);
      TruncatedMembers(grown, lowest);
    }
  }

  lemma {:induction false} TruncatedMembers(grown: seq<PolicyVersion>, lowest: PolicyVersion)
    requires |grown| == MAX_VERSIONS + 1 && DistinctVersions(grown)
    requires lowest in grown && Dropped(grown) == {lowest.version}
    ensures DistinctVersions(Truncated(grown)) && |Truncated(grown)| == MAX_VERSIONS
    ensures forall r :: r in Truncated(grown) <==> r in grown && r != lowest
    ensures forall r :: r in Truncated(grown) ==> r.version != lowest.version
  {
    DropOne(grown, Dropped(grown), lowest);
    FilterKeepsDistinct(grown, NotDropped(Dropped(grown)));
    forall r
      ensures r in Truncated(grown) <==> r in grown && r != lowest
      ensures r in Truncated(grown) ==> r.version != lowest.version
    {
      FilterMember(grown, NotDropped(Dropped(grown)), r);
      if r in grown && r.version == lowest.version {
        OneRecordPerVersion(grown, r, lowest);
      }
    }
  }

  /** A commit on a valid document, its records in any order, is a valid document whose active record is the new one. */
  lemma {:induction false} CommitKeepsValid(d: Document, e: Entry)
    requires ValidDocument(d)
    ensures ValidDocument(Next(d, e))
    ensures Next(d, e).activeVersion == d.activeVersion + 1
    ensures ActiveOf(Next(d, e)) == NewRecord(d.activeVersion + 1, e)
  {
    NextVersionIsNew(d);
    GrownMembers(d, e);
    TruncationDropsLowest(d, e);
    var next := Next(d, e);
    forall r | r in next.versions
      ensures 1 <= r.version <= next.activeVersion && (r.status == Active <==> r.version == next.activeVersion)
    {
      assert r in Grown(d, e);
    }
    OneRecordPerVersion(next.versions, ActiveOf(next), NewRecord(d.activeVersion + 1, e));
  }

  /** Nothing of a record but its status ever changes. */
  predicate SameButStatus(a: PolicyVersion, b: PolicyVersion) {
    a == b.(status := a.status)
  }

  /** Each record of the next document is the new one, or an old one but for its status. */
  lemma {:induction false} CommitKeepsRecords(d: Document, e: Entry, r: PolicyVersion)
    requires ValidDocument(d) && r in Next(d, e).versions
    ensures r == NewRecord(d.activeVersion + 1, e) || exists v :: v in d.versions && SameButStatus(r, v)
  {
    GrownMembers(d, e);
    TruncationDropsLowest(d, e);
    assert r in Grown(d, e);
  }

  /**
   * The kept versions are the twenty highest of the old ones and the new one: a smaller set only if there are fewer.
   */
  lemma {:induction false} KeepsTwentyHighest(d: Document, e: Entry)
    requires ValidDocument(d)
    ensures
      var all := VersionsOf(d.versions) + {d.activeVersion + 1};
      var kept := VersionsOf(Next(d, e).versions);
      && kept <= all
      && |kept| == (if |all| <= MAX_VERSIONS then |all| else MAX_VERSIONS)
      && forall high, low :: high in kept && low in all - kept ==> low < high
  {
    GrownMembers(d, e);
    TruncationDropsLowest(d, e);
    var grown, kept := Grown(d, e), Next(d, e).versions;
    var all := VersionsOf(d.versions) + {d.activeVersion + 1};
    VersionsAreGrown(d, e);
    CountVersions(grown);
    CountVersions(kept);
    forall high, low | high in VersionsOf(kept) && low in all - VersionsOf(kept) ensures low < high {
      var r :| r in kept && r.version == high;
      var q :| q in grown && q.version == low;
      assert q !in kept;
    }
  }

  lemma {:induction false} VersionsAreGrown(d: Document, e: Entry)
    requires ValidDocument(d)
    ensures VersionsOf(Grown(d, e)) == VersionsOf(d.versions) + {d.activeVersion + 1}
  {
    GrownMembers(d, e);
    var grown := Grown(d, e);
    forall n | n in VersionsOf(d.versions) + {d.activeVersion + 1} ensures n in VersionsOf(grown) {
      if n in VersionsOf(d.versions) {
        var v :| v in d.versions && v.version == n;
        assert Demoted(v) in grown;
      } else {
        assert NewRecord(d.activeVersion + 1, e) in grown;
      }
    }
  }

  lemma {:induction false} CountVersions(vs: seq<PolicyVersion>)
    requires DistinctVersions(vs)
    ensures |VersionsOf(vs)| == |vs|
  {
    if vs != [] {
      var n := |vs| - 1;
      CountVersions(vs[..n]);
      assert vs == vs[..n] + [vs[n]];
      assert VersionsOf(vs) == VersionsOf(vs[..n]) + {vs[n].version};
      assert vs[n].version !in VersionsOf(vs[..n]);
    }
  }
}
