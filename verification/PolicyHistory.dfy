/** What the durable history says of a version number, of a rollback, and of a write that was overtaken. */
module PolicyHistory {
  import opened Wrappers
  import opened Lists
  import opened PolicyModel
  import opened PolicyManagement
  import opened PolicyProtocol

  // ---------- a version number denotes one policy for ever ----------

  /** The record differs at most in status from the one its number was given to. */
  ghost predicate TracesBack(docs: seq<Document>, record: PolicyVersion)
    requires IsChain(docs)
  {
    var k := record.version - docs[0].activeVersion;
    if k > 0 then k < |docs| && SameButStatus(record, ActiveOf(docs[k])) else Keeps(docs[0], record)
  }

  lemma {:induction false} NewOrKept(before: Document, after: Document, r: PolicyVersion)
    requires Extends(before, after) && r in after.versions
    ensures r == ActiveOf(after) || Keeps(before, r)
  {
    var e := EntryOf(ActiveOf(after));
    CommitKeepsRecords(before, e, r);
    CommitKeepsValid(before, e);
    if r != NewRecord(before.activeVersion + 1, e) {
      var v :| v in before.versions && SameButStatus(r, v);
      assert SameButStatus(v, r);
    }
  }

  lemma {:induction false} ActiveTracesBack(docs: seq<Document>, i: nat)
    requires IsChain(docs) && 0 < i < |docs|
    ensures TracesBack(docs, ActiveOf(docs[i]))
  {
    VersionsCount(docs, i);
  }

  lemma {:induction false} RecordsTraceBack(docs: seq<Document>, i: nat, r: PolicyVersion)
    requires IsChain(docs) && i < |docs| && r in docs[i].versions
    ensures TracesBack(docs, r)
  {
    if i == 0 {
      assert SameButStatus(r, r);
    } else {
      assert IsLink(docs, i);
      NewOrKept(docs[i - 1], docs[i], r);
      if r == ActiveOf(docs[i]) {
        ActiveTracesBack(docs, i);
      } else {
        var v :| v in docs[i - 1].versions && SameButStatus(v, r);
        RecordsTraceBack(docs, i - 1, v);
        TracedAlike(docs, r, v);
      }
    }
  }

  lemma {:induction false} TracedAlike(docs: seq<Document>, r: PolicyVersion, v: PolicyVersion)
    requires IsChain(docs) && SameButStatus(v, r) && TracesBack(docs, v)
    ensures TracesBack(docs, r)
  {
    if v.version <= docs[0].activeVersion {
      var o :| o in docs[0].versions && SameButStatus(o, v);
      assert SameButStatus(o, r);
    }
  }

  lemma {:induction false} KeptTracesBack(docs: seq<Document>, i: nat, record: PolicyVersion)
    requires IsChain(docs) && i < |docs| && Keeps(docs[i], record)
    ensures TracesBack(docs, record)
  {
    var r :| r in docs[i].versions && SameButStatus(r, record);
    RecordsTraceBack(docs, i, r);
    TracedAlike(docs, record, r);
  }

  /**
   * Two records of one number, wherever in the history they stand, differ at most in status: numbers are never
   * given out again, and nothing else of a record changes.
   */
  lemma {:induction false} OnePolicyPerVersion(docs: seq<Document>, i: nat, j: nat, r: PolicyVersion, q: PolicyVersion)
    requires IsChain(docs) && i < |docs| && j < |docs|
    requires r in docs[i].versions && q in docs[j].versions && r.version == q.version
    ensures SameButStatus(r, q)
  {
    RecordsTraceBack(docs, i, r);
    RecordsTraceBack(docs, j, q);
    if r.version <= docs[0].activeVersion {
      var o :| o in docs[0].versions && SameButStatus(o, r);
      var p :| p in docs[0].versions && SameButStatus(p, q);
      OneRecordPerVersion(docs[0].versions, o, p);
    }
  }

  /** A rollback to `t` puts in force exactly the policy published as `t`, although it reads the store twice. */
  lemma {:induction false} RollbackRestores(states: seq<System>, steps: seq<Step>, n: nat, i: nat, j: nat,
                                            r: PolicyVersion)
    requires IsRun(states, steps) && n < |states|
    requires 0 < i < |states[n].docs| && j < |states[n].docs| && r in states[n].docs[j].versions
    requires ValidDocument(states[n].docs[i])
    requires ActiveOf(states[n].docs[i]).rollbackFrom == Some(r.version)
    ensures ActiveOf(states[n].docs[i]).policy == r.policy
    ensures r.version < states[n].docs[i].activeVersion
  {
    RunsAreConsistent(states, steps, n);
    RestoredPolicy(states[n].docs, i, j, r);
  }

  lemma {:induction false} RestoredPolicy(docs: seq<Document>, i: nat, j: nat, r: PolicyVersion)
    requires IsChain(docs) && RollbacksAreTrue(docs) && 0 < i < |docs| && j < |docs| && r in docs[j].versions
    requires ActiveOf(docs[i]).rollbackFrom == Some(r.version)
    ensures ActiveOf(docs[i]).policy == r.policy && r.version < docs[i].activeVersion
  {
    assert RollbackIsTrue(docs, i);
    var policy := ActiveOf(docs[i]).policy;
    var k, q :| 0 <= k < |docs[..i]| && q in docs[..i][k].versions && q.version == r.version && q.policy == policy;
    OnePolicyPerVersion(docs, k, j, q, r);
    VersionsCount(docs, k);
    VersionsCount(docs, i);
  }

  // ---------- the third reconciliation branch ----------

  /** Some record of the document is this one but for its status. */
  ghost predicate Keeps(d: Document, record: PolicyVersion) {
    exists r :: r in d.versions && SameButStatus(r, record)
  }

  lemma {:induction false} RecordStays(before: Document, after: Document, record: PolicyVersion)
    requires Extends(before, after) && Keeps(before, record) && after.activeVersion - record.version < MAX_VERSIONS
    ensures Keeps(after, record)
  {
    var e := EntryOf(ActiveOf(after));
    CommitKeepsValid(before, e);
    var r :| r in before.versions && SameButStatus(r, record);
    HighVersionsStay(before, e, r);
    assert SameButStatus(Demoted(r), record);
  }

  /** The last twenty records of the history are all in the latest document. */
  lemma {:induction false} RecentStays(docs: seq<Document>, i: nat, k: nat)
    requires IsChain(docs) && k <= i < |docs| && i - k < MAX_VERSIONS
    ensures Keeps(docs[i], ActiveOf(docs[k]))
  {
    if i == k {
      assert SameButStatus(ActiveOf(docs[k]), ActiveOf(docs[k]));
    } else {
      RecentStays(docs, i - 1, k);
      VersionsCount(docs, i);
      VersionsCount(docs, k);
      assert IsLink(docs, i);
      RecordStays(docs[i - 1], docs[i], ActiveOf(docs[k]));
    }
  }

  /** A record whose version is among the nineteen highest survives a commit, demoted. */
  lemma {:induction false} HighVersionsStay(d: Document, e: Entry, r: PolicyVersion)
    requires ValidDocument(d) && r in d.versions && d.activeVersion - r.version + 1 < MAX_VERSIONS
    ensures Demoted(r) in Next(d, e).versions
  {
    GrownMembers(d, e);
    TruncationDropsLowest(d, e);
    var kept := Next(d, e).versions;
    assert Demoted(r) in Grown(d, e);
    if |Grown(d, e)| <= MAX_VERSIONS {
      KeptAll(d, e, Demoted(r));
    } else if Demoted(r) !in kept {
      forall q | q in kept ensures r.version < q.version <= d.activeVersion + 1 {
        assert q in Grown(d, e);
      }
      CountBetween(kept, r.version, d.activeVersion + 1);
    }
  }

  lemma {:induction false} KeptAll(d: Document, e: Entry, r: PolicyVersion)
    requires ValidDocument(d) && r in Grown(d, e) && |Grown(d, e)| <= MAX_VERSIONS
    ensures r in Next(d, e).versions
  {
  }

  lemma {:induction false} CountBetween(vs: seq<PolicyVersion>, low: nat, high: nat)
    requires DistinctVersions(vs) && low <= high
    requires forall q :: q in vs ==> low < q.version <= high
    ensures |vs| <= high - low
  {
    CountVersions(vs);
    CountUpTo(low, high);
    SubsetSize(VersionsOf(vs), UpTo(low, high));
  }

  /** The numbers above `low` up to `high`. */
  function UpTo(low: nat, high: nat): set<nat> {
    if high <= low then {} else UpTo(low, high - 1) + {high}
  }

  lemma {:induction false} CountUpTo(low: nat, high: nat)
    requires low <= high
    ensures |UpTo(low, high)| == high - low
    ensures forall n: nat :: n in UpTo(low, high) <==> low < n <= high
  {
    if low < high {
      CountUpTo(low, high - 1);
    }
  }

  /** The write of this attempt was applied: the document right after its snapshot is its own. */
  ghost predicate WasApplied(docs: seq<Document>, a: Attempt) {
    a.snapshot.revision < |docs| && docs[a.snapshot.revision] == a.next
  }

  /**
   * A conflict found on reloading does not say whether the write took effect. The reloaded document does, as long as it
   * can: it holds the record the call meant to add exactly if the write took effect and at most nineteen commits
   * followed.
   */
  lemma {:induction false} ConflictTellsExactly(states: seq<System>, steps: seq<Step>, n: nat)
    requires IsRun(states, steps) && n < |steps|
    requires Move(states[n], steps[n]).1 == Some(CommittedConcurrently)
    ensures steps[n].Reconcile?
    ensures
      var docs, a := states[n].docs, states[n].managers[steps[n].m].phase.attempt;
      Keeps(docs[|docs| - 1], ActiveOf(a.next)) <==> WasApplied(docs, a) && |docs| - a.snapshot.revision <= MAX_VERSIONS
  {
    RunsAreConsistent(states, steps, n);
    OnlyReconcilingSettles(states[n], steps[n]);
    ReconcilingTells(states[n], steps[n].m);
  }

  /** The last document holds the record of an applied attempt, while recent, and of no other. */
  ghost predicate Tells(docs: seq<Document>, a: Attempt)
    requires docs != [] && ValidDocument(a.next)
  {
    Keeps(docs[|docs| - 1], ActiveOf(a.next)) <==> WasApplied(docs, a) && |docs| - a.snapshot.revision <= MAX_VERSIONS
  }

  lemma {:induction false} ReconcilingTells(sys: System, m: nat)
    requires Consistent(sys) && Sound(sys) && m in sys.managers && sys.managers[m].phase.Unsure?
    ensures Tells(sys.docs, sys.managers[m].phase.attempt)
  {
    AttemptTells(sys.docs, sys.managers[m].phase.attempt);
  }

  lemma {:induction false} AttemptTells(docs: seq<Document>, a: Attempt)
    requires IsChain(docs) && AttemptOk(docs, a)
    ensures Tells(docs, a)
  {
    if Keeps(docs[|docs| - 1], ActiveOf(a.next)) {
      KeptMeansApplied(docs, a);
      KeptIsRecent(docs, |docs| - 1, a.snapshot.revision);
    } else if WasApplied(docs, a) && |docs| - a.snapshot.revision <= MAX_VERSIONS {
      RecentStays(docs, |docs| - 1, a.snapshot.revision);
    }
  }

  /** From the twentieth commit on, a document's versions are the twenty latest. */
  lemma {:induction false} LatestTwenty(docs: seq<Document>, i: nat)
    requires IsChain(docs) && MAX_VERSIONS <= i < |docs|
    ensures docs[i].activeVersion >= MAX_VERSIONS
    ensures UpTo(docs[i].activeVersion - MAX_VERSIONS, docs[i].activeVersion) <= VersionsOf(docs[i].versions)
  {
    var top := docs[i].activeVersion;
    VersionsCount(docs, i);
    CountUpTo(top - MAX_VERSIONS, top);
    forall n | n in UpTo(top - MAX_VERSIONS, top) ensures n in VersionsOf(docs[i].versions) {
      var j := i - (top - n);
      RecentStays(docs, i, j);
      VersionsCount(docs, j);
      var r :| r in docs[i].versions && SameButStatus(r, ActiveOf(docs[j]));
    }
  }

  lemma {:induction false} RoomForTwenty(vs: seq<PolicyVersion>, latest: set<nat>, version: nat)
    requires DistinctVersions(vs) && |vs| <= MAX_VERSIONS == |latest|
    requires latest <= VersionsOf(vs) && version in VersionsOf(vs)
    ensures version in latest
  {
    CountVersions(vs);
    SubsetSize(latest + {version}, VersionsOf(vs));
  }

  lemma {:induction false} OnlyLatest(docs: seq<Document>, i: nat, version: nat)
    requires IsChain(docs) && MAX_VERSIONS <= i < |docs| && version in VersionsOf(docs[i].versions)
    ensures version > docs[i].activeVersion - MAX_VERSIONS
  {
    var top := docs[i].activeVersion;
    LatestTwenty(docs, i);
    CountUpTo(top - MAX_VERSIONS, top);
    RoomForTwenty(docs[i].versions, UpTo(top - MAX_VERSIONS, top), version);
  }

  /** Twenty commits on, a record has given way to later ones. */
  lemma {:induction false} KeptIsRecent(docs: seq<Document>, i: nat, k: nat)
    requires IsChain(docs) && k <= i < |docs| && Keeps(docs[i], ActiveOf(docs[k]))
    ensures i - k < MAX_VERSIONS
  {
    if i >= MAX_VERSIONS {
      OnlyLatest(docs, i, docs[k].activeVersion);
      VersionsCount(docs, i);
      VersionsCount(docs, k);
    }
  }

  lemma {:induction false} KeptMeansApplied(docs: seq<Document>, a: Attempt)
    requires IsChain(docs) && AttemptOk(docs, a) && Keeps(docs[|docs| - 1], ActiveOf(a.next))
    ensures WasApplied(docs, a)
  {
    KeptTracesBack(docs, |docs| - 1, ActiveOf(a.next));
    TracedMeansApplied(docs, a);
  }

  lemma {:induction false} TracedMeansApplied(docs: seq<Document>, a: Attempt)
    requires IsChain(docs) && AttemptOk(docs, a) && TracesBack(docs, ActiveOf(a.next))
    ensures WasApplied(docs, a)
  {
    AttemptCounts(docs, a);
    assert IsLink(docs, a.snapshot.revision);
  }

  /**
   * It can take effect: a write that is applied with its response lost, and that the next commit builds on before the
   * reload, is reported as a conflict, whatever the document and the two entries are.
   */
  lemma {:induction false} OvertakenWriteReportsConflict(repo: Snapshot, m: Manager, mine: Entry, other: Entry)
    requires ValidDocument(repo.document)
    ensures ValidDocument(Next(repo.document, mine)) && ValidDocument(Next(Next(repo.document, mine), other))
    ensures
      var a := Attempt(repo, Next(repo.document, mine));
      var written := CompareAndSwap(repo, a.next, a.snapshot.revision, ResponseLost);
      var overtaken := CompareAndSwap(written.0, Next(written.0.document, other), written.0.revision, NoFault);
      && written.0.document == a.next && Swapped(m, a, written.1) == (m.(phase := Unsure(a)), None)
      && overtaken.1.Stored?
      && Reconciled(m, a, Some(overtaken.0)).1 == Some(CommittedConcurrently)
  {
    var d := Next(repo.document, mine);
    CommitKeepsValid(repo.document, mine);
    CommitKeepsValid(d, other);
  }
}
