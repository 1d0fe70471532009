/** Several managers committing to one repository, their atomic phases interleaved in any order. */
module PolicyProtocol {
  import opened Wrappers
  import opened PolicyModel
  import opened PolicyManagement

  /**
   * `docs` is the durable history, first document first, and `authors` says which manager wrote each;
   * the repository holds the last one, under a revision that counts them.
   */
  datatype System = System(docs: seq<Document>, authors: seq<nat>, managers: map<nat, Manager>)

  function Repo(sys: System): Snapshot
    requires sys.docs != []
  {
    Snapshot(sys.docs[|sys.docs| - 1], |sys.docs|)
  }

  datatype Step =
    | StartManager(m: nat)
    | LoadForCommit(m: nat, base: nat, entry: Entry)
    | LoadForRollback(m: nat, target: nat, base: nat, createdAt: real, createdBy: string, note: string)
    | LoadAgain(m: nat)
    | Write(m: nat, fault: Fault)
    | Reconcile(m: nat, reachable: bool)

  ghost predicate Enabled(sys: System, step: Step) {
    match step
    case StartManager(m) => m !in sys.managers
    case LoadForCommit(m, _, e) => m in sys.managers && sys.managers[m].phase == Idle && e.rollbackFrom.None?
    case LoadForRollback(m, _, _, _, _, _) => m in sys.managers && sys.managers[m].phase == Idle
    case LoadAgain(m) => m in sys.managers && sys.managers[m].phase.Rolling?
    case Write(m, _) => m in sys.managers && sys.managers[m].phase.Prepared?
    case Reconcile(m, _) => m in sys.managers && sys.managers[m].phase.Unsure?
  }

  ghost predicate Sound(sys: System) {
    && sys.docs != [] && (forall d :: d in sys.docs ==> ValidDocument(d))
    && (forall m :: m in sys.managers && (sys.managers[m].phase.Prepared? || sys.managers[m].phase.Unsure?) ==>
          ValidDocument(sys.managers[m].phase.attempt.next))
  }

  /** A manager's move on its own state, with the outcome if it ends a call. */
  ghost function Move(sys: System, step: Step): (Manager, Option<Outcome>)
    requires Sound(sys) && Enabled(sys, step)
  {
    var repo := Repo(sys);
    match step
    case StartManager(m) => (Manager(ActiveOf(repo.document), true, Idle), None)
    case LoadForCommit(m, base, e) => Prepare(sys.managers[m], repo, base, e)
    case LoadForRollback(m, target, base, at, who, note) =>
      FindTarget(sys.managers[m], repo, target, base, at, who, note)
    case LoadAgain(m) => Prepare(sys.managers[m], repo, sys.managers[m].phase.base, sys.managers[m].phase.entry)
    case Write(m, fault) =>
      var a := sys.managers[m].phase.attempt;
      Swapped(sys.managers[m], a, CompareAndSwap(repo, a.next, a.snapshot.revision, fault).1)
    case Reconcile(m, reachable) =>
      Reconciled(sys.managers[m], sys.managers[m].phase.attempt, if reachable then Some(repo) else None)
  }

  ghost predicate Applies(sys: System, step: Step)
    requires sys.docs != [] && Enabled(sys, step)
  {
    step.Write? && step.fault != RequestLost && sys.managers[step.m].phase.attempt.snapshot.revision == |sys.docs|
  }

  ghost function After(sys: System, step: Step): System
    requires Sound(sys) && Enabled(sys, step)
  {
    var moved := sys.managers[step.m := Move(sys, step).0];
    if Applies(sys, step)
    then System(sys.docs + [sys.managers[step.m].phase.attempt.next], sys.authors + [step.m], moved)
    else sys.(managers := moved)
  }

  /** The step's effect on the repository is the repository's own compare-and-swap. */
  lemma {:induction false} WritesAreSwaps(sys: System, step: Step)
    requires Sound(sys) && Enabled(sys, step)
    ensures
      var before, after := Repo(sys), Repo(After(sys, step));
      if step.Write? then
        var a := sys.managers[step.m].phase.attempt;
        after == CompareAndSwap(before, a.next, a.snapshot.revision, step.fault).0
      else after == before
  {
  }

  // ---------- the invariant ----------

  ghost predicate IsInitial(sys: System) {
    && |sys.docs| == 1 == |sys.authors| && ValidDocument(sys.docs[0])
    && sys.managers == map[]
  }

  /** `after` is `before` with one entry committed on top. */
  ghost predicate Extends(before: Document, after: Document) {
    ValidDocument(before) && ValidDocument(after) && after == Next(before, EntryOf(ActiveOf(after)))
  }

  ghost predicate IsLink(docs: seq<Document>, i: int) {
    0 < i < |docs| && Extends(docs[i - 1], docs[i])
  }

  /** Each document extends the one before it. */
  ghost predicate IsChain(docs: seq<Document>) {
    && docs != []
    && (forall i :: 0 <= i < |docs| ==> ValidDocument(docs[i]))
    && (forall i :: 0 < i < |docs| ==> IsLink(docs, i))
  }

  /** Some durable record of this version carries this policy. */
  ghost predicate Denotes(docs: seq<Document>, version: nat, policy: PolicyDraft) {
    exists i, r :: 0 <= i < |docs| && r in docs[i].versions && r.version == version && r.policy == policy
  }

  /** The record was the durable active one at some point. */
  ghost predicate WasActive(docs: seq<Document>, record: PolicyVersion) {
    exists i :: 0 <= i < |docs| && IsActiveIn(docs[i], record)
  }

  ghost predicate IsActiveIn(d: Document, record: PolicyVersion) {
    record in d.versions && record.version == d.activeVersion && record.status == Active
  }

  ghost predicate RollsBackTruly(docs: seq<Document>, e: Entry) {
    e.rollbackFrom.Some? ==> Denotes(docs, e.rollbackFrom.value, e.policy)
  }

  /** What a call in flight knows: its snapshot is a durable document, and its next document follows from it. */
  ghost predicate AttemptOk(docs: seq<Document>, a: Attempt) {
    && 1 <= a.snapshot.revision <= |docs|
    && a.snapshot.document == docs[a.snapshot.revision - 1]
    && Extends(a.snapshot.document, a.next)
    && RollsBackTruly(docs, EntryOf(ActiveOf(a.next)))
  }

  ghost predicate ManagerOk(sys: System, m: nat)
    requires m in sys.managers
  {
    var manager := sys.managers[m];
    && WasActive(sys.docs, manager.active)
    && match manager.phase
       case Idle => true
       case Rolling(_, e) => RollsBackTruly(sys.docs, e)
       case Prepared(a) =>
         && AttemptOk(sys.docs, a)
         && |sys.authors| == |sys.docs|
         && forall i :: a.snapshot.revision <= i < |sys.docs| ==> sys.authors[i] != m
       case Unsure(a) => AttemptOk(sys.docs, a)
  }

  ghost predicate Consistent(sys: System) {
    && IsChain(sys.docs) && |sys.authors| == |sys.docs|
    && (forall m :: m in sys.managers ==> ManagerOk(sys, m))
    && RollbacksAreTrue(sys.docs)
  }

  lemma {:induction false} ConsistentIsSound(sys: System)
    requires Consistent(sys)
    ensures Sound(sys)
  {
    forall m | m in sys.managers && (sys.managers[m].phase.Prepared? || sys.managers[m].phase.Unsure?)
      ensures ValidDocument(sys.managers[m].phase.attempt.next)
    {
      assert ManagerOk(sys, m);
    }
  }

  lemma {:induction false} DenotesForGood(docs: seq<Document>, more: seq<Document>, version: nat, policy: PolicyDraft)
    requires Denotes(docs, version, policy)
    ensures Denotes(docs + more, version, policy)
  {
    var i, r :| 0 <= i < |docs| && r in docs[i].versions && r.version == version && r.policy == policy;
    assert (docs + more)[i] == docs[i];
  }

  lemma {:induction false} AttemptStaysOk(docs: seq<Document>, more: seq<Document>, a: Attempt)
    requires AttemptOk(docs, a)
    ensures AttemptOk(docs + more, a)
  {
    var e := EntryOf(ActiveOf(a.next));
    if e.rollbackFrom.Some? {
      DenotesForGood(docs, more, e.rollbackFrom.value, e.policy);
    }
  }

  lemma {:induction false} WasActiveForGood(docs: seq<Document>, more: seq<Document>, record: PolicyVersion)
    requires WasActive(docs, record)
    ensures WasActive(docs + more, record)
  {
    var i :| 0 <= i < |docs| && IsActiveIn(docs[i], record);
    assert (docs + more)[i] == docs[i];
  }

  /** The manager that does not move keeps what it knows while the history grows. */
  lemma {:induction false} OthersKeep(sys: System, t: System, m: nat, writer: nat, more: seq<Document>)
    requires m in sys.managers && ManagerOk(sys, m) && |sys.authors| == |sys.docs|
    requires m in t.managers && t.managers[m] == sys.managers[m]
    requires t.docs == sys.docs + more
            && ((t.authors == sys.authors && more == [])
                || (|more| == 1 && t.authors == sys.authors + [writer] && writer != m))
    ensures ManagerOk(t, m)
  {
    var manager := sys.managers[m];
    WasActiveForGood(sys.docs, more, manager.active);
    match manager.phase
    case Idle =>
    case Rolling(_, e) =>
      if e.rollbackFrom.Some? {
        DenotesForGood(sys.docs, more, e.rollbackFrom.value, e.policy);
      }
    case Prepared(a) => AttemptStaysOk(sys.docs, more, a);
    case Unsure(a) => AttemptStaysOk(sys.docs, more, a);
  }

  lemma {:induction false} LastWasActive(docs: seq<Document>)
    requires docs != [] && ValidDocument(docs[|docs| - 1])
    ensures WasActive(docs, ActiveOf(docs[|docs| - 1]))
  {
    assert IsActiveIn(docs[|docs| - 1], ActiveOf(docs[|docs| - 1]));
  }

  lemma {:induction false} PreparedIsOk(docs: seq<Document>, e: Entry) returns (a: Attempt)
    requires IsChain(docs) && RollsBackTruly(docs, e)
    ensures a == Attempt(Snapshot(docs[|docs| - 1], |docs|), Next(docs[|docs| - 1], e))
    ensures AttemptOk(docs, a)
  {
    var d := docs[|docs| - 1];
    CommitKeepsValid(d, e);
    a := Attempt(Snapshot(d, |docs|), Next(d, e));
  }

  lemma {:induction false} ChainGrows(docs: seq<Document>, a: Attempt)
    requires IsChain(docs) && AttemptOk(docs, a) && a.snapshot.revision == |docs|
    ensures IsChain(docs + [a.next])
  {
    var all := docs + [a.next];
    forall i | 0 < i < |all| ensures IsLink(all, i) {
      if i < |docs| {
        assert IsLink(docs, i) && all[i] == docs[i] && all[i - 1] == docs[i - 1];
      }
    }
  }

  // ---------- what a step does, case by case ----------

  lemma {:induction false} WriteEffect(sys: System, step: Step)
    requires Sound(sys) && Enabled(sys, step) && step.Write?
    ensures
      var manager, a, t := sys.managers[step.m], sys.managers[step.m].phase.attempt, After(sys, step);
      var ok := a.snapshot.revision == |sys.docs|;
      && step.m in t.managers
      && t.docs == (if ok && step.fault != RequestLost then sys.docs + [a.next] else sys.docs)
      && (t.managers[step.m], Move(sys, step).1) ==
         (if step.fault != NoFault then (manager.(phase := Unsure(a)), None)
          else if ok then (Manager(ActiveOf(a.next), true, Idle),
              Some(Published(ActiveOf(a.next), a.snapshot.document.activeVersion)))
          else (manager.(phase := Idle), Some(CasConflict)))
  {
  }

  lemma {:induction false} ReconcileEffect(sys: System, step: Step)
    requires Sound(sys) && Enabled(sys, step) && step.Reconcile?
    ensures
      var manager, a, t := sys.managers[step.m], sys.managers[step.m].phase.attempt, After(sys, step);
      var last := sys.docs[|sys.docs| - 1];
      && step.m in t.managers && t.docs == sys.docs && t.authors == sys.authors && last in sys.docs
      && t.managers[step.m].phase == Idle
      && t.managers[step.m].active in {manager.active, ActiveOf(last)} && t.managers[step.m].ready == step.reachable
      && (step.reachable && (last == a.next || |sys.docs| != a.snapshot.revision || last != a.snapshot.document) ==>
            t.managers[step.m].active == ActiveOf(last))
      && (!step.reachable || (last != a.next && |sys.docs| == a.snapshot.revision && last == a.snapshot.document) ==>
            t.managers[step.m].active == manager.active)
      && Move(sys, step).1 ==
         (if !step.reachable then Some(OutcomeUnknown)
          else if last == a.next then Some(Published(ActiveOf(a.next), a.snapshot.document.activeVersion))
          else if |sys.docs| == a.snapshot.revision && last == a.snapshot.document then Some(WriteNotCommitted)
          else Some(CommittedConcurrently))
      && (step.reachable && last == a.next ==> t.managers[step.m].active == ActiveOf(a.next))
  {
  }

  /** The other steps read, and settle nothing about a write. */
  lemma {:induction false} LoadEffect(sys: System, step: Step)
    requires Sound(sys) && Enabled(sys, step) && !step.Write? && !step.Reconcile?
    ensures
      var t, o := After(sys, step), Move(sys, step).1;
      && step.m in t.managers && t.docs == sys.docs && t.authors == sys.authors
      && (o.Some? ==> o.value == StaleBase || o.value == TargetNotFound)
  {
  }

  // ---------- every step keeps the invariant ----------

  lemma {:induction false} IdleIsOk(sys: System, m: nat)
    requires m in sys.managers && sys.managers[m].phase == Idle
    requires WasActive(sys.docs, sys.managers[m].active)
    ensures ManagerOk(sys, m)
  {
  }

  lemma {:induction false} RollingIsOk(sys: System, m: nat, base: nat, e: Entry)
    requires m in sys.managers && sys.managers[m].phase == Rolling(base, e) && RollsBackTruly(sys.docs, e)
    requires WasActive(sys.docs, sys.managers[m].active)
    ensures ManagerOk(sys, m)
  {
  }

  lemma {:induction false} FreshIsOk(sys: System, m: nat, a: Attempt)
    requires m in sys.managers && sys.managers[m].phase == Prepared(a) && AttemptOk(sys.docs, a)
    requires a.snapshot.revision == |sys.docs| == |sys.authors|
    requires WasActive(sys.docs, sys.managers[m].active)
    ensures ManagerOk(sys, m)
  {
  }

  lemma {:induction false} UnsureIsOk(sys: System, m: nat)
    requires m in sys.managers && sys.managers[m].phase.Unsure? && AttemptOk(sys.docs, sys.managers[m].phase.attempt)
    requires WasActive(sys.docs, sys.managers[m].active)
    ensures ManagerOk(sys, m)
  {
  }

  lemma {:induction false} WriterKeeps(sys: System, step: Step)
    requires Consistent(sys) && Sound(sys) && Enabled(sys, step) && step.Write?
    ensures ManagerOk(After(sys, step), step.m)
  {
    WriteEffect(sys, step);
    var t, manager := After(sys, step), sys.managers[step.m];
    var more := if Applies(sys, step) then [manager.phase.attempt.next] else [];
    WasActiveForGood(sys.docs, more, manager.active);
    if step.fault != NoFault {
      UnsureWriterKeeps(sys, step, t, more);
    } else {
      LastWasActive(t.docs);
      IdleIsOk(t, step.m);
    }
  }

  lemma {:induction false} UnsureWriterKeeps(sys: System, step: Step, t: System, more: seq<Document>)
    requires step.Write? && step.m in sys.managers && ManagerOk(sys, step.m) && sys.managers[step.m].phase.Prepared?
    requires t.docs == sys.docs + more
    requires step.m in t.managers
    requires t.managers[step.m] == sys.managers[step.m].(phase := Unsure(sys.managers[step.m].phase.attempt))
    ensures ManagerOk(t, step.m)
  {
    var manager := sys.managers[step.m];
    AttemptStaysOk(sys.docs, more, manager.phase.attempt);
    WasActiveForGood(sys.docs, more, manager.active);
    UnsureIsOk(t, step.m);
  }

  lemma {:induction false} ReconcilerKeeps(sys: System, step: Step)
    requires Consistent(sys) && Sound(sys) && Enabled(sys, step) && step.Reconcile?
    ensures ManagerOk(After(sys, step), step.m)
  {
    ReconcileEffect(sys, step);
    LastWasActive(sys.docs);
    IdleIsOk(After(sys, step), step.m);
  }

  lemma {:induction false} PreparerKeeps(sys: System, m: nat, base: nat, e: Entry, manager: Manager)
    requires IsChain(sys.docs) && |sys.authors| == |sys.docs| && RollsBackTruly(sys.docs, e)
    requires WasActive(sys.docs, manager.active)
    requires m in sys.managers && sys.managers[m] == Prepare(manager, Repo(sys), base, e).0
    ensures ManagerOk(sys, m)
  {
    if sys.managers[m].phase == Idle {
      IdleIsOk(sys, m);
    } else {
      var a := PreparedIsOk(sys.docs, e);
      FreshIsOk(sys, m, a);
    }
  }

  lemma {:induction false} StarterKeeps(sys: System, step: Step)
    requires Consistent(sys) && Sound(sys) && Enabled(sys, step) && step.StartManager?
    ensures ManagerOk(After(sys, step), step.m)
  {
    LastWasActive(sys.docs);
    IdleIsOk(After(sys, step), step.m);
  }

  lemma {:induction false} PrepareEffect(sys: System, step: Step, base: nat, e: Entry)
    requires Sound(sys) && Enabled(sys, step)
    requires
      || step == LoadForCommit(step.m, base, e)
      || (step.LoadAgain? && sys.managers[step.m].phase == Rolling(base, e))
    ensures
      var t := After(sys, step);
      && t.docs == sys.docs && t.authors == sys.authors && step.m in t.managers
      && t.managers[step.m] == Prepare(sys.managers[step.m], Repo(sys), base, e).0
  {
  }

  lemma {:induction false} CommitLoaderKeeps(sys: System, step: Step)
    requires Consistent(sys) && Sound(sys) && Enabled(sys, step) && step.LoadForCommit?
    ensures ManagerOk(After(sys, step), step.m)
  {
    PrepareEffect(sys, step, step.base, step.entry);
    PreparerKeeps(After(sys, step), step.m, step.base, step.entry, sys.managers[step.m]);
  }

  lemma {:induction false} RollerKnows(sys: System, m: nat, base: nat, e: Entry)
    requires Consistent(sys) && m in sys.managers && sys.managers[m].phase == Rolling(base, e)
    ensures RollsBackTruly(sys.docs, e) && WasActive(sys.docs, sys.managers[m].active)
  {
  }

  lemma {:induction false} AgainLoaderKeeps(sys: System, step: Step)
    requires Consistent(sys) && Sound(sys) && Enabled(sys, step) && step.LoadAgain?
    ensures ManagerOk(After(sys, step), step.m)
  {
    var base, e := sys.managers[step.m].phase.base, sys.managers[step.m].phase.entry;
    RollerKnows(sys, step.m, base, e);
    PrepareEffect(sys, step, base, e);
    PreparerKeeps(After(sys, step), step.m, base, e, sys.managers[step.m]);
  }

  lemma {:induction false} LoaderKeeps(sys: System, step: Step)
    requires Consistent(sys) && Sound(sys) && Enabled(sys, step) && !step.Write? && !step.Reconcile?
    ensures ManagerOk(After(sys, step), step.m)
  {
    match step
    case StartManager(_) => StarterKeeps(sys, step);
    case LoadForCommit(_, _, _) => CommitLoaderKeeps(sys, step);
    case LoadForRollback(_, _, _, _, _, _) => FinderKeeps(sys, step);
    case LoadAgain(_) => AgainLoaderKeeps(sys, step);
  }

  lemma {:induction false} FinderKeeps(sys: System, step: Step)
    requires Consistent(sys) && Sound(sys) && Enabled(sys, step) && step.LoadForRollback?
    ensures ManagerOk(After(sys, step), step.m)
  {
    LoadEffect(sys, step);
    var last := |sys.docs| - 1;
    var found := Find(sys.docs[last].versions, step.target);
    if found.Some? {
      assert found.value in sys.docs[last].versions;
      var e := Entry(step.createdAt, step.createdBy, step.note, Some(step.target), found.value.policy);
      RollingIsOk(After(sys, step), step.m, step.base, e);
    } else {
      IdleIsOk(After(sys, step), step.m);
    }
  }

  lemma {:induction false} StepKeepsConsistent(sys: System, step: Step)
    requires Consistent(sys) && Sound(sys) && Enabled(sys, step)
    ensures Consistent(After(sys, step))
  {
    var t := After(sys, step);
    MoverKeeps(sys, step);
    var more := if Applies(sys, step) then [sys.managers[step.m].phase.attempt.next] else [];
    assert t.docs == sys.docs + more;
    forall m | m in t.managers ensures ManagerOk(t, m) {
      if m != step.m {
        assert m in sys.managers && ManagerOk(sys, m);
        OthersKeep(sys, t, m, step.m, more);
      }
    }
    if Applies(sys, step) {
      AppliedKeepsHistory(sys, step.m);
    }
  }

  lemma {:induction false} MoverKeeps(sys: System, step: Step)
    requires Consistent(sys) && Sound(sys) && Enabled(sys, step)
    ensures ManagerOk(After(sys, step), step.m)
  {
    if step.Write? {
      WriterKeeps(sys, step);
    } else if step.Reconcile? {
      ReconcilerKeeps(sys, step);
    } else {
      LoaderKeeps(sys, step);
    }
  }

  ghost predicate RollbacksAreTrue(docs: seq<Document>)
    requires forall d :: d in docs ==> ValidDocument(d)
  {
    forall i :: 0 < i < |docs| ==> RollbackIsTrue(docs, i)
  }

  /** If the i-th document is a rollback, an earlier one held the target with the same policy. */
  ghost predicate RollbackIsTrue(docs: seq<Document>, i: int)
    requires 0 < i < |docs| && ValidDocument(docs[i])
  {
    RollsBackTruly(docs[..i], EntryOf(ActiveOf(docs[i])))
  }

  lemma {:induction false} PrefixOfAppended<T>(xs: seq<T>, x: T, i: nat)
    requires i <= |xs|
    ensures (xs + [x])[..i] == xs[..i]
    ensures xs[..|xs|] == xs
  {
  }

  lemma {:induction false} AppliedKeepsHistory(sys: System, m: nat)
    requires Consistent(sys) && m in sys.managers && sys.managers[m].phase.Prepared?
    requires sys.managers[m].phase.attempt.snapshot.revision == |sys.docs|
    ensures
      var docs := sys.docs + [sys.managers[m].phase.attempt.next];
      IsChain(docs) && RollbacksAreTrue(docs)
  {
    assert ManagerOk(sys, m);
    var a := sys.managers[m].phase.attempt;
    ChainGrows(sys.docs, a);
    var docs := sys.docs + [a.next];
    forall i | 0 < i < |docs| ensures RollbackIsTrue(docs, i) {
      PrefixOfAppended(sys.docs, a.next, i);
      if i < |sys.docs| {
        assert RollbackIsTrue(sys.docs, i);
      }
    }
  }

  ghost predicate IsRun(states: seq<System>, steps: seq<Step>) {
    && |states| == |steps| + 1 && IsInitial(states[0])
    && forall i :: 0 <= i < |steps| ==>
         Sound(states[i]) && Enabled(states[i], steps[i]) && states[i + 1] == After(states[i], steps[i])
  }

  lemma {:induction false} RunsAreConsistent(states: seq<System>, steps: seq<Step>, n: nat)
    requires IsRun(states, steps) && n < |states|
    ensures Consistent(states[n])
  {
    if n > 0 {
      RunsAreConsistent(states, steps, n - 1);
      StepKeepsConsistent(states[n - 1], steps[n - 1]);
    }
  }

  /** Every step a run has enabled continues it: that its states are sound excludes none. */
  lemma {:induction false} RunsContinue(states: seq<System>, steps: seq<Step>, step: Step)
    requires IsRun(states, steps) && Enabled(states[|states| - 1], step)
    ensures Sound(states[|states| - 1])
    ensures IsRun(states + [After(states[|states| - 1], step)], steps + [step])
  {
    RunsAreConsistent(states, steps, |steps|);
    ConsistentIsSound(states[|steps|]);
    RunsExtend(states, steps, step);
  }

  lemma {:induction false} RunsExtend(states: seq<System>, steps: seq<Step>, step: Step)
    requires IsRun(states, steps) && Sound(states[|states| - 1]) && Enabled(states[|states| - 1], step)
    ensures IsRun(states + [After(states[|states| - 1], step)], steps + [step])
  {
    var n, more, all := |steps|, states + [After(states[|states| - 1], step)], steps + [step];
    forall i | 0 <= i < |all|
      ensures Sound(more[i]) && Enabled(more[i], all[i]) && more[i + 1] == After(more[i], all[i])
    {
      assert more[i] == states[i];
      if i < n {
        assert more[i + 1] == states[i + 1] && all[i] == steps[i];
      }
    }
  }

  /** What was loaded under a revision is what that revision names for ever: equal revisions, equal documents. */
  lemma {:induction false} RevisionNamesDocument(states: seq<System>, steps: seq<Step>, i: nat, n: nat)
    requires IsRun(states, steps) && i <= n < |states|
    ensures states[i].docs != [] && states[i].docs <= states[n].docs
    ensures Repo(states[i]).revision == Repo(states[n]).revision <==> Repo(states[i]) == Repo(states[n])
  {
    RunsAreConsistent(states, steps, i);
    if i < n {
      RevisionNamesDocument(states, steps, i, n - 1);
    }
    var before, after := states[i].docs, states[n].docs;
    assert before == after[..|before|] && (|before| == |after| ==> after[..|before|] == after);
  }

  // ---------- linearizability ----------

  lemma {:induction false} VersionsCount(docs: seq<Document>, i: nat)
    requires IsChain(docs) && i < |docs|
    ensures docs[i].activeVersion == docs[0].activeVersion + i
  {
    if i > 0 {
      VersionsCount(docs, i - 1);
      assert IsLink(docs, i);
      CommitKeepsValid(docs[i - 1], EntryOf(ActiveOf(docs[i])));
    }
  }

  /** Each durable document adds exactly one record to the one before it, numbered one higher. */
  lemma {:induction false} HistoryIsAChain(states: seq<System>, steps: seq<Step>, n: nat, i: nat)
    requires IsRun(states, steps) && n < |states| && 0 < i < |states[n].docs|
    ensures Consistent(states[n])
    ensures
      var before, after := states[n].docs[i - 1], states[n].docs[i];
      && Extends(before, after)
      && after.activeVersion == before.activeVersion + 1 == states[n].docs[0].activeVersion + i
  {
    RunsAreConsistent(states, steps, n);
    assert IsLink(states[n].docs, i);
    VersionsCount(states[n].docs, i);
    VersionsCount(states[n].docs, i - 1);
  }

  /** The record a call means to add, and how often the history has added it. */
  ghost predicate AddedAt(docs: seq<Document>, i: nat, record: PolicyVersion)
    requires IsChain(docs)
  {
    0 < i < |docs| && ActiveOf(docs[i]) == record
  }

  ghost predicate AddedOnce(docs: seq<Document>, record: PolicyVersion)
    requires IsChain(docs)
  {
    exists i: nat :: AddedAt(docs, i, record) && forall j: nat :: AddedAt(docs, j, record) ==> j == i
  }

  lemma {:induction false} AddedAtMostOnce(docs: seq<Document>, i: nat, j: nat, record: PolicyVersion)
    requires IsChain(docs) && AddedAt(docs, i, record) && AddedAt(docs, j, record)
    ensures i == j
  {
    VersionsCount(docs, i);
    VersionsCount(docs, j);
  }

  lemma {:induction false} AttemptCounts(docs: seq<Document>, a: Attempt)
    requires IsChain(docs) && AttemptOk(docs, a)
    ensures a.next.activeVersion == docs[0].activeVersion + a.snapshot.revision
  {
    VersionsCount(docs, a.snapshot.revision - 1);
    CommitKeepsValid(a.snapshot.document, EntryOf(ActiveOf(a.next)));
  }

  /** What is known of a call whose write is under way or unsure. */
  lemma {:induction false} CallInFlight(sys: System, m: nat)
    requires Consistent(sys) && m in sys.managers && (sys.managers[m].phase.Prepared? || sys.managers[m].phase.Unsure?)
    ensures
      var a := sys.managers[m].phase.attempt;
      && 1 <= a.snapshot.revision <= |sys.docs| == |sys.authors|
      && a.next.activeVersion == sys.docs[0].activeVersion + a.snapshot.revision
      && (sys.managers[m].phase.Prepared? ==> forall i :: a.snapshot.revision <= i < |sys.docs| ==> sys.authors[i] != m)
  {
    AttemptCounts(sys.docs, sys.managers[m].phase.attempt);
  }

  /** A call that answers `Published` answers while its own document is the durable one. */
  lemma {:induction false} PublishedIsLast(sys: System, step: Step, t: System)
    requires Sound(sys) && Enabled(sys, step) && t == After(sys, step)
    requires var o := Move(sys, step).1; o.Some? && o.value.Published?
    ensures step.Write? || step.Reconcile?
    ensures
      var next := sys.managers[step.m].phase.attempt.next;
      && t.docs != [] && t.docs[|t.docs| - 1] == next && t.docs[0] == sys.docs[0]
      && Move(sys, step).1.value.record == ActiveOf(next)
      && step.m in t.managers && t.managers[step.m].active == ActiveOf(next)
  {
    if step.Write? {
      WriteEffect(sys, step);
    } else if step.Reconcile? {
      ReconcileEffect(sys, step);
    } else {
      LoadEffect(sys, step);
    }
  }

  lemma {:induction false} PublishedIsAddedOnce(sys: System, m: nat, docs: seq<Document>)
    requires Consistent(sys) && Sound(sys)
    requires m in sys.managers && (sys.managers[m].phase.Prepared? || sys.managers[m].phase.Unsure?)
    requires IsChain(docs) && docs[0] == sys.docs[0] && docs[|docs| - 1] == sys.managers[m].phase.attempt.next
    ensures AddedOnce(docs, ActiveOf(sys.managers[m].phase.attempt.next))
  {
    CallInFlight(sys, m);
    LastIsAddedOnce(docs, sys.managers[m].phase.attempt.next);
  }

  /** A call that answers `Published` has its record in the history, exactly once; the write may have raised. */
  lemma {:induction false} PublishedMeansCommittedOnce(states: seq<System>, steps: seq<Step>, n: nat)
    requires IsRun(states, steps) && n < |steps|
    requires var o := Move(states[n], steps[n]).1; o.Some? && o.value.Published?
    ensures steps[n].Write? || steps[n].Reconcile?
    ensures IsChain(states[n + 1].docs)
    ensures
      var record := Move(states[n], steps[n]).1.value.record;
      && record == ActiveOf(states[n].managers[steps[n].m].phase.attempt.next)
      && AddedOnce(states[n + 1].docs, record)
      && states[n + 1].managers[steps[n].m].active == record
  {
    RunsAreConsistent(states, steps, n);
    RunsAreConsistent(states, steps, n + 1);
    PublishedIsLast(states[n], steps[n], states[n + 1]);
    PublishedIsAddedOnce(states[n], steps[n].m, states[n + 1].docs);
  }

  lemma {:induction false} LastIsAddedOnce(docs: seq<Document>, next: Document)
    requires IsChain(docs) && docs[|docs| - 1] == next && next.activeVersion > docs[0].activeVersion
    ensures AddedOnce(docs, ActiveOf(next))
  {
    var i := |docs| - 1;
    assert AddedAt(docs, i, ActiveOf(next));
    forall j: nat | AddedAt(docs, j, ActiveOf(next)) ensures j == i {
      AddedAtMostOnce(docs, i, j, ActiveOf(next));
    }
  }

  /** 'Was not committed' means just that: no record of that number is in the history, and the write changed nothing. */
  lemma {:induction false} NotCommittedMeansAbsent(states: seq<System>, steps: seq<Step>, n: nat)
    requires IsRun(states, steps) && n < |steps|
    requires Move(states[n], steps[n]).1 == Some(WriteNotCommitted)
    ensures steps[n].Reconcile? && states[n + 1].docs == states[n].docs
    ensures
      var a := states[n].managers[steps[n].m].phase.attempt;
      && |states[n].docs| == a.snapshot.revision
      && forall i, r :: 0 <= i < |states[n].docs| && r in states[n].docs[i].versions ==>
           r.version < a.next.activeVersion
  {
    RunsAreConsistent(states, steps, n);
    var sys, step := states[n], steps[n];
    OnlyReconcilingSettles(sys, step);
    ReconcileEffect(sys, step);
    CallInFlight(sys, step.m);
    AllVersionsBelow(sys.docs);
  }

  lemma {:induction false} OnlyReconcilingSettles(sys: System, step: Step)
    requires Sound(sys) && Enabled(sys, step)
    ensures var o := Move(sys, step).1;
            && (o == Some(WriteNotCommitted) || o == Some(CommittedConcurrently) ==> step.Reconcile?)
            && (o == Some(CasConflict) ==> step.Write?)
  {
    if step.Write? {
      WriteEffect(sys, step);
    } else if step.Reconcile? {
      ReconcileEffect(sys, step);
    } else {
      LoadEffect(sys, step);
    }
  }

  lemma {:induction false} AllVersionsBelow(docs: seq<Document>)
    requires IsChain(docs)
    ensures forall i, r :: 0 <= i < |docs| && r in docs[i].versions ==> r.version < docs[0].activeVersion + |docs|
  {
    forall i, r | 0 <= i < |docs| && r in docs[i].versions ensures r.version < docs[0].activeVersion + |docs| {
      VersionsCount(docs, i);
    }
  }

  /** A conflict from the compare-and-swap itself means this call has written nothing. */
  lemma {:induction false} CasConflictMeansNotCommitted(states: seq<System>, steps: seq<Step>, n: nat)
    requires IsRun(states, steps) && n < |steps|
    requires Move(states[n], steps[n]).1 == Some(CasConflict)
    ensures steps[n].Write? && states[n + 1].docs == states[n].docs
    ensures
      var a := states[n].managers[steps[n].m].phase.attempt;
      && |states[n].authors| == |states[n].docs| > a.snapshot.revision
      && forall i :: a.snapshot.revision <= i < |states[n].docs| ==> states[n].authors[i] != steps[n].m
  {
    RunsAreConsistent(states, steps, n);
    OnlyReconcilingSettles(states[n], steps[n]);
    WriteEffect(states[n], steps[n]);
    CallInFlight(states[n], steps[n].m);
  }

  // ---------- what a manager has in force ----------

  /**
   * The reload after an unsure write. Unless it fails, the manager is ready again, and unless it finds just what was
   * loaded for the commit, it has in force the active record of the last document of the history, whoever wrote that.
   * The answer tells which case it was.
   */
  lemma {:induction false} ReconcilingSettles(states: seq<System>, steps: seq<Step>, n: nat)
    requires IsRun(states, steps) && n < |steps| && steps[n].Reconcile?
    ensures steps[n].m in states[n + 1].managers && states[n].docs != [] && states[n + 1].docs == states[n].docs
    ensures
      var before, after := states[n].managers[steps[n].m], states[n + 1].managers[steps[n].m];
      var a, last := before.phase.attempt, states[n].docs[|states[n].docs| - 1];
      var o := Move(states[n], steps[n]).1;
      && after.phase == Idle && o.Some? && after.ready == steps[n].reachable
      && (o.value.OutcomeUnknown? <==> !steps[n].reachable)
      && (o.value.Published? <==> steps[n].reachable && last == a.next)
      && (o.value.WriteNotCommitted? <==>
            steps[n].reachable && last != a.next && |states[n].docs| == a.snapshot.revision
            && last == a.snapshot.document)
      && (o.value.CommittedConcurrently? <==>
            steps[n].reachable && last != a.next
            && (|states[n].docs| != a.snapshot.revision || last != a.snapshot.document))
      && (o.value.Published? || o.value.CommittedConcurrently? ==> IsActiveIn(last, after.active))
      && (o.value.WriteNotCommitted? || o.value.OutcomeUnknown? ==> after.active == before.active)
      && (o.value.Published? ==>
            o.value.record == after.active && o.value.previous == a.snapshot.document.activeVersion)
  {
    ReconcileEffect(states[n], steps[n]);
  }

  /**
   * The write. Stored, its record is in force and is the active one of the new last document; otherwise the manager
   * keeps what it had, and a conflict leaves the history alone.
   */
  lemma {:induction false} WritingSettles(states: seq<System>, steps: seq<Step>, n: nat)
    requires IsRun(states, steps) && n < |steps| && steps[n].Write?
    ensures steps[n].m in states[n + 1].managers && states[n + 1].docs != []
    ensures
      var before, after := states[n].managers[steps[n].m], states[n + 1].managers[steps[n].m];
      var a, docs := before.phase.attempt, states[n + 1].docs;
      var fits, o := a.snapshot.revision == |states[n].docs|, Move(states[n], steps[n]).1;
      && docs == (if fits && steps[n].fault != RequestLost then states[n].docs + [a.next] else states[n].docs)
      && (o.None? <==> steps[n].fault != NoFault)
      && (o.None? ==> after.phase == Unsure(a))
      && (o.Some? ==> after.phase == Idle && (o.value.Published? <==> fits) && (o.value.CasConflict? <==> !fits))
      && (o.Some? && fits ==>
            && after.ready && IsActiveIn(docs[|docs| - 1], after.active) && docs[|docs| - 1] == a.next
            && o.value == Published(after.active, a.snapshot.document.activeVersion))
      && (o.None? || !fits ==> after.active == before.active && after.ready == before.ready)
  {
    WriteEffect(states[n], steps[n]);
  }

  /** Loading changes neither what is in force nor the history; a manager starts ready, on the last active record. */
  lemma {:induction false} LoadingKeepsActive(states: seq<System>, steps: seq<Step>, n: nat)
    requires IsRun(states, steps) && n < |steps| && !steps[n].Write? && !steps[n].Reconcile?
    ensures steps[n].m in states[n + 1].managers && states[n].docs != [] && states[n + 1].docs == states[n].docs
    ensures
      var after := states[n + 1].managers[steps[n].m];
      if steps[n].StartManager? then after.ready && IsActiveIn(states[n].docs[|states[n].docs| - 1], after.active)
      else
        && steps[n].m in states[n].managers
        && after.active == states[n].managers[steps[n].m].active
        && after.ready == states[n].managers[steps[n].m].ready
  {
    LoadEffect(states[n], steps[n]);
  }

  /** A step moves one manager only. */
  lemma {:induction false} OthersStandStill(states: seq<System>, steps: seq<Step>, n: nat, other: nat)
    requires IsRun(states, steps) && n < |steps| && other != steps[n].m
    ensures other in states[n].managers <==> other in states[n + 1].managers
    ensures other in states[n].managers ==> states[n + 1].managers[other] == states[n].managers[other]
  {
    var sys, step := states[n], steps[n];
    assert Enabled(sys, step) && states[n + 1] == After(sys, step);
  }

  /**
   * A commit is prepared exactly if its base is the version in force; the document prepared has, as its active record,
   * just what the caller gave, numbered one higher.
   */
  lemma {:induction false} PreparingTellsEntry(states: seq<System>, steps: seq<Step>, n: nat)
    requires IsRun(states, steps) && n < |steps| && steps[n].LoadForCommit?
    ensures steps[n].m in states[n + 1].managers && states[n].docs != []
    ensures
      var after, o := states[n + 1].managers[steps[n].m], Move(states[n], steps[n]).1;
      var last, e := states[n].docs[|states[n].docs| - 1], steps[n].entry;
      && (o == Some(StaleBase) <==> steps[n].base != last.activeVersion)
      && (o == Some(StaleBase) ==> after.phase == Idle)
      && (o != Some(StaleBase) ==>
            && o.None? && after.phase.Prepared?
            && after.phase.attempt.snapshot == Snapshot(last, |states[n].docs|)
            && CarriesEntry(after.phase.attempt.next, last.activeVersion + 1, e))
  {
    var last := states[n].docs[|states[n].docs| - 1];
    assert Sound(states[n]) && last in states[n].docs;
    CommitKeepsValid(last, steps[n].entry);
    PrepareEffect(states[n], steps[n], steps[n].base, steps[n].entry);
  }

  /** The active record of the document has this number and these contents. */
  ghost predicate CarriesEntry(d: Document, version: nat, e: Entry) {
    && d.activeVersion == version
    && exists r :: r in d.versions && r.status == Active && r.version == version
         && r.createdAt == e.createdAt && r.createdBy == e.createdBy && r.changeNote == e.changeNote
         && r.rollbackFrom == e.rollbackFrom && r.policy == e.policy
  }

  /** A rollback carries its target's number and policy, as the document loaded first has them. */
  lemma {:induction false} RollingTellsTarget(states: seq<System>, steps: seq<Step>, n: nat)
    requires IsRun(states, steps) && n < |steps| && steps[n].LoadForRollback?
    ensures steps[n].m in states[n + 1].managers && states[n].docs != []
    ensures
      var after, o := states[n + 1].managers[steps[n].m], Move(states[n], steps[n]).1;
      var last, step := states[n].docs[|states[n].docs| - 1], steps[n];
      && (o == Some(TargetNotFound) <==> forall r :: r in last.versions ==> r.version != step.target)
      && (o == Some(TargetNotFound) ==> after.phase == Idle)
      && (o != Some(TargetNotFound) ==>
            && o.None? && after.phase.Rolling? && after.phase.base == step.base
            && exists r :: r in last.versions && r.version == step.target
                 && after.phase.entry
                    == Entry(step.createdAt, step.createdBy, step.note, Some(step.target), r.policy))
  {
    LoadEffect(states[n], steps[n]);
  }

  /** The second load of a rollback goes on with what the first one found. */
  lemma {:induction false} RollingOn(states: seq<System>, steps: seq<Step>, n: nat)
    requires IsRun(states, steps) && n < |steps| && steps[n].LoadAgain?
    ensures steps[n].m in states[n + 1].managers && states[n].docs != []
    ensures
      var after, o := states[n + 1].managers[steps[n].m], Move(states[n], steps[n]).1;
      var last, was := states[n].docs[|states[n].docs| - 1], states[n].managers[steps[n].m].phase;
      && (o == Some(StaleBase) <==> was.base != last.activeVersion)
      && (o == Some(StaleBase) ==> after.phase == Idle)
      && (o != Some(StaleBase) ==>
            && o.None? && after.phase.Prepared?
            && after.phase.attempt.snapshot == Snapshot(last, |states[n].docs|)
            && CarriesEntry(after.phase.attempt.next, last.activeVersion + 1, was.entry))
  {
    var last, was := states[n].docs[|states[n].docs| - 1], states[n].managers[steps[n].m].phase;
    assert Sound(states[n]) && last in states[n].docs;
    CommitKeepsValid(last, was.entry);
    PrepareEffect(states[n], steps[n], was.base, was.entry);
  }
}
