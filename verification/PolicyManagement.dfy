/** A versioned repository whose writes may be ambiguous, and a manager that commits to it in atomic phases. */
module PolicyManagement {
  import opened Wrappers
  import opened PolicyModel

  /** The n-th revision stands for the token "rev-n". */
  datatype Snapshot = Snapshot(document: Document, revision: nat)

  /** A write may be lost on the way there, or applied with its response lost on the way back. */
  datatype Fault = NoFault | RequestLost | ResponseLost

  datatype CasReply = Stored(snapshot: Snapshot) | RevisionConflict | Unavailable

  function CompareAndSwap(repo: Snapshot, document: Document, expected: nat, fault: Fault): (Snapshot, CasReply) {
    if expected != repo.revision then (repo, if fault == NoFault then RevisionConflict else Unavailable)
    else if fault == RequestLost then (repo, Unavailable)
    else
      var stored := Snapshot(document, repo.revision + 1);
      (stored, if fault == NoFault then Stored(stored) else Unavailable)
  }

  // ---------- policy_repository.py ----------

  class PolicyRepository {
    var document: Document
    var revisionCounter: nat

    function View(): Snapshot
      reads this
    {
      Snapshot(document, revisionCounter)
    }

    constructor (document: Document)
      ensures View() == Snapshot(document, 1)
    {
      this.document, revisionCounter := document, 1;
    }

    /** Until somebody else swaps, a swap against what was loaded goes through. */
    method Load() returns (snapshot: Snapshot)
      ensures snapshot == View()
      ensures forall d :: CompareAndSwap(View(), d, snapshot.revision, NoFault).1.Stored?
    {
      snapshot := Snapshot(document, revisionCounter);
    }

    method Swap(document: Document, expected: nat, fault: Fault) returns (reply: CasReply)
      modifies this
      ensures (View(), reply) == CompareAndSwap(old(View()), document, expected, fault)
    {
      if expected != revisionCounter {
        return if fault == NoFault then RevisionConflict else Unavailable;
      }
      if fault == RequestLost {
        return Unavailable;
      }
      revisionCounter := revisionCounter + 1;
      this.document := document;
      reply := if fault == NoFault then Stored(Snapshot(document, revisionCounter)) else Unavailable;
    }
  }

  // ---------- the manager's phases, as functions ----------

  /** A commit under way: what was loaded, and the document to be written over it. */
  datatype Attempt = Attempt(snapshot: Snapshot, next: Document)

  datatype Phase =
    | Idle
    | Rolling(base: nat, entry: Entry)   // a rollback that has found its target and not yet loaded again
    | Prepared(attempt: Attempt)
    | Unsure(attempt: Attempt)           // the write raised; its outcome is unknown

  datatype Outcome =
    | Published(record: PolicyVersion, previous: nat)
    | StaleBase
    | TargetNotFound
    | CasConflict
    | WriteNotCommitted
    | CommittedConcurrently
    | OutcomeUnknown

  datatype Manager = Manager(active: PolicyVersion, ready: bool, phase: Phase)

  /** The load and the checks at the head of `_commit`. */
  function Prepare(m: Manager, snapshot: Snapshot, base: nat, e: Entry): (Manager, Option<Outcome>)
    requires ValidDocument(snapshot.document)
  {
    if base != snapshot.document.activeVersion then (m.(phase := Idle), Some(StaleBase))
    else (m.(phase := Prepared(Attempt(snapshot, Next(snapshot.document, e)))), None)
  }

  /** The load of `rollback`, which only looks for the target. */
  function FindTarget(m: Manager, snapshot: Snapshot, target: nat, base: nat, createdAt: real, createdBy: string,
                      note: string):
    (Manager, Option<Outcome>)
  {
    var found := Find(snapshot.document.versions, target);
    if found.None? then (m.(phase := Idle), Some(TargetNotFound))
    else (m.(phase := Rolling(base, Entry(createdAt, createdBy, note, Some(target), found.value.policy))), None)
  }

  /** What the reply to the write means. */
  function Swapped(m: Manager, a: Attempt, reply: CasReply): (Manager, Option<Outcome>)
    requires ValidDocument(a.next) && (reply.Stored? ==> reply.snapshot.document == a.next)
  {
    match reply
    case Stored(_) => (Manager(ActiveOf(a.next), true, Idle),
        Some(Published(ActiveOf(a.next), a.snapshot.document.activeVersion)))
    case RevisionConflict => (m.(phase := Idle), Some(CasConflict))
    case Unavailable => (m.(phase := Unsure(a)), None)
  }

  /** The load that settles an unsure write, if it succeeds. */
  function Reconciled(m: Manager, a: Attempt, reload: Option<Snapshot>): (Manager, Option<Outcome>)
    requires reload.Some? ==> ValidDocument(reload.value.document)
  {
    if reload.None? then (m.(ready := false, phase := Idle), Some(OutcomeUnknown))
    else
      var persisted := reload.value;
      var durable := ActiveOf(persisted.document);
      if persisted.document == a.next then
        (Manager(durable, true, Idle), Some(Published(durable, a.snapshot.document.activeVersion)))
      else if persisted.revision == a.snapshot.revision && persisted.document == a.snapshot.document then
        (m.(ready := true, phase := Idle), Some(WriteNotCommitted))
      else
        (Manager(durable, true, Idle), Some(CommittedConcurrently))
  }

  // ---------- policy_manager.py ----------

  class PolicyManager {
    const repository: PolicyRepository
    var active: PolicyVersion
    var ready: bool
    var phase: Phase

    function View(): Manager
      reads this
    {
      Manager(active, ready, phase)
    }

    constructor (repository: PolicyRepository)
      requires ValidDocument(repository.document)
      ensures this.repository == repository
      ensures View() == Manager(ActiveOf(repository.document), true, Idle)
    {
      this.repository := repository;
      active, ready, phase := ActiveOf(repository.document), true, Idle;
    }

    method LoadForCommit(base: nat, e: Entry) returns (outcome: Option<Outcome>)
      requires ValidDocument(repository.document)
      modifies this
      ensures (View(), outcome) == Prepare(old(View()), repository.View(), base, e)
    {
      var snapshot := repository.Load();
      if base != snapshot.document.activeVersion {
        phase := Idle;
        return Some(StaleBase);
      }
      var next := BuildNext(snapshot.document, e);
      phase := Prepared(Attempt(snapshot, next));
      return None;
    }

    method LoadForRollback(target: nat, base: nat, createdAt: real, createdBy: string, note: string)
      returns (outcome: Option<Outcome>)
      modifies this
      ensures (View(), outcome) == FindTarget(old(View()), repository.View(), target, base, createdAt, createdBy, note)
    {
      var snapshot := repository.Load();
      var found := Find(snapshot.document.versions, target);
      if found.None? {
        phase := Idle;
        return Some(TargetNotFound);
      }
      phase := Rolling(base, Entry(createdAt, createdBy, note, Some(target), found.value.policy));
      return None;
    }

    method Write(fault: Fault) returns (outcome: Option<Outcome>)
      requires phase.Prepared? && ValidDocument(phase.attempt.next)
      modifies this, repository
      ensures
        var a := old(phase.attempt);
        var (repo, reply) := CompareAndSwap(old(repository.View()), a.next, a.snapshot.revision, fault);
        repository.View() == repo && (View(), outcome) == Swapped(old(View()), a, reply)
    {
      var a := phase.attempt;
      var reply := repository.Swap(a.next, a.snapshot.revision, fault);
      match reply {
        case RevisionConflict =>
          phase := Idle;
          return Some(CasConflict);
        case Unavailable =>
          phase := Unsure(a);
          return None;
        case Stored(persisted) =>
          ready := true;
          active := ActiveOf(persisted.document);
          phase := Idle;
          return Some(Published(active, a.snapshot.document.activeVersion));
      }
    }

    method Reconcile(reachable: bool) returns (outcome: Option<Outcome>)
      requires phase.Unsure? && ValidDocument(repository.document)
      modifies this
      ensures (View(), outcome) ==
              Reconciled(old(View()), old(phase.attempt), if reachable then Some(repository.View()) else None)
    {
      var a := phase.attempt;
      phase := Idle;
      if !reachable {
        ready := false;
        return Some(OutcomeUnknown);
      }
      var persisted := repository.Load();
      ready := true;
      if persisted.document != a.next {
        if persisted.revision == a.snapshot.revision && persisted.document == a.snapshot.document {
          return Some(WriteNotCommitted);
        }
        active := ActiveOf(persisted.document);
        return Some(CommittedConcurrently);
      }
      active := ActiveOf(persisted.document);
      return Some(Published(active, a.snapshot.document.activeVersion));
    }

    /** `publish` run through with nobody else writing: exactly one record more, or nothing changed. */
    method Publish(base: nat, e: Entry, fault: Fault, reachable: bool) returns (outcome: Outcome)
      requires ValidDocument(repository.document)
      modifies this, repository
      ensures ValidDocument(repository.document)
      ensures base != old(repository.document.activeVersion) ==>
                outcome == StaleBase && repository.View() == old(repository.View())
      ensures base == old(repository.document.activeVersion) ==>
                && (repository.View() == old(repository.View()) <==> fault == RequestLost)
                && (fault != RequestLost ==>
                      repository.View() ==
                      Snapshot(Next(old(repository.document), e), old(repository.revisionCounter) + 1))
                && (outcome.Published? ==>
                      fault != RequestLost && outcome.record == ActiveOf(repository.document) == active)
                && (outcome == WriteNotCommitted ==> fault == RequestLost)
                && (outcome == OutcomeUnknown <==> fault != NoFault && !reachable)
                && (outcome.Published? || outcome == WriteNotCommitted || outcome == OutcomeUnknown)
    {
      ghost var before := repository.View();
      var loaded := LoadForCommit(base, e);
      if loaded.Some? {
        return loaded.value;
      }
      CommitKeepsValid(before.document, e);
      var written := Write(fault);
      if written.Some? {
        return written.value;
      }
      var settled := Reconcile(reachable);
      outcome := settled.value;
    }
  }
}
