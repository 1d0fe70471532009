/** Which store transition follows each outcome of an executed job, and how often a job is retried. */
module Worker {
  import opened Wrappers
  import opened JobQueue

  /** What the gateway made of the request. */
  datatype Reply = Answered(result: string) | HttpError(code: int, text: string) | NetworkError(text: string)

  datatype Transition = Completes | Retries | Fails

  predicate IsRetryable(reply: Reply) {
    reply.HttpError? ==> reply.code == 408 || reply.code == 429 || reply.code >= 500
  }

  const MISSING_PAYLOAD := "execution payload missing or expired"

  /** A missing payload raises, and counts as retryable. */
  function Effective(s: Store, id: JobId, reply: Reply): Reply {
    if id in s.payloads then reply else NetworkError(MISSING_PAYLOAD)
  }

  function Decide(reply: Reply, retries: nat, maxRetries: nat): Transition {
    if reply.Answered? then Completes
    else if IsRetryable(reply) && retries < maxRetries then Retries
    else Fails
  }

  function Count(counts: map<JobId, nat>, id: JobId): nat {
    if id in counts then counts[id] else 0
  }

  function Apply(s: Store, id: JobId, reply: Reply, t: Transition, at: real): Store {
    match t
    case Retries => Requeue(s, id)
    case _ => Finish(s, id, if reply.Answered? then WithResult(reply.result) else WithError(reply.text), at)
  }

  /** One execution, and what came of it: for a missing payload, the error it raises. */
  datatype Execution = Execution(id: JobId, reply: Reply)

  class JobWorker {
    const maxRetries: nat
    var retryCounts: map<JobId, nat>
    ghost var executions: seq<Execution>   // all this process has executed

    ghost predicate Valid()
      reads this
    {
      retryCounts == CountsAfter(executions, maxRetries)
    }

    constructor (maxRetries: nat)
      ensures Valid() && this.maxRetries == maxRetries && executions == []
    {
      this.maxRetries, retryCounts, executions := maxRetries, map[], [];
    }

    method ExecuteJob(store: RedisAutomationStore, id: JobId, reply: Reply, at: real)
      requires Valid()
      modifies this, store
      ensures Valid() && executions == old(executions) + [Execution(id, Effective(old(store.View()), id, reply))]
      ensures
        var outcome := Effective(old(store.View()), id, reply);
        var t := Decide(outcome, Count(old(retryCounts), id), maxRetries);
        && store.View() == Apply(old(store.View()), id, outcome, t, at)
        && retryCounts == if t == Retries then old(retryCounts)[id := Count(old(retryCounts), id) + 1]
            else old(retryCounts)
    {
      var outcome := if id in store.payloads then reply else NetworkError(MISSING_PAYLOAD);
      executions := executions + [Execution(id, outcome)];
      assert executions[..|executions| - 1] == old(executions);
      if outcome.Answered? {
        store.CompleteJob(id, outcome.result, at);
        return;
      }
      var retries := Count(retryCounts, id);
      if IsRetryable(outcome) && retries < maxRetries {
        retryCounts := retryCounts[id := retries + 1];
        store.RequeueJob(id);
      } else {
        store.FailJob(id, outcome.text, at);
      }
    }
  }

  // ---------- over the life of a worker process ----------

  function CountsAfter(execs: seq<Execution>, maxRetries: nat): map<JobId, nat> {
    if execs == [] then map[]
    else
      var before := CountsAfter(execs[..|execs| - 1], maxRetries);
      var e := execs[|execs| - 1];
      if Decide(e.reply, Count(before, e.id), maxRetries) == Retries then before[e.id := Count(before, e.id) + 1]
          else before
  }

  /** How often the job was put back. */
  function RetriesOf(execs: seq<Execution>, id: JobId, maxRetries: nat): nat {
    if execs == [] then 0
    else
      var before := execs[..|execs| - 1];
      var e := execs[|execs| - 1];
      RetriesOf(before, id, maxRetries)
      + if e.id == id && Decide(e.reply, Count(CountsAfter(before, maxRetries), id), maxRetries) == Retries then 1
          else 0
  }

  /** How often it failed in a way worth retrying. */
  function FailuresOf(execs: seq<Execution>, id: JobId): nat {
    if execs == [] then 0
    else
      var e := execs[|execs| - 1];
      FailuresOf(execs[..|execs| - 1], id) + if e.id == id && !e.reply.Answered? && IsRetryable(e.reply) then 1 else 0
  }

  lemma {:induction false} CountsAreCapped(execs: seq<Execution>, id: JobId, maxRetries: nat)
    ensures
      var failures := FailuresOf(execs, id);
      RetriesOf(execs, id, maxRetries) == Count(CountsAfter(execs, maxRetries), id)
      == if failures < maxRetries then failures else maxRetries
  {
    if execs != [] {
      CountsAreCapped(execs[..|execs| - 1], id, maxRetries);
    }
  }

  /**
   * At any time in a worker's life, a job has been put back as often as its own count says, which is as often as it has
   * failed retryably, missing payloads included, up to the limit, whatever other jobs did.
   */
  lemma {:induction false} RetriesAreCapped(worker: JobWorker, id: JobId)
    requires worker.Valid()
    ensures
      var failures := FailuresOf(worker.executions, id);
      Count(worker.retryCounts, id) == RetriesOf(worker.executions, id, worker.maxRetries)
      == if failures < worker.maxRetries then failures else worker.maxRetries
  {
    CountsAreCapped(worker.executions, id, worker.maxRetries);
  }

  // ---------- what becomes of a job ----------

  /** Worth trying again: no answer at all, or a status that says so. */
  ghost predicate MayPass(reply: Reply) {
    match reply
    case Answered(_) => false
    case NetworkError(_) => true
    case HttpError(code, _) => code == 408 || code == 429 || code >= 500
  }

  /**
   * An answer completes the job with its result. A timeout, a rate limit, a server's or a network error puts it back
   * with its payload while its worker has retries left for it. Anything else fails it with the error's text.
   */
  lemma {:induction false} RepliesDecide(s: Store, id: JobId, reply: Reply, at: real, retries: nat, maxRetries: nat)
    requires id in s.jobs && id in s.payloads
    ensures Effective(s, id, reply) == reply
    ensures
      var t := Apply(s, id, reply, Decide(reply, retries, maxRetries), at);
      id in t.jobs &&
      var was, job := s.jobs[id], t.jobs[id];
      if reply.Answered? then
        && job == was.(state := Completed, completedAt := Some(at), result := Some(reply.result))
        && id !in t.payloads && id !in t.leases
      else if MayPass(reply) && retries < maxRetries then
        && job == was.(state := Queued) && id in t.pending && id !in t.leases
        && id in t.payloads && t.payloads[id] == s.payloads[id]
      else
        && job == was.(state := Failed, completedAt := Some(at), error := Some(reply.text))
        && id !in t.payloads && id !in t.leases
  {
  }

  /** Without its payload a job is tried again like one that got no answer, and in the end fails saying so. */
  lemma {:induction false} MissingPayloadDecides(s: Store, id: JobId, reply: Reply, at: real, retries: nat,
                                                 maxRetries: nat)
    requires id in s.jobs && id !in s.payloads
    ensures
      var outcome := Effective(s, id, reply);
      var t := Apply(s, id, outcome, Decide(outcome, retries, maxRetries), at);
      id in t.jobs &&
      if retries < maxRetries then t.jobs[id] == s.jobs[id].(state := Queued) && id in t.pending
      else t.jobs[id] == s.jobs[id].(state := Failed, completedAt := Some(at), error := Some(MISSING_PAYLOAD))
  {
  }

  /** The count of a job goes up exactly when it is put back, and no other job's moves. */
  lemma {:induction false} CountsMove(execs: seq<Execution>, e: Execution, id: JobId, maxRetries: nat)
    ensures
      var before, after := CountsAfter(execs, maxRetries), CountsAfter(execs + [e], maxRetries);
      Count(after, id) ==
      Count(before, id) + if id == e.id && MayPass(e.reply) && Count(before, id) < maxRetries then 1 else 0
  {
    assert (execs + [e])[..|execs|] == execs;
  }
}
