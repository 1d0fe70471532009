/** The automation job store: job table, pending set, lease table, streak counter and idempotency keys. */
module JobQueue {
  import opened Wrappers

  datatype Urgency = Critical | High | Normal | Low
  datatype JobState = Queued | Running | Completed | Failed

  datatype Job = Job(
    state: JobState,
    class_: Urgency,
    initialScore: int,
    createdAt: real,
    queuePosition: nat,
    startedAt: Option<real>,
    completedAt: Option<real>,
    result: Option<string>,
    error: Option<string>)
  {
    predicate IsProtected() { class_ == Critical || class_ == High }
  }

  /** The fields the queue reads of a preview; the request is what the worker will send. */
  datatype Preview = Preview(class_: Urgency, initialScore: int, gatewayRequest: string)

  datatype QueuePolicy = QueuePolicy(
    waitingBonusIntervalSeconds: nat,
    waitingBonusPoints: nat,
    waitingBonusCap: nat,
    starvationStreakThreshold: nat,
    starvationWaitSeconds: nat)
  {
    /** The ranges the policy schema enforces below. */
    predicate Valid() {
      waitingBonusIntervalSeconds >= 1 && starvationStreakThreshold >= 1 && starvationWaitSeconds >= 1
    }
  }

  const DEFAULT_QUEUE_POLICY := QueuePolicy(5, 1, 30, 3, 20)

  function WaitingBonus(waitedSeconds: real, policy: QueuePolicy): int
    requires policy.Valid()
  {
    var waited := if waitedSeconds < 0.0 then 0.0 else waitedSeconds;
    var intervals := (waited / policy.waitingBonusIntervalSeconds as real).Floor;
    var bonus := policy.waitingBonusPoints * intervals;
    if bonus < policy.waitingBonusCap then bonus else policy.waitingBonusCap
  }

  type JobId = string

  datatype Store = Store(
    jobs: map<JobId, Job>,
    payloads: map<JobId, string>,
    pending: set<JobId>,
    leases: map<JobId, real>,
    streak: nat,
    index: map<JobId, real>,
    idempotency: map<string, JobId>)

  const EMPTY_STORE := Store(map[], map[], {}, map[], 0, map[], map[])

  // ---------- claiming ----------

  function QueuedIds(s: Store): set<JobId> {
    set id | id in s.jobs && s.jobs[id].state == Queued
  }

  /** The pending ids that are not stale. */
  function Candidates(s: Store): set<JobId> {
    set id | id in s.pending && id in s.jobs && s.jobs[id].state == Queued
  }

  function Waited(s: Store, id: JobId, now: real): real
    requires id in s.jobs
  {
    now - s.jobs[id].createdAt
  }

  function EffectivePriority(s: Store, id: JobId, now: real, policy: QueuePolicy): int
    requires id in s.jobs && policy.Valid()
  {
    s.jobs[id].initialScore + WaitingBonus(Waited(s, id, now), policy)
  }

  predicate IsStarved(s: Store, id: JobId, now: real, policy: QueuePolicy) {
    id in Candidates(s) && !s.jobs[id].IsProtected() && Waited(s, id, now) >= policy.starvationWaitSeconds as real
  }

  /** Maximal by effective priority, then by age. */
  ghost predicate IsTopRanked(s: Store, id: JobId, now: real, policy: QueuePolicy)
    requires policy.Valid()
  {
    id in Candidates(s) && forall o :: o in Candidates(s) ==> !OutRanks(s, o, id, now, policy)
  }

  predicate OutRanks(s: Store, a: JobId, b: JobId, now: real, policy: QueuePolicy)
    requires a in s.jobs && b in s.jobs && policy.Valid()
  {
    var pa, pb := EffectivePriority(s, a, now, policy), EffectivePriority(s, b, now, policy);
    pa > pb || (pa == pb && s.jobs[a].createdAt < s.jobs[b].createdAt)
  }

  ghost predicate IsLongestStarved(s: Store, id: JobId, now: real, policy: QueuePolicy) {
    && IsStarved(s, id, now, policy)
    && forall o :: IsStarved(s, o, now, policy) ==> Waited(s, o, now) <= Waited(s, id, now)
  }

  /** May this job be the one claimed? Ties are broken by the set's iteration order, so several may. */
  ghost predicate MayClaim(s: Store, id: JobId, now: real, policy: QueuePolicy)
    requires policy.Valid()
  {
    if s.streak >= policy.starvationStreakThreshold && exists o :: IsStarved(s, o, now, policy)
    then IsLongestStarved(s, id, now, policy)
    else IsTopRanked(s, id, now, policy)
  }

  /** The claim: stale ids are dropped, the job leaves the pending set, runs and is leased, and the streak moves. */
  function Take(s: Store, id: JobId, now: real, expiry: real): Store
    requires id in s.jobs
  {
    s.(pending := Candidates(s) - {id},
       streak := if s.jobs[id].IsProtected() then s.streak + 1 else 0,
       jobs := s.jobs[id := s.jobs[id].(state := Running, startedAt := Some(now))],
       leases := s.leases[id := expiry])
  }

  function SweepStale(s: Store): Store {
    s.(pending := Candidates(s))
  }

  lemma {:induction false} SweepingKeepsChoice(s: Store, id: JobId, now: real, policy: QueuePolicy)
    requires policy.Valid() && MayClaim(SweepStale(s), id, now, policy)
    ensures Candidates(SweepStale(s)) == Candidates(s) && MayClaim(s, id, now, policy)
  {
    var swept := SweepStale(s);
    assert Candidates(swept) == Candidates(s);
    assert forall o :: IsStarved(s, o, now, policy) <==> IsStarved(swept, o, now, policy);
    if !(s.streak >= policy.starvationStreakThreshold && exists o :: IsStarved(s, o, now, policy)) {
      assert IsTopRanked(swept, id, now, policy);
      forall o | o in Candidates(s) ensures !OutRanks(s, o, id, now, policy) {
        assert !OutRanks(swept, o, id, now, policy);
      }
    }
  }

  // ---------- finishing ----------

  /** How a job ends, and what is kept of it. */
  datatype Ending = WithResult(result: string) | WithError(error: string)

  function Ended(job: Job, ending: Ending, at: real): Job {
    match ending
    case WithResult(result) => job.(state := Completed, completedAt := Some(at), result := Some(result))
    case WithError(error) => job.(state := Failed, completedAt := Some(at), error := Some(error))
  }

  function Finish(s: Store, id: JobId, ending: Ending, at: real): Store {
    if id !in s.jobs then s
    else s.(jobs := s.jobs[id := Ended(s.jobs[id], ending, at)], leases := s.leases - {id},
        payloads := s.payloads - {id})
  }

  function Requeue(s: Store, id: JobId): Store {
    if id !in s.jobs then s
    else s.(jobs := s.jobs[id := s.jobs[id].(state := Queued)], leases := s.leases - {id}, pending := s.pending + {id})
  }

  function Expired(s: Store, now: real): set<JobId> {
    set id | id in s.leases && 0.0 <= s.leases[id] <= now
  }

  /** All of these requeued, in whatever order. */
  function RequeueAll(s: Store, ids: set<JobId>): Store {
    var known := ids * s.jobs.Keys;
    s.(jobs := map id | id in s.jobs :: if id in known then s.jobs[id].(state := Queued) else s.jobs[id],
       leases := s.leases - known,
       pending := s.pending + known)
  }

  lemma {:induction false} RequeueOneMore(s: Store, ids: set<JobId>, id: JobId)
    ensures Requeue(RequeueAll(s, ids), id) == RequeueAll(s, ids + {id})
  {
    var one, all := Requeue(RequeueAll(s, ids), id), RequeueAll(s, ids + {id});
    assert one.jobs == all.jobs && one.leases == all.leases && one.pending == all.pending;
  }

  function Renew(s: Store, id: JobId, expiry: real): Store {
    s.(leases := s.leases[id := expiry])
  }

  // ---------- enqueueing, undisturbed ----------

  /** Which job an idempotency key leads to: one that exists already, or one to be created under this id. */
  datatype Reservation = Existing(id: JobId) | Reserved(id: JobId)

  /** `SET key id`. */
  function Point(s: Store, key: string, id: JobId): Store {
    s.(idempotency := s.idempotency[key := id])
  }

  /** A key without a job is reserved: under the first uuid drawn if it is new, under a second if its job is lost. */
  function Reserve(s: Store, key: string, uuid: JobId, again: JobId): (Store, Reservation) {
    if key !in s.idempotency then (Point(s, key, uuid), Reserved(uuid))
    else if s.idempotency[key] in s.jobs then (s, Existing(s.idempotency[key]))
    else (Point(s, key, again), Reserved(again))
  }

  function Created(preview: Preview, now: real, queuePosition: nat): Job {
    Job(Queued, preview.class_, preview.initialScore, now, queuePosition, None, None, None, None)
  }

  function Commit(s: Store, id: JobId, preview: Preview, queuePosition: nat, now: real): Store {
    s.(jobs := s.jobs[id := Created(preview, now, queuePosition)],
       payloads := s.payloads[id := preview.gatewayRequest],
       pending := s.pending + {id},
       index := s.index[id := now])
  }

  function Enqueued(s: Store, key: string, preview: Preview, uuid: JobId, again: JobId, now: real): (Store, JobId) {
    var (reserved, r) := Reserve(s, key, uuid, again);
    if r.Existing? then (reserved, r.id) else (Commit(reserved, r.id, preview, |s.pending| + 1, now), r.id)
  }

  // ---------- redis_store.py ----------

  class RedisAutomationStore {
    var jobs: map<JobId, Job>
    var payloads: map<JobId, string>
    var pending: set<JobId>
    var leases: map<JobId, real>
    var streak: nat
    var index: map<JobId, real>
    var idempotency: map<string, JobId>

    function View(): Store
      reads this
    {
      Store(jobs, payloads, pending, leases, streak, index, idempotency)
    }

    constructor ()
      ensures View() == EMPTY_STORE
    {
      jobs, payloads, pending, leases, streak, index, idempotency := map[], map[], {}, map[], 0, map[], map[];
    }

    /** SET NX on the key, and the recovery when its job never got written. Both arguments are uuids drawn. */
    method ReserveKey(key: string, uuid: JobId, again: JobId) returns (r: Reservation)
      modifies this`idempotency
      ensures (View(), r) == Reserve(old(View()), key, uuid, again)
    {
      var created := key !in idempotency;
      if created {
        idempotency := idempotency[key := uuid];
        return Reserved(uuid);
      }
      var existingId := idempotency[key];
      if existingId in jobs {
        return Existing(existingId);
      }
      idempotency := idempotency[key := again];
      return Reserved(again);
    }

    /** The MULTI/EXEC pipeline. */
    method CommitJob(id: JobId, preview: Preview, queuePosition: nat, now: real)
      modifies this
      ensures View() == Commit(old(View()), id, preview, queuePosition, now)
    {
      jobs := jobs[id := Created(preview, now, queuePosition)];
      payloads := payloads[id := preview.gatewayRequest];
      pending := pending + {id};
      index := index[id := now];
    }

    method Enqueue(preview: Preview, key: string, uuid: JobId, again: JobId, now: real) returns (id: JobId)
      modifies this
      ensures (View(), id) == Enqueued(old(View()), key, preview, uuid, again, now)
    {
      var r := ReserveKey(key, uuid, again);
      if r.Reserved? {
        var queuePosition := |pending| + 1;
        CommitJob(r.id, preview, queuePosition, now);
      }
      id := r.id;
    }

    method ClaimNextJob(now: real, expiry: real, queuePolicy: Option<QueuePolicy>) returns (claimed: Option<JobId>)
      requires queuePolicy.Some? ==> queuePolicy.value.Valid()
      modifies this
      ensures
        var policy := if queuePolicy.Some? then queuePolicy.value else DEFAULT_QUEUE_POLICY;
        match claimed
        case None => Candidates(old(View())) == {} && View() == SweepStale(old(View()))
        case Some(id) =>
          && id in Candidates(old(View()))
          && MayClaim(old(View()), id, now, policy)
          && View() == Take(old(View()), id, now, expiry)
    {
      var policy := if queuePolicy.Some? then queuePolicy.value else DEFAULT_QUEUE_POLICY;
      SweepPending();
      if pending == {} {
        return None;
      }
      var chosen := Choose(now, policy);
      SweepingKeepsChoice(old(View()), chosen, now, policy);
      pending := pending - {chosen};
      if jobs[chosen].IsProtected() {
        streak := streak + 1;
      } else {
        streak := 0;
      }
      jobs := jobs[chosen := jobs[chosen].(state := Running, startedAt := Some(now))];
      leases := leases[chosen := expiry];
      return Some(chosen);
    }

    /** The loop over the pending set, dropping ids whose job is gone or no longer queued. */
    method SweepPending()
      modifies this`pending
      ensures View() == SweepStale(old(View()))
    {
      var todo := pending;
      while todo != {}
        invariant todo <= pending
        invariant Candidates(old(View())) <= pending <= old(pending)
        invariant forall id :: id in pending && id !in todo ==> id in Candidates(old(View()))
        decreases todo
      {
        var id :| id in todo;
        todo := todo - {id};
        if id !in jobs || jobs[id].state != Queued {
          pending := pending - {id};
        }
      }
    }

    /** `max(starved, ...)` when the streak calls for it, else `max(candidates, ...)`, over an arbitrary order. */
    method Choose(now: real, policy: QueuePolicy) returns (chosen: JobId)
      requires policy.Valid() && pending != {} && pending == Candidates(View())
      ensures chosen in pending && MayClaim(View(), chosen, now, policy)
    {
      var starved := None;
      if streak >= policy.starvationStreakThreshold {
        starved := LongestStarved(now, policy);
      }
      if starved.Some? {
        return starved.value;
      }
      chosen := TopRanked(now, policy);
    }

    method LongestStarved(now: real, policy: QueuePolicy) returns (longest: Option<JobId>)
      requires pending == Candidates(View())
      ensures longest.Some? ==> IsLongestStarved(View(), longest.value, now, policy)
      ensures longest.None? ==> forall o :: !IsStarved(View(), o, now, policy)
    {
      longest := None;
      var todo := pending;
      while todo != {}
        invariant todo <= pending
        invariant longest.Some? ==> IsStarved(View(), longest.value, now, policy)
        invariant forall o :: IsStarved(View(), o, now, policy) && o !in todo ==>
                    longest.Some? && Waited(View(), o, now) <= Waited(View(), longest.value, now)
        decreases todo
      {
        var id :| id in todo;
        todo := todo - {id};
        if IsStarved(View(), id, now, policy)
           && (longest.None? || Waited(View(), id, now) > Waited(View(), longest.value, now)) {
          longest := Some(id);
        }
      }
    }

    method TopRanked(now: real, policy: QueuePolicy) returns (top: JobId)
      requires policy.Valid() && pending != {} && pending == Candidates(View())
      ensures IsTopRanked(View(), top, now, policy)
    {
      top :| top in pending;
      var todo := pending - {top};
      while todo != {}
        invariant todo <= pending && top in pending
        invariant forall o :: o in pending && o !in todo ==> !OutRanks(View(), o, top, now, policy)
        decreases todo
      {
        var id :| id in todo;
        todo := todo - {id};
        if OutRanks(View(), id, top, now, policy) {
          top := id;
        }
      }
    }

    /** Until the new expiry the job is not reaped; every other lease is as it was. */
    method RenewLease(id: JobId, expiry: real)
      modifies this`leases
      ensures View() == Renew(old(View()), id, expiry)
      ensures forall now :: now < expiry ==> id !in Expired(View(), now)
      ensures forall now, other :: other != id ==>
                (other in Expired(View(), now) <==> other in Expired(old(View()), now))
    {
      leases := leases[id := expiry];
    }

    method CompleteJob(id: JobId, result: string, at: real)
      modifies this
      ensures View() == Finish(old(View()), id, WithResult(result), at)
    {
      if id !in jobs {
        return;
      }
      jobs := jobs[id := jobs[id].(state := Completed, completedAt := Some(at), result := Some(result))];
      leases := leases - {id};
      payloads := payloads - {id};
    }

    method FailJob(id: JobId, error: string, at: real)
      modifies this
      ensures View() == Finish(old(View()), id, WithError(error), at)
    {
      if id !in jobs {
        return;
      }
      jobs := jobs[id := jobs[id].(state := Failed, completedAt := Some(at), error := Some(error))];
      leases := leases - {id};
      payloads := payloads - {id};
    }

    method RequeueJob(id: JobId)
      modifies this
      ensures View() == Requeue(old(View()), id)
    {
      if id !in jobs {
        return;
      }
      jobs := jobs[id := jobs[id].(state := Queued)];
      leases := leases - {id};
      pending := pending + {id};
    }

    method ReapExpiredLeases(now: real) returns (reaped: set<JobId>)
      modifies this
      ensures reaped == Expired(old(View()), now)
      ensures View() == RequeueAll(old(View()), reaped)
    {
      reaped := set id | id in leases && 0.0 <= leases[id] <= now;
      var todo := reaped;
      while todo != {}
        invariant todo <= reaped
        invariant View() == RequeueAll(old(View()), reaped - todo)
        decreases todo
      {
        var id :| id in todo;
        RequeueJob(id);
        RequeueOneMore(old(View()), reaped - todo, id);
        assert reaped - (todo - {id}) == reaped - todo + {id};
        todo := todo - {id};
      }
    }
  }
}
