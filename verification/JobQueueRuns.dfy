/** Runs of the store: any interleaving of whole operations, by any number of workers and API calls. */
module JobQueueRuns {
  import opened Wrappers
  import opened Lists
  import opened JobQueue

  /**
   * An enqueue call points its key to an id and commits it, and reads the store in between; `EnqueueRuns` says in which
   * order. Finishers may be late or repeated.
   */
  datatype Step =
    | ReadStep
    | PointStep(key: string, id: JobId)
    | CommitStep(id: JobId, preview: Preview, queuePosition: nat, now: real)
    | ClaimStep(now: real, expiry: real, policy: QueuePolicy, claimed: Option<JobId>)
    | RenewStep(id: JobId, expiry: real)
    | CompleteStep(id: JobId, result: string, at: real)
    | FailStep(id: JobId, error: string, at: real)
    | RequeueStep(id: JobId)
    | ReapStep(now: real)

  ghost predicate Enabled(s: Store, step: Step) {
    match step
    case CommitStep(id, _, _, _) => id !in s.jobs
    case ClaimStep(now, _, policy, claimed) =>
      && policy.Valid()
      && if claimed.None? then Candidates(s) == {}
         else claimed.value in Candidates(s) && MayClaim(s, claimed.value, now, policy)
    case RenewStep(id, _) => id in s.jobs && s.jobs[id].state == Running
    case _ => true
  }

  ghost function After(s: Store, step: Step): Store
    requires Enabled(s, step)
  {
    match step
    case ReadStep => s
    case PointStep(key, id) => Point(s, key, id)
    case CommitStep(id, preview, queuePosition, now) => Commit(s, id, preview, queuePosition, now)
    case ClaimStep(now, expiry, _, claimed) => if claimed.None? then SweepStale(s)
        else Take(s, claimed.value, now, expiry)
    case RenewStep(id, expiry) => Renew(s, id, expiry)
    case CompleteStep(id, result, at) => Finish(s, id, WithResult(result), at)
    case FailStep(id, error, at) => Finish(s, id, WithError(error), at)
    case RequeueStep(id) => Requeue(s, id)
    case ReapStep(now) => RequeueAll(s, Expired(s, now))
  }

  ghost predicate IsRun(states: seq<Store>, steps: seq<Step>) {
    && |states| == |steps| + 1
    && forall i :: 0 <= i < |steps| ==> Enabled(states[i], steps[i]) && states[i + 1] == After(states[i], steps[i])
  }

  // ---------- no job is stranded ----------

  ghost predicate NothingStranded(s: Store) {
    && QueuedIds(s) <= s.pending <= s.jobs.Keys
    && s.leases.Keys == (set id | id in s.jobs && s.jobs[id].state == Running)
    && s.index.Keys == s.jobs.Keys
  }

  lemma {:induction false} StepStrandsNothing(s: Store, step: Step)
    requires NothingStranded(s) && Enabled(s, step)
    ensures NothingStranded(After(s, step))
    ensures step.ClaimStep? ==> After(s, step).pending == QueuedIds(After(s, step))
  {
    match step
    case ReadStep =>
    case PointStep(_, _) =>
    case CommitStep(id, preview, queuePosition, now) => CommitStrandsNothing(s, id, preview, queuePosition, now);
    case ClaimStep(_, _, _, _) => ClaimStrandsNothing(s, step);
    case RenewStep(id, expiry) => RenewOnlyRunning(s, id, expiry);
    case CompleteStep(id, result, at) => FinishStrandsNothing(s, id, WithResult(result), at);
    case FailStep(id, error, at) => FinishStrandsNothing(s, id, WithError(error), at);
    case RequeueStep(id) => OneRequeueStrandsNothing(s, id);
    case ReapStep(now) => RequeueStrandsNothing(s, Expired(s, now));
  }

  lemma {:induction false} CommitStrandsNothing(s: Store, id: JobId, preview: Preview, queuePosition: nat, now: real)
    requires NothingStranded(s) && id !in s.jobs
    ensures NothingStranded(Commit(s, id, preview, queuePosition, now))
  {
  }

  lemma {:induction false} FinishStrandsNothing(s: Store, id: JobId, ending: Ending, at: real)
    requires NothingStranded(s)
    ensures NothingStranded(Finish(s, id, ending, at))
  {
  }

  lemma {:induction false} OneRequeueStrandsNothing(s: Store, id: JobId)
    requires NothingStranded(s)
    ensures NothingStranded(Requeue(s, id))
  {
  }

  lemma {:induction false} ClaimStrandsNothing(s: Store, step: Step)
    requires NothingStranded(s) && Enabled(s, step) && step.ClaimStep?
    ensures NothingStranded(After(s, step)) && After(s, step).pending == QueuedIds(After(s, step))
  {
  }

  lemma {:induction false} RequeueStrandsNothing(s: Store, ids: set<JobId>)
    requires NothingStranded(s)
    ensures NothingStranded(RequeueAll(s, ids))
  {
  }

  /**
   * Every queued job is pending, exactly the running jobs are leased, and a claim leaves exactly the queued jobs
   * pending.
   */
  lemma {:induction false} NoJobIsStranded(states: seq<Store>, steps: seq<Step>, n: nat)
    requires IsRun(states, steps) && states[0] == EMPTY_STORE && n < |states|
    ensures NothingStranded(states[n])
    ensures n > 0 && steps[n - 1].ClaimStep? ==> states[n].pending == QueuedIds(states[n])
  {
    if n > 0 {
      NoJobIsStranded(states, steps, n - 1);
      StepStrandsNothing(states[n - 1], steps[n - 1]);
    }
  }

  /** Renewing a lease keeps the lease table right exactly when the job is running. */
  lemma {:induction false} RenewOnlyRunning(s: Store, id: JobId, expiry: real)
    requires NothingStranded(s)
    ensures NothingStranded(Renew(s, id, expiry)) <==> id in s.jobs && s.jobs[id].state == Running
  {
    var r := Renew(s, id, expiry);
    assert r.leases.Keys == s.leases.Keys + {id};
    if id in s.jobs && s.jobs[id].state == Running {
      assert r.leases.Keys == s.leases.Keys;
    }
  }

  /** A renewal moves this one lease, and nothing else. */
  lemma {:induction false} RenewingMovesLease(s: Store, id: JobId, expiry: real, other: JobId)
    ensures
      var t := Renew(s, id, expiry);
      && t == s.(leases := t.leases)
      && id in t.leases && t.leases[id] == expiry
      && (other != id ==> (other in t.leases <==> other in s.leases))
      && (other != id && other in t.leases ==> t.leases[other] == s.leases[other])
  {
  }

  // ---------- one claim at a time ----------

  ghost predicate Claims(steps: seq<Step>, i: nat, id: JobId)
    requires i < |steps|
  {
    steps[i].ClaimStep? && steps[i].claimed == Some(id)
  }

  ghost predicate PutsBack(s: Store, step: Step, id: JobId) {
    || (step.RequeueStep? && step.id == id)
    || (step.ReapStep? && id in Expired(s, step.now))
  }

  ghost predicate OutOfQueue(s: Store, id: JobId) {
    id in s.jobs && s.jobs[id].state != Queued
  }

  lemma {:induction false} OutOfQueueUntilPutBack(s: Store, step: Step, id: JobId)
    requires Enabled(s, step) && !PutsBack(s, step, id)
    requires OutOfQueue(s, id) || (step.ClaimStep? && step.claimed == Some(id))
    ensures OutOfQueue(After(s, step), id)
  {
  }

  lemma {:induction false} StaysOutOfQueue(states: seq<Store>, steps: seq<Step>, i: nat, n: nat, id: JobId)
    requires IsRun(states, steps) && i < n < |states|
    requires Claims(steps, i, id)
    requires forall k :: i < k < n ==> !PutsBack(states[k], steps[k], id)
    ensures OutOfQueue(states[n], id)
  {
    if n > i + 1 {
      StaysOutOfQueue(states, steps, i, n - 1, id);
    }
    OutOfQueueUntilPutBack(states[n - 1], steps[n - 1], id);
  }

  /** Between two claims of one job somebody put it back. */
  lemma {:induction false} ClaimsAlternateWithRequeues(states: seq<Store>, steps: seq<Step>, i: nat, j: nat, id: JobId)
    requires IsRun(states, steps) && i < j < |steps|
    requires Claims(steps, i, id) && Claims(steps, j, id)
    ensures exists k :: i < k < j && PutsBack(states[k], steps[k], id)
  {
    assert Enabled(states[j], steps[j]) && !OutOfQueue(states[j], id);
    if forall k :: i < k < j ==> !PutsBack(states[k], steps[k], id) {
      StaysOutOfQueue(states, steps, i, j, id);
    }
  }

  // ---------- fairness ----------

  /** The queued normal and low jobs. */
  function Regulars(s: Store): set<JobId> {
    set id | id in s.jobs && s.jobs[id].state == Queued && !s.jobs[id].IsProtected()
  }

  function Floor0(x: int): nat { if x < 0 then 0 else x }

  /** How many protected claims the streak still allows. */
  function Slack(s: Store, threshold: nat): nat {
    Floor0(threshold - s.streak)
  }

  function CountClaims(steps: seq<Step>, lo: nat, hi: nat): nat
    requires lo <= hi <= |steps|
    decreases hi - lo
  {
    if lo == hi then 0 else CountClaims(steps, lo, hi - 1) + if steps[hi - 1].ClaimStep? then 1 else 0
  }

  /**
   * Over the segment the job stays queued, and at every claim it has waited out the policy, whose threshold is at most
   * T.
   */
  ghost predicate Overdue(states: seq<Store>, steps: seq<Step>, lo: nat, hi: nat, id: JobId, threshold: nat) {
    && IsRun(states, steps) && states[0] == EMPTY_STORE && lo <= hi <= |steps|
    && (forall i :: lo <= i <= hi ==> id in Regulars(states[i]))
    && (forall i :: lo <= i < hi && steps[i].ClaimStep? ==>
          && steps[i].policy.starvationStreakThreshold <= threshold
          && id in states[i].jobs
          && Waited(states[i], id, steps[i].now) >= steps[i].policy.starvationWaitSeconds as real)
  }

  /** While a job is overdue, a claim that finds the streak at the threshold goes to a normal or low job. */
  lemma {:induction false} StreakForcesRegular(states: seq<Store>, steps: seq<Step>, lo: nat, hi: nat, id: JobId,
                                               threshold: nat, i: nat)
    requires Overdue(states, steps, lo, hi, id, threshold) && lo <= i < hi && steps[i].ClaimStep?
    ensures steps[i].claimed.Some? && steps[i].claimed.value in states[i].jobs
    ensures states[i].jobs[steps[i].claimed.value].IsProtected() ==> states[i].streak < threshold
  {
    var s, step := states[i], steps[i];
    assert Enabled(s, step);
    NoJobIsStranded(states, steps, i);
    assert id in Candidates(s);
    assert IsStarved(s, id, step.now, step.policy);
  }

  /** Consecutive claims of critical and high jobs are at most what the streak allows, arrivals or not. */
  lemma {:induction false} ProtectedRunsAreBounded(states: seq<Store>, steps: seq<Step>, lo: nat, hi: nat, id: JobId,
                                                   threshold: nat)
    requires Overdue(states, steps, lo, hi, id, threshold)
    requires forall i :: lo <= i < hi ==> !ServesRegular(states[i], steps[i])
    ensures CountClaims(steps, lo, hi) <= Slack(states[lo], threshold)
  {
    var slack := seq(|states|, i requires 0 <= i < |states| => Slack(states[i], threshold));
    forall i | lo <= i < hi ensures Descends(steps, slack, i) {
      SlackShrinks(states, steps, lo, hi, id, threshold, i);
    }
    CountDescends(steps, slack, lo, hi);
  }

  /** A measure that never grows and that every claim lowers bounds the claims. */
  ghost predicate Descends(steps: seq<Step>, measure: seq<nat>, i: nat)
    requires i < |steps| && i + 1 < |measure|
  {
    measure[i + 1] + (if steps[i].ClaimStep? then 1 else 0) <= measure[i]
  }

  lemma {:induction false} CountDescends(steps: seq<Step>, measure: seq<nat>, lo: nat, hi: nat)
    requires |measure| == |steps| + 1 && lo <= hi <= |steps|
    requires forall i :: lo <= i < hi ==> Descends(steps, measure, i)
    ensures CountClaims(steps, lo, hi) + measure[hi] <= measure[lo]
    decreases hi - lo
  {
    if lo < hi {
      CountDescends(steps, measure, lo, hi - 1);
      assert Descends(steps, measure, hi - 1);
    }
  }

  lemma {:induction false} SlackShrinks(states: seq<Store>, steps: seq<Step>, lo: nat, hi: nat, id: JobId,
                                        threshold: nat, i: nat)
    requires Overdue(states, steps, lo, hi, id, threshold) && lo <= i < hi && !ServesRegular(states[i], steps[i])
    ensures Slack(states[i + 1], threshold) + (if steps[i].ClaimStep? then 1 else 0) <= Slack(states[i], threshold)
  {
    if steps[i].ClaimStep? {
      StreakForcesRegular(states, steps, lo, hi, id, threshold, i);
    }
    assert Enabled(states[i], steps[i]) && states[i + 1] == After(states[i], steps[i]);
    StreakStep(states[i], steps[i]);
  }

  /** The step claims a normal or low job. */
  ghost predicate ServesRegular(s: Store, step: Step) {
    step.ClaimStep? && step.claimed.Some? && step.claimed.value in s.jobs && !s.jobs[step.claimed.value].IsProtected()
  }

  /** The streak moves only with claims: up with a protected one. */
  lemma {:induction false} StreakStep(s: Store, step: Step)
    requires Enabled(s, step)
    ensures !step.ClaimStep? ==> After(s, step).streak == s.streak
    ensures step.ClaimStep? && step.claimed.Some? ==>
              && step.claimed.value in s.jobs
              && After(s, step).streak == if s.jobs[step.claimed.value].IsProtected() then s.streak + 1 else 0
  {
  }

  /** Any T + 1 consecutive claims made while the overdue job is waiting include one of a normal or low job. */
  lemma {:induction false} EveryFewClaimsServeRegulars(states: seq<Store>, steps: seq<Step>, lo: nat, hi: nat,
                                                       id: JobId, threshold: nat)
    requires Overdue(states, steps, lo, hi, id, threshold)
    requires CountClaims(steps, lo, hi) >= threshold + 1
    ensures exists i :: lo <= i < hi && ServesRegular(states[i], steps[i])
  {
    if forall i :: lo <= i < hi ==> !ServesRegular(states[i], steps[i]) {
      ProtectedRunsAreBounded(states, steps, lo, hi, id, threshold);
    }
  }

  /** An upper bound on the claims still to come before the overdue job's own. */
  function ClaimBudget(s: Store, id: JobId, threshold: nat): nat {
    |Regulars(s) - {id}| * (threshold + 1) + Slack(s, threshold)
  }

  function Budgets(states: seq<Store>, id: JobId, threshold: nat): (budgets: seq<nat>)
    ensures |budgets| == |states|
  {
    seq(|states|, i requires 0 <= i < |states| => ClaimBudget(states[i], id, threshold))
  }

  lemma {:induction false} BudgetsAt(states: seq<Store>, id: JobId, threshold: nat, i: nat)
    requires i < |states|
    ensures Budgets(states, id, threshold)[i] == ClaimBudget(states[i], id, threshold)
  {
  }

  lemma {:induction false} FewerRegularsSmallerBudget(fewer: nat, more: nat, each: nat)
    requires fewer <= more
    ensures fewer * each <= more * each
    ensures fewer < more ==> (fewer * each) + each <= more * each
  {
    var gap := more - fewer;
    assert more * each == fewer * each + gap * each;
    if gap >= 1 {
      assert gap * each == each + (gap - 1) * each;
    }
  }

  lemma {:induction false} BudgetShrinks(states: seq<Store>, steps: seq<Step>, lo: nat, hi: nat, id: JobId,
                                         threshold: nat, i: nat)
    requires Overdue(states, steps, lo, hi, id, threshold) && lo <= i < hi
    requires Regulars(states[i + 1]) <= Regulars(states[i])
    ensures ClaimBudget(states[i + 1], id, threshold) + (if steps[i].ClaimStep? then 1 else 0)
            <= ClaimBudget(states[i], id, threshold)
  {
    var s, step, t := states[i], steps[i], states[i + 1];
    var fewer, more := Regulars(t) - {id}, Regulars(s) - {id};
    SubsetSize(fewer, more);
    if ServesRegular(s, step) {
      assert Enabled(s, step) && t == After(s, step);
      StreakStep(s, step);
      assert id in Regulars(t) && step.claimed.value in more;
      SubsetSize(fewer, more - {step.claimed.value});
    } else {
      SlackShrinks(states, steps, lo, hi, id, threshold, i);
    }
    FewerRegularsSmallerBudget(|fewer|, |more|, threshold + 1);
  }

  /**
   * Bounded fairness: an overdue normal or low job with k others like it waiting, and none arriving, cannot sit
   * through (k + 1)(T + 1) claims, however many critical and high jobs arrive.
   */
  lemma {:induction false} BoundedFairness(states: seq<Store>, steps: seq<Step>, lo: nat, hi: nat, id: JobId,
                                           threshold: nat)
    requires Overdue(states, steps, lo, hi, id, threshold)
    requires forall i :: lo <= i < hi ==> Regulars(states[i + 1]) <= Regulars(states[i])
    ensures CountClaims(steps, lo, hi) < (|Regulars(states[lo]) - {id}| + 1) * (threshold + 1)
  {
    BudgetsDescend(states, steps, lo, hi, id, threshold);
    CountDescends(steps, Budgets(states, id, threshold), lo, hi);
    BudgetsAt(states, id, threshold, lo);
    BudgetAtStart(states[lo], id, threshold);
  }

  lemma {:induction false} BudgetsDescend(states: seq<Store>, steps: seq<Step>, lo: nat, hi: nat, id: JobId,
                                          threshold: nat)
    requires Overdue(states, steps, lo, hi, id, threshold)
    requires forall i :: lo <= i < hi ==> Regulars(states[i + 1]) <= Regulars(states[i])
    ensures forall i :: lo <= i < hi ==> Descends(steps, Budgets(states, id, threshold), i)
  {
    forall i | lo <= i < hi ensures Descends(steps, Budgets(states, id, threshold), i) {
      assert Regulars(states[i + 1]) <= Regulars(states[i]);
      BudgetShrinks(states, steps, lo, hi, id, threshold, i);
      BudgetsAt(states, id, threshold, i);
      BudgetsAt(states, id, threshold, i + 1);
    }
  }

  lemma {:induction false} BudgetAtStart(s: Store, id: JobId, threshold: nat)
    ensures ClaimBudget(s, id, threshold) < (|Regulars(s) - {id}| + 1) * (threshold + 1)
  {
    OneMoreEach(|Regulars(s) - {id}|, threshold + 1);
  }

  lemma {:induction false} OneMoreEach(k: nat, each: nat)
    ensures (k + 1) * each == k * each + each
  {
  }

  // ---------- first in, first out ----------

  lemma {:induction false} BonusIsMonotone(a: real, b: real, policy: QueuePolicy)
    requires policy.Valid() && a <= b
    ensures 0 <= WaitingBonus(a, policy) <= WaitingBonus(b, policy) <= policy.waitingBonusCap
  {
    var wa, wb := if a < 0.0 then 0.0 else a, if b < 0.0 then 0.0 else b;
    var interval := policy.waitingBonusIntervalSeconds as real;
    DivisionIsMonotone(wa, wb, interval);
    var ia, ib := (wa / interval).Floor, (wb / interval).Floor;
  }

  lemma {:induction false} DivisionIsMonotone(a: real, b: real, d: real)
    requires 0.0 <= a <= b && d > 0.0
    ensures 0.0 <= a / d <= b / d
  {
    assert b / d - a / d == (b - a) / d;
  }

  // ---------- priority ----------

  /** After k full intervals the bonus is k times the points, up to the cap. */
  lemma {:induction false} BonusCountsIntervals(waited: real, k: nat, policy: QueuePolicy)
    requires policy.Valid()
    requires k as real * policy.waitingBonusIntervalSeconds as real <= waited
    requires waited < (k + 1) as real * policy.waitingBonusIntervalSeconds as real
    ensures WaitingBonus(waited, policy) == Capped(k * policy.waitingBonusPoints, policy.waitingBonusCap)
  {
    var interval := policy.waitingBonusIntervalSeconds as real;
    assert k as real * interval >= 0.0;
    QuotientBetween(waited, interval, k);
    assert (waited / interval).Floor == k;
  }

  function Capped(points: int, cap: int): int { if points < cap then points else cap }

  lemma {:induction false} QuotientBetween(x: real, d: real, k: nat)
    requires d > 0.0 && k as real * d <= x < (k + 1) as real * d
    ensures k as real <= x / d < (k + 1) as real
  {
    assert x / d * d == x;
  }

  /** A job that has not been there yet, by the clock of the claim, has no bonus. */
  lemma {:induction false} NoBonusBefore(waited: real, policy: QueuePolicy)
    requires policy.Valid() && waited <= 0.0
    ensures WaitingBonus(waited, policy) == 0
  {
    assert 0.0 / policy.waitingBonusIntervalSeconds as real == 0.0;
  }

  /** Has waited for k full intervals, and not for k + 1. */
  ghost predicate HasWaited(job: Job, now: real, k: nat, policy: QueuePolicy) {
    && k as real * policy.waitingBonusIntervalSeconds as real <= now - job.createdAt
    && now - job.createdAt < (k + 1) as real * policy.waitingBonusIntervalSeconds as real
  }

  /** In the queue, as a claim finds it. */
  ghost predicate Waits(s: Store, id: JobId) {
    id in s.pending && id in s.jobs && s.jobs[id].state == Queued
  }

  /** A normal or low job that has waited out the policy. */
  ghost predicate WaitsTooLong(s: Store, id: JobId, now: real, policy: QueuePolicy) {
    && Waits(s, id) && s.jobs[id].class_ in {Normal, Low}
    && now - s.jobs[id].createdAt >= policy.starvationWaitSeconds as real
  }

  /** The streak does not call for a normal or low job, or there is none that has waited long enough. */
  ghost predicate OnNormalPath(s: Store, now: real, policy: QueuePolicy) {
    s.streak < policy.starvationStreakThreshold || forall id :: !WaitsTooLong(s, id, now, policy)
  }

  lemma {:induction false} PathsAgree(s: Store, now: real, policy: QueuePolicy)
    ensures forall id :: IsStarved(s, id, now, policy) <==> WaitsTooLong(s, id, now, policy)
  {
  }

  /**
   * The normal path, in the jobs' own fields: nobody waiting has a higher score with its bonus, counted in full
   * intervals, and of equals nobody is older.
   */
  lemma {:induction false} ClaimedScoresHighest(s: Store, step: Step, id: JobId, other: JobId, k: nat, j: nat)
    requires Enabled(s, step) && step.ClaimStep? && step.claimed == Some(id) && Waits(s, other)
    requires OnNormalPath(s, step.now, step.policy) && id in s.jobs
    requires HasWaited(s.jobs[id], step.now, k, step.policy) && HasWaited(s.jobs[other], step.now, j, step.policy)
    ensures
      var points, cap := step.policy.waitingBonusPoints, step.policy.waitingBonusCap;
      var mine := s.jobs[id].initialScore + Capped(k * points, cap);
      var its := s.jobs[other].initialScore + Capped(j * points, cap);
      Waits(s, id) && (its < mine || (its == mine && s.jobs[id].createdAt <= s.jobs[other].createdAt))
  {
    PathsAgree(s, step.now, step.policy);
    BonusCountsIntervals(Waited(s, id, step.now), k, step.policy);
    BonusCountsIntervals(Waited(s, other, step.now), j, step.policy);
    assert other in Candidates(s) && !OutRanks(s, other, id, step.now, step.policy);
  }

  /**
   * So on the normal path no job as old or older has a higher score, and no job at all one higher by more than the cap.
   */
  lemma {:induction false} ClaimedScoresWell(s: Store, step: Step, id: JobId, other: JobId)
    requires Enabled(s, step) && step.ClaimStep? && step.claimed == Some(id) && Waits(s, other)
    requires OnNormalPath(s, step.now, step.policy)
    ensures Waits(s, id)
    ensures s.jobs[other].createdAt <= s.jobs[id].createdAt ==> s.jobs[other].initialScore <= s.jobs[id].initialScore
    ensures s.jobs[other].initialScore <= s.jobs[id].initialScore + step.policy.waitingBonusCap
  {
    PathsAgree(s, step.now, step.policy);
    assert other in Candidates(s) && !OutRanks(s, other, id, step.now, step.policy);
    var mine, its := Waited(s, id, step.now), Waited(s, other, step.now);
    BonusIsMonotone(if mine <= its then mine else its, if mine <= its then its else mine, step.policy);
    BonusIsMonotone(mine, mine, step.policy);
    BonusIsMonotone(its, its, step.policy);
  }

  /** Off it, the claim goes to the normal or low job that has waited longest, whatever anybody's score. */
  lemma {:induction false} StarvedClaimIsOldest(s: Store, step: Step, id: JobId, other: JobId)
    requires Enabled(s, step) && step.ClaimStep? && step.claimed == Some(id)
    requires !OnNormalPath(s, step.now, step.policy)
    ensures WaitsTooLong(s, id, step.now, step.policy)
    ensures WaitsTooLong(s, other, step.now, step.policy) ==> s.jobs[id].createdAt <= s.jobs[other].createdAt
  {
    PathsAgree(s, step.now, step.policy);
    assert IsLongestStarved(s, id, step.now, step.policy);
    if WaitsTooLong(s, other, step.now, step.policy) {
      assert IsStarved(s, other, step.now, step.policy);
      assert Waited(s, other, step.now) <= Waited(s, id, step.now);
    }
  }

  /** A claim comes back empty exactly if nobody waits, and otherwise runs and leases the job it names, and no other. */
  lemma {:induction false} ClaimRunsOne(s: Store, step: Step)
    requires Enabled(s, step) && step.ClaimStep?
    ensures step.claimed.None? <==> forall id :: !Waits(s, id)
    ensures
      var t := After(s, step);
      && t.jobs.Keys == s.jobs.Keys && t.payloads == s.payloads && t.index == s.index && t.idempotency == s.idempotency
      && (forall id :: id in t.pending <==> Waits(s, id) && step.claimed != Some(id))
      && (forall id :: id in s.jobs && step.claimed != Some(id) ==> t.jobs[id] == s.jobs[id])
      && (step.claimed.Some? ==>
            var id := step.claimed.value;
            && id in s.jobs && t.jobs[id] == s.jobs[id].(state := Running, startedAt := Some(step.now))
            && t.leases == s.leases[id := step.expiry])
      && (step.claimed.None? ==> t.leases == s.leases)
  {
    assert forall id :: id in Candidates(s) <==> Waits(s, id);
    if step.claimed.Some? {
      assert step.claimed.value in Candidates(s);
    }
  }

  ghost predicate Alike(a: Job, b: Job) {
    a.class_ == b.class_ && a.initialScore == b.initialScore
  }

  /** Whatever the policy and on either path, a claim never passes over an older queued job of its class and score. */
  lemma {:induction false} ClaimsAreFifo(s: Store, id: JobId, now: real, policy: QueuePolicy, older: JobId)
    requires NothingStranded(s) && policy.Valid() && id in Candidates(s) && MayClaim(s, id, now, policy)
    requires older in QueuedIds(s) && Alike(s.jobs[older], s.jobs[id])
    ensures s.jobs[id].createdAt <= s.jobs[older].createdAt
  {
    if s.jobs[older].createdAt < s.jobs[id].createdAt {
      assert older in Candidates(s);
      BonusIsMonotone(Waited(s, id, now), Waited(s, older, now), policy);
      assert OutRanks(s, older, id, now, policy);
      if IsLongestStarved(s, id, now, policy) {
        assert IsStarved(s, older, now, policy);
      }
    }
  }

  /** Workers finish only jobs they have claimed, as `execute_job` does. */
  ghost predicate FinishesOnlyClaimed(steps: seq<Step>) {
    forall i :: 0 <= i < |steps| && (steps[i].CompleteStep? || steps[i].FailStep?) ==>
      exists k :: 0 <= k < i && Claims(steps, k, steps[i].id)
  }

  lemma {:induction false} QueuedUntilClaimed(states: seq<Store>, steps: seq<Step>, n: nat, id: JobId)
    requires IsRun(states, steps) && states[0] == EMPTY_STORE && n < |states|
    requires FinishesOnlyClaimed(steps) && id in states[n].jobs
    ensures states[n].jobs[id].state == Queued || exists k :: 0 <= k < n && Claims(steps, k, id)
  {
    if n > 0 {
      var i := n - 1;
      assert Enabled(states[i], steps[i]) && states[n] == After(states[i], steps[i]);
      if id in states[i].jobs {
        QueuedUntilClaimed(states, steps, i, id);
        if states[n].jobs[id].state != Queued {
          if steps[i].ClaimStep? && steps[i].claimed == Some(id) {
            assert Claims(steps, i, id);
          } else if (steps[i].CompleteStep? || steps[i].FailStep?) && steps[i].id == id {
            var k :| 0 <= k < i && Claims(steps, k, steps[i].id);
          }
        }
      }
    }
  }

  /** In every run, hot-swapped policies or not: of two jobs alike, the older is claimed before the younger ever is. */
  lemma {:induction false} OlderIsClaimedFirst(states: seq<Store>, steps: seq<Step>, i: nat, younger: JobId,
                                               older: JobId)
    requires IsRun(states, steps) && states[0] == EMPTY_STORE && FinishesOnlyClaimed(steps)
    requires i < |steps| && Claims(steps, i, younger)
    requires older in states[i].jobs && younger in states[i].jobs
            && Alike(states[i].jobs[older], states[i].jobs[younger])
    requires states[i].jobs[older].createdAt < states[i].jobs[younger].createdAt
    ensures exists k :: 0 <= k < i && Claims(steps, k, older)
  {
    QueuedUntilClaimed(states, steps, i, older);
    NoJobIsStranded(states, steps, i);
    assert Enabled(states[i], steps[i]);
    if states[i].jobs[older].state == Queued {
      ClaimsAreFifo(states[i], younger, steps[i].now, steps[i].policy, older);
    }
  }

  // ---------- endings ----------

  /** The step changes nothing of any job but this one. */
  ghost predicate OnlyTouches(s: Store, t: Store, id: JobId) {
    && t.jobs.Keys == s.jobs.Keys && t.index == s.index && t.idempotency == s.idempotency && t.streak == s.streak
    && (forall o :: o in s.jobs && o != id ==> t.jobs[o] == s.jobs[o])
    && (forall o :: o != id ==> (o in t.pending <==> o in s.pending))
    && (forall o :: o != id ==> (o in t.leases <==> o in s.leases) && (o in t.payloads <==> o in s.payloads))
    && (forall o :: o != id && o in s.leases ==> t.leases[o] == s.leases[o])
    && (forall o :: o != id && o in s.payloads ==> t.payloads[o] == s.payloads[o])
  }

  /** A completed job has its result and time, a failed one its error and time; neither has a lease or a payload. */
  lemma {:induction false} EndingsAreKept(s: Store, step: Step)
    requires (step.CompleteStep? || step.FailStep?) && Enabled(s, step)
    ensures step.id !in s.jobs ==> After(s, step) == s
    ensures step.id in s.jobs ==>
              var t, id := After(s, step), step.id;
              && OnlyTouches(s, t, id) && id !in t.leases && id !in t.payloads
              && (id in t.pending <==> id in s.pending)
              && t.jobs[id] == if step.CompleteStep?
                 then s.jobs[id].(state := Completed, completedAt := Some(step.at), result := Some(step.result))
                 else s.jobs[id].(state := Failed, completedAt := Some(step.at), error := Some(step.error))
  {
  }

  /** A job put back is queued and pending, with all else it had but its lease. */
  lemma {:induction false} PutBackIsQueued(s: Store, id: JobId)
    ensures id !in s.jobs ==> Requeue(s, id) == s
    ensures id in s.jobs ==>
              var t := Requeue(s, id);
              && OnlyTouches(s, t, id) && id !in t.leases && id in t.pending && t.payloads == s.payloads
              && t.jobs[id] == s.jobs[id].(state := Queued)
  {
  }

  /** Reaping puts back exactly the known jobs whose lease has run out, and touches no other. */
  lemma {:induction false} ReapingPutsBack(s: Store, now: real, id: JobId)
    ensures
      var t, out := RequeueAll(s, Expired(s, now)), id in s.jobs && id in s.leases && 0.0 <= s.leases[id] <= now;
      && t.jobs.Keys == s.jobs.Keys && t.payloads == s.payloads && t.streak == s.streak
      && (id in t.pending <==> out || id in s.pending)
      && (id in t.leases <==> id in s.leases && !out)
      && (id in t.leases ==> t.leases[id] == s.leases[id])
      && (id in s.jobs ==> t.jobs[id] == if out then s.jobs[id].(state := Queued) else s.jobs[id])
  {
  }

  // ---------- creation ----------

  ghost predicate Commits(steps: seq<Step>, j: nat, id: JobId) {
    j < |steps| && steps[j].CommitStep? && steps[j].id == id
  }

  /** A job comes into being whole, and only by a commit. */
  lemma {:induction false} JobsAreCreatedWhole(states: seq<Store>, steps: seq<Step>, i: nat, id: JobId)
    requires IsRun(states, steps) && i < |steps| && id !in states[i].jobs && id in states[i + 1].jobs
    ensures Commits(steps, i, id)
    ensures
      var s, step := states[i + 1], steps[i];
      && s.jobs[id] == Job(Queued, step.preview.class_, step.preview.initialScore, step.now, step.queuePosition,
                           None, None, None, None)
      && id in s.pending && id in s.payloads && s.payloads[id] == step.preview.gatewayRequest
      && id in s.index && s.index[id] == step.now
  {
    assert Enabled(states[i], steps[i]) && states[i + 1] == After(states[i], steps[i]);
  }

}
