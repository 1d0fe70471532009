/** Enqueue calls, their Redis commands interleaved with one another and with all other operations of the store. */
module EnqueueRuns {
  import opened Wrappers
  import opened JobQueue
  import Q = JobQueueRuns

  /** Where a call is: which command comes next, and what it has read. */
  datatype Phase =
    | Taken                                   // SET NX found the key there
    | Pointed(id: JobId)                      // GET answered this id
    | Stale                                   // and get_job found nothing under it
    | Holding(id: JobId)                      // the key is written
    | Placed(id: JobId, queuePosition: nat)   // the pending jobs are counted
    | Returned(id: JobId)

  datatype Call = Call(key: string, phase: Phase)

  /** The store, the calls begun so far, and the uuids drawn so far. A call that crashed makes no further move. */
  datatype System = System(store: Store, calls: map<nat, Call>, drawn: set<JobId>)

  const START := System(EMPTY_STORE, map[], {})

  datatype Move =
    | SetNx(c: nat, key: string, uuid: JobId)
    | Get(c: nat)
    | GetJob(c: nat)
    | Overwrite(c: nat, uuid: JobId)
    | CountPending(c: nat)
    | Execute(c: nat, preview: Preview, now: real)
    | Other(step: Q.Step)

  ghost predicate Enabled(sys: System, m: Move) {
    match m
    case SetNx(c, _, uuid) => c !in sys.calls && uuid !in sys.drawn
    case Get(c) => c in sys.calls && sys.calls[c].phase == Taken
    case GetJob(c) => c in sys.calls && sys.calls[c].phase.Pointed?
    case Overwrite(c, uuid) => c in sys.calls && sys.calls[c].phase == Stale && uuid !in sys.drawn
    case CountPending(c) => c in sys.calls && sys.calls[c].phase.Holding?
    case Execute(c, _, _) => c in sys.calls && sys.calls[c].phase.Placed?
    case Other(step) => !step.PointStep? && !step.CommitStep? && Q.Enabled(sys.store, step)
  }

  function Reached(sys: System, c: nat, phase: Phase): System
    requires c in sys.calls
  {
    sys.(calls := sys.calls[c := sys.calls[c].(phase := phase)])
  }

  ghost function After(sys: System, m: Move): System
    requires Enabled(sys, m)
  {
    var s := sys.store;
    match m
    case SetNx(c, key, uuid) =>
      if key in s.idempotency then sys.(calls := sys.calls[c := Call(key, Taken)], drawn := sys.drawn + {uuid})
      else System(Point(s, key, uuid), sys.calls[c := Call(key, Holding(uuid))], sys.drawn + {uuid})
    case Get(c) =>
      var key := sys.calls[c].key;
      Reached(sys, c, if key in s.idempotency then Pointed(s.idempotency[key]) else Stale)
    case GetJob(c) =>
      var id := sys.calls[c].phase.id;
      Reached(sys, c, if id in s.jobs then Returned(id) else Stale)
    case Overwrite(c, uuid) =>
      Reached(sys, c, Holding(uuid)).(store := Point(s, sys.calls[c].key, uuid), drawn := sys.drawn + {uuid})
    case CountPending(c) => Reached(sys, c, Placed(sys.calls[c].phase.id, |s.pending| + 1))
    case Execute(c, preview, now) =>
      var held := sys.calls[c].phase;
      Reached(sys, c, Returned(held.id)).(store := Commit(s, held.id, preview, held.queuePosition, now))
    case Other(step) => sys.(store := Q.After(s, step))
  }

  ghost predicate IsRun(states: seq<System>, moves: seq<Move>) {
    && |states| == |moves| + 1 && states[0] == START
    && forall i :: 0 <= i < |moves| ==> Links(states, moves, i)
  }

  ghost predicate Links(states: seq<System>, moves: seq<Move>, i: nat) {
    && i + 1 < |states| && i < |moves|
    && Enabled(states[i], moves[i]) && states[i + 1] == After(states[i], moves[i])
  }

  // ---------- an undisturbed call ----------

  /** Between these steps only this call moves, and these are the preview, the second uuid and the time it uses. */
  predicate Alone(moves: seq<Move>, i: nat, n: nat, c: nat, preview: Preview, again: JobId, now: real)
    requires n <= |moves|
  {
    forall k :: i <= k < n ==>
      && !moves[k].Other? && moves[k].c == c
      && (moves[k].Overwrite? ==> moves[k].uuid == again)
      && (moves[k].Execute? ==> moves[k].preview == preview && moves[k].now == now)
  }

  /** A call that has counted and is left alone until it returns commits its id. */
  lemma {:induction false} PlacedCommits(states: seq<System>, moves: seq<Move>, i: nat, n: nat, c: nat,
                                         preview: Preview, again: JobId, now: real)
    requires IsRun(states, moves) && i <= n < |states| && Alone(moves, i, n, c, preview, again, now)
    requires c in states[i].calls && states[i].calls[c].phase.Placed?
    requires c in states[n].calls && states[n].calls[c].phase.Returned?
    ensures
      var s, held := states[i].store, states[i].calls[c].phase;
      (states[n].store, states[n].calls[c].phase.id)
          == (Commit(s, held.id, preview, held.queuePosition, now), held.id)
  {
    assert Links(states, moves, i);
    assert n > i + 1 ==> Links(states, moves, i + 1);
  }

  /** A call that holds an id and is left alone until it returns commits it. */
  lemma {:induction false} HolderCommits(states: seq<System>, moves: seq<Move>, i: nat, n: nat, c: nat,
                                         preview: Preview, again: JobId, now: real)
    requires IsRun(states, moves) && i <= n < |states| && Alone(moves, i, n, c, preview, again, now)
    requires c in states[i].calls && states[i].calls[c].phase.Holding?
    requires c in states[n].calls && states[n].calls[c].phase.Returned?
    ensures
      var s, id := states[i].store, states[i].calls[c].phase.id;
      (states[n].store, states[n].calls[c].phase.id) == (Commit(s, id, preview, |s.pending| + 1, now), id)
  {
    assert Links(states, moves, i);
    PlacedCommits(states, moves, i + 1, n, c, preview, again, now);
  }

  /** A call that finds no job and is left alone from then on overwrites the key and commits. */
  lemma {:induction false} StaleRecovers(states: seq<System>, moves: seq<Move>, i: nat, n: nat, c: nat,
                                         preview: Preview, again: JobId, now: real)
    requires IsRun(states, moves) && i <= n < |states| && Alone(moves, i, n, c, preview, again, now)
    requires c in states[i].calls && states[i].calls[c].phase == Stale
    requires c in states[n].calls && states[n].calls[c].phase.Returned?
    ensures
      var s := Point(states[i].store, states[i].calls[c].key, again);
      (states[n].store, states[n].calls[c].phase.id)
          == (Commit(s, again, preview, |states[i].store.pending| + 1, now), again)
  {
    assert Links(states, moves, i);
    HolderCommits(states, moves, i + 1, n, c, preview, again, now);
  }

  /** What get_job finds, when nothing comes between, and that a call which finds the job is done. */
  lemma {:induction false} TakenLooksUp(states: seq<System>, moves: seq<Move>, i: nat, n: nat, c: nat,
                                        preview: Preview, again: JobId, now: real)
    requires IsRun(states, moves) && i < n < |states| && Alone(moves, i, n, c, preview, again, now)
    requires c in states[i].calls && states[i].calls[c].phase == Taken
    requires states[i].calls[c].key in states[i].store.idempotency
    requires c in states[n].calls && states[n].calls[c].phase.Returned?
    ensures
      var s, key := states[i].store, states[i].calls[c].key;
      var id := s.idempotency[key];
      && i + 2 <= n && states[i + 2].store == s && c in states[i + 2].calls
      && states[i + 2].calls[c] == Call(key, if id in s.jobs then Returned(id) else Stale)
      && (id in s.jobs ==> n == i + 2)
  {
    assert Links(states, moves, i) && Links(states, moves, i + 1);
    assert n > i + 2 ==> Links(states, moves, i + 2);
  }

  /** A call that nothing comes between leaves and answers what `RedisAutomationStore.Enqueue` does. */
  lemma {:induction false} AloneIsEnqueued(states: seq<System>, moves: seq<Move>, i: nat, n: nat, c: nat, key: string,
                                           preview: Preview, uuid: JobId, again: JobId, now: real)
    requires IsRun(states, moves) && i < n < |states| && Alone(moves, i, n, c, preview, again, now)
    requires moves[i] == SetNx(c, key, uuid) && c in states[n].calls && states[n].calls[c].phase.Returned?
    ensures (states[n].store, states[n].calls[c].phase.id)
            == Enqueued(states[i].store, key, preview, uuid, again, now)
  {
    assert Links(states, moves, i);
    if key !in states[i].store.idempotency {
      HolderCommits(states, moves, i + 1, n, c, preview, again, now);
    } else {
      TakenLooksUp(states, moves, i + 1, n, c, preview, again, now);
      if states[i].store.idempotency[key] !in states[i].store.jobs {
        StaleRecovers(states, moves, i + 3, n, c, preview, again, now);
      }
    }
  }

  // ---------- ids ----------

  predicate Holds(call: Call) { call.phase.Holding? || call.phase.Placed? }

  /** Ids held are drawn and not yet jobs, and no two calls hold the same one. */
  ghost predicate WellHeld(sys: System) {
    && sys.store.jobs.Keys <= sys.drawn
    && (forall c :: c in sys.calls && Holds(sys.calls[c]) ==>
          sys.calls[c].phase.id in sys.drawn && sys.calls[c].phase.id !in sys.store.jobs)
    && (forall c, d :: c in sys.calls && d in sys.calls && c != d && Holds(sys.calls[c]) && Holds(sys.calls[d]) ==>
          sys.calls[c].phase.id != sys.calls[d].phase.id)
  }

  lemma {:induction false} OtherKeeps(s: Store, step: Q.Step)
    requires Q.Enabled(s, step) && !step.PointStep? && !step.CommitStep?
    ensures Q.After(s, step).jobs.Keys == s.jobs.Keys && Q.After(s, step).idempotency == s.idempotency
  {
  }

  lemma {:induction false} MoveKeepsHeld(sys: System, m: Move)
    requires WellHeld(sys) && Enabled(sys, m)
    ensures WellHeld(After(sys, m))
  {
    if m.Other? {
      OtherKeeps(sys.store, m.step);
      assert forall id :: id in sys.store.jobs <==> id in After(sys, m).store.jobs;
    }
  }

  lemma {:induction false} IdsAreWellHeld(states: seq<System>, moves: seq<Move>, n: nat)
    requires IsRun(states, moves) && n < |states|
    ensures WellHeld(states[n])
  {
    if n > 0 {
      IdsAreWellHeld(states, moves, n - 1);
      assert Links(states, moves, n - 1);
      MoveKeepsHeld(states[n - 1], moves[n - 1]);
    }
  }

  // ---------- the store's own runs ----------

  /** What the store sees of a move. */
  ghost function Seen(sys: System, m: Move): Q.Step
    requires Enabled(sys, m)
  {
    match m
    case SetNx(_, key, uuid) => if key in sys.store.idempotency then Q.ReadStep else Q.PointStep(key, uuid)
    case Overwrite(c, uuid) => Q.PointStep(sys.calls[c].key, uuid)
    case Execute(c, preview, now) =>
      Q.CommitStep(sys.calls[c].phase.id, preview, sys.calls[c].phase.queuePosition, now)
    case Other(step) => step
    case _ => Q.ReadStep
  }

  lemma {:induction false} MoveIsStep(sys: System, m: Move)
    requires WellHeld(sys) && Enabled(sys, m)
    ensures Q.Enabled(sys.store, Seen(sys, m)) && After(sys, m).store == Q.After(sys.store, Seen(sys, m))
  {
  }

  /** Every interleaving of calls is a run of the store, so all that holds of its runs holds of the interleaving. */
  lemma {:induction false} CallsMakeStoreRuns(states: seq<System>, moves: seq<Move>)
    returns (stores: seq<Store>, steps: seq<Q.Step>)
    requires IsRun(states, moves)
    ensures Q.IsRun(stores, steps) && |steps| == |moves| && stores[0] == EMPTY_STORE
    ensures forall i :: 0 <= i < |stores| ==> stores[i] == states[i].store
    ensures forall i :: 0 <= i < |steps| ==> Enabled(states[i], moves[i]) && steps[i] == Seen(states[i], moves[i])
  {
    forall i | 0 <= i < |moves| ensures Enabled(states[i], moves[i]) {
      assert Links(states, moves, i);
    }
    stores := seq(|states|, i requires 0 <= i < |states| => states[i].store);
    steps := seq(|moves|, i requires 0 <= i < |moves| && Enabled(states[i], moves[i]) => Seen(states[i], moves[i]));
    forall i | 0 <= i < |steps|
      ensures Q.Enabled(stores[i], steps[i]) && stores[i + 1] == Q.After(stores[i], steps[i])
    {
      IdsAreWellHeld(states, moves, i);
      assert Links(states, moves, i);
      MoveIsStep(states[i], moves[i]);
    }
  }

  // ---------- what calls do to their key ----------

  /** A call of this key, and the id it writes, reads, finds or creates. */
  datatype Act = Act(key: string, call: nat, id: JobId)

  function KeyWritten(sys: System, m: Move): Option<Act> {
    match m
    case SetNx(c, key, uuid) => if key in sys.store.idempotency then None else Some(Act(key, c, uuid))
    case Overwrite(c, uuid) => if c in sys.calls then Some(Act(sys.calls[c].key, c, uuid)) else None
    case _ => None
  }

  /** GET answers an id. */
  function KeyRead(sys: System, m: Move): Option<Act> {
    if m.Get? && m.c in sys.calls && sys.calls[m.c].key in sys.store.idempotency
    then Some(Act(sys.calls[m.c].key, m.c, sys.store.idempotency[sys.calls[m.c].key]))
    else None
  }

  /** get_job finds the job, and the call returns it. */
  function JobFound(sys: System, m: Move): Option<Act> {
    if m.GetJob? && m.c in sys.calls && sys.calls[m.c].phase.Pointed? && sys.calls[m.c].phase.id in sys.store.jobs
    then Some(Act(sys.calls[m.c].key, m.c, sys.calls[m.c].phase.id))
    else None
  }

  /** The pipeline creates the job, and the call returns it. */
  function JobCreated(sys: System, m: Move): Option<Act> {
    if m.Execute? && m.c in sys.calls && sys.calls[m.c].phase.Placed?
    then Some(Act(sys.calls[m.c].key, m.c, sys.calls[m.c].phase.id))
    else None
  }

  ghost predicate Writes(states: seq<System>, moves: seq<Move>, i: nat, a: Act) {
    (if i < |moves| && i < |states| then KeyWritten(states[i], moves[i]) else None) == Some(a)
  }

  ghost predicate Reads(states: seq<System>, moves: seq<Move>, i: nat, a: Act) {
    (if i < |moves| && i < |states| then KeyRead(states[i], moves[i]) else None) == Some(a)
  }

  ghost predicate Finds(states: seq<System>, moves: seq<Move>, i: nat, a: Act) {
    (if i < |moves| && i < |states| then JobFound(states[i], moves[i]) else None) == Some(a)
  }

  ghost predicate Creates(states: seq<System>, moves: seq<Move>, i: nat, a: Act) {
    (if i < |moves| && i < |states| then JobCreated(states[i], moves[i]) else None) == Some(a)
  }

  ghost predicate Returns(states: seq<System>, moves: seq<Move>, i: nat, a: Act) {
    Creates(states, moves, i, a) || Finds(states, moves, i, a)
  }

  ghost predicate HasSecondJob(states: seq<System>, moves: seq<Move>, key: string) {
    exists j: nat, k: nat, a: Act, b: Act ::
      j < k && a.key == key == b.key && Creates(states, moves, j, a) && Creates(states, moves, k, b)
  }

  // ---------- what stays ----------

  lemma {:induction false} MoveKeeps(sys: System, m: Move)
    requires Enabled(sys, m)
    ensures sys.drawn <= After(sys, m).drawn && sys.store.jobs.Keys <= After(sys, m).store.jobs.Keys
    ensures sys.store.idempotency.Keys <= After(sys, m).store.idempotency.Keys
    ensures sys.calls.Keys <= After(sys, m).calls.Keys
    ensures forall c :: c in sys.calls ==> After(sys, m).calls[c].key == sys.calls[c].key
    ensures forall c :: c in sys.calls && (m.Other? || m.c != c) ==> After(sys, m).calls[c] == sys.calls[c]
  {
    if m.Other? {
      OtherKeeps(sys.store, m.step);
    }
  }

  lemma {:induction false} RunKeeps(states: seq<System>, moves: seq<Move>, i: nat, n: nat)
    requires IsRun(states, moves) && i <= n < |states|
    ensures states[i].drawn <= states[n].drawn && states[i].store.jobs.Keys <= states[n].store.jobs.Keys
    ensures states[i].store.idempotency.Keys <= states[n].store.idempotency.Keys
    ensures states[i].calls.Keys <= states[n].calls.Keys
    decreases n
  {
    if i < n {
      RunKeeps(states, moves, i, n - 1);
      assert Links(states, moves, n - 1);
      MoveKeeps(states[n - 1], moves[n - 1]);
    }
  }

  lemma {:induction false} WrittenIsFresh(states: seq<System>, moves: seq<Move>, i: nat, a: Act)
    requires IsRun(states, moves) && Writes(states, moves, i, a)
    ensures a.id !in states[i].drawn && a.id in states[i + 1].drawn
    ensures a.key in states[i + 1].store.idempotency && states[i + 1].store.idempotency[a.key] == a.id
    ensures a.call in states[i + 1].calls && states[i + 1].calls[a.call] == Call(a.key, Holding(a.id))
  {
    assert Links(states, moves, i);
  }

  /** No id is written twice. */
  lemma {:induction false} IdsAreWrittenOnce(states: seq<System>, moves: seq<Move>, i: nat, a: Act, j: nat, b: Act)
    requires IsRun(states, moves) && Writes(states, moves, i, a) && Writes(states, moves, j, b)
    ensures a.id == b.id ==> i == j && a == b
  {
    WrittenIsFresh(states, moves, i, a);
    WrittenIsFresh(states, moves, j, b);
    if i < j {
      RunKeeps(states, moves, i + 1, j);
    } else if j < i {
      RunKeeps(states, moves, j + 1, i);
    }
  }

  predicate PastWriting(call: Call) { call.phase.Holding? || call.phase.Placed? || call.phase.Returned? }

  /** A call never goes back from writing, nor from returning. */
  lemma {:induction false} MovesForward(sys: System, m: Move, c: nat)
    requires Enabled(sys, m) && c in sys.calls
    ensures c in After(sys, m).calls
    ensures PastWriting(sys.calls[c]) ==> PastWriting(After(sys, m).calls[c])
    ensures sys.calls[c].phase.Returned? ==> After(sys, m).calls[c] == sys.calls[c]
  {
  }

  lemma {:induction false} StaysPastWriting(states: seq<System>, moves: seq<Move>, i: nat, n: nat, c: nat)
    requires IsRun(states, moves) && i <= n < |states| && c in states[i].calls && PastWriting(states[i].calls[c])
    ensures c in states[n].calls && PastWriting(states[n].calls[c])
    decreases n
  {
    if i < n {
      StaysPastWriting(states, moves, i, n - 1, c);
      assert Links(states, moves, n - 1);
      MovesForward(states[n - 1], moves[n - 1], c);
    }
  }

  /** No call writes twice. */
  lemma {:induction false} CallsWriteOnce(states: seq<System>, moves: seq<Move>, i: nat, a: Act, j: nat, b: Act)
    requires IsRun(states, moves) && i < j && Writes(states, moves, i, a) && Writes(states, moves, j, b)
    ensures a.call != b.call
  {
    WrittenIsFresh(states, moves, i, a);
    assert Links(states, moves, j);
    StaysPastWriting(states, moves, i + 1, j, a.call);
  }

  // ---------- where a phase comes from ----------

  lemma {:induction false} HolderWrote(states: seq<System>, moves: seq<Move>, n: nat, c: nat)
    requires IsRun(states, moves) && n < |states| && c in states[n].calls && Holds(states[n].calls[c])
    ensures exists w: nat :: w < n
              && Writes(states, moves, w, Act(states[n].calls[c].key, c, states[n].calls[c].phase.id))
  {
    assert Links(states, moves, n - 1);
    MoveKeeps(states[n - 1], moves[n - 1]);
    if !Writes(states, moves, n - 1, Act(states[n].calls[c].key, c, states[n].calls[c].phase.id)) {
      HolderWrote(states, moves, n - 1, c);
    }
  }

  lemma {:induction false} PointedRead(states: seq<System>, moves: seq<Move>, n: nat, c: nat)
    requires IsRun(states, moves) && n < |states| && c in states[n].calls && states[n].calls[c].phase.Pointed?
    ensures exists g: nat :: g < n
              && Reads(states, moves, g, Act(states[n].calls[c].key, c, states[n].calls[c].phase.id))
  {
    assert Links(states, moves, n - 1);
    MoveKeeps(states[n - 1], moves[n - 1]);
    if !Reads(states, moves, n - 1, Act(states[n].calls[c].key, c, states[n].calls[c].phase.id)) {
      PointedRead(states, moves, n - 1, c);
    }
  }

  ghost predicate TakenKeysAreThere(sys: System) {
    forall c :: c in sys.calls && sys.calls[c].phase == Taken ==> sys.calls[c].key in sys.store.idempotency
  }

  lemma {:induction false} KeysStayThere(states: seq<System>, moves: seq<Move>, n: nat)
    requires IsRun(states, moves) && n < |states|
    ensures TakenKeysAreThere(states[n])
  {
    if n > 0 {
      KeysStayThere(states, moves, n - 1);
      assert Links(states, moves, n - 1);
      MoveKeeps(states[n - 1], moves[n - 1]);
    }
  }

  /** The call reads an id at step g, and at step l there is no job under it. */
  ghost predicate ReadsStale(states: seq<System>, moves: seq<Move>, g: nat, l: nat, a: Act) {
    g < l < |states| && Reads(states, moves, g, a) && a.id !in states[l].store.jobs
  }

  /** A call that goes on to overwrite the key has read an id, and found no job under it after that. */
  lemma {:induction false} StaleRead(states: seq<System>, moves: seq<Move>, n: nat, c: nat)
    requires IsRun(states, moves) && n < |states| && c in states[n].calls && states[n].calls[c].phase == Stale
    ensures exists g: nat, l: nat, id :: l < n && ReadsStale(states, moves, g, l, Act(states[n].calls[c].key, c, id))
  {
    var l := n - 1;
    assert Links(states, moves, l);
    MoveKeeps(states[l], moves[l]);
    KeysStayThere(states, moves, l);
    if moves[l] == GetJob(c) {
      PointedRead(states, moves, l, c);
      var a := Act(states[l].calls[c].key, c, states[l].calls[c].phase.id);
      var g: nat :| g < l && Reads(states, moves, g, a);
      assert ReadsStale(states, moves, g, l, a);
    } else {
      StaleRead(states, moves, l, c);
    }
  }

  lemma {:induction false} UnwrittenStays(sys: System, m: Move, key: string)
    requires Enabled(sys, m) && forall a: Act :: a.key == key ==> KeyWritten(sys, m) != Some(a)
    ensures key in After(sys, m).store.idempotency <==> key in sys.store.idempotency
    ensures key in sys.store.idempotency ==> After(sys, m).store.idempotency[key] == sys.store.idempotency[key]
  {
    if m.Other? {
      OtherKeeps(sys.store, m.step);
    } else if m.Overwrite? {
      assert KeyWritten(sys, m) == Some(Act(sys.calls[m.c].key, m.c, m.uuid));
    } else if m.SetNx? && m.key !in sys.store.idempotency {
      assert KeyWritten(sys, m) == Some(Act(m.key, m.c, m.uuid));
    }
  }

  /** The last write of the key before step n. */
  ghost predicate LastWrites(states: seq<System>, moves: seq<Move>, n: nat, w: nat, a: Act) {
    && w < n && Writes(states, moves, w, a)
    && forall k: nat, b: Act :: w < k < n && b.key == a.key ==> !Writes(states, moves, k, b)
  }

  /** A key leads to the id written last. */
  lemma {:induction false} LastWrite(states: seq<System>, moves: seq<Move>, n: nat, key: string)
    requires IsRun(states, moves) && n < |states| && key in states[n].store.idempotency
    ensures exists w: nat, c :: LastWrites(states, moves, n, w, Act(key, c, states[n].store.idempotency[key]))
  {
    assert Links(states, moves, n - 1);
    if written: Act :| written.key == key && Writes(states, moves, n - 1, written) {
      assert LastWrites(states, moves, n, n - 1, Act(key, written.call, states[n].store.idempotency[key]));
    } else {
      UnwrittenStays(states[n - 1], moves[n - 1], key);
      LastWrite(states, moves, n - 1, key);
      var id := states[n].store.idempotency[key];
      var w: nat, c :| LastWrites(states, moves, n - 1, w, Act(key, c, id));
      assert LastWrites(states, moves, n, w, Act(key, c, id));
    }
  }

  lemma {:induction false} JobWasCreated(states: seq<System>, moves: seq<Move>, n: nat, id: JobId)
    requires IsRun(states, moves) && n < |states| && id in states[n].store.jobs
    ensures exists j: nat, a: Act :: j < n && a.id == id && Creates(states, moves, j, a)
  {
    var j := n - 1;
    assert Links(states, moves, j);
    if id in states[j].store.jobs {
      JobWasCreated(states, moves, j, id);
    } else {
      if moves[j].Other? {
        OtherKeeps(states[j].store, moves[j].step);
      }
      assert Creates(states, moves, j, Act(states[j].calls[moves[j].c].key, moves[j].c, id));
    }
  }

  lemma {:induction false} CreatorWrote(states: seq<System>, moves: seq<Move>, j: nat, a: Act)
    requires IsRun(states, moves) && Creates(states, moves, j, a)
    ensures exists w: nat :: w < j && Writes(states, moves, w, a)
  {
    HolderWrote(states, moves, j, a.call);
  }

  lemma {:induction false} CreatedStays(states: seq<System>, moves: seq<Move>, j: nat, a: Act, n: nat)
    requires IsRun(states, moves) && Creates(states, moves, j, a) && n < |states|
    ensures j < n <==> a.id in states[n].store.jobs
  {
    assert Links(states, moves, j);
    IdsAreWellHeld(states, moves, j);
    if j < n {
      RunKeeps(states, moves, j + 1, n);
    } else {
      RunKeeps(states, moves, n, j);
    }
  }

  /** A call that finds a job finds one that was created for its key. */
  lemma {:induction false} FoundWasCreated(states: seq<System>, moves: seq<Move>, n: nat, a: Act)
    requires IsRun(states, moves) && Finds(states, moves, n, a)
    ensures exists j: nat, c :: j < n && Creates(states, moves, j, Act(a.key, c, a.id))
  {
    PointedRead(states, moves, n, a.call);
    var g: nat :| g < n && Reads(states, moves, g, a);
    LastWrite(states, moves, g, a.key);
    var v: nat, d :| LastWrites(states, moves, g, v, Act(a.key, d, a.id));
    JobWasCreated(states, moves, n, a.id);
    var j: nat, b: Act :| j < n && b.id == a.id && Creates(states, moves, j, b);
    CreatorWrote(states, moves, j, b);
    var w: nat :| w < j && Writes(states, moves, w, b);
    IdsAreWrittenOnce(states, moves, w, b, v, Act(a.key, d, a.id));
    assert b == Act(a.key, b.call, a.id);
  }
}
