/** How many jobs a key gets, over all interleavings of enqueue calls. */
module EnqueueTheorems {
  import opened Wrappers
  import opened JobQueue
  import opened EnqueueRuns

  // ---------- a second job ----------

  /**
   * A call writes the key at step w and commits at step c. Another call of that key reads it at step g, before that
   * commit, and overwrites it at step v, after that write.
   */
  ghost predicate Overwritten(states: seq<System>, moves: seq<Move>, key: string, w: nat, c: nat, g: nat, v: nat) {
    && w < v && g < v && g < c
    && exists a: Act, r: Act, b: Act :: IsOverwriting(states, moves, key, w, c, g, v, a, r, b)
  }

  ghost predicate IsOverwriting(states: seq<System>, moves: seq<Move>, key: string, w: nat, c: nat, g: nat, v: nat,
                                a: Act, r: Act, b: Act) {
    && a.key == key == b.key == r.key && r.call == b.call && a.call != b.call
    && Writes(states, moves, w, a) && Creates(states, moves, c, a)
    && Reads(states, moves, g, r) && Writes(states, moves, v, b)
  }

  /** A call of this key wrote it at step i and commits, or read it at step i and finds the job. */
  ghost predicate ReturnsFrom(states: seq<System>, moves: seq<Move>, key: string, i: nat) {
    exists n: nat, a: Act ::
      && i < n && a.key == key && Returns(states, moves, n, a)
      && (if Finds(states, moves, n, a) then Reads(states, moves, i, a) else Writes(states, moves, i, a))
  }

  /** The first write of the key after step i. */
  ghost predicate WritesNext(states: seq<System>, moves: seq<Move>, i: nat, v: nat, a: Act) {
    && i < v && Writes(states, moves, v, a)
    && forall k: nat, b: Act :: i < k < v && b.key == a.key ==> !Writes(states, moves, k, b)
  }

  lemma {:induction false} NextWrite(states: seq<System>, moves: seq<Move>, i: nat, j: nat, b: Act)
    requires i < j && Writes(states, moves, j, b)
    ensures exists v: nat, next: Act :: v <= j && next.key == b.key && WritesNext(states, moves, i, v, next)
    decreases j
  {
    if k: nat, x: Act :| i < k < j && x.key == b.key && Writes(states, moves, k, x) {
      NextWrite(states, moves, i, k, x);
    } else {
      assert WritesNext(states, moves, i, j, b);
    }
  }

  /** Whoever writes the key next after a call that commits is another call, and read it before that commit. */
  lemma {:induction false} NextWriterReadEarlier(states: seq<System>, moves: seq<Move>, w: nat, c: nat, a: Act,
                                                 v: nat, next: Act)
    requires IsRun(states, moves) && Writes(states, moves, w, a) && Creates(states, moves, c, a)
    requires next.key == a.key && WritesNext(states, moves, w, v, next)
    ensures exists g: nat :: Overwritten(states, moves, a.key, w, c, g, v)
  {
    WrittenIsFresh(states, moves, w, a);
    RunKeeps(states, moves, w + 1, v);
    assert Links(states, moves, v);
    StaleRead(states, moves, v, next.call);
    var g: nat, l: nat, id :| l < v && ReadsStale(states, moves, g, l, Act(a.key, next.call, id));
    if w < g {
      RunKeeps(states, moves, w + 1, g);
      LastWrite(states, moves, g, a.key);
      var last: nat, d :| LastWrites(states, moves, g, last, Act(a.key, d, id));
      assert last == w && id == a.id;
      CreatedStays(states, moves, c, a, l);
    } else {
      assert w != g;
      CommitsAfterWriting(states, moves, w, c, a);
    }
    CallsWriteOnce(states, moves, w, a, v, next);
    assert IsOverwriting(states, moves, a.key, w, c, g, v, a, Act(a.key, next.call, id), next);
    assert Overwritten(states, moves, a.key, w, c, g, v);
  }

  lemma {:induction false} CommitsAfterWriting(states: seq<System>, moves: seq<Move>, w: nat, c: nat, a: Act)
    requires IsRun(states, moves) && Writes(states, moves, w, a) && Creates(states, moves, c, a)
    ensures w < c
  {
    CreatorWrote(states, moves, c, a);
    var x: nat :| x < c && Writes(states, moves, x, a);
    IdsAreWrittenOnce(states, moves, w, a, x, a);
  }

  /**
   * A key gets a second job exactly if a call that commits is overwritten by a call that read the key before that
   * commit, and some call returns what it wrote or read there from then on.
   */
  lemma {:induction false} SecondJobExactly(states: seq<System>, moves: seq<Move>, key: string)
    requires IsRun(states, moves)
    ensures HasSecondJob(states, moves, key) <==>
            exists w: nat, c: nat, g: nat, v: nat, i: nat ::
              v <= i && Overwritten(states, moves, key, w, c, g, v) && ReturnsFrom(states, moves, key, i)
  {
    if HasSecondJob(states, moves, key) {
      var j: nat, k: nat, a: Act, b: Act :|
        j < k && a.key == key == b.key && Creates(states, moves, j, a) && Creates(states, moves, k, b);
      SecondJobNeedsOverwriting(states, moves, j, a, k, b);
    }
    if w: nat, c: nat, g: nat, v: nat, i: nat :|
         v <= i && Overwritten(states, moves, key, w, c, g, v) && ReturnsFrom(states, moves, key, i) {
      OverwritingMakesSecondJob(states, moves, key, w, c, g, v, i);
    }
  }

  lemma {:induction false} SecondJobNeedsOverwriting(states: seq<System>, moves: seq<Move>, j: nat, a: Act, k: nat,
                                                     b: Act)
    requires IsRun(states, moves) && j < k && a.key == b.key
    requires Creates(states, moves, j, a) && Creates(states, moves, k, b)
    ensures exists w: nat, c: nat, g: nat, v: nat, i: nat ::
              v <= i && Overwritten(states, moves, a.key, w, c, g, v) && ReturnsFrom(states, moves, a.key, i)
  {
    CreatedStays(states, moves, j, a, k);
    CreatedStays(states, moves, k, b, k);
    CreatorWrote(states, moves, j, a);
    CreatorWrote(states, moves, k, b);
    var w: nat :| w < j && Writes(states, moves, w, a);
    var x: nat :| x < k && Writes(states, moves, x, b);
    if w < x {
      LaterWriterOverwrites(states, moves, w, j, a, x, k, b);
    } else {
      LaterWriterOverwrites(states, moves, x, k, b, w, j, a);
    }
  }

  lemma {:induction false} LaterWriterOverwrites(states: seq<System>, moves: seq<Move>, w: nat, c: nat, a: Act, i: nat,
                                                 d: nat, b: Act)
    requires IsRun(states, moves) && w < i < d && a.key == b.key
    requires Writes(states, moves, w, a) && Creates(states, moves, c, a)
    requires Writes(states, moves, i, b) && Creates(states, moves, d, b)
    ensures exists g: nat, v: nat ::
              v <= i && Overwritten(states, moves, a.key, w, c, g, v) && ReturnsFrom(states, moves, a.key, i)
  {
    NextWrite(states, moves, w, i, b);
    var v: nat, next: Act :| v <= i && next.key == b.key && WritesNext(states, moves, w, v, next);
    NextWriterReadEarlier(states, moves, w, c, a, v, next);
    CreatorReturnsFrom(states, moves, i, d, b);
  }

  lemma {:induction false} CreatorReturnsFrom(states: seq<System>, moves: seq<Move>, w: nat, c: nat, a: Act)
    requires w < c && Writes(states, moves, w, a) && Creates(states, moves, c, a)
    ensures ReturnsFrom(states, moves, a.key, w)
  {
    assert Returns(states, moves, c, a) && !Finds(states, moves, c, a);
  }

  /** What is returned from a write on was created under an id written no earlier. */
  lemma {:induction false} ReturnedLater(states: seq<System>, moves: seq<Move>, v: nat, b: Act, i: nat)
    requires IsRun(states, moves) && Writes(states, moves, v, b) && v <= i && ReturnsFrom(states, moves, b.key, i)
    ensures exists c: nat, y: nat, d: Act ::
              v <= y && d.key == b.key && Writes(states, moves, y, d) && Creates(states, moves, c, d)
  {
    var n: nat, a: Act :| i < n && a.key == b.key && Returns(states, moves, n, a)
      && (if Finds(states, moves, n, a) then Reads(states, moves, i, a) else Writes(states, moves, i, a));
    if Finds(states, moves, n, a) {
      FoundWasCreated(states, moves, n, a);
      var c: nat, call :| c < n && Creates(states, moves, c, Act(a.key, call, a.id));
      var d := Act(a.key, call, a.id);
      CreatorWrote(states, moves, c, d);
      var w: nat :| w < c && Writes(states, moves, w, d);
      LastWrite(states, moves, i, b.key);
      var y: nat, e :| LastWrites(states, moves, i, y, Act(b.key, e, a.id));
      IdsAreWrittenOnce(states, moves, w, d, y, Act(b.key, e, a.id));
      assert v <= w;
    }
  }

  lemma {:induction false} TwoCreations(states: seq<System>, moves: seq<Move>, c: nat, a: Act, d: nat, b: Act)
    requires c != d && a.key == b.key && Creates(states, moves, c, a) && Creates(states, moves, d, b)
    ensures HasSecondJob(states, moves, a.key)
  {
    if c < d {
      assert c < d && a.key == a.key == b.key && Creates(states, moves, c, a) && Creates(states, moves, d, b);
    } else {
      assert d < c && b.key == a.key == a.key && Creates(states, moves, d, b) && Creates(states, moves, c, a);
    }
  }

  lemma {:induction false} OverwritingMakesSecondJob(states: seq<System>, moves: seq<Move>, key: string, w: nat, c: nat,
                                                     g: nat, v: nat, i: nat)
    requires IsRun(states, moves) && v <= i && Overwritten(states, moves, key, w, c, g, v)
    requires ReturnsFrom(states, moves, key, i)
    ensures HasSecondJob(states, moves, key)
  {
    var a: Act, r: Act, b: Act :| IsOverwriting(states, moves, key, w, c, g, v, a, r, b);
    ReturnedLater(states, moves, v, b, i);
    var d: nat, y: nat, e: Act :|
      v <= y && e.key == b.key && Writes(states, moves, y, e) && Creates(states, moves, d, e);
    IdsAreWrittenOnce(states, moves, w, a, y, e);
    TwoCreations(states, moves, c, a, d, e);
  }

  // ---------- calls in turn ----------

  /** Step i is a move of this call, which is for this key. */
  ghost predicate Acts(states: seq<System>, moves: seq<Move>, i: nat, key: string, c: nat) {
    && i + 1 < |states| && i < |moves| && !moves[i].Other? && moves[i].c == c
    && c in states[i + 1].calls && states[i + 1].calls[c].key == key
  }

  /** No call for the key moves between two moves of another: none overlap, whether they return or crash. */
  ghost predicate InTurn(states: seq<System>, moves: seq<Move>, key: string) {
    forall i: nat, j: nat, k: nat, c: nat, d: nat :: !Interrupts(states, moves, key, i, j, k, c, d)
  }

  ghost predicate Interrupts(states: seq<System>, moves: seq<Move>, key: string, i: nat, j: nat, k: nat, c: nat,
                             d: nat) {
    && i < j < k && c != d
    && Acts(states, moves, i, key, c) && Acts(states, moves, j, key, d) && Acts(states, moves, k, key, c)
  }

  lemma {:induction false} KeyMovesAct(states: seq<System>, moves: seq<Move>, i: nat, a: Act)
    requires IsRun(states, moves)
    requires Writes(states, moves, i, a) || Reads(states, moves, i, a) || Returns(states, moves, i, a)
    ensures Acts(states, moves, i, a.key, a.call)
  {
    assert Links(states, moves, i);
  }

  lemma {:induction false} OverwritingInterrupts(states: seq<System>, moves: seq<Move>, key: string, w: nat, c: nat,
                                                 g: nat, v: nat)
    requires IsRun(states, moves) && Overwritten(states, moves, key, w, c, g, v)
    ensures !InTurn(states, moves, key)
  {
    var a: Act, r: Act, b: Act :| IsOverwriting(states, moves, key, w, c, g, v, a, r, b);
    KeyMovesAct(states, moves, w, a);
    KeyMovesAct(states, moves, c, a);
    KeyMovesAct(states, moves, g, r);
    KeyMovesAct(states, moves, v, b);
    if g < w {
      assert Interrupts(states, moves, key, g, w, v, b.call, a.call);
    } else {
      assert Interrupts(states, moves, key, w, g, c, a.call, b.call);
    }
  }

  /** Calls that do not overlap, crashed or not, create at most one job per key. */
  lemma {:induction false} OneJobPerKey(states: seq<System>, moves: seq<Move>, key: string)
    requires IsRun(states, moves) && InTurn(states, moves, key)
    ensures !HasSecondJob(states, moves, key)
  {
    SecondJobExactly(states, moves, key);
    if w: nat, c: nat, g: nat, v: nat, i: nat :|
         v <= i && Overwritten(states, moves, key, w, c, g, v) && ReturnsFrom(states, moves, key, i) {
      OverwritingInterrupts(states, moves, key, w, c, g, v);
    }
  }

  lemma {:induction false} ReturnedWasCreated(states: seq<System>, moves: seq<Move>, i: nat, a: Act)
    requires IsRun(states, moves) && Returns(states, moves, i, a)
    ensures exists c: nat, call :: c <= i && Creates(states, moves, c, Act(a.key, call, a.id))
                                   && (Finds(states, moves, i, a) ==> c < i)
  {
    if Finds(states, moves, i, a) {
      FoundWasCreated(states, moves, i, a);
    } else {
      assert a == Act(a.key, a.call, a.id);
    }
  }

  lemma {:induction false} ChangedNothingYet(states: seq<System>, moves: seq<Move>, n: nat, c: nat, k: nat)
    requires IsRun(states, moves) && k < n < |states| && c in states[n].calls && !PastWriting(states[n].calls[c])
    requires !moves[k].Other? && moves[k].c == c
    ensures states[k + 1].store == states[k].store
  {
    assert Links(states, moves, k);
    if c in states[k + 1].calls && PastWriting(states[k + 1].calls[c]) {
      StaysPastWriting(states, moves, k + 1, n, c);
    }
  }

  lemma {:induction false} ReturnedIsDone(states: seq<System>, moves: seq<Move>, i: nat, n: nat, c: nat)
    requires IsRun(states, moves) && i <= n < |states| && c in states[i].calls && states[i].calls[c].phase.Returned?
    ensures c in states[n].calls && states[n].calls[c].phase.Returned?
    decreases n
  {
    if i < n {
      ReturnedIsDone(states, moves, i, n - 1, c);
      assert Links(states, moves, n - 1);
      MovesForward(states[n - 1], moves[n - 1], c);
    }
  }

  /**
   * Whatever calls crashed in between: calls that do not overlap and return name the same job, and one that returns
   * after another has changed nothing at all.
   */
  lemma {:induction false} EnqueueIsIdempotent(states: seq<System>, moves: seq<Move>, i: nat, a: Act, j: nat, b: Act)
    requires IsRun(states, moves) && InTurn(states, moves, a.key) && i < j && a.key == b.key
    requires Returns(states, moves, i, a) && Returns(states, moves, j, b)
    ensures a.id == b.id
    ensures forall k :: 0 <= k < |moves| && !moves[k].Other? && moves[k].c == b.call ==>
              states[k + 1].store == states[k].store
  {
    OneJobPerKey(states, moves, a.key);
    ReturnedWasCreated(states, moves, i, a);
    ReturnedWasCreated(states, moves, j, b);
    var c: nat, e :| c <= i && Creates(states, moves, c, Act(a.key, e, a.id));
    var d: nat, f :| d <= j && Creates(states, moves, d, Act(b.key, f, b.id))
      && (Finds(states, moves, j, b) ==> d < j);
    if c != d {
      TwoCreations(states, moves, c, Act(a.key, e, a.id), d, Act(b.key, f, b.id));
    }
    assert Finds(states, moves, j, b);
    assert Links(states, moves, j);
    forall k | 0 <= k < |moves| && !moves[k].Other? && moves[k].c == b.call
      ensures states[k + 1].store == states[k].store
    {
      if k < j {
        ChangedNothingYet(states, moves, j, b.call, k);
      } else if k > j {
        assert Links(states, moves, k);
        ReturnedIsDone(states, moves, j + 1, k, b.call);
      }
    }
  }

  // ---------- witnesses ----------

  function Last(states: seq<System>): System
    requires states != []
  {
    states[|states| - 1]
  }

  lemma {:induction false} OneMoreMove(states: seq<System>, moves: seq<Move>, m: Move) returns (longer: seq<System>)
    requires IsRun(states, moves) && Enabled(Last(states), m)
    ensures IsRun(longer, moves + [m]) && longer == states + [After(Last(states), m)]
  {
    longer := states + [After(Last(states), m)];
    forall i | 0 <= i < |moves| + 1 ensures Links(longer, moves + [m], i) {
      if i < |moves| {
        assert Links(states, moves, i);
      }
    }
  }

  /** What a run has come to: where the key leads, the calls, the uuids drawn and the jobs. */
  datatype Brief = Brief(id: JobId, calls: map<nat, Call>, drawn: set<JobId>, jobs: set<JobId>)

  ghost function BriefOf(states: seq<System>, moves: seq<Move>, key: string): Option<Brief> {
    if IsRun(states, moves) && key in Last(states).store.idempotency then
      var sys := Last(states);
      Some(Brief(sys.store.idempotency[key], sys.calls, sys.drawn, sys.store.jobs.Keys))
    else None
  }

  function Recovery(c: nat, key: string, uuid: JobId, again: JobId): seq<Move> {
    [SetNx(c, key, uuid), Get(c), GetJob(c), Overwrite(c, again)]
  }

  /** A new call finds the key leading to no job, and overwrites it. */
  lemma {:induction false} KeyRecovered(states: seq<System>, moves: seq<Move>, c: nat, key: string, uuid: JobId,
                                        again: JobId, was: Brief)
    returns (longer: seq<System>)
    requires BriefOf(states, moves, key) == Some(was) && c !in was.calls && was.id !in was.jobs
    requires uuid !in was.drawn && again !in was.drawn && uuid != again
    ensures BriefOf(longer, moves + Recovery(c, key, uuid, again), key)
            == Some(Brief(again, was.calls[c := Call(key, Holding(again))], was.drawn + {uuid, again}, was.jobs))
    ensures states <= longer
    ensures Writes(longer, moves + Recovery(c, key, uuid, again), |moves| + 3, Act(key, c, again))
  {
    longer := OneMoreMove(states, moves, SetNx(c, key, uuid));
    longer := OneMoreMove(longer, moves + [SetNx(c, key, uuid)], Get(c));
    longer := OneMoreMove(longer, moves + [SetNx(c, key, uuid)] + [Get(c)], GetJob(c));
    longer := OneMoreMove(longer, moves + [SetNx(c, key, uuid)] + [Get(c)] + [GetJob(c)], Overwrite(c, again));
    assert moves + [SetNx(c, key, uuid)] + [Get(c)] + [GetJob(c)] + [Overwrite(c, again)]
        == moves + Recovery(c, key, uuid, again);
    assert Last(longer).calls == was.calls[c := Call(key, Holding(again))];
    assert Last(longer).drawn == was.drawn + {uuid, again};
  }

  lemma {:induction false} CommitAddsJob(s: Store, id: JobId, preview: Preview, queuePosition: nat, now: real)
    ensures Commit(s, id, preview, queuePosition, now).jobs.Keys == s.jobs.Keys + {id}
  {
  }

  /** A call that holds an id commits it. */
  lemma {:induction false} HeldCommitted(states: seq<System>, moves: seq<Move>, c: nat, key: string, id: JobId,
                                         preview: Preview, now: real, was: Brief)
    returns (longer: seq<System>)
    requires BriefOf(states, moves, key) == Some(was) && c in was.calls && was.calls[c] == Call(key, Holding(id))
    ensures BriefOf(longer, moves + [CountPending(c), Execute(c, preview, now)], key)
            == Some(was.(calls := was.calls[c := Call(key, Returned(id))], jobs := was.jobs + {id}))
    ensures states <= longer
    ensures Creates(longer, moves + [CountPending(c), Execute(c, preview, now)], |moves| + 1, Act(key, c, id))
  {
    longer := OneMoreMove(states, moves, CountPending(c));
    longer := OneMoreMove(longer, moves + [CountPending(c)], Execute(c, preview, now));
    assert moves + [CountPending(c)] + [Execute(c, preview, now)]
        == moves + [CountPending(c), Execute(c, preview, now)];
    assert Last(longer).calls == was.calls[c := Call(key, Returned(id))];
    CommitAddsJob(Last(states).store, id, preview, |Last(states).store.pending| + 1, now);
  }

  /** What happened in a run has happened in a longer one. */
  lemma {:induction false} HappenedStill(states: seq<System>, moves: seq<Move>, longer: seq<System>, more: seq<Move>,
                                         i: nat, a: Act)
    requires states <= longer && moves <= more
    ensures Writes(states, moves, i, a) ==> Writes(longer, more, i, a)
    ensures Creates(states, moves, i, a) ==> Creates(longer, more, i, a)
  {
    if i < |states| && i < |moves| {
      assert longer[i] == states[i] && more[i] == moves[i];
    }
  }

  function Recommit(c: nat, key: string, uuid: JobId, again: JobId, preview: Preview, now: real): seq<Move> {
    Recovery(c, key, uuid, again) + [CountPending(c), Execute(c, preview, now)]
  }

  /** A fresh call recovers the key and commits. */
  lemma {:induction false} Recommitted(states: seq<System>, moves: seq<Move>, c: nat, key: string, uuid: JobId,
                                       again: JobId, preview: Preview, now: real, was: Brief)
    returns (longer: seq<System>)
    requires BriefOf(states, moves, key) == Some(was) && c !in was.calls && was.id !in was.jobs
    requires uuid !in was.drawn && again !in was.drawn && uuid != again
    ensures BriefOf(longer, moves + Recommit(c, key, uuid, again, preview, now), key)
            == Some(Brief(again, was.calls[c := Call(key, Returned(again))], was.drawn + {uuid, again},
                          was.jobs + {again}))
    ensures states <= longer
    ensures Writes(longer, moves + Recommit(c, key, uuid, again, preview, now), |moves| + 3, Act(key, c, again))
    ensures Creates(longer, moves + Recommit(c, key, uuid, again, preview, now), |moves| + 5, Act(key, c, again))
  {
    var held := KeyRecovered(states, moves, c, key, uuid, again, was);
    var heldMoves := moves + Recovery(c, key, uuid, again);
    var next := Brief(again, was.calls[c := Call(key, Holding(again))], was.drawn + {uuid, again}, was.jobs);
    longer := HeldCommitted(held, heldMoves, c, key, again, preview, now, next);
    assert heldMoves + [CountPending(c), Execute(c, preview, now)]
        == moves + Recommit(c, key, uuid, again, preview, now);
    HappenedStill(held, heldMoves, longer, moves + Recommit(c, key, uuid, again, preview, now), |moves| + 3,
                  Act(key, c, again));
    assert next.calls[c := Call(key, Returned(again))] == was.calls[c := Call(key, Returned(again))];
  }

  lemma {:induction false} FirstWritten(key: string, uuid: JobId) returns (states: seq<System>)
    ensures BriefOf(states, [SetNx(0, key, uuid)], key)
            == Some(Brief(uuid, map[0 := Call(key, Holding(uuid))], {uuid}, {}))
  {
    states := OneMoreMove([START], [], SetNx(0, key, uuid));
    assert [] + [SetNx(0, key, uuid)] == [SetNx(0, key, uuid)];
    assert Last(states).calls == map[0 := Call(key, Holding(uuid))] && Last(states).drawn == {uuid};
    assert Last(states).store.jobs.Keys == {};
  }

  /** Call 0 writes the key, call 1 overwrites it and crashes, and call 0 commits. */
  function OverwrittenCommit(key: string, preview: Preview, now: real): seq<Move> {
    [SetNx(0, key, "a")] + Recovery(1, key, "unused", "b") + [CountPending(0), Execute(0, preview, now)]
  }

  /** Later call 2 recovers and commits. */
  function CrashedInBetween(key: string, preview: Preview, now: real): seq<Move> {
    OverwrittenCommit(key, preview, now) + Recommit(2, key, "unused too", "c", preview, now)
  }

  lemma {:induction false} FirstCommits(key: string, preview: Preview, now: real) returns (states: seq<System>)
    ensures Creates(states, OverwrittenCommit(key, preview, now), 6, Act(key, 0, "a"))
    ensures BriefOf(states, OverwrittenCommit(key, preview, now), key)
            == Some(Brief("b", map[0 := Call(key, Returned("a")), 1 := Call(key, Holding("b"))], {"a", "unused", "b"},
                          {"a"}))
  {
    var first := FirstWritten(key, "a");
    var was := Brief("a", map[0 := Call(key, Holding("a"))], {"a"}, {});
    states := KeyRecovered(first, [SetNx(0, key, "a")], 1, key, "unused", "b", was);
    var next := Brief("b", was.calls[1 := Call(key, Holding("b"))], {"a"} + {"unused", "b"}, {});
    states :=
      HeldCommitted(states, [SetNx(0, key, "a")] + Recovery(1, key, "unused", "b"), 0, key, "a", preview, now, next);
    assert next.calls[0 := Call(key, Returned("a"))]
        == map[0 := Call(key, Returned("a")), 1 := Call(key, Holding("b"))];
    assert {"a"} + {"unused", "b"} == {"a", "unused", "b"} && {} + {"a"} == {"a"};
  }

  /** The two calls that commit do not overlap each other, and yet the key gets two jobs. */
  lemma {:induction false} OverlappingEnqueuesDuplicate(key: string, preview: Preview, now: real)
    ensures exists states: seq<System> ::
              && IsRun(states, CrashedInBetween(key, preview, now))
              && Creates(states, CrashedInBetween(key, preview, now), 6, Act(key, 0, "a"))
              && Creates(states, CrashedInBetween(key, preview, now), 12, Act(key, 2, "c"))
  {
    var first := FirstCommits(key, preview, now);
    var moves := OverwrittenCommit(key, preview, now);
    var was := BriefOf(first, moves, key).value;
    var states := Recommitted(first, moves, 2, key, "unused too", "c", preview, now, was);
    HappenedStill(first, moves, states, CrashedInBetween(key, preview, now), 6, Act(key, 0, "a"));
  }

  /** Call 0 writes the key and crashes, and call 1 looks the job up and finds none. */
  function LookupOf1(key: string): seq<Move> {
    [SetNx(0, key, "x"), SetNx(1, key, "unused"), Get(1), GetJob(1)]
  }

  /** Then call 2 recovers the key and commits. */
  function Overtaking(key: string, preview: Preview, now: real): seq<Move> {
    LookupOf1(key) + Recommit(2, key, "unused too", "b", preview, now)
  }

  /** Call 1 overwrites the key and crashes; later call 3 recovers and commits. */
  function StaleLookup(key: string, preview: Preview, now: real): seq<Move> {
    Overtaking(key, preview, now) + [Overwrite(1, "a")] + Recommit(3, key, "again unused", "c", preview, now)
  }

  lemma {:induction false} LookedUp(key: string) returns (states: seq<System>)
    ensures BriefOf(states, LookupOf1(key), key)
            == Some(Brief("x", map[0 := Call(key, Holding("x")), 1 := Call(key, Stale)], {"x", "unused"}, {}))
  {
    states := FirstWritten(key, "x");
    states := OneMoreMove(states, [SetNx(0, key, "x")], SetNx(1, key, "unused"));
    states := OneMoreMove(states, [SetNx(0, key, "x")] + [SetNx(1, key, "unused")], Get(1));
    states := OneMoreMove(states, [SetNx(0, key, "x")] + [SetNx(1, key, "unused")] + [Get(1)], GetJob(1));
    assert [SetNx(0, key, "x")] + [SetNx(1, key, "unused")] + [Get(1)] + [GetJob(1)] == LookupOf1(key);
    assert Last(states).calls == map[0 := Call(key, Holding("x")), 1 := Call(key, Stale)];
    assert Last(states).drawn == {"x", "unused"};
  }

  /** The call that has looked up overwrites the key. */
  lemma {:induction false} StaleOverwrites(states: seq<System>, moves: seq<Move>, c: nat, key: string, uuid: JobId,
                                           was: Brief)
    returns (longer: seq<System>)
    requires BriefOf(states, moves, key) == Some(was) && c in was.calls && was.calls[c] == Call(key, Stale)
    requires uuid !in was.drawn
    ensures states <= longer
    ensures BriefOf(longer, moves + [Overwrite(c, uuid)], key)
            == Some(Brief(uuid, was.calls[c := Call(key, Holding(uuid))], was.drawn + {uuid}, was.jobs))
  {
    longer := OneMoreMove(states, moves, Overwrite(c, uuid));
    assert Last(longer).calls == was.calls[c := Call(key, Holding(uuid))];
  }

  /** What has become of the system when call 2 has committed. */
  function OvertakenBrief(key: string): Brief {
    Brief("b", map[0 := Call(key, Holding("x")), 1 := Call(key, Stale), 2 := Call(key, Returned("b"))],
          {"x", "unused", "unused too", "b"}, {"b"})
  }

  lemma {:induction false} OvertakerCommits(key: string, preview: Preview, now: real) returns (states: seq<System>)
    ensures BriefOf(states, Overtaking(key, preview, now), key) == Some(OvertakenBrief(key))
    ensures Writes(states, Overtaking(key, preview, now), 7, Act(key, 2, "b"))
    ensures Creates(states, Overtaking(key, preview, now), 9, Act(key, 2, "b"))
  {
    var looked := LookedUp(key);
    var was := Brief("x", map[0 := Call(key, Holding("x")), 1 := Call(key, Stale)], {"x", "unused"}, {});
    states := Recommitted(looked, LookupOf1(key), 2, key, "unused too", "b", preview, now, was);
    assert was.calls[2 := Call(key, Returned("b"))] == OvertakenBrief(key).calls;
    assert was.drawn + {"unused too", "b"} == OvertakenBrief(key).drawn && was.jobs + {"b"} == {"b"};
  }

  /**
   * No write of the key falls between the write and the commit of a call that commits, and yet the key gets two jobs:
   * a lookup was overtaken.
   */
  lemma {:induction false} OvertakenLookupDuplicates(key: string, preview: Preview, now: real)
    ensures exists states: seq<System> ::
              && IsRun(states, StaleLookup(key, preview, now))
              && Writes(states, StaleLookup(key, preview, now), 7, Act(key, 2, "b"))
              && Creates(states, StaleLookup(key, preview, now), 9, Act(key, 2, "b"))
              && Writes(states, StaleLookup(key, preview, now), 14, Act(key, 3, "c"))
              && Creates(states, StaleLookup(key, preview, now), 16, Act(key, 3, "c"))
  {
    var first := OvertakerCommits(key, preview, now);
    var moves, was := Overtaking(key, preview, now), OvertakenBrief(key);
    var stale := StaleOverwrites(first, moves, 1, key, "a", was);
    var next := Brief("a", was.calls[1 := Call(key, Holding("a"))], was.drawn + {"a"}, was.jobs);
    var states := Recommitted(stale, moves + [Overwrite(1, "a")], 3, key, "again unused", "c", preview, now, next);
    HappenedStill(first, moves, states, StaleLookup(key, preview, now), 7, Act(key, 2, "b"));
    HappenedStill(first, moves, states, StaleLookup(key, preview, now), 9, Act(key, 2, "b"));
  }
}
