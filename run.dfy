/** A whole run: the master's main routine with the workers' loops
    interleaved in one fixed order.  The master sends every point; each
    worker runs loop iterations until its points are answered; the master
    sweeps until every result is in, broadcasts the stop signal; each worker
    finishes its loop and acknowledges; the master waits for the
    acknowledgements.  Also: with zero points, the completion test as written
    never fires, so the master's collection loop never ends. */
module Run {
  import opened Protocol
  import opened Messaging
  import opened EvalPoints
  import opened Worker
  import opened Master

  // ---------------------------------------------------------------------------
  // What a worker answers, and what the master records

  /** The replies to a sequence of point messages, in the same order. */
  function Replies(msgs: seq<Payload>, evaluator: real -> Evaluation): (r: seq<Payload>)
    requires forall k :: 0 <= k < |msgs| ==> Fits(TagPointToEvaluate, msgs[k])
    ensures |r| == |msgs|
    ensures forall k :: 0 <= k < |msgs| ==> r[k] == ReplyFor(msgs[k], evaluator)
    decreases |msgs|
  {
    if msgs == [] then []
    else Replies(msgs[..|msgs| - 1], evaluator) + [ReplyFor(msgs[|msgs| - 1], evaluator)]
  }

  /** The records the master builds from `replies`, all received from worker `w`. */
  function DecodeAll(replies: seq<Payload>, w: int): (r: seq<EvalPoint>)
    requires forall k :: 0 <= k < |replies| ==> Fits(TagEvaluatedPoint, replies[k])
    ensures |r| == |replies|
    ensures forall k :: 0 <= k < |replies| ==> r[k] == DecodeResult(replies[k], w)
    decreases |replies|
  {
    if replies == [] then [] else [DecodeResult(replies[0], w)] + DecodeAll(replies[1..], w)
  }

  /** The replies worker `w` sends for all the points it is given. */
  ghost function Answers(points: seq<real>, worldSize: int, w: int, evaluator: real -> Evaluation): (r: seq<Payload>)
    requires worldSize >= 2
    ensures forall k :: 0 <= k < |r| ==> Fits(TagEvaluatedPoint, r[k])
  {
    DispatchedFits(points, worldSize, w, |points|);
    Replies(Dispatched(points, worldSize, w, |points|), evaluator)
  }

  /** The results worker `w` is expected to deliver, in order. */
  ghost function Expected(points: seq<real>, worldSize: int, w: int, evaluator: real -> Evaluation): seq<EvalPoint>
    requires worldSize >= 2
  {
    DecodeAll(Answers(points, worldSize, w, evaluator), w)
  }

  /** Worker `w`'s `k`-th result is the evaluation of point
      `SlotIndex(k, worldSize - 1, w - 1)`, attributed to `w`, with `f`
      narrowed to an int; there is one exactly for each such index. */
  lemma ExpectedAt(points: seq<real>, worldSize: int, w: int, evaluator: real -> Evaluation, k: nat)
    requires worldSize >= 2 && 1 <= w < worldSize
    ensures k < |Expected(points, worldSize, w, evaluator)| <==> SlotIndex(k, worldSize - 1, w - 1) < |points|
    ensures k < |Expected(points, worldSize, w, evaluator)| ==>
              var x := points[SlotIndex(k, worldSize - 1, w - 1)];
              Expected(points, worldSize, w, evaluator)[k] ==
                MakeEvalPoint(x, evaluator(x).f, evaluator(x).ok, w)
  {
    DispatchedIndex(points, worldSize, w, |points|, k);
  }

  /** The number of points dispatched to the ranks `lo..hi-1` among the first `n`. */
  ghost function DispatchedCount(points: seq<real>, worldSize: int, n: nat, lo: int, hi: int): nat
    requires worldSize >= 2 && n <= |points|
    decreases hi - lo
  {
    if hi <= lo then 0
    else DispatchedCount(points, worldSize, n, lo, hi - 1) + |Dispatched(points, worldSize, hi - 1, n)|
  }

  lemma {:induction false} DispatchedCountStep(points: seq<real>, worldSize: int, n: nat, lo: int, hi: int)
    requires worldSize >= 2 && 0 < n <= |points|
    ensures DispatchedCount(points, worldSize, n, lo, hi) ==
              DispatchedCount(points, worldSize, n - 1, lo, hi) +
              (if lo <= AssignedRank(n - 1, worldSize) < hi then 1 else 0)
    decreases hi - lo
  {
    if hi > lo {
      DispatchedCountStep(points, worldSize, n, lo, hi - 1);
    }
  }

  /** Every point is dispatched to exactly one worker: the workers' shares add
      up to the number of points. */
  lemma {:induction false} DispatchedTotal(points: seq<real>, worldSize: int, n: nat)
    requires worldSize >= 2 && n <= |points|
    ensures DispatchedCount(points, worldSize, n, 1, worldSize) == n
  {
    if n > 0 {
      DispatchedTotal(points, worldSize, n - 1);
      DispatchedCountStep(points, worldSize, n, 1, worldSize);
    } else {
      DispatchedNone(points, worldSize, 1, worldSize);
    }
  }

  lemma {:induction false} DispatchedNone(points: seq<real>, worldSize: int, lo: int, hi: int)
    requires worldSize >= 2
    ensures DispatchedCount(points, worldSize, 0, lo, hi) == 0
    decreases hi - lo
  {
    if hi > lo {
      DispatchedNone(points, worldSize, lo, hi - 1);
    }
  }

  /** Pending results, when each worker's queue is as long as its share. */
  lemma {:induction false} PendingIsCount(q: Queues, points: seq<real>, worldSize: int, lo: int, hi: int)
    requires worldSize >= 2
    requires forall r :: lo <= r < hi ==>
               |Get(q, ResultChannel(r))| == |Dispatched(points, worldSize, r, |points|)|
    ensures Pending(q, MasterRank, TagEvaluatedPoint, lo, hi) == DispatchedCount(points, worldSize, |points|, lo, hi)
    decreases hi - lo
  {
    if hi > lo {
      PendingIsCount(q, points, worldSize, lo, hi - 1);
    }
  }

  /** Pending messages, when each of the channels holds exactly one. */
  lemma {:induction false} PendingOneEach(q: Queues, dest: int, tag: int, lo: int, hi: int)
    requires lo <= hi
    requires forall r :: lo <= r < hi ==> |Get(q, Channel(r, dest, tag))| == 1
    ensures Pending(q, dest, tag, lo, hi) == hi - lo
    decreases hi - lo
  {
    if hi > lo {
      PendingOneEach(q, dest, tag, lo, hi - 1);
    }
  }

  // ---------------------------------------------------------------------------
  // The phases of the run

  /** The worker processes 1..worldSize-1, all on one mailbox. */
  ghost predicate Pool(workers: seq<EvaluatorControl>, mb: Mailbox, worldSize: int, evaluator: real -> Evaluation)
  {
    |workers| == worldSize - 1 &&
    forall i :: 0 <= i < |workers| ==>
      workers[i].mailbox == mb && workers[i].worldRank == i + 1 && workers[i].evaluator == evaluator
  }

  method StartWorkers(mb: Mailbox, worldSize: int, evaluator: real -> Evaluation)
    returns (workers: seq<EvaluatorControl>)
    requires worldSize >= 2
    ensures Pool(workers, mb, worldSize, evaluator)
  {
    workers := [];
    for rank := 1 to worldSize
      invariant |workers| == rank - 1
      invariant forall i :: 0 <= i < |workers| ==>
                  workers[i].mailbox == mb && workers[i].worldRank == i + 1 && workers[i].evaluator == evaluator
    {
      var evc := new EvaluatorControl(evaluator, mb, rank);
      workers := workers + [evc];
    }
  }

  /** `q` agrees with `q0` on every channel other than `a` and `b`. */
  ghost predicate SameElsewhere(q: Queues, q0: Queues, a: Channel, b: Channel)
  {
    forall c :: c == a || c == b || Get(q, c) == Get(q0, c)
  }

  /** Answering the head point moves it from the point queue `a` to a
      reply at the end of the result queue `b`. */
  lemma AnswerOne(q: Queues, q0: Queues, a: Channel, b: Channel, pts: seq<Payload>, j: nat,
                  evaluator: real -> Evaluation)
    requires a != b && j < |pts|
    requires forall k :: 0 <= k < |pts| ==> Fits(TagPointToEvaluate, pts[k])
    requires Get(q, a) == pts[j..] && Get(q, b) == Replies(pts[..j], evaluator)
    requires SameElsewhere(q, q0, a, b)
    ensures Get(Push(Pop(q, a), b, ReplyFor(pts[j], evaluator)), a) == pts[j + 1..]
    ensures Get(Push(Pop(q, a), b, ReplyFor(pts[j], evaluator)), b) == Replies(pts[..j + 1], evaluator)
    ensures SameElsewhere(Push(Pop(q, a), b, ReplyFor(pts[j], evaluator)), q0, a, b)
  {
    var q' := Push(Pop(q, a), b, ReplyFor(pts[j], evaluator));
    assert pts[..j + 1] == pts[..j] + [pts[j]];
    assert pts[..j + 1][..j] == pts[..j];
    forall c | c != a && c != b
      ensures Get(q', c) == Get(q0, c)
    {
      assert Get(q', c) == Get(Pop(q, a), c) == Get(q, c);
    }
  }

  /** Loop iterations of one worker until its pending points are all
      answered; the stop signal is not there yet, so the loop goes on. */
  method AnswerPoints(evc: EvaluatorControl, ghost pts: seq<Payload>)
    requires evc.mailbox.Valid()
    requires Get(evc.mailbox.queues, evc.PointIn()) == pts
    requires Get(evc.mailbox.queues, evc.ResultOut()) == []
    requires Get(evc.mailbox.queues, evc.StopIn()) == []
    modifies evc.mailbox
    ensures evc.mailbox.Valid()
    ensures forall k :: 0 <= k < |pts| ==> Fits(TagPointToEvaluate, pts[k])
    ensures Get(evc.mailbox.queues, evc.PointIn()) == []
    ensures Get(evc.mailbox.queues, evc.ResultOut()) == Replies(pts, evc.evaluator)
    ensures forall c :: c != evc.PointIn() && c != evc.ResultOut() ==>
              Get(evc.mailbox.queues, c) == old(Get(evc.mailbox.queues, c))
  {
    var mb := evc.mailbox;
    ghost var q0 := mb.queues;
    ghost var a, b := evc.PointIn(), evc.ResultOut();
    assert forall k :: 0 <= k < |pts| ==> Fits(a.tag, Get(q0, a)[k]);
    assert pts[..0] == [];
    ghost var j := 0;
    while Get(mb.queues, evc.PointIn()) != []
      invariant mb.Valid()
      invariant 0 <= j <= |pts|
      invariant Get(mb.queues, a) == pts[j..]
      invariant Get(mb.queues, b) == Replies(pts[..j], evc.evaluator)
      invariant SameElsewhere(mb.queues, q0, a, b)
      decreases |Get(mb.queues, a)|
    {
      ghost var q := mb.queues;
      assert Get(q, evc.StopIn()) == Get(q0, evc.StopIn());
      var evaluationDone := evc.PollOnce();
      assert mb.queues == Push(Pop(q, a), b, ReplyFor(pts[j], evc.evaluator));
      AnswerOne(q, q0, a, b, pts, j, evc.evaluator);
      j := j + 1;
    }
    assert pts[..j] == pts;
  }

  /** Mailbox contents after the points are sent. */
  ghost predicate Distributed(q: Queues, points: seq<real>, worldSize: int)
    requires worldSize >= 2
  {
    forall c :: Get(q, c) == if IsPointChannel(c, worldSize) then Dispatched(points, worldSize, c.dest, |points|) else []
  }

  /** Mailbox contents once every point is answered and no result collected. */
  ghost predicate Answered(q: Queues, points: seq<real>, worldSize: int, evaluator: real -> Evaluation)
    requires worldSize >= 2
  {
    forall c :: Get(q, c) ==
      if IsResultChannelIn(c, 1, worldSize) then Answers(points, worldSize, c.source, evaluator)
      else []
  }

  /** What channel `c` holds once workers `1..w-1` have answered their points. */
  ghost function WorkView(c: Channel, points: seq<real>, worldSize: int, evaluator: real -> Evaluation, w: int)
    : seq<Payload>
    requires worldSize >= 2
  {
    if IsPointChannel(c, worldSize) && c.dest >= w then Dispatched(points, worldSize, c.dest, |points|)
    else if IsResultChannelIn(c, 1, w) then Answers(points, worldSize, c.source, evaluator)
    else []
  }

  /** Worker `w` answering all its points takes the mailbox from the view
      for `w` to the view for `w + 1`. */
  lemma WorkStep(q: Queues, q': Queues, points: seq<real>, worldSize: int, evaluator: real -> Evaluation, w: int)
    requires worldSize >= 2 && 1 <= w < worldSize
    requires forall c :: Get(q, c) == WorkView(c, points, worldSize, evaluator, w)
    requires Get(q', Channel(MasterRank, w, TagPointToEvaluate)) == []
    requires Get(q', ResultChannel(w)) == Answers(points, worldSize, w, evaluator)
    requires forall c :: c != Channel(MasterRank, w, TagPointToEvaluate) && c != ResultChannel(w) ==>
               Get(q', c) == Get(q, c)
    ensures forall c :: Get(q', c) == WorkView(c, points, worldSize, evaluator, w + 1)
  {
    forall c
      ensures Get(q', c) == WorkView(c, points, worldSize, evaluator, w + 1)
    {
      if c != Channel(MasterRank, w, TagPointToEvaluate) && c != ResultChannel(w) {
        assert Get(q', c) == Get(q, c) == WorkView(c, points, worldSize, evaluator, w);
      }
    }
  }

  /** Before worker `w` runs, its point queue holds its share and its other
      two channels are empty. */
  lemma WorkViewAt(q: Queues, points: seq<real>, worldSize: int, evaluator: real -> Evaluation, w: int)
    requires worldSize >= 2 && 1 <= w < worldSize
    requires forall c :: Get(q, c) == WorkView(c, points, worldSize, evaluator, w)
    ensures Get(q, Channel(MasterRank, w, TagPointToEvaluate)) == Dispatched(points, worldSize, w, |points|)
    ensures Get(q, Channel(w, MasterRank, TagEvaluatedPoint)) == []
    ensures Get(q, Channel(MasterRank, w, TagEvaluationDone)) == []
  {
    assert Get(q, Channel(MasterRank, w, TagPointToEvaluate)) ==
           WorkView(Channel(MasterRank, w, TagPointToEvaluate), points, worldSize, evaluator, w);
    assert Get(q, Channel(w, MasterRank, TagEvaluatedPoint)) ==
           WorkView(Channel(w, MasterRank, TagEvaluatedPoint), points, worldSize, evaluator, w);
    assert Get(q, Channel(MasterRank, w, TagEvaluationDone)) ==
           WorkView(Channel(MasterRank, w, TagEvaluationDone), points, worldSize, evaluator, w);
  }

  /** Every worker answers all the points sent to it. */
  method WorkPhase(workers: seq<EvaluatorControl>, mb: Mailbox, points: seq<real>, worldSize: int,
                   evaluator: real -> Evaluation)
    requires worldSize >= 2 && Pool(workers, mb, worldSize, evaluator)
    requires mb.Valid() && Distributed(mb.queues, points, worldSize)
    modifies mb
    ensures mb.Valid() && Answered(mb.queues, points, worldSize, evaluator)
  {
    DistributedView(mb.queues, points, worldSize, evaluator);
    for w := 1 to worldSize
      invariant mb.Valid()
      invariant forall c :: Get(mb.queues, c) == WorkView(c, points, worldSize, evaluator, w)
    {
      var evc := workers[w - 1];
      assert evc.mailbox == mb && evc.worldRank == w;
      ghost var q := mb.queues;
      WorkViewAt(q, points, worldSize, evaluator, w);
      AnswerPoints(evc, Dispatched(points, worldSize, w, |points|));
      WorkStep(q, mb.queues, points, worldSize, evaluator, w);
    }
    AnsweredView(mb.queues, points, worldSize, evaluator);
  }

  /** The view before any worker runs is the dispatched mailbox. */
  lemma DistributedView(q: Queues, points: seq<real>, worldSize: int, evaluator: real -> Evaluation)
    requires worldSize >= 2 && Distributed(q, points, worldSize)
    ensures forall c :: Get(q, c) == WorkView(c, points, worldSize, evaluator, 1)
  {
    forall c
      ensures Get(q, c) == WorkView(c, points, worldSize, evaluator, 1)
    {
      assert Get(q, c) == if IsPointChannel(c, worldSize) then Dispatched(points, worldSize, c.dest, |points|) else [];
    }
  }

  /** The view after every worker has run is the answered mailbox. */
  lemma AnsweredView(q: Queues, points: seq<real>, worldSize: int, evaluator: real -> Evaluation)
    requires worldSize >= 2
    requires forall c :: Get(q, c) == WorkView(c, points, worldSize, evaluator, worldSize)
    ensures Answered(q, points, worldSize, evaluator)
  {
    forall c
      ensures Get(q, c) ==
                if IsResultChannelIn(c, 1, worldSize) then Answers(points, worldSize, c.source, evaluator) else []
    {
      assert Get(q, c) == WorkView(c, points, worldSize, evaluator, worldSize);
    }
  }

  /** What holds of the mailbox `q` and the collection `evals` while the
      master collects: only result queues are non-empty; for each worker,
      the results recorded from it followed by those still queued are its
      expected results; recorded and pending results together number the
      points; every record names a worker rank. */
  ghost predicate Collecting(q: Queues, evals: seq<EvalPoint>, points: seq<real>, worldSize: int,
                             evaluator: real -> Evaluation)
    requires worldSize >= 2
  {
    WellShaped(q) &&
    (forall c :: !IsResultChannelIn(c, 1, worldSize) ==> Get(q, c) == []) &&
    (forall w :: 1 <= w < worldSize ==>
       OfWorker(evals, w) + DecodeAll(Get(q, ResultChannel(w)), w) == Expected(points, worldSize, w, evaluator)) &&
    |evals| + Pending(q, MasterRank, TagEvaluatedPoint, 1, worldSize) == |points| &&
    (forall k :: 0 <= k < |evals| ==> 1 <= evals[k].workerRank < worldSize)
  }

  /** Collection starts in that state once every point is answered. */
  lemma CollectingStart(q: Queues, points: seq<real>, worldSize: int, evaluator: real -> Evaluation)
    requires worldSize >= 2 && WellShaped(q) && Answered(q, points, worldSize, evaluator)
    ensures Collecting(q, [], points, worldSize, evaluator)
  {
    forall r | 1 <= r < worldSize
      ensures |Get(q, ResultChannel(r))| == |Dispatched(points, worldSize, r, |points|)|
    {
      assert IsResultChannelIn(ResultChannel(r), 1, worldSize);
    }
    PendingIsCount(q, points, worldSize, 1, worldSize);
    DispatchedTotal(points, worldSize, |points|);
    forall w | 1 <= w < worldSize
      ensures OfWorker([], w) + DecodeAll(Get(q, ResultChannel(w)), w) == Expected(points, worldSize, w, evaluator)
    {
      assert IsResultChannelIn(ResultChannel(w), 1, worldSize);
      assert [] + DecodeAll(Get(q, ResultChannel(w)), w) == DecodeAll(Get(q, ResultChannel(w)), w);
    }
  }

  /** One sweep keeps that state and lowers the pending count by the number
      of records it adds, which is zero only when nothing was pending. */
  lemma CollectingSweep(q: Queues, evals: seq<EvalPoint>, points: seq<real>, worldSize: int,
                        evaluator: real -> Evaluation)
    requires worldSize >= 2 && Collecting(q, evals, points, worldSize, evaluator)
    ensures Collecting(Drained(q, 1, worldSize), evals + Harvest(q, 1, worldSize), points, worldSize, evaluator)
    ensures Pending(Drained(q, 1, worldSize), MasterRank, TagEvaluatedPoint, 1, worldSize) ==
              Pending(q, MasterRank, TagEvaluatedPoint, 1, worldSize) - |Harvest(q, 1, worldSize)|
    ensures Harvest(q, 1, worldSize) == [] <==> Pending(q, MasterRank, TagEvaluatedPoint, 1, worldSize) == 0
  {
    var q', h := Drained(q, 1, worldSize), Harvest(q, 1, worldSize);
    HarvestPending(q, 1, worldSize);
    SweepKeepsOthers(q, worldSize);
    SweepKeepsWorkers(q, evals, points, worldSize, evaluator);
    SweepKeepsRanks(q, evals, worldSize);
    assert |evals + h| + Pending(q', MasterRank, TagEvaluatedPoint, 1, worldSize) == |points|;
    CollectingIntro(q', evals + h, points, worldSize, evaluator);
  }

  /** The collection state, from its parts. */
  lemma CollectingIntro(q: Queues, evals: seq<EvalPoint>, points: seq<real>, worldSize: int,
                        evaluator: real -> Evaluation)
    requires worldSize >= 2 && WellShaped(q)
    requires forall c :: !IsResultChannelIn(c, 1, worldSize) ==> Get(q, c) == []
    requires forall w :: 1 <= w < worldSize ==>
               OfWorker(evals, w) + DecodeAll(Get(q, ResultChannel(w)), w) == Expected(points, worldSize, w, evaluator)
    requires |evals| + Pending(q, MasterRank, TagEvaluatedPoint, 1, worldSize) == |points|
    requires forall k :: 0 <= k < |evals| ==> 1 <= evals[k].workerRank < worldSize
    ensures Collecting(q, evals, points, worldSize, evaluator)
  {
  }

  /** A sweep leaves empty every queue other than the workers' result queues. */
  lemma SweepKeepsOthers(q: Queues, worldSize: int)
    requires WellShaped(q)
    requires forall c :: !IsResultChannelIn(c, 1, worldSize) ==> Get(q, c) == []
    ensures forall c :: !IsResultChannelIn(c, 1, worldSize) ==> Get(Drained(q, 1, worldSize), c) == []
  {
    forall c | !IsResultChannelIn(c, 1, worldSize)
      ensures Get(Drained(q, 1, worldSize), c) == []
    {
      DrainedAt(q, 1, worldSize, c);
    }
  }

  /** For every worker, a sweep keeps its recorded results followed by its
      queued ones equal to its expected results. */
  lemma SweepKeepsWorkers(q: Queues, evals: seq<EvalPoint>, points: seq<real>, worldSize: int,
                          evaluator: real -> Evaluation)
    requires worldSize >= 2 && WellShaped(q)
    requires forall w :: 1 <= w < worldSize ==>
               OfWorker(evals, w) + DecodeAll(Get(q, ResultChannel(w)), w) == Expected(points, worldSize, w, evaluator)
    ensures forall w :: 1 <= w < worldSize ==>
              OfWorker(evals + Harvest(q, 1, worldSize), w) +
              DecodeAll(Get(Drained(q, 1, worldSize), ResultChannel(w)), w) ==
              Expected(points, worldSize, w, evaluator)
  {
    forall w | 1 <= w < worldSize
      ensures OfWorker(evals + Harvest(q, 1, worldSize), w) +
              DecodeAll(Get(Drained(q, 1, worldSize), ResultChannel(w)), w) ==
              Expected(points, worldSize, w, evaluator)
    {
      SweepKeepsWorker(q, evals, worldSize, w);
    }
  }

  /** Records added by a sweep name worker ranks, like those already there. */
  lemma SweepKeepsRanks(q: Queues, evals: seq<EvalPoint>, worldSize: int)
    requires WellShaped(q)
    requires forall k :: 0 <= k < |evals| ==> 1 <= evals[k].workerRank < worldSize
    ensures forall k :: 0 <= k < |evals + Harvest(q, 1, worldSize)| ==>
              1 <= (evals + Harvest(q, 1, worldSize))[k].workerRank < worldSize
  {
    var h := Harvest(q, 1, worldSize);
    HarvestOrdered(q, 1, worldSize);
    forall k | 0 <= k < |evals + h|
      ensures 1 <= (evals + h)[k].workerRank < worldSize
    {
      if k >= |evals| {
        assert (evals + h)[k] == h[k - |evals|];
      }
    }
  }

  /** Collection is over when nothing is pending: the mailbox is empty and
      each worker's recorded results are exactly its expected ones. */
  lemma CollectingDone(q: Queues, evals: seq<EvalPoint>, points: seq<real>, worldSize: int,
                       evaluator: real -> Evaluation)
    requires worldSize >= 2 && Collecting(q, evals, points, worldSize, evaluator)
    requires |evals| == |points|
    ensures forall c :: Get(q, c) == []
    ensures forall w :: 1 <= w < worldSize ==> OfWorker(evals, w) == Expected(points, worldSize, w, evaluator)
  {
    PendingZero(q, MasterRank, TagEvaluatedPoint, 1, worldSize);
    forall w | 1 <= w < worldSize
      ensures OfWorker(evals, w) == Expected(points, worldSize, w, evaluator)
    {
      assert Get(q, Channel(w, MasterRank, TagEvaluatedPoint)) == [];
      assert DecodeAll(Get(q, ResultChannel(w)), w) == [];
      assert OfWorker(evals, w) + [] == OfWorker(evals, w);
    }
    forall c | IsResultChannelIn(c, 1, worldSize)
      ensures Get(q, c) == []
    {
      assert c == Channel(c.source, MasterRank, TagEvaluatedPoint);
    }
  }

  /** The master sweeps, with the intended completion test, until every
      result is in; this also ends for zero points.  Each worker's results arrive in the order of its points. */
  method CollectPhase(mb: Mailbox, points: seq<real>, worldSize: int, evaluator: real -> Evaluation)
    returns (evalpointVector: seq<EvalPoint>)
    requires worldSize >= 2
    requires mb.Valid() && Answered(mb.queues, points, worldSize, evaluator)
    modifies mb
    ensures mb.Valid() && forall c :: Get(mb.queues, c) == []
    ensures |evalpointVector| == |points|
    ensures forall k :: 0 <= k < |evalpointVector| ==> 1 <= evalpointVector[k].workerRank < worldSize
    ensures forall w :: 1 <= w < worldSize ==>
              OfWorker(evalpointVector, w) == Expected(points, worldSize, w, evaluator)
  {
    CollectingStart(mb.queues, points, worldSize, evaluator);
    evalpointVector := [];
    var allPointsReceived := false;
    while !allPointsReceived
      invariant mb.Valid() && Collecting(mb.queues, evalpointVector, points, worldSize, evaluator)
      invariant allPointsReceived ==> |evalpointVector| == |points|
      decreases Pending(mb.queues, MasterRank, TagEvaluatedPoint, 1, worldSize), if allPointsReceived then 0 else 1
    {
      CollectingSweep(mb.queues, evalpointVector, points, worldSize, evaluator);
      allPointsReceived, evalpointVector := ReceiveEvaluatedPointsFixed(mb, worldSize, |points|, evalpointVector);
    }
    CollectingDone(mb.queues, evalpointVector, points, worldSize, evaluator);
  }

  /** Inside the collection loop, with at least one result still missing,
      the completion test as written and the intended one agree: the size
      can only reach `|points|`, never pass it, since recorded and pending
      results together number the points. */
  lemma SweepFlagsAgree(q: Queues, evals: seq<EvalPoint>, points: seq<real>, worldSize: int,
                        evaluator: real -> Evaluation)
    requires worldSize >= 2 && Collecting(q, evals, points, worldSize, evaluator)
    requires |evals| < |points|
    ensures (|evals| < |points| <= |evals + Harvest(q, 1, worldSize)|) <==>
            |evals + Harvest(q, 1, worldSize)| == |points|
  {
    CollectingSweep(q, evals, points, worldSize, evaluator);
  }

  /** The master's collection loop as written, for at least one point: it
      ends, with one record per point, every worker's records its expected
      results in order, and no message left. */
  method CollectPhaseAsWritten(mb: Mailbox, points: seq<real>, worldSize: int, evaluator: real -> Evaluation)
    returns (evalpointVector: seq<EvalPoint>)
    requires worldSize >= 2 && |points| > 0
    requires mb.Valid() && Answered(mb.queues, points, worldSize, evaluator)
    modifies mb
    ensures mb.Valid() && forall c :: Get(mb.queues, c) == []
    ensures |evalpointVector| == |points|
    ensures forall k :: 0 <= k < |evalpointVector| ==> 1 <= evalpointVector[k].workerRank < worldSize
    ensures forall w :: 1 <= w < worldSize ==>
              OfWorker(evalpointVector, w) == Expected(points, worldSize, w, evaluator)
  {
    CollectingStart(mb.queues, points, worldSize, evaluator);
    evalpointVector := [];
    var allPointsReceived := false;
    while !allPointsReceived
      invariant mb.Valid() && Collecting(mb.queues, evalpointVector, points, worldSize, evaluator)
      invariant allPointsReceived <==> |evalpointVector| == |points|
      decreases Pending(mb.queues, MasterRank, TagEvaluatedPoint, 1, worldSize), if allPointsReceived then 0 else 1
    {
      CollectingSweep(mb.queues, evalpointVector, points, worldSize, evaluator);
      SweepFlagsAgree(mb.queues, evalpointVector, points, worldSize, evaluator);
      allPointsReceived, evalpointVector := ReceiveEvaluatedPoints(mb, worldSize, |points|, evalpointVector);
    }
    CollectingDone(mb.queues, evalpointVector, points, worldSize, evaluator);
  }

  /** The collection the run uses: the loop as written when there is at
      least one point, and the intended one when there are none. */
  method CollectResults(mb: Mailbox, points: seq<real>, worldSize: int, evaluator: real -> Evaluation)
    returns (evalpointVector: seq<EvalPoint>)
    requires worldSize >= 2
    requires mb.Valid() && Answered(mb.queues, points, worldSize, evaluator)
    modifies mb
    ensures mb.Valid() && forall c :: Get(mb.queues, c) == []
    ensures |evalpointVector| == |points|
    ensures forall k :: 0 <= k < |evalpointVector| ==> 1 <= evalpointVector[k].workerRank < worldSize
    ensures forall w :: 1 <= w < worldSize ==>
              OfWorker(evalpointVector, w) == Expected(points, worldSize, w, evaluator)
  {
    if |points| > 0 {
      evalpointVector := CollectPhaseAsWritten(mb, points, worldSize, evaluator);
    } else {
      evalpointVector := CollectPhase(mb, points, worldSize, evaluator);
    }
  }

  /** Outside that loop the two tests can differ by overshooting: with
      three processes, one point expected and a result pending from each
      worker, one sweep records two results; the test as written reports
      completion, the intended one does not. */
  method OvershootSweep() returns (asWritten: bool, intended: bool, recorded: nat)
    ensures asWritten && !intended && recorded == 2
  {
    var mb := TwoResultsPending();
    HarvestBoth(mb.queues);
    var evals;
    asWritten, evals := ReceiveEvaluatedPoints(mb, 3, 1, []);
    var mb' := TwoResultsPending();
    HarvestBoth(mb'.queues);
    var evals';
    intended, evals' := ReceiveEvaluatedPointsFixed(mb', 3, 1, []);
    recorded := |evals|;
  }

  /** A fresh mailbox holding one result from each of workers 1 and 2. */
  method TwoResultsPending() returns (mb: Mailbox)
    ensures fresh(mb) && mb.Valid()
    ensures Get(mb.queues, ResultChannel(1)) != [] && Get(mb.queues, ResultChannel(2)) != []
  {
    var p := ReplyPayload(1.0, 1.0, 1.0);
    mb := new Mailbox();
    mb.Send(1, MasterRank, TagEvaluatedPoint, p);
    mb.Send(2, MasterRank, TagEvaluatedPoint, p);
  }

  /** With a result pending from each of workers 1 and 2, a sweep over
      three processes records two. */
  lemma HarvestBoth(q: Queues)
    requires WellShaped(q) && Get(q, ResultChannel(1)) != [] && Get(q, ResultChannel(2)) != []
    ensures |Harvest(q, 1, 3)| == 2
  {
    SweepOne(q, 1);
    SweepOne(q, 2);
  }

  /** A sweep moves worker `w`'s head result, if any, from its queue to the
      end of the collection; the collection's share of `w` followed by what
      is still queued stays the same. */
  lemma SweepKeepsWorker(q: Queues, before: seq<EvalPoint>, worldSize: int, w: int)
    requires WellShaped(q) && 1 <= w < worldSize
    ensures OfWorker(before + Harvest(q, 1, worldSize), w) +
              DecodeAll(Get(Drained(q, 1, worldSize), ResultChannel(w)), w) ==
            OfWorker(before, w) + DecodeAll(Get(q, ResultChannel(w)), w)
  {
    var s := Get(q, ResultChannel(w));
    var h := Harvest(q, 1, worldSize);
    OfWorkerAppend(before, h, w);
    OfWorkerHarvest(q, 1, worldSize, w);
    DrainedAt(q, 1, worldSize, ResultChannel(w));
    assert forall k :: 0 <= k < |s| ==> Fits(ResultChannel(w).tag, s[k]);
    DecodeAllHead(s, w);
    SeqAssoc(OfWorker(before, w), OfWorker(h, w), DecodeAll(Get(Drained(q, 1, worldSize), ResultChannel(w)), w));
  }

  /** Stepping stones for `SweepKeepsWorker`: stated apart, they keep that
      proof from unfolding `DecodeAll` and regrouping concatenations on its own. */
  lemma DecodeAllHead(s: seq<Payload>, w: int)
    requires forall k :: 0 <= k < |s| ==> Fits(TagEvaluatedPoint, s[k])
    ensures DecodeAll(s, w) ==
              (if s != [] then [DecodeResult(s[0], w)] else []) + DecodeAll(if s != [] then s[1..] else s, w)
  {
  }

  lemma SeqAssoc(a: seq<EvalPoint>, b: seq<EvalPoint>, c: seq<EvalPoint>)
    ensures (a + b) + c == a + (b + c)
  {
  }

  /** Each worker finishes its loop on the stop signal and acknowledges. */
  method ShutdownPhase(workers: seq<EvaluatorControl>, mb: Mailbox, worldSize: int, evaluator: real -> Evaluation)
    requires worldSize >= 2 && Pool(workers, mb, worldSize, evaluator)
    requires mb.Valid()
    requires forall c :: Get(mb.queues, c) == if IsStopChannel(c, worldSize) then [Signal()] else []
    modifies mb
    ensures mb.Valid()
    ensures forall c :: Get(mb.queues, c) == if IsDoneChannel(c, worldSize) then [Signal()] else []
  {
    for w := 1 to worldSize
      invariant mb.Valid()
      invariant forall c :: Get(mb.queues, c) ==
                  if IsStopChannel(c, worldSize) && c.dest >= w then [Signal()]
                  else if IsDoneChannel(c, w) then [Signal()]
                  else []
    {
      var evc := workers[w - 1];
      evc.Run();
    }
  }

  // ---------------------------------------------------------------------------
  // The run

  /** Master main with the workers interleaved: every point is evaluated
      once, by the worker it was assigned to; each worker's results are
      recorded in the order of its points; shutdown completes and leaves no
      message in flight.  With at least one point the collection loop is the
      one as written; with none, where that loop never ends, it uses the
      intended completion test and shuts down at once. */
  method RunProtocol(points: seq<real>, worldSize: int, evaluator: real -> Evaluation)
    returns (evalpointVector: seq<EvalPoint>, mb: Mailbox)
    requires worldSize >= 2
    ensures |evalpointVector| == |points|
    ensures forall k :: 0 <= k < |evalpointVector| ==> 1 <= evalpointVector[k].workerRank < worldSize
    ensures forall w :: 1 <= w < worldSize ==>
              OfWorker(evalpointVector, w) == Expected(points, worldSize, w, evaluator)
    ensures forall c :: Get(mb.queues, c) == []
  {
    mb := new Mailbox();
    var workers := StartWorkers(mb, worldSize, evaluator);

    ghost var q := mb.queues;
    SendPointsToWorkers(mb, points, worldSize);
    AfterDispatch(q, mb.queues, points, worldSize);
    WorkPhase(workers, mb, points, worldSize, evaluator);
    evalpointVector := CollectResults(mb, points, worldSize, evaluator);

    q := mb.queues;
    SendEvaluationDoneToWorkers(mb, worldSize);
    AfterBroadcast(q, mb.queues, worldSize);
    ShutdownPhase(workers, mb, worldSize, evaluator);

    q := mb.queues;
    PendingOneEach(q, MasterRank, TagWorkerDone, 1, worldSize);
    WaitAllWorkersDone(mb, worldSize);
    PendingZero(mb.queues, MasterRank, TagWorkerDone, 1, worldSize);
    AfterAcks(q, mb.queues, worldSize);
  }

  /** Dispatch into an empty mailbox leaves exactly the dispatched points. */
  lemma AfterDispatch(q: Queues, q': Queues, points: seq<real>, worldSize: int)
    requires worldSize >= 2 && forall c :: Get(q, c) == []
    requires forall c :: Get(q', c) ==
               Get(q, c) + (if IsPointChannel(c, worldSize) then Dispatched(points, worldSize, c.dest, |points|) else [])
    ensures Distributed(q', points, worldSize)
  {
    forall c
      ensures Get(q', c) == if IsPointChannel(c, worldSize) then Dispatched(points, worldSize, c.dest, |points|) else []
    {
      assert Get(q, c) == [];
    }
  }

  /** The stop broadcast into an empty mailbox leaves one signal per worker. */
  lemma AfterBroadcast(q: Queues, q': Queues, worldSize: int)
    requires forall c :: Get(q, c) == []
    requires forall c :: Get(q', c) == Get(q, c) + (if IsStopChannel(c, worldSize) then [Signal()] else [])
    ensures forall c :: Get(q', c) == if IsStopChannel(c, worldSize) then [Signal()] else []
  {
    forall c
      ensures Get(q', c) == if IsStopChannel(c, worldSize) then [Signal()] else []
    {
      assert Get(q, c) == [];
    }
  }

  /** Consuming every acknowledgement when only acknowledgements are queued
      empties the mailbox. */
  lemma AfterAcks(q: Queues, q': Queues, worldSize: int)
    requires forall c :: !IsDoneChannel(c, worldSize) ==> Get(q, c) == []
    requires forall c :: !IsDoneChannel(c, worldSize) ==> Get(q', c) == Get(q, c)
    requires forall r :: 1 <= r < worldSize ==> Get(q', Channel(r, MasterRank, TagWorkerDone)) == []
    ensures forall c :: Get(q', c) == []
  {
    forall c
      ensures Get(q', c) == []
    {
      if IsDoneChannel(c, worldSize) {
        assert c == Channel(c.source, MasterRank, TagWorkerDone);
      }
    }
  }

  /** With zero points, the master's collection loop as written never ends:
      whatever number of rounds the workers and the master are given, the
      completion flag is still false and nothing has been collected. */
  method ZeroPointsSpin(worldSize: int, rounds: nat, evaluator: real -> Evaluation)
    returns (allPointsReceived: bool, evalpointVector: seq<EvalPoint>)
    requires worldSize >= 2
    ensures !allPointsReceived && evalpointVector == []
  {
    var mb := new Mailbox();
    var workers := StartWorkers(mb, worldSize, evaluator);
    SendPointsToWorkers(mb, [], worldSize);
    allPointsReceived := false;
    evalpointVector := [];
    var round := 0;
    while round < rounds
      invariant mb.Valid() && forall c :: Get(mb.queues, c) == []
      invariant !allPointsReceived && evalpointVector == []
    {
      for i := 0 to |workers|
        invariant mb.Valid() && forall c :: Get(mb.queues, c) == []
      {
        var evaluationDone := workers[i].PollOnce();
      }
      ghost var q := mb.queues;
      PendingZero(q, MasterRank, TagEvaluatedPoint, 1, worldSize);
      HarvestPending(q, 1, worldSize);
      allPointsReceived, evalpointVector := ReceiveEvaluatedPoints(mb, worldSize, 0, evalpointVector);
      forall c ensures Get(mb.queues, c) == [] {
        DrainedAt(q, 1, worldSize, c);
      }
      round := round + 1;
    }
  }

  /** The acknowledgement wait counts messages, not ranks: with three
      processes, two acknowledgements from worker 1 and none from worker 2
      end the wait, and both of worker 1's are consumed. */
  method AcksCountedNotRanks() returns (mb: Mailbox)
    ensures forall c :: Get(mb.queues, c) == []
  {
    mb := new Mailbox();
    mb.Send(1, MasterRank, TagWorkerDone, Signal());
    mb.Send(1, MasterRank, TagWorkerDone, Signal());
    ghost var q := mb.queues;
    assert Get(q, Channel(1, MasterRank, TagWorkerDone)) == [Signal(), Signal()];
    assert Pending(q, MasterRank, TagWorkerDone, 1, 3) == 2;
    WaitAllWorkersDone(mb, 3);
    PendingZero(mb.queues, MasterRank, TagWorkerDone, 1, 3);
    AfterAcks(q, mb.queues, 3);
  }
}
