/** The master side: round-robin dispatch of the points, sweeps over the
    workers collecting results, the stop broadcast and the wait for every
    worker's acknowledgement. */
module Master {
  import opened Protocol
  import opened Messaging
  import opened EvalPoints

  // ---------------------------------------------------------------------------
  // Arithmetic facts used by the dispatch proofs

  lemma MulLeIff(a: int, b: int, n: int)
    requires n > 0
    ensures a <= b <==> a * n <= b * n
  {
    if a <= b {
      assert b * n - a * n == (b - a) * n;
    } else {
      assert a * n - b * n == (a - b) * n;
    }
  }

  lemma {:induction false} ModOfMulAdd(k: nat, n: int, r: int)
    requires n > 0 && 0 <= r < n
    ensures (k * n + r) % n == r
  {
    var m := k * n + r;
    var d := m / n;
    assert m == d * n + m % n;
    MulLeIff(d + 1, k, n);
    MulLeIff(k + 1, d, n);
    assert (d + 1) * n == d * n + n;
    assert (k + 1) * n == k * n + n;
    assert d == k;
  }

  // ---------------------------------------------------------------------------
  // Dispatch

  /** The rank point `pointIndex` is sent to: the workers 1..worldSize-1 in turn. */
  function AssignedRank(pointIndex: nat, worldSize: int): (workerRank: int)
    requires worldSize >= 2
    ensures 1 <= workerRank < worldSize
    ensures workerRank - 1 == pointIndex % (worldSize - 1)
  {
    pointIndex % (worldSize - 1) + 1
  }

  /** A channel the master sends points on. */
  predicate IsPointChannel(c: Channel, worldSize: int)
  {
    c.source == MasterRank && c.tag == TagPointToEvaluate && 1 <= c.dest < worldSize
  }

  /** The point messages sent to worker `w` among the first `n` points, in send order. */
  function Dispatched(points: seq<real>, worldSize: int, w: int, n: nat): (msgs: seq<Payload>)
    requires worldSize >= 2 && n <= |points|
  {
    if n == 0 then []
    else
      Dispatched(points, worldSize, w, n - 1) +
      (if AssignedRank(n - 1, worldSize) == w then [PointMessage(points[n - 1])] else [])
  }

  /** Every dispatched message is a well-formed point message. */
  lemma {:induction false} DispatchedFits(points: seq<real>, worldSize: int, w: int, n: nat)
    requires worldSize >= 2 && n <= |points|
    ensures |Dispatched(points, worldSize, w, n)| <= n
    ensures forall k :: 0 <= k < |Dispatched(points, worldSize, w, n)| ==>
              Fits(TagPointToEvaluate, Dispatched(points, worldSize, w, n)[k])
  {
    if n > 0 {
      DispatchedFits(points, worldSize, w, n - 1);
    }
  }

  /** The index of the `k`-th point of slot `r` when `n` workers take turns:
      r, r + n, r + 2n, ... */
  function SlotIndex(k: nat, n: nat, r: nat): (i: nat)
    ensures i == k * n + r
  {
    if k == 0 then r else SlotIndex(k - 1, n, r) + n
  }

  lemma {:induction false} SlotIndexMono(a: nat, b: nat, n: nat, r: nat)
    requires n > 0
    ensures a < b <==> SlotIndex(a, n, r) < SlotIndex(b, n, r)
    decreases a + b
  {
    if a > 0 && b > 0 {
      SlotIndexMono(a - 1, b - 1, n, r);
    } else if a > 0 {
      SlotIndexMono(a - 1, b, n, r);
    } else if b > 0 {
      SlotIndexMono(a, b - 1, n, r);
    }
  }

  /** Every index in slot `r` is some slot position. */
  lemma SlotOf(i: nat, n: nat, r: nat) returns (d: nat)
    requires n > 0 && r < n && i % n == r
    ensures SlotIndex(d, n, r) == i
  {
    d := i / n;
  }

  /** Slot positions all lie in slot `r`. */
  lemma SlotResidue(k: nat, n: nat, r: nat)
    requires n > 0 && r < n
    ensures SlotIndex(k, n, r) % n == r
  {
    ModOfMulAdd(k, n, r);
  }

  /** Worker `w` receives exactly the points whose index is `w - 1` modulo the
      number of workers, in increasing index order: its `k`-th message is
      point `SlotIndex(k, worldSize - 1, w - 1)`, and there is a `k`-th
      message exactly when that index is one of the first `n`. */
  lemma {:induction false} DispatchedIndex(points: seq<real>, worldSize: int, w: int, n: nat, k: nat)
    requires worldSize >= 2 && 1 <= w < worldSize && n <= |points|
    ensures k < |Dispatched(points, worldSize, w, n)| <==> SlotIndex(k, worldSize - 1, w - 1) < n
    ensures k < |Dispatched(points, worldSize, w, n)| ==>
              Dispatched(points, worldSize, w, n)[k] == PointMessage(points[SlotIndex(k, worldSize - 1, w - 1)])
    decreases n
  {
    if n > 0 {
      var W, r, i := worldSize - 1, w - 1, n - 1;
      var prev := Dispatched(points, worldSize, w, i);
      DispatchedIndex(points, worldSize, w, i, k);
      if AssignedRank(i, worldSize) == w {
        var d := SlotOf(i, W, r);
        DispatchedIndex(points, worldSize, w, i, d);
        if d > 0 {
          DispatchedIndex(points, worldSize, w, i, d - 1);
        }
        SlotIndexMono(d, k, W, r);
        assert |prev| == d;
        assert Dispatched(points, worldSize, w, n) == prev + [PointMessage(points[i])];
      } else {
        SlotResidue(k, W, r);
        assert Dispatched(points, worldSize, w, n) == prev;
      }
    }
  }

  /** Send every point to its assigned worker, tagged as a point to evaluate.
      Worker `w`'s queue gains exactly `Dispatched(..., w, |pointsVector|)`;
      no other queue changes. */
  method SendPointsToWorkers(mb: Mailbox, pointsVector: seq<real>, worldSize: int)
    requires worldSize >= 2 && mb.Valid()
    modifies mb
    ensures mb.Valid()
    ensures forall c :: Get(mb.queues, c) ==
              Get(old(mb.queues), c) +
              (if IsPointChannel(c, worldSize) then Dispatched(pointsVector, worldSize, c.dest, |pointsVector|) else [])
  {
    var nbPoints := |pointsVector|;
    for pointIndex := 0 to nbPoints
      invariant mb.Valid()
      invariant forall c :: Get(mb.queues, c) ==
                  Get(old(mb.queues), c) +
                  (if IsPointChannel(c, worldSize) then Dispatched(pointsVector, worldSize, c.dest, pointIndex) else [])
    {
      var workerRank := AssignedRank(pointIndex, worldSize);
      var x := pointsVector[pointIndex];
      ghost var before := mb.queues;
      mb.Send(MasterRank, workerRank, TagPointToEvaluate, PointMessage(x));
      DispatchStep(old(mb.queues), before, mb.queues, pointsVector, worldSize, pointIndex);
    }
  }

  /** Sending point `i` to its assigned worker extends that worker's
      dispatched sequence by one message and no other queue. */
  lemma DispatchStep(q0: Queues, q: Queues, q': Queues, points: seq<real>, worldSize: int, i: nat)
    requires worldSize >= 2 && i < |points|
    requires forall c :: Get(q, c) ==
               Get(q0, c) + (if IsPointChannel(c, worldSize) then Dispatched(points, worldSize, c.dest, i) else [])
    requires q' == Push(q, Channel(MasterRank, AssignedRank(i, worldSize), TagPointToEvaluate), PointMessage(points[i]))
    ensures forall c :: Get(q', c) ==
              Get(q0, c) + (if IsPointChannel(c, worldSize) then Dispatched(points, worldSize, c.dest, i + 1) else [])
  {
    forall c
      ensures Get(q', c) ==
                Get(q0, c) + (if IsPointChannel(c, worldSize) then Dispatched(points, worldSize, c.dest, i + 1) else [])
    {
      DispatchStepAt(Get(q0, c), Get(q, c), Get(q', c), points, worldSize, i, c,
                     c == Channel(MasterRank, AssignedRank(i, worldSize), TagPointToEvaluate));
    }
  }

  lemma DispatchStepAt(s0: seq<Payload>, s: seq<Payload>, s': seq<Payload>, points: seq<real>, worldSize: int,
                       i: nat, c: Channel, target: bool)
    requires worldSize >= 2 && i < |points|
    requires s == s0 + (if IsPointChannel(c, worldSize) then Dispatched(points, worldSize, c.dest, i) else [])
    requires target <==> c == Channel(MasterRank, AssignedRank(i, worldSize), TagPointToEvaluate)
    requires s' == if target then s + [PointMessage(points[i])] else s
    ensures s' == s0 + (if IsPointChannel(c, worldSize) then Dispatched(points, worldSize, c.dest, i + 1) else [])
  {
    var d := Dispatched(points, worldSize, c.dest, i);
    if target {
      assert (s0 + d) + [PointMessage(points[i])] == s0 + (d + [PointMessage(points[i])]);
    } else if IsPointChannel(c, worldSize) {
      assert Dispatched(points, worldSize, c.dest, i + 1) == d + [];
    }
  }

  // ---------------------------------------------------------------------------
  // Collection

  function ResultChannel(workerRank: int): Channel
  {
    Channel(workerRank, MasterRank, TagEvaluatedPoint)
  }

  /** A result channel from one of the ranks `lo..hi-1`. */
  predicate IsResultChannelIn(c: Channel, lo: int, hi: int)
  {
    c.dest == MasterRank && c.tag == TagEvaluatedPoint && lo <= c.source < hi
  }

  /** The record the master builds from a received `[x, f, eval_ok]`. */
  function DecodeResult(p: Payload, workerRank: int): (e: EvalPoint)
    requires Fits(TagEvaluatedPoint, p)
    ensures GetX(e) == p.reals[0] && GetF(e) == TruncToInt(p.reals[1])
    ensures e.evalOk == (p.reals[2] != 0.0) && GetWorker(e) == workerRank
  {
    MakeEvalPoint(p.reals[0], p.reals[1], DoubleToBool(p.reals[2]), workerRank)
  }

  /** What one sweep over ranks `lo..hi-1` collects: the head of each
      non-empty result queue, in rank order. */
  ghost function Harvest(q: Queues, lo: int, hi: int): seq<EvalPoint>
    requires WellShaped(q)
    decreases hi - lo
  {
    if hi <= lo then [] else Harvest(q, lo, hi - 1) + HeadRecord(q, hi - 1)
  }

  /** The record for the head of rank `r`'s result queue, if there is one. */
  ghost function HeadRecord(q: Queues, r: int): seq<EvalPoint>
    requires WellShaped(q)
  {
    var c := ResultChannel(r);
    if Get(q, c) != [] then
      assert Fits(c.tag, Get(q, c)[0]);
      [DecodeResult(Get(q, c)[0], r)]
    else []
  }

  /** The queues after one sweep over ranks `lo..hi-1`. */
  ghost function Drained(q: Queues, lo: int, hi: int): (r: Queues)
    requires WellShaped(q)
    ensures WellShaped(r)
    decreases hi - lo
  {
    if hi <= lo then q
    else
      var q1 := Drained(q, lo, hi - 1);
      var c := ResultChannel(hi - 1);
      if Get(q1, c) != [] then
        var r := Pop(q1, c);
        assert forall d, k :: 0 <= k < |Get(r, d)| ==> Get(r, d)[k] == Get(q1, d)[if d == c then k + 1 else k];
        r
      else q1
  }

  /** A sweep drops the head of each non-empty result queue from ranks
      `lo..hi-1` and changes no other queue. */
  lemma {:induction false} DrainedAt(q: Queues, lo: int, hi: int, c: Channel)
    requires WellShaped(q)
    ensures Get(Drained(q, lo, hi), c) ==
              if IsResultChannelIn(c, lo, hi) && Get(q, c) != [] then Get(q, c)[1..] else Get(q, c)
    decreases hi - lo
  {
    if hi > lo {
      DrainedAt(q, lo, hi - 1, c);
      DrainedAt(q, lo, hi - 1, ResultChannel(hi - 1));
    }
  }

  /** A sweep appends at most one record per rank, in increasing rank order,
      each the decoding of that rank's head message. */
  lemma {:induction false} HarvestOrdered(q: Queues, lo: int, hi: int)
    requires WellShaped(q)
    ensures |Harvest(q, lo, hi)| <= if hi <= lo then 0 else hi - lo
    ensures forall k :: 0 <= k < |Harvest(q, lo, hi)| ==>
              var e := Harvest(q, lo, hi)[k];
              lo <= e.workerRank < hi && Get(q, ResultChannel(e.workerRank)) != []
    ensures forall j, k :: 0 <= j < k < |Harvest(q, lo, hi)| ==>
              Harvest(q, lo, hi)[j].workerRank < Harvest(q, lo, hi)[k].workerRank
    decreases hi - lo
  {
    if hi > lo {
      HarvestOrdered(q, lo, hi - 1);
    }
  }

  /** The results in `evals` that came from worker `w`, in their order. */
  function OfWorker(evals: seq<EvalPoint>, w: int): (r: seq<EvalPoint>)
    ensures |r| <= |evals|
    ensures forall e :: e in r ==> e in evals && e.workerRank == w
    decreases |evals|
  {
    if evals == [] then []
    else
      var last := evals[|evals| - 1];
      OfWorker(evals[..|evals| - 1], w) + (if last.workerRank == w then [last] else [])
  }

  lemma {:induction false} OfWorkerAppend(a: seq<EvalPoint>, b: seq<EvalPoint>, w: int)
    ensures OfWorker(a + b, w) == OfWorker(a, w) + OfWorker(b, w)
    decreases |b|
  {
    if b != [] {
      var b' := b[..|b| - 1];
      assert (a + b)[..|a + b| - 1] == a + b';
      OfWorkerAppend(a, b', w);
    } else {
      assert a + b == a;
    }
  }

  /** Worker `w`'s share of a sweep: its head result if it had one pending
      and lies in the swept range, and nothing otherwise. */
  lemma {:induction false} OfWorkerHarvest(q: Queues, lo: int, hi: int, w: int)
    requires WellShaped(q)
    ensures OfWorker(Harvest(q, lo, hi), w) == if lo <= w < hi then HeadRecord(q, w) else []
    decreases hi - lo
  {
    if hi > lo {
      OfWorkerHarvest(q, lo, hi - 1, w);
      OfWorkerAppend(Harvest(q, lo, hi - 1), HeadRecord(q, hi - 1), w);
      OfWorkerHead(q, hi - 1, w);
    }
  }

  lemma OfWorkerHead(q: Queues, r: int, w: int)
    requires WellShaped(q)
    ensures OfWorker(HeadRecord(q, r), w) == if r == w then HeadRecord(q, r) else []
  {
    if HeadRecord(q, r) != [] {
      var e := HeadRecord(q, r)[0];
      assert HeadRecord(q, r) == [e] && e.workerRank == r;
      assert [e][..0] == [];
    }
  }

  /** Extending a sweep by rank `r`: that rank's queue is still untouched,
      and it contributes its head, if any, to the records and the queues. */
  lemma SweepOne(q: Queues, r: int)
    requires WellShaped(q) && r >= 1
    ensures Get(Drained(q, 1, r), ResultChannel(r)) == Get(q, ResultChannel(r))
    ensures Get(q, ResultChannel(r)) != [] ==>
              Drained(q, 1, r + 1) == Pop(Drained(q, 1, r), ResultChannel(r)) &&
              Fits(TagEvaluatedPoint, Get(q, ResultChannel(r))[0]) &&
              Harvest(q, 1, r + 1) == Harvest(q, 1, r) + [DecodeResult(Get(q, ResultChannel(r))[0], r)]
    ensures Get(q, ResultChannel(r)) == [] ==>
              Drained(q, 1, r + 1) == Drained(q, 1, r) && Harvest(q, 1, r + 1) == Harvest(q, 1, r)
  {
    DrainedAt(q, 1, r, ResultChannel(r));
    if Get(q, ResultChannel(r)) != [] {
      assert Fits(ResultChannel(r).tag, Get(q, ResultChannel(r))[0]);
    }
  }

  /** One sweep over the workers (as written).  It returns true only when a
      push made during this call brought the size to exactly `nbPoints`; so
      a sweep that receives nothing, or any sweep with `nbPoints <= 0`,
      returns false. */
  method ReceiveEvaluatedPoints(mb: Mailbox, worldSize: int, nbPoints: int, evalpointVector: seq<EvalPoint>)
    returns (allPointsEvaluated: bool, evalpointVector': seq<EvalPoint>)
    requires mb.Valid()
    modifies mb
    ensures mb.Valid()
    ensures evalpointVector' == evalpointVector + Harvest(old(mb.queues), 1, worldSize)
    ensures mb.queues == Drained(old(mb.queues), 1, worldSize)
    ensures allPointsEvaluated <==> |evalpointVector| < nbPoints <= |evalpointVector'|
  {
    allPointsEvaluated := false;
    evalpointVector' := evalpointVector;
    ghost var q0 := mb.queues;
    var workerRank := 1;
    while workerRank < worldSize
      invariant mb.Valid()
      invariant workerRank == 1 || 1 <= workerRank <= worldSize
      invariant mb.queues == Drained(q0, 1, workerRank)
      invariant evalpointVector' == evalpointVector + Harvest(q0, 1, workerRank)
      invariant allPointsEvaluated <==> |evalpointVector| < nbPoints <= |evalpointVector'|
    {
      SweepOne(q0, workerRank);
      var newEvalPointReceived := mb.Iprobe(workerRank, MasterRank, TagEvaluatedPoint);
      if newEvalPointReceived {
        var xfe := mb.Recv(workerRank, MasterRank, 1);
        var x := xfe.reals[0];
        var f := xfe.reals[1];
        var evalOk := xfe.reals[2];
        var evalpoint := MakeEvalPoint(x, f, DoubleToBool(evalOk), workerRank);
        assert evalpoint == DecodeResult(Get(q0, ResultChannel(workerRank))[0], workerRank);
        assert evalpointVector + Harvest(q0, 1, workerRank) + [evalpoint] ==
               evalpointVector + (Harvest(q0, 1, workerRank) + [evalpoint]);
        evalpointVector' := evalpointVector' + [evalpoint];
        if |evalpointVector'| == nbPoints {
          allPointsEvaluated := true;
        }
      }
      workerRank := workerRank + 1;
    }
  }

  /** The sweep with the completion test the protocol intends: it reports
      completion exactly when the collection holds `nbPoints` results after
      the sweep, including a first sweep with zero points. */
  method ReceiveEvaluatedPointsFixed(mb: Mailbox, worldSize: int, nbPoints: int, evalpointVector: seq<EvalPoint>)
    returns (allPointsEvaluated: bool, evalpointVector': seq<EvalPoint>)
    requires mb.Valid()
    modifies mb
    ensures mb.Valid()
    ensures evalpointVector' == evalpointVector + Harvest(old(mb.queues), 1, worldSize)
    ensures mb.queues == Drained(old(mb.queues), 1, worldSize)
    ensures allPointsEvaluated <==> |evalpointVector'| == nbPoints
  {
    var pushedToTarget;
    pushedToTarget, evalpointVector' := ReceiveEvaluatedPoints(mb, worldSize, nbPoints, evalpointVector);
    allPointsEvaluated := |evalpointVector'| == nbPoints;
  }

  // ---------------------------------------------------------------------------
  // Shutdown

  /** A channel the master sends the stop signal on. */
  predicate IsStopChannel(c: Channel, worldSize: int)
  {
    c.source == MasterRank && c.tag == TagEvaluationDone && 1 <= c.dest < worldSize
  }

  /** Send one "evaluation done" to each worker rank 1..worldSize-1. */
  method SendEvaluationDoneToWorkers(mb: Mailbox, worldSize: int)
    requires mb.Valid()
    modifies mb
    ensures mb.Valid()
    ensures forall c :: Get(mb.queues, c) ==
              Get(old(mb.queues), c) + (if IsStopChannel(c, worldSize) then [Signal()] else [])
  {
    var done := Signal();
    var workerRank := 1;
    while workerRank < worldSize
      invariant mb.Valid()
      invariant workerRank == 1 || 1 <= workerRank <= worldSize
      invariant forall c :: Get(mb.queues, c) ==
                  Get(old(mb.queues), c) + (if IsStopChannel(c, workerRank) then [done] else [])
    {
      mb.Send(MasterRank, workerRank, TagEvaluationDone, done);
      workerRank := workerRank + 1;
    }
  }

  /** The number of messages pending on the channels (r, dest, tag) for the
      ranks r in `lo..hi-1`. */
  ghost function Pending(q: Queues, dest: int, tag: int, lo: int, hi: int): nat
    decreases hi - lo
  {
    if hi <= lo then 0 else Pending(q, dest, tag, lo, hi - 1) + |Get(q, Channel(hi - 1, dest, tag))|
  }

  /** Nothing is pending exactly when every one of those channels is empty. */
  lemma {:induction false} PendingZero(q: Queues, dest: int, tag: int, lo: int, hi: int)
    ensures Pending(q, dest, tag, lo, hi) == 0 <==>
              forall r :: lo <= r < hi ==> Get(q, Channel(r, dest, tag)) == []
    decreases hi - lo
  {
    if hi > lo {
      PendingZero(q, dest, tag, lo, hi - 1);
    }
  }

  /** Consuming one message from a channel in the range lowers the count by one. */
  lemma {:induction false} PendingPop(q: Queues, c: Channel, lo: int, hi: int)
    requires Get(q, c) != [] && lo <= c.source < hi
    ensures Pending(Pop(q, c), c.dest, c.tag, lo, hi) == Pending(q, c.dest, c.tag, lo, hi) - 1
    decreases hi - lo
  {
    if c.source < hi - 1 {
      PendingPop(q, c, lo, hi - 1);
    } else {
      PendingSame(Pop(q, c), q, c.dest, c.tag, lo, hi - 1);
    }
  }

  /** The count only depends on the channels it counts. */
  lemma {:induction false} PendingSame(q1: Queues, q2: Queues, dest: int, tag: int, lo: int, hi: int)
    requires forall r :: lo <= r < hi ==> Get(q1, Channel(r, dest, tag)) == Get(q2, Channel(r, dest, tag))
    ensures Pending(q1, dest, tag, lo, hi) == Pending(q2, dest, tag, lo, hi)
    decreases hi - lo
  {
    if hi > lo {
      PendingSame(q1, q2, dest, tag, lo, hi - 1);
    }
  }

  /** A sweep removes exactly as many pending results as it collects, and
      collects at least one whenever one is pending. */
  lemma {:induction false} HarvestPending(q: Queues, lo: int, hi: int)
    requires WellShaped(q)
    ensures Pending(Drained(q, lo, hi), MasterRank, TagEvaluatedPoint, lo, hi) ==
              Pending(q, MasterRank, TagEvaluatedPoint, lo, hi) - |Harvest(q, lo, hi)|
    ensures |Harvest(q, lo, hi)| == 0 <==> Pending(q, MasterRank, TagEvaluatedPoint, lo, hi) == 0
    decreases hi - lo
  {
    if hi > lo {
      var c := ResultChannel(hi - 1);
      HarvestPending(q, lo, hi - 1);
      forall r | lo <= r < hi - 1
        ensures Get(Drained(q, lo, hi), ResultChannel(r)) == Get(Drained(q, lo, hi - 1), ResultChannel(r))
      {
        DrainedAt(q, lo, hi, ResultChannel(r));
        DrainedAt(q, lo, hi - 1, ResultChannel(r));
      }
      PendingSame(Drained(q, lo, hi), Drained(q, lo, hi - 1), MasterRank, TagEvaluatedPoint, lo, hi - 1);
      DrainedAt(q, lo, hi, c);
    }
  }

  /** An acknowledgement channel from one of the worker ranks. */
  predicate IsDoneChannel(c: Channel, worldSize: int)
  {
    c.dest == MasterRank && c.tag == TagWorkerDone && 1 <= c.source < worldSize
  }

  /** `a` is what remains of queue `b` after some of its head messages were consumed. */
  predicate IsSuffix(a: seq<Payload>, b: seq<Payload>)
  {
    |a| <= |b| && a == b[|b| - |a|..]
  }

  lemma SuffixTail(a: seq<Payload>, b: seq<Payload>)
    requires IsSuffix(a, b) && a != []
    ensures IsSuffix(a[1..], b)
  {
    assert a[1..] == b[|b| - |a| + 1..];
  }

  /** `q` is `q0` with some acknowledgements consumed from the heads of the
      worker queues, and nothing else changed. */
  ghost predicate OnlyAcksTaken(q: Queues, q0: Queues, worldSize: int)
  {
    forall c :: Get(q, c) == Get(q0, c) || (IsDoneChannel(c, worldSize) && IsSuffix(Get(q, c), Get(q0, c)))
  }

  /** Consuming one more acknowledgement keeps that relation and lowers the
      pending count by one. */
  lemma AckTaken(q: Queues, q0: Queues, worldSize: int, c: Channel)
    requires OnlyAcksTaken(q, q0, worldSize) && IsDoneChannel(c, worldSize) && Get(q, c) != []
    ensures OnlyAcksTaken(Pop(q, c), q0, worldSize)
    ensures Pending(Pop(q, c), MasterRank, TagWorkerDone, 1, worldSize) ==
              Pending(q, MasterRank, TagWorkerDone, 1, worldSize) - 1
  {
    PendingPop(q, c, 1, worldSize);
    forall d
      ensures Get(Pop(q, c), d) == Get(q0, d) || (IsDoneChannel(d, worldSize) && IsSuffix(Get(Pop(q, c), d), Get(q0, d)))
    {
      if d == c {
        assert IsSuffix(Get(q, c), Get(q0, c));
        SuffixTail(Get(q, c), Get(q0, c));
      }
    }
  }

  /** No acknowledgement is pending from the ranks `1..hi-1`. */
  ghost predicate AcksEmptyBelow(q: Queues, hi: int)
  {
    forall r :: 1 <= r < hi ==> Get(q, Channel(r, MasterRank, TagWorkerDone)) == []
  }

  /** Receive "worker done" messages until `worldSize - 1` of them have been
      counted.  It counts messages, not distinct ranks, and stops consuming as
      soon as the count is reached: exactly `worldSize - 1` acknowledgements
      are consumed, each from the head of some worker's queue, and nothing
      else changes.  With fewer pending, no other process acting, the loop
      would spin forever. */
  method WaitAllWorkersDone(mb: Mailbox, worldSize: int)
    requires mb.Valid() && worldSize >= 2
    requires Pending(mb.queues, MasterRank, TagWorkerDone, 1, worldSize) >= worldSize - 1
    modifies mb
    ensures mb.Valid()
    ensures Pending(mb.queues, MasterRank, TagWorkerDone, 1, worldSize) ==
              Pending(old(mb.queues), MasterRank, TagWorkerDone, 1, worldSize) - (worldSize - 1)
    ensures forall c :: !IsDoneChannel(c, worldSize) ==> Get(mb.queues, c) == Get(old(mb.queues), c)
    ensures forall c :: IsSuffix(Get(mb.queues, c), Get(old(mb.queues), c))
  {
    var allWorkersDone := false;
    var nbWorkersDone := 0;
    ghost var q0 := mb.queues;
    ghost var p0 := Pending(q0, MasterRank, TagWorkerDone, 1, worldSize);

    while !allWorkersDone
      invariant mb.Valid()
      invariant 0 <= nbWorkersDone <= worldSize - 1
      invariant allWorkersDone <==> nbWorkersDone == worldSize - 1
      invariant Pending(mb.queues, MasterRank, TagWorkerDone, 1, worldSize) + nbWorkersDone == p0
      invariant OnlyAcksTaken(mb.queues, q0, worldSize)
      decreases Pending(mb.queues, MasterRank, TagWorkerDone, 1, worldSize)
    {
      ghost var p1 := Pending(mb.queues, MasterRank, TagWorkerDone, 1, worldSize);
      ghost var consumed: nat := 0;
      var workerRank := 1;
      while workerRank < worldSize && !allWorkersDone
        invariant mb.Valid()
        invariant 1 <= workerRank <= worldSize
        invariant 0 <= nbWorkersDone <= worldSize - 1
        invariant allWorkersDone <==> nbWorkersDone == worldSize - 1
        invariant Pending(mb.queues, MasterRank, TagWorkerDone, 1, worldSize) + nbWorkersDone == p0
        invariant Pending(mb.queues, MasterRank, TagWorkerDone, 1, worldSize) + consumed == p1
        invariant consumed == 0 ==> AcksEmptyBelow(mb.queues, workerRank)
        invariant OnlyAcksTaken(mb.queues, q0, worldSize)
      {
        var flagDone := mb.Iprobe(workerRank, MasterRank, TagWorkerDone);
        if flagDone {
          ghost var before := mb.queues;
          var workerDone := mb.Recv(workerRank, MasterRank, TagWorkerDone);
          AckTaken(before, q0, worldSize, Channel(workerRank, MasterRank, TagWorkerDone));
          nbWorkersDone := nbWorkersDone + 1;
          consumed := consumed + 1;
          if worldSize - 1 == nbWorkersDone {
            allWorkersDone := true;
          }
        } else if consumed == 0 {
          assert AcksEmptyBelow(mb.queues, workerRank + 1);
        }
        workerRank := workerRank + 1;
      }
      if !allWorkersDone && consumed == 0 {
        PendingZero(mb.queues, MasterRank, TagWorkerDone, 1, worldSize);
      }
    }
  }
}
