/** The worker side: the evaluator-control object each worker process runs.
    It polls the master for points, evaluates them, replies, and ends with one
    "worker done" message after it has seen the "evaluation done" signal. */
module Worker {
  import opened Protocol
  import opened Messaging
  import opened EvalPoints

  /** What the evaluator returns for a point: the value `f` and the success flag. */
  datatype Evaluation = Evaluation(f: real, ok: bool)

  /** The reply to a point message: the three doubles x, f and ok (1.0 or 0.0). */
  function ReplyFor(p: Payload, evaluator: real -> Evaluation): (r: Payload)
    requires Fits(TagPointToEvaluate, p)
    ensures Fits(TagEvaluatedPoint, r)
    ensures r.reals[0] == p.reals[0] && r.reals[1] == evaluator(p.reals[0]).f
    ensures r.reals[2] == BoolToDouble(evaluator(p.reals[0]).ok)
    ensures DoubleToBool(r.reals[2]) == evaluator(p.reals[0]).ok
  {
    var x := p.reals[0];
    var e := evaluator(x);
    ReplyPayload(x, e.f, BoolToDouble(e.ok))
  }

  /** The buffer `sendPointToMaster` fills: `[x, f, eval_ok]` in that order. */
  function ReplyPayload(x: real, f: real, evalOk: real): (r: Payload)
    ensures Fits(TagEvaluatedPoint, r)
    ensures r.reals[0] == x && r.reals[1] == f && r.reals[2] == evalOk
  {
    Doubles([x, f, evalOk])
  }

  class EvaluatorControl {
    /** The evaluator given to the constructor, as an uninterpreted function. */
    const evaluator: real -> Evaluation
    /** The message layer this process talks through. */
    const mailbox: Mailbox
    /** This process's rank, as the message layer reports it. */
    const worldRank: int

    constructor (evaluator: real -> Evaluation, mailbox: Mailbox, worldRank: int)
      ensures this.evaluator == evaluator && this.mailbox == mailbox && this.worldRank == worldRank
    {
      this.evaluator := evaluator;
      this.mailbox := mailbox;
      this.worldRank := worldRank;
    }

    /** The four channels this worker uses. */
    function PointIn(): Channel { Channel(MasterRank, worldRank, TagPointToEvaluate) }
    function StopIn(): Channel { Channel(MasterRank, worldRank, TagEvaluationDone) }
    function ResultOut(): Channel { Channel(worldRank, MasterRank, TagEvaluatedPoint) }
    function DoneOut(): Channel { Channel(worldRank, MasterRank, TagWorkerDone) }

    /** The queues after the first half of a loop iteration: a pending point,
        if any, is consumed and answered with exactly one reply. */
    ghost function AfterPoint(q: Queues): (r: Queues)
      requires WellShaped(q)
      ensures Get(q, PointIn()) == [] ==> r == q
    {
      var pc := PointIn();
      if Get(q, pc) == [] then q
      else
        assert Fits(pc.tag, Get(q, pc)[0]);
        Push(Pop(q, pc), ResultOut(), ReplyFor(Get(q, pc)[0], evaluator))
    }

    /** Probe for a point from the master; if there is one, receive it into
        `x`.  Without one, `x` and the mailbox are left as they were. */
    method GetNewPointToEvaluate(x: real) returns (newPointReceived: bool, x': real)
      requires mailbox.Valid()
      modifies mailbox
      ensures mailbox.Valid()
      ensures newPointReceived <==> old(Get(mailbox.queues, PointIn())) != []
      ensures newPointReceived ==>
                x' == old(Get(mailbox.queues, PointIn()))[0].reals[0] &&
                mailbox.queues == Pop(old(mailbox.queues), PointIn())
      ensures !newPointReceived ==> x' == x && mailbox.queues == old(mailbox.queues)
    {
      newPointReceived := false;
      x' := x;
      var flagNewPointToEval := mailbox.Iprobe(MasterRank, worldRank, TagPointToEvaluate);
      if flagNewPointToEval {
        var p := mailbox.Recv(MasterRank, worldRank, TagPointToEvaluate);
        x' := p.reals[0];
        newPointReceived := true;
      }
    }

    /** Send `[x, f, eval_ok]` to the master, tagged as an evaluated point. */
    method SendPointToMaster(x: real, f: real, evalOk: real)
      requires mailbox.Valid()
      modifies mailbox
      ensures mailbox.Valid()
      ensures mailbox.queues == Push(old(mailbox.queues), ResultOut(), ReplyPayload(x, f, evalOk))
    {
      mailbox.Send(worldRank, MasterRank, TagEvaluatedPoint, ReplyPayload(x, f, evalOk));
    }

    /** Probe for the master's "evaluation done" signal and consume it if it
        is there; the result says whether it was. */
    method IsEvaluationDone() returns (retDone: bool)
      requires mailbox.Valid()
      modifies mailbox
      ensures mailbox.Valid()
      ensures retDone <==> old(Get(mailbox.queues, StopIn())) != []
      ensures mailbox.queues == if retDone then Pop(old(mailbox.queues), StopIn()) else old(mailbox.queues)
    {
      retDone := false;
      var flagEvaluationDone := mailbox.Iprobe(MasterRank, worldRank, TagEvaluationDone);
      if flagEvaluationDone {
        var evaluationDone := mailbox.Recv(MasterRank, worldRank, TagEvaluationDone);
        retDone := true;
      }
    }

    /** Tell the master this worker is done. */
    method SendWorkerDoneToMaster()
      requires mailbox.Valid()
      modifies mailbox
      ensures mailbox.Valid()
      ensures mailbox.queues == Push(old(mailbox.queues), DoneOut(), Signal())
    {
      mailbox.Send(worldRank, MasterRank, TagWorkerDone, Signal());
    }

    /** One iteration of the worker loop: at most one point is consumed and,
        if one is, exactly one reply is sent; then the stop signal is polled
        and consumed if present.  The result is the loop's new flag. */
    method PollOnce() returns (evaluationDone: bool)
      requires mailbox.Valid()
      modifies mailbox
      ensures mailbox.Valid()
      ensures evaluationDone <==> old(Get(mailbox.queues, StopIn())) != []
      ensures mailbox.queues ==
                if evaluationDone then Pop(AfterPoint(old(mailbox.queues)), StopIn())
                else AfterPoint(old(mailbox.queues))
    {
      ghost var q0 := mailbox.queues;
      var x := 0.0;
      var f := 0.0;
      var received;
      received, x := GetNewPointToEvaluate(x);
      if received {
        var e := evaluator(x);
        f := e.f;
        SendPointToMaster(x, f, BoolToDouble(e.ok));
      }
      assert mailbox.queues == AfterPoint(q0);
      assert Get(mailbox.queues, StopIn()) == Get(q0, StopIn());
      evaluationDone := IsEvaluationDone();
    }

    /** The worker's main routine.  On a worker rank the loop runs until the
        stop signal is consumed.  Here the stop signal must already be pending
        (with no other process acting, the loop would otherwise spin forever),
        so under this precondition the loop body runs exactly once: it answers
        at most one pending point and consumes the stop signal.  Earlier
        iterations, made while no stop signal is pending, are the ones
        `Run.AnswerPoints` describes.  Whatever the rank, one "worker done" is
        sent at the end, so rank 0 would send it to itself. */
    method Run()
      requires mailbox.Valid()
      requires worldRank != MasterRank ==> Get(mailbox.queues, StopIn()) != []
      modifies mailbox
      ensures mailbox.Valid()
      ensures worldRank == MasterRank ==>
                mailbox.queues == Push(old(mailbox.queues), DoneOut(), Signal())
      ensures worldRank != MasterRank ==>
                mailbox.queues == Push(Pop(AfterPoint(old(mailbox.queues)), StopIn()), DoneOut(), Signal())
    {
      if worldRank != MasterRank {
        var evaluationDone := false;
        while !evaluationDone
          invariant mailbox.Valid()
          invariant !evaluationDone ==> mailbox.queues == old(mailbox.queues)
          invariant evaluationDone ==> mailbox.queues == Pop(AfterPoint(old(mailbox.queues)), StopIn())
          decreases if evaluationDone then 0 else 1
        {
          evaluationDone := PollOnce();
        }
      }
      SendWorkerDoneToMaster();
    }
  }
}
