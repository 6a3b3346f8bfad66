# PlayMPI master/worker evaluation protocol, in Dafny

PlayMPI distributes the evaluation of points over the processes of an MPI
job. Rank 0 is the master. It sends the points to the other ranks (the
workers) round-robin. It then sweeps over the workers and collects one
evaluated point per worker per sweep until it holds `nbPoints` results.
Next it broadcasts an "evaluation done" signal and waits for `worldSize - 1`
"worker done" acknowledgements. A worker loops on its side. It polls for a
point, evaluates it and replies with `[x, f, eval_ok]`. It then polls for the
stop signal. Once the stop signal arrives, it sends one acknowledgement. A
small launcher builds the `mpirun` command line that starts a run.

The model has seven modules.

- **`Protocol`** (`protocol.dfy`) holds the four message tags and the master's
  rank. It also gives the shape of each tag's buffer: one double, three
  doubles, or one int.
- **`Messaging`** (`mailbox.dfy`) models the message layer as a class
  `Mailbox`. It holds one FIFO queue for each (source, destination, tag)
  channel. `Send` appends to a queue. `Iprobe` tests whether a queue is
  non-empty. `Recv` pops the head. This is the non-overtaking order MPI
  guarantees between one sender and one receiver on one tag.
- **`EvalPoints`** (`eval_point.dfy`) holds the `EvalPoint` record and the
  implicit C++ conversions its constructor and getters perform:
  - double to int (truncation toward zero);
  - double to bool;
  - bool back to double.
- **`Worker`** (`evaluator_control.dfy`) holds the class `EvaluatorControl`.
  Its methods are the worker routines and one loop iteration, `PollOnce`.
  `EvaluatorControl.cpp` repeats, out of line, the same member functions that
  `EvaluatorControl.hpp` defines inline. The cpp copy differs only in
  console output and a processor-name query. One class models both.
- **`Master`** (`algo.dfy`) holds the master's routines from `algo.cpp`:
  - round-robin dispatch;
  - one collection sweep, as written and corrected;
  - the stop broadcast;
  - the acknowledgement wait.
- **`Launcher`** (`launch.dfy`) holds the command-line parsing and command
  construction of `launch.cpp`.
- **`Run`** (`run.dfy`) holds the master's `main` with the workers' loops
  interleaved in one fixed order, and what a whole run establishes. It also
  shows the zero-points non-termination (see Findings).

**Modelling choices:**

- **Doubles** are `real`.
- **The evaluator** is an uninterpreted function from a point to its value
  `f` and its success flag.
- **The worker's rank.** The source's `EvaluatorControl` constructor takes
  only the evaluator, and `run` asks MPI for the rank. In the model the
  constructor also takes the mailbox and the rank.
- **Spin loops.** A loop that spins on `MPI_Iprobe` until another process
  acts would never end in a sequential model with nothing pending. So the
  methods that contain such a loop require the condition under which it
  ends:
  - `Run` requires the stop signal to be pending;
  - `WaitAllWorkersDone` requires at least `worldSize - 1` acknowledgements
    to be pending;
  - `CollectPhase`, `CollectPhaseAsWritten` and `CollectResults` require
    every reply to be queued already, as `Run.WorkPhase` leaves the mailbox.

  The schedule in `Run.RunProtocol` establishes all three conditions.

## Model

| member | source | states |
|---|---|---|
| Protocol.TagsDistinct | EvaluatorControl.hpp:7-10 | The four tags 0..3 are pairwise distinct, so they name four separate queues between any two ranks. |
| Protocol.PointMessage | algo.cpp:39-41 | A point message is a buffer of exactly one double, and that double is the point. |
| Protocol.Signal | algo.cpp:84-87 | The stop signal and the acknowledgement are a buffer of one int, which fits both tags. |
| Messaging.PushKeepsHead | algo.cpp:41 | Sending on a channel never changes that channel's head, so messages between one pair of ranks on one tag are received in send order. |
| Messaging.Mailbox.Send | EvaluatorControl.cpp:80 | Sending appends the message to its channel's queue and leaves every other queue unchanged. |
| Messaging.Mailbox.Iprobe | EvaluatorControl.cpp:46 | A probe reports true exactly when a message is pending on the channel, and it changes nothing. |
| Messaging.Mailbox.Recv | EvaluatorControl.cpp:61 | Receiving after a probe returns the oldest pending message, which has its tag's buffer shape, and removes only that message. |
| EvalPoints.TruncToInt | EvalPoint.hpp:16-18 | Storing a double `f` in the int field truncates toward zero: the result lies within 1 of `f`, on the side toward 0. |
| EvalPoints.TruncOfIntegral | EvalPoint.hpp:18 | An integral value survives the narrowing to int unchanged. |
| EvalPoints.BoolToDouble | EvalPoint.hpp:26 | Reading the bool back as a double gives 1.0 or 0.0, and converting that to bool restores the flag. |
| EvalPoints.BoolRoundTrip | EvalPoint.hpp:19-26 | A double survives the trip through the bool field exactly when it is 0.0 or 1.0. |
| EvalPoints.MakeEvalPoint | EvalPoint.hpp:16-27 | The getters return `x` and the rank as given, `f` truncated to int, and the flag as 1.0 or 0.0. |
| Worker.ReplyFor | EvaluatorControl.cpp:25-29 | A worker's reply to a point message has three doubles: the point, the evaluator's `f` for it, and the evaluator's success flag converted to exactly 1.0 or 0.0, which reads back as that flag. |
| Worker.EvaluatorControl.constructor | EvaluatorControl.hpp:17-19 | The object keeps the evaluator it is given. |
| Worker.EvaluatorControl.GetNewPointToEvaluate | EvaluatorControl.hpp:51-80 | True exactly when a point from the master is pending. In that case `x` is the oldest such point and only it is consumed. Otherwise `x` and the mailbox are unchanged. |
| Worker.EvaluatorControl.SendPointToMaster | EvaluatorControl.cpp:69-81 | Appends `[x, f, eval_ok]`, in that order, to this worker's result queue and to nothing else. |
| Worker.EvaluatorControl.IsEvaluationDone | EvaluatorControl.hpp:96-109 | True exactly when a stop signal is pending. It consumes that signal, and it changes nothing otherwise. |
| Worker.EvaluatorControl.SendWorkerDoneToMaster | EvaluatorControl.cpp:99-103 | Appends one acknowledgement to this worker's "worker done" queue and to nothing else. |
| Worker.EvaluatorControl.PollOnce | EvaluatorControl.cpp:21-32 | One loop iteration. It consumes at most one point and sends exactly one reply for it. It then consumes a pending stop signal, and its result says whether there was one. |
| Worker.EvaluatorControl.Run | EvaluatorControl.hpp:21-49 | On a worker rank with the stop signal pending, the loop body runs once: it answers at most one pending point, consumes the stop signal and ends. Whatever the rank, exactly one acknowledgement is sent, so rank 0 would send one to itself. |
| Master.AssignedRank | algo.cpp:31 | Point `i` goes to a worker rank in `1..worldSize-1`, namely `i mod (worldSize-1) + 1`. |
| Master.DispatchedFits | algo.cpp:39-41 | A worker is sent at most as many messages as there are points, and each is a one-double point message. |
| Master.DispatchedIndex | algo.cpp:29-42 | Worker `w` receives exactly the points whose index is `w-1` modulo `worldSize-1`, in increasing index order. The `k`-th such message exists exactly when that index is in range. |
| Master.SendPointsToWorkers | algo.cpp:26-43 | Each worker's point queue grows by exactly its dispatched points, in order, and no other queue changes. |
| Master.DecodeResult | algo.cpp:64-68 | The record kept for a received `[x, f, eval_ok]` has `x`, `f` truncated, a flag true exactly when `eval_ok` is non-zero, and the sender's rank. |
| Master.DrainedAt | algo.cpp:52-75 | A sweep drops the head of each non-empty result queue of ranks `1..worldSize-1` and changes no other queue. |
| Master.HarvestOrdered | algo.cpp:52-75 | A sweep appends at most one record per worker, in increasing rank order. Each record comes from a worker that had a result pending. |
| Master.OfWorkerHarvest | algo.cpp:58-69 | Worker `w`'s share of a sweep is the decoding of its oldest pending result, if it had one, and nothing otherwise. |
| Master.SweepOne | algo.cpp:58-69 | Visiting rank `r` in a sweep finds its result queue untouched by the earlier ranks. It records and consumes that queue's head, if there is one. |
| Master.HarvestPending | algo.cpp:170-173 | A sweep removes exactly as many pending results as it records. It records nothing exactly when nothing is pending. |
| Master.ReceiveEvaluatedPoints | algo.cpp:47-78 | As written: the collection gains the sweep's records and the queues lose them. The flag is true exactly when the size passed from below `nbPoints` to `nbPoints` during this call, so it is always false when `nbPoints <= 0`. |
| Master.ReceiveEvaluatedPointsFixed | algo.cpp:69-73 | The same sweep, with the completion flag true exactly when the collection then holds `nbPoints` records. |
| Master.SendEvaluationDoneToWorkers | algo.cpp:82-89 | Every worker rank's stop queue gains exactly one signal, and no other queue changes. |
| Master.PendingZero | algo.cpp:104-107 | No message is pending from the worker ranks on a tag exactly when every such queue is empty. |
| Master.AckTaken | algo.cpp:106-110 | Consuming one acknowledgement lowers the pending count by one and touches only acknowledgement queues. |
| Master.WaitAllWorkersDone | algo.cpp:93-119 | Exactly `worldSize-1` acknowledgements are consumed, each from the head of some worker's queue, and nothing else changes. They are counted as messages, not as distinct ranks. |
| Launcher.Launch | launch.cpp:3-78 | The usage case (`-h`, `-help`, or a single argument) exits with 1 and builds no command. Otherwise it exits with 0 and builds one of two commands. With the message layer it is `mpirun -np <n>`, then `-f <hostfile>` when one is given, then the executable and the point count. Without it (`-n 0`) it is the executable and the point count. The defaults are 5 processes and 10 points. |
| Run.Replies | EvaluatorControl.cpp:25-29 | A worker's replies to its point messages correspond one to one, in the same order. |
| Run.DecodeAll | algo.cpp:64-69 | The records the master builds from a worker's replies correspond one to one, in the same order. |
| Run.ExpectedAt | algo.cpp:168-173 | Worker `w`'s `k`-th recorded result exists exactly when point `(w-1) + k(worldSize-1)` exists. It is that point's evaluation, truncated, with rank `w`. |
| Run.DispatchedTotal | algo.cpp:29-31 | Summed over the workers, the dispatched points number exactly `nbPoints`: every point goes to exactly one worker. |
| Run.AnswerPoints | EvaluatorControl.cpp:21-32 | Running loop iterations while points are pending answers every pending point, in order, and leaves all other queues unchanged. |
| Run.StartWorkers | algo.cpp:149-154 | Every worker rank `1..worldSize-1`, and no other, gets its own `EvaluatorControl` on the shared mailbox with the common evaluator. |
| Run.WorkPhase | algo.cpp:149-154 | Once all points are dispatched, the workers' loops answer them: each worker's result queue holds the replies to exactly its assigned points, in order, and every other queue is empty. |
| Run.CollectingSweep | algo.cpp:170-173 | Each sweep keeps the collection invariant: for every worker, its recorded results followed by its pending replies are its expected results. Each sweep that records nothing has nothing left to record. |
| Run.SweepFlagsAgree | algo.cpp:69-73 | Inside the collection loop, while a result is still missing, the completion test as written holds exactly when the intended one does. The record count can reach the number of points but never pass it. |
| Run.CollectPhaseAsWritten | algo.cpp:169-173 | Once every worker has answered its points, and with at least one point, the collection loop as written ends. It holds one record per point, every worker's records are its expected results in order, and no message remains. |
| Run.CollectPhase | algo.cpp:169-173 | Once every worker has answered its points, the collection loop with the corrected test ends, also for zero points, with the same outcome. |
| Run.CollectResults | algo.cpp:169-173 | Once every worker has answered its points, the collection a run uses, the loop as written for at least one point and the corrected one for none, ends with the same outcome. |
| Run.OvershootSweep | algo.cpp:70-73 | Outside the collection loop the two tests can differ. With three processes, one expected point and one result pending from each worker, one sweep records two results: the test as written reports completion and the intended one does not. |
| Run.ShutdownPhase | EvaluatorControl.cpp:18-35 | With one stop signal pending per worker, every worker ends its loop and leaves exactly one acknowledgement. |
| Run.RunProtocol | algo.cpp:157-179 | A whole run records one result per point. Each result is from a worker rank, and each worker's results are the evaluations of its assigned points in order. Shutdown leaves no message in flight. With at least one point the run uses the collection loop as written. With none, where that loop never ends, it uses the corrected test. |
| Run.ZeroPointsSpin | algo.cpp:169-173 | With zero points, after any number of rounds of worker iterations and sweeps, the completion flag as written is still false and nothing is recorded. |
| Run.AcksCountedNotRanks | algo.cpp:102-116 | With three processes, two acknowledgements from worker 1 and none from worker 2 end the wait, and both of worker 1's are consumed. |

## Left out

- MPI start-up and shutdown are not modelled: `MPI_Init`, `MPI_Comm_size`, `MPI_Comm_rank`, `MPI_Get_processor_name` and `MPI_Finalize`. The ranks and the world size are parameters.
- Real concurrency is not modelled. The processes of a run are interleaved in the one fixed order of `Run.RunProtocol`.
- Run.RunProtocol: proves the outcome for one schedule and not for every interleaving of the processes. Under another interleaving the master may collect a worker's results over more sweeps, but each worker's results still arrive in order, because each channel is FIFO.
- Worker.EvaluatorControl.Run: requires the stop signal to be pending before the loop starts on a worker rank. In a sequential model with nothing pending the spin would not end, and in a real run it ends only when the master sends the signal. Under this precondition the loop body runs exactly once; the iterations before the signal arrives are described by `Run.AnswerPoints`.
- Master.WaitAllWorkersDone: requires at least `worldSize - 1` acknowledgements to be pending, for the same reason.
- Run.CollectPhaseAsWritten: requires at least one point, because with none the loop as written never ends (see Findings and `Run.ZeroPointsSpin`). It, `Run.CollectPhase` and `Run.CollectResults` also require every reply to be queued already, as `Run.WorkPhase` leaves the mailbox; a collection that starts while replies are still to come is not modelled.
- IEEE double arithmetic is not modelled, because doubles are reals. A double-to-int conversion out of `int`'s range (undefined in C++) is not modelled either, because integers are unbounded.
- EvalPoints.MakeEvalPoint: its contract states the truncation of `f` through `TruncToInt`. The fact that an integral `f` is kept exactly is the separate lemma `EvalPoints.TruncOfIntegral`.
- `generatePoints` (`algo.cpp:9-22`) and its `rand` calls are not modelled. The points are an input of `Run.RunProtocol`.
- The master's `nbPoints` is the number of points given. The `atoi(argv[1])` parse and the default of 100 (`algo.cpp:159-163`) are not modelled. `Master.ReceiveEvaluatedPoints` itself takes any integer `nbPoints`.
- The usage exit in `algo.cpp:140-145` for `worldSize <= 1` is not modelled. `Run.RunProtocol` requires `worldSize >= 2`, which is what that exit guarantees for the rest of `main`.
- The body of the evaluator (`Evaluator.cpp`) is not part of this model. The evaluator is an arbitrary function.
- Console output is not modelled: the trace lines, the final summary print in `algo.cpp:182-188`, and the launcher's usage text and command echo.
- The launcher's `system` call is not modelled: `Launcher.Launch` returns the command it would run.
- `hello.cpp` is not part of this model.
- The commented-out code at `EvaluatorControl.hpp:131-230` is not part of this model.

## Findings

| source | as written | input that shows it | evidently intended | confidence | as-written member | corrected member |
|---|---|---|---|---|---|---|
| algo.cpp:69-73 | `receiveEvaluatedPoints` sets its flag only right after a push makes the record count equal `nbPoints`. With no points, nothing is ever pushed, so the flag never becomes true and the loop at `algo.cpp:170-173` never ends. The same holds for a negative `nbPoints` from `atoi`. | `nbPoints = 0` (for example argument `0`) with any `worldSize >= 2` | Collection is complete once the master holds `nbPoints` records, including at once when there are none. | not executed | Run.ZeroPointsSpin | Master.ReceiveEvaluatedPointsFixed |

`Master.ReceiveEvaluatedPoints` models the sweep as written. `Run.ZeroPointsSpin` drives it with zero points for any number of rounds and proves that the flag stays false. `Run.CollectPhase` uses the corrected sweep. `Run.RunProtocol` uses it, through `Run.CollectResults`, only when there are no points; otherwise it uses the sweep as written (`Run.CollectPhaseAsWritten`). The two completion tests differ in two cases.

- **A sweep starts with the collection already complete.** In the collection loop this happens only with zero points. With at least one point the loop stops as soon as the collection is complete.
- **A sweep passes `nbPoints`.** More results are pending than are still missing, so the count goes past `nbPoints`. `Run.OvershootSweep` shows such a sweep. In the collection loop this cannot happen: recorded and pending results together always number the points. `Run.SweepFlagsAgree` proves that inside the loop the two tests agree.

`Run.CollectPhaseAsWritten` therefore proves that the source's loop ends and collects every result whenever there is at least one point, once every worker has answered its points.
