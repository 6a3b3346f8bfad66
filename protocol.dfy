/** The wire vocabulary shared by the master and the workers: the four message
    tags and the payload each tag carries.  A payload is the raw buffer handed
    to the message layer: an array of doubles or an array of ints. */
module Protocol {

  /** Tags, as declared at the top of the evaluator-control header. */
  const TagPointToEvaluate: int := 0
  const TagEvaluatedPoint: int := 1
  const TagEvaluationDone: int := 2
  const TagWorkerDone: int := 3

  /** The master always has rank 0. */
  const MasterRank: int := 0

  /** A message buffer: `count` doubles or `count` ints.  Doubles are modelled
      as reals; no IEEE rounding is modelled. */
  datatype Payload = Doubles(reals: seq<real>) | Ints(ints: seq<int>)

  /** The buffer each tag is sent and received with: one double for a point,
      three doubles (x, f, ok) for a result, one int for either signal. */
  predicate Fits(tag: int, p: Payload)
  {
    if tag == TagPointToEvaluate then p.Doubles? && |p.reals| == 1
    else if tag == TagEvaluatedPoint then p.Doubles? && |p.reals| == 3
    else if tag == TagEvaluationDone || tag == TagWorkerDone then p.Ints? && |p.ints| == 1
    else true
  }

  /** The message carrying one point to evaluate. */
  function PointMessage(x: real): (p: Payload)
    ensures Fits(TagPointToEvaluate, p) && p.reals[0] == x
  {
    Doubles([x])
  }

  /** The "evaluation done" and "worker done" signals both carry `int done = 1`. */
  function Signal(): (p: Payload)
    ensures Fits(TagEvaluationDone, p) && Fits(TagWorkerDone, p)
  {
    Ints([1])
  }

  /** The four tags are pairwise distinct, so they name four separate
      sub-queues between any two ranks. */
  lemma TagsDistinct()
    ensures TagPointToEvaluate != TagEvaluatedPoint && TagPointToEvaluate != TagEvaluationDone
    ensures TagPointToEvaluate != TagWorkerDone && TagEvaluatedPoint != TagEvaluationDone
    ensures TagEvaluatedPoint != TagWorkerDone && TagEvaluationDone != TagWorkerDone
  {
  }
}
