/** The result record the master keeps for each evaluated point, with the
    implicit C++ conversions its constructor and getters perform: `f` is
    narrowed from double to int, `evalOk` is a bool built from a double and
    read back as a double. */
module EvalPoints {

  /** Double-to-int conversion: truncation toward zero.  The model's integers
      are unbounded, so an out-of-range double is not modelled. */
  function TruncToInt(d: real): (n: int)
    ensures 0.0 <= d ==> n as real <= d < n as real + 1.0
    ensures d < 0.0 ==> n as real - 1.0 < d <= n as real
  {
    if 0.0 <= d then d.Floor else -((-d).Floor)
  }

  /** An integral double survives the narrowing unchanged. */
  lemma TruncOfIntegral(n: int)
    ensures TruncToInt(n as real) == n
  {
  }

  /** Double-to-bool conversion: any non-zero value is true. */
  function DoubleToBool(d: real): bool
  {
    d != 0.0
  }

  /** Bool-to-double conversion: true is 1.0 and false is 0.0, and converting
      back gives the same bool. */
  function BoolToDouble(b: bool): (d: real)
    ensures d == 0.0 || d == 1.0
    ensures DoubleToBool(d) == b
  {
    if b then 1.0 else 0.0
  }

  /** A double survives the bool round trip exactly when it is 0.0 or 1.0. */
  lemma BoolRoundTrip(d: real)
    ensures BoolToDouble(DoubleToBool(d)) == d <==> d == 0.0 || d == 1.0
  {
  }

  /** The stored fields; the datatype's fields stand for the private members. */
  datatype EvalPoint = EvalPoint(x: real, f: int, evalOk: bool, workerRank: int)

  function GetX(e: EvalPoint): real { e.x }
  function GetF(e: EvalPoint): int { e.f }
  function GetEvalOk(e: EvalPoint): real { BoolToDouble(e.evalOk) }
  function GetWorker(e: EvalPoint): int { e.workerRank }

  /** The constructor: every field is fixed here, and the getters give back
      `x` and the rank unchanged, `f` truncated to an int (unchanged when it
      is integral, by `TruncOfIntegral`), and the flag as 1.0 or 0.0. */
  function MakeEvalPoint(x: real, f: real, evalOk: bool, workerRank: int): (e: EvalPoint)
    ensures GetX(e) == x && GetWorker(e) == workerRank
    ensures GetF(e) == TruncToInt(f)
    ensures GetEvalOk(e) == (if evalOk then 1.0 else 0.0)
  {
    EvalPoint(x, TruncToInt(f), evalOk, workerRank)
  }
}
