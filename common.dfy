/** Shared value types: optional and fallible results, and the subset of
    Python floats the tuner handles (finite values and NaN). */
module Common {

  datatype Option<+T> = None | Some(value: T)

  /** A computation that either yields a value or raises an exception that
      propagates to the caller. */
  datatype Result<+T> = Ok(value: T) | Raised

  /** A Python float as far as the tuner sees one: a finite value or NaN.
      Rounding of binary floating point is not modelled: Num carries an
      exact real. */
  datatype Float = Num(v: real) | NaN

  function Abs(x: real): (r: real)
    ensures r >= 0.0 && (r == x || r == -x)
  {
    if x < 0.0 then -x else x
  }

  /** `a + b` on floats: NaN on either side gives NaN. */
  function Add(a: Float, b: Float): (r: Float)
    ensures r.NaN? <==> (a.NaN? || b.NaN?)
    ensures r.Num? ==> r.v == a.v + b.v
  {
    match (a, b)
    case (Num(x), Num(y)) => Num(x + y)
    case _ => NaN
  }

  /** `a / n` for a positive count `n`, as in `sum(vals) / len(vals)`. */
  function DivCount(a: Float, n: nat): (r: Float)
    requires n > 0
    ensures r.NaN? <==> a.NaN?
    ensures r.Num? ==> r.v * (n as real) == a.v
  {
    match a
    case Num(x) => Num(x / n as real)
    case NaN => NaN
  }
}
