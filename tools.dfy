/** The report's two arithmetic helpers, both total: a zero divisor gives zero. */
module Tools {

  /** `part` as a percentage of `whole`, or 0 when `whole` is 0. */
  function Percent(part: real, whole: real): (r: real)
    ensures whole == 0.0 ==> r == 0.0
    ensures whole != 0.0 ==> r * whole == part * 100.0
    ensures 0.0 <= part <= whole ==> 0.0 <= r <= 100.0
  {
    if whole == 0.0 then 0.0 else (part / whole) * 100.0
  }

  /** `a / b`, or 0 when `b` is 0. */
  function SafeDivide(a: real, b: real): (r: real)
    ensures b == 0.0 ==> r == 0.0
    ensures b != 0.0 ==> r * b == a
    ensures 0.0 <= a && 0.0 < b ==> 0.0 <= r
  {
    if b == 0.0 then 0.0 else a / b
  }
}
