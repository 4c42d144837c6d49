/**
 * Rounding of money amounts. Amounts are exact reals: the floating-point
 * artefacts of JavaScript numbers are not modelled.
 */
module Money {

  /** JavaScript's Math.round: the nearest integer, halves rounded up (towards +infinity). */
  function RoundHalfUp(x: real): (r: int)
    ensures x - 0.5 < r as real <= x + 0.5
  {
    (x + 0.5).Floor
  }

  /** |a - b| for reals, as JavaScript's Math.abs(a - b). */
  function Abs(x: real): (r: real)
    ensures r >= 0.0 && (r == x || r == -x)
  {
    if x < 0.0 then -x else x
  }
}
