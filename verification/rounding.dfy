/**
 * Decimal rounding as performed by Python's `round(x, n)`: the value is scaled
 * by 10^n, rounded to the nearest integer with ties going to the even
 * neighbour, and scaled back. The model works on exact reals. The pipeline
 * rounds to 2, 3 or 4 places, so the number of places is bounded by 4.
 */
module Rounding {

  /** A number of decimal places the pipeline rounds to. */
  type Digits = d: nat | d <= 4

  /** 10 raised to `d`. */
  function Scale(d: Digits): (s: real)
    ensures s >= 1.0
  {
    match d
    case 0 => 1.0
    case 1 => 10.0
    case 2 => 100.0
    case 3 => 1000.0
    case _ => 10000.0
  }

  /** The integer nearest to `y`; on an exact tie, the even one. */
  function RoundHalfEven(y: real): (k: int)
    ensures y - 0.5 <= k as real <= y + 0.5
    ensures (k as real == y - 0.5 || k as real == y + 0.5) ==> k % 2 == 0
  {
    var f := y.Floor;
    var frac := y - f as real;
    if frac < 0.5 then f
    else if frac > 0.5 then f + 1
    else if f % 2 == 0 then f
    else f + 1
  }

  /** `x` rounded to `digits` decimal places: it moves by at most half a
      unit in the last kept place. */
  function Round(x: real, digits: Digits): (r: real)
    ensures x - 0.5 / Scale(digits) <= r <= x + 0.5 / Scale(digits)
  {
    RoundHalfEven(x * Scale(digits)) as real / Scale(digits)
  }

  lemma RoundHalfEvenMonotone(x: real, y: real)
    requires x <= y
    ensures RoundHalfEven(x) <= RoundHalfEven(y)
  {
    var fx, fy := x.Floor, y.Floor;
    assert fx <= fy;
    if fx < fy {
      assert RoundHalfEven(x) <= fx + 1 <= fy <= RoundHalfEven(y);
    }
  }

  /** Rounding never reverses the order of two values. */
  lemma RoundMonotone(x: real, y: real, digits: Digits)
    requires x <= y
    ensures Round(x, digits) <= Round(y, digits)
  {
    match digits
    case 0 => RoundHalfEvenMonotone(x * 1.0, y * 1.0);
    case 1 => RoundHalfEvenMonotone(x * 10.0, y * 10.0);
    case 2 => RoundHalfEvenMonotone(x * 100.0, y * 100.0);
    case 3 => RoundHalfEvenMonotone(x * 1000.0, y * 1000.0);
    case 4 => RoundHalfEvenMonotone(x * 10000.0, y * 10000.0);
  }

  /** A value already on the grid of `digits` decimal places is left as it is. */
  lemma RoundOnGrid(k: int, digits: Digits)
    ensures Round(k as real / Scale(digits), digits) == k as real / Scale(digits)
  {
    var s := Scale(digits);
    var x := k as real / s;
    assert x * s == k as real;
    assert (k as real).Floor == k;
    RoundOf(x, digits);
  }

  /** `Round` spelled out, for proofs that need its definition. */
  lemma RoundOf(x: real, digits: Digits)
    ensures Round(x, digits) == RoundHalfEven(x * Scale(digits)) as real / Scale(digits)
  {
  }
}
