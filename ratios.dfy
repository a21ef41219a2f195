/**
 * `part / whole * 100` with Python's true division, as an exact rational:
 * the success percentages and the hundredfold averages of the statistics
 * records and of the prediction handler (their `round(..., 1)` is not
 * modelled).
 */
module Ratios {

  /** `part / whole * 100`. */
  function Percentage(part: int, whole: int): (p: real)
    requires whole != 0
    ensures p * whole as real == part as real * 100.0
    ensures 0 <= part <= whole ==> 0.0 <= p <= 100.0
  {
    var q := part as real / whole as real;
    assert q * whole as real == part as real;
    assert 0 <= part <= whole ==> 0.0 <= q <= 1.0 by {
      if 0 <= part <= whole {
        FractionWithin(part, whole);
      }
    }
    q * 100.0
  }

  /** `a / b` lies in `[0, 1]` when `0 <= a <= b`. */
  lemma FractionWithin(a: int, b: int)
    requires 0 <= a <= b && b != 0
    ensures 0.0 <= a as real / b as real <= 1.0
  {
    var q := a as real / b as real;
    assert q * b as real == a as real;
  }
}
