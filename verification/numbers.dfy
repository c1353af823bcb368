/** The small pieces of JavaScript `Math` the game relies on, over
    mathematical reals (IEEE-754 rounding is not modelled). */
module Numbers {

  /** `Math.pow(b, n)` for a natural exponent. */
  function Pow(b: real, n: nat): real {
    if n == 0 then 1.0 else b * Pow(b, n - 1)
  }

  /** `Math.min(a, b)`. */
  function Min(a: real, b: real): real {
    if a < b then a else b
  }

  /** `Math.max(a, b)`. */
  function Max(a: real, b: real): real {
    if a < b then b else a
  }

  /** A base of at least one never raises to something below one. */
  lemma {:induction false} PowAtLeastOne(b: real, n: nat)
    requires b >= 1.0
    ensures Pow(b, n) >= 1.0
  {
    if n > 0 {
      PowAtLeastOne(b, n - 1);
    }
  }

  /** A base of at least one gives powers that grow with the exponent. */
  lemma PowGrows(b: real, n: nat)
    requires b >= 1.0
    ensures Pow(b, n) <= Pow(b, n + 1)
  {
    PowAtLeastOne(b, n);
    assert Pow(b, n + 1) == b * Pow(b, n);
  }

  /** Scaling by a non-negative factor keeps order. */
  lemma ScaleMonotone(b: real, x: real, y: real)
    requires b >= 0.0 && x <= y
    ensures b * x <= b * y
  {
    assert b * y - b * x == b * (y - x);
  }

  /** Rounding down keeps order. */
  lemma FloorMonotone(x: real, y: real)
    requires x <= y
    ensures x.Floor <= y.Floor
  {
  }

  /** Scaling by a non-negative factor, then rounding down, keeps order. */
  lemma ScaleFloorMonotone(b: real, x: real, y: real)
    requires b >= 0.0 && x <= y
    ensures (b * x).Floor <= (b * y).Floor
  {
    ScaleMonotone(b, x, y);
    FloorMonotone(b * x, b * y);
  }

  /** The product of two non-negative numbers is non-negative. */
  lemma ProductNonNegative(a: real, b: real)
    ensures a >= 0.0 && b >= 0.0 ==> a * b >= 0.0
  {
    if a >= 0.0 && b >= 0.0 {
      ScaleMonotone(a, 0.0, b);
    }
  }
}
