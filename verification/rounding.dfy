/**
 * Rounding to the cent, `Math.round(x * 100) / 100`, shared by the older
 * calculators. `Math.round` rounds half up (towards +infinity), which on
 * reals is the floor of `100x + 1/2`.
 */
module Rounding {
  /** The whole number of cents that `x` rounds to. */
  function Cents(x: real): (k: int)
    ensures (k as real) - 0.5 <= 100.0 * x < (k as real) + 0.5
  {
    (100.0 * x + 0.5).Floor
  }

  /**
   * `Math.round(x * 100) / 100`: a whole number of cents in the half-open
   * window `(x - 0.005, x + 0.005]`, which holds exactly one such number, so
   * the two clauses together fix the result (a half cent rounds up).
   */
  function RoundToCents(x: real): (r: real)
    ensures (100.0 * r).Floor as real == 100.0 * r
    ensures x - 0.005 < r <= x + 0.005
  {
    (Cents(x) as real) / 100.0
  }

  /** Any whole number of cents in the rounding window of `x` is the rounded value. */
  lemma RoundingWindowUnique(x: real, k: int)
    requires x - 0.005 < (k as real) / 100.0 <= x + 0.005
    ensures RoundToCents(x) == (k as real) / 100.0
  {
    var c := Cents(x);
    assert (k as real) == 100.0 * ((k as real) / 100.0);
    assert (k as real) - 0.5 <= 100.0 * x < (k as real) + 0.5;
    assert (c - k) as real < 1.0 && (k - c) as real < 1.0;
  }

  /** A whole number of cents is left alone. */
  lemma RoundWholeCents(k: int)
    ensures Cents((k as real) / 100.0) == k
    ensures RoundToCents((k as real) / 100.0) == (k as real) / 100.0
  {
  }

  /** Rounding twice is rounding once. */
  lemma RoundIdempotent(x: real)
    ensures RoundToCents(RoundToCents(x)) == RoundToCents(x)
  {
    RoundWholeCents(Cents(x));
  }

  /** Rounding never reverses the order of two amounts. */
  lemma RoundMonotone(x: real, y: real)
    requires x <= y
    ensures RoundToCents(x) <= RoundToCents(y)
  {
    var a, b := Cents(x), Cents(y);
    assert (a as real) - 0.5 <= 100.0 * x <= 100.0 * y < (b as real) + 0.5;
    assert a < b + 1;
  }

  /** Zero rounds to zero, and rounding keeps the sign of a non-negative amount. */
  lemma RoundNonNegative(x: real)
    requires x >= 0.0
    ensures RoundToCents(x) >= 0.0
    ensures RoundToCents(0.0) == 0.0
  {
  }

  /** `y` is within `eps` of `x`. */
  predicate Near(x: real, y: real, eps: real)
  {
    x - eps <= y <= x + eps
  }
}
