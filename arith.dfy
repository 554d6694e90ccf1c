/** Small facts of real arithmetic, stated over plain variables so that the
    lemmas about the finance formulas never ask the solver for nonlinear search. */
module Arith {

  lemma MulPositive(a: real, b: real)
    requires a > 0.0 && b > 0.0
    ensures a * b > 0.0
  {
  }

  lemma MulNonnegative(a: real, b: real)
    requires a >= 0.0 && b >= 0.0
    ensures a * b >= 0.0
  {
  }

  /** A positive factor keeps a strict order. */
  lemma MulStrictLeft(a: real, b: real, c: real)
    requires a > 0.0 && b < c
    ensures a * b < a * c
  {
    MulPositive(a, c - b);
    assert a * c - a * b == a * (c - b);
  }

  lemma MulStrictRight(a: real, b: real, c: real)
    requires a > 0.0 && b < c
    ensures b * a < c * a
  {
    MulStrictLeft(a, b, c);
  }

  /** Strict and non-strict orders add up, with at least one strict. */
  lemma AddLess(a: real, b: real, c: real, d: real, e: real)
    requires a < b && c < d && d <= e
    ensures a + c < b + e
  {
  }

  /** A non-negative factor keeps an order. */
  lemma MulLeLeft(a: real, b: real, c: real)
    requires a >= 0.0 && b <= c
    ensures a * b <= a * c
  {
    MulNonnegative(a, c - b);
    assert a * c - a * b == a * (c - b);
  }

  /** A non-zero common factor cancels. */
  lemma MulCancel(a: real, b: real, d: real)
    requires d != 0.0 && a * d == b * d
    ensures a == b
  {
    assert (a - b) * d == 0.0;
  }

  /** A positive common factor cancels from a strict order. */
  lemma MulLessCancel(a: real, b: real, c: real)
    requires c > 0.0 && a * c < b * c
    ensures a < b
  {
    assert a * c - b * c == (a - b) * c;
    if a >= b {
      MulNonnegative(a - b, c);
    }
  }

  lemma DivMulCancel(a: real, d: real)
    requires d != 0.0
    ensures (a / d) * d == a
  {
  }

  lemma DivNonnegative(a: real, d: real)
    requires a >= 0.0 && d > 0.0
    ensures a / d >= 0.0
  {
  }

  lemma DivPositive(a: real, d: real)
    requires a > 0.0 && d > 0.0
    ensures a / d > 0.0
  {
  }
}
