/** The two finance formulas of the utilities file: the loan installment
    (EMI) and compound future value, over exact reals, with the rounding
    that `toFixed(0)` performs. */
module Helpers {
  import Arith

  /** `x` to a whole power. */
  function Pow(x: real, n: nat): (p: real)
    ensures x > 0.0 ==> p > 0.0
  {
    if n == 0 then 1.0 else x * Pow(x, n - 1)
  }

  // `x` is a parameter rather than the literal 1 so that the lemma applies directly
  // to a term such as `1.0 + i` once `i == 0.0` is known.
  lemma {:induction false} PowOfOne(x: real, n: nat)
    requires x == 1.0
    ensures Pow(x, n) == 1.0
  {
    if n > 0 { PowOfOne(x, n - 1); }
  }

  /** One factor above 1 applied to a power at least 1, over plain variables. */
  lemma AboveOneStep(x: real, q: real, q': real)
    requires x > 1.0 && q >= 1.0 && q' == x * q
    ensures q' > 1.0
  {
    Arith.MulStrictLeft(q, 1.0, x);
  }

  lemma {:induction false} PowAboveOne(x: real, n: nat)
    requires x > 1.0 && n >= 1
    ensures Pow(x, n) > 1.0
  {
    if n > 1 {
      PowAboveOne(x, n - 1);
    }
    AboveOneStep(x, Pow(x, n - 1), Pow(x, n));
  }

  /** A positive power grows when multiplied by a factor above 1, over plain variables. */
  lemma GrowStep(x: real, q: real, q': real)
    requires x > 1.0 && q > 0.0 && q' == x * q
    ensures q < q'
  {
    Arith.MulStrictLeft(q, 1.0, x);
  }

  lemma {:induction false} PowStrictlyIncreasing(x: real, m: nat, n: nat)
    requires x > 1.0 && m < n
    ensures Pow(x, m) < Pow(x, n)
    decreases n
  {
    GrowStep(x, Pow(x, n - 1), Pow(x, n));
    if m < n - 1 {
      PowStrictlyIncreasing(x, m, n - 1);
    }
  }

  /** What `parseFloat(x.toFixed(0))` yields: the nearest integer, halves away from zero. */
  function RoundHalfAwayFromZero(x: real): (k: int)
    ensures x >= 0.0 ==> k as real - 0.5 <= x < k as real + 0.5
    ensures x < 0.0 ==> k as real - 0.5 < x <= k as real + 0.5
  {
    if x >= 0.0 then (x + 0.5).Floor else -((-x + 0.5).Floor)
  }

  /** The bounds above pin the rounded value down. */
  lemma RoundUnique(x: real, k: int)
    requires x >= 0.0 ==> k as real - 0.5 <= x < k as real + 0.5
    requires x < 0.0 ==> k as real - 0.5 < x <= k as real + 0.5
    ensures RoundHalfAwayFromZero(x) == k
  {
  }

  /** Rounding is symmetric about zero. */
  lemma RoundSymmetric(x: real)
    ensures RoundHalfAwayFromZero(-x) == -RoundHalfAwayFromZero(x)
  {
  }

  /** The monthly rate `r / 12 / 100` for an annual percentage `r`. */
  function MonthlyRate(r: real): real { r / 12.0 / 100.0 }

  /** The installment formula divides by `(1 + i)^n - 1`; with exact numbers that is zero
      only when `r == 0` (handled by its own branch) or `1 + i == -1` with `n` even,
      where the source yields an infinite installment. */
  predicate EmiDefined(p: real, r: real, n: nat)
  {
    p == 0.0 || n == 0 || r == 0.0 || Pow(1.0 + MonthlyRate(r), n) != 1.0
  }

  /** The annuity formula `p * i * g / (g - 1)` for a periodic rate `i` and growth factor `g = (1 + i)^n`. */
  function Annuity(p: real, i: real, g: real): real
    requires g != 1.0
  {
    p * i * g / (g - 1.0)
  }

  /** The annuity payment times the denominator is the compounded interest. */
  lemma AnnuityTimesDenominator(p: real, i: real, g: real)
    requires g != 1.0
    ensures Annuity(p, i, g) * (g - 1.0) == p * i * g
  {
    Arith.DivMulCancel(p * i * g, g - 1.0);
  }

  /** The unrounded installment: an even split without interest, else the annuity formula. */
  function Installment(p: real, r: real, n: nat): real
    requires n > 0 && (r == 0.0 || Pow(1.0 + MonthlyRate(r), n) != 1.0)
  {
    if r == 0.0 then p / n as real
    else Annuity(p, MonthlyRate(r), Pow(1.0 + MonthlyRate(r), n))
  }

  /** `calculateEMI(p, r, n)`: 0 without a principal or a term, otherwise the installment
      rounded to a whole currency unit. */
  function CalculateEmi(p: real, r: real, n: nat): (emi: real)
    requires EmiDefined(p, r, n)
    ensures emi == emi.Floor as real
    ensures p == 0.0 || n == 0 ==> emi == 0.0
    ensures p != 0.0 && n > 0 && Installment(p, r, n) >= 0.0 ==>
              emi - 0.5 <= Installment(p, r, n) < emi + 0.5
    ensures p != 0.0 && n > 0 && Installment(p, r, n) < 0.0 ==>
              emi - 0.5 < Installment(p, r, n) <= emi + 0.5
  {
    if p == 0.0 || n == 0 then 0.0
    else RoundHalfAwayFromZero(Installment(p, r, n)) as real
  }

  /** Outstanding balance after `k` months of accruing interest at monthly rate `i`
      and then paying `e`: the amortisation schedule the installment is meant to clear. */
  function Balance(p: real, i: real, e: real, k: nat): real
  {
    if k == 0 then p else Balance(p, i, e, k - 1) * (1.0 + i) - e
  }

  /** `1 + x + ... + x^(k-1)`. */
  function GeomSum(x: real, k: nat): real
  {
    if k == 0 then 0.0 else x * GeomSum(x, k - 1) + 1.0
  }

  // The recursive proofs below hand each inductive step to a lemma over plain
  // variables, passing the function terms themselves as arguments, so that the
  // solver only matches terms where it would otherwise search products.

  lemma GeomBase(x: real, s: real, q: real)
    requires s == 0.0 && q == 1.0
    ensures (x - 1.0) * s == q - 1.0
  {
  }

  lemma GeomStep(x: real, s: real, q: real, s': real, q': real)
    requires (x - 1.0) * s == q - 1.0 && s' == x * s + 1.0 && q' == x * q
    ensures (x - 1.0) * s' == q' - 1.0
  {
    assert (x - 1.0) * (x * s + 1.0) == x * ((x - 1.0) * s) + (x - 1.0);
  }

  lemma {:induction false} GeomSumClosedForm(x: real, k: nat)
    ensures (x - 1.0) * GeomSum(x, k) == Pow(x, k) - 1.0
  {
    if k == 0 {
      GeomBase(x, GeomSum(x, k), Pow(x, k));
    } else {
      GeomSumClosedForm(x, k - 1);
      GeomStep(x, GeomSum(x, k - 1), Pow(x, k - 1), GeomSum(x, k), Pow(x, k));
    }
  }

  /** At ratio 1 the sum of `k` terms is `k` (`x` is a parameter for the reason given at `PowOfOne`). */
  lemma {:induction false} GeomSumOfOne(x: real, k: nat)
    requires x == 1.0
    ensures GeomSum(x, k) == k as real
  {
    if k > 0 { GeomSumOfOne(x, k - 1); }
  }

  lemma GeomBelowBase(x: real, g: real, q: real, m: real, g': real, q': real)
    requires x > 1.0 && g == 0.0 && q == 1.0 && m == 1.0
    requires g' == x * g + 1.0 && q' == x * q
    ensures 1.0 <= g' < m * q'
  {
  }

  lemma GeomBelowStep(x: real, g: real, q: real, m: real, g': real, q': real, m': real)
    requires x > 1.0 && 1.0 <= g < m * q && q' > 1.0
    requires g' == x * g + 1.0 && q' == x * q && m' == m + 1.0
    ensures 1.0 <= g' < m' * q'
  {
    Arith.MulPositive(x, g);
    Arith.MulStrictLeft(x, g, m * q);
    assert x * (m * q) == m * (x * q);
    assert (m + 1.0) * (x * q) == m * (x * q) + x * q;
  }

  /** For `x > 1` every term is below `x^k`, so the sum is below `k * x^k`. */
  lemma {:induction false} GeomSumBelow(x: real, k: nat)
    requires x > 1.0 && k >= 1
    ensures 1.0 <= GeomSum(x, k) < k as real * Pow(x, k)
  {
    if k == 1 {
      GeomBelowBase(x, GeomSum(x, 0), Pow(x, 0), k as real, GeomSum(x, k), Pow(x, k));
    } else {
      GeomSumBelow(x, k - 1);
      PowAboveOne(x, k);
      GeomBelowStep(x, GeomSum(x, k - 1), Pow(x, k - 1), (k - 1) as real,
                    GeomSum(x, k), Pow(x, k), k as real);
    }
  }

  lemma BalanceBase(p: real, e: real, b: real, q: real, s: real)
    requires b == p && q == 1.0 && s == 0.0
    ensures b == p * q - e * s
  {
  }

  /** One month of the balance: `b`, `q`, `s` are the balance, power and sum after
      `k - 1` months and `b'`, `q'`, `s'` those after `k`. */
  lemma BalanceStep(p: real, e: real, x: real, b: real, q: real, s: real, b': real, q': real, s': real)
    requires b == p * q - e * s
    requires b' == b * x - e && q' == x * q && s' == x * s + 1.0
    ensures b' == p * q' - e * s'
  {
    assert (p * q - e * s) * x == p * (x * q) - e * (x * s);
  }

  lemma {:induction false} BalanceClosedForm(p: real, i: real, e: real, k: nat)
    ensures Balance(p, i, e, k) == p * Pow(1.0 + i, k) - e * GeomSum(1.0 + i, k)
  {
    if k == 0 {
      BalanceBase(p, e, Balance(p, i, e, k), Pow(1.0 + i, k), GeomSum(1.0 + i, k));
    } else {
      BalanceClosedForm(p, i, e, k - 1);
      BalanceStep(p, e, 1.0 + i,
                  Balance(p, i, e, k - 1), Pow(1.0 + i, k - 1), GeomSum(1.0 + i, k - 1),
                  Balance(p, i, e, k), Pow(1.0 + i, k), GeomSum(1.0 + i, k));
    }
  }

  /** Without interest: `n` payments of `p / n` clear the principal. */
  lemma ZeroRateClears(p: real, m: real, e: real, b: real, q: real, s: real)
    requires m != 0.0 && e == p / m && b == p * q - e * s && q == 1.0 && s == m
    ensures b == 0.0
  {
    Arith.DivMulCancel(p, m);
  }

  /** With interest: with `(x - 1) * s == g - 1`, paying the annuity `e` for `s`
      compounded months clears the compounded principal `p * g`. */
  lemma RateClears(p: real, i: real, x: real, g: real, s: real, e: real, b: real)
    requires x == 1.0 + i && i != 0.0 && g != 1.0
    requires (x - 1.0) * s == g - 1.0 && e == Annuity(p, i, g) && b == p * g - e * s
    ensures b == 0.0
  {
    AnnuityTimesDenominator(p, i, g);
    var d := g - 1.0;
    assert i * s == d;
    assert (e * s) * i == e * (i * s);
    assert (p * g) * i == p * i * g;
    Arith.MulCancel(e * s, p * g, i);
  }

  /** At a zero periodic rate, `n` equal payments of `p / n` clear the principal. */
  lemma ZeroRateAmortizes(p: real, i: real, e: real, n: nat)
    requires n > 0 && i == 0.0 && e == p / n as real
    ensures Balance(p, i, e, n) == 0.0
  {
    BalanceClosedForm(p, i, e, n);
    PowOfOne(1.0 + i, n);
    GeomSumOfOne(1.0 + i, n);
    ZeroRateClears(p, n as real, e, Balance(p, i, e, n), Pow(1.0 + i, n), GeomSum(1.0 + i, n));
  }

  /** At a non-zero periodic rate, `n` annuity payments clear the principal. */
  lemma RateAmortizes(p: real, i: real, e: real, n: nat)
    requires i != 0.0 && Pow(1.0 + i, n) != 1.0 && e == Annuity(p, i, Pow(1.0 + i, n))
    ensures Balance(p, i, e, n) == 0.0
  {
    BalanceClosedForm(p, i, e, n);
    GeomSumClosedForm(1.0 + i, n);
    RateClears(p, i, 1.0 + i, Pow(1.0 + i, n), GeomSum(1.0 + i, n), e, Balance(p, i, e, n));
  }

  /** Paying the unrounded installment every month clears the loan after exactly `n` months. */
  lemma InstallmentAmortizes(p: real, r: real, n: nat)
    requires n > 0 && (r == 0.0 || Pow(1.0 + MonthlyRate(r), n) != 1.0)
    ensures Balance(p, MonthlyRate(r), Installment(p, r, n), n) == 0.0
  {
    if r == 0.0 {
      ZeroRateAmortizes(p, MonthlyRate(r), Installment(p, r, n), n);
    } else {
      RateAmortizes(p, MonthlyRate(r), Installment(p, r, n), n);
    }
  }

  lemma FirstPower(y: real, q0: real, g: real)
    requires q0 == 1.0 && g == y * q0
    ensures g == y
  {
  }

  /** The annuity over a single period is the principal plus that period's interest. */
  lemma SinglePeriodAnnuity(p: real, r: real, i: real, g: real)
    requires i == r / 12.0 / 100.0 && i != 0.0 && g == 1.0 + i
    ensures Annuity(p, i, g) == p * (1.0 + r / 1200.0)
  {
    AnnuityTimesDenominator(p, i, g);
    assert g - 1.0 == i;
    assert (p * g) * i == p * i * g;
    Arith.MulCancel(Annuity(p, i, g), p * g, i);
  }

  /** For a single month the installment is the principal plus one month's interest. */
  lemma SingleMonthInstallment(p: real, r: real)
    requires r != 0.0
    ensures Pow(1.0 + MonthlyRate(r), 1) != 1.0
    ensures Installment(p, r, 1) == p * (1.0 + r / 1200.0)
  {
    FirstPower(1.0 + MonthlyRate(r), Pow(1.0 + MonthlyRate(r), 0), Pow(1.0 + MonthlyRate(r), 1));
    SinglePeriodAnnuity(p, r, MonthlyRate(r), Pow(1.0 + MonthlyRate(r), 1));
  }

  /** Every non-negative rate gives a finite installment. */
  lemma EmiDefinedForNonnegativeRate(p: real, r: real, n: nat)
    requires r >= 0.0
    ensures EmiDefined(p, r, n)
  {
    if r > 0.0 && n > 0 { PowAboveOne(1.0 + MonthlyRate(r), n); }
  }

  /** With a positive rate the annuity is positive. */
  lemma AnnuityPositive(p: real, i: real, g: real)
    requires p > 0.0 && i > 0.0 && g > 1.0
    ensures Annuity(p, i, g) > 0.0
  {
    Arith.MulPositive(p, i);
    Arith.MulPositive(p * i, g);
    Arith.DivPositive(p * i * g, g - 1.0);
  }

  lemma AnnuityNonnegative(p: real, i: real, g: real)
    requires p >= 0.0 && i >= 0.0 && g > 1.0
    ensures Annuity(p, i, g) >= 0.0
  {
    Arith.MulNonnegative(p, i);
    Arith.MulNonnegative(p * i, g);
    Arith.DivNonnegative(p * i * g, g - 1.0);
  }

  /** Payments `e` over `s < m * g` compounded months that clear `p * g` add up to more than `p`. */
  lemma TotalExceeds(p: real, g: real, s: real, e: real, m: real)
    requires e > 0.0 && g > 0.0 && s < m * g && e * s == p * g
    ensures m * e > p
  {
    Arith.MulStrictLeft(e, s, m * g);
    assert e * (m * g) == (m * e) * g;
    Arith.MulLessCancel(p, m * e, g);
  }

  /** With a positive rate, the installments paid over the term exceed the principal. */
  lemma InterestMakesTotalExceedPrincipal(p: real, r: real, n: nat)
    requires p > 0.0 && r > 0.0 && n > 0
    ensures EmiDefined(p, r, n)
    ensures n as real * Installment(p, r, n) > p
  {
    EmiDefinedForNonnegativeRate(p, r, n);
    PowAboveOne(1.0 + MonthlyRate(r), n);
    GeomSumBelow(1.0 + MonthlyRate(r), n);
    InstallmentAmortizes(p, r, n);
    BalanceClosedForm(p, MonthlyRate(r), Installment(p, r, n), n);
    AnnuityPositive(p, MonthlyRate(r), Pow(1.0 + MonthlyRate(r), n));
    TotalExceeds(p, Pow(1.0 + MonthlyRate(r), n), GeomSum(1.0 + MonthlyRate(r), n),
                 Installment(p, r, n), n as real);
  }

  lemma ZeroRateTotal(p: real, m: real, e: real)
    requires m != 0.0 && e == p / m
    ensures m * e == p
  {
    Arith.DivMulCancel(p, m);
  }

  /** Without interest the installments add up to the principal exactly. */
  lemma NoInterestTotalIsPrincipal(p: real, n: nat)
    requires n > 0
    ensures n as real * Installment(p, 0.0, n) == p
  {
    ZeroRateTotal(p, n as real, Installment(p, 0.0, n));
  }

  /** A non-negative principal at a non-negative rate gives a non-negative EMI. */
  lemma EmiNonnegative(p: real, r: real, n: nat)
    requires p >= 0.0 && r >= 0.0
    ensures EmiDefined(p, r, n)
    ensures CalculateEmi(p, r, n) >= 0.0
  {
    EmiDefinedForNonnegativeRate(p, r, n);
    if p != 0.0 && n > 0 {
      if r == 0.0 {
        Arith.DivNonnegative(p, n as real);
      } else {
        PowAboveOne(1.0 + MonthlyRate(r), n);
        AnnuityNonnegative(p, MonthlyRate(r), Pow(1.0 + MonthlyRate(r), n));
      }
      assert Installment(p, r, n) >= 0.0;
    }
  }

  // A higher rate gives a higher installment. The installment times the geometric sum
  // is the compounded principal, and the ratio of the sum to the power falls as the
  // base grows.

  /** Two ordered positive factors applied to two ordered positive powers, over plain variables. */
  lemma BaseStep(x1: real, x2: real, q1: real, q2: real, q1': real, q2': real)
    requires 0.0 < x1 <= x2 && 0.0 < q1 <= q2 && q1' == x1 * q1 && q2' == x2 * q2
    ensures q1' <= q2'
  {
    Arith.MulLeLeft(q1, x1, x2);
    Arith.MulLeLeft(x2, q1, q2);
  }

  /** A larger positive base gives a power at least as large. */
  lemma {:induction false} PowBaseMonotone(x1: real, x2: real, n: nat)
    requires 0.0 < x1 <= x2
    ensures Pow(x1, n) <= Pow(x2, n)
  {
    if n > 0 {
      PowBaseMonotone(x1, x2, n - 1);
      BaseStep(x1, x2, Pow(x1, n - 1), Pow(x2, n - 1), Pow(x1, n), Pow(x2, n));
    }
  }

  lemma GeomPositiveStep(x: real, g: real, g': real)
    requires x >= 0.0 && g >= 0.0 && g' == x * g + 1.0
    ensures g' >= 1.0
  {
    Arith.MulNonnegative(x, g);
  }

  /** With a non-negative ratio the sum of at least one term is at least 1. */
  lemma {:induction false} GeomSumAtLeastOne(x: real, k: nat)
    requires x >= 0.0
    ensures GeomSum(x, k) >= 0.0
    ensures k >= 1 ==> GeomSum(x, k) >= 1.0
  {
    if k > 0 {
      GeomSumAtLeastOne(x, k - 1);
      GeomPositiveStep(x, GeomSum(x, k - 1), GeomSum(x, k));
    }
  }

  /** One more term in the cross-multiplied comparison, over plain variables: `a`, `q` are the
      sum and power of `k - 1` terms and `g`, `p` those of `k` terms, for the bases `x1 < x2`. */
  lemma CrossStep(x1: real, x2: real, a1: real, a2: real, q1: real, q2: real,
                  g1: real, g2: real, p1: real, p2: real)
    requires 0.0 < x1 < x2 && 0.0 < q1 <= q2 && a2 * q1 < a1 * q2
    requires g1 == x1 * a1 + 1.0 && g2 == x2 * a2 + 1.0 && p1 == x1 * q1 && p2 == x2 * q2
    ensures g2 * p1 < g1 * p2
  {
    var c := x1 * x2;
    Arith.MulPositive(x1, x2);
    Arith.MulStrictLeft(c, a2 * q1, a1 * q2);
    Arith.MulStrictRight(q1, x1, x2);
    Arith.MulLeLeft(x2, q1, q2);
    Arith.AddLess(c * (a2 * q1), c * (a1 * q2), x1 * q1, x2 * q1, x2 * q2);
    var lo, hi := c * (a2 * q1) + x1 * q1, c * (a1 * q2) + x2 * q2;
    assert g2 * p1 == lo;
    assert g1 * p2 == hi;
  }

  /** For `0 < x1 < x2` the sum over the power is smaller at `x2`: `s2 / q2 < s1 / q1`, cross-multiplied. */
  lemma {:induction false} GeomOverPowDecreasing(x1: real, x2: real, k: nat)
    requires 0.0 < x1 < x2 && k >= 1
    ensures GeomSum(x2, k) * Pow(x1, k) < GeomSum(x1, k) * Pow(x2, k)
  {
    if k == 1 {
      FirstPower(x1, Pow(x1, 0), Pow(x1, 1));
      FirstPower(x2, Pow(x2, 0), Pow(x2, 1));
    } else {
      GeomOverPowDecreasing(x1, x2, k - 1);
      PowBaseMonotone(x1, x2, k - 1);
      CrossStep(x1, x2, GeomSum(x1, k - 1), GeomSum(x2, k - 1), Pow(x1, k - 1), Pow(x2, k - 1),
                GeomSum(x1, k), GeomSum(x2, k), Pow(x1, k), Pow(x2, k));
    }
  }

  lemma ZeroRateRatio(p: real, m: real, e: real, q: real, s: real)
    requires m != 0.0 && e == p / m && q == 1.0 && s == m
    ensures e * s == p * q
  {
    Arith.DivMulCancel(p, m);
  }

  lemma RateRatio(p: real, i: real, x: real, g: real, s: real, e: real)
    requires x == 1.0 + i && i != 0.0 && g != 1.0
    requires (x - 1.0) * s == g - 1.0 && e == Annuity(p, i, g)
    ensures e * s == p * g
  {
    AnnuityTimesDenominator(p, i, g);
    assert i * s == g - 1.0;
    assert (e * s) * i == e * (i * s);
    assert (p * g) * i == p * i * g;
    Arith.MulCancel(e * s, p * g, i);
  }

  lemma ZeroRateTimesGeomSum(p: real, i: real, e: real, n: nat)
    requires n > 0 && i == 0.0 && e == p / n as real
    ensures e * GeomSum(1.0 + i, n) == p * Pow(1.0 + i, n)
  {
    PowOfOne(1.0 + i, n);
    GeomSumOfOne(1.0 + i, n);
    ZeroRateRatio(p, n as real, e, Pow(1.0 + i, n), GeomSum(1.0 + i, n));
  }

  lemma RateTimesGeomSum(p: real, i: real, e: real, n: nat)
    requires i != 0.0 && Pow(1.0 + i, n) != 1.0 && e == Annuity(p, i, Pow(1.0 + i, n))
    ensures e * GeomSum(1.0 + i, n) == p * Pow(1.0 + i, n)
  {
    GeomSumClosedForm(1.0 + i, n);
    RateRatio(p, i, 1.0 + i, Pow(1.0 + i, n), GeomSum(1.0 + i, n), e);
  }

  /** The installment times `1 + x + ... + x^(n-1)` is the principal compounded over the
      term, `x = 1 + i`: `n` payments, each compounded to the end of the term, buy the loan. */
  lemma InstallmentTimesGeomSum(p: real, r: real, n: nat)
    requires n > 0 && (r == 0.0 || Pow(1.0 + MonthlyRate(r), n) != 1.0)
    ensures Installment(p, r, n) * GeomSum(1.0 + MonthlyRate(r), n) == p * Pow(1.0 + MonthlyRate(r), n)
  {
    if r == 0.0 {
      ZeroRateTimesGeomSum(p, MonthlyRate(r), Installment(p, r, n), n);
    } else {
      RateTimesGeomSum(p, MonthlyRate(r), Installment(p, r, n), n);
    }
  }

  /** Two ratios `e = p * q / s` compare as their cross products do, over plain variables. */
  lemma RatioStep(p: real, e1: real, e2: real, s1: real, s2: real, q1: real, q2: real)
    requires p > 0.0 && s1 > 0.0 && s2 > 0.0
    requires e1 * s1 == p * q1 && e2 * s2 == p * q2 && s2 * q1 < s1 * q2
    ensures e1 < e2
  {
    Arith.MulPositive(s1, s2);
    Arith.MulStrictLeft(p, s2 * q1, s1 * q2);
    assert e1 * (s1 * s2) == (p * q1) * s2;
    assert e2 * (s1 * s2) == (p * q2) * s1;
    assert (p * q1) * s2 == p * (s2 * q1);
    assert (p * q2) * s1 == p * (s1 * q2);
    Arith.MulLessCancel(e1, e2, s1 * s2);
  }

  /** For a fixed principal and term, a higher non-negative rate gives a strictly higher installment. */
  lemma InstallmentIncreasesWithRate(p: real, r1: real, r2: real, n: nat)
    requires p > 0.0 && 0.0 <= r1 < r2 && n > 0
    ensures EmiDefined(p, r1, n) && EmiDefined(p, r2, n)
    ensures Installment(p, r1, n) < Installment(p, r2, n)
  {
    EmiDefinedForNonnegativeRate(p, r1, n);
    EmiDefinedForNonnegativeRate(p, r2, n);
    InstallmentTimesGeomSum(p, r1, n);
    InstallmentTimesGeomSum(p, r2, n);
    GeomSumAtLeastOne(1.0 + MonthlyRate(r1), n);
    GeomSumAtLeastOne(1.0 + MonthlyRate(r2), n);
    GeomOverPowDecreasing(1.0 + MonthlyRate(r1), 1.0 + MonthlyRate(r2), n);
    RatioStep(p, Installment(p, r1, n), Installment(p, r2, n),
              GeomSum(1.0 + MonthlyRate(r1), n), GeomSum(1.0 + MonthlyRate(r2), n),
              Pow(1.0 + MonthlyRate(r1), n), Pow(1.0 + MonthlyRate(r2), n));
  }

  /** Whatever its sign, the installment lies within one half of the EMI. */
  lemma EmiNearInstallment(p: real, r: real, n: nat)
    requires EmiDefined(p, r, n) && p != 0.0 && n > 0
    ensures CalculateEmi(p, r, n) - 0.5 <= Installment(p, r, n) <= CalculateEmi(p, r, n) + 0.5
  {
  }

  lemma WholeOrder(k1: int, k2: int, v1: real, v2: real)
    requires k1 as real - 0.5 <= v1 && v2 <= k2 as real + 0.5 && v1 < v2
    ensures k1 <= k2
  {
    assert (k1 as real) < (k2 as real) + 1.0;
  }

  /** Whole amounts within one half of two ordered values keep their order, over plain variables. */
  lemma RoundedOrder(e1: real, e2: real, v1: real, v2: real)
    requires e1 == e1.Floor as real && e2 == e2.Floor as real
    requires e1 - 0.5 <= v1 && v2 <= e2 + 0.5 && v1 < v2
    ensures e1 <= e2
  {
    WholeOrder(e1.Floor, e2.Floor, v1, v2);
  }

  /** After rounding, a higher non-negative rate never gives a lower EMI. */
  lemma EmiIncreasesWithRate(p: real, r1: real, r2: real, n: nat)
    requires p > 0.0 && 0.0 <= r1 < r2
    ensures EmiDefined(p, r1, n) && EmiDefined(p, r2, n)
    ensures CalculateEmi(p, r1, n) <= CalculateEmi(p, r2, n)
  {
    EmiDefinedForNonnegativeRate(p, r1, n);
    EmiDefinedForNonnegativeRate(p, r2, n);
    if n > 0 {
      InstallmentIncreasesWithRate(p, r1, r2, n);
      EmiNearInstallment(p, r1, n);
      EmiNearInstallment(p, r2, n);
      RoundedOrder(CalculateEmi(p, r1, n), CalculateEmi(p, r2, n), Installment(p, r1, n), Installment(p, r2, n));
    }
  }

  /** `principal * (1 + rate/100)^years`, unrounded. */
  function Growth(principal: real, rate: real, years: nat): real
  {
    principal * Pow(1.0 + rate / 100.0, years)
  }

  /** `calculateFutureValue(principal, rate = 12, years = 10)`: 0 without a principal,
      otherwise the compounded amount rounded to a whole currency unit. */
  function CalculateFutureValue(principal: real, rate: real := 12.0, years: nat := 10): (fv: real)
    ensures fv == fv.Floor as real
    ensures principal == 0.0 ==> fv == 0.0
    ensures Growth(principal, rate, years) >= 0.0 ==>
              fv - 0.5 <= Growth(principal, rate, years) < fv + 0.5
    ensures Growth(principal, rate, years) < 0.0 ==>
              fv - 0.5 < Growth(principal, rate, years) <= fv + 0.5
  {
    if principal == 0.0 then 0.0
    else RoundHalfAwayFromZero(Growth(principal, rate, years)) as real
  }

  /** The growth is that of a deposit compounding yearly with nothing withdrawn. */
  lemma GrowthIsYearlyCompounding(principal: real, rate: real, years: nat)
    ensures Growth(principal, rate, years) == Balance(principal, rate / 100.0, 0.0, years)
  {
    BalanceClosedForm(principal, rate / 100.0, 0.0, years);
  }

  /** A zero-year projection is the principal, rounded. */
  lemma FutureValueOfZeroYears(principal: real, rate: real)
    ensures CalculateFutureValue(principal, rate, 0) == RoundHalfAwayFromZero(principal) as real
  {
  }

  /** Scaling two ordered powers by a positive principal keeps their order, over plain variables. */
  lemma ScaledStep(c: real, a: real, b: real, ga: real, gb: real)
    requires c > 0.0 && a < b && ga == c * a && gb == c * b
    ensures ga < gb
  {
    Arith.MulStrictLeft(c, a, b);
  }

  /** With a positive principal and rate, every extra year strictly increases the value. */
  lemma GrowthStrictlyIncreasing(principal: real, rate: real, y1: nat, y2: nat)
    requires principal > 0.0 && rate > 0.0 && y1 < y2
    ensures Growth(principal, rate, y1) < Growth(principal, rate, y2)
  {
    PowStrictlyIncreasing(1.0 + rate / 100.0, y1, y2);
    ScaledStep(principal, Pow(1.0 + rate / 100.0, y1), Pow(1.0 + rate / 100.0, y2),
               Growth(principal, rate, y1), Growth(principal, rate, y2));
  }
}
