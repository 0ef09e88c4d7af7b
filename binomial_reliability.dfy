/**
 * Binomial reliability (engpy/binomial_reliability.py).
 *
 * A pass/fail test of n units, of which at most f may fail, demonstrates a
 * reliability R with confidence C = 1 - P(at most f failures | reliability R).
 * Probabilities are real numbers; floating-point rounding is not modelled.
 */
module BinomialReliability {

  datatype ReliabilityError =
    | OutOfRange   // "All input values must be between 0 and 1 exclusive"

  datatype Result<T> = Ok(value: T) | Err(error: ReliabilityError)

  /* ---------------------------------------------------------------------- */
  /* Arithmetic on plain reals, kept apart so that each fact is proved in a  */
  /* small context.                                                          */

  /** c x.  Facts about powers are stated with Scale and Mix rather than `*`,
      so that the solver matches them by name instead of by nonlinear arithmetic. */
  function Scale(c: real, x: real): real
  {
    c * x
  }

  /** The weighted combination q a + p b. */
  function Mix(q: real, a: real, p: real, b: real): real
  {
    q * a + p * b
  }

  lemma MulNonNegative(a: real, b: real)
    requires 0.0 <= a && 0.0 <= b
    ensures 0.0 <= a * b
  {
  }

  lemma MulLe(a: real, b: real, c: real)
    requires a <= b && 0.0 <= c
    ensures a * c <= b * c
  {
    MulNonNegative(b - a, c);
  }

  lemma MulNonZero(a: real, b: real)
    requires a != 0.0 && b != 0.0
    ensures a * b != 0.0
  {
  }

  /** One step of Bernoulli's inequality. */
  lemma BernoulliAlgebra(R: real, d: real, p: real, kr: real, km1: real)
    requires 0.0 < R < 1.0 && R * d == 1.0 - R
    requires 0.0 <= p <= 1.0 && km1 == kr - 1.0
    requires p * (1.0 + km1 * d) <= 1.0
    ensures (R * p) * (1.0 + kr * d) <= 1.0
  {
    var s := p * (1.0 + km1 * d);
    calc {
      (R * p) * (1.0 + kr * d);
      (R * p) * (1.0 + km1 * d + d);
      R * s + (R * d) * p;
      R * s + (1.0 - R) * p;
    }
    MulLe(s, 1.0, R);
    MulLe(p, 1.0, 1.0 - R);
  }

  lemma Reciprocal(R: real)
    requires 0.0 < R < 1.0
    ensures R * (1.0 / R - 1.0) == 1.0 - R
    ensures 1.0 / R - 1.0 > 0.0
  {
  }

  /** If p > t > 0 and p (1 + kr d) <= 1 with d > 0, then kr < (1/t - 1) / d. */
  lemma BoundAlgebra(t: real, p: real, kr: real, d: real)
    requires 0.0 < t < p && d > 0.0 && kr >= 0.0
    requires p * (1.0 + kr * d) <= 1.0
    ensures kr < (1.0 / t - 1.0) / d
  {
    var x := 1.0 + kr * d;
    MulNonNegative(kr, d);
    assert t * x < p * x by {
      assert (p - t) * x > 0.0;
    }
    assert x < 1.0 / t by {
      assert t * (1.0 / t) == 1.0;
    }
    var b := (1.0 / t - 1.0) / d;
    assert b * d == 1.0 / t - 1.0;
    if kr >= b {
      MulLe(b, kr, d);
    }
  }

  /* ---------------------------------------------------------------------- */
  /* Powers and binomial coefficients                                       */

  /** x to a natural power. */
  function Pow(x: real, e: nat): real
  {
    if e == 0 then 1.0 else x * Pow(x, e - 1)
  }

  lemma PowStep(x: real, e: nat, d: nat)
    requires e == d + 1
    ensures Pow(x, e) == Scale(x, Pow(x, d))
  {
  }

  lemma {:induction false} PowNonNegative(x: real, e: nat)
    requires 0.0 <= x
    ensures 0.0 <= Pow(x, e)
  {
    if e > 0 {
      PowNonNegative(x, e - 1);
      MulNonNegative(x, Pow(x, e - 1));
    }
  }

  lemma {:induction false} PowNonZero(x: real, e: nat)
    requires x != 0.0
    ensures Pow(x, e) != 0.0
  {
    if e > 0 {
      PowNonZero(x, e - 1);
      MulNonZero(x, Pow(x, e - 1));
    }
  }

  lemma {:induction false} PowOne(e: nat)
    ensures Pow(1.0, e) == 1.0
  {
    if e > 0 {
      PowOne(e - 1);
    }
  }

  /** Powers of a number in [0, 1] do not grow with the exponent. */
  lemma {:induction false} PowAntitone(x: real, m: nat, k: nat)
    requires 0.0 <= x <= 1.0
    requires m <= k
    ensures Pow(x, k) <= Pow(x, m)
  {
    if m < k {
      PowAntitone(x, m, k - 1);
      PowNonNegative(x, k - 1);
      MulLe(x, 1.0, Pow(x, k - 1));
    }
  }

  /** Python's `x ** e` for a float base and an integer exponent; a negative
      power of zero raises ZeroDivisionError, hence the precondition. */
  function IntPow(x: real, e: int): real
    requires e >= 0 || x != 0.0
  {
    if e >= 0 then Pow(x, e)
    else
      PowNonZero(x, -e);
      1.0 / Pow(x, -e)
  }

  /** The binomial coefficient "n choose k" (as a float, like scipy's comb) by
      Pascal's rule; zero when k > n. */
  function Comb(n: nat, k: nat): (c: real)
    ensures 0.0 <= c
    ensures k > n ==> c == 0.0
    ensures k == n ==> c == 1.0
  {
    if k == 0 then 1.0
    else if n == 0 then 0.0
    else Comb(n - 1, k - 1) + Comb(n - 1, k)
  }

  /* ---------------------------------------------------------------------- */
  /* Confidence level                                                        */

  /** The probability of exactly i failures among n trials, as engpy's `confidence_level` writes it:
      comb(n, i) * (1 - R)**i * R**(n - i). */
  function Term(n: nat, i: nat, R: real): real
    requires i <= n || R != 0.0
  {
    Comb(n, i) * Pow(1.0 - R, i) * IntPow(R, n - i)
  }

  lemma TermNonNegative(n: nat, i: nat, R: real)
    requires 0.0 <= R <= 1.0
    requires i <= n || R != 0.0
    ensures 0.0 <= Term(n, i, R)
  {
    if i <= n {
      PowNonNegative(1.0 - R, i);
      PowNonNegative(R, n - i);
      MulNonNegative(Comb(n, i), Pow(1.0 - R, i));
      MulNonNegative(Comb(n, i) * Pow(1.0 - R, i), Pow(R, n - i));
    }
  }

  /** The sum of Term(n, i, R) over i in range(0, count). */
  function FailureSum(n: nat, count: nat, R: real): real
    requires count <= n + 1 || R != 0.0
  {
    if count == 0 then 0.0 else FailureSum(n, count - 1, R) + Term(n, count - 1, R)
  }

  /** Number of summands of range(0, failures + 1). */
  function SummandCount(failures: int): nat
  {
    if failures >= 0 then failures + 1 else 0
  }

  /** Confidence that the reliability is at least R after n trials with at most
      `failures` failures.  A failure count above n with R == 0 raises
      ZeroDivisionError in the Python implementation, hence the precondition. */
  function ConfidenceLevel(n: nat, failures: int, R: real): real
    requires failures <= n || R != 0.0
  {
    1.0 - FailureSum(n, SummandCount(failures), R)
  }

  /** With no failures allowed, the confidence is 1 - R^n. */
  lemma ConfidenceLevelZeroFailures(n: nat, R: real)
    ensures ConfidenceLevel(n, 0, R) == 1.0 - Pow(R, n)
  {
    assert FailureSum(n, 1, R) == Term(n, 0, R);
  }

  lemma {:induction false} FailureSumMonotone(n: nat, c1: nat, c2: nat, R: real)
    requires 0.0 <= R <= 1.0
    requires c1 <= c2
    requires c2 <= n + 1 || R != 0.0
    ensures FailureSum(n, c1, R) <= FailureSum(n, c2, R)
  {
    if c1 < c2 {
      FailureSumMonotone(n, c1, c2 - 1, R);
      TermNonNegative(n, c2 - 1, R);
    }
  }

  /** Allowing more failures never raises the confidence. */
  lemma ConfidenceLevelNonIncreasing(n: nat, f1: int, f2: int, R: real)
    requires 0.0 <= R <= 1.0
    requires f1 <= f2
    requires f2 <= n || R != 0.0
    ensures ConfidenceLevel(n, f2, R) <= ConfidenceLevel(n, f1, R)
  {
    FailureSumMonotone(n, SummandCount(f1), SummandCount(f2), R);
  }

  /* ---------------------------------------------------------------------- */
  /* The binomial theorem, which makes the confidence a probability          */

  /** C(n, i) p^i q^(n-i). */
  function BinomialTerm(n: nat, i: nat, p: real, q: real): real
    requires i <= n
  {
    Comb(n, i) * Pow(p, i) * Pow(q, n - i)
  }

  /** The first m terms of the expansion of (p + q)^n. */
  function BinomialSum(n: nat, m: nat, p: real, q: real): real
    requires m <= n + 1
  {
    if m == 0 then 0.0 else BinomialSum(n, m - 1, p, q) + BinomialTerm(n, m - 1, p, q)
  }

  lemma BinomialSumStep(n: nat, m: nat, k: nat, p: real, q: real)
    requires k + 1 == m <= n + 1
    ensures BinomialSum(n, m, p, q) == BinomialSum(n, k, p, q) + BinomialTerm(n, k, p, q)
  {
  }

  /** The algebra of BinomialTermPascal, over opaque values: t1 = C(n+1, i) p^i q^(n+1-i),
      a = C(n, i-1), c = C(n, i), ac = C(n+1, i), pi = p^i, pj = p^(i-1), qe = q^(n-i),
      qe1 = q^(n+1-i), ta = the term of n at i - 1 and tc = the term of n at i. */
  lemma TermPascalAlgebra(t1: real, a: real, c: real, ac: real, p: real, q: real,
                          pi: real, pj: real, qe: real, qe1: real, ta: real, tc: real)
    requires t1 == ac * pi * qe1 && ac == a + c
    requires pi == Scale(p, pj) && qe1 == Scale(q, qe)
    requires ta == a * pj * qe1 && tc == c * pi * qe
    ensures t1 == Mix(q, tc, p, ta)
  {
    calc {
      t1;
      a * pi * qe1 + c * pi * qe1;
      a * (p * pj) * qe1 + c * pi * (q * qe);
      p * (a * pj * qe1) + q * (c * pi * qe);
    }
  }

  /** Pascal's rule carried over to the terms: C(n+1, i) p^i q^(n+1-i) splits
      into the terms of n with i and with i - 1 successes of p. */
  lemma BinomialTermPascal(n: nat, n1: nat, i: nat, j: nat, p: real, q: real)
    requires n1 == n + 1 && 1 <= i <= n && j + 1 == i
    ensures BinomialTerm(n1, i, p, q) == Mix(q, BinomialTerm(n, i, p, q), p, BinomialTerm(n, j, p, q))
  {
    var e := n - i;
    var e1 := n1 - i;
    assert n - j == e1;
    PowStep(p, i, j);
    PowStep(q, e1, e);
    TermPascalAlgebra(BinomialTerm(n1, i, p, q), Comb(n, j), Comb(n, i), Comb(n1, i),
                      p, q, Pow(p, i), Pow(p, j), Pow(q, e), Pow(q, e1),
                      BinomialTerm(n, j, p, q), BinomialTerm(n, i, p, q));
  }

  /** The algebra of BinomialSumPascalStep: s1m = S(n+1, i+1), s1i = S(n+1, i),
      t1 = the term of n+1 at i, sam = S(n, i+1), sai = S(n, i), tc = the term of n at i,
      sbi = S(n, i-1) and ta = the term of n at i - 1. */
  lemma SumPascalAlgebra(s1m: real, s1i: real, t1: real, sam: real, sai: real, tc: real,
                         sbi: real, ta: real, p: real, q: real)
    requires s1m == s1i + t1 && s1i == Mix(q, sai, p, sbi) && t1 == Mix(q, tc, p, ta)
    requires sam == sai + tc && sai == sbi + ta
    ensures s1m == Mix(q, sam, p, sai)
  {
  }

  lemma BinomialSumPascalStep(n: nat, n1: nat, m: nat, i: nat, j: nat, p: real, q: real)
    requires n1 == n + 1 && 1 <= i <= n && m == i + 1 && j + 1 == i
    requires BinomialSum(n1, i, p, q) == Mix(q, BinomialSum(n, i, p, q), p, BinomialSum(n, j, p, q))
    ensures BinomialSum(n1, m, p, q) == Mix(q, BinomialSum(n, m, p, q), p, BinomialSum(n, i, p, q))
  {
    BinomialTermPascal(n, n1, i, j, p, q);
    BinomialSumStep(n1, m, i, p, q);
    BinomialSumStep(n, m, i, p, q);
    BinomialSumStep(n, i, j, p, q);
    SumPascalAlgebra(BinomialSum(n1, m, p, q), BinomialSum(n1, i, p, q), BinomialTerm(n1, i, p, q),
                     BinomialSum(n, m, p, q), BinomialSum(n, i, p, q), BinomialTerm(n, i, p, q),
                     BinomialSum(n, j, p, q), BinomialTerm(n, j, p, q), p, q);
  }

  /** Pascal's rule carried over to the partial sums:
      S(n+1, m) == q S(n, m) + p S(n, m-1). */
  lemma {:induction false} BinomialSumPascal(n: nat, m: nat, p: real, q: real)
    requires 1 <= m <= n + 1
    ensures BinomialSum(n + 1, m, p, q) == Mix(q, BinomialSum(n, m, p, q), p, BinomialSum(n, m - 1, p, q))
  {
    if m == 1 {
      PowStep(q, n + 1, n);
      assert BinomialTerm(n + 1, 0, p, q) == Pow(q, n + 1);
      assert BinomialTerm(n, 0, p, q) == Pow(q, n);
    } else {
      var i := m - 1;
      BinomialSumPascal(n, i, p, q);
      BinomialSumPascalStep(n, n + 1, m, i, i - 1, p, q);
    }
  }

  lemma BinomialTermTop(n: nat, p: real, q: real)
    ensures BinomialTerm(n, n, p, q) == Pow(p, n)
  {
    assert Pow(q, 0) == 1.0;
  }

  /** The algebra of BinomialTheoremStep, with n = k + 1: t = S(n, n+1), snn = S(n, n),
      full = S(k, n), skk = S(k, k), pk = p^k, pn = p^n, total = (p+q)^n,
      totalk = (p+q)^k and pq = p + q. */
  lemma TheoremAlgebra(t: real, snn: real, full: real, skk: real, pk: real, pn: real,
                       total: real, totalk: real, p: real, q: real, pq: real)
    requires pq == p + q
    requires t == snn + pn && snn == Mix(q, full, p, skk) && full == skk + pk
    requires pn == Scale(p, pk) && full == totalk && total == Scale(pq, totalk)
    ensures t == total
  {
    calc {
      t;
      q * full + p * skk + p * pk;
      q * full + p * (skk + pk);
      (p + q) * full;
    }
  }

  lemma BinomialTheoremStep(n: nat, k: nat, p: real, q: real)
    requires n == k + 1
    requires BinomialSum(k, n, p, q) == Pow(p + q, k)
    ensures BinomialSum(n, n + 1, p, q) == Pow(p + q, n)
  {
    BinomialSumPascal(k, n, p, q);
    BinomialSumStep(n, n + 1, n, p, q);
    BinomialSumStep(k, n, k, p, q);
    BinomialTermTop(n, p, q);
    BinomialTermTop(k, p, q);
    PowStep(p, n, k);
    PowStep(p + q, n, k);
    TheoremAlgebra(BinomialSum(n, n + 1, p, q), BinomialSum(n, n, p, q), BinomialSum(k, n, p, q),
                   BinomialSum(k, k, p, q), Pow(p, k), Pow(p, n), Pow(p + q, n), Pow(p + q, k), p, q, p + q);
  }

  /** The binomial theorem: the full expansion is (p + q)^n. */
  lemma {:induction false} BinomialTheorem(n: nat, p: real, q: real)
    ensures BinomialSum(n, n + 1, p, q) == Pow(p + q, n)
  {
    if n == 0 {
      BinomialTermTop(0, p, q);
    } else {
      BinomialTheorem(n - 1, p, q);
      BinomialTheoremStep(n, n - 1, p, q);
    }
  }

  /** Within range, the summand of `confidence_level` is the term of ((1 - R) + R)^n. */
  lemma TermIsBinomialTerm(n: nat, i: nat, R: real)
    requires i <= n
    ensures Term(n, i, R) == BinomialTerm(n, i, 1.0 - R, R)
  {
    assert IntPow(R, n - i) == Pow(R, n - i);
  }

  lemma FailureSumStep(n: nat, m: nat, k: nat, R: real)
    requires k + 1 == m
    requires m <= n + 1 || R != 0.0
    ensures FailureSum(n, m, R) == FailureSum(n, k, R) + Term(n, k, R)
  {
  }

  /** Up to n + 1 summands, the failure sum is the expansion of ((1 - R) + R)^n. */
  lemma {:induction false} FailureSumIsBinomialSum(n: nat, m: nat, R: real)
    requires m <= n + 1
    ensures FailureSum(n, m, R) == BinomialSum(n, m, 1.0 - R, R)
  {
    if m > 0 {
      var k := m - 1;
      FailureSumIsBinomialSum(n, k, R);
      FailureSumStep(n, m, k, R);
      TermIsBinomialTerm(n, k, R);
      BinomialSumStep(n, m, k, 1.0 - R, R);
    }
  }

  /** Summands beyond i = n add nothing. */
  lemma {:induction false} FailureSumSaturates(n: nat, m: nat, R: real)
    requires m >= n + 1
    requires m == n + 1 || R != 0.0
    ensures FailureSum(n, m, R) == FailureSum(n, n + 1, R)
  {
    if m > n + 1 {
      FailureSumSaturates(n, m - 1, R);
      assert Comb(n, m - 1) == 0.0;
    }
  }

  /** The failure probabilities over all outcomes sum to one. */
  lemma FailureSumTotal(n: nat, m: nat, R: real)
    requires m >= n + 1
    requires m == n + 1 || R != 0.0
    ensures FailureSum(n, m, R) == 1.0
  {
    FailureSumSaturates(n, m, R);
    FailureSumIsBinomialSum(n, n + 1, R);
    BinomialTheorem(n, 1.0 - R, R);
    assert 1.0 - R + R == 1.0;
    PowOne(n);
  }

  /** Tolerating n or more failures out of n trials demonstrates nothing. */
  lemma ConfidenceLevelAllFailures(n: nat, failures: int, R: real)
    requires failures >= n
    requires failures <= n || R != 0.0
    ensures ConfidenceLevel(n, failures, R) == 0.0
  {
    FailureSumTotal(n, SummandCount(failures), R);
  }

  /** For a reliability in [0, 1] the confidence is a probability. */
  lemma ConfidenceLevelInUnitInterval(n: nat, failures: int, R: real)
    requires 0.0 <= R <= 1.0
    requires failures <= n || R != 0.0
    ensures 0.0 <= ConfidenceLevel(n, failures, R) <= 1.0
  {
    var m := SummandCount(failures);
    FailureSumMonotone(n, 0, m, R);
    if m <= n + 1 {
      FailureSumMonotone(n, m, n + 1, R);
      FailureSumTotal(n, n + 1, R);
    } else {
      FailureSumTotal(n, m, R);
    }
  }

  /* ---------------------------------------------------------------------- */
  /* Zero-failure sample size                                                */

  /** Bernoulli's inequality in the form R^k (1 + k (1/R - 1)) <= 1. */
  lemma {:induction false} Bernoulli(R: real, k: nat)
    requires 0.0 < R < 1.0
    ensures Pow(R, k) * (1.0 + k as real * (1.0 / R - 1.0)) <= 1.0
  {
    if k > 0 {
      Bernoulli(R, k - 1);
      Reciprocal(R);
      PowNonNegative(R, k - 1);
      PowAntitone(R, 0, k - 1);
      BernoulliAlgebra(R, 1.0 / R - 1.0, Pow(R, k - 1), k as real, (k - 1) as real);
    }
  }

  /** An index beyond which R^k <= t. */
  function SearchBound(R: real, t: real): int
    requires 0.0 < R < 1.0 && 0.0 < t
  {
    ((1.0 / t - 1.0) / (1.0 / R - 1.0)).Floor + 1
  }

  lemma PowAboveBelowBound(R: real, t: real, k: nat)
    requires 0.0 < R < 1.0 && 0.0 < t
    requires Pow(R, k) > t
    ensures k < SearchBound(R, t)
  {
    Reciprocal(R);
    Bernoulli(R, k);
    BoundAlgebra(t, Pow(R, k), k as real, 1.0 / R - 1.0);
  }

  /** The least n >= k with R^n <= t, given that R^m > t below k. */
  function SearchFrom(R: real, t: real, k: nat): (n: nat)
    requires 0.0 < R < 1.0 && 0.0 < t
    ensures k <= n && Pow(R, n) <= t
    ensures forall m :: k <= m < n ==> Pow(R, m) > t
    decreases SearchBound(R, t) - k
  {
    if Pow(R, k) <= t then k
    else
      PowAboveBelowBound(R, t, k);
      SearchFrom(R, t, k + 1)
  }

  /** ceil(log(1 - C) / log R) for R and C in (0, 1): the least whole n with R^n <= 1 - C. */
  function ZeroFailSampleSize(R: real, C: real): (n: nat)
    requires 0.0 < R < 1.0 && 0.0 < C < 1.0
    ensures ConfidenceLevel(n, 0, R) >= C
    ensures forall m :: 0 <= m < n ==> ConfidenceLevel(m, 0, R) < C
  {
    var n := SearchFrom(R, 1.0 - C, 0);
    ConfidenceLevelZeroFailures(n, R);
    forall m | 0 <= m < n
      ensures ConfidenceLevel(m, 0, R) < C
    {
      ConfidenceLevelZeroFailures(m, R);
    }
    n
  }

  /** The sample size is pinned down by the two powers around it. */
  lemma ZeroFailSampleSizeIs(R: real, C: real, n: nat)
    requires 0.0 < R < 1.0 && 0.0 < C < 1.0
    requires Pow(R, n) <= 1.0 - C
    requires n == 0 || Pow(R, n - 1) > 1.0 - C
    ensures ZeroFailSampleSize(R, C) == n
  {
    var z := ZeroFailSampleSize(R, C);
    ConfidenceLevelZeroFailures(z, R);
    ConfidenceLevelZeroFailures(n, R);
    if z < n {
      PowAntitone(R, z, n - 1);
    }
  }

  /** n choose 1 is n. */
  lemma {:induction false} CombOne(n: nat)
    ensures Comb(n, 1) == n as real
  {
    if n > 0 {
      CombOne(n - 1);
    }
  }

  /** n choose 2 is n (n - 1) / 2. */
  lemma {:induction false} CombTwo(n: nat)
    ensures 2.0 * Comb(n, 2) == (n * (n - 1)) as real
  {
    if n > 0 {
      CombOne(n - 1);
      CombTwo(n - 1);
      assert (n - 1) * (n - 2) + 2 * (n - 1) == n * (n - 1);
    }
  }

  /** n choose 3 is n (n - 1) (n - 2) / 6. */
  lemma {:induction false} CombThree(n: nat)
    ensures 6.0 * Comb(n, 3) == (n * (n - 1) * (n - 2)) as real
  {
    if n > 0 {
      CombTwo(n - 1);
      CombThree(n - 1);
      assert 3 * ((n - 1) * (n - 2)) + (n - 1) * (n - 2) * (n - 3) == n * (n - 1) * (n - 2);
    }
  }

  /** Allowing f failures instead of f - 1 lowers the confidence by the
      probability of exactly f failures. */
  lemma ConfidenceLevelStep(n: nat, f: nat, R: real)
    requires f <= n
    ensures ConfidenceLevel(n, f, R) == ConfidenceLevel(n, f - 1, R) - Term(n, f, R)
  {
    assert SummandCount(f) == f + 1 && SummandCount(f - 1) == f;
    FailureSumStep(n, f + 1, f, R);
  }

  /** The probability of exactly f failures, C(n, f) (1 - R)^f R^e with e = n - f. */
  lemma TermValue(n: nat, f: nat, e: nat, R: real)
    requires e + f == n
    ensures Term(n, f, R) == Comb(n, f) * Pow(1.0 - R, f) * Pow(R, e)
  {
    TermIsBinomialTerm(n, f, R);
  }

  /** The powers of 0.8 that the reference rows at R = 0.8 use. */
  lemma PowersOfEightTenths()
    ensures Pow(0.8, 10) == 0.1073741824
    ensures Pow(0.8, 11) == 0.08589934592
    ensures Pow(0.8, 17) == 0.02251799813685248
    ensures Pow(0.8, 18) == 0.018014398509481984
    ensures Pow(0.8, 23) == 0.00590295810358705651712
    ensures Pow(0.8, 24) == 0.004722366482869645213696
    ensures Pow(0.8, 25) == 0.0037778931862957161709568
    ensures Pow(0.8, 29) == 0.00154742504910672534362390528
    ensures Pow(0.8, 30) == 0.001237940039285380274899124224
    ensures Pow(0.8, 31) == 0.0009903520314283042199192993792
    ensures Pow(0.8, 32) == 0.00079228162514264337593543950336
  {
    assert Pow(0.8, 5) == 0.32768;
    assert Pow(0.8, 10) == 0.1073741824;
    assert Pow(0.8, 15) == 0.035184372088832;
    assert Pow(0.8, 20) == 0.01152921504606846976;
    assert Pow(0.8, 25) == 0.0037778931862957161709568;
    assert Pow(0.8, 30) == 0.001237940039285380274899124224;
  }

  /** The powers of 0.9 that the reference rows at R = 0.9 use. */
  lemma PowersOfNineTenths()
    ensures Pow(0.9, 28) == 0.0523347633027360537213511521
    ensures Pow(0.9, 29) == 0.04710128697246244834921603689
    ensures Pow(0.9, 45) == 0.008727963568087712425891397479476727340041449
    ensures Pow(0.9, 46) == 0.0078551672112789411833022577315290546060373041
    ensures Pow(0.9, 59) == 0.00199667811101603467823686647723289448859052847504205678489
    ensures Pow(0.9, 60) == 0.001797010299914431210413179829509605039731475627537851106401
    ensures Pow(0.9, 61) == 0.0016173092699229880893718618465586445357583280647840659957609
    ensures Pow(0.9, 73) == 0.0004567759074507740406477787437675267212178680251724974985372646979033929
    ensures Pow(0.9, 74) == 0.00041109831670569663658300086939077404909608122265524774868353822811305361
    ensures Pow(0.9, 75) == 0.000369988485035126972924700782451696644186473100389722973815184405301748249
    ensures Pow(0.9, 76) == 0.0003329896365316142756322307042065269797678257903507506764336659647715734241
  {
    assert Pow(0.9, 5) == 0.59049;
    assert Pow(0.9, 10) == 0.3486784401;
    assert Pow(0.9, 15) == 0.205891132094649;
    assert Pow(0.9, 20) == 0.12157665459056928801;
    assert Pow(0.9, 25) == 0.0717897987691852588770249;
    assert Pow(0.9, 28) == 0.0523347633027360537213511521;
    assert Pow(0.9, 30) == 0.042391158275216203514294433201;
    assert Pow(0.9, 35) == 0.02503155504993241601315571986085849;
    assert Pow(0.9, 40) == 0.0147808829414345923316083210206383297601;
    assert Pow(0.9, 45) == 0.008727963568087712425891397479476727340041449;
    assert Pow(0.9, 50) == 0.00515377520732011331036461129765621272702107522001;
    assert Pow(0.9, 55) == 0.0030432527221704537086371993251530170531786747066637049;
    assert Pow(0.9, 60) == 0.001797010299914431210413179829509605039731475627537851106401;
    assert Pow(0.9, 65) == 0.00106111661199647248543687855752712667991103904330482569981872649;
    assert Pow(0.9, 70) == 0.0006265787482177970379256224194341930332206694446810665274859598050801;
    assert Pow(0.9, 75) == 0.000369988485035126972924700782451696644186473100389722973815184405301748249;
  }

  /** One reference row: n samples with at most f failures at R = 0.8.  The row is
      passed as variables so that the verifier does not expand C(n, f) by Pascal's
      rule on literal arguments. */
  lemma ReferenceRow11(n: nat, R: real)
    requires n == 11 && R == 0.8
    ensures 0.88 <= ConfidenceLevel(n, 0, R) <= 0.92
  {
    PowersOfEightTenths();
    ConfidenceLevelZeroFailures(n, R);
  }

  lemma ReferenceRow18(n: nat, R: real)
    requires n == 18 && R == 0.8
    ensures 0.88 <= ConfidenceLevel(n, 1, R) <= 0.92
  {
    PowersOfEightTenths();
    assert Pow(1.0 - R, 1) == 0.2;
    CombOne(n);
    ConfidenceLevelZeroFailures(n, R);
    assert ConfidenceLevel(n, 0, R) == 0.981985601490518016;
    ConfidenceLevelStep(n, 1, R);
    TermValue(n, 1, 17, R);
    assert ConfidenceLevel(n, 1, R) == 0.900920808197849088;
  }

  lemma ReferenceRow25(n: nat, R: real)
    requires n == 25 && R == 0.8
    ensures 0.88 <= ConfidenceLevel(n, 2, R) <= 0.92
  {
    PowersOfEightTenths();
    assert Pow(1.0 - R, 1) == 0.2 && Pow(1.0 - R, 2) == 0.04;
    CombOne(n);
    CombTwo(n);
    ConfidenceLevelZeroFailures(n, R);
    assert ConfidenceLevel(n, 0, R) == 0.9962221068137042838290432;
    ConfidenceLevelStep(n, 1, R);
    TermValue(n, 1, 24, R);
    assert ConfidenceLevel(n, 1, R) == 0.9726102743993560577605632;
    ConfidenceLevelStep(n, 2, R);
    TermValue(n, 2, 23, R);
    assert ConfidenceLevel(n, 2, R) == 0.9017747771563113795551232;
  }

  lemma ReferenceRow32(n: nat, R: real)
    requires n == 32 && R == 0.8
    ensures 0.88 <= ConfidenceLevel(n, 3, R) <= 0.92
  {
    PowersOfEightTenths();
    assert Pow(1.0 - R, 1) == 0.2 && Pow(1.0 - R, 2) == 0.04 && Pow(1.0 - R, 3) == 0.008;
    CombOne(n);
    CombTwo(n);
    CombThree(n);
    ConfidenceLevelZeroFailures(n, R);
    assert ConfidenceLevel(n, 0, R) == 0.99920771837485735662406456049664;
    ConfidenceLevelStep(n, 1, R);
    TermValue(n, 1, 31, R);
    assert ConfidenceLevel(n, 1, R) == 0.99286946537371620961658104446976;
    ConfidenceLevelStep(n, 2, R);
    TermValue(n, 2, 30, R);
    assert ConfidenceLevel(n, 2, R) == 0.9683087349942942649625824198656;
    ConfidenceLevelStep(n, 3, R);
    TermValue(n, 3, 29, R);
    assert ConfidenceLevel(n, 3, R) == 0.9069069090457394033275858583552;
  }

  /** One reference row: n samples with at most f failures at R = 0.9.  The row is
      passed as variables so that the verifier does not expand C(n, f) by Pascal's
      rule on literal arguments. */
  lemma ReferenceRow29(n: nat, R: real)
    requires n == 29 && R == 0.9
    ensures 0.93 <= ConfidenceLevel(n, 0, R) <= 0.97
  {
    PowersOfNineTenths();
    ConfidenceLevelZeroFailures(n, R);
  }

  lemma ReferenceRow46(n: nat, R: real)
    requires n == 46 && R == 0.9
    ensures 0.93 <= ConfidenceLevel(n, 1, R) <= 0.97
  {
    PowersOfNineTenths();
    assert Pow(1.0 - R, 1) == 0.1;
    CombOne(n);
    ConfidenceLevelZeroFailures(n, R);
    assert ConfidenceLevel(n, 0, R) == 0.9921448327887210588166977422684709453939626959;
    ConfidenceLevelStep(n, 1, R);
    TermValue(n, 1, 45, R);
    assert ConfidenceLevel(n, 1, R) == 0.9519962003755175816575973138628779996297720305;
  }

  lemma ReferenceRow61(n: nat, R: real)
    requires n == 61 && R == 0.9
    ensures 0.93 <= ConfidenceLevel(n, 2, R) <= 0.97
  {
    PowersOfNineTenths();
    assert Pow(1.0 - R, 1) == 0.1 && Pow(1.0 - R, 2) == 0.01;
    CombOne(n);
    CombTwo(n);
    ConfidenceLevelZeroFailures(n, R);
    assert ConfidenceLevel(n, 0, R) == 0.9983826907300770119106281381534413554642416719352159340042391;
    ConfidenceLevelStep(n, 1, R);
    TermValue(n, 1, 60, R);
    assert ConfidenceLevel(n, 1, R) == 0.987420927900598981527107741193432764721879670607235042255193;
    ConfidenceLevelStep(n, 2, R);
    TermValue(n, 2, 59, R);
    assert ConfidenceLevel(n, 2, R) == 0.950881718469005546915373084660070795580672999513965403091706;
  }

  lemma ReferenceRow76(n: nat, R: real)
    requires n == 76 && R == 0.9
    ensures 0.93 <= ConfidenceLevel(n, 3, R) <= 0.97
  {
    PowersOfNineTenths();
    assert Pow(1.0 - R, 1) == 0.1 && Pow(1.0 - R, 2) == 0.01 && Pow(1.0 - R, 3) == 0.001;
    CombOne(n);
    CombTwo(n);
    CombThree(n);
    assert Comb(n, 1) == 76.0 && Comb(n, 2) == 2850.0 && Comb(n, 3) == 70300.0;
    ConfidenceLevelZeroFailures(n, R);
    assert ConfidenceLevel(n, 0, R) == 0.9996670103634683857243677692957934730202321742096492493235663340352284265759;
    ConfidenceLevelStep(n, 1, R);
    TermValue(n, 1, 75, R);
    assert ConfidenceLevel(n, 1, R) == 0.9968550978772014207301400433491605785244149786466873547225709325549351398835;
    ConfidenceLevelStep(n, 2, R);
    TermValue(n, 2, 74, R);
    assert ConfidenceLevel(n, 2, R) == 0.9851387958510890665875245185715235181251766638010127938850900930537131119985;
    ConfidenceLevelStep(n, 3, R);
    TermValue(n, 3, 73, R);
    assert ConfidenceLevel(n, 3, R) == 0.9530274495572996515299856728846663896235605416313862197379203847911045911285;
  }

  /** The reference table: reliability R, confidence C, failures allowed f and
      the sample size n that demonstrates R with confidence C. */
  const ReferenceTable: seq<(real, real, nat, nat)> :=
    [(0.8, 0.9, 0, 11), (0.8, 0.9, 1, 18), (0.8, 0.9, 2, 25), (0.8, 0.9, 3, 32),
     (0.9, 0.95, 0, 29), (0.9, 0.95, 1, 46), (0.9, 0.95, 2, 61), (0.9, 0.95, 3, 76)]

  /** Every row of the reference table, read as a confidence level, lies within
      0.02 of the confidence it was sized for. */
  lemma ConfidenceLevelReferenceCases(R: real, C: real, f: nat, n: nat)
    requires (R, C, f, n) in ReferenceTable
    ensures C - 0.02 <= ConfidenceLevel(n, f, R) <= C + 0.02
  {
    if n == 11 {
      assert R == 0.8 && C == 0.9 && f == 0;
      ReferenceRow11(n, R);
    } else if n == 18 {
      assert R == 0.8 && C == 0.9 && f == 1;
      ReferenceRow18(n, R);
    } else if n == 25 {
      assert R == 0.8 && C == 0.9 && f == 2;
      ReferenceRow25(n, R);
    } else if n == 32 {
      assert R == 0.8 && C == 0.9 && f == 3;
      ReferenceRow32(n, R);
    } else if n == 29 {
      assert R == 0.9 && C == 0.95 && f == 0;
      ReferenceRow29(n, R);
    } else if n == 46 {
      assert R == 0.9 && C == 0.95 && f == 1;
      ReferenceRow46(n, R);
    } else if n == 61 {
      assert R == 0.9 && C == 0.95 && f == 2;
      ReferenceRow61(n, R);
    } else {
      assert R == 0.9 && C == 0.95 && f == 3;
      ReferenceRow76(n, R);
    }
  }

  /** The zero-failure rows of the reference table: 11 samples demonstrate 80%
      reliability with 90% confidence, and 29 samples 90% reliability with 95%
      confidence. */
  lemma SampleSizeZeroFailsReferenceCases(R: real, C: real, n: nat)
    requires (R, C, 0, n) in ReferenceTable
    ensures SampleSizeZeroFails(R, C) == Ok(n)
  {
    if n == 11 {
      PowersOfEightTenths();
    } else {
      PowersOfNineTenths();
    }
    ZeroFailSampleSizeIs(R, C, n);
  }

  /** The input check of sample_size_zero_fails as written: `not` applies to the
      first `all` only, so it rejects exactly when some value is <= 0 and every
      value is < 1. */
  predicate GuardRejectsAsWritten(values: seq<real>)
  {
    !(forall k :: 0 <= k < |values| ==> 0.0 < values[k]) &&
    (forall k :: 0 <= k < |values| ==> values[k] < 1.0)
  }

  /** The check its error message describes: some value lies outside (0, 1). */
  predicate GuardRejects(values: seq<real>)
  {
    exists k :: 0 <= k < |values| && (values[k] <= 0.0 || values[k] >= 1.0)
  }

  /** The check as written rejects exactly the out-of-range inputs in which no
      value reaches 1. */
  lemma GuardAsWrittenMissesValuesFromOne(values: seq<real>)
    ensures GuardRejectsAsWritten(values) <==>
            GuardRejects(values) && forall k :: 0 <= k < |values| ==> values[k] < 1.0
  {
  }

  /** A reliability of 1.5 passes the written check though it is out of range. */
  lemma GuardAsWrittenAdmitsReliabilityAboveOne()
    ensures !GuardRejectsAsWritten([1.5, 0.5]) && GuardRejects([1.5, 0.5])
  {
    assert [1.5, 0.5][0] >= 1.0;
  }

  /** What sample_size_zero_fails does as written. */
  datatype ZeroFailOutcome =
    | Raised             // the ValueError of the input check
    | Returned(n: nat)   // the required sample size
    | ReturnedUnchecked  // an input outside (0, 1) passed the check; the Python implementation returns
                         // ceil(log(1 - C) / log R) of it, which this model does not compute

  function SampleSizeZeroFailsAsWritten(R: real, C: real): (r: ZeroFailOutcome)
    ensures r.Raised? <==> GuardRejectsAsWritten([R, C])
    ensures r.ReturnedUnchecked? <==> !GuardRejectsAsWritten([R, C]) && GuardRejects([R, C])
    ensures r.Returned? ==> 0.0 < R < 1.0 && 0.0 < C < 1.0 && r.n == ZeroFailSampleSize(R, C)
  {
    if GuardRejectsAsWritten([R, C]) then Raised
    else if 0.0 < R < 1.0 && 0.0 < C < 1.0 then Returned(ZeroFailSampleSize(R, C))
    else
      assert [R, C][0] == R && [R, C][1] == C;
      ReturnedUnchecked
  }

  /** The zero-failure sample size with the input check its message describes. */
  function SampleSizeZeroFails(R: real, C: real): (r: Result<nat>)
    ensures r.Err? <==> !(0.0 < R < 1.0 && 0.0 < C < 1.0)
    ensures r.Ok? ==> ConfidenceLevel(r.value, 0, R) >= C &&
                      forall m :: 0 <= m < r.value ==> ConfidenceLevel(m, 0, R) < C
  {
    if GuardRejects([R, C]) then Err(OutOfRange)
    else
      assert [R, C][0] == R && [R, C][1] == C;
      Ok(ZeroFailSampleSize(R, C))
  }

  /** The written check lets a reliability of 1.5 through; the corrected one rejects it. */
  lemma SampleSizeZeroFailsGuardDiffers()
    ensures SampleSizeZeroFailsAsWritten(1.5, 0.5) == ReturnedUnchecked
    ensures SampleSizeZeroFails(1.5, 0.5) == Err(OutOfRange)
  {
    GuardAsWrittenAdmitsReliabilityAboveOne();
  }

  /** The two agree wherever the written check does not misfire. */
  lemma SampleSizeZeroFailsAgree(R: real, C: real)
    requires R < 1.0 && C < 1.0
    ensures SampleSizeZeroFailsAsWritten(R, C).Raised? <==> SampleSizeZeroFails(R, C).Err?
    ensures SampleSizeZeroFails(R, C).Ok? ==>
              SampleSizeZeroFailsAsWritten(R, C) == Returned(SampleSizeZeroFails(R, C).value)
  {
    assert [R, C][0] == R && [R, C][1] == C;
  }

  /* ---------------------------------------------------------------------- */
  /* General sample size                                                      */

  /** The numerical root finder: the n at which confidence_level(n, failures, R)
      equals C, searched from 0.  A library routine, kept abstract. */
  type RootFinder = (real, real, int) -> real

  /** The root rounded up to a whole number of samples. */
  function SampleSize(R: real, C: real, failures: int, fsolve: RootFinder): (n: int)
    ensures fsolve(R, C, failures) <= n as real < fsolve(R, C, failures) + 1.0
  {
    -((-fsolve(R, C, failures)).Floor)
  }

  /** The result is the least whole number not below the root: never rounded down. */
  lemma SampleSizeIsLeastWholeNotBelowRoot(R: real, C: real, failures: int, fsolve: RootFinder, m: int)
    ensures m as real >= fsolve(R, C, failures) <==> m >= SampleSize(R, C, failures, fsolve)
  {
  }
}
