/** Final value of the kurtosis aggregate: Fisher's excess kurtosis with sample-size bias
    correction, computed from the raw moments the accumulator keeps, following DuckDB's
    formula. Real arithmetic is exact here; the source's `powi(k)` of a power sum or of the
    reciprocal count is written as a k-fold product. */
module ExcessKurtosis {
  import opened PowerSums

  // ---------------------------------------------------------------------------
  // The formula as the accumulator evaluates it.

  /** The reciprocal of the count (the source's `count_64`). */
  function Inv(n: nat): (inv: real)
    requires n > 0
    ensures inv > 0.0 && n as real * inv == 1.0
  {
    1.0 / n as real
  }

  /** The population variance from the count, Σx and Σx²: m2 = (Σx² − (Σx)²·inv)·inv. */
  function M2(n: nat, s1: real, s2: real): real
    requires n > 0
  {
    (s2 - s1 * s1 * Inv(n)) * Inv(n)
  }

  /** The bracket of the source's m4: Σx⁴ − 4·Σx³·Σx·inv + 6·Σx²·(Σx)²·inv² − 3·(Σx)⁴·inv³. */
  function FourthBracket(inv: real, s1: real, s2: real, s3: real, s4: real): real {
    s4 - 4.0 * s3 * s1 * inv + 6.0 * s2 * (s1 * s1) * (inv * inv)
    - 3.0 * (s1 * s1 * s1 * s1) * (inv * inv * inv)
  }

  /** The population fourth central moment from the count and the four power sums. */
  function M4(n: nat, s1: real, s2: real, s3: real, s4: real): real
    requires n > 0
  {
    Inv(n) * FourthBracket(Inv(n), s1, s2, s3, s4)
  }

  lemma PositiveSquare(x: real)
    requires x > 0.0
    ensures Pow(x, 2) > 0.0
  {
    assert Pow(x, 1) == x;
  }

  /** The source's estimator for n values, given sq = m2² and m4:
      (n−1)·((n+1)·m4/sq − 3(n−1)) / ((n−2)(n−3)). */
  function Corrected(n: real, sq: real, m4: real): real
    requires n > 3.0 && sq > 0.0
  {
    PositiveProduct(n - 2.0, n - 3.0);
    (n - 1.0) * ((n + 1.0) * m4 / sq - 3.0 * (n - 1.0)) / ((n - 2.0) * (n - 3.0))
  }

  // ---------------------------------------------------------------------------
  // The textbook statistic the formula is meant to compute.

  /** g2 = m4/m2² − 3: the population excess kurtosis. */
  function PopulationExcess(m2: real, m4: real): real
    requires m2 > 0.0
  {
    PositiveSquare(m2);
    m4 / Pow(m2, 2) - 3.0
  }

  /** G2 = ((n+1)·g2 + 6)·(n−1)/((n−2)(n−3)): the sample excess kurtosis of n values. */
  function SampleExcess(n: real, g2: real): real
    requires n > 3.0
  {
    PositiveProduct(n - 2.0, n - 3.0);
    ((n + 1.0) * g2 + 6.0) * (n - 1.0) / ((n - 2.0) * (n - 3.0))
  }

  /** The aggregate's result for the accumulated moments `m`: null for three or fewer
      values and for a non-positive variance, otherwise the bias-corrected estimator,
      which is the sample excess kurtosis G2. */
  function Kurtosis(m: Moments): (r: Option<real>)
    ensures r.None? <==> (m.count <= 3 || M2(m.count, m.sum, m.sumSqr) <= 0.0)
    ensures r.Some? ==>
      var m2 := M2(m.count, m.sum, m.sumSqr);
      Pow(m2, 2) > 0.0 &&
      r.value == Corrected(m.count as real, Pow(m2, 2), M4(m.count, m.sum, m.sumSqr, m.sumCub, m.sumFour))
    ensures r.Some? ==>
      r.value == SampleExcess(m.count as real, PopulationExcess(M2(m.count, m.sum, m.sumSqr),
                                                                M4(m.count, m.sum, m.sumSqr, m.sumCub, m.sumFour)))
  {
    if m.count <= 3 then None
    else
      var m4 := M4(m.count, m.sum, m.sumSqr, m.sumCub, m.sumFour);
      var m2 := M2(m.count, m.sum, m.sumSqr);
      if m2 <= 0.0 then None
      else
        PositiveSquare(m2);
        SampleExcessForm(m.count as real, m2, m4);
        Some(Corrected(m.count as real, Pow(m2, 2), m4))
  }

  lemma PositiveProduct(a: real, b: real)
    requires a > 0.0 && b > 0.0
    ensures a * b > 0.0
  {
  }

  lemma NonPositiveProduct(a: real, b: real)
    requires a <= 0.0 && b > 0.0
    ensures a * b <= 0.0
  {
  }

  lemma DivFactor(a: real, b: real, d: real)
    requires d != 0.0
    ensures a * b / d == a * (b / d)
  {
  }

  lemma ScaledQuotient(a: real, x: real, y: real, den: real)
    requires x == y && den != 0.0
    ensures a * x / den == y * a / den
  {
  }

  lemma CorrectionAroundG2(n: real, q: real)
    ensures (n + 1.0) * q - 3.0 * (n - 1.0) == (n + 1.0) * (q - 3.0) + 6.0
  {
  }

  lemma InnerForm(n: real, m4: real, sq: real)
    requires sq != 0.0
    ensures (n + 1.0) * m4 / sq - 3.0 * (n - 1.0) == (n + 1.0) * (m4 / sq - 3.0) + 6.0
  {
    DivFactor(n + 1.0, m4, sq);
    CorrectionAroundG2(n, m4 / sq);
  }

  lemma FlatForm(n: real, m4: real, sq: real)
    requires sq != 0.0 && n > 3.0
    ensures (n - 2.0) * (n - 3.0) > 0.0
    ensures (n - 1.0) * ((n + 1.0) * m4 / sq - 3.0 * (n - 1.0)) / ((n - 2.0) * (n - 3.0))
         == ((n + 1.0) * (m4 / sq - 3.0) + 6.0) * (n - 1.0) / ((n - 2.0) * (n - 3.0))
  {
    PositiveProduct(n - 2.0, n - 3.0);
    InnerForm(n, m4, sq);
    ScaledQuotient(n - 1.0, (n + 1.0) * m4 / sq - 3.0 * (n - 1.0),
                   (n + 1.0) * (m4 / sq - 3.0) + 6.0, (n - 2.0) * (n - 3.0));
  }

  /** The source's estimator, over any positive squared variance, is G2 of m4/sq − 3. */
  lemma CorrectedIsSampleExcess(n: real, sq: real, m4: real)
    requires n > 3.0 && sq > 0.0
    ensures Corrected(n, sq, m4) == SampleExcess(n, m4 / sq - 3.0)
  {
    FlatForm(n, m4, sq);
  }

  /** The estimator rewritten around the population excess kurtosis g2 = m4/m2² − 3. */
  lemma SampleExcessForm(n: real, m2: real, m4: real)
    requires n > 3.0 && m2 > 0.0
    ensures Pow(m2, 2) > 0.0
    ensures Corrected(n, Pow(m2, 2), m4) == SampleExcess(n, PopulationExcess(m2, m4))
  {
    PositiveSquare(m2);
    CorrectedIsSampleExcess(n, Pow(m2, 2), m4);
  }

  // ---------------------------------------------------------------------------
  // A two-pass reference: mean first, then central moments from the deviations.

  /** x divided by the count n. */
  function Over(x: real, n: nat): real
    requires n > 0
  {
    x / n as real
  }

  function Mean(vs: seq<real>): real
    requires |vs| > 0
  {
    Over(PowerSum(vs, 1), |vs|)
  }

  /** The sum over vs of (v − c)^k. */
  function CentralSum(vs: seq<real>, c: real, k: nat): real {
    if vs == [] then 0.0 else CentralSum(vs[..|vs| - 1], c, k) + Pow(vs[|vs| - 1] - c, k)
  }

  /** The k-th central moment (1/n)·Σ(v − mean)^k. */
  function CentralMoment(vs: seq<real>, k: nat): real
    requires |vs| > 0
  {
    Over(CentralSum(vs, Mean(vs), k), |vs|)
  }

  /** The textbook statistic computed from the sample itself: G2 from the central moments. */
  function TwoPassKurtosis(vs: seq<real>): Option<real> {
    if |vs| <= 3 then None
    else if CentralMoment(vs, 2) <= 0.0 then None
    else Some(SampleExcess(|vs| as real, PopulationExcess(CentralMoment(vs, 2), CentralMoment(vs, 4))))
  }

  /** Σ(v − c)² written through n = |vs| and the power sums p1 = Σv, p2 = Σv². */
  function Expand2(c: real, n: real, p1: real, p2: real): real {
    p2 - 2.0 * c * p1 + n * c * c
  }

  /** Σ(v − c)⁴ written through n and the power sums p1..p4. */
  function Expand4(c: real, n: real, p1: real, p2: real, p3: real, p4: real): real {
    p4 - 4.0 * c * p3 + 6.0 * c * c * p2 - 4.0 * c * c * c * p1 + n * c * c * c * c
  }

  lemma Expansion2Step(c: real, v: real, n: real, cs0: real, a1: real, a2: real)
    requires cs0 == Expand2(c, n, a1, a2)
    ensures cs0 + Pow(v - c, 2) == Expand2(c, n + 1.0, a1 + Pow(v, 1), a2 + Pow(v, 2))
  {
    PowSmall(v);
    PowSmall(v - c);
  }

  /** Σ(v − c)² in terms of the power sums. */
  lemma {:induction false} CentralSum2Expansion(vs: seq<real>, c: real)
    ensures CentralSum(vs, c, 2) == Expand2(c, |vs| as real, PowerSum(vs, 1), PowerSum(vs, 2))
  {
    if vs != [] {
      var init := vs[..|vs| - 1];
      CentralSum2Expansion(init, c);
      Expansion2Step(c, vs[|vs| - 1], |init| as real, CentralSum(init, c, 2),
                     PowerSum(init, 1), PowerSum(init, 2));
    }
  }

  lemma Expansion4Step(c: real, v: real, n: real, cs0: real, a1: real, a2: real, a3: real, a4: real)
    requires cs0 == Expand4(c, n, a1, a2, a3, a4)
    ensures cs0 + Pow(v - c, 4)
         == Expand4(c, n + 1.0, a1 + Pow(v, 1), a2 + Pow(v, 2), a3 + Pow(v, 3), a4 + Pow(v, 4))
  {
    PowSmall(v);
    PowSmall(v - c);
  }

  /** Σ(v − c)⁴ in terms of the power sums. */
  lemma {:induction false} CentralSum4Expansion(vs: seq<real>, c: real)
    ensures CentralSum(vs, c, 4)
         == Expand4(c, |vs| as real, PowerSum(vs, 1), PowerSum(vs, 2), PowerSum(vs, 3), PowerSum(vs, 4))
  {
    if vs != [] {
      var init := vs[..|vs| - 1];
      CentralSum4Expansion(init, c);
      Expansion4Step(c, vs[|vs| - 1], |init| as real, CentralSum(init, c, 4),
                     PowerSum(init, 1), PowerSum(init, 2), PowerSum(init, 3), PowerSum(init, 4));
    }
  }

  lemma OverIsScaled(x: real, n: nat)
    requires n > 0
    ensures Over(x, n) == x * Inv(n)
    ensures n as real * Inv(n) == 1.0
  {
  }

  lemma OneTimes(p: real, x: real)
    requires p == 1.0
    ensures p * x == x
  {
  }

  lemma SecondPoly(nr: real, inv: real, s1: real, s2: real)
    requires nr * inv == 1.0
    ensures Expand2(s1 * inv, nr, s1, s2) == s2 - s1 * s1 * inv
  {
    assert nr * (s1 * inv) * (s1 * inv) == (nr * inv) * (s1 * s1 * inv);
    OneTimes(nr * inv, s1 * s1 * inv);
  }

  /** The raw-moment formula for m2 is the mean squared deviation, as an identity over
      the count and the power sums. */
  lemma SecondMomentAlgebra(n: nat, s1: real, s2: real)
    requires n > 0
    ensures M2(n, s1, s2) == Over(Expand2(Over(s1, n), n as real, s1, s2), n)
  {
    OverIsScaled(s1, n);
    SecondPoly(n as real, Inv(n), s1, s2);
    OverIsScaled(Expand2(Over(s1, n), n as real, s1, s2), n);
  }

  lemma FourthPoly(nr: real, inv: real, s1: real, s2: real, s3: real, s4: real)
    requires nr * inv == 1.0
    ensures Expand4(s1 * inv, nr, s1, s2, s3, s4) == FourthBracket(inv, s1, s2, s3, s4)
  {
    CubicTerm(s1, inv, s3);
    QuadraticTerm(s1, inv, s2);
    QuarticTerms(nr, inv, s1);
  }

  lemma CubicTerm(s1: real, inv: real, s3: real)
    ensures 4.0 * (s1 * inv) * s3 == 4.0 * s3 * s1 * inv
  {
  }

  lemma QuadraticTerm(s1: real, inv: real, s2: real)
    ensures 6.0 * (s1 * inv) * (s1 * inv) * s2 == 6.0 * s2 * (s1 * s1) * (inv * inv)
  {
  }

  lemma QuarticTerms(nr: real, inv: real, s1: real)
    requires nr * inv == 1.0
    ensures nr * (s1 * inv) * (s1 * inv) * (s1 * inv) * (s1 * inv)
            - 4.0 * (s1 * inv) * (s1 * inv) * (s1 * inv) * s1
         == -(3.0 * (s1 * s1 * s1 * s1) * (inv * inv * inv))
  {
    assert nr * (s1 * inv) * (s1 * inv) * (s1 * inv) * (s1 * inv)
        == (nr * inv) * ((s1 * s1 * s1 * s1) * (inv * inv * inv));
    OneTimes(nr * inv, (s1 * s1 * s1 * s1) * (inv * inv * inv));
  }

  /** The raw-moment formula for m4 is the mean fourth power of the deviations. */
  lemma FourthMomentAlgebra(n: nat, s1: real, s2: real, s3: real, s4: real)
    requires n > 0
    ensures M4(n, s1, s2, s3, s4) == Over(Expand4(Over(s1, n), n as real, s1, s2, s3, s4), n)
  {
    OverIsScaled(s1, n);
    FourthPoly(n as real, Inv(n), s1, s2, s3, s4);
    OverIsScaled(Expand4(Over(s1, n), n as real, s1, s2, s3, s4), n);
  }

  /** The single-pass formulas for m2 and m4 agree with the two-pass definitions
      (1/n)·Σ(v − mean)² and (1/n)·Σ(v − mean)⁴ on the power sums of any sample. */
  lemma RawMomentsAreCentral(vs: seq<real>)
    requires |vs| > 0
    ensures M2(|vs|, PowerSum(vs, 1), PowerSum(vs, 2)) == CentralMoment(vs, 2)
    ensures M4(|vs|, PowerSum(vs, 1), PowerSum(vs, 2), PowerSum(vs, 3), PowerSum(vs, 4))
         == CentralMoment(vs, 4)
  {
    CentralSum2Expansion(vs, Mean(vs));
    SecondMomentAlgebra(|vs|, PowerSum(vs, 1), PowerSum(vs, 2));
    CentralSum4Expansion(vs, Mean(vs));
    FourthMomentAlgebra(|vs|, PowerSum(vs, 1), PowerSum(vs, 2), PowerSum(vs, 3), PowerSum(vs, 4));
  }

  /** Evaluating the accumulated raw moments gives exactly the two-pass textbook result. */
  lemma KurtosisMatchesTwoPass(xs: seq<Option<real>>)
    ensures Kurtosis(Summary(xs)) == TwoPassKurtosis(Values(xs))
  {
    SummaryIsPowerSums(xs);
    if |Values(xs)| > 0 {
      RawMomentsAreCentral(Values(xs));
    }
  }

  // ---------------------------------------------------------------------------
  // When the result is null.

  lemma SquareSign(d: real)
    ensures Pow(d, 2) >= 0.0
    ensures Pow(d, 2) == 0.0 <==> d == 0.0
  {
    assert Pow(d, 1) == d;
    assert d != 0.0 ==> d * d > 0.0;
  }

  /** A sum of squared deviations is never negative. */
  lemma {:induction false} CentralSumNonNegative(vs: seq<real>, c: real)
    ensures CentralSum(vs, c, 2) >= 0.0
  {
    if vs != [] {
      CentralSumNonNegative(vs[..|vs| - 1], c);
      SquareSign(vs[|vs| - 1] - c);
    }
  }

  /** The sum of squared deviations from c vanishes exactly when every value is c. */
  lemma {:induction false} CentralSumZeroIffConstant(vs: seq<real>, c: real)
    ensures CentralSum(vs, c, 2) == 0.0 <==> forall i | 0 <= i < |vs| :: vs[i] == c
  {
    if vs != [] {
      var init, v := vs[..|vs| - 1], vs[|vs| - 1];
      CentralSumZeroIffConstant(init, c);
      CentralSumNonNegative(init, c);
      SquareSign(v - c);
      assert forall i | 0 <= i < |init| :: init[i] == vs[i];
      if CentralSum(vs, c, 2) == 0.0 {
        forall i | 0 <= i < |vs| ensures vs[i] == c {
          if i < |vs| - 1 { assert vs[i] == init[i]; }
        }
      }
    }
  }

  /** The values sum to n·c when every one of them is c. */
  lemma {:induction false} ConstantPowerSum(vs: seq<real>, c: real)
    requires forall i | 0 <= i < |vs| :: vs[i] == c
    ensures PowerSum(vs, 1) == |vs| as real * c
  {
    if vs != [] {
      var init := vs[..|vs| - 1];
      assert forall i | 0 <= i < |init| :: init[i] == vs[i];
      ConstantPowerSum(init, c);
      PowSmall(c);
    }
  }

  lemma OverOfMultiple(n: nat, c: real)
    requires n > 0
    ensures Over(n as real * c, n) == c
  {
  }

  lemma OverSign(x: real, n: nat)
    requires n > 0
    ensures Over(x, n) <= 0.0 <==> x <= 0.0
  {
    OverIsScaled(x, n);
    assert Inv(n) > 0.0;
    if x > 0.0 {
      PositiveProduct(x, Inv(n));
    } else {
      NonPositiveProduct(x, Inv(n));
    }
  }

  /** A non-empty sample has zero variance exactly when all its values are
      equal. */
  lemma ZeroSpreadIffConstant(vs: seq<real>)
    requires |vs| > 0
    ensures CentralMoment(vs, 2) <= 0.0 <==> forall i | 0 <= i < |vs| :: vs[i] == vs[0]
  {
    var mu := Mean(vs);
    CentralSumNonNegative(vs, mu);
    CentralSumZeroIffConstant(vs, mu);
    OverSign(CentralSum(vs, mu, 2), |vs|);
    if forall i | 0 <= i < |vs| :: vs[i] == vs[0] {
      ConstantPowerSum(vs, vs[0]);
      OverOfMultiple(|vs|, vs[0]);
    }
  }

  /** The result is null exactly when there are at most three non-null values or all of
      them are equal; any other sample has a kurtosis. */
  lemma KurtosisNullIff(xs: seq<Option<real>>)
    ensures var vs := Values(xs);
      Kurtosis(Summary(xs)).None? <==> (|vs| <= 3 || forall i | 0 <= i < |vs| :: vs[i] == vs[0])
  {
    KurtosisMatchesTwoPass(xs);
    if |Values(xs)| > 3 {
      ZeroSpreadIffConstant(Values(xs));
    }
  }

  /** Four equally spaced values: the estimator gives −1.2. */
  lemma FourValuesExample()
    ensures Kurtosis(Summary([Some(1.0), Some(2.0), Some(3.0), Some(4.0)])) == Some(-1.2)
  {
    var xs := [Some(1.0), Some(2.0), Some(3.0), Some(4.0)];
    PowSmall(1.0);
    PowSmall(2.0);
    PowSmall(3.0);
    PowSmall(4.0);
    assert xs[..3] == [Some(1.0), Some(2.0), Some(3.0)];
    assert xs[..3][..2] == [Some(1.0), Some(2.0)];
    assert xs[..3][..2][..1] == [Some(1.0)];
    assert Summary([Some(1.0)]) == Moments(1, 1.0, 1.0, 1.0, 1.0);
    assert Summary(xs[..3][..2]) == Moments(2, 3.0, 5.0, 9.0, 17.0);
    assert Summary(xs[..3]) == Moments(3, 6.0, 14.0, 36.0, 98.0);
    assert Summary(xs) == Moments(4, 10.0, 30.0, 100.0, 354.0);
    assert Inv(4) == 0.25;
    assert M2(4, 10.0, 30.0) == 1.25;
    assert M4(4, 10.0, 30.0, 100.0, 354.0) == 2.5625;
    PowSmall(1.25);
  }
}
