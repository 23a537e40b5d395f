/**
 * The finance engine: runway, savings rate, outlier statistics and the trend
 * slope. Amounts are exact reals; JavaScript's non-finite numbers (NaN and the
 * infinities a division by zero produces) appear as explicit constructors.
 */
module Finance {

  /** A JavaScript number: a finite value, or NaN / an infinity. */
  datatype Num = Finite(value: real) | NonFinite

  // ---------------------------------------------------------------------------
  // Sums (the `reduce((a, b) => a + b, 0)` folds, left to right)
  // ---------------------------------------------------------------------------

  function Sum(xs: seq<real>): real
  {
    if xs == [] then 0.0 else Sum(xs[..|xs| - 1]) + xs[|xs| - 1]
  }

  lemma {:induction false} SumAppend(xs: seq<real>, ys: seq<real>)
    ensures Sum(xs + ys) == Sum(xs) + Sum(ys)
  {
    if ys != [] {
      var zs := xs + ys;
      assert zs[..|zs| - 1] == xs + ys[..|ys| - 1];
      SumAppend(xs, ys[..|ys| - 1]);
    } else {
      assert xs + ys == xs;
    }
  }

  /** The sum of squared deviations from `m`: `xs.map(x => Math.pow(x - m, 2))` summed. */
  function SquaredDeviations(xs: seq<real>, m: real): real
  {
    if xs == [] then 0.0
    else SquaredDeviations(xs[..|xs| - 1], m) + (xs[|xs| - 1] - m) * (xs[|xs| - 1] - m)
  }

  lemma {:induction false} SquaredDeviationsNonNegative(xs: seq<real>, m: real)
    ensures SquaredDeviations(xs, m) >= 0.0
  {
    if xs != [] {
      SquaredDeviationsNonNegative(xs[..|xs| - 1], m);
      var d := xs[|xs| - 1] - m;
      assert d * d >= 0.0;
    }
  }

  /** What the model asks of `Math.sqrt`: a non-negative square root of every non-negative real. */
  ghost predicate IsRoot(sqrt: real -> real)
  {
    forall x :: 0.0 <= x ==> 0.0 <= sqrt(x) && sqrt(x) * sqrt(x) == x
  }

  lemma RootIsUnique(sqrt: real -> real, x: real, r: real)
    requires IsRoot(sqrt) && 0.0 <= x
    requires 0.0 <= r && r * r == x
    ensures sqrt(x) == r
  {
    var s := sqrt(x);
    if s < r {
      SquareIsMonotone(s, r);
    } else if r < s {
      SquareIsMonotone(r, s);
    }
  }

  lemma SquareIsMonotone(s: real, r: real)
    requires 0.0 <= s < r
    ensures s * s < r * r
  {
    assert (r - s) * s >= 0.0;
    assert (r - s) * r > 0.0;
  }

  // ---------------------------------------------------------------------------
  // 1. Runway, `(balance / monthlyBurn).toFixed(1)`
  // ---------------------------------------------------------------------------

  /** Infinite runway, or a number of months written with one decimal (`tenths / 10`). */
  datatype Runway = Infinite | Months(tenths: int)

  /**
   * `n` tenths is `x` rounded to the nearest tenth, a tie going to the larger
   * magnitude (0.25 gives 3 tenths, -0.25 gives -3).
   */
  predicate NearestTenths(x: real, n: int)
  {
    && (x >= 0.0 ==> x * 10.0 - 0.5 < n as real <= x * 10.0 + 0.5)
    && (x < 0.0 ==> x * 10.0 - 0.5 <= n as real < x * 10.0 + 0.5)
  }

  /**
   * `x.toFixed(1)` read as a number of tenths: the magnitude is rounded to the
   * nearest tenth, a tie going to the larger magnitude, and the sign put back.
   */
  function RoundToTenths(x: real): (n: int)
    ensures NearestTenths(x, n)
    ensures -1.0 / 20.0 <= n as real / 10.0 - x <= 1.0 / 20.0
    ensures x >= 0.0 ==> n >= 0
    ensures x <= 0.0 ==> n <= 0
  {
    if x >= 0.0 then (x * 10.0 + 0.5).Floor else -((-x) * 10.0 + 0.5).Floor
  }

  /** At most one number of tenths is the nearest to `x`. */
  lemma NearestTenthsUnique(x: real, n: int, m: int)
    requires NearestTenths(x, n) && NearestTenths(x, m)
    ensures n == m
  {
  }

  /** Ties go away from zero; anything else goes to the nearer tenth. */
  lemma RoundToTenthsExamples()
    ensures RoundToTenths(0.25) == 3 && RoundToTenths(-0.25) == -3
    ensures RoundToTenths(0.24) == 2 && RoundToTenths(-0.26) == -3
  {
    NearestTenthsUnique(0.25, RoundToTenths(0.25), 3);
    NearestTenthsUnique(-0.25, RoundToTenths(-0.25), -3);
    NearestTenthsUnique(0.24, RoundToTenths(0.24), 2);
    NearestTenthsUnique(-0.26, RoundToTenths(-0.26), -3);
  }

  /** `Math.round(x)`: the nearest integer, a tie going up (towards +infinity). */
  function Round(x: real): (r: int)
    ensures x - 1.0 / 2.0 < r as real <= x + 1.0 / 2.0
  {
    (x + 0.5).Floor
  }

  function CalcRunway(balance: real, monthlyBurn: real): (r: Runway)
    ensures r.Infinite? <==> monthlyBurn == 0.0
    ensures r.Months? ==> -1.0 / 20.0 <= r.tenths as real / 10.0 - balance / monthlyBurn <= 1.0 / 20.0
    ensures r.Months? ==> NearestTenths(balance / monthlyBurn, r.tenths)
    ensures r.Months? && balance * monthlyBurn < 0.0 ==> r.tenths <= 0
  {
    if monthlyBurn == 0.0 then Infinite
    else
      assert balance * monthlyBurn < 0.0 ==> balance / monthlyBurn < 0.0 by {
        if balance * monthlyBurn < 0.0 {
          assert balance / monthlyBurn * (monthlyBurn * monthlyBurn) == balance * monthlyBurn;
        }
      }
      Months(RoundToTenths(balance / monthlyBurn))
  }

  // ---------------------------------------------------------------------------
  // 2. Savings rate
  // ---------------------------------------------------------------------------

  function CalcSavingsRate(income: real, expenses: real): (r: real)
    ensures income == 0.0 ==> r == 0.0
    ensures income != 0.0 ==> r * income == (income - expenses) * 100.0
    ensures income > 0.0 && expenses >= 0.0 ==> r <= 100.0
    ensures income > 0.0 ==> (r >= 0.0 <==> expenses <= income)
  {
    if income == 0.0 then 0.0 else (income - expenses) / income * 100.0
  }

  lemma SavingsRateExample()
    ensures CalcSavingsRate(1000.0, 800.0) == 20.0
  {
  }

  // ---------------------------------------------------------------------------
  // 3. Outlier statistics
  // ---------------------------------------------------------------------------

  /** `[]` for too few amounts, or the mean, population deviation and 2-sigma threshold. */
  datatype Outliers = Insufficient | Stats(mean: real, stdDev: real, threshold: real)

  const MinOutlierSample: nat := 5

  function DetectOutliers(amounts: seq<real>, sqrt: real -> real): (r: Outliers)
    ensures r.Insufficient? <==> |amounts| < MinOutlierSample
    ensures r.Stats? ==> r.mean * |amounts| as real == Sum(amounts)
    ensures r.Stats? ==> r.stdDev == sqrt(SquaredDeviations(amounts, r.mean) / |amounts| as real)
    ensures r.Stats? ==> r.threshold == r.mean + 2.0 * r.stdDev
  {
    if |amounts| < MinOutlierSample then Insufficient
    else
      var n := |amounts| as real;
      var mean := Sum(amounts) / n;
      var stdDev := sqrt(SquaredDeviations(amounts, mean) / n);
      Stats(mean, stdDev, mean + 2.0 * stdDev)
  }

  /** The variance is non-negative, so with a true square root the threshold is at least the mean. */
  lemma ThresholdAtLeastMean(amounts: seq<real>, sqrt: real -> real)
    requires IsRoot(sqrt)
    requires |amounts| >= MinOutlierSample
    ensures DetectOutliers(amounts, sqrt).stdDev >= 0.0
    ensures DetectOutliers(amounts, sqrt).threshold >= DetectOutliers(amounts, sqrt).mean
  {
    var r := DetectOutliers(amounts, sqrt);
    SquaredDeviationsNonNegative(amounts, r.mean);
    var v := SquaredDeviations(amounts, r.mean) / |amounts| as real;
    assert v >= 0.0;
  }

  /** [10, 10, 10, 10, 100]: mean 28, deviation 36, threshold 100. */
  lemma OutlierExample(sqrt: real -> real)
    requires IsRoot(sqrt)
    ensures DetectOutliers([10.0, 10.0, 10.0, 10.0, 100.0], sqrt) == Stats(28.0, 36.0, 100.0)
  {
    var xs := [10.0, 10.0, 10.0, 10.0, 100.0];
    var p1, p2, p3, p4 := xs[..1], xs[..2], xs[..3], xs[..4];
    assert p1[..0] == [] && p2[..1] == p1 && p3[..2] == p2 && p4[..3] == p3 && xs[..4] == p4;
    assert Sum(p1) == 10.0;
    assert Sum(p2) == 20.0;
    assert Sum(p3) == 30.0;
    assert Sum(p4) == 40.0;
    assert Sum(xs) == 140.0;
    assert SquaredDeviations(p1, 28.0) == 324.0;
    assert SquaredDeviations(p2, 28.0) == 648.0;
    assert SquaredDeviations(p3, 28.0) == 972.0;
    assert SquaredDeviations(p4, 28.0) == 1296.0;
    assert SquaredDeviations(xs, 28.0) == 6480.0;
    RootIsUnique(sqrt, 1296.0, 36.0);
  }

  // ---------------------------------------------------------------------------
  // 4. Trend slope
  // ---------------------------------------------------------------------------

  /** sum of i for i in [0, n) */
  function IndexSum(n: nat): real
  {
    if n == 0 then 0.0 else IndexSum(n - 1) + (n - 1) as real
  }

  /** sum of i * i for i in [0, n) */
  function IndexSquareSum(n: nat): real
  {
    if n == 0 then 0.0 else IndexSquareSum(n - 1) + (n - 1) as real * (n - 1) as real
  }

  /**
   * The code's `sumX` and `sumXX` over the indices `0..n-1`. Kept non-recursive
   * so that every product with them names one and the same term.
   */
  function SumX(n: nat): real
  {
    IndexSum(n)
  }

  function SumXX(n: nat): real
  {
    IndexSquareSum(n)
  }

  /** The code's `sumXY`: `x.reduce((a, i) => a + dataPoints[i], 0)`, the first `k` points summed. */
  function SumAt(d: seq<real>, k: nat): real
    requires k <= |d|
  {
    if k == 0 then 0.0 else SumAt(d, k - 1) + d[k - 1]
  }

  /** sum of i * d[i] for i in [0, k): the `sumXY` of an ordinary least-squares fit. */
  function SumIndexTimesPoint(d: seq<real>, k: nat): real
    requires k <= |d|
  {
    if k == 0 then 0.0 else SumIndexTimesPoint(d, k - 1) + (k - 1) as real * d[k - 1]
  }

  /** The least-squares `sumY` and `sumXY` over the whole series, non-recursive like `SumX`. */
  function SumY(d: seq<real>): real
  {
    SumAt(d, |d|)
  }

  function SumXY(d: seq<real>): real
  {
    SumIndexTimesPoint(d, |d|)
  }

  /** `n * sumXX - sumX * sumX` */
  function SlopeDenominator(n: nat): real
  {
    n as real * SumXX(n) - SumX(n) * SumX(n)
  }

  /** The least-squares formula `(n * sumXY - sumX * sumY) / (n * sumXX - sumX * sumX)`. */
  function SlopeOf(n: real, sumX: real, sumY: real, sumXY: real, sumXX: real): real
    requires n * sumXX - sumX * sumX != 0.0
  {
    (n * sumXY - sumX * sumY) / (n * sumXX - sumX * sumX)
  }

  /** `calcTrendSlope` as the source writes it, with `sumXY` summing the points alone. */
  function CalcTrendSlope(d: seq<real>): (r: Num)
  {
    var n := |d|;
    if n == 0 then Finite(0.0)
    else if SlopeDenominator(n) == 0.0 then NonFinite
    else Finite(SlopeOf(n as real, SumX(n), Sum(d), SumAt(d, n), SumXX(n)))
  }

  lemma {:induction false} SumXClosed(n: nat)
    ensures 2.0 * SumX(n) == n as real * (n as real - 1.0)
  {
    if n > 0 {
      SumXClosed(n - 1);
    }
  }

  lemma {:induction false} SumXXClosed(n: nat)
    ensures 6.0 * SumXX(n) == n as real * (n as real - 1.0) * (2.0 * n as real - 1.0)
  {
    if n > 0 {
      SumXXClosed(n - 1);
      var m := (n - 1) as real;
      assert 6.0 * SumXX(n) == m * (m - 1.0) * (2.0 * m - 1.0) + 6.0 * m * m;
      assert m * (m - 1.0) * (2.0 * m - 1.0) + 6.0 * m * m == (m + 1.0) * m * (2.0 * m + 1.0);
    }
  }

  /** With indices 0..n-1 the denominator is n^2 (n^2 - 1) / 12: zero at n = 1, positive from n = 2. */
  lemma SlopeDenominatorClosed(n: nat)
    ensures 12.0 * SlopeDenominator(n) == (n * n) as real * ((n * n) as real - 1.0)
    ensures n == 1 ==> SlopeDenominator(n) == 0.0
    ensures n >= 2 ==> SlopeDenominator(n) > 0.0
  {
    SumXClosed(n);
    SumXXClosed(n);
    var x := n as real;
    var sx := SumX(n);
    var sxx := SumXX(n);
    assert 12.0 * (x * sxx) == 2.0 * x * (6.0 * sxx);
    assert 12.0 * (sx * sx) == 3.0 * (2.0 * sx) * (2.0 * sx);
    assert 12.0 * SlopeDenominator(n) == 2.0 * x * (x * (x - 1.0) * (2.0 * x - 1.0)) - 3.0 * (x * (x - 1.0)) * (x * (x - 1.0));
    assert (n * n) as real == x * x;
    if n >= 2 {
      assert x * x - 1.0 > 0.0;
      assert (x * x) * (x * x - 1.0) > 0.0;
    }
  }

  lemma {:induction false} SumAtIsSum(d: seq<real>, k: nat)
    requires k <= |d|
    ensures SumAt(d, k) == Sum(d[..k])
  {
    if k > 0 {
      SumAtIsSum(d, k - 1);
      assert d[..k][..k - 1] == d[..k - 1];
    }
  }

  lemma SumAtLength(d: seq<real>)
    ensures SumAt(d, |d|) == Sum(d)
  {
    SumAtIsSum(d, |d|);
    assert d[..|d|] == d;
  }

  /** From two points on, the denominator is nonzero and the code returns the least-squares formula. */
  lemma TrendSlopeFormula(d: seq<real>)
    requires |d| >= 2
    ensures SlopeDenominator(|d|) > 0.0
    ensures CalcTrendSlope(d) == Finite(SlopeOf(|d| as real, SumX(|d|), Sum(d), SumAt(d, |d|), SumXX(|d|)))
  {
    SlopeDenominatorPositive(|d|);
  }

  /** As written, `sumXY` equals `sumY`, so the slope is the least-squares formula fed `sumY` twice. */
  lemma TrendSlopeAsWritten(d: seq<real>)
    requires |d| >= 2
    ensures SlopeDenominator(|d|) > 0.0
    ensures CalcTrendSlope(d) == Finite(SlopeOf(|d| as real, SumX(|d|), Sum(d), Sum(d), SumXX(|d|)))
  {
    TrendSlopeFormula(d);
    SumAtLength(d);
  }

  /** Every three-point series gets slope 0, because there `n == sumX`. */
  lemma TrendSlopeOfThreePoints(d: seq<real>)
    requires |d| == 3
    ensures CalcTrendSlope(d) == Finite(0.0)
  {
    TrendSlopeAsWritten(d);
    assert SumX(3) == 3.0 && SumXX(3) == 5.0;
  }

  /** The steadily rising series [1, 2, 3, 4] gets slope -1 instead of 1. */
  lemma TrendSlopeOfOneToFour()
    ensures CalcTrendSlope([1.0, 2.0, 3.0, 4.0]) == Finite(-1.0)
  {
    var d := [1.0, 2.0, 3.0, 4.0];
    TrendSlopeAsWritten(d);
    assert SumX(4) == 6.0 && SumXX(4) == 14.0;
    var p1, p2, p3 := d[..1], d[..2], d[..3];
    assert p2[..1] == p1 && p3[..2] == p2 && d[..3] == p3;
    assert Sum(d) == 10.0;
  }

  /** A single point divides by zero: no `n == 1` guard. */
  lemma TrendSlopeOfOnePoint(y: real)
    ensures CalcTrendSlope([y]) == NonFinite
  {
    SlopeDenominatorClosed(1);
  }

  lemma TrendSlopeOfNoPoints()
    ensures CalcTrendSlope([]) == Finite(0.0)
  {
  }

  /**
   * The ordinary least-squares slope the comments describe: `sumXY` weighs each
   * point by its index, and fewer than two points give 0.
   */
  function LeastSquaresSlope(d: seq<real>): (r: real)
    ensures |d| < 2 ==> r == 0.0
  {
    var n := |d|;
    if n < 2 then 0.0
    else
      SlopeDenominatorPositive(n);
      SlopeOf(n as real, SumX(n), SumY(d), SumXY(d), SumXX(n))
  }

  lemma SlopeDenominatorPositive(n: nat)
    requires n >= 2
    ensures SlopeDenominator(n) > 0.0
  {
    SlopeDenominatorClosed(n);
  }

  predicate IsLine(d: seq<real>, a: real, b: real)
  {
    forall i :: 0 <= i < |d| ==> d[i] == LineAt(a, b, i)
  }

  /** The value at index `i` of the line through `a` with slope `b`. */
  function LineAt(a: real, b: real, i: int): real
  {
    a + b * i as real
  }

  /** The points of a line add up to `k * a + b * sumX`. */
  lemma {:induction false} LineSum(d: seq<real>, a: real, b: real, k: nat)
    requires IsLine(d, a, b) && k <= |d|
    ensures SumAt(d, k) == k as real * a + b * SumX(k)
    decreases k
  {
    if k > 0 {
      LineSum(d, a, b, k - 1);
      assert d[k - 1] == LineAt(a, b, k - 1);
      LineSumStep(a, b, (k - 1) as real, SumX(k - 1), SumAt(d, k - 1));
    }
  }

  lemma LineSumStep(a: real, b: real, j: real, sx: real, sy: real)
    requires sy == j * a + b * sx
    ensures sy + (a + b * j) == (j + 1.0) * a + b * (sx + j)
  {
  }

  /** Weighted by their index, the points of a line add up to `a * sumX + b * sumXX`. */
  lemma {:induction false} LineWeightedSum(d: seq<real>, a: real, b: real, k: nat)
    requires IsLine(d, a, b) && k <= |d|
    ensures SumIndexTimesPoint(d, k) == a * SumX(k) + b * SumXX(k)
    decreases k
  {
    if k > 0 {
      LineWeightedSum(d, a, b, k - 1);
      assert d[k - 1] == LineAt(a, b, k - 1);
      LineWeightedSumStep(a, b, (k - 1) as real, SumX(k - 1), SumXX(k - 1), SumIndexTimesPoint(d, k - 1));
    }
  }

  lemma LineWeightedSumStep(a: real, b: real, j: real, sx: real, sxx: real, sxy: real)
    requires sxy == a * sx + b * sxx
    ensures sxy + j * (a + b * j) == a * (sx + j) + b * (sxx + j * j)
  {
    assert j * (a + b * j) == a * j + b * (j * j);
  }

  /** Fed the sums of a line `a + b * i`, the least-squares formula gives back `b`. */
  lemma SlopeOfLineSums(x: real, sx: real, sy: real, sxy: real, sxx: real, a: real, b: real)
    requires x * sxx - sx * sx > 0.0
    requires sy == x * a + b * sx && sxy == a * sx + b * sxx
    ensures SlopeOf(x, sx, sy, sxy, sxx) == b
  {
    assert x * (a * sx + b * sxx) - sx * (x * a + b * sx) == b * (x * sxx - sx * sx);
  }

  /** The corrected slope recovers `b` from any series `a + b * i` of two or more points. */
  lemma LeastSquaresSlopeOfLine(d: seq<real>, a: real, b: real)
    requires IsLine(d, a, b) && |d| >= 2
    ensures LeastSquaresSlope(d) == b
  {
    LineSum(d, a, b, |d|);
    LineWeightedSum(d, a, b, |d|);
    LeastSquaresSlopeOfLineSums(d, a, b);
  }

  /** Whatever the points, sums shaped like those of a line `a + b * i` give slope `b`. */
  lemma LeastSquaresSlopeOfLineSums(d: seq<real>, a: real, b: real)
    requires |d| >= 2
    requires SumY(d) == |d| as real * a + b * SumX(|d|)
    requires SumXY(d) == a * SumX(|d|) + b * SumXX(|d|)
    ensures LeastSquaresSlope(d) == b
  {
    SlopeDenominatorPositive(|d|);
    SlopeOfLineSums(|d| as real, SumX(|d|), SumY(d), SumXY(d), SumXX(|d|), a, b);
  }

  lemma LeastSquaresExamples()
    ensures LeastSquaresSlope([1.0, 2.0, 3.0, 4.0]) == 1.0
    ensures LeastSquaresSlope([5.0, 5.0, 5.0, 5.0]) == 0.0
    ensures LeastSquaresSlope([7.0]) == 0.0
    ensures LeastSquaresSlope([]) == 0.0
  {
    LeastSquaresSlopeOfLine([1.0, 2.0, 3.0, 4.0], 1.0, 1.0);
    LeastSquaresSlopeOfLine([5.0, 5.0, 5.0, 5.0], 5.0, 0.0);
  }
}
