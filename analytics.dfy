/** Risk statistics over chronological price series: simple returns, volatility,
    beta against a benchmark and maximum drawdown. Prices are exact reals. */
module Analytics {

  function Min(a: int, b: int): int { if a <= b then a else b }

  function MaxReal(a: real, b: real): real { if a >= b then a else b }

  function MinReal(a: real, b: real): real { if a <= b then a else b }

  // ---------------------------------------------------------------- returns

  /** The returns `p[i] / p[i - 1] - 1` for `i` from `k` on, skipping every `i` whose previous
      price is zero (the comprehension's `if items[i - 1] != 0`). */
  function ReturnsFrom(p: seq<real>, k: nat): seq<real>
    requires 1 <= k
    decreases |p| - k
  {
    if k >= |p| then []
    else (if p[k - 1] != 0.0 then [p[k] / p[k - 1] - 1.0] else []) + ReturnsFrom(p, k + 1)
  }

  /** `_to_return_series`: one simple return per consecutive pair whose earlier price is not zero. */
  function ToReturnSeries(prices: seq<real>): (r: seq<real>)
    ensures |prices| < 2 ==> r == []
  {
    if |prices| < 2 then [] else ReturnsFrom(prices, 1)
  }

  lemma {:induction false} ReturnsFromLength(p: seq<real>, k: nat)
    requires 1 <= k <= |p|
    ensures |ReturnsFrom(p, k)| == |p| - k - multiset(p[k - 1..|p| - 1])[0.0]
    decreases |p| - k
  {
    if k < |p| {
      ReturnsFromLength(p, k + 1);
      assert p[k - 1..|p| - 1] == [p[k - 1]] + p[k..|p| - 1];
    }
  }

  /** The series has one entry per consecutive pair except those whose earlier price is zero. */
  lemma ReturnSeriesLength(prices: seq<real>)
    requires |prices| >= 1
    ensures |ToReturnSeries(prices)| == |prices| - 1 - multiset(prices[..|prices| - 1])[0.0]
  {
    ReturnsFromLength(prices, 1);
    assert prices[0..|prices| - 1] == prices[..|prices| - 1];
  }

  lemma {:induction false} ReturnsFromAppend(p: seq<real>, x: real, k: nat)
    requires 1 <= k <= |p|
    ensures ReturnsFrom(p + [x], k)
         == ReturnsFrom(p, k) + (if p[|p| - 1] != 0.0 then [x / p[|p| - 1] - 1.0] else [])
    decreases |p| - k
  {
    var q := p + [x];
    if k < |p| {
      ReturnsFromAppend(p, x, k + 1);
      assert q[k - 1] == p[k - 1] && q[k] == p[k];
    } else {
      assert q[k - 1] == p[|p| - 1] && q[k] == x;
    }
  }

  /** A new price extends the series by exactly the return of the new last pair (none when
      the previous price is zero). With the empty series below two prices, this determines
      the series completely. */
  lemma ReturnSeriesAppend(prices: seq<real>, x: real)
    requires |prices| >= 1
    ensures ToReturnSeries(prices + [x])
         == ToReturnSeries(prices) + (if prices[|prices| - 1] != 0.0 then [x / prices[|prices| - 1] - 1.0] else [])
  {
    ReturnsFromAppend(prices, x, 1);
  }

  lemma {:induction false} ReturnsFromNoZeros(p: seq<real>, k: nat)
    requires 1 <= k <= |p|
    requires forall i :: k - 1 <= i < |p| - 1 ==> p[i] != 0.0
    ensures |ReturnsFrom(p, k)| == |p| - k
    ensures forall j :: 0 <= j < |p| - k ==> ReturnsFrom(p, k)[j] == p[k + j] / p[k + j - 1] - 1.0
    decreases |p| - k
  {
    if k < |p| {
      ReturnsFromNoZeros(p, k + 1);
      var r := ReturnsFrom(p, k);
      assert r == [p[k] / p[k - 1] - 1.0] + ReturnsFrom(p, k + 1);
      forall j | 1 <= j < |p| - k ensures r[j] == p[k + j] / p[k + j - 1] - 1.0 {
        assert r[j] == ReturnsFrom(p, k + 1)[j - 1];
      }
    }
  }

  /** Without zero prices (the last one aside) the series is exactly `p[i + 1] / p[i] - 1` for every i. */
  lemma ReturnSeriesNoZeros(prices: seq<real>)
    requires |prices| >= 1
    requires forall i :: 0 <= i < |prices| - 1 ==> prices[i] != 0.0
    ensures |ToReturnSeries(prices)| == |prices| - 1
    ensures forall j :: 0 <= j < |prices| - 1 ==> ToReturnSeries(prices)[j] == prices[j + 1] / prices[j] - 1.0
  {
    ReturnsFromNoZeros(prices, 1);
  }

  // ------------------------------------------------------- sums and moments

  function Sum(xs: seq<real>): real {
    if xs == [] then 0.0 else xs[0] + Sum(xs[1..])
  }

  /** `statistics.mean`. */
  function Mean(xs: seq<real>): real
    requires |xs| > 0
  {
    Sum(xs) / (|xs| as real)
  }

  function Square(d: real): real { d * d }

  /** The sum of `(x - m) ** 2` over xs. */
  function SquaredDeviations(xs: seq<real>, m: real): real {
    if xs == [] then 0.0 else Square(xs[0] - m) + SquaredDeviations(xs[1..], m)
  }

  /** The sum of `(a - ma) * (b - mb)` over `zip(xs, ys)`. */
  function CrossDeviations(xs: seq<real>, ys: seq<real>, mx: real, my: real): real
    requires |xs| == |ys|
  {
    if xs == [] then 0.0 else (xs[0] - mx) * (ys[0] - my) + CrossDeviations(xs[1..], ys[1..], mx, my)
  }

  /** The population variance `sum((x - mean) ** 2) / n`. */
  function PopulationVariance(xs: seq<real>): real
    requires |xs| > 0
  {
    SquaredDeviations(xs, Mean(xs)) / (|xs| as real)
  }

  lemma SquareNonNegative(d: real)
    ensures Square(d) >= 0.0
    ensures d != 0.0 ==> Square(d) > 0.0
  {
    if d > 0.0 {
      calc {
        Square(d);
      ==
        d * d;
      >
        0.0;
      }
    } else if d < 0.0 {
      calc {
        Square(d);
      ==
        (-d) * (-d);
      >
        0.0;
      }
    }
  }

  lemma {:induction false} SquaredDeviationsNonNegative(xs: seq<real>, m: real)
    ensures SquaredDeviations(xs, m) >= 0.0
  {
    if xs != [] {
      SquaredDeviationsNonNegative(xs[1..], m);
      SquareNonNegative(xs[0] - m);
    }
  }

  /** The squared deviations are positive as soon as one element differs from the centre. */
  lemma {:induction false} SquaredDeviationsPositive(xs: seq<real>, m: real, i: nat)
    requires i < |xs| && xs[i] != m
    ensures SquaredDeviations(xs, m) > 0.0
  {
    SquaredDeviationsNonNegative(xs[1..], m);
    SquareNonNegative(xs[0] - m);
    if i > 0 {
      assert xs[1..][i - 1] == xs[i];
      SquaredDeviationsPositive(xs[1..], m, i - 1);
    }
  }

  /** The squared deviations vanish only when every element equals the centre. */
  lemma SquaredDeviationsZero(xs: seq<real>, m: real)
    requires SquaredDeviations(xs, m) == 0.0
    ensures forall i :: 0 <= i < |xs| ==> xs[i] == m
  {
    forall i | 0 <= i < |xs| ensures xs[i] == m {
      if xs[i] != m {
        SquaredDeviationsPositive(xs, m, i);
      }
    }
  }

  /** A constant sequence's squared deviations about that constant vanish. */
  lemma {:induction false} SquaredDeviationsOfConstant(xs: seq<real>, c: real)
    requires forall i :: 0 <= i < |xs| ==> xs[i] == c
    ensures SquaredDeviations(xs, c) == 0.0
  {
    if xs != [] {
      SquaredDeviationsOfConstant(xs[1..], c);
    }
  }

  lemma {:induction false} SumOfConstant(xs: seq<real>, c: real)
    requires forall i :: 0 <= i < |xs| ==> xs[i] == c
    ensures Sum(xs) == (|xs| as real) * c
  {
    if xs != [] {
      SumOfConstant(xs[1..], c);
    }
  }

  lemma MeanOfConstant(xs: seq<real>, c: real)
    requires |xs| > 0
    requires forall i :: 0 <= i < |xs| ==> xs[i] == c
    ensures Mean(xs) == c
  {
    SumOfConstant(xs, c);
    var n := |xs| as real;
    assert Sum(xs) == n * c;
    assert n * c / n == c;
  }

  /** Cross deviations of a series with itself are its squared deviations. */
  lemma {:induction false} CrossDeviationsWithItself(xs: seq<real>, m: real)
    ensures CrossDeviations(xs, xs, m, m) == SquaredDeviations(xs, m)
  {
    if xs != [] {
      CrossDeviationsWithItself(xs[1..], m);
    }
  }

  // ------------------------------------------------------------- volatility

  /** A population standard deviation, kept symbolic: `PStdDev(v)` stands for the
      non-negative square root of the variance `v`. The square root itself is not modelled. */
  datatype StdDev = PStdDev(variance: real)

  /** `calculate_volatility`: the population standard deviation of the return series,
      with the floor 0.0 when fewer than two returns exist. */
  function CalculateVolatility(prices: seq<real>): (r: StdDev)
    ensures r.variance >= 0.0
    ensures |ToReturnSeries(prices)| < 2 ==> r == PStdDev(0.0)
  {
    var series := ToReturnSeries(prices);
    if |series| < 2 then PStdDev(0.0)
    else
      SquaredDeviationsNonNegative(series, Mean(series));
      PStdDev(PopulationVariance(series))
  }

  /** With at least two returns, the volatility is zero exactly when all returns are equal. */
  lemma VolatilityZeroIffFlatReturns(prices: seq<real>)
    requires |ToReturnSeries(prices)| >= 2
    ensures CalculateVolatility(prices).variance == 0.0
        <==> forall i :: 0 <= i < |ToReturnSeries(prices)| ==> ToReturnSeries(prices)[i] == ToReturnSeries(prices)[0]
  {
    var series := ToReturnSeries(prices);
    var m := Mean(series);
    if SquaredDeviations(series, m) == 0.0 {
      SquaredDeviationsZero(series, m);
    }
    if forall i :: 0 <= i < |series| ==> series[i] == series[0] {
      MeanOfConstant(series, series[0]);
      SquaredDeviationsOfConstant(series, series[0]);
    }
  }

  // ------------------------------------------------------------------- beta

  /** Beta over two aligned return series of the same, non-zero length:
      population covariance over the benchmark's population variance, 0.0 for a zero variance. */
  function AlignedBeta(assetReturns: seq<real>, benchmarkReturns: seq<real>): real
    requires |assetReturns| == |benchmarkReturns| > 0
  {
    var length := |benchmarkReturns| as real;
    var benchmarkMean := Mean(benchmarkReturns);
    var assetMean := Mean(assetReturns);
    var covariance := CrossDeviations(assetReturns, benchmarkReturns, assetMean, benchmarkMean) / length;
    var variance := SquaredDeviations(benchmarkReturns, benchmarkMean) / length;
    if variance == 0.0 then 0.0 else covariance / variance
  }

  /** Beta over two return series: both are cut to the most recent `min(len)` returns. */
  function BetaOfReturns(assetReturns: seq<real>, benchmarkReturns: seq<real>): (b: real)
    ensures assetReturns == [] || benchmarkReturns == [] ==> b == 0.0
  {
    var length := Min(|assetReturns|, |benchmarkReturns|);
    if length == 0 then 0.0
    else AlignedBeta(assetReturns[|assetReturns| - length..], benchmarkReturns[|benchmarkReturns| - length..])
  }

  /** `calculate_beta`. */
  function CalculateBeta(assetPrices: seq<real>, benchmarkPrices: seq<real>): (b: real)
    ensures ToReturnSeries(assetPrices) == [] || ToReturnSeries(benchmarkPrices) == [] ==> b == 0.0
    ensures |assetPrices| < 2 || |benchmarkPrices| < 2 ==> b == 0.0
  {
    BetaOfReturns(ToReturnSeries(assetPrices), ToReturnSeries(benchmarkPrices))
  }

  /** Only the most recent returns take part: older asset returns beyond the benchmark's length are ignored. */
  lemma BetaIgnoresOlderAssetReturns(older: seq<real>, assetReturns: seq<real>, benchmarkReturns: seq<real>)
    requires |assetReturns| >= |benchmarkReturns|
    ensures BetaOfReturns(older + assetReturns, benchmarkReturns) == BetaOfReturns(assetReturns, benchmarkReturns)
  {
    var n := |benchmarkReturns|;
    var full := older + assetReturns;
    assert full[|full| - n..] == assetReturns[|assetReturns| - n..];
  }

  /** Symmetrically, older benchmark returns beyond the asset's length are ignored. */
  lemma BetaIgnoresOlderBenchmarkReturns(older: seq<real>, assetReturns: seq<real>, benchmarkReturns: seq<real>)
    requires |benchmarkReturns| >= |assetReturns|
    ensures BetaOfReturns(assetReturns, older + benchmarkReturns) == BetaOfReturns(assetReturns, benchmarkReturns)
  {
    var n := |assetReturns|;
    var full := older + benchmarkReturns;
    assert full[|full| - n..] == benchmarkReturns[|benchmarkReturns| - n..];
  }

  /** A benchmark whose recent returns are all equal has zero variance, so beta is 0.0. */
  lemma BetaOfFlatBenchmarkReturns(assetReturns: seq<real>, benchmarkReturns: seq<real>, c: real)
    requires forall i :: 0 <= i < |benchmarkReturns| ==> benchmarkReturns[i] == c
    ensures BetaOfReturns(assetReturns, benchmarkReturns) == 0.0
  {
    var length := Min(|assetReturns|, |benchmarkReturns|);
    if length > 0 {
      var tail := benchmarkReturns[|benchmarkReturns| - length..];
      assert forall i :: 0 <= i < |tail| ==> tail[i] == c;
      MeanOfConstant(tail, c);
      SquaredDeviationsOfConstant(tail, c);
    }
  }

  /** A series of zero prices has no returns at all. */
  lemma ZeroPricesHaveNoReturns(prices: seq<real>)
    requires |prices| >= 2
    requires forall i :: 0 <= i < |prices| ==> prices[i] == 0.0
    ensures ToReturnSeries(prices) == []
  {
    ReturnSeriesLength(prices);
    assert prices[..|prices| - 1] == seq(|prices| - 1, _ => 0.0);
    MultisetOfZeros(|prices| - 1);
  }

  /** A flat series of a non-zero price has only zero returns. */
  lemma FlatNonZeroPricesHaveZeroReturns(prices: seq<real>)
    requires |prices| >= 2 && prices[0] != 0.0
    requires forall i :: 0 <= i < |prices| ==> prices[i] == prices[0]
    ensures forall j :: 0 <= j < |ToReturnSeries(prices)| ==> ToReturnSeries(prices)[j] == 0.0
  {
    ReturnSeriesNoZeros(prices);
    var r := ToReturnSeries(prices);
    forall j | 0 <= j < |r| ensures r[j] == 0.0 {
      assert r[j] == prices[j + 1] / prices[j] - 1.0;
      assert prices[j + 1] == prices[0] && prices[j] == prices[0];
    }
  }

  /** A flat price series has only zero returns (or none, when the price is zero). */
  lemma FlatPricesHaveZeroReturns(prices: seq<real>)
    requires forall i :: 0 <= i < |prices| ==> prices[i] == prices[0]
    ensures forall j :: 0 <= j < |ToReturnSeries(prices)| ==> ToReturnSeries(prices)[j] == 0.0
  {
    if |prices| >= 2 {
      if prices[0] == 0.0 {
        ZeroPricesHaveNoReturns(prices);
      } else {
        FlatNonZeroPricesHaveZeroReturns(prices);
      }
    }
  }

  /** A flat benchmark price series (such as [50, 50, 50]) gives beta 0.0 against any asset. */
  lemma BetaOfFlatBenchmark(assetPrices: seq<real>, benchmarkPrices: seq<real>)
    requires forall i :: 0 <= i < |benchmarkPrices| ==> benchmarkPrices[i] == benchmarkPrices[0]
    ensures CalculateBeta(assetPrices, benchmarkPrices) == 0.0
  {
    FlatPricesHaveZeroReturns(benchmarkPrices);
    BetaOfFlatBenchmarkReturns(ToReturnSeries(assetPrices), ToReturnSeries(benchmarkPrices), 0.0);
  }

  lemma {:induction false} MultisetOfZeros(n: nat)
    ensures multiset(seq(n, _ => 0.0))[0.0] == n
  {
    if n > 0 {
      MultisetOfZeros(n - 1);
      assert seq(n, _ => 0.0) == seq(n - 1, _ => 0.0) + [0.0];
    }
  }

  /** A series measured against itself has beta exactly 1, unless its returns are flat. */
  lemma BetaOfIdenticalSeries(prices: seq<real>)
    requires exists i, j :: 0 <= i < j < |ToReturnSeries(prices)| && ToReturnSeries(prices)[i] != ToReturnSeries(prices)[j]
    ensures CalculateBeta(prices, prices) == 1.0
  {
    var r := ToReturnSeries(prices);
    var m := Mean(r);
    assert r[|r| - |r|..] == r;
    CrossDeviationsWithItself(r, m);
    SquaredDeviationsNonNegative(r, m);
    if SquaredDeviations(r, m) == 0.0 {
      SquaredDeviationsZero(r, m);
      assert false;
    }
  }

  // --------------------------------------------------------------- drawdown

  /** The running peak after seeing `s[..i + 1]`: `peak = max(peak, price)` starting from `s[0]`. */
  function Peak(s: seq<real>, i: nat): real
    requires i < |s|
  {
    if i == 0 then s[0] else MaxReal(Peak(s, i - 1), s[i])
  }

  /** The drawdown `(price - peak) / peak` at point i; a point whose peak is zero is skipped,
      which is the same as a drawdown of 0.0 since the running minimum starts at 0.0. */
  function DrawdownAt(s: seq<real>, i: nat): real
    requires i < |s|
  {
    var peak := Peak(s, i);
    if peak == 0.0 then 0.0 else (s[i] - peak) / peak
  }

  /** The peak is the maximum of the prefix seen so far. */
  lemma {:induction false} PeakIsPrefixMaximum(s: seq<real>, i: nat)
    requires i < |s|
    ensures forall j :: 0 <= j <= i ==> s[j] <= Peak(s, i)
    ensures exists j :: 0 <= j <= i && Peak(s, i) == s[j]
  {
    if i > 0 {
      PeakIsPrefixMaximum(s, i - 1);
      if s[i] < Peak(s, i - 1) {
        var j :| 0 <= j <= i - 1 && Peak(s, i - 1) == s[j];
        assert Peak(s, i) == s[j];
      } else {
        assert Peak(s, i) == s[i];
      }
    } else {
      assert Peak(s, 0) == s[0];
    }
  }

  /** The largest drop among the first `k` points, as a non-negative fraction (0.0 when none). */
  function WorstDrawdown(s: seq<real>, k: nat): real
    requires k <= |s|
  {
    if k == 0 then 0.0 else MaxReal(WorstDrawdown(s, k - 1), -DrawdownAt(s, k - 1))
  }

  /** The maximum drawdown of a whole series, as a value. */
  function MaxDrawdown(prices: seq<real>): real {
    WorstDrawdown(prices, |prices|)
  }

  /** `calculate_max_drawdown`: the largest drop from a running peak, as a non-negative fraction. */
  method CalculateMaxDrawdown(prices: seq<real>) returns (r: real)
    ensures r == MaxDrawdown(prices)
    ensures r >= 0.0
    ensures forall i :: 0 <= i < |prices| ==> -DrawdownAt(prices, i) <= r
    ensures r == 0.0 || exists i :: 0 <= i < |prices| && r == -DrawdownAt(prices, i)
    ensures prices == [] ==> r == 0.0
  {
    if prices == [] {
      return 0.0;
    }
    var peak := prices[0];
    var maxDrawdown := 0.0;
    for k := 0 to |prices|
      invariant peak == if k == 0 then prices[0] else Peak(prices, k - 1)
      invariant maxDrawdown <= 0.0
      invariant forall i :: 0 <= i < k ==> maxDrawdown <= DrawdownAt(prices, i)
      invariant maxDrawdown == 0.0 || exists i :: 0 <= i < k && maxDrawdown == DrawdownAt(prices, i)
      invariant maxDrawdown == -WorstDrawdown(prices, k)
    {
      var price := prices[k];
      peak := MaxReal(peak, price);
      assert peak == Peak(prices, k);
      if peak != 0.0 {
        var drawdown := (price - peak) / peak;
        assert drawdown == DrawdownAt(prices, k);
        maxDrawdown := MinReal(maxDrawdown, drawdown);
      }
    }
    r := if maxDrawdown < 0.0 then -maxDrawdown else maxDrawdown;
  }

  /** On a non-decreasing series every point is its own peak, so no drawdown occurs
      and the maximum drawdown is exactly 0.0. */
  lemma NonDecreasingHasNoDrawdown(s: seq<real>)
    requires forall i, j :: 0 <= i <= j < |s| ==> s[i] <= s[j]
    ensures forall i :: 0 <= i < |s| ==> DrawdownAt(s, i) == 0.0
    ensures MaxDrawdown(s) == 0.0
  {
    forall i | 0 <= i < |s| ensures Peak(s, i) == s[i] {
      PeakIsPrefixMaximum(s, i);
    }
    NoDrawdownUpTo(s, |s|);
  }

  /** With no drop among the first k points, the worst drop over them is 0.0. */
  lemma {:induction false} NoDrawdownUpTo(s: seq<real>, k: nat)
    requires k <= |s|
    requires forall i :: 0 <= i < k ==> DrawdownAt(s, i) == 0.0
    ensures WorstDrawdown(s, k) == 0.0
  {
    if k > 0 {
      NoDrawdownUpTo(s, k - 1);
    }
  }

  /** On [100, 90, 95] the drawdowns are 0, -0.1 and -0.05: the maximum drawdown is 0.1. */
  lemma DrawdownExample()
    ensures forall i :: 0 <= i < 3 ==> -DrawdownAt([100.0, 90.0, 95.0], i) <= 0.1
    ensures -DrawdownAt([100.0, 90.0, 95.0], 1) == 0.1
    ensures MaxDrawdown([100.0, 90.0, 95.0]) == 0.1
  {
    var s := [100.0, 90.0, 95.0];
    assert Peak(s, 0) == 100.0 && Peak(s, 1) == 100.0 && Peak(s, 2) == 100.0;
    assert WorstDrawdown(s, 1) == 0.0;
    assert WorstDrawdown(s, 2) == 0.1;
    assert WorstDrawdown(s, 3) == 0.1;
  }
}
