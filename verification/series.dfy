/**
 * Moving averages and Bollinger bands of the indicator engine (api.js):
 * the point average, the two trailing series, and the band triple.
 */
module Series {
  import opened Wrappers
  import opened Seqs

  /** One chart sample `{x, y}`: epoch milliseconds and a value or `null`. */
  datatype Point = Point(x: int, y: Option<real>)

  /** One ingested close `{x, c}`. */
  datatype Close = Close(x: int, c: real)

  /** One ingested candle `{x, o, h, l, c}`. */
  datatype Candle = Candle(x: int, o: real, h: real, l: real, c: real)

  /** The three Bollinger series, each aligned with the candles. */
  datatype Bands = Bands(upper: seq<Point>, middle: seq<Point>, lower: seq<Point>)

  /** The close values of a close series. */
  function CloseValues(closes: seq<Close>): (vs: seq<real>)
    ensures |vs| == |closes|
    ensures forall i :: 0 <= i < |closes| ==> vs[i] == closes[i].c
  {
    seq(|closes|, i requires 0 <= i < |closes| => closes[i].c)
  }

  /** A candle series seen as its `{x, c}` closes. */
  function CandlesAsCloses(candles: seq<Candle>): (cs: seq<Close>)
    ensures |cs| == |candles|
    ensures forall i :: 0 <= i < |candles| ==> cs[i] == Close(candles[i].x, candles[i].c)
  {
    seq(|candles|, i requires 0 <= i < |candles| => Close(candles[i].x, candles[i].c))
  }

  /** The trailing window of `period` values ending at index `i`. */
  function Window(v: seq<real>, i: nat, period: nat): (w: seq<real>)
    requires 1 <= period <= i + 1 && i < |v|
    ensures |w| == period
  {
    v[i - period + 1..i + 1]
  }

  /**
   * `calculateMovingAverage`: the mean of the last `period` prices, the
   * period silently reduced to the number of prices available. A period of
   * 0 makes `slice(-0)` take the whole list. An empty list divides 0 by 0;
   * that NaN is `None`.
   */
  function MovingAverage(prices: seq<real>, period: nat): (r: Option<real>)
    ensures r.Some? <==> |prices| > 0
    ensures 0 < |prices| && period == 0 ==> r == Some(Mean(prices))
    ensures 0 < |prices| && 0 < period ==>
      var n := if period < |prices| then period else |prices|;
      r == Some(Mean(prices[|prices| - n..]))
  {
    var p := if |prices| < period then |prices| else period;
    var relevant := if p == 0 then prices else prices[|prices| - p..];
    if |relevant| == 0 then None else Some(Sum(relevant) / |relevant| as real)
  }

  /**
   * `calculateMovingAverageArray`: one entry per price, `null` until a full
   * trailing window of `period` prices exists, then the window's mean.
   */
  function SmaSeries(prices: seq<real>, period: nat): (r: seq<Option<real>>)
    requires 1 <= period
    ensures |r| == |prices|
    ensures forall i :: 0 <= i < |prices| ==> (r[i].None? <==> i < period - 1)
    ensures forall i :: period - 1 <= i < |prices| ==>
      r[i] == Some(Mean(prices[i - period + 1..i + 1]))
  {
    seq(|prices|, i requires 0 <= i < |prices| =>
      if i < period - 1 then None else Some(Sum(prices[i - period + 1..i + 1]) / period as real))
  }

  /**
   * The running sum of `calculateSMAFromCloses` and `calculateBollingerBands`:
   * `v[i] + v[i-1] + ... + v[i-k+1]`, accumulated newest first.
   */
  function BackSum(v: seq<real>, i: nat, k: nat): real
    requires k <= i + 1 && i < |v|
  {
    if k == 0 then 0.0 else BackSum(v, i, k - 1) + v[i - (k - 1)]
  }

  /** The newest-first running sum is the sum of the trailing window. */
  lemma {:induction false} BackSumIsWindowSum(v: seq<real>, i: nat, k: nat)
    requires k <= i + 1 && i < |v|
    ensures BackSum(v, i, k) == Sum(v[i - k + 1..i + 1])
  {
    if k == 0 {
      assert v[i + 1..i + 1] == [];
    } else {
      BackSumIsWindowSum(v, i, k - 1);
      var w := v[i - k + 1..i + 1];
      assert w[1..] == v[i - k + 2..i + 1];
    }
  }

  /**
   * `calculateSMAFromCloses`: one point per close, carrying the close's
   * timestamp, `null` until `period` closes exist, then the trailing mean.
   */
  function SmaFromCloses(closes: seq<Close>, period: nat): (r: seq<Point>)
    requires 1 <= period
    ensures |r| == |closes|
    ensures forall i :: 0 <= i < |closes| ==> r[i].x == closes[i].x
    ensures forall i :: 0 <= i < |closes| ==> (r[i].y.None? <==> i < period - 1)
  {
    var vs := CloseValues(closes);
    seq(|closes|, i requires 0 <= i < |closes| =>
      Point(closes[i].x,
            if i < period - 1 then None else Some(BackSum(vs, i, period) / period as real)))
  }

  /** Two different loops, one value: the close-series SMA is the array SMA. */
  lemma SmaFromClosesMatchesSeries(closes: seq<Close>, period: nat)
    requires 1 <= period
    ensures forall i :: 0 <= i < |closes| ==>
      SmaFromCloses(closes, period)[i].y == SmaSeries(CloseValues(closes), period)[i]
  {
    var vs := CloseValues(closes);
    forall i | period - 1 <= i < |closes|
      ensures SmaFromCloses(closes, period)[i].y == SmaSeries(vs, period)[i]
    {
      BackSumIsWindowSum(vs, i, period);
    }
  }

  /** The point average of a full window is the last entry of the series. */
  lemma MovingAverageIsSeriesTail(prices: seq<real>, period: nat)
    requires 1 <= period <= |prices|
    ensures MovingAverage(prices, period) == SmaSeries(prices, period)[|prices| - 1]
  {
    var n := |prices|;
    assert prices[n - period..] == prices[n - period + 1 - 1..n - 1 + 1];
  }

  /** Too short a history degrades to the mean of everything available. */
  lemma MovingAverageClamps(prices: seq<real>, period: nat)
    requires 0 < |prices| <= period
    ensures MovingAverage(prices, period) == Some(Mean(prices))
  {
    assert prices[|prices| - |prices|..] == prices;
  }

  /**
   * Sliding-window form of the series: each full-window entry is the previous
   * one plus the newest price minus the price that left the window, over the
   * period.
   */
  lemma SmaSeriesSlides(prices: seq<real>, period: nat, i: nat)
    requires 1 <= period && period <= i < |prices|
    ensures SmaSeries(prices, period)[i].value ==
      SmaSeries(prices, period)[i - 1].value + (prices[i] - prices[i - period]) / period as real
  {
    var p := period;
    var mid := prices[i - p + 1..i];
    var prev := prices[i - p..i];
    var cur := prices[i - p + 1..i + 1];
    assert Sum(prev) == prices[i - p] + Sum(mid) by {
      assert prev[1..] == mid;
    }
    assert Sum(cur) == Sum(mid) + prices[i] by {
      assert cur == mid + [prices[i]];
      SumAppend(mid, [prices[i]]);
    }
    var q := p as real;
    DivideSum(Sum(prev), prices[i] - prices[i - p], q);
    assert SmaSeries(prices, p)[i] == Some(Sum(cur) / q);
    assert SmaSeries(prices, p)[i - 1] == Some(Sum(prev) / q) by {
      assert prices[i - 1 - p + 1..i - 1 + 1] == prev;
    }
  }

  lemma DivideSum(a: real, b: real, q: real)
    requires q != 0.0
    ensures (a + b) / q == a / q + b / q
  {
  }

  /** Every defined entry of the series lies within the range of its window. */
  lemma SmaSeriesWithinWindow(prices: seq<real>, period: nat, i: nat)
    requires 1 <= period && period - 1 <= i < |prices|
    ensures var w := prices[i - period + 1..i + 1];
      Min(w) <= SmaSeries(prices, period)[i].value <= Max(w)
  {
    MeanBounds(prices[i - period + 1..i + 1]);
  }

  /** The defining property of the square-root function passed in for `Math.sqrt`. */
  ghost predicate IsSqrt(sqrt: real -> real) {
    forall v :: 0.0 <= v ==> 0.0 <= sqrt(v) && sqrt(v) * sqrt(v) == v
  }

  /** `(v[i] - m)^2` for every element. */
  function SquaredDeviations(v: seq<real>, m: real): (d: seq<real>)
    ensures |d| == |v|
    ensures forall i :: 0 <= i < |v| ==> d[i] == (v[i] - m) * (v[i] - m)
  {
    seq(|v|, i requires 0 <= i < |v| => (v[i] - m) * (v[i] - m))
  }

  lemma SquaresNonNegative(v: seq<real>, m: real)
    ensures forall i :: 0 <= i < |v| ==> 0.0 <= SquaredDeviations(v, m)[i]
  {
    forall i | 0 <= i < |v|
      ensures 0.0 <= SquaredDeviations(v, m)[i]
    {
      var x := v[i] - m;
      if x < 0.0 {
        MulNonNegative(-x, -x);
      } else {
        MulNonNegative(x, x);
      }
    }
  }

  lemma DivideNonNegative(a: real, n: real)
    requires 0.0 <= a && 0.0 < n
    ensures 0.0 <= a / n
  {
    DivideBounds(a, n, 0.0, a / n);
  }

  /** Population variance: the mean squared deviation from the mean (divisor |w|). */
  function PopulationVariance(w: seq<real>): (var_: real)
    requires |w| > 0
    ensures 0.0 <= var_
  {
    var d := SquaredDeviations(w, Mean(w));
    SquaresNonNegative(w, Mean(w));
    SumNonNegative(d);
    DivideNonNegative(Sum(d), |d| as real);
    Mean(d)
  }

  /** Population standard deviation: the non-negative square root of the population variance. */
  function PopulationStdDev(w: seq<real>, sqrt: real -> real): real
    requires |w| > 0
  {
    sqrt(PopulationVariance(w))
  }

  /** The standard deviation is the non-negative root of the variance. */
  lemma PopulationStdDevIsRoot(w: seq<real>, sqrt: real -> real)
    requires IsSqrt(sqrt) && |w| > 0
    ensures 0.0 <= PopulationStdDev(w, sqrt)
    ensures PopulationStdDev(w, sqrt) * PopulationStdDev(w, sqrt) == PopulationVariance(w)
  {
  }

  /** One band sample: middle, and middle plus and minus `width` deviations. */
  datatype Band = Band(upper: real, middle: real, lower: real)

  /** The loop's `sum / period` over the window ending at `i`. */
  function WindowAverage(v: seq<real>, i: nat, period: nat): real
    requires 1 <= period <= i + 1 && i < |v|
  {
    BackSum(v, i, period) / period as real
  }

  /** The loop's `squaredDiffs.reduce(...) / period` around the mean `m`. */
  function WindowVariance(v: seq<real>, i: nat, period: nat, m: real): (var_: real)
    requires 1 <= period <= i + 1 && i < |v|
    ensures 0.0 <= var_
  {
    var d := SquaredDeviations(v, m);
    var total := BackSum(d, i, period);
    assert 0.0 <= total by {
      SquaresNonNegative(v, m);
      BackSumIsWindowSum(d, i, period);
      SumNonNegative(d[i - period + 1..i + 1]);
    }
    DivideNonNegative(total, period as real);
    total / period as real
  }

  /**
   * The body of the `calculateBollingerBands` loop at index `i`: the
   * window mean, the standard deviation of the window, and the two offsets.
   */
  function BandAt(v: seq<real>, i: nat, period: nat, width: real, sqrt: real -> real): (b: Band)
    requires IsSqrt(sqrt) && 1 <= period <= i + 1 && i < |v|
    ensures b.upper - b.middle == b.middle - b.lower
    ensures 0.0 <= width ==> b.lower <= b.middle <= b.upper
  {
    var sma := WindowAverage(v, i, period);
    var sd := sqrt(WindowVariance(v, i, period, sma));
    assert 0.0 <= width ==> 0.0 <= width * sd;
    Band(sma + width * sd, sma, sma - width * sd)
  }

  /**
   * `calculateBollingerBands`: three series aligned with the candles, all
   * `null` until a full window of `period` candles exists.
   */
  function BollingerBands(candles: seq<Candle>, period: nat, width: real, sqrt: real -> real): (r: Bands)
    requires IsSqrt(sqrt) && 1 <= period
    ensures |r.upper| == |r.middle| == |r.lower| == |candles|
    ensures forall i :: 0 <= i < |candles| ==>
      r.upper[i].x == r.middle[i].x == r.lower[i].x == candles[i].x
    ensures forall i :: 0 <= i < |candles| ==>
      && (r.upper[i].y.None? <==> i < period - 1)
      && (r.middle[i].y.None? <==> i < period - 1)
      && (r.lower[i].y.None? <==> i < period - 1)
  {
    var v := CloseValues(CandlesAsCloses(candles));
    var n := |candles|;
    Bands(
      seq(n, i requires 0 <= i < n =>
        Point(candles[i].x, if i < period - 1 then None else Some(BandAt(v, i, period, width, sqrt).upper))),
      seq(n, i requires 0 <= i < n =>
        Point(candles[i].x, if i < period - 1 then None else Some(BandAt(v, i, period, width, sqrt).middle))),
      seq(n, i requires 0 <= i < n =>
        Point(candles[i].x, if i < period - 1 then None else Some(BandAt(v, i, period, width, sqrt).lower))))
  }

  /**
   * The bands are symmetric about the middle band, and ordered
   * `lower <= middle <= upper` whenever the width is non-negative.
   */
  lemma BollingerOrdered(candles: seq<Candle>, period: nat, width: real, sqrt: real -> real)
    requires IsSqrt(sqrt) && 1 <= period
    ensures var r := BollingerBands(candles, period, width, sqrt);
      forall i :: period - 1 <= i < |candles| ==>
        r.upper[i].y.value - r.middle[i].y.value == r.middle[i].y.value - r.lower[i].y.value
    ensures var r := BollingerBands(candles, period, width, sqrt);
      0.0 <= width ==> forall i :: period - 1 <= i < |candles| ==>
        r.lower[i].y.value <= r.middle[i].y.value <= r.upper[i].y.value
  {
    var r := BollingerBands(candles, period, width, sqrt);
    forall i | period - 1 <= i < |candles|
      ensures r.upper[i].y.value - r.middle[i].y.value == r.middle[i].y.value - r.lower[i].y.value
      ensures 0.0 <= width ==> r.lower[i].y.value <= r.middle[i].y.value <= r.upper[i].y.value
    {
      BollingerAt(candles, period, width, sqrt, i);
    }
  }

  /** The middle band is exactly the close-series SMA of the candles' closes. */
  lemma BollingerMiddleIsSma(candles: seq<Candle>, period: nat, width: real, sqrt: real -> real)
    requires IsSqrt(sqrt) && 1 <= period
    ensures BollingerBands(candles, period, width, sqrt).middle == SmaFromCloses(CandlesAsCloses(candles), period)
  {
    var m := BollingerBands(candles, period, width, sqrt).middle;
    var s := SmaFromCloses(CandlesAsCloses(candles), period);
    forall i | 0 <= i < |candles|
      ensures m[i] == s[i]
    {
    }
  }

  /** The loop's window average is the mean of the trailing window. */
  lemma WindowAverageIsMean(v: seq<real>, i: nat, period: nat)
    requires 1 <= period <= i + 1 && i < |v|
    ensures WindowAverage(v, i, period) == Mean(v[i - period + 1..i + 1])
  {
    BackSumIsWindowSum(v, i, period);
  }

  /** The loop's variance is the population variance of the trailing window. */
  lemma WindowVarianceIsPopulation(v: seq<real>, i: nat, period: nat)
    requires 1 <= period <= i + 1 && i < |v|
    ensures var w := v[i - period + 1..i + 1];
      WindowVariance(v, i, period, Mean(w)) == PopulationVariance(w)
  {
    var w := v[i - period + 1..i + 1];
    var d := SquaredDeviations(v, Mean(w));
    var e := SquaredDeviations(w, Mean(w));
    forall k | 0 <= k < period
      ensures d[i - period + 1..i + 1][k] == e[k]
    {
      assert w[k] == v[i - period + 1 + k];
    }
    assert d[i - period + 1..i + 1] == e;
    BackSumIsWindowSum(d, i, period);
  }

  /** Index `i` of the three series is the loop body's band sample. */
  lemma BollingerAt(candles: seq<Candle>, period: nat, width: real, sqrt: real -> real, i: nat)
    requires IsSqrt(sqrt) && 1 <= period && period - 1 <= i < |candles|
    ensures var r := BollingerBands(candles, period, width, sqrt);
      var b := BandAt(CloseValues(CandlesAsCloses(candles)), i, period, width, sqrt);
      r.upper[i].y == Some(b.upper) && r.middle[i].y == Some(b.middle) && r.lower[i].y == Some(b.lower)
  {
  }

  /**
   * One band sample in terms of its window: the middle is the window's mean
   * and the offsets are `width` population standard deviations (variance
   * divisor `period`).
   */
  lemma BandAtPopulation(v: seq<real>, i: nat, period: nat, width: real, sqrt: real -> real)
    requires IsSqrt(sqrt) && 1 <= period <= i + 1 && i < |v|
    ensures BandAt(v, i, period, width, sqrt).middle == Mean(Window(v, i, period))
    ensures BandAt(v, i, period, width, sqrt).upper
      == Mean(Window(v, i, period)) + width * PopulationStdDev(Window(v, i, period), sqrt)
    ensures BandAt(v, i, period, width, sqrt).lower
      == Mean(Window(v, i, period)) - width * PopulationStdDev(Window(v, i, period), sqrt)
  {
    var w := v[i - period + 1..i + 1];
    WindowAverageIsMean(v, i, period);
    WindowVarianceIsPopulation(v, i, period);
  }
}
