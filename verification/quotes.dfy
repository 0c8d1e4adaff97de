/**
 * The two public computations of the indicator engine (api.js):
 * `getStockData`, the summary shown on a dashboard card, and
 * `getCandlestickData`, the series behind the candlestick chart. Both take
 * the already-fetched provider payloads; fetching, caching and queueing are
 * modelled in `Cache` and `Scheduler`.
 */
module Quotes {
  import opened Wrappers
  import opened Seqs
  import opened Series
  import opened Interpolation
  import opened Payloads
  import opened Ingest
  import opened Text

  /**
   * `(delta / base) * 100`; `None` where JavaScript yields NaN or an
   * infinity (a zero base).
   */
  function PercentOf(delta: real, base: real): (p: Option<real>)
    ensures p.Some? <==> base != 0.0
    ensures p.Some? ==> p.value * base == delta * 100.0
  {
    if base == 0.0 then None else Some(delta / base * 100.0)
  }

  /** Over a positive base the percentage has the sign of the change. */
  lemma PercentSign(delta: real, base: real)
    requires base > 0.0
    ensures PercentOf(delta, base).Some?
    ensures PercentOf(delta, base).value >= 0.0 <==> delta >= 0.0
  {
    var p := PercentOf(delta, base).value;
    assert p * base == delta * 100.0;
    if p < 0.0 {
      assert p * base < 0.0;
    }
    if delta < 0.0 {
      assert p * base < 0.0;
    }
  }

  /** The card summary `getStockData` returns; numbers are unrounded. */
  datatype Summary = Summary(
    symbol: string,
    currentPrice: real,
    dayChange: real,
    dayChangePercent: Option<real>,
    weeklyChange: real,
    weeklyChangePercent: Option<real>,
    chartPrices: seq<real>,
    chartMA50: seq<Option<real>>,
    vsMA50: Option<real>,
    vsMA200: Option<real>,
    isPositive: bool,
    isWeeklyPositive: bool)

  /** The non-null daily closes of the first daily result. */
  function DailyCloses(daily: Payload): seq<real>
    requires FirstResult(daily).Some?
  {
    PresentValues(FirstResult(daily).value.quote.close)
  }

  /** `dailyCloses.slice(-7)[0]`: the seventh close from the end, or the first if fewer exist. */
  function WeekAgoClose(closes: seq<real>): (c: real)
    requires |closes| > 0
    ensures |closes| >= 7 ==> c == closes[|closes| - 7]
    ensures |closes| < 7 ==> c == closes[0]
  {
    var tail := if |closes| >= 7 then closes[|closes| - 7..] else closes;
    tail[0]
  }

  /** `(price - ma) / ma * 100`, `None` when the average is NaN or zero. */
  function VersusAverage(price: real, ma: Option<real>): (p: Option<real>)
    ensures p.Some? <==> ma.Some? && ma.value != 0.0
    ensures p.Some? ==> p.value * ma.value == (price - ma.value) * 100.0
  {
    if ma.None? then None else PercentOf(price - ma.value, ma.value)
  }

  /**
   * The summary built from the current price, the non-null daily closes
   * (at least two) and the non-null weekly closes.
   */
  function Summarize(symbol: string, price: real, closes: seq<real>, weeklyCloses: seq<real>): (s: Summary)
    requires |closes| >= 2
    ensures s.symbol == Upper(symbol) && s.currentPrice == price && s.chartPrices == weeklyCloses
    ensures s.currentPrice - s.dayChange == closes[|closes| - 2]
    ensures s.currentPrice - s.weeklyChange == WeekAgoClose(closes)
    ensures s.dayChangePercent == PercentOf(s.dayChange, closes[|closes| - 2])
    ensures s.weeklyChangePercent == PercentOf(s.weeklyChange, WeekAgoClose(closes))
    ensures s.chartMA50 == SmaSeries(weeklyCloses, 50)
    ensures s.vsMA50 == VersusAverage(price, MovingAverage(weeklyCloses, 50))
    ensures s.vsMA200 == VersusAverage(price, MovingAverage(weeklyCloses, 200))
    ensures s.isPositive <==> s.dayChange >= 0.0
    ensures s.isWeeklyPositive <==> s.weeklyChange >= 0.0
  {
    var previousClose := closes[|closes| - 2];
    var dayChange := price - previousClose;
    var weekAgo := WeekAgoClose(closes);
    var weeklyChange := price - weekAgo;
    Summary(
      Upper(symbol),
      price,
      dayChange,
      PercentOf(dayChange, previousClose),
      weeklyChange,
      PercentOf(weeklyChange, weekAgo),
      weeklyCloses,
      SmaSeries(weeklyCloses, 50),
      VersusAverage(price, MovingAverage(weeklyCloses, 50)),
      VersusAverage(price, MovingAverage(weeklyCloses, 200)),
      dayChange >= 0.0,
      weeklyChange >= 0.0)
  }

  /**
   * `getStockData`: fails with `NoData` without a daily result, with
   * `NotEnoughHistory` with fewer than two daily closes, with `MissingData`
   * (a TypeError) without a weekly result; otherwise the summary of the
   * first daily and first weekly result.
   */
  function StockData(symbol: string, daily: Payload, weekly: Payload): (r: Result<Summary, Error>)
    ensures FirstResult(daily).None? ==> r == Failure(NoData)
    ensures FirstResult(daily).Some? && |DailyCloses(daily)| < 2 ==> r == Failure(NotEnoughHistory)
    ensures FirstResult(daily).Some? && |DailyCloses(daily)| >= 2 && FirstResult(weekly).None? ==>
      r == Failure(MissingData)
    ensures r.Success? <==>
      FirstResult(daily).Some? && |DailyCloses(daily)| >= 2 && FirstResult(weekly).Some?
    ensures r.Success? ==>
      r.value == Summarize(symbol, FirstResult(daily).value.regularMarketPrice, DailyCloses(daily),
                           PresentValues(FirstResult(weekly).value.quote.close))
  {
    match FirstResult(daily)
    case None => Failure(NoData)
    case Some(d) =>
      var closes := PresentValues(d.quote.close);
      if |closes| < 2 then Failure(NotEnoughHistory)
      else match FirstResult(weekly)
      case None => Failure(MissingData)
      case Some(w) => Success(Summarize(symbol, d.regularMarketPrice, closes, PresentValues(w.quote.close)))
  }

  /**
   * The day change is measured from the second-to-last close, and its
   * percentage is relative to that close; over a positive close the card is
   * green exactly when the percentage is non-negative.
   */
  lemma DayChangeFromPreviousClose(symbol: string, price: real, closes: seq<real>, weeklyCloses: seq<real>)
    requires |closes| >= 2
    ensures var s := Summarize(symbol, price, closes, weeklyCloses);
      var prev := closes[|closes| - 2];
      && s.dayChange == price - prev
      && (s.dayChangePercent.Some? <==> prev != 0.0)
      && (s.dayChangePercent.Some? ==> s.dayChangePercent.value * prev == s.dayChange * 100.0)
      && (prev > 0.0 ==> (s.isPositive <==> s.dayChangePercent.value >= 0.0))
  {
    var s := Summarize(symbol, price, closes, weeklyCloses);
    var prev := closes[|closes| - 2];
    if prev > 0.0 {
      PercentSign(s.dayChange, prev);
    }
  }

  /**
   * The seven-day change is measured from the close six sessions before the
   * latest one (or the oldest close), and over a positive base its sign
   * decides the weekly colour.
   */
  lemma WeeklyChangeFromWeekAgo(symbol: string, price: real, closes: seq<real>, weeklyCloses: seq<real>)
    requires |closes| >= 2
    ensures var s := Summarize(symbol, price, closes, weeklyCloses);
      var base := if |closes| >= 7 then closes[|closes| - 7] else closes[0];
      && s.weeklyChange == price - base
      && (s.weeklyChangePercent.Some? <==> base != 0.0)
      && (base > 0.0 ==> (s.isWeeklyPositive <==> s.weeklyChangePercent.value >= 0.0))
  {
    var s := Summarize(symbol, price, closes, weeklyCloses);
    var base := WeekAgoClose(closes);
    if base > 0.0 {
      PercentSign(s.weeklyChange, base);
    }
  }

  /**
   * The chart series: the weekly closes and their 50-week SMA, aligned,
   * `null` for the first 49 weeks and the trailing mean afterwards; the
   * comparisons against the 50- and 200-week averages exist exactly when
   * there is a weekly close and the average is not zero.
   */
  lemma SummaryAverages(symbol: string, price: real, closes: seq<real>, weeklyCloses: seq<real>)
    requires |closes| >= 2
    ensures var s := Summarize(symbol, price, closes, weeklyCloses);
      && |s.chartMA50| == |weeklyCloses|
      && (forall i :: 0 <= i < |weeklyCloses| ==> (s.chartMA50[i].None? <==> i < 49))
      && (forall i :: 49 <= i < |weeklyCloses| ==> s.chartMA50[i] == Some(Mean(Window(weeklyCloses, i, 50))))
      && (s.vsMA50.Some? <==> |weeklyCloses| > 0 && MovingAverage(weeklyCloses, 50).value != 0.0)
      && (s.vsMA200.Some? <==> |weeklyCloses| > 0 && MovingAverage(weeklyCloses, 200).value != 0.0)
  {
  }

  /** A worked example: eight daily closes, a price of 100 and no weekly closes. */
  lemma SummaryExample()
    ensures var s := Summarize("aapl", 100.0, [100.0, 98.0, 95.0, 90.0, 92.0, 94.0, 96.0, 99.0], []);
      && s.symbol == "AAPL"
      && s.dayChange == 4.0
      && s.weeklyChange == 2.0
      && s.isPositive && s.isWeeklyPositive
      && s.vsMA50 == None && s.chartMA50 == []
  {
    assert Upper("aapl") == "AAPL";
  }

  /** What `getCandlestickData` returns. */
  datatype Chartset = Chartset(
    symbol: string,
    data: seq<Candle>,
    sma50w: seq<Point>,
    sma200w: seq<Point>,
    sma60m: seq<Point>,
    bands: Bands)

  /** Every series has one point per candle, at the candle's timestamp. */
  predicate Aligned(c: Chartset) {
    && |c.sma50w| == |c.sma200w| == |c.sma60m| == |c.data|
    && |c.bands.upper| == |c.bands.middle| == |c.bands.lower| == |c.data|
    && (forall i :: 0 <= i < |c.data| ==>
          && c.sma50w[i].x == c.data[i].x
          && c.sma200w[i].x == c.data[i].x
          && c.sma60m[i].x == c.data[i].x
          && c.bands.upper[i].x == c.data[i].x
          && c.bands.middle[i].x == c.data[i].x
          && c.bands.lower[i].x == c.data[i].x)
  }

  /** Provider arrays have an entry for every timestamp. */
  predicate WellFormed(candle: Payload, weekly: Payload, monthly: Payload) {
    && (FirstResult(candle).Some? ==> CoversOhlc(FirstResult(candle).value))
    && (FirstResult(weekly).Some? ==> CoversClose(FirstResult(weekly).value))
    && (FirstResult(monthly).Some? ==> CoversClose(FirstResult(monthly).value))
  }

  function Timestamps(candles: seq<Candle>): (ts: seq<int>)
    ensures |ts| == |candles|
    ensures forall i :: 0 <= i < |candles| ==> ts[i] == candles[i].x
  {
    seq(|candles|, i requires 0 <= i < |candles| => candles[i].x)
  }

  /** The Bollinger period and width the chart uses. */
  const BollingerPeriod: nat := 20
  const BollingerWidth: real := 2.0

  /**
   * `getCandlestickData`: fails with `NoData` without a candle result and
   * with `MissingData` (a TypeError) without a weekly or monthly result or
   * when any of the three ingested series is empty; otherwise the candles
   * with the 50- and 200-week and 60-month SMAs carried onto them and the
   * 20-period, 2-deviation Bollinger bands, all aligned with the candles.
   */
  function CandlestickData(symbol: string, candle: Payload, weekly: Payload, monthly: Payload,
                           sqrt: real -> real): (r: Result<Chartset, Error>)
    requires IsSqrt(sqrt) && WellFormed(candle, weekly, monthly)
    ensures FirstResult(candle).None? ==> r == Failure(NoData)
    ensures r.Failure? ==> r.error == NoData || r.error == MissingData
    ensures r.Success? <==>
      && FirstResult(candle).Some? && FirstResult(weekly).Some? && FirstResult(monthly).Some?
      && |IngestCandles(FirstResult(candle).value)| > 0
      && |IngestCloses(FirstResult(weekly).value)| > 0
      && |IngestCloses(FirstResult(monthly).value)| > 0
    ensures FirstResult(candle).Some? && r.Failure? ==> r.error == MissingData
    ensures r.Success? ==>
      && Aligned(r.value)
      && r.value.symbol == Upper(symbol)
      && r.value.data == IngestCandles(FirstResult(candle).value)
    ensures r.Success? ==>
      r.value == Chart(Upper(symbol), IngestCandles(FirstResult(candle).value),
        IngestCloses(FirstResult(weekly).value), IngestCloses(FirstResult(monthly).value), sqrt)
  {
    match FirstResult(candle)
    case None => Failure(NoData)
    case Some(cr) =>
      if FirstResult(weekly).None? || FirstResult(monthly).None? then Failure(MissingData)
      else
        var candles := IngestCandles(cr);
        var weeklyCloses := IngestCloses(FirstResult(weekly).value);
        var monthlyCloses := IngestCloses(FirstResult(monthly).value);
        if |candles| == 0 || |weeklyCloses| == 0 || |monthlyCloses| == 0 then Failure(MissingData)
        else
          Success(Chart(Upper(symbol), candles, weeklyCloses, monthlyCloses, sqrt))
  }

  /**
   * The chart assembled from ingested series: the 50- and 200-week and the
   * 60-month SMAs carried onto the candles' timestamps, each blank exactly
   * before the close that completes its first window (everywhere when there
   * is none), and the Bollinger bands of the candles.
   */
  function Chart(symbol: string, candles: seq<Candle>, weeklyCloses: seq<Close>, monthlyCloses: seq<Close>,
                 sqrt: real -> real): (c: Chartset)
    requires IsSqrt(sqrt)
    ensures Aligned(c) && c.symbol == symbol && c.data == candles
    ensures forall k :: 0 <= k < |candles| ==>
      (c.sma50w[k].y.None? <==> |weeklyCloses| < 50 || candles[k].x < weeklyCloses[49].x)
    ensures forall k :: 0 <= k < |candles| ==>
      (c.sma200w[k].y.None? <==> |weeklyCloses| < 200 || candles[k].x < weeklyCloses[199].x)
    ensures forall k :: 0 <= k < |candles| ==>
      (c.sma60m[k].y.None? <==> |monthlyCloses| < 60 || candles[k].x < monthlyCloses[59].x)
    ensures c.bands == BollingerBands(candles, BollingerPeriod, BollingerWidth, sqrt)
  {
    var ts := Timestamps(candles);
    var c := Chartset(
      symbol,
      candles,
      Interpolate(SmaFromCloses(weeklyCloses, 50), ts),
      Interpolate(SmaFromCloses(weeklyCloses, 200), ts),
      Interpolate(SmaFromCloses(monthlyCloses, 60), ts),
      BollingerBands(candles, BollingerPeriod, BollingerWidth, sqrt));
    ChartSmaBlankIff(weeklyCloses, 50, candles);
    ChartSmaBlankIff(weeklyCloses, 200, candles);
    ChartSmaBlankIff(monthlyCloses, 60, candles);
    c
  }

  /**
   * The first SMA point with a value is the `period`-th close, and there is
   * none when fewer closes exist.
   */
  lemma FirstValidSma(closes: seq<Close>, period: nat)
    requires 1 <= period
    ensures |closes| < period ==> |ValidSamples(SmaFromCloses(closes, period))| == 0
    ensures period <= |closes| ==>
      |ValidSamples(SmaFromCloses(closes, period))| > 0
      && ValidSamples(SmaFromCloses(closes, period))[0].x == closes[period - 1].x
  {
    var sma := SmaFromCloses(closes, period);
    var ps := Positions(HasValue(sma));
    if |closes| < period {
      forall i | 0 <= i < |sma|
        ensures !HasValue(sma)[i]
      {
      }
      PositionsNoneSet(HasValue(sma));
    }
    if period <= |closes| {
      assert HasValue(sma)[period - 1];
      assert period - 1 in ps;
      var k :| 0 <= k < |ps| && ps[k] == period - 1;
      assert ps[0] <= ps[k];
      assert ps[0] >= period - 1 by {
        assert HasValue(sma)[ps[0]];
      }
    }
  }

  /**
   * On the chart, a long-term SMA is blank exactly for the candles before
   * the close that completes its first window, and everywhere when there is
   * no such close.
   */
  lemma ChartSmaBlankIff(closes: seq<Close>, period: nat, candles: seq<Candle>)
    requires 1 <= period
    ensures var r := Interpolate(SmaFromCloses(closes, period), Timestamps(candles));
      forall k :: 0 <= k < |candles| ==>
        (r[k].y.None? <==> |closes| < period || candles[k].x < closes[period - 1].x)
  {
    FirstValidSma(closes, period);
    if period <= |closes| {
      InterpolateNullIff(SmaFromCloses(closes, period), Timestamps(candles));
    }
  }

  /** The chart's bands are symmetric about the middle band and ordered. */
  lemma ChartBandsOrdered(symbol: string, candle: Payload, weekly: Payload, monthly: Payload,
                          sqrt: real -> real)
    requires IsSqrt(sqrt) && WellFormed(candle, weekly, monthly)
    requires CandlestickData(symbol, candle, weekly, monthly, sqrt).Success?
    ensures var c := CandlestickData(symbol, candle, weekly, monthly, sqrt).value;
      forall i :: BollingerPeriod - 1 <= i < |c.data| ==>
        && c.bands.lower[i].y.value <= c.bands.middle[i].y.value <= c.bands.upper[i].y.value
        && c.bands.upper[i].y.value - c.bands.middle[i].y.value
           == c.bands.middle[i].y.value - c.bands.lower[i].y.value
  {
    var c := CandlestickData(symbol, candle, weekly, monthly, sqrt).value;
    BollingerOrdered(c.data, BollingerPeriod, BollingerWidth, sqrt);
  }
}
