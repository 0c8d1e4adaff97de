/**
 * The ingestion loops of `getCandlestickData` and the close filters of
 * `getStockData` (api.js): dropping incomplete samples and converting
 * epoch seconds to milliseconds.
 */
module Ingest {
  import opened Wrappers
  import opened Seqs
  import opened Series
  import opened Payloads

  /** Each price array has an entry for every timestamp. */
  predicate CoversOhlc(r: ChartResult) {
    && |r.timestamp| <= |r.quote.open|
    && |r.timestamp| <= |r.quote.high|
    && |r.timestamp| <= |r.quote.low|
    && |r.timestamp| <= |r.quote.close|
  }

  /** The close array has an entry for every timestamp. */
  predicate CoversClose(r: ChartResult) {
    |r.timestamp| <= |r.quote.close|
  }

  /** All four prices are present at index `i`. */
  predicate Complete(r: ChartResult, i: nat)
    requires CoversOhlc(r) && i < |r.timestamp|
  {
    r.quote.open[i].Some? && r.quote.high[i].Some? && r.quote.low[i].Some? && r.quote.close[i].Some?
  }

  function CompleteFlags(r: ChartResult): (flags: seq<bool>)
    requires CoversOhlc(r)
    ensures |flags| == |r.timestamp|
    ensures forall i :: 0 <= i < |r.timestamp| ==> flags[i] == Complete(r, i)
  {
    seq(|r.timestamp|, i requires 0 <= i < |r.timestamp| => Complete(r, i))
  }

  /** The candle built at index `i`: milliseconds and the four prices. */
  function CandleAt(r: ChartResult, i: nat): Candle
    requires CoversOhlc(r) && i < |r.timestamp|
  {
    Candle(r.timestamp[i] * 1000, r.quote.open[i].GetOr(0.0), r.quote.high[i].GetOr(0.0),
           r.quote.low[i].GetOr(0.0), r.quote.close[i].GetOr(0.0))
  }

  function AllCandles(r: ChartResult): (cs: seq<Candle>)
    requires CoversOhlc(r)
    ensures |cs| == |r.timestamp|
    ensures forall i :: 0 <= i < |r.timestamp| ==> cs[i] == CandleAt(r, i)
  {
    seq(|r.timestamp|, i requires 0 <= i < |r.timestamp| => CandleAt(r, i))
  }

  /**
   * The candlestick loop: a candle for every index whose four prices are all
   * non-null, in input order, with `x = timestamp * 1000`. `ks` names the
   * source index of each kept candle.
   */
  function IngestCandles(r: ChartResult): (bars: seq<Candle>)
    requires CoversOhlc(r)
    ensures var ks := Positions(CompleteFlags(r));
      && |bars| == |ks|
      && (forall j, k :: 0 <= j < k < |ks| ==> ks[j] < ks[k])
      && (forall i :: 0 <= i < |r.timestamp| ==> (Complete(r, i) <==> i in ks))
      && (forall j :: 0 <= j < |ks| ==>
            && ks[j] < |r.timestamp|
            && bars[j] == Candle(r.timestamp[ks[j]] * 1000,
                                 r.quote.open[ks[j]].value, r.quote.high[ks[j]].value,
                                 r.quote.low[ks[j]].value, r.quote.close[ks[j]].value))
  {
    Keep(AllCandles(r), CompleteFlags(r))
  }

  function CloseFlags(r: ChartResult): (flags: seq<bool>)
    requires CoversClose(r)
    ensures |flags| == |r.timestamp|
    ensures forall i :: 0 <= i < |r.timestamp| ==> flags[i] == r.quote.close[i].Some?
  {
    seq(|r.timestamp|, i requires 0 <= i < |r.timestamp| => r.quote.close[i].Some?)
  }

  function AllCloses(r: ChartResult): (cs: seq<Close>)
    requires CoversClose(r)
    ensures |cs| == |r.timestamp|
    ensures forall i :: 0 <= i < |r.timestamp| ==>
      cs[i] == Close(r.timestamp[i] * 1000, r.quote.close[i].GetOr(0.0))
  {
    seq(|r.timestamp|, i requires 0 <= i < |r.timestamp| =>
      Close(r.timestamp[i] * 1000, r.quote.close[i].GetOr(0.0)))
  }

  /**
   * The weekly and monthly loops: a close for every index whose close is
   * non-null, in input order, with `x = timestamp * 1000`.
   */
  function IngestCloses(r: ChartResult): (closes: seq<Close>)
    requires CoversClose(r)
    ensures var ks := Positions(CloseFlags(r));
      && |closes| == |ks|
      && (forall j, k :: 0 <= j < k < |ks| ==> ks[j] < ks[k])
      && (forall i :: 0 <= i < |r.timestamp| ==> (r.quote.close[i].Some? <==> i in ks))
      && (forall j :: 0 <= j < |ks| ==>
            && ks[j] < |r.timestamp|
            && closes[j] == Close(r.timestamp[ks[j]] * 1000, r.quote.close[ks[j]].value))
  {
    Keep(AllCloses(r), CloseFlags(r))
  }

  function PresentFlags(s: seq<Option<real>>): (flags: seq<bool>)
    ensures |flags| == |s|
    ensures forall i :: 0 <= i < |s| ==> flags[i] == s[i].Some?
  {
    seq(|s|, i requires 0 <= i < |s| => s[i].Some?)
  }

  /** `prices.filter(price => price !== null)`: the non-null values, in order. */
  function PresentValues(s: seq<Option<real>>): (vs: seq<real>)
    ensures var ks := Positions(PresentFlags(s));
      && |vs| == |ks|
      && (forall j, k :: 0 <= j < k < |ks| ==> ks[j] < ks[k])
      && (forall i :: 0 <= i < |s| ==> (s[i].Some? <==> i in ks))
      && (forall j :: 0 <= j < |ks| ==> ks[j] < |s| && vs[j] == s[ks[j]].value)
  {
    Keep(seq(|s|, i requires 0 <= i < |s| => s[i].GetOr(0.0)), PresentFlags(s))
  }

  /** With no `null` at all, the filter keeps every value in place. */
  lemma PresentValuesAllPresent(s: seq<Option<real>>)
    requires forall i :: 0 <= i < |s| ==> s[i].Some?
    ensures |PresentValues(s)| == |s|
    ensures forall i :: 0 <= i < |s| ==> PresentValues(s)[i] == s[i].value
  {
    PositionsAllSet(PresentFlags(s));
  }

  /** The close series of the candles is the candles' own closes. */
  lemma CandleClosesFollowCandles(r: ChartResult)
    requires CoversOhlc(r)
    ensures var bars := IngestCandles(r);
      forall j :: 0 <= j < |bars| ==> CloseValues(CandlesAsCloses(bars))[j] == r.quote.close[Positions(CompleteFlags(r))[j]].value
  {
  }
}
