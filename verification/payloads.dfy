/**
 * The shape of a market-data provider response, as far as the indicator
 * engine reads it, and the failures the engine reports.
 */
module Payloads {
  import opened Wrappers

  /** `indicators.quote[0]`: parallel price arrays, any entry possibly `null`. */
  datatype Quote = Quote(open: seq<Option<real>>, high: seq<Option<real>>,
                         low: seq<Option<real>>, close: seq<Option<real>>)

  /** One element of `chart.result`: `meta.regularMarketPrice`, epoch-second timestamps, prices. */
  datatype ChartResult = ChartResult(regularMarketPrice: real, timestamp: seq<int>, quote: Quote)

  /**
   * `chart`: the results (absent when `result` is missing) and the
   * provider's error object, given by its `description` ("" when the
   * description is missing or empty).
   */
  datatype Chart = Chart(result: Option<seq<ChartResult>>, error: Option<string>)

  /** A decoded response body; `chart` may be missing. */
  datatype Payload = Payload(chart: Option<Chart>)

  /** Why a request or a computation fails. */
  datatype Error =
    | HttpError(status: int, statusText: string)   // non-ok HTTP status
    | Unreachable                                  // `fetch` itself rejected
    | ProviderError(message: string)               // `chart.error` in an ok response
    | NoData                                       // 'Invalid stock symbol or no data available'
    | NotEnoughHistory                             // 'Not enough historical data available'
    | MissingData                                  // a TypeError reading an absent field

  const DefaultProviderMessage := "Invalid stock symbol"

  /** `data.chart && data.chart.error`, turned into the message `fetchAPI` throws. */
  function ProviderFailure(p: Payload): (e: Option<Error>)
    ensures e.Some? <==> p.chart.Some? && p.chart.value.error.Some?
    ensures e.Some? ==> e.value.ProviderError? && e.value.message != ""
    ensures e.Some? && p.chart.value.error.value != "" ==> e.value.message == p.chart.value.error.value
    ensures e.Some? && p.chart.value.error.value == "" ==> e.value.message == DefaultProviderMessage
  {
    match p.chart
    case Some(Chart(_, Some(description))) =>
      Some(ProviderError(if description != "" then description else DefaultProviderMessage))
    case _ => None
  }

  /** `payload.chart.result[0]`, when the chart has at least one result. */
  function FirstResult(p: Payload): (r: Option<ChartResult>)
    ensures r.Some? <==> p.chart.Some? && p.chart.value.result.Some? && |p.chart.value.result.value| > 0
    ensures r.Some? ==> r.value == p.chart.value.result.value[0]
  {
    match p.chart
    case Some(Chart(Some(results), _)) => if |results| > 0 then Some(results[0]) else None
    case _ => None
  }
}
