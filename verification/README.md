# Investogram dashboard core, modelled in Dafny

Investogram is a browser dashboard for stock tickers. Each card shows the
current price, day and seven-day change, and a weekly price chart with a
50-week moving average. A detail view draws candlesticks with 50-week,
200-week and 60-month SMAs and Bollinger bands. A signed-in user's lists
follow them across devices.

This project models the logic underneath that:

- **Indicator engine** (`api.js`): the point moving average, the trailing
  SMA series (array and close-series forms), carrying a coarse SMA onto
  candle timestamps, Bollinger bands, ingestion of provider OHLC arrays, and
  the quote-summary arithmetic of `getStockData`.
- **Request plumbing** (`api.js`): the five-minute response cache keyed by
  URL, and the single-lane request queue with its 500 ms pause between
  requests.
- **List rules** (`app.js`): the range and interval tables, `SYMBOL[:width]`
  entries, adding, removing and drag-reordering entries, and the saved list
  of collapsed cards.
- **Account sync** (`auth.js`): merging a guest session's stocks and graphs
  into the account's on sign-in, and the rule for when a storage write
  schedules a push.

Modules follow those concerns:

| file | module | models |
|---|---|---|
| wrappers.dfy | `Wrappers` | `Option` for `null`/NaN, and `Result` for thrown errors |
| seqs.dfy | `Seqs` | sums and means, an order-preserving filter (`Keep`/`Positions`), and `indexOf`/`splice` |
| series.dfy | `Series` | moving averages, SMA series, Bollinger bands |
| interpolation.dfy | `Interpolation` | `interpolateSMA` |
| payloads.dfy | `Payloads` | the provider response shape and the engine's errors |
| ingest.dfy | `Ingest` | the candle and close ingestion loops, and the null filter on closes |
| quotes.dfy | `Quotes` | `getStockData` and `getCandlestickData` over already-fetched payloads |
| cache.dfy | `Cache` | `getFromCache`/`setCache`/`fetchAPI` and `cache.clear()` |
| scheduler.dfy | `Scheduler` | `queueRequest`/`processQueue` as an event-driven state machine |
| text.dfy | `Text` | `trim`, ASCII `toUpperCase`, `split(':')` and `parseInt` |
| dashboard.dfy | `Dashboard` | the list rules of `app.js` |
| sync.dfy | `Sync` | the `pullFromServer` merge, `SYNC_KEYS` and the patched `setItem`/`removeItem` |

Conventions:

- Numbers are `real`.
- A JavaScript NaN or infinity that reaches a result is `None`. Examples: the
  mean of no prices, and a percentage over a zero base.
- `Math.sqrt` is a parameter `sqrt: real -> real`. Callers must supply one
  satisfying `IsSqrt`: for every `v >= 0`, `sqrt(v) >= 0` and
  `sqrt(v) * sqrt(v) == v`.
- Clock readings (`Date.now()`) and HTTP responses are parameters.
- The request queue is driven by three events: submit, settle and timer.

## Model

| member | source | states |
|---|---|---|
| Series.MovingAverage | api.js:181-188 | The result exists exactly when prices exist. It is the mean of the last `min(period, n)` prices, or of all prices for period 0. The empty list's NaN is `None`. |
| Series.MovingAverageClamps | api.js:181-184 | A period longer than the history gives the mean of the whole history. |
| Series.MovingAverageIsSeriesTail | api.js:181-204 | With a full window, the point average equals the last entry of the SMA series. |
| Series.SmaSeries | api.js:190-204 | One entry per price. An entry is `null` exactly for `i < period-1`. Otherwise it is the mean of prices `i-period+1..i`. |
| Series.SmaSeriesSlides | api.js:190-204 | Consecutive full-window entries differ by `(newest - leaving) / period`. |
| Series.SmaSeriesWithinWindow | api.js:196-199 | Every defined entry lies between the minimum and maximum of its window. |
| Series.BackSumIsWindowSum | api.js:344-347 | The newest-first running sum over `j < k` equals the sum of the trailing window of `k` values. |
| Series.SmaFromCloses | api.js:333-354 | One point per close, with the close's `x`. `y` is `null` exactly for `i < period-1`. |
| Series.SmaFromClosesMatchesSeries | api.js:333-354 | The close-series SMA has the same values as `calculateMovingAverageArray` on the close prices. |
| Series.PopulationVariance | api.js:432-433 | The variance (divisor = window size) is never negative. |
| Series.PopulationStdDevIsRoot | api.js:434 | The standard deviation is non-negative, and its square is the population variance. |
| Series.WindowVariance | api.js:422-433 | The loop's variance over the trailing window is never negative. |
| Series.WindowAverageIsMean | api.js:422-429 | The loop's middle-band average is the mean of the trailing window. |
| Series.WindowVarianceIsPopulation | api.js:422-433 | The loop's variance is the population variance of the trailing window. |
| Series.BandAt | api.js:421-438 | At one index, the bands are symmetric about the middle, and ordered when the width is non-negative. |
| Series.BandAtPopulation | api.js:421-438 | At one index: middle = window mean; upper = mean + width·sd; lower = mean − width·sd. Here sd is the population standard deviation of the window. |
| Series.BollingerBands | api.js:409-447 | Three series, one point per candle, each with the candle's `x`. All three are `null` exactly for `i < period-1`. |
| Series.BollingerAt | api.js:437-442 | Each defined band value is the corresponding field of `BandAt` at that index. |
| Series.BollingerOrdered | api.js:437-442 | `upper - middle == middle - lower` at every defined index. `lower <= middle <= upper` when the width is non-negative. |
| Series.BollingerMiddleIsSma | api.js:421-429 | The middle band is exactly `calculateSMAFromCloses` of the candles' closes. |
| Interpolation.ValidSamples | api.js:364 | Keeps exactly the non-null SMA points, in order. |
| Interpolation.Resolve | api.js:386-401 | There is a value exactly when some sample lies at or before the target. With no later sample, the value is the last earlier one. |
| Interpolation.Interpolate | api.js:356-407 | One point per target, with the target's `x`. All `null` when the SMA has no value at all. |
| Interpolation.ValueAtNullIff | api.js:371-401 | Even when samples are unordered, a target's value is `null` exactly when it precedes the first valid sample. |
| Interpolation.InterpolateNullIff | api.js:366-404 | Never fills backward: a point is `null` exactly when its target precedes the first valid SMA point. |
| Interpolation.InterpolateExact | api.js:398-400 | On ascending samples, a target equal to a sample's time gets that sample's value. |
| Interpolation.InterpolateHoldsLast | api.js:392-394 | On ascending samples, a target after the last sample holds the last value. |
| Interpolation.InterpolateBetween | api.js:388-391 | On ascending samples, a target strictly between two samples gets their linear blend. The blend lies between the two values. |
| Interpolation.BlendBetween | api.js:390-391 | The linear blend at a time between two samples lies between their values. |
| Payloads.ProviderFailure | api.js:90-93 | A failure exactly when the chart carries an error. The message is the error's description, or `Invalid stock symbol` when the description is empty. |
| Payloads.FirstResult | api.js:120-122 | `chart.result[0]`: present exactly when the chart has a non-empty result list, and then the list's first element. |
| Ingest.IngestCandles | api.js:237-250 | A candle is kept exactly when open, high, low and close are all non-null. Input order is kept, and `x = timestamp * 1000`. |
| Ingest.CandleClosesFollowCandles | api.js:237-248 | The closes the bands read from the candles are the provider's closes at the kept timestamps, in order. |
| Ingest.IngestCloses | api.js:258-280 | A close is kept exactly when it is non-null. Input order is kept, and `x = timestamp * 1000`. |
| Ingest.PresentValues | api.js:127 | Keeps exactly the non-null closes, in order. |
| Ingest.PresentValuesAllPresent | api.js:127 | With no `null`, the filter keeps every value in place. |
| Quotes.PercentOf | api.js:137 | The percentage exists exactly for a non-zero base, and percentage × base = change × 100. |
| Quotes.PercentSign | api.js:137 | Over a positive base, the percentage has the sign of the change. |
| Quotes.WeekAgoClose | api.js:140-141 | The seventh close from the end, or the first close when fewer than seven exist. |
| Quotes.VersusAverage | api.js:158-159 | The deviation exists exactly when the average exists and is non-zero. It satisfies deviation × average = (price − average) × 100. |
| Quotes.Summarize | api.js:133-178 | The current price minus the day change is the second-to-last close. The current price minus the weekly change is the week-ago close. The sign flags are `change >= 0`. Each percentage is over its base. |
| Quotes.StockData | api.js:115-179 | Returns `NoData` without a daily result, `NotEnoughHistory` with fewer than two daily closes, and `MissingData` without a weekly result. Otherwise it returns the summary of those results. |
| Quotes.DayChangeFromPreviousClose | api.js:133-137 | The day change is measured from the previous close. Its percentage exists exactly for a non-zero previous close. Over a positive close, `isPositive` agrees with the percentage's sign. |
| Quotes.WeeklyChangeFromWeekAgo | api.js:139-143 | The weekly change is measured from `closes[max(0, n-7)]`. Over a positive base, `isWeeklyPositive` agrees with the percentage's sign. |
| Quotes.SummaryAverages | api.js:150-159 | `chartMA50` is aligned with the weekly closes and `null` for the first 49 weeks. After that it is the window mean. Each deviation exists exactly when there is a weekly close and the average is non-zero. |
| Quotes.SummaryExample | api.js:133-143 | For closes 100, 98, 95, 90, 92, 94, 96, 99 at price 100, the day change is +4 and the weekly change is +2. |
| Quotes.CandlestickData | api.js:206-331 | Returns `NoData` without a candle result. With one, every failure is `MissingData`: no weekly or monthly result, or an empty ingested series. Otherwise the result is the chart of the upper-cased symbol, the ingested candles, the weekly closes (for the 50- and 200-week SMAs) and the monthly closes (for the 60-month SMA). |
| Quotes.Chart | api.js:288-317 | Every series is aligned with the candles. Each SMA is blank exactly before the close that completes its first window, and everywhere when there is none. The bands are the 20-period, 2-deviation Bollinger bands of the candles. |
| Quotes.FirstValidSma | api.js:338-350 | The first SMA point with a value is the `period`-th close. There is none when fewer closes exist. |
| Quotes.ChartSmaBlankIff | api.js:288-305 | A long-term SMA on the chart is blank exactly before the close that completes its first window. It is blank everywhere when no such close exists. |
| Quotes.ChartBandsOrdered | api.js:316-317 | The chart's 20-period, 2-deviation bands are ordered and symmetric. |
| Cache.Lookup | api.js:28-35 | Returns the stored payload exactly when an entry exists and is younger than 300000 ms (strictly). |
| Cache.FetchAPI | api.js:73-98 | A fresh entry is served without the network. A rejected fetch, a non-ok status or a chart error fails and leaves the cache as it was. A good payload is stored under the URL with its arrival time. |
| Cache.FetchKeepsOtherEntries | api.js:37-42 | A fetch changes no entry but its own URL's. |
| Cache.RepeatWithinTimeoutIsServedFromCache | api.js:73-80 | After a successful network fetch, a repeat within five minutes of arrival is served from the cache. It uses no network and returns the same payload. |
| Cache.ExpiredEntryIsRefetched | api.js:28-35 | An entry five minutes old or older is refetched. A success replaces the entry and its time; a failure leaves the old entry. |
| Cache.FailureIsNotCached | api.js:84-97 | After a failed fetch, the next request for that URL goes to the network again. |
| Cache.Clear | app.js:292-295 | After a refresh, no entry is fresh. |
| Cache.RefreshForcesNetwork | app.js:292-295 | After a refresh, every request goes to the network. |
| Scheduler.Initial | api.js:4-9 | A new `StockAPI` queue satisfies the queue invariant. |
| Scheduler.Process | api.js:51-58 | When not processing and something waits, the head of the queue starts and the flag is set. Otherwise nothing changes. |
| Scheduler.Step | api.js:44-71 | Submit, settle and timer events happen exactly when the runtime can deliver them. Only a submit adds to the submitted requests. |
| Scheduler.ProcessRestoresInv | api.js:51-58 | Run after any event, `processQueue` starts the head of an idle queue, so nothing waits while the flag is clear. |
| Scheduler.SubmitPreservesInv | api.js:44-58 | Queueing a request keeps FIFO order, one request in flight, and the spacing. |
| Scheduler.SettlePreservesInv | api.js:60-70 | A settlement keeps the invariant and arms the 500 ms timer. |
| Scheduler.TimerPreservesInv | api.js:67-70 | The timer clears the flag, starts the next request if any, and keeps the invariant. |
| Scheduler.StepPreservesInv | api.js:44-71 | Every deliverable event keeps the invariant. |
| Scheduler.RunPreservesInv | api.js:44-71 | Any run of events keeps the invariant. |
| Scheduler.QueueDiscipline | api.js:44-71 | From a new instance, requests start in submission order. A request starts only after the previous one settled, and at least 500 ms after it. |
| Scheduler.FlagClearedOnlyByTimer | api.js:67-70 | The processing flag is cleared only by the timer that follows a settlement. |
| Scheduler.IdleSubmitStartsImmediately | api.js:44-58 | A request queued on an idle queue starts at once. |
| Scheduler.BusySubmitWaits | api.js:44-54 | A request queued while busy only joins the queue. |
| Text.Trim | app.js:193 | Removes only white space, and only from the two ends. The result neither starts nor ends with white space. |
| Text.TrimIdempotent | app.js:193 | Trimming twice is trimming once. |
| Text.TrimKeeps | app.js:193 | Text with no white space at either end is its own trim. |
| Text.UpperKeeps | app.js:193 | Text without lower-case letters is its own upper case. |
| Text.UpperIdempotent | app.js:193 | Upper-casing twice is upper-casing once. |
| Text.Upper | app.js:193 | No ASCII lower-case letter remains. Every other character is unchanged. |
| Text.FirstField | app.js:201-202 | The text before the first colon. |
| Text.SecondField | app.js:201-204 | The text between the first colon and the next one, or the end. It holds no colon, and it stops only at a colon or the end. |
| Text.ParseInt | app.js:204 | NaN exactly when no digit follows the white space, sign and `0x` prefix. A negative result needs a minus sign. |
| Text.ParseIntDecimal | app.js:228 | `parseInt` reads back the decimal form of every natural number. |
| Dashboard.DefaultInterval | app.js:121-131 | `5y` opens on `1wk`; `10y` and `max` open on `1mo`; every other range opens on `1d`. |
| Dashboard.ValidIntervals | app.js:133-143 | `1mo` is always allowed. `1d` is allowed except for `10y` and `max`, and `1wk` is allowed except for `max`. Unknown ranges get all three. |
| Dashboard.DefaultIsValid | app.js:121-143 | A range always opens on an interval it allows. |
| Dashboard.WidthOr1 | app.js:204 | NaN and zero become 1; any other value is kept. |
| Dashboard.ParseStockEntry | app.js:242-248 | An entry without a colon is the symbol at width 1. Otherwise the symbol is the text before the first colon, and the width is the second field's `parseInt`, unclamped, with NaN and zero read as 1. |
| Dashboard.ClampWidth | app.js:206 | The width is clamped into 1..6. Values already in range are kept. |
| Dashboard.EntryRoundTrip | app.js:228 | A stored entry parses back to the symbol and width it was written from. |
| Dashboard.SplitInput | app.js:200-210 | Without a colon, the whole input at width 1. With one, the symbol is the text before the first colon. The width is the second field's `parseInt` when in 1..6, 6 above that, and 1 for NaN, zero or negatives. |
| Dashboard.ReadInput | app.js:193-210 | The input is trimmed and upper-cased before splitting, so the symbol has no lower-case letter. The width is in 1..6. |
| Dashboard.ReadFormattedEntry | app.js:193-228 | Typing a stored entry back into the input box reads the symbol and width it stores. |
| Dashboard.FormattedIsInput | app.js:228 | A stored wide entry is already trimmed and upper-cased. |
| Dashboard.WidthFallsBackToOne | app.js:200-210 | A width that is missing, not a number, zero or negative is read as 1. |
| Dashboard.ListedUnlessEmpty | app.js:213-214 | For a non-empty symbol, `find` reports it exactly when an entry has that symbol. |
| Dashboard.AddStock | app.js:191-240 | Rejects empty input. Rejects a symbol whose first entry `find` returns and is truthy, so any width counts. A lookup failure is also rejected. Otherwise one entry is appended that parses back to the input's symbol and width. |
| Dashboard.AddKeepsSymbolsUnique | app.js:213-229 | Adding keeps at most one entry per symbol, unless an empty entry is listed and the input's symbol is empty. |
| Dashboard.AddEmptySymbolTwice | app.js:213-229 | That exception is real: with an empty entry listed, an input with an empty symbol is added a second time. |
| Dashboard.RemoveStock | app.js:256-259 | Every entry with that symbol goes, at any width. Every other entry stays, in order. |
| Dashboard.RemoveAbsent | app.js:256-259 | Removing an unlisted symbol changes nothing. |
| Dashboard.RemoveIdempotent | app.js:256-259 | Removing twice is removing once. |
| Dashboard.RemoveUndoesAdd | app.js:229 | Removing the symbol just added equals removing it from the list before the add. For a non-empty symbol, that restores the list. |
| Dashboard.FindSymbol | app.js:641-646 | The first entry with that symbol. |
| Dashboard.Drop | app.js:641-653 | The list stays a permutation of the same length. The dragged entry lands at the target's index, and the others keep their order. Dragging forward lands just after the target; dragging backward lands just before it. |
| Dashboard.DropUndo | app.js:652-653 | Moving the entry back undoes a drop. |
| Dashboard.SymbolBeforeColon | app.js:242-245 | The symbol of an entry is exactly the text before its first colon. |
| Dashboard.DropKeepsSymbolsUnique | app.js:641-653 | Reordering keeps at most one entry per symbol. |
| Seqs.Move | app.js:652-653 | The moved element lands at the target index. Without it, the sequence is unchanged, and the multiset is preserved. |
| Seqs.MoveInverse | app.js:652-653 | Moving back restores the sequence. |
| Dashboard.RemoveFirst | app.js:396-400 | Only the first occurrence goes, and the rest stay in order. On a duplicate-free list, the value is then absent and no other value changes. |
| Dashboard.ToggleCollapse | app.js:388-411 | No card means no change. Collapsing appends the symbol only if absent, and otherwise changes nothing. Expanding removes its first occurrence. No other symbol changes, and the list stays duplicate-free. |
| Dashboard.CollapseThenExpand | app.js:395-408 | Collapsing a card and expanding it again restores the saved list. |
| Dashboard.CollapseAll | app.js:413-427 | The saved list holds, in list order, one symbol per listed entry whose card is on screen. So it holds exactly those symbols, and it is duplicate-free when the list is. |
| Dashboard.ExpandAll | app.js:440 | The saved list becomes empty. |
| Sync.SetItem | auth.js:143-148 | Always writes the key and touches no other key. A push is scheduled exactly for a signed-in user and a synced key. |
| Sync.RemoveItem | auth.js:152-157 | Always removes the key and touches no other key. Pushes follow the same rule as `SetItem`. |
| Sync.OnlySignedInSyncedWritesPush | auth.js:11-23 | Guests never push, and local-only keys never push. |
| Sync.LocalWritesLeavePayload | auth.js:143-157 | A write or removal that schedules no push for a signed-in user leaves unchanged what a push would send. |
| Sync.SetThenRemove | auth.js:143-157 | Removing a key right after writing it is removing it, and the two calls schedule pushes alike. |
| Sync.PushPayload | auth.js:110-117 | The payload holds exactly the synced keys present in storage, with their values. |
| Sync.Populate | auth.js:60-66 | Each key the server holds with a non-null value is overwritten with it. Every other key keeps its local value. |
| Sync.MergeBy | auth.js:72-93 | The account's list comes first, unchanged. Then come the guest items whose key is new, in guest order. `added` is set exactly when there are such items. |
| Sync.MergeLosesNothing | auth.js:73-77 | Every account item and every guest item's key survives the merge. |
| Sync.MergeInventsNothing | auth.js:72-93 | Every merged item is an account item or a guest item. |
| Sync.MergeKeepsKeysDistinct | auth.js:72-93 | When neither list repeats a key, neither does the merge. |
| Sync.MergeWithSelf | auth.js:76-80 | Merging a list into itself adds nothing and asks for no push. |
| Sync.Pull | auth.js:47-98 | Stocks merge by ticker and graphs merge by id (a string graph is its own id). A push follows exactly when either merge added something. |
| Sync.PullPushesOnlyForGuestAdditions | auth.js:72-98 | With no account lists, the guest's lists stay as they are and nothing is pushed. A guest ticker the account lacks forces a push. |
| Sync.MergeMatchesWholeEntries | auth.js:72-81 | Tickers match as whole stored entries. A guest `AAPL:2` next to an account `AAPL` leaves two entries for the symbol AAPL. |

## Left out

- DOM, Chart.js and card rendering, legends, and the moving-average visibility toggles: presentation.
- `fetch`, `response.json()`, `JSON.parse`/`JSON.stringify` and `localStorage` I/O: payloads, responses, storage maps and lists are inputs.
- The real timing of `setTimeout`: it is the `TimerFires` event, and a clock value comes with each event.
- The `Promise.all` fan-out inside one queued task: up to three HTTP fetches run concurrently inside one task, so "one at a time" is about tasks, not HTTP requests.
- IEEE floating point: numbers are reals. `toFixed(2)` is presentation, so the summary's numbers are unrounded.
- `Math.sqrt`: it is a parameter constrained by `IsSqrt`.
- The `console.log` debug lines of `getCandlestickData`: only their effect is kept, a TypeError when a series is empty (`MissingData`). `toISOString` on out-of-range dates is not modelled.
- Series.SmaSeries: requires `period >= 1`. A non-positive period never occurs, because callers pass 20, 50, 60 and 200.
- Series.SmaFromCloses: requires `period >= 1` for the same reason.
- Series.BollingerBands: requires `period >= 1` for the same reason.
- Quotes.CandlestickData: requires every price array to have an entry for every timestamp (`WellFormed`). A shorter array would yield `undefined` prices, which the model does not represent.
- Text.Upper: upper-cases ASCII letters only. Other characters' case mappings are not modelled.
- Dashboard.DefaultInterval: does not model inherited `Object.prototype` keys such as `toString`. These would return a function instead of the fallback.
- Dashboard.ValidIntervals: the same prototype-key caveat applies.
- Dashboard.AddKeepsSymbolsUnique: promises uniqueness except when an empty entry is listed and the input's symbol is empty. There `find` returns the empty entry, which is falsy, so `addStock` appends the empty symbol again (shown by Dashboard.AddEmptySymbolTwice).
- Dashboard.RemoveUndoesAdd: restores the list only for a non-empty symbol, for the same reason: an earlier empty entry is removed together with the new one.
- Dashboard.Drop: requires both symbols to be on the list, because cards exist only for listed entries. A missing symbol would make `findIndex` return -1.
- The `confirm()` dialog of `removeStock`, and `alert()`: `RemoveStock` is the confirmed case, and refusals are `AddError` values.
- `Cache.FetchAPI` models payloads as objects. A JSON body that is falsy (`0`, `""`) is not modelled.
- Firebase sign-in, ID tokens, and the 1-second push debounce of `schedulePush`: SDK calls and timers.
- The early return of `pullFromServer` without a token or on a non-ok response is not modelled. In that case nothing changes.
- `server.py`, the HTTP proxy to the provider: network plumbing.
- `debug-widths.js`, a console probe.
- `firebase-config.example.js`, a configuration template.
- Everything else in `app.js`: the portfolio views, theme and settings handlers.
