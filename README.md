# Yahoo Finance response parsing and batch fetching, modelled in Dafny

This project models the core of `YahooFinanceAPI`
(`financial-engine-cpp/src/yahoo_finance_api.cpp`): how a decoded chart
response becomes an ordered series of complete daily bars, how a trending
response becomes a list of ticker symbols, and how the fetch wrappers around
these parsers turn every failure into an absent or empty result. It proves
what these operations promise: early returns on missing containers, gaps
skipped and nothing else, fields copied from their own index, the
adjusted-close fallback, absent versus present-but-empty, the last bar as the
latest price, per-symbol isolation in a batch, and symbols in source order.

Modules:

- `Outcomes` (`outcomes.dfy`): `Option`, and `Outcome` = `Done(value)` |
  `Thrown` | `Undefined`. A piece of C++ returns a value, throws a
  `std::exception`, or reaches undefined behaviour. The first failure wins.
- `JsonValues` (`json.dfy`): a decoded JSON tree and the read-only accessors
  of `nlohmann::json` on a `const` document. `contains` is false on
  non-objects. `operator[]` with a key throws on a non-object and is undefined
  on a missing key, because the library only asserts there. `operator[]` with
  an index throws on a non-array and is undefined past the end. `size`,
  `empty`, range-for and the implicit conversions to `double`, `long` and
  `std::string` are modelled too. Objects are member lists in the container's
  iteration order.
- `HistoricalParser` (`historical.dfy`): `StockPrice` and
  `parseHistoricalData`. The function `Locate` models the container checks
  and `BarAt` one loop iteration. `Collect` specifies the loop. The methods
  `CollectColumns` and `ParseHistoricalData` carry the loop itself, with its
  invariants.
- `TrendingParser` (`trending.dfy`): `parseTrendingStocks`. `QuotesOf` models
  the guard and `SymbolsOf` specifies the loop. The methods `CollectSymbols`
  and `ParseTrendingStocks` carry the loop.
- `YahooFinanceApi` (`api.dfy`): `getHistoricalData`, `getLatestStockPrice`,
  `getHistoricalDataBatch` (a method with a loop over the symbols) and
  `getTrendingStocks`. These wrappers call the CORRECTED parsers: the one
  that reads the timestamps from `"timestamp"` and the one whose guard
  returns early on an empty `finance.result` (see "## Findings"). As
  written, every documented chart response makes `getHistoricalData`,
  `getLatestStockPrice` and each fetch of the batch undefined at :113, and
  `getTrendingStocks` returns `[]` on every non-empty `finance.result`; when
  `finance.result` is empty it is undefined on an empty array; on a null or empty-object result it throws, so getTrendingStocks returns []. The properties proved for the wrappers are
  properties of the corrected program. The header's default arguments
  (`days = 30`, `limit = 20`) are the constants `DefaultLookbackDays` and
  `DefaultTrendingLimit`; Dafny has no default arguments, so callers pass
  them.

The outside world is passed in as parameters. A `World` holds the clock
(`now`, whole seconds) and the transport (`transport: Request -> string`,
where the empty string means a transport failure). A `Host` holds the JSON
decoder (`decode`, which gives `None` where `nlohmann::json::parse` throws)
and the calendar rendering of a Unix time (`stamp`, which stands for
`localtime` followed by `strftime`). The batch gets one `World` per call
(`worlds(k)` for the k-th symbol), so two fetches of the same symbol may see
different responses.

Behaviour of the code that the model keeps:

- The parsers can throw. The `const`
  accessors throw on mismatched shapes, such as a non-array `chart.result`
  or a string where a number is expected. `getHistoricalData` and
  `getTrendingStocks` catch these exceptions and return absent or empty. The
  model keeps that route: `Thrown` from the parser, absent from the wrapper.
- The parsers can reach undefined behaviour, in several places: a first result without `indicators.quote`, a price column shorter
  than the timestamp array, and the two defects under "## Findings". The
  model marks these points `Undefined`.
  `HistoricalParser.AlignedColumnsParse` proves that well-formed columns
  never reach them in the loop.
- Each timestamp becomes a local calendar date. The code formats it with
  `"%Y:%m:%d"`, with colons, although the comment at :137 says
  `YYYY-MM-DD`. The model leaves the rendering abstract (`Host.stamp`).
- When one of n fetches fails, the batch holds exactly the other n−1
  symbols only when the symbols are distinct, because the map is keyed by
  symbol. `OneFailureOmitsOnlyThatSymbol`
  states the general form: the keys are the symbols at the other positions.

## Model

| member | source | states |
|---|---|---|
| JsonValues.AtKey | financial-engine-cpp/src/yahoo_finance_api.cpp:113-128 | const key lookup: yields the member exactly when `contains(key)` holds; throws exactly on a non-object; the remaining case (an object without the key) is undefined |
| JsonValues.AtIndex | financial-engine-cpp/src/yahoo_finance_api.cpp:131 | const index lookup: yields entry i exactly when i is in range of an array; throws exactly on a non-array |
| JsonValues.Contains | financial-engine-cpp/src/yahoo_finance_api.cpp:103-120 | `contains(key)` holds only on an object |
| JsonValues.ContainsNamesAMember | financial-engine-cpp/src/yahoo_finance_api.cpp:103-120 | `contains(key)` holds exactly when the value is an object with a member named `key` |
| JsonValues.Size | financial-engine-cpp/src/yahoo_finance_api.cpp:130 | `size()` is the item count of an array and the member count of an object; of every other value it is at most 1, and 0 exactly for null |
| JsonValues.Empty | financial-engine-cpp/src/yahoo_finance_api.cpp:103 | `empty()` holds exactly when `size()` is 0 |
| JsonValues.Elements | financial-engine-cpp/src/yahoo_finance_api.cpp:211 | range-for visits `size()` values, the items themselves for an array |
| JsonValues.Truncate | financial-engine-cpp/src/yahoo_finance_api.cpp:135 | a double converted to an integral type is truncated toward zero |
| JsonValues.ToDouble | financial-engine-cpp/src/yahoo_finance_api.cpp:142-145 | conversion to double succeeds exactly on numbers and keeps their value; null, booleans, strings, arrays and objects throw (never undefined) |
| JsonValues.ToLong | financial-engine-cpp/src/yahoo_finance_api.cpp:146 | conversion to `long` (LP64 Linux with glibc, where `int64_t` is `long`) succeeds exactly on numbers, giving the number truncated toward zero; booleans and every other kind throw |
| JsonValues.ToText | financial-engine-cpp/src/yahoo_finance_api.cpp:213 | conversion to std::string succeeds exactly on strings, and gives that string |
| HistoricalParser.AdjcloseColumn | financial-engine-cpp/src/yahoo_finance_api.cpp:115-117 | no adjclose indicator gives an empty array; a non-array indicator throws; with an entry 0, the read throws exactly when that entry is not an object and completes exactly when it has an adjclose member, giving that member |
| HistoricalParser.Locate | financial-engine-cpp/src/yahoo_finance_api.cpp:103-128 | the empty series is returned early when chart or chart.result is missing or result is empty, when the first result lacks timestamp or indicators, or when the quote lacks a price column; a non-empty non-array result throws; a document that passes every check (`DocumentedChart`) always reaches the loop; the columns are then the arrays at their documented paths, and adjclose is `indicators.adjclose[0].adjclose` or an empty array |
| HistoricalParser.KeptIndices | financial-engine-cpp/src/yahoo_finance_api.cpp:130-133 | the indices a loop of n iterations keeps are exactly the non-gap indices below n, strictly increasing |
| HistoricalParser.LastKeptIsLast | financial-engine-cpp/src/yahoo_finance_api.cpp:130-133 | every index after the last kept one is a gap |
| HistoricalParser.AdjustedClose | financial-engine-cpp/src/yahoo_finance_api.cpp:147-148 | when it completes, the adjusted close is the adjclose entry if that entry exists and is not null, and the close otherwise |
| HistoricalParser.BarAt | financial-engine-cpp/src/yahoo_finance_api.cpp:131-149 | an iteration that completes skips the index exactly when one of the five price columns is null there; otherwise its bar takes every field from entry i of its own column |
| HistoricalParser.CollectBars | financial-engine-cpp/src/yahoo_finance_api.cpp:130-151 | a completed loop emits one bar per kept index, in index order, each built from its own index |
| HistoricalParser.FailureStops | financial-engine-cpp/src/yahoo_finance_api.cpp:130-151 | an exception or undefined read in one iteration is the outcome of the whole loop |
| HistoricalParser.CollectColumns | financial-engine-cpp/src/yahoo_finance_api.cpp:130-151 | the imperative loop computes exactly `Collect` over all timestamp indices |
| HistoricalParser.Parse | financial-engine-cpp/src/yahoo_finance_api.cpp:100-105 | an early return of the container checks gives the empty series; a failure of those checks is the parser's failure |
| HistoricalParser.ParseHistorical | financial-engine-cpp/src/yahoo_finance_api.cpp:100-154 | with the timestamp array read from the key it is checked under: a missing chart or result, an empty result or a first result without timestamp or indicators gives the empty series; a document that passes every check gives exactly the loop's outcome over its columns |
| HistoricalParser.ParseHistoricalAsWritten | financial-engine-cpp/src/yahoo_finance_api.cpp:109-113 | as written, the parser differs from the corrected one only through the misspelt key: where no first result is reached, or `timestamps` and `timestamp` read the same value, the two agree |
| HistoricalParser.DocumentedChartParses | financial-engine-cpp/src/yahoo_finance_api.cpp:100-154 | a document that passes every check and whose columns are aligned always parses, into at most one bar per timestamp |
| HistoricalParser.ParsedBars | financial-engine-cpp/src/yahoo_finance_api.cpp:100-154 | a parsed series holds the bars of exactly the non-gap indices, in order, each copied from its own index, so it is never longer than the timestamp array |
| HistoricalParser.LastBarIsLastComplete | financial-engine-cpp/src/yahoo_finance_api.cpp:130-153 | the last bar of a non-empty series comes from the last non-gap index of the response |
| HistoricalParser.ParseHistoricalData | financial-engine-cpp/src/yahoo_finance_api.cpp:100-154 | the method (checks, then loop) computes exactly the corrected parser's outcome |
| HistoricalParser.AlignedColumnsParse | financial-engine-cpp/src/yahoo_finance_api.cpp:130-149 | on columns at least as long as the timestamps, holding numbers or nulls, the loop neither throws nor reads out of range |
| HistoricalParser.NoAdjcloseMeansClose | financial-engine-cpp/src/yahoo_finance_api.cpp:115-117 | without an adjclose indicator every bar's adjusted close equals its close |
| HistoricalParser.AsWrittenReadsMissingKey | financial-engine-cpp/src/yahoo_finance_api.cpp:109-113 | as written, a first result with timestamp and indicators but no "timestamps" member makes the parser undefined |
| HistoricalParser.OneDayChartParses | financial-engine-cpp/src/yahoo_finance_api.cpp:100-154 | on a one-day response the parser as written is undefined, while the corrected one returns the day's bar with adjclose equal to close |
| TrendingParser.QuotesOf | financial-engine-cpp/src/yahoo_finance_api.cpp:203-209 | corrected guard: the empty list when finance or finance.result is missing, when result is empty, or when result[0] lacks quotes; throws on a non-empty non-array result; never undefined; a result[0] that has quotes always hands `finance.result[0].quotes` to the loop, and nothing else is ever handed to it |
| TrendingParser.QuotesOfAsWritten | financial-engine-cpp/src/yahoo_finance_api.cpp:203-207 | the guard as written returns early whenever finance.result is non-empty |
| TrendingParser.Tagged | financial-engine-cpp/src/yahoo_finance_api.cpp:211-212 | the quotes that carry a symbol member: all of them and only them |
| TrendingParser.SymbolsOfTagged | financial-engine-cpp/src/yahoo_finance_api.cpp:211-215 | the loop is never undefined; it completes exactly when every symbol member is a string, and then lists one symbol per tagged quote, in source order |
| TrendingParser.ThrowStops | financial-engine-cpp/src/yahoo_finance_api.cpp:211-215 | once an iteration throws, the loop throws |
| TrendingParser.CollectSymbols | financial-engine-cpp/src/yahoo_finance_api.cpp:211-215 | the imperative loop computes exactly `SymbolsOf` over the quotes |
| TrendingParser.ParseTrendingStocks | financial-engine-cpp/src/yahoo_finance_api.cpp:200-218 | the method (guard, then loop) computes exactly the corrected parser's outcome |
| TrendingParser.ParseTrending | financial-engine-cpp/src/yahoo_finance_api.cpp:200-218 | with the corrected guard: a missing or empty finance.result gives the empty list; a result[0] that has quotes gives exactly the loop's outcome over those quotes |
| TrendingParser.ParseTrendingAsWritten | financial-engine-cpp/src/yahoo_finance_api.cpp:200-218 | as written: a missing finance.result, and every non-empty one, gives the empty list |
| TrendingParser.AsWrittenNeverListsASymbol | financial-engine-cpp/src/yahoo_finance_api.cpp:203-207 | as written, every list the parser returns is empty; an empty finance.result array makes it undefined, while a null or empty-object finance.result makes it throw (so getTrendingStocks returns []) |
| TrendingParser.ThreeQuotesParse | financial-engine-cpp/src/yahoo_finance_api.cpp:200-218 | quotes AAA, one without a symbol, then BBB give ["AAA", "BBB"] with the corrected guard and [] as written |
| YahooFinanceApi.HistoricalRequest | financial-engine-cpp/src/yahoo_finance_api.cpp:67-83 | the chart request asks for the symbol over a window ending now and exactly 24·days hours long |
| YahooFinanceApi.GetHistoricalData | financial-engine-cpp/src/yahoo_finance_api.cpp:85-97 | with the corrected parser: never throws; absent exactly when the body is empty, decoding fails or the parser throws; present exactly when the parser completes, holding its series |
| YahooFinanceApi.EmptyChartIsPresent | financial-engine-cpp/src/yahoo_finance_api.cpp:91-93 | with the corrected parser: a decodable body without a chart gives a present, empty series, not absent |
| YahooFinanceApi.GetLatestStockPrice | financial-engine-cpp/src/yahoo_finance_api.cpp:156-163 | with the corrected parser: never throws; undefined only when the two-day fetch is; absent exactly when that fetch is absent or empty; otherwise its last bar |
| YahooFinanceApi.LatestIsLastCompleteDay | financial-engine-cpp/src/yahoo_finance_api.cpp:156-162 | with the corrected parser: the latest price is the bar of the response's last non-gap index |
| YahooFinanceApi.BatchStep | financial-engine-cpp/src/yahoo_finance_api.cpp:172-177 | one more fetch keeps the batch invariant: a present result overwrites its symbol's entry, an absent one changes nothing |
| YahooFinanceApi.GetHistoricalDataBatch | financial-engine-cpp/src/yahoo_finance_api.cpp:167-180 | with the corrected parser: never throws; undefined exactly when some fetch is; otherwise the keys are exactly the symbols with a present fetch, each mapped to its last present series |
| YahooFinanceApi.OneFailureOmitsOnlyThatSymbol | financial-engine-cpp/src/yahoo_finance_api.cpp:172-177 | with one absent fetch and all others present, the keys are the symbols at every other position |
| YahooFinanceApi.GetTrendingStocks | financial-engine-cpp/src/yahoo_finance_api.cpp:183-198 | with the corrected parser: never throws; an empty body, a decode failure or a throwing parser gives the empty list; when the parser completes on the decoded body, its list is returned |
| YahooFinanceApi.TrendingAlwaysReturns | financial-engine-cpp/src/yahoo_finance_api.cpp:183-218 | with the corrected guard, getTrendingStocks always returns a list: the guard and the loop never reach undefined behaviour (as written, with an empty finance.result it is undefined on an empty array; on a null or empty-object result it throws, so getTrendingStocks returns []) |

## Left out

- HTTP transport (`WriteCallback`, `httpGet`, libcurl set-up and headers, :12-63) and the URL text: a request is a `Request` value and the body comes from `World.transport`.
- The clock: `std::chrono::system_clock::now()` is `World.now` in whole seconds; sub-second precision and `to_time_t` rounding are not modelled.
- `localtime` and `strftime`: the date text is `Host.stamp(epoch)`. A null `localtime` result and the 11-byte buffer are not modelled.
- `nlohmann::json::parse`: it is `Host.decode`, so any decoder, including a failing one, is covered.
- The `std::cerr` logging in the catch blocks: output only.
- Numeric widths: prices are reals and integers are unbounded. Overflow of `24 * days`, out-of-range double to long conversion, and double rounding are not modelled.
- JSON objects with duplicate keys: lookup takes the first member, which the decoder never has to choose between.
- Allocation failure: a `std::bad_alloc` raised while a series or list is built is not modelled.
- JsonValues.ToLong: follows LP64 Linux with glibc, where `int64_t` (the library's integer type) is `long`, so `long` and `time_t` use the library's own conversion and a boolean throws. On macOS (`int64_t` is `long long`) and on LLP64 Windows with MSVC (`long` is 32-bit), `long` and `time_t` go through the library's generic arithmetic conversion, which turns a boolean into 0 or 1; those platforms are not modelled (the header's `<curl\curl.h>` include suggests a Windows build).
- YahooFinanceApi.GetHistoricalData: models the wrapper around the corrected parser. As written it is undefined on every chart response shaped as documented (first "## Findings" row).
- YahooFinanceApi.GetLatestStockPrice: inherits the corrected parser from `GetHistoricalData`. As written it is undefined on every documented chart response.
- YahooFinanceApi.GetHistoricalDataBatch: inherits the corrected parser from `GetHistoricalData`. As written every fetch of a documented chart response is undefined.
- YahooFinanceApi.GetTrendingStocks: models the wrapper around the corrected guard. As written it returns `[]` on every non-empty `finance.result`; with an empty `finance.result` it is undefined on an empty array; on a null or empty-object result it throws, so getTrendingStocks returns [] (second "## Findings" row).
- `financial-engine-cpp/include/stock_data.h` (metrics derived from a series) is not part of this model.
- The constructor and destructor (curl global init and cleanup) are not part of this model.

## Findings

| source | as written | input that shows it | evidently intended | confidence | as-written member | corrected member |
|---|---|---|---|---|---|---|
| financial-engine-cpp/src/yahoo_finance_api.cpp:109-113 | the check asks for `"timestamp"` but the array is then read from `"timestamps"` on a const object, which is undefined behaviour when the key is missing | any chart response shaped as documented, e.g. `HistoricalParser.OneDayChart` (first result with `timestamp` and `indicators`, no `timestamps`) | read the array checked for, `chart_data["timestamp"]` | not executed | HistoricalParser.AsWrittenReadsMissingKey | HistoricalParser.ParsedBars |
| financial-engine-cpp/src/yahoo_finance_api.cpp:203-207 | the guard returns early when `finance.result` is NOT empty, and reads `result[0]` only when it is empty | `TrendingParser.ThreeQuotes` gives `[]` instead of `["AAA", "BBB"]`; an empty `finance.result` is read at index 0 | return early when `finance.result` is empty | not executed | TrendingParser.AsWrittenNeverListsASymbol | TrendingParser.SymbolsOfTagged |
