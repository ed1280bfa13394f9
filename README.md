# Market data collector and trend analyzer, modelled in Dafny

The system fetches a price record per financial symbol from a remote API and
classifies a price series as upward, downward or flat. This project models
its two stages:

- **The collector** (`market_data_collector.py`, module `Collector`). This part
  is imperative, so it is modelled as the class `MarketDataCollector`.
  - `FetchData` is the three-attempt retry loop.
  - `ProcessData` extracts the `{symbol, price}` record key by key.
  - `Collect` is the loop that builds the result dict keyed by the requested
    symbol.
  - The HTTP client is a `Network` object. It answers request number k with
    entry k of a script of replies (a response with a status and a body that
    decodes or not, or a transport exception) and logs every request sent.
  - Each method is proved against a pure function: `Fetch`, `Processed`,
    `Trace`, `Gather` and `Issued`. The properties of those functions are
    proved as lemmas.
- **The analyzer** (`business_analyzer.py`, module `Analyzer`). This part is
  pure: `_detect_trend` is `DetectTrend` and `analyze_trends` is
  `AnalyzeTrends`. Prices are exact reals, and the thresholds are exactly
  1.05 and 0.95.
- **Python values** (module `PyJson`).
  - A decoded body is a JSON datatype, and `None` is `Null`.
  - A call that raises yields `Raised(KeyError | TypeError | AttributeError)`.
  - `key in x`, `x[key]` and truthiness follow Python's rules for dicts,
    lists, strings, None, numbers and booleans.
- **The two stages together** (module `Pipeline`).

A symbol is not always skipped when its data is bad. `process_data` catches
only KeyError (market_data_collector.py:59), so any TypeError it raises escapes
and aborts the whole `collect` call. Later symbols are not requested, and no
dict is returned. `process_data` raises TypeError on these bodies:

- None, which is what `fetch_data` returns when all three attempts fail. The
  test `'data' in None` raises.
- A successful reply whose body is JSON `null`, a boolean or a number.
- A dict whose `data` is not a dict, for example `{"data": null}`.
- A list that holds the string `"data"`.
- A string that contains `"data"`.

`ProcessedRaises` states these cases. `RaisingBodyFailsCollect`,
`ExhaustedFetchFailsCollect`, `FailedFirstSymbolScenario` and
`NullDataScenario` show that each of them makes `Collect` return
`Raised(TypeError)`.

## Model

| member | source | states |
|---|---|---|
| PyJson.Truthy | business_analyzer.py:54 | A value is falsy exactly when it is None, False, zero, the empty string, the empty list or the empty dict. |
| PyJson.Contains | market_data_collector.py:53 | `key in x` raises TypeError exactly when x is not a dict, list or string. On a dict it tests the keys, on a list the elements, and on a string whether the key occurs at some position. |
| PyJson.IsSubstringOccurs | market_data_collector.py:53 | The recursive substring test holds exactly when the needle occurs at some position of the string. |
| PyJson.Subscript | market_data_collector.py:55-56 | `x[key]` succeeds exactly when x is a dict holding the key, and then yields its value. Otherwise it raises KeyError for a dict and TypeError for anything else. |
| Collector.BuildHeaders | market_data_collector.py:15-18 | Raises exactly when `ALPHA_VANTAGE` is missing, and then KeyError. Otherwise the headers are exactly Content-Type `application/json` and Authorization `Bearer ` followed by the key. |
| Collector.MarketDataCollector.constructor | market_data_collector.py:13-18 | Given the credential, the collector keeps the keys and the headers `BuildHeaders` builds from them. |
| Collector.Endpoint | market_data_collector.py:75 | The URL is the base URL followed by the symbol, character for character. |
| Collector.EndpointInjective | market_data_collector.py:75 | Two symbols with the same URL are the same symbol. |
| Collector.Fetch | market_data_collector.py:30-39 | The retry loop makes at most as many attempts as it has replies, and at least one. |
| Collector.FetchFirstSuccess | market_data_collector.py:31-35 | If reply n is the first with status 200 and a decodable body, the loop returns that body after exactly n+1 requests. It sends no request after it. |
| Collector.FetchExhausted | market_data_collector.py:31-39 | If no reply succeeds, every attempt is used up and the result is None. |
| Collector.LateSuccessLikeImmediate | market_data_collector.py:31-35 | A success after failed attempts returns the same body as the same reply would on the first attempt. |
| Collector.Network.Get | market_data_collector.py:33 | Sending a request appends it to the log and gets the scripted reply for its position in the log. |
| Collector.MarketDataCollector.FetchData | market_data_collector.py:30-39 | Returns `Fetch` of the next three scripted replies. The log grows by exactly that many copies of the request (the endpoint with the collector's headers). |
| Collector.Processed | market_data_collector.py:51-61 | The record is empty or holds exactly `symbol` and `price`, never one of the two. Anything raised is TypeError, and None always raises it. |
| Collector.ProcessedComplete | market_data_collector.py:53-58 | A `data` dict holding both fields yields exactly those two values. |
| Collector.ProcessedWithoutData | market_data_collector.py:51-58 | A dict without `data` yields the empty record. |
| Collector.ProcessedIncomplete | market_data_collector.py:55-61 | A `data` dict missing `symbol` or `price` yields the empty record, not a partial one. |
| Collector.HandleKeyError | market_data_collector.py:59-61 | The handler turns exactly a KeyError into the empty record. Any other error propagates unchanged. |
| Collector.ProcessedRaises | market_data_collector.py:51-61 | `process_data` raises exactly on None, a boolean, a number, a dict whose `data` is not a dict, a list holding `"data"`, or a string containing `"data"`. |
| Collector.MarketDataCollector.ProcessData | market_data_collector.py:51-61 | The key-by-key extraction, including the KeyError handler, computes exactly `Processed`. |
| Collector.Trace | market_data_collector.py:74-77 | There is one pass per requested symbol. |
| Collector.TraceSteps | market_data_collector.py:74-77 | Pass k requests symbol k, makes one to three attempts, and processes the body it fetched. |
| Collector.TraceAt | market_data_collector.py:74-76 | Pass k uses the replies that start right after the requests of the k passes before it. |
| Collector.Gather | market_data_collector.py:73-80 | The dict is returned exactly when no pass's `process_data` raised. Entries present before the passes stay present. |
| Collector.Issued | market_data_collector.py:74-77 | At most one request is sent per attempt the passes make, and exactly one per attempt when no pass raises. |
| Collector.GatherRaises | market_data_collector.py:76-80 | A run that raises does so with the error of the first pass whose `process_data` raised, and every pass before that one returned. |
| Collector.GatherKeys | market_data_collector.py:73-80 | A symbol is in the result exactly when it was already there or some pass for it kept a non-empty record. Keys are requested symbols. |
| Collector.GatherLastWins | market_data_collector.py:78-79 | A symbol's entry is the record of the last pass that kept one for it. |
| Collector.GatherKeeps | market_data_collector.py:78-79 | An entry that no later pass overwrites survives unchanged. |
| Collector.GatherComplete | market_data_collector.py:77-79 | If every record so far is complete, every entry of the result holds exactly `symbol` and `price`. |
| Collector.IssuedRequests | market_data_collector.py:74-76 | Every request sent carries the collector's headers and targets the endpoint of a requested symbol. |
| Collector.CollectPass | market_data_collector.py:74-79 | One pass of the loop either ends the run with process_data's error or carries the loop invariant to the next symbol. |
| Collector.CollectSpec | market_data_collector.py:73-80 | `collect` raises exactly when some fetched body makes `process_data` raise, and then with TypeError. Otherwise a symbol is a key exactly when a pass for it kept a record. Its entry is the last such record, and every entry is a complete `{symbol, price}` record. |
| Collector.RaisingBodyFailsCollect | market_data_collector.py:76-77 | A pass whose fetched body makes `process_data` raise makes `collect` raise TypeError. |
| Collector.ExhaustedFetchFailsCollect | market_data_collector.py:76-77 | A symbol whose three attempts all fail makes `collect` raise TypeError instead of skipping the symbol. |
| Collector.FailedFirstSymbolScenario | market_data_collector.py:73-80 | For AAPL then GOOGL, with AAPL answered 500 three times and GOOGL answered 200, `collect` raises TypeError. |
| Collector.NullDataScenario | market_data_collector.py:53-59 | A single 200 reply `{"data": null}` for AAPL makes `collect` raise TypeError rather than omit AAPL. |
| Collector.MarketDataCollector.Collect | market_data_collector.py:73-80 | Returns `Gather` of the passes `Trace` makes from the current network position. The log grows by exactly the requests those passes send (`Issued`), so nothing is sent after a failing pass. |
| Analyzer.Classify | business_analyzer.py:64-69 | Upward exactly when last > first × 1.05. Downward exactly when last < first × 0.95 and not above first × 1.05. Flat exactly when first × 0.95 ≤ last ≤ first × 1.05. |
| Analyzer.ClassifyRelativeChange | business_analyzer.py:62-69 | For a positive first price, upward means a relative change above +5%, downward below -5%, and flat within ±5% inclusive. |
| Analyzer.UnchangedPriceTrend | business_analyzer.py:64-69 | An unchanged non-negative price is flat. An unchanged negative price classifies as upward. |
| Analyzer.Numeric | business_analyzer.py:64-66 | Only numbers and booleans can be multiplied and compared. A number keeps its value, True is 1 and False is 0. Anything else raises TypeError. |
| Analyzer.PricesField | business_analyzer.py:58 | `data.get('prices', [])` is the `prices` value when present. Otherwise it is a default that yields no prices. |
| Analyzer.PriceList | business_analyzer.py:58 | The comprehension succeeds exactly when every entry is a dict holding `price`, and yields those prices in order. Otherwise the first bad entry raises: KeyError for a dict, TypeError for anything else. |
| Analyzer.Prices | business_analyzer.py:58 | Iterating the `prices` value succeeds exactly for a list of priced dicts, an empty dict or an empty string. A list yields its prices in order; the empty dict and empty string yield no prices. |
| Analyzer.DetectTrend | business_analyzer.py:54-69 | An empty record is flat, and a non-empty non-dict raises AttributeError. A non-flat result needs a `prices` list of at least two numeric prices and is the threshold classification of its first and last price. |
| Analyzer.Opportunity | business_analyzer.py:31-36 | The buy, sell and no-trend labels correspond one to one to upward, downward and flat. |
| Analyzer.AnalyzeTrends | business_analyzer.py:27-42 | The result is empty exactly when detection raised. Otherwise its one key is `opportunity`, holding the buy, sell or no-trend label exactly when the trend is upward, downward or flat. |
| Analyzer.NoPricesIsFlat | business_analyzer.py:58-60 | A dict without `prices` is flat. |
| Analyzer.FewerThanTwoPricesIsFlat | business_analyzer.py:58-60 | A series of fewer than two priced entries is flat. |
| Analyzer.TrendThresholds | business_analyzer.py:62-69 | Upward exactly when last > first × 1.05. Downward exactly when not upward and last < first × 0.95. Flat exactly when first × 0.95 ≤ last ≤ first × 1.05. |
| Analyzer.BoundaryIsFlat | business_analyzer.py:64-69 | With a non-negative first price, a last price exactly on either threshold is flat. |
| Analyzer.MiddlePricesIrrelevant | business_analyzer.py:62-63 | Two series that agree on their first and last price have the same trend, whatever lies between and whatever their lengths. |
| Analyzer.MissingPriceGivesEmpty | business_analyzer.py:40-42 | An entry of `prices` without a `price` field makes the analysis empty. |
| Analyzer.MalformedRecordGivesEmpty | business_analyzer.py:40-42 | A non-empty record that is not a dict, or a `prices` value that is None or a boolean, makes the analysis empty. |
| Analyzer.RisingScenario | business_analyzer.py:62-65 | Prices 100, 100, 100, 106 give "Buy signal detected". |
| Analyzer.ThresholdScenario | business_analyzer.py:64-69 | Prices 100, 95 sit exactly on the lower threshold and give "No clear trend". |
| Analyzer.FallingScenario | business_analyzer.py:66-67 | Prices 100, 94 give "Sell signal detected". |
| Pipeline.CollectedRecordHasNoTrend | business_analyzer.py:58-60 | Every record a completed collect stores has no `prices` list, so analysing it gives "No clear trend". |

## Left out

- HTTP transport: `requests.get` is the `Network` script. A request past the script's end meets a transport failure. Timeouts, redirects and connection reuse are not modelled.
- JSON decoding: `response.json()` is represented only by its outcome, a decoded value or a failure. A 200 whose body does not decode counts as a failed attempt, as the surrounding `except Exception` makes it.
- Logging: every `logger` call is dropped, because it does not affect any result.
- The `__main__` block: reading the environment and the example run are I/O.
- `generate_insights`: it has no body to model.
- The empty `BusinessAnalyzer.__init__`: it has no logic.
- Floating point: prices are exact reals and the thresholds are exactly 1.05 and 0.95. Python compares binary floats, so at a threshold the real code can differ from the model by one unit in the last place. Very large integers converted to float, NaN and infinities are not modelled.
- Dict ordering: results are maps, so the insertion order of Python dicts is not modelled. Only membership and values are.
- Symbols are strings: a non-string symbol, which the f-string would format, is not modelled.
- Collector.MarketDataCollector.constructor: requires the credential, because a Dafny constructor cannot raise. The KeyError raised without the credential is stated by `BuildHeaders` instead.
- Only the three exceptions the modelled code can meet are distinguished (KeyError, TypeError, AttributeError). `analyze_trends` catches every exception alike.
