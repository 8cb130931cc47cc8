# MM-Hub market snapshot and analysis cache, in Dafny

MM-Hub is a trading dashboard. It builds a *market snapshot* of one asset on
one timeframe from Binance data. It then asks an AI advisor for a trading
decision about that snapshot and caches the advisor's answer.

This project models the deterministic core of both steps.

- **Snapshot derivation** (`fetchBinanceData` without its network calls):
  - the exchange symbol and interval names;
  - the right-aligned attachment of seven indicator outputs to the candle series;
  - the ten-candle momentum;
  - the latest-indicator set (`slice(-1)`, plus the truthiness test on momentum);
  - the liquidity ("StrongIMP") levels over the last seven daily candles;
  - classic pivot points from the second-to-last candle;
  - the final cut to the last fifty annotated candles.
- **Analysis cache** (the cache logic of `analyzeMarket`):
  - the key `symbol_timeframe_language`;
  - the four-hour validity, with a strict `<`;
  - storing a parsed answer stamped with the request time;
  - leaving the cache untouched when the advisor fails.

The model's inputs are the outputs of the parts that are not modelled:

- the parsed ticker;
- the parsed candles;
- the indicator library's outputs (`IndicatorOutputs`);
- the outcome of the daily-candle request (`DailySource`);
- the request time and the advisor's outcome (`AdvisorOutcome`).

Numbers are `real`.

Files and modules:

- `common.dfy` (`Common`): `Option`, `Result`, and `SliceLast`, which is JavaScript's `slice(-k)`.
- `types.dfy` (`Types`): the records of `types.ts`, and the timeframe and language names.
- `alignment.dfy` (`Alignment`): indicator alignment, momentum, and per-candle annotation.
- `levels.dfy` (`Levels`): liquidity levels and pivot points.
- `market_data.dfy` (`MarketData`): the snapshot assembly.
- `analysis_cache.dfy` (`AnalysisCache`): the cache as a state transformer over `map<string, TradingAnalysis>`.

Three behaviours of the code worth noting:

- **Pivot points** are computed from `klines[len-2]` of the *displayed* timeframe, not from the previous daily period.
- **Fewer than seven daily candles** is not a soft failure. The liquidity window is simply whatever `slice(-7)` returns, so any non-empty daily series yields levels.
- **An empty primary candle series** makes the latest-momentum read throw. The outer handler rethrows it, so the whole snapshot fails (`Failure(EmptySeries)`).

## Model

| member | source | states |
|---|---|---|
| Types.TimeframeName | types.ts:12 | Every timeframe name is non-empty and contains no underscore. |
| Types.ParseTimeframe | types.ts:12 | Inverse of the timeframe names: it finds the timeframe a name belongs to, and only that one. |
| Types.LanguageCode | types.ts:9 | Every language code is non-empty and contains no underscore. |
| Types.ParseLanguage | types.ts:9 | Inverse of the language codes `en`, `ua`, `ru`, in the same sense. |
| Common.OptionToSeq | types.ts:61-70 | A present value becomes a one-element list and an absent one becomes `[]`. |
| Common.SliceLast | services/marketData.ts:141 | `slice(-k)` has length min(k, n). |
| Common.SliceLastIsSuffix | services/marketData.ts:141 | `slice(-k)` is a suffix: the dropped prefix followed by it gives back the whole sequence. |
| Common.SliceLastAt | services/marketData.ts:141 | Element j of `slice(-k)` is element n - min(k, n) + j of the whole. |
| Common.SliceLastOne | services/marketData.ts:83-89 | `slice(-1)` is `[last]`, or `[]` for an empty sequence. |
| Alignment.Align | services/marketData.ts:60-76 | Candle i of n has a value exactly when n - i <= m. That value is output m - (n - i), so every read is in bounds for any output length. |
| Alignment.IndicatorsAt | services/marketData.ts:60-78 | Each of the seven windowed fields of candle i's record is right-aligned from that indicator's own output. Momentum is present exactly from index 10 on, and then adds the close ten candles earlier up to candle i's close. |
| Alignment.AlignColumnShape | services/marketData.ts:58-78 | The aligned column is n - min(n, m) absent entries followed by the last min(n, m) outputs in order. |
| Alignment.AlignRoundTrip | services/marketData.ts:58-78 | Reading the present values back out of the column gives the output again, all of it when m <= n. Nothing is lost, repeated or reordered. |
| Alignment.LastCandleCarriesLastValue | services/marketData.ts:60-76 | The last candle carries the last output value, or nothing when the output is empty. |
| Alignment.EmptyOutputAllAbsent | services/marketData.ts:60-76 | An empty output leaves every candle without that indicator. |
| Alignment.Momentum | services/marketData.ts:67 | Momentum is present exactly from index 10 on, and then closes[i-10] + momentum = closes[i]. |
| Alignment.MomentumIsAlignedLagDiff | services/marketData.ts:67 | Momentum equals the general alignment rule applied to the ten-candle close differences. |
| Alignment.Closes | services/marketData.ts:42 | The close series has one close per candle, in order. |
| Alignment.Annotate | services/marketData.ts:58-80 | Annotation keeps the length and each candle's time and OHLCV fields. Every candle gets the indicator record of its own position in the full series. |
| Alignment.AnnotateAligns | services/marketData.ts:58-78 | Each annotated indicator field is that indicator's aligned column entry. Momentum is present iff i >= 10 and is then close[i] - close[i-10]. |
| Alignment.IndicatorsIndependent | services/marketData.ts:60-76 | Each indicator's value depends on its own output only, and an empty output blanks that indicator alone. |
| Levels.MaxHigh | services/marketData.ts:104 | The window maximum bounds every high and is attained by some candle. |
| Levels.MinLow | services/marketData.ts:105 | The window minimum bounds every low and is attained by some candle. |
| Levels.LevelsOf | services/marketData.ts:104-115 | `bsl` and `ssl` are the extreme high and low of the window. The impulse closes the gap between them, `level50` is their midpoint, and the three levels split the range into four equal parts. |
| Levels.StrongImp | services/marketData.ts:103-115 | Levels exist exactly for a non-empty daily series. `bsl` and `ssl` bound, and are attained within, its last min(7, n) candles. The impulse is `bsl - ssl`, `level50` is their midpoint, and the three levels split the range into four equal parts, which fixes every field. |
| Levels.LevelsOrdered | services/marketData.ts:103-114 | When the candles of the seven-candle window have low <= high: ssl <= level25 <= level50 <= level75 <= bsl. |
| Levels.AscendingDailyExample | services/marketData.ts:103-115 | Over thirty ascending daily candles only the last seven count: bsl 129, ssl 113, impulse 16, level50 121. |
| Levels.Pivots | services/marketData.ts:127-132 | The pivot levels determine the candle's high, low and close (2p - s1 = H, 2p - r1 = L, r1 + s1 - p = C). r2 and s2 lie one range (H - L) either side of p. |
| Levels.PivotRoundTrip | services/marketData.ts:127-132 | Recovering H, L and C from the five levels gives back the candle they were built from. |
| Levels.PivotsOrdered | services/marketData.ts:127-132 | s2 <= s1 <= p <= r1 <= r2 holds exactly when L <= p <= H, and so whenever L <= C <= H. |
| Levels.PivotsDetermined | services/marketData.ts:127-132 | Any level set that recovers H, L and C and has r2 and s2 one range either side of p is the pivot set of that candle. |
| Levels.PivotExample | services/marketData.ts:127-132 | H 110, L 100, C 105 give r2 115, r1 110, p 105, s1 100, s2 95. |
| Levels.PivotsOfSeries | services/marketData.ts:121-135 | Pivots exist exactly when the series has at least two candles. They recover the second-to-last candle's high, low and close, with r2 and s2 one range of that candle either side of p, which determines all five levels. |
| MarketData.Symbol | services/marketData.ts:20 | The symbol is the asset followed by `USDT`. |
| MarketData.Interval | services/marketData.ts:8-17 | The interval is the timeframe's own name, and it is `1d` only for the daily timeframe. |
| MarketData.DailySeries | services/marketData.ts:96-101 | The daily timeframe reuses the primary candles. Otherwise the fetched daily candles are used, and there are none when that request failed. |
| MarketData.LatestMomentum | services/marketData.ts:90 | The latest momentum is `[m]` exactly when the last candle's momentum m is present and non-zero, else `[]`. |
| MarketData.FetchBinanceData | services/marketData.ts:19-150 | The snapshot fails exactly for an empty candle series. Otherwise: symbol, timeframe, price and change come from the inputs. The candles are the last min(50, n) input candles with unchanged fields and their full-series indicators. The latest indicators are taken from the outputs and the last annotated candle. The liquidity levels come from the primary candles on the daily timeframe, else from the fetched daily candles, and are absent when those are unavailable or empty. The pivots come from the second-to-last candle and exist iff n >= 2. |
| MarketData.KeptCandles | services/marketData.ts:141 | The kept candles are the last min(50, n) input candles with unchanged time and OHLCV fields, each carrying the indicators computed over the full series at its original position. |
| MarketData.KeptCandleAt | services/marketData.ts:58-80 | Returned candle j is full-series candle n - min(50, n) + j, with unchanged OHLCV fields and that position's full-series indicators. |
| MarketData.TruncatingFirstLosesMomentum | services/marketData.ts:141 | Annotating before truncation matters. With at least 60 candles the first returned candle has a momentum, which annotating only the last 50 would not give it. |
| MarketData.SnapshotLatestMatchesLastCandle | services/marketData.ts:82-91 | In a snapshot, each windowed latest entry holds exactly the value of the last returned candle. The latest momentum is the last ten-candle close change, or `[]` when that is absent or exactly zero. |
| MarketData.LatestIndicators | services/marketData.ts:82-91 | Each windowed latest entry is `[last output]`, or `[]` when the indicator produced nothing. The momentum entry is the last candle's momentum under the truthiness test. |
| MarketData.LatestEntryIsLastCandleValue | services/marketData.ts:82-89 | An indicator's `slice(-1)` entry is what the last candle carries for that indicator. |
| MarketData.LatestAgreesWithLastCandle | services/marketData.ts:82-89 | All seven windowed latest entries agree with the last annotated candle. |
| MarketData.LatestMomentumOfSeries | services/marketData.ts:90 | The latest momentum is `[close[n-1] - close[n-11]]` when n > 10 and those closes differ, else `[]`. |
| MarketData.LatestMomentumIsLastCandles | services/marketData.ts:67-90 | The latest momentum entry is the last candle's momentum, filtered by truthiness. |
| MarketData.DailyTimeframeReusesCandles | services/marketData.ts:96-101 | On the daily timeframe the liquidity levels come from the primary candles, whatever the daily request returned. |
| AnalysisCache.SplitLast | services/gemini.ts:35 | Splitting at the last underscore gives back the string, and the right part contains no underscore. |
| AnalysisCache.SplitLastAppend | services/gemini.ts:35 | Splitting `a_b` at its last underscore gives `a` and `b` when `b` has no underscore. |
| AnalysisCache.CacheKey | services/gemini.ts:35 | Every cache key decodes back to its symbol, timeframe and language, whatever the symbol contains. |
| AnalysisCache.CacheKeyInjective | services/gemini.ts:35 | Two requests share a key exactly when their symbol, timeframe and language all agree. |
| AnalysisCache.IsFresh | services/gemini.ts:40 | An entry is valid exactly before the instant four hours after its timestamp. |
| AnalysisCache.FreshnessEndsAtExpiry | services/gemini.ts:9-40 | Validity is an interval: valid at some time means valid at every earlier time. The last valid millisecond is one before expiry, and expiry itself is invalid. |
| AnalysisCache.Stamp | services/gemini.ts:110-111 | The stored result is the parsed answer with its timestamp set to the request time. |
| AnalysisCache.AnalyzeMarket | services/gemini.ts:34-120 | A hit (entry present and age < 4 h) returns the stored entry and leaves the cache unchanged. A miss with a parsed answer returns the stamped answer and stores exactly it under the key. A miss with a failure raises the matching error and leaves the cache unchanged. |
| AnalysisCache.HitMakesNoCall | services/gemini.ts:36-43 | On a hit the step does not depend on the advisor's outcome, so no call is made. |
| AnalysisCache.StoreReplacesOnlyThatKey | services/gemini.ts:110-114 | A store puts the returned entry, stamped `now`, under the request's key. Every other key keeps its entry and its presence. |
| AnalysisCache.RepeatWithinDurationHits | services/gemini.ts:36-43 | After a successful store, a request for the same key within the duration returns the identical entry from the cache. |
| AnalysisCache.ExpiredEntryRecomputed | services/gemini.ts:40 | An entry aged exactly the duration or more is replaced by a freshly stamped answer. |
| AnalysisCache.OneMillisecondPastDurationMisses | services/gemini.ts:9-40 | An entry one millisecond past four hours is not served. |
| AnalysisCache.FailureNotCached | services/gemini.ts:117-120 | A failed miss leaves the cache unchanged, so a retry at the same time misses again and can store a parsed answer. |

## Left out

- Network and parsing: the ticker, candle and daily-candle requests, `.json()` and `parseFloat` are not modelled. Their parsed results are parameters (`Ticker`, the candle sequence, `DailySource`).
- Indicator mathematics: the RSI, MACD, EMA, Bollinger, stochastic and CCI values come from the external `technicalindicators` library. Only their output sequences and positions are modelled (`IndicatorOutputs`).
- Floating point: numbers are `real`, so `/3` and the 0.25/0.5/0.75 scalings are exact. Rounding is not modelled.
- Levels.StrongImp: for an empty daily series JavaScript's `Math.max()`/`Math.min()` give -Infinity/Infinity and the levels become non-finite or NaN without an exception. Reals have no infinities, so the model returns `None` there instead of that degenerate record.
- The advisor call: the client construction, the prompt text and the response schema (services/gemini.ts:11-32, 45-107) are one abstract outcome: parsed, unparseable, or failed request. The prompt's use of a nonexistent `level20` field sits in that prompt text, so it is outside the model.
- AnalysisCache.AnalyzeMarket: the prompt calls `.toFixed` on the snapshot's indicator entries (services/gemini.ts:60-67). These are lists (services/marketData.ts:82-91), so as written every cache miss throws a TypeError while the prompt is built, before the advisor is called and outside the handler at lines 109-120. The `Parsed` outcome models lines 109-116 as if the prompt were built successfully. The as-written behaviour on a miss is the `RequestFailed` path: an error, and the cache unchanged.
- Default arguments: `fetchBinanceData` defaults to `BTC` and `15m` (services/marketData.ts:19). The model takes both explicitly, as the only caller does.
- In-place annotation: the source attaches `indicators` by mutating the parsed candle objects (services/marketData.ts:69-79), so on the daily timeframe the daily series aliases the annotated candles. The liquidity levels read only high and low, so the model's immutable copies give the same results.
- Logging: the `console` calls have no effect on results.
- Concurrency: two overlapping requests for the same key are not modelled. The cache is threaded through sequential requests.
- The clock: `Date.now()` is the explicit `now` parameter.
- User interface and settings: App.tsx, the components and the settings context only display or trigger these operations.
