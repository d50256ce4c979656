# perptrix signal core, modelled in Dafny

perptrix turns perpetual-futures market data into trading signals. The part modelled here runs from candles to signals in five layers:

- **Numeric primitives.** Simple and exponential moving averages, population standard deviation and true range (`CommonMath`).
- **Ten streaming trackers.** These are EMA crossover, SuperTrend, RSI, MACD, Bollinger Bands, ATR volatility regime, OBV, volume profile, open interest and funding rate. Each one keeps a small window or a smoothed accumulator and classifies every new candle into a closed set of signals.
- **The scoring policy.** `MarketBias` together with the `SignalAggregator` gives five clamped category scores, a bias, a position, a confidence and a risk level, with an ordered list of reasons.
- **Sizing and decision rules.** Stop loss and take profit are derived from the ATR, together with the score thresholds.
- **The orchestrator.** `SignalEngine::evaluate` folds a candle series through every tracker and then scores, aggregates and sizes the final signals.

Around the pipeline sit three more components, each modelled in its own module:

- the field validators and map-based parsers for indicator records (`Validation`, `Parser`);
- the category-weight registry and the configuration defaults (`Registry`, `Config`);
- the older MACD/RSI/funding weighted-confidence generator (`SignalGenerator`).

**How trackers are modelled.** Each tracker is a `class` with the fields of the Rust struct. Its `Update` method is proved to compute a pure step function (`EmaStep`, `RsiStep`, …) on a value view of its state (`State()`). The step function carries the tracker's invariant, and the lemmas about the tracker are stated on it. Where the source fills a tracker inside a loop (`calculate_rsi`, `calculate_macd`, …), the model uses a `method` with a `while` loop proved against the fold of the step function. The engine runs its loop over tracker state values advanced by the same step functions.

**Numbers.** f64 arithmetic in the trackers, the aggregator inputs, the engine and the generator is exact `real` arithmetic. The indicator records, the validators and the parsers work on `Models.Float`, which is a finite value, NaN, +inf or -inf. Their comparisons follow IEEE-754: every comparison with NaN is false. `f64::EPSILON` is the exact constant 2^-52. `f64::round` is modelled exactly as rounding half away from zero. The square root is a parameter (`CommonMath.Root`) about which the model knows only that it is non-negative; a few scenario lemmas also assume it is exact on squares. String-to-number parsing (`str::parse`) is a parameter as well. Clock readings (`Utc::now()`) are given to the model as `Timestamp` arguments.

**Where code and intent differ, the model follows the code.**
- The aggregator divides confidence by 10. Only the trend, momentum, volume and perp scores enter it (`Aggregator.ConfidenceOf`).
- `RSI::update` stores the index it returns as `prev_rsi`. The engine asks for the signal right after the update, so it never sees an RSI divergence (`SignalEngine.EngineNeverSeesRsiDivergence`).
- ATR sets its current value on every call. So the mean-of-window seeding branch is reachable only with a period of one (`AtrTracker.MeanSeedOnlyForPeriodOne`).
- The streaming `EMA` seeds from the first price, while `math::ema` seeds from an SMA. These are two different functions here (`EmaTracker.EmaFeedIsFoldFromFirstPrice`, `CommonMath.EmaOfFullWindowIsSma`).
- The aggregator test at tests/engine/aggregator.rs:57-60 expects Medium or High risk for its crowded-longs fixture. The code gives Low: the fixture's RSI divergence cancels the extreme-funding factor (`Aggregator.CrowdedLongsFixture`).
- `SignalGenerator` reads a `default_symbol` that `Config` does not declare. The default symbol is a field of the generator here.
- The direction that src/models/signal.rs calls `None` is written `Neutral`, as the engine uses it.

## Model

| member | source | states |
|---|---|---|
| CommonMath.Sma | src/common/math.rs:4-10 | None exactly when there are fewer values than the period; otherwise the mean of the last `period` values |
| CommonMath.SmaWithinWindow | src/common/math.rs:4-10 | the average lies between any lower and upper bound that all values of its window respect |
| CommonMath.SmaExamples | tests/common/math.rs:6-11 | on [1, 2, 3, 4, 5]: period 3 gives 4, period 5 gives 3, period 10 gives None |
| CommonMath.Multiplier | src/common/math.rs:22 | the smoothing factor 2 / (period + 1) is positive and, for a period of at least one, at most 1 |
| CommonMath.EmaFromPreviousBetween | src/common/math.rs:33-36 | one step of `ema_from_previous` lands between the previous EMA and the new value |
| CommonMath.EmaFromPrevious | src/common/math.rs:32-35 | one step moves the previous EMA by 2 / (period + 1) of its distance to the new value: a value equal to the previous EMA leaves it in place, and a period of one replaces it by the value |
| CommonMath.EmaOf | src/common/math.rs:13-30 | None exactly when the input is empty, the period is zero or there are fewer values than the period |
| CommonMath.Ema | src/common/math.rs:13-30 | the loop over the values after the seed window computes the batch EMA `EmaOf` (its invariant: the EMA of the prefix read so far) |
| CommonMath.EmaOfFullWindowIsSma | src/common/math.rs:23 | with exactly `period` values the EMA is the SMA seed itself |
| CommonMath.EmaOfExtendsByOneStep | src/common/math.rs:25-27 | one more value advances the batch EMA by exactly one `ema_from_previous` step |
| CommonMath.StandardDeviation | src/common/math.rs:39-57 | None exactly when there are fewer values than the period; otherwise a non-negative value |
| CommonMath.VarianceNonNegative | src/common/math.rs:45-54 | the population variance of a non-empty window is never negative |
| CommonMath.ConstantWindow | src/common/math.rs:44-54 | a window of equal values has that value as its mean and variance zero |
| CommonMath.TrueRange | src/common/math.rs:60-65 | the true range is at least each of the three candidates (span, distance of the high and of the low from the previous close) and equals one of them |
| CommonMath.TrueRangeExamples | tests/common/math.rs:30-35 | true_range(10, 8, 9) = 2 and true_range(10, 8, 7) = 3 |
| CommonMath.TrueRangeNonNegative | src/common/math.rs:60-65 | a candle whose high is not below its low has a non-negative true range |
| CommonMath.SlideAllKeepsMostRecent | src/indicators/volatility/atr.rs:32-35 | a bounded window fed one value at a time by push-then-drop-front holds exactly the `cap` most recent values |
| CommonMath.RoundHalfAway | src/indicators/volume/volume_profile.rs:50 | Rust's `f64::round`: the nearest integer, halves rounded away from zero |
| Models.NewCandle | src/models/indicators.rs:19-37 | a new candle carries exactly the given prices, volume and time, with no open interest and no funding rate |
| Models.Candle.WithOpenInterest | src/models/indicators.rs:39-42 | sets the open interest and leaves every other field as it was |
| Models.Candle.WithFundingRate | src/models/indicators.rs:44-47 | sets the funding rate and leaves every other field as it was |
| Models.CandleBuildersCommute | src/models/indicators.rs:39-47 | the two candle builders give the same candle in either order |
| Models.NewIndicatorSet | src/models/indicators.rs:142-159 | a new set holds the symbol, the price and the given time, and every optional indicator is absent and both lists empty |
| Models.IndicatorSet.WithMacd | src/models/indicators.rs:161-164 | sets the MACD and leaves every other field as it was |
| Models.IndicatorSet.WithRsi | src/models/indicators.rs:166-169 | sets the RSI and leaves every other field as it was |
| Models.IndicatorSet.WithFundingRate | src/models/indicators.rs:171-174 | sets the funding rate and leaves every other field as it was |
| Models.IndicatorSet.WithOpenInterest | src/models/indicators.rs:176-179 | sets the open interest and leaves every other field as it was |
| Models.IndicatorSet.WithTimeframe | src/models/indicators.rs:181-184 | sets the timeframe and leaves every other field as it was |
| Models.LaterBuilderWins | src/models/indicators.rs:161-169 | calling a builder twice keeps only the later value |
| Models.BuildersCommute | src/models/indicators.rs:161-184 | builders that set different fields commute |
| EmaTracker.EmaStep | src/indicators/trend/ema.rs:26-38 | an update stores the value it returns; the first price is returned unchanged |
| EmaTracker.StreamingStepIsEmaFromPrevious | src/indicators/trend/ema.rs:32-36 | after the first price, `price * m + prev * (1 - m)` is exactly one `ema_from_previous` step |
| EmaTracker.EmaFeedIsFoldFromFirstPrice | src/indicators/trend/ema.rs:26-38 | a tracker fed a non-empty price list holds the EMA recurrence seeded with the first price (not with an SMA as the batch `ema` is) |
| EmaTracker.EmaFeedWithinBounds | src/indicators/trend/ema.rs:26-38 | fed prices that all lie in [lo, hi], the tracker's EMA stays in [lo, hi] |
| EmaTracker.Ema.constructor | src/indicators/trend/ema.rs:16-23 | a new tracker has the given period and no value yet |
| EmaTracker.Ema.Update | src/indicators/trend/ema.rs:26-38 | the tracker's new state and the returned value are those of `EmaStep`, and `get` afterwards returns that value |
| EmaTracker.Ema.Get | src/indicators/trend/ema.rs:41-43 | None exactly while the tracker is in its initial state, i.e. before the first price |
| EmaTracker.TrendSignalOf | src/indicators/trend/ema.rs:86-100 | each of the five signals holds exactly when its condition does, in the source's order of precedence; Neutral without a previous pair |
| EmaTracker.CrossoverStep | src/indicators/trend/ema.rs:82-105 | both EMAs advance with their own periods, the new pair is remembered, and the first update is Neutral |
| EmaTracker.CrossNeverRepeats | src/indicators/trend/ema.rs:86-90 | a cross is never reported in the same direction on two consecutive updates |
| EmaTracker.EmaCrossover.constructor | src/indicators/trend/ema.rs:72-79 | two fresh trackers with the given periods and no previous pair |
| EmaTracker.EmaCrossover.Update | src/indicators/trend/ema.rs:82-105 | the new state and signal are those of `CrossoverStep` |
| EmaTracker.EmaCrossover.Fast | src/indicators/trend/ema.rs:108-110 | the fast EMA that the owned fast tracker holds, i.e. the one computed by the last update; None exactly before the first update |
| EmaTracker.EmaCrossover.Slow | src/indicators/trend/ema.rs:113-115 | the slow EMA that the owned slow tracker holds, i.e. the one computed by the last update; None exactly before the first update |
| EmaTracker.RisingThenFallingCrosses | tests/indicators/trend/ema.rs:24-50 | a 3/6 crossover fed closes 100 to 105 and back to 100 reports a bullish cross on the second update and a bearish cross on the tenth, and no other cross |
| EmaTracker.CalculateEma | src/indicators/trend/ema.rs:123-135 | None exactly when the period is zero or there are fewer candles than the period; otherwise the batch EMA of the closes, tagged with the period |
| EmaTracker.CalculateEmas | src/indicators/trend/ema.rs:138-143 | every result is the EMA of a listed period, and every listed period that has an EMA contributes it |
| EmaTracker.CalculateEmasSingle | src/indicators/trend/ema.rs:138-143 | one period contributes exactly its EMA when it has one and nothing otherwise |
| EmaTracker.CalculateEmasAppend | src/indicators/trend/ema.rs:138-143 | the results for a concatenation of period lists are the results for each list, in order; with the single-period case this fixes the output's order and multiplicity to those of `periods` |
| EmaTracker.CheckEmaCross | src/indicators/trend/ema.rs:146-157 | None exactly when either EMA is missing; otherwise 1, -1 or 0 exactly when the fast EMA is above, below or equal to the slow one |
| SuperTrendTracker.SuperTrendInit | src/indicators/trend/supertrend.rs:24-33 | a new tracker over a fresh ATR, with no bands, no line and no previous signal, satisfies the tracker invariant |
| SuperTrendTracker.BasicBands | src/indicators/trend/supertrend.rs:37-39 | the basic bands are `multiplier` ATRs either side of the high-low midpoint: their gap is 2 * multiplier * ATR and their sum is high + low |
| SuperTrendTracker.FinalUpper | src/indicators/trend/supertrend.rs:45-49 | the new basic upper band unless a previous upper band exists, is tighter and the close did not break above it |
| SuperTrendTracker.FinalLower | src/indicators/trend/supertrend.rs:51-55 | the new basic lower band unless a previous lower band exists, is tighter and the close did not break below it |
| SuperTrendTracker.SuperTrendLine | src/indicators/trend/supertrend.rs:57-72 | the new line is one of the two final bands |
| SuperTrendTracker.FlipSignal | src/indicators/trend/supertrend.rs:78-92 | the signal is on the bullish side exactly when the current direction is bullish, and is a flip exactly when a previous direction exists and differs |
| SuperTrendTracker.SuperTrendStep | src/indicators/trend/supertrend.rs:35-96 | an update keeps the tracker invariant and the multiplier |
| SuperTrendTracker.SuperTrendStepFacts | src/indicators/trend/supertrend.rs:35-96 | after an update the ATR has advanced by one candle, bands, line and direction are set, the line sits on a final band, the signal is bullish-side exactly when the close is above the line, and the remembered direction is the signal's side |
| SuperTrendTracker.FirstUpdateNeverFlips | src/indicators/trend/supertrend.rs:84-92 | the first update of a new tracker is Bullish or Bearish, never a flip |
| SuperTrendTracker.NoRepeatedFlip | src/indicators/trend/supertrend.rs:84-94 | two consecutive updates never flip the same way |
| SuperTrendTracker.SuperTrendRun | src/indicators/trend/supertrend.rs:35-96 | a run of candles keeps the invariant and yields one signal per candle |
| SuperTrendTracker.SuperTrendRunSnoc | src/indicators/trend/supertrend.rs:35-96 | running one more candle is one more update of the state reached so far |
| SuperTrendTracker.UpMoveIsBullish | tests/indicators/trend/supertrend.rs:7-23 | a steady up-move with period 3 and multiplier 2 is Bullish on every candle |
| SuperTrendTracker.DownMoveFlipsBearish | tests/indicators/trend/supertrend.rs:25-44 | on a falling series with period 3 and multiplier 2 the line holds at the lower band until the close reaches it, flipping to BearishFlip on the sixth candle and back to BullishFlip on the seventh |
| SuperTrendTracker.SuperTrend.constructor | src/indicators/trend/supertrend.rs:24-33 | a new object owns a fresh ATR and its state is `SuperTrendInit` |
| SuperTrendTracker.SuperTrend.Update | src/indicators/trend/supertrend.rs:35-96 | the new state and the returned signal are those of `SuperTrendStep` |
| SuperTrendTracker.SuperTrend.Value | src/indicators/trend/supertrend.rs:98-100 | None exactly before the first update; afterwards the line sits on the remembered upper or lower band |
| RsiTracker.GainLoss | src/indicators/momentum/rsi.rs:40-42 | a price change splits into a non-negative gain and loss whose difference is the change, at most one of them non-zero |
| RsiTracker.RelativeStrength | src/indicators/momentum/rsi.rs:70-74 | the ratio is non-negative and, when there is an average loss, is the average gain divided by it |
| RsiTracker.RsiOf | src/indicators/momentum/rsi.rs:75 | the index `100 - 100 / (1 + rs)` lies in [0, 100) |
| RsiTracker.RsiIsGainShare | src/indicators/momentum/rsi.rs:70-75 | with some average loss the index is the gains' share of all movement, in percent |
| RsiTracker.RsiWithoutLosses | src/indicators/momentum/rsi.rs:70-75 | with no average loss the ratio is capped at 100, so the index is 100 - 100/101 (above 99, never 100) |
| RsiTracker.RsiWithoutGains | src/indicators/momentum/rsi.rs:70-75 | with no gains the index is 0 |
| RsiTracker.RsiInit | src/indicators/momentum/rsi.rs:26-36 | a new tracker satisfies the tracker invariant |
| RsiTracker.RsiStep | src/indicators/momentum/rsi.rs:38-85 | the close is always remembered; an index is returned exactly when a previous close exists and the windows reach `period` changes, and it lies in [0, 100) and is remembered |
| RsiTracker.RsiStepAverages | src/indicators/momentum/rsi.rs:52-68 | the first full window is averaged arithmetically, every later one smooths the previous averages with the newest gain and loss |
| RsiTracker.RsiStepAfterClose | src/indicators/momentum/rsi.rs:39-50 | a step after a previous close slides the new gain and loss into windows bounded by the period |
| RsiTracker.RsiFeed | src/indicators/momentum/rsi.rs:38-85 | feeding closes keeps the invariant and remembers the last close |
| RsiTracker.RsiFeedSnoc | src/indicators/momentum/rsi.rs:38-85 | feeding one more close is one more update of the state reached so far |
| RsiTracker.RsiWarmup | src/indicators/momentum/rsi.rs:38-85 | after n closes the windows hold min(n - 1, period) changes and an index exists exactly when n > period |
| RsiTracker.RsiOutputAfter | src/indicators/momentum/rsi.rs:52-79 | the update on the (n+1)-th close returns an index exactly when n >= period |
| RsiTracker.RsiSignalOf | src/indicators/momentum/rsi.rs:87-105 | each of the five signals holds exactly when its condition does: Neutral on [30, 70], divergences need a remembered index and a price moving against the index |
| RsiTracker.NoDivergenceRightAfterUpdate | src/indicators/momentum/rsi.rs:76-98 | asked right after the update that produced the index, the signal is never a divergence, since the remembered index is the index itself |
| RsiTracker.NoLossesWhileNeverFalling | src/indicators/momentum/rsi.rs:38-85 | while closes never fall the loss window holds zeros and the average loss is zero |
| RsiTracker.NeverFallingIsOverbought | src/indicators/momentum/rsi.rs:70-101 | more than `period` closes that never fall leave the index at 100 - 100/101, whose signal is Overbought |
| RsiTracker.OnlyLossesWhileFalling | src/indicators/momentum/rsi.rs:38-85 | while closes keep falling no gain is recorded and every loss is positive |
| RsiTracker.AlwaysFallingIsOversold | src/indicators/momentum/rsi.rs:70-94 | more than `period` strictly falling closes leave the index at 0, whose signal is Oversold |
| RsiTracker.RallyIsOverbought | tests/indicators/momentum/rsi.rs:19-29 | the rally 50, 51, ..., 56 with period 5 produces an index flagged Overbought |
| RsiTracker.Rsi.constructor | src/indicators/momentum/rsi.rs:26-36 | a new object's state is `RsiInit(period)` |
| RsiTracker.Rsi.Update | src/indicators/momentum/rsi.rs:38-85 | the new state and the returned index are those of `RsiStep` |
| RsiTracker.Rsi.GetSignal | src/indicators/momentum/rsi.rs:87-105 | the signal is `RsiSignalOf` of the remembered index |
| RsiTracker.Rsi.Last | src/indicators/momentum/rsi.rs:107-109 | present exactly once the window holds `period` changes, and then the index of the current average gain and loss, in [0, 100) |
| RsiTracker.CalculateRsi | src/indicators/momentum/rsi.rs:116-130 | None exactly when there are no more candles than the period; otherwise the index left by feeding every close, tagged with the period, in [0, 100) |
| RsiTracker.CalculateRsiDefault | src/indicators/momentum/rsi.rs:132-134 | `calculate_rsi` with period 14 |
| MacdTracker.MacdInit | src/indicators/momentum/macd.rs:25-33 | a new tracker (three unseeded EMAs, no previous pair) satisfies the tracker invariant |
| MacdTracker.MacdSignalOf | src/indicators/momentum/macd.rs:43-58 | each of the five signals holds exactly when its condition does, in the source's order of precedence; Neutral without a previous pair |
| MacdTracker.CrossSides | src/indicators/momentum/macd.rs:45-48 | a bullish cross leaves the MACD above its signal, a bearish one below; equality is never a cross |
| MacdTracker.MacdStep | src/indicators/momentum/macd.rs:35-63 | the MACD is fast minus slow EMA, the signal is the signal EMA fed that MACD, the histogram their difference, and the pair is remembered |
| MacdTracker.FirstUpdateIsZero | src/indicators/momentum/macd.rs:35-63 | the first update returns MACD 0, signal 0, histogram 0 and Neutral |
| MacdTracker.MacdCrossNeverRepeats | src/indicators/momentum/macd.rs:43-61 | the same cross is never reported on two consecutive updates |
| MacdTracker.MacdFeedSnoc | src/indicators/momentum/macd.rs:35-63 | feeding one more close is one more update of the state reached so far |
| MacdTracker.MacdFeedPriceEmas | src/indicators/momentum/macd.rs:36-37 | the fast and slow EMAs inside a MACD are the streaming EMAs of the same closes |
| MacdTracker.MacdLineBounded | src/indicators/momentum/macd.rs:36-38 | while the closes stay in [lo, hi] the MACD line stays within hi - lo of zero |
| MacdTracker.RisingThenFallingCrosses | tests/indicators/momentum/macd.rs:13-34 | periods 3/6/3 on closes 100..104, 104, 103: a bullish cross on the second update and a bearish cross when the closes fall |
| MacdTracker.Macd.constructor | src/indicators/momentum/macd.rs:25-33 | three fresh EMA objects; the state is `MacdInit` |
| MacdTracker.Macd.Update | src/indicators/momentum/macd.rs:35-63 | the new state and the returned tuple are those of `MacdStep` |
| MacdTracker.CalculateMacd | src/indicators/momentum/macd.rs:70-97 | None exactly when there are no candles; otherwise the last update's MACD, signal and histogram over all closes, tagged with the three periods |
| MacdTracker.CalculateMacdDefault | src/indicators/momentum/macd.rs:99-101 | `calculate_macd` with periods 12, 26 and 9: None exactly on no candles, otherwise the line, signal and histogram of the tracker fed every close, tagged with those periods |
| AtrTracker.AtrInit | src/indicators/volatility/atr.rs:14-21 | a new tracker with a period of at least one satisfies the tracker invariant |
| AtrTracker.AtrStep | src/indicators/volatility/atr.rs:23-51 | the window slides in the true range (the plain span on the first candle) and stays between 1 and `period` long; the returned ATR and the close are remembered |
| AtrTracker.AtrStepValue | src/indicators/volatility/atr.rs:38-46 | the latest true range until the window is full; then Wilder's smoothing of the previous ATR, or the mean of the window when no ATR exists |
| AtrTracker.MeanSeedOnlyForPeriodOne | src/indicators/volatility/atr.rs:38-46 | the mean-of-window branch can only be taken when the period is one: every longer window fills after an ATR already exists |
| AtrTracker.AtrStepNonNegative | src/indicators/volatility/atr.rs:23-51 | on a candle whose high is not below its low, a non-negative tracker stays non-negative and returns a non-negative ATR |
| AtrTracker.AtrFeed | src/indicators/volatility/atr.rs:23-51 | feeding candles keeps the invariant, and any candle leaves an ATR |
| AtrTracker.AtrFeedNonNegative | src/indicators/volatility/atr.rs:23-51 | over candles whose highs are not below their lows the ATR is never negative |
| AtrTracker.Atr.constructor | src/indicators/volatility/atr.rs:14-21 | a new object's state is `AtrInit(period)` |
| AtrTracker.Atr.Update | src/indicators/volatility/atr.rs:23-51 | the new state and the returned ATR are those of `AtrStep` |
| AtrTracker.Atr.Current | src/indicators/volatility/atr.rs:53-55 | None exactly until the first candle has been seen (no true range and no previous close yet) |
| AtrTracker.VolatilityRegimeOf | src/indicators/volatility/atr.rs:57-72 | Normal when the average is at most EPSILON; otherwise each regime exactly on its band of the ratio: High above 1.5 averages, Elevated above 1.0 up to 1.5, Normal above 0.7 up to 1.0, Low at most 0.7 |
| AtrTracker.RegimeMonotone | src/indicators/volatility/atr.rs:57-72 | a larger ATR against the same average never gives a calmer regime |
| AtrTracker.DoubleTheAverageIsHigh | tests/indicators/volatility/atr.rs:13-24 | an ATR twice its lookback average is High |
| AtrTracker.CalculateAtr | src/indicators/volatility/atr.rs:87-98 | None exactly when there are fewer candles than the period; otherwise the ATR after feeding every candle, tagged with the period |
| AtrTracker.CalculateAtrDefault | src/indicators/volatility/atr.rs:100-102 | `calculate_atr` with period 14 |
| BollingerTracker.BollingerInit | src/indicators/volatility/bollinger.rs:24-31 | a new tracker with a period of at least one satisfies the tracker invariant |
| BollingerTracker.BandsOf | src/indicators/volatility/bollinger.rs:39-48 | the middle band is the window's mean, the deviation the root of its population variance and never negative, the outer bands symmetric about the middle and ordered for a non-negative width |
| BollingerTracker.Bandwidth | src/indicators/volatility/bollinger.rs:49-53 | 0 when the middle band is within EPSILON of zero; otherwise the band spread divided by the middle band |
| BollingerTracker.BollingerSignalOf | src/indicators/volatility/bollinger.rs:55-75 | each of the six signals holds exactly when its condition does, in the source's order of precedence; Neutral until the window is full |
| BollingerTracker.BollingerStep | src/indicators/volatility/bollinger.rs:33-79 | the close slides into a window bounded by the period, before which the signal is Neutral, and the invariant is kept |
| BollingerTracker.StepReportsBands | src/indicators/volatility/bollinger.rs:39-48 | an update reports the bands of the window it leaves behind |
| BollingerTracker.BollingerFeedSnoc | src/indicators/volatility/bollinger.rs:33-79 | feeding one more close is one more update of the state reached so far |
| BollingerTracker.BollingerFeedWindow | src/indicators/volatility/bollinger.rs:34-37 | the window of a fresh tracker is every close seen, slid through the bounded window |
| BollingerTracker.BollingerWindowIsRecent | src/indicators/volatility/bollinger.rs:34-37 | the window holds exactly the `period` most recent closes, or all of them while fewer were seen |
| BollingerTracker.FlatStep | src/indicators/volatility/bollinger.rs:39-57 | sliding a close into a window of that same close keeps a zero spread and a zero bandwidth, and a full window signals a squeeze |
| BollingerTracker.ConstantClosesSqueeze | src/indicators/volatility/bollinger.rs:55-57 | a fresh tracker fed at least `period - 1` equal closes signals a squeeze on one more of them |
| BollingerTracker.FlatFeed | src/indicators/volatility/bollinger.rs:33-79 | a fresh tracker fed equal closes holds only that close and remembers a zero bandwidth |
| BollingerTracker.PriceRipWalksTheBands | src/indicators/volatility/bollinger.rs:55-78 | after a flat window at 100 (period 5, width 2), a close at 105 gives bands 105 / 101 / 97 and WalkingBands |
| BollingerTracker.FlatThenRip | tests/indicators/volatility/bollinger.rs:13-35 | six closes at 100 then one at 105: the flat window signals Squeeze and the close at 105 WalkingBands |
| BollingerTracker.FullWindowBands | src/indicators/volatility/bollinger.rs:34-39 | once the window is full it is the last `period` closes and its middle band is their SMA |
| BollingerTracker.BollingerBands.constructor | src/indicators/volatility/bollinger.rs:24-31 | a new object's state is `BollingerInit(period, stdDev)` |
| BollingerTracker.BollingerBands.Update | src/indicators/volatility/bollinger.rs:33-79 | the new state and the returned tuple are those of `BollingerStep` |
| BollingerTracker.CalculateBollingerBands | src/indicators/volatility/bollinger.rs:86-108 | None exactly when there are fewer candles than the period; otherwise the bands of the last `period` closes, tagged with period and width, whose middle is the SMA |
| BollingerTracker.CalculateBollingerBandsDefault | src/indicators/volatility/bollinger.rs:110-112 | `calculate_bollinger_bands` with 20 periods and 2 deviations |
| BollingerTracker.MeanOfRecentIsSma | src/indicators/volatility/bollinger.rs:39-40 | the mean of the last `period` values is their simple moving average |
| BollingerTracker.FeedClose | src/indicators/volatility/bollinger.rs:98 | one close slides into the window and the output reports the bands of the new window |
| BollingerTracker.RunCloses | src/indicators/volatility/bollinger.rs:96-99 | a fresh tracker fed every candle's close holds those closes slid through the window; the last output, present exactly when there were candles, reports the bands of that window |
| BollingerTracker.FinalWindow | src/indicators/volatility/bollinger.rs:34-40 | a window slid through at least `period` closes holds the last `period` of them, and its mean is their SMA |
| ObvTracker.ObvInit | src/indicators/volume/obv.rs:19-25 | a new tracker (OBV 0, no close, no smoothed value) satisfies the tracker invariant |
| ObvTracker.DirectedVolume | src/indicators/volume/obv.rs:28-33 | a higher close adds the whole volume, a lower close subtracts it, an equal close adds nothing |
| ObvTracker.ObvSignalOf | src/indicators/volume/obv.rs:46-59 | opposite signs of price and smoothed-OBV change are a divergence, equal signs a confirmation, and a zero on either side is Neutral |
| ObvTracker.SmoothObv | src/indicators/volume/obv.rs:39-42 | the 0.9 / 0.1 smoothing lands between the previous smoothed value and the new OBV |
| ObvTracker.ObvStep | src/indicators/volume/obv.rs:27-66 | the first bar sets OBV and its smoothed value to the bar's volume and is Neutral; later bars add their directed volume, smooth it and classify the two changes; the raw OBV is returned |
| ObvTracker.ObvFeed | src/indicators/volume/obv.rs:27-66 | feeding bars keeps the invariant and remembers the last close |
| ObvTracker.ObvFeedIsObv | src/indicators/volume/obv.rs:27-36 | the streaming tracker's OBV is on-balance volume by definition: the first volume plus every later bar's directed volume |
| ObvTracker.SmoothedWithinRaw | src/indicators/volume/obv.rs:38-43 | the smoothed OBV always lies between the smallest and the largest raw OBV seen |
| ObvTracker.FlatCloseIsNeutral | src/indicators/volume/obv.rs:28-59 | an equal close leaves OBV unchanged and signals Neutral |
| ObvTracker.ConfirmationThenDivergence | tests/indicators/volume/obv.rs:6-21 | closes 100, 101, 102 confirm; a lower close on small volume still lifts the smoothed OBV, a bullish divergence |
| ObvTracker.Obv.constructor | src/indicators/volume/obv.rs:19-25 | a new object's state is `ObvInit()` |
| ObvTracker.Obv.Update | src/indicators/volume/obv.rs:27-66 | the new state and the returned pair are those of `ObvStep` |
| ObvTracker.Obv.Smoothed | src/indicators/volume/obv.rs:68-70 | the smoothed OBV exists exactly once a bar has been seen |
| VolumeProfileTracker.LookupFindsKeys | src/indicators/volume/volume_profile.rs:22 | the bucket table, kept as a list without repeated keys, has an entry for a key exactly when the key is listed |
| VolumeProfileTracker.SetLevel | src/indicators/volume/volume_profile.rs:44-51 | setting a bucket's volume changes that bucket only, keeps keys distinct, and appends the key when it is new |
| VolumeProfileTracker.VpInit | src/indicators/volume/volume_profile.rs:29-36 | a new profile with a positive tick size satisfies the invariant |
| VolumeProfileTracker.Evict | src/indicators/volume/volume_profile.rs:41-47 | an evicted sample's volume leaves its bucket, never below zero; an absent bucket is left alone and no bucket disappears |
| VolumeProfileTracker.Deposit | src/indicators/volume/volume_profile.rs:50-51 | a sample's volume is added to its bucket, created at zero when absent; other buckets are unchanged |
| VolumeProfileTracker.VpStep | src/indicators/volume/volume_profile.rs:38-52 | the sample slides into a window bounded by `lookback`, its bucket is created if new, and no bucket is ever removed |
| VolumeProfileTracker.BucketVolumeNonNegative | src/indicators/volume/volume_profile.rs:38-52 | the retained volume of a bucket is never negative when sample volumes are not |
| VolumeProfileTracker.DepositMatches | src/indicators/volume/volume_profile.rs:50-51 | depositing a new sample keeps every bucket equal to the sum of its retained samples |
| VolumeProfileTracker.EvictMatches | src/indicators/volume/volume_profile.rs:41-46 | evicting the oldest sample keeps every bucket equal to the sum of the remaining samples |
| VolumeProfileTracker.StepKeepsTotals | src/indicators/volume/volume_profile.rs:38-52 | with a window of at least one and non-negative volumes the floor at zero never bites: each bucket is the sum of its retained samples |
| VolumeProfileTracker.VpFeedWindow | src/indicators/volume/volume_profile.rs:39-42 | the retained samples are the `lookback` most recent ones |
| VolumeProfileTracker.FeedBuckets | src/indicators/volume/volume_profile.rs:38-52 | buckets are created in the order their first sample arrives and never removed, whatever is evicted |
| VolumeProfileTracker.FeedKeepsTotals | src/indicators/volume/volume_profile.rs:38-52 | from a fresh profile, bucket totals always equal the retained samples' volumes while volumes are non-negative |
| VolumeProfileTracker.FeedLookup | src/indicators/volume/volume_profile.rs:38-52 | from a fresh profile a bucket exists exactly when some sample ever fell into it, and it holds the retained samples' volume |
| VolumeProfileTracker.SortDescCorrect | src/indicators/volume/volume_profile.rs:63 | the node sort orders by descending volume and is a permutation of the nodes |
| VolumeProfileTracker.SortedHeadIsMax | src/indicators/volume/volume_profile.rs:63-65 | the first sorted node is a node of the list with the largest volume |
| VolumeProfileTracker.NodesOf | src/indicators/volume/volume_profile.rs:55-62 | one node per bucket, priced at bucket times tick size, carrying the bucket's volume |
| VolumeProfileTracker.VpSignalOf | src/indicators/volume/volume_profile.rs:72-97 | each of the five signals holds exactly when its condition does: within two ticks of the POC support or resistance, else a high or low volume node against 1.5 and 0.5 times the mean bucket |
| VolumeProfileTracker.ProfileOf | src/indicators/volume/volume_profile.rs:54-100 | the nodes are the buckets sorted by descending volume, the POC is the first node's price (0 without buckets), and the signal is that of the newest price |
| VolumeProfileTracker.PocIsHeaviestBucket | src/indicators/volume/volume_profile.rs:63-65 | the POC is the price of a bucket whose volume no other bucket exceeds |
| VolumeProfileTracker.HeavyVolumeSetsPoc | tests/indicators/volume/volume_profile.rs:7-17 | ten samples of 1000 at 100 and five of 200 at 105 leave the POC at 100 and a signal that is not Neutral |
| VolumeProfileTracker.ThinPrintReadsLow | tests/indicators/volume/volume_profile.rs:19-21 | one more sample of 10 at 110 reads as a low volume node |
| VolumeProfileTracker.VolumeProfile.constructor | src/indicators/volume/volume_profile.rs:29-36 | a new object's state is `VpInit(tickSize, lookback)` |
| VolumeProfileTracker.VolumeProfile.Update | src/indicators/volume/volume_profile.rs:38-52 | the new state is `VpStep` of the old one |
| VolumeProfileTracker.VolumeProfile.GetProfile | src/indicators/volume/volume_profile.rs:54-100 | the returned profile is `ProfileOf` the current state, and the state is unchanged |
| VolumeProfileTracker.SortedIsFixed | src/indicators/volume/volume_profile.rs:63 | the stable sort leaves nodes already in descending order untouched |
| VolumeProfileTracker.ShortFeedKeepsAll | src/indicators/volume/volume_profile.rs:39-42 | a window of 20 fed at most 20 samples keeps every one of them |
| OpenInterestTracker.OiInit | src/indicators/perp/open_interest.rs:20-26 | a new detector has no previous reading and satisfies the invariant |
| OpenInterestTracker.OiPercentChange | src/indicators/perp/open_interest.rs:36-42 | 0 when the previous open interest is within EPSILON of zero; otherwise the change as a percentage of the previous value |
| OpenInterestTracker.PercentThresholds | src/indicators/perp/open_interest.rs:44-52 | for a positive previous value the ±2% thresholds mean more than 1.02 times and less than 0.98 times the previous value |
| OpenInterestTracker.OiSignalOf | src/indicators/perp/open_interest.rs:44-62 | each of the five signals holds exactly when its condition does: expansions above +2% by price direction, squeezes below -2%, Neutral otherwise or on a flat price |
| OpenInterestTracker.SmoothOi | src/indicators/perp/open_interest.rs:29-32 | the 0.8 / 0.2 smoothing lands between the previous smoothed value and the new reading |
| OpenInterestTracker.OiStep | src/indicators/perp/open_interest.rs:28-70 | the first update seeds the smoothed value and is Neutral; later updates smooth and classify the change since the previous reading, which is then replaced |
| OpenInterestTracker.OiFeed | src/indicators/perp/open_interest.rs:28-70 | feeding readings keeps the invariant and remembers the last one |
| OpenInterestTracker.SmoothedWithinReadings | src/indicators/perp/open_interest.rs:29-33 | the smoothed open interest stays within any bounds every reading keeps |
| OpenInterestTracker.ZeroOpenInterestIsNeutral | src/indicators/perp/open_interest.rs:38-62 | open interest that stays within EPSILON of zero never signals |
| OpenInterestTracker.ExpansionsThenSqueezes | tests/indicators/perp/open_interest.rs:6-19 | the scripted readings give Neutral, BullishExpansion, BearishExpansion, LongSqueeze, ShortSqueeze |
| OpenInterestTracker.OpenInterest.constructor | src/indicators/perp/open_interest.rs:20-26 | a new object's state is `OiInit()` |
| OpenInterestTracker.OpenInterest.Update | src/indicators/perp/open_interest.rs:28-70 | the new state and the returned signal are those of `OiStep` |
| OpenInterestTracker.OpenInterest.Smoothed | src/indicators/perp/open_interest.rs:72-74 | the smoothed value exists exactly once a reading has been seen |
| FundingRateTracker.FundingInit | src/indicators/perp/funding_rate.rs:21-26 | a new detector has an empty history |
| FundingRateTracker.FundingSignalOf | src/indicators/perp/funding_rate.rs:40-54 | each of the seven signals holds exactly on its band of rates: beyond ±0.1% extreme, beyond ±0.05% high, otherwise neutral by sign |
| FundingRateTracker.SignalSideIsRateSign | src/indicators/perp/funding_rate.rs:40-54 | the long-side signals are exactly the positive rates, the short-side ones exactly the negative rates |
| FundingRateTracker.FundingStep | src/indicators/perp/funding_rate.rs:28-57 | the rate slides into a history bounded by `lookback`; the signal is that of the rate and the average that of the history (0 when empty) |
| FundingRateTracker.FundingFeedKeepsRecent | src/indicators/perp/funding_rate.rs:29-32 | the history holds the `lookback` most recent rates |
| FundingRateTracker.AverageWithinHistory | src/indicators/perp/funding_rate.rs:34-38 | the reported average stays within any bounds the retained rates and the new rate keep |
| FundingRateTracker.NoLookbackAveragesZero | src/indicators/perp/funding_rate.rs:29-38 | with a lookback of zero nothing is retained and the average is 0 |
| FundingRateTracker.GrowingHistory | src/indicators/perp/funding_rate.rs:29-32 | a history still short of `lookback` just grows by the rate |
| FundingRateTracker.ThresholdScenario | tests/indicators/perp/funding_rate.rs:5-19 | rates 0.12%, -0.11%, 0.06%, 0 give ExtremeLongBias, ExtremShortBias, HighLongBias, then Neutral with average 0.000175 |
| FundingRateTracker.FundingRate.constructor | src/indicators/perp/funding_rate.rs:21-26 | a new object's state is `FundingInit(lookback)` |
| FundingRateTracker.FundingRate.Update | src/indicators/perp/funding_rate.rs:28-57 | the new state and the returned pair are those of `FundingStep` |
| FundingRateTracker.FundingFeedIsSlideAll | src/indicators/perp/funding_rate.rs:29-32 | the history of a fresh detector is the rates slid one at a time through a window of `lookback` |
| EngineSignal.FromScore | src/engine/signal.rs:11-19 | each bias holds exactly on its band of scores: from 7 strong bullish, from 3 bullish, above -3 neutral, above -7 bearish, else strong bearish |
| EngineSignal.FromScoreMonotone | src/engine/signal.rs:11-19 | a higher score never gives a more bearish bias |
| EngineSignal.ToPosition | src/engine/signal.rs:21-27 | both bullish biases go long, both bearish ones short, the neutral one stays out |
| EngineSignal.PositionOfScore | src/engine/signal.rs:11-27 | a score goes long from 3 up, short from -3 down and stays out strictly between |
| Aggregator.Clamp | src/engine/aggregator.rs:84 | `i32::clamp`: the result lies in [lo, hi], equals x inside, and the nearer bound outside |
| Aggregator.TrendScore | src/engine/aggregator.rs:49-85 | the EMA and SuperTrend points, clamped to [-3, 3] |
| Aggregator.MomentumScore | src/engine/aggregator.rs:87-125 | the RSI and MACD points, clamped to [-3, 3] |
| Aggregator.VolatilityScore | src/engine/aggregator.rs:127-165 | the Bollinger breakout points, clamped to [-2, 2] |
| Aggregator.VolumeScore | src/engine/aggregator.rs:167-202 | the OBV and volume profile points, clamped to [-2, 2] |
| Aggregator.PerpScore | src/engine/aggregator.rs:204-240 | the open interest and contrarian funding points, clamped to [-2, 2] |
| Aggregator.RegimeNeverScores | src/engine/aggregator.rs:151-164 | the volatility regime adds reasons but never changes the volatility score |
| Aggregator.CrowdedLongsNeverHelp | src/engine/aggregator.rs:227-237 | switching funding to extreme long bias never raises the perp score |
| Aggregator.CrowdedShortsNeverHurt | src/engine/aggregator.rs:227-237 | switching funding to extreme short bias never lowers the perp score |
| Aggregator.TotalPossibleIsTen | src/engine/aggregator.rs:247-261 | the largest magnitudes 3, 3, 2, 2 add up to 10, so the `total_possible == 0` guard never fires |
| Aggregator.AdjustedConfidence | src/engine/aggregator.rs:268-280 | the adjusted confidence always lies in [0, 1] |
| Aggregator.ConfidenceOf | src/engine/aggregator.rs:242-281 | the confidence of the four directional scores lies in [0, 1] |
| Aggregator.CalculateConfidence | src/engine/aggregator.rs:242-281 | the loop over the scores and their maxima computes `ConfidenceOf` (its invariants: the magnitudes and total possible of the scores read so far) |
| Aggregator.ConfidenceMirror | src/engine/aggregator.rs:242-281 | negating all four scores leaves the confidence unchanged |
| Aggregator.DisagreementCapsConfidence | src/engine/aggregator.rs:272-277 | with scores in their ranges and trend and momentum not agreeing, confidence is at most 0.8 |
| Aggregator.UnanimityIsCertain | src/engine/aggregator.rs:242-281 | every directional category at its bullish maximum gives confidence 1 |
| Aggregator.AgreementRaisesConfidence | src/engine/aggregator.rs:268-274 | with agreeing trend and momentum, confidence is the larger magnitude over 10, raised by a fifth and capped at 1 |
| Aggregator.RiskFactors | src/engine/aggregator.rs:284-307 | the risk factor count lies in [-1, 4] |
| Aggregator.AssessRisk | src/engine/aggregator.rs:283-314 | High exactly from three factors, Medium exactly for one or two, Low exactly for none or fewer |
| Aggregator.DivergenceNeverRaisesRisk | src/engine/aggregator.rs:302-307 | an RSI divergence never raises the risk level |
| Aggregator.VolatileCrowdedMarketIsHighRisk | src/engine/aggregator.rs:286-313 | high volatility with extreme funding and no divergence is High risk whatever the score |
| Aggregator.CalmDecisiveMarketIsLowRisk | src/engine/aggregator.rs:286-313 | without high volatility or extreme funding, a total score of magnitude at least 2 is Low risk |
| Aggregator.AggregateOf | src/engine/aggregator.rs:15-47 | the breakdown holds the five category scores and their total (within ±12); bias, position, confidence and risk all follow from them; reasons appear in category order |
| Aggregator.Aggregate | src/engine/aggregator.rs:15-47 | running the categories in order with the confidence loop gives `AggregateOf` |
| Aggregator.MirrorNegatesVerdict | src/engine/aggregator.rs:15-314 | mirroring every signal (OBV confirmation aside) negates the total, swaps long and short, and keeps confidence and risk |
| Aggregator.ConfirmationScoresBullish | src/engine/aggregator.rs:179-182 | OBV confirmation scores +1 whichever way the confirmed move went |
| Aggregator.BullishFixtureIsStronglyBullish | tests/engine/aggregator.rs:26-36 | the bullish fixture is StrongBullish and Long with total 11, confidence 1 and some reasons |
| Aggregator.VolatileFixtureIsHighRisk | tests/engine/aggregator.rs:38-47 | the fixture with high volatility, extreme long funding and a neutral RSI is High risk |
| Aggregator.CrowdedLongsFixture | tests/engine/aggregator.rs:49-61 | extreme long funding drops the fixture's perp score from 2 to 1, but the fixture's RSI divergence cancels the funding risk factor, so the risk is Low |
| Aggregator.CrowdedShortsFixture | tests/engine/aggregator.rs:63-71 | extreme short funding keeps the perp score at 2 and confidence above 0.5 |
| Decision.DetermineDirection | src/signals/decision.rs:13-21 | Long exactly above 0.60, Short exactly below 0.40, Neutral exactly on [0.40, 0.60] |
| Decision.DirectionMonotone | src/signals/decision.rs:13-21 | a higher score never turns a long into anything else, nor anything into a short |
| Decision.DirectionExamples | tests/signals/decision.rs:7-31 | 0.65 is Long, 0.35 Short, 0.50 Neutral |
| Decision.ToPercentage | src/signals/decision.rs:24-26 | the inverse of `2r - 1`; it maps [-1, 1] onto [0, 1] and nothing else into it |
| Decision.ToPercentageMonotone | src/signals/decision.rs:24-26 | the map is strictly increasing |
| Decision.ToPercentageExamples | tests/signals/decision.rs:34-38 | -1, 0 and 1 map to 0, 0.5 and 1 |
| Decision.CalculateFromAtr | src/signals/decision.rs:36-40 | the stop is 1.2 ATR and the target 2 ATR, each as a percentage of the price |
| Decision.RewardIsFiveThirdsOfRisk | src/signals/decision.rs:36-40 | the target is always five thirds of the stop, and both are positive for a positive ATR and price |
| Decision.AtrTenAtHundred | tests/signals/decision.rs:41-47 | ATR 10 at price 100 gives a 12% stop and a 20% target |
| Decision.CalculateLong | src/signals/decision.rs:43-45 | sized as `calculate_from_atr` |
| Decision.CalculateShort | src/signals/decision.rs:48-50 | sized as `calculate_from_atr` |
| Decision.SidesAgree | src/signals/decision.rs:43-50 | long and short sizing agree with each other and with the plain ATR sizing |
| SignalEngine.EngineInit | src/signals/engine.rs:32-55 | the ten indicators with the engine's settings, an empty ATR lookback and the initial signals satisfy the engine invariant |
| SignalEngine.LookbackAverage | src/signals/engine.rs:79-83 | the mean of the retained ATR values whenever there are any |
| SignalEngine.OiAfter | src/signals/engine.rs:93-95 | the open interest detector after a candle keeps its invariant |
| SignalEngine.FundingAfter | src/signals/engine.rs:97-100 | the funding detector after a candle keeps its invariant |
| SignalEngine.EngineStep | src/signals/engine.rs:57-103 | one candle through every indicator keeps the engine invariant |
| SignalEngine.EngineFeed | src/signals/engine.rs:57-103 | the pass over the candles keeps the invariant and leaves the initial state on no candles |
| SignalEngine.StepAtr | src/signals/engine.rs:74-78 | a candle advances the ATR by one step and slides its value into the lookback of 14 |
| SignalEngine.StepRegime | src/signals/engine.rs:79-84 | the regime after a candle compares the current ATR with the mean of the lookback |
| SignalEngine.StepWithoutOpenInterest | src/signals/engine.rs:93-95 | a candle without open interest leaves that detector and its signal alone |
| SignalEngine.StepWithoutFunding | src/signals/engine.rs:97-100 | a candle without a funding rate leaves that detector and its signal alone |
| SignalEngine.StepNeverSeesRsiDivergence | src/signals/engine.rs:61-66 | the RSI signal held after any candle is never a divergence |
| SignalEngine.EngineAtrIsAtr | src/signals/engine.rs:36 | the engine's ATR is the plain ATR of all the candles |
| SignalEngine.AtrHistoryIsSlideAll | src/signals/engine.rs:74-78 | the lookback is the ATR values fed one at a time into a window of 14 |
| SignalEngine.AtrHistoryIsRecent | src/signals/engine.rs:74-78 | the lookback holds exactly the 14 most recent ATR values (all of them while fewer), the current one last |
| SignalEngine.RegimeUsesLookbackMean | src/signals/engine.rs:74-84 | after any candle the volatility regime compares the current ATR with the mean of the lookback |
| SignalEngine.NoOpenInterestStaysNeutral | src/signals/engine.rs:93-95 | candles without open interest leave that detector fresh and its signal Neutral |
| SignalEngine.NoFundingStaysNeutral | src/signals/engine.rs:97-100 | candles without a funding rate leave that detector empty and its signal Neutral |
| SignalEngine.EngineNeverSeesRsiDivergence | src/signals/engine.rs:61-66 | the engine asks for the RSI signal right after the update that remembered the same value, so it never sees a divergence |
| SignalEngine.WeightedReasons | src/signals/engine.rs:134-141 | every aggregator reason, in order, with weight 1 |
| SignalEngine.SizingOf | src/signals/engine.rs:126-132 | no sizing for a neutral direction or a non-positive ATR; otherwise the ATR sizing at the price |
| SignalEngine.OutputOf | src/signals/engine.rs:118-155 | the aggregator's direction and confidence, ATR sizing, its reasons at weight 1 followed by one risk reason at weight 0.5 |
| SignalEngine.EvaluateOf | src/signals/engine.rs:25-156 | None exactly below 50 candles; otherwise the output of the state after every candle, priced at the last close |
| SignalEngine.OutputAlwaysExplains | src/signals/engine.rs:142-145 | every output carries at least the risk reason, last, at weight 0.5 |
| SignalEngine.ProcessCandle | src/signals/engine.rs:58-102 | the loop body advances every indicator as `EngineStep` does |
| SignalEngine.RunCandles | src/signals/engine.rs:57-103 | the loop over the candles computes `EngineFeed` |
| SignalEngine.BuildOutput | src/signals/engine.rs:105-155 | the assembly after the loop computes `OutputOf` |
| SignalEngine.Evaluate | src/signals/engine.rs:25-156 | the engine computes `EvaluateOf` |
| SignalEngine.EvaluateWithIndicators | src/signals/engine.rs:159-175 | None exactly when the evaluation is None; otherwise the evaluation and a set holding the symbol, the signal's price and the last candle's funding rate and open interest when present, nothing else |
| Validation.ValidateRsi | src/indicators/validation.rs:14-30 | passes exactly the finite values in 0..=100; every failure is the out-of-range error for "rsi" with bounds 0 and 100 |
| Validation.ValidatePeriod | src/indicators/validation.rs:32-40 | passes exactly the periods 1..=1000; otherwise the invalid-period error carrying the period |
| Validation.ValidatePrice | src/indicators/validation.rs:42-58 | passes exactly the finite positive prices; non-positive and -inf fail as out of range, NaN and +inf as not finite |
| Validation.ValidateVolume | src/indicators/validation.rs:60-76 | passes exactly the finite non-negative volumes; negative and -inf fail as out of range, NaN and +inf as not finite |
| Validation.ValidateFundingRate | src/indicators/validation.rs:78-94 | passes exactly the finite rates in -1..=1; every failure is the out-of-range error for "funding_rate" |
| Validation.ValidateMacdPeriods | src/indicators/validation.rs:122-132 | passes exactly when all three periods are in 1..=1000 and fast < slow; a period error names one of the three |
| Validation.ValidateMacd | src/indicators/validation.rs:96-135 | passes exactly when MACD, signal and histogram are finite, the histogram is within 0.0001 of MACD minus signal and any periods are usable; the first non-finite field decides the error |
| Validation.ValidateRsiIndicator | src/indicators/validation.rs:137-143 | passes exactly when the value passes the RSI check and any period is in 1..=1000; a bad value decides the error |
| Validation.ValidateEma | src/indicators/validation.rs:145-153 | passes exactly when the value is finite and the period is in 1..=1000; a non-finite value is reported first |
| Validation.ValidateSma | src/indicators/validation.rs:155-163 | passes exactly when the value is finite and the period is in 1..=1000; a non-finite value is reported first |
| Validation.ValidateVolumeIndicator | src/indicators/validation.rs:165-174 | passes exactly when the volume, any moving average of it and any period pass; a bad volume decides the error |
| Validation.ValidateEmas | src/indicators/validation.rs:196-198 | passes exactly when every EMA passes; otherwise the error of the first EMA that fails |
| Validation.ValidateSmas | src/indicators/validation.rs:200-202 | passes exactly when every SMA passes; otherwise the error of the first SMA that fails |
| Validation.ValidateIndicatorSet | src/indicators/validation.rs:176-209 | passes exactly when the symbol is non-empty, the price passes and every present component passes; an empty symbol is reported first, then a bad price |
| Validation.RsiErrorsAreRangeErrors | src/indicators/validation.rs:14-30 | the RSI validator only ever reports range errors: its finiteness branch is unreachable |
| Validation.FundingRateErrorsAreRangeErrors | src/indicators/validation.rs:78-94 | the funding rate validator only ever reports range errors: its finiteness branch is unreachable |
| Validation.VolumeBoundary | src/indicators/validation.rs:60-68 | zero volume passes and every negative volume fails |
| Validation.PeriodBoundaries | src/indicators/validation.rs:4-7 | 0 and 1001 fail, 1 and 1000 pass |
| Validation.ExactHistogramConsistent | src/indicators/validation.rs:113-120 | a histogram of exactly MACD minus signal passes, so the MACD passes exactly when its periods do |
| Validation.BareSetValid | src/indicators/validation.rs:176-209 | a fresh set with a non-empty symbol and a positive finite price is valid |
| Validation.InvalidComponentSpoilsSet | src/indicators/validation.rs:192-194 | adding an RSI that fails its validator makes the set invalid |
| Parser.ParseF64 | src/indicators/parser.rs:6-10 | succeeds exactly when the text parses, with the parsed value; otherwise the numeric-format error carrying the text |
| Parser.ParseU32 | src/indicators/parser.rs:12-16 | succeeds exactly when the text parses, with the parsed value; otherwise the numeric-format error carrying the text |
| Parser.Difference | src/indicators/parser.rs:34 | f64 subtraction: exact on finite operands, NaN whenever an operand is NaN |
| Parser.ParseMacd | src/indicators/parser.rs:28-43 | the record with the histogram defaulted to MACD minus signal, returned exactly when it validates, else the validator's error |
| Parser.FloatField | src/indicators/parser.rs:48-52 | a missing key is the missing-field error and an unparsable value the numeric-format error naming the key; otherwise the parsed value |
| Parser.MacdPeriodFields | src/indicators/parser.rs:71-79 | no periods unless all three period keys are present; then it succeeds exactly when all three values parse |
| Parser.ParseMacdFromMap | src/indicators/parser.rs:45-82 | "macd" missing is reported first, then "signal"; a histogram that does not parse is an error; a result carries the parsed MACD and signal values |
| Parser.ParseRsi | src/indicators/parser.rs:84-88 | the record returned exactly when it validates, else the validator's error |
| Parser.ParseRsiFromMap | src/indicators/parser.rs:90-100 | "rsi" missing or unparsable is reported by key; a result carries the parsed value, a period exactly when "rsi_period" is present, and validates |
| Parser.ParseEma | src/indicators/parser.rs:102-106 | succeeds exactly for a finite value with a period in 1..=1000, returning that record |
| Parser.ParseSma | src/indicators/parser.rs:108-112 | succeeds exactly for a finite value with a period in 1..=1000, returning that record |
| Parser.ParseVolume | src/indicators/parser.rs:114-126 | succeeds exactly for a finite non-negative volume, a valid moving average if any and a valid period if any, returning that record |
| Parser.FundingField | src/indicators/parser.rs:146-150 | no funding rate when the key is absent; otherwise succeeds exactly when it parses into [-1, 1], with that rate |
| Parser.Assemble | src/indicators/parser.rs:144-162 | the symbol, price, funding rate and clock reading given, the MACD and RSI exactly when their map parsers succeed, the timeframe copied when present |
| Parser.ParseIndicatorSetFromMap | src/indicators/parser.rs:128-166 | "symbol" missing is reported first, then "price"; a result carries the map's symbol and parsed price |
| Parser.OmittedHistogramIsConsistent | src/indicators/parser.rs:34-41 | with the histogram left out, the MACD parses exactly when MACD and signal are finite and any periods are usable |
| Parser.SetParsesExactly | src/indicators/parser.rs:128-166 | a map parses exactly when its symbol is non-empty, its price parses to a positive finite number and any funding rate parses into [-1, 1]; the MACD and RSI keys never make it fail |
| Parser.SubRecordsOptional | src/indicators/parser.rs:146-158 | in a parsed set the MACD and RSI are present exactly when their own parsers succeed, and the funding rate is the parsed value when the key is present |
| Parser.RsiOutOfRangeRejected | src/indicators/parser.rs:90-100 | an RSI value outside [0, 100] in the map is rejected |
| Registry.CategoryWeight | src/indicators/registry.rs:27-35 | every category's weight lies strictly between 0 and 1 |
| Registry.AllCategories | src/indicators/registry.rs:38-46 | five categories, no two the same |
| Registry.WeightsSumToOne | src/indicators/registry.rs:27-46 | the weights of all listed categories add up to exactly 1 |
| Registry.EveryCategoryListed | src/indicators/registry.rs:5-11 | every category appears in the list of all categories |
| Registry.WeightOrder | src/indicators/registry.rs:27-35 | trend weighs most, momentum next, and volatility, volume and perp weigh 0.15 each |
| Registry.WeightsMatchConfigDefaults | src/indicators/registry.rs:27-35 | each category's registry weight equals the default weight of that category in the configuration |
| Config.DefaultCategoryWeights | src/config/mod.rs:39-48 | the five default weights add up to 1 |
| Config.DefaultConfig | src/config/mod.rs:64-77 | positive MACD and histogram scales, a stop loss below the take profit, and the default category weights |
| Config.NewConfig | src/config/mod.rs:80-99 | the seven given settings kept unchanged, with the default category weights |
| SignalGenerator.SidesExclusive | src/signals/signal_generator.rs:25-26 | MACD cannot be both above and below its signal, and equal lines are neither |
| SignalGenerator.CappedRatio | src/signals/signal_generator.rs:30 | the capped ratio never exceeds 1 and is non-negative for a non-negative scale, a zero scale included |
| SignalGenerator.CrossoverText | src/signals/signal_generator.rs:32-37 | the crossover reason reads "MACD bullish crossover" or "MACD bearish crossover" |
| SignalGenerator.FundingText | src/signals/signal_generator.rs:85-90 | the funding reason reads "Funding rate positive" or "Funding rate negative" |
| SignalGenerator.MacdPart | src/signals/signal_generator.rs:28-40 | nothing when the lines are equal; otherwise one crossover reason of the right side whose weight is the part; at most 0.4, and positive when the scale is |
| SignalGenerator.RsiPart | src/signals/signal_generator.rs:42-80 | scores only when the RSI confirms the MACD side (below 50 for bullish, above 50 for bearish), at most 0.3 for an RSI in [0, 100], with at most one reason weighing the part |
| SignalGenerator.FundingPart | src/signals/signal_generator.rs:82-94 | between 0 and 0.15, positive exactly for a given non-zero rate, with one reason naming the rate's sign exactly then |
| SignalGenerator.HistogramPart | src/signals/signal_generator.rs:96-108 | nothing when the lines are equal; at most 0.15 for a non-negative scale; one histogram reason exactly when positive |
| SignalGenerator.DirectionOf | src/signals/signal_generator.rs:112-120 | long exactly when the confidence reaches 0.1 with a bullish MACD, short exactly when it does with a bearish MACD |
| SignalGenerator.GenerateOf | src/signals/signal_generator.rs:13-17 | the input's symbol or else the default, the input's price and the clock reading |
| SignalGenerator.ConfidenceInUnitInterval | src/signals/signal_generator.rs:110 | for an RSI in [0, 100] and non-negative scales the total confidence lies in [0, 1] |
| SignalGenerator.PartWeights | src/signals/signal_generator.rs:28-108 | each block's reason weights add up to that block's confidence |
| SignalGenerator.ReasonWeightsAreConfidence | src/signals/signal_generator.rs:19-110 | the weights of all reasons add up to the total confidence |
| SignalGenerator.DirectionFollowsMacd | src/signals/signal_generator.rs:110-120 | the confidence is the sum of the parts; no direction exactly below 0.1 or with equal lines, else long exactly when bullish and short exactly when bearish |
| SignalGenerator.SizingFollowsConfidence | src/signals/signal_generator.rs:122-128 | with a direction the stop is the default times one minus the confidence and the target the default times the confidence; without one both defaults |
| SignalGenerator.DefaultConfigExample | src/config/mod.rs:64-77 | under the default settings a bullish MACD 10 above its signal with RSI 25, funding 0.05 and histogram 5 is long at confidence 0.235 with a 1.53% stop, a 0.94% target and four reasons |
| SignalGenerator.AddMacdReason | src/signals/signal_generator.rs:28-40 | the MACD block computes `MacdPart` and appends its reason |
| SignalGenerator.AddRsiReason | src/signals/signal_generator.rs:42-80 | the RSI block computes `RsiPart` and appends its reason |
| SignalGenerator.AddFundingReason | src/signals/signal_generator.rs:82-94 | the funding block computes `FundingPart` and appends its reason |
| SignalGenerator.AddHistogramReason | src/signals/signal_generator.rs:96-108 | the histogram block computes `HistogramPart` and appends its reason |
| SignalGenerator.SignalGenerator.constructor | src/signals/signal_generator.rs:9-11 | the generator keeps the given settings and default symbol |
| SignalGenerator.SignalGenerator.GenerateSignal | src/signals/signal_generator.rs:13-139 | the generator computes `GenerateOf` |
| SignalModel.TotalWeightAppend | src/models/signal.rs:14-17 | the weights of two reason lists added up are the weights of their concatenation |

## Left out

- Floating point: rounding error, overflow to infinity and NaN propagation inside the trackers, the aggregator inputs, the engine and the generator. These use exact `real`; only the records, validators and parsers model NaN and the infinities.
- The square root is a parameter known only to be non-negative, so the model does not fix the numeric width of the Bollinger bands or the standard deviation.
- `CommonMath.Sma`, `CommonMath.StandardDeviation`: require a positive period; with period 0 the source divides 0 by 0 and returns NaN.
- `RsiTracker.Rsi.constructor`, `RsiTracker.CalculateRsi`: require a period of at least one; with 0 the window is full (empty) from the second close on, the first averages are 0/0 (NaN), and the next update evaluates `period - 1` on a `usize`, which underflows (a panic in debug builds).
- `AtrTracker.Atr.constructor`, `AtrTracker.CalculateAtr`: require a period of at least one; with 0 the window is full (empty) from the first candle on, the first ATR is the empty sum over 0 (0/0, NaN), and the next update evaluates `period - 1` on a `usize`, which underflows (a panic in debug builds).
- `BollingerTracker.BollingerBands.constructor`, `BollingerTracker.CalculateBollingerBands`: require a period of at least one; with 0 the source takes the mean of an empty window (NaN).
- `SuperTrendTracker.SuperTrend.constructor`: requires a period of at least one, for the ATR it owns.
- `VolumeProfileTracker.VolumeProfile.constructor`: requires a positive tick size; with 0 the source's bucket index is the saturated cast of an infinite or NaN quotient.
- `Decision.CalculateFromAtr`, `Decision.CalculateLong`, `Decision.CalculateShort`: require a non-zero price; with 0 the source divides by zero, which gives infinite percentages for a non-zero ATR and NaN for an ATR of 0.
- `SignalEngine.Evaluate`, `SignalEngine.EvaluateOf`, `SignalEngine.BuildOutput`, `SignalEngine.EvaluateWithIndicators`: require a non-zero last close, for the same reason, because they size by `calculate_from_atr`.
- `SignalGenerator.ReasonWeightsAreConfidence`, `SignalGenerator.PartWeights`: require a non-negative histogram scale. With a negative scale the histogram part is negative, it carries no reason, and the weights then differ from the confidence.
- Volume profile iteration order: the source iterates a `HashMap`, whose order is unspecified. The model keeps the buckets in first-insertion order, which is one possible order, and proves the POC to be a bucket of maximal volume. It does not prove which of several equal buckets is chosen.
- The engine holds the ten trackers as state values advanced by their step functions, not as ten live objects. Each class's `Update` is proved to compute the same step, but the engine does not model the objects' aliasing.
- The i64 cast after `round()` is not bounded: bucket indices are unbounded integers.
- `parse_f64_from_any` and `parse_u32_from_any` are left out: they only format a value with `Display` before parsing.
- The `Indicator` trait in src/indicators/registry.rs is left out: it has no behaviour and no implementor in the core.
- Error messages keep their fixed text. The values the source formats into some of them are not modelled.
- `Config::from_file`, `save_to_file` and the environment lookups in src/config/mod.rs are file and environment I/O.
- The RSI unit test's sell-off after a rally is not proved as a concrete scenario. Instead the model proves the general statements: never-falling closes end Overbought (`RsiTracker.NeverFallingIsOverbought`), and strictly falling closes from a fresh tracker end at RSI 0 and Oversold (`RsiTracker.AlwaysFallingIsOversold`).
- `SignalGenerator.GenerateSignal` ignores `rsi_overbought`, `rsi_oversold` and `min_confidence` from the configuration, as the source does; it uses its literal 30/50/70 thresholds and 0.1.

