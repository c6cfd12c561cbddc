# Strategy and paper-trading decision pipeline, in Dafny

This project models the decision pipeline of polymarket-data-platform. The pipeline turns price candles and Polymarket quotes into paper trades, and later settles those trades.

- **Indicator library** (`indicators.dfy`). RSI with Wilder smoothing, EMA, SMA, MACD, VWAP, Heiken-Ashi candles, the regime classifier, ATR and the Heiken-Ashi trend.
  - Every loop of the JavaScript is a `method` proved equal to a recursive specification function.
  - The bounds and shapes the library promises are lemmas about those functions.
- **Models.**
  - `base_model.dfy`: the edge against the market, result building with 3-decimal rounding, and input validation.
  - `ta_model.dfy`: the technical-analysis model, which fuses five signals into a composite and then a probability.
  - `baseline_model.dfy`: the baseline and random models.
- **Strategy evaluator** (`evaluator.dfy`). A class that runs its models in order. It isolates failing models, caches the last evaluation and recommends the maximal-edge trading result, with ties going to the first registered model.
  - It also compares a past evaluation with an outcome, summarises it, and manages its model list.
- **Decision engine** (`decision_engine.dfy`). Validates inputs, asks the evaluator, and sizes a fractional-Kelly stake capped at `maxStake`.
- **Paper trading.**
  - `trade_recorder.dfy`: the `paper_trades` table as a class over a sequence of rows, with recording and the two read queries.
  - `result_checker.dfy`: settlement of one row by id.
  - `paper_trader.dfy`: the service's helpers, its per-market trade gate and the settlement pass.
- **Supporting cores.**
  - `rate_limiter.dfy`: the token bucket.
  - `markets_config.dfy`: the market table as constant data, with its three queries.
  - `binance.dfy` and `yahoo.dfy`: the Binance and Yahoo payload-to-candle-row conversions.
  - `candle_rows.dfy`: the row format both collectors share.

## How numbers are modelled

Numbers are `real`.

- `Math.round(x * 10^k) / 10^k` is `Numeric.RoundTo(x, 10^k)`, defined as `floor(x * s + 0.5) / s`. This is JavaScript's rounding, half-way cases included.
- A value that the source treats as missing or non-finite is `Option<real>`.
- Where a division by zero reaches a comparison (`detectRegime` divides by the average price), the quotient is the extended value `Ext`: `Finite`, `PosInf`, `NegInf` or `NaN`. Comparisons on it follow IEEE semantics.
- JSON cells read from a payload are `Raw` values. `Number(null)` is 0, as in JavaScript.
- The clock (`Date.now()`) and the random draws of the random model are parameters.
- The database queries the service issues become inputs: the open markets, the latest snapshot of each market and the newest-first candle rows of each asset.

## Model

| member | source | states |
|---|---|---|
| Numeric.RoundToClose | src/strategy/models/base-model.js:87-88 | rounding to a decimal place moves a value by more than −½ and at most +½ unit of that place |
| Numeric.RoundToWithin | src/strategy/indicators.js:61 | a value between two multiples of the rounding unit is rounded to a value between them (used for RSI ∈ [0,100]) |
| Numeric.RoundToExact | src/strategy/models/base-model.js:87-88 | rounding leaves an exact multiple of the unit unchanged |
| Numeric.RoundToMonotone | src/strategy/models/base-model.js:87-88 | rounding is monotone |
| Numeric.Ceil | src/shared/rate-limiter.js:41 | `Math.ceil`: the least integer not below x |
| Numeric.Clamp | src/strategy/models/ta-model.js:189 | `Math.max(lo, Math.min(hi, x))` lies in [lo, hi] and is x when x already does |
| Numeric.MaxOf | src/strategy/indicators.js:256 | `Math.max(...s)` is an element of s and bounds every element from above |
| Numeric.MinOf | src/strategy/indicators.js:256 | `Math.min(...s)` is an element of s and bounds every element from below |
| Numeric.Percent | src/strategy/indicators.js:258 | `a / b * 100`: finite when b ≠ 0; when b is 0, +∞ exactly for a > 0 and −∞ exactly for a < 0 (NaN otherwise) |
| Numeric.MeanWithin | src/strategy/indicators.js:156-164 | the mean of values within [lo, hi] is within [lo, hi] |
| Numeric.FractionBounds | src/strategy/indicators.js:279 | a part divided by a whole it does not exceed lies in [0, 1] |
| Indicators.Closes | src/strategy/indicators.js:17 | the closes have one entry per candle, each the candle's close |
| Indicators.Changes | src/strategy/indicators.js:19-22 | there is one change per consecutive pair of closes |
| Indicators.SeedGain | src/strategy/indicators.js:29-39 | the seed sum of gains is non-negative |
| Indicators.SeedLoss | src/strategy/indicators.js:29-39 | the seed sum of losses is non-negative |
| Indicators.Smooth | src/strategy/indicators.js:45-51 | Wilder smoothing of non-negative values is non-negative |
| Indicators.WilderGain | src/strategy/indicators.js:41-52 | the smoothed average gain is non-negative |
| Indicators.WilderLoss | src/strategy/indicators.js:41-52 | the smoothed average loss is non-negative |
| Indicators.ComputeChanges | src/strategy/indicators.js:19-22 | the changes loop computes exactly the close-to-close differences |
| Indicators.SeedAverages | src/strategy/indicators.js:28-42 | the seed loop computes the first `period` average gain and loss |
| Indicators.SmoothAverages | src/strategy/indicators.js:44-52 | the smoothing loop computes the Wilder averages over all remaining changes |
| Indicators.CalculateRSI | src/strategy/indicators.js:12-62 | `calculateRSI` returns the RSI of the Wilder-smoothed averages, rounded to 2 decimals, or null |
| Indicators.RsiRange | src/strategy/indicators.js:12-62 | RSI is null exactly when there are no candles or fewer than period+1, and otherwise lies in [0, 100] |
| Indicators.NoLossKeepsZero | src/strategy/indicators.js:29-52 | with no negative change, the seed and every smoothed average loss are 0 |
| Indicators.SeedLossZero | src/strategy/indicators.js:29-39 | with no negative change, the seed loss sum is 0 |
| Indicators.RsiAllGains | src/strategy/indicators.js:54-56 | with non-decreasing closes (average loss 0), RSI is exactly 100 |
| Indicators.EmaSeries | src/strategy/indicators.js:126-148 | the EMA series has `m - period + 1` entries |
| Indicators.CalculateEMA | src/strategy/indicators.js:126-148 | `calculateEMA`'s loop yields the specified EMA series, or null when short |
| Indicators.EmaShape | src/strategy/indicators.js:132-147 | the series has `n - period + 1` entries and starts with the mean of the first `period` values |
| Indicators.EmaNextWithin | src/strategy/indicators.js:142-145 | one EMA step between values in [lo, hi] stays in [lo, hi] |
| Indicators.EmaWithin | src/strategy/indicators.js:126-148 | every EMA entry lies within the bounds of the input values |
| Indicators.Sma | src/strategy/indicators.js:156-164 | SMA is null exactly when input is absent or shorter than `period` |
| Indicators.SmaWithin | src/strategy/indicators.js:156-164 | SMA lies within the bounds of the last `period` values |
| Indicators.CalculateMACD | src/strategy/indicators.js:72-118 | `calculateMACD`'s loops yield the specified line, signal and histogram (5 decimals) or null |
| Indicators.MacdLineShape | src/strategy/indicators.js:87-96 | the MACD line has one entry per close index from slow−1 on, pairing `fastEMA[k+fast-1]` with `slowEMA[k]`, as written |
| Indicators.MacdDefinedness | src/strategy/indicators.js:72-118 | with the default 12/26/9, MACD is null exactly for absent input or fewer than 35 candles |
| Indicators.MacdHistogramNearDifference | src/strategy/indicators.js:109-117 | the histogram, computed before rounding, is within 1.5·10⁻⁵ of the rounded line minus the rounded signal |
| Indicators.CalculateVWAP | src/strategy/indicators.js:171-194 | `calculateVWAP`'s loop yields the volume-weighted (or plain-mean) typical price to 2 decimals, or null |
| Indicators.CumVolumeZero | src/strategy/indicators.js:176-185 | with every volume missing or 0, the cumulative volume is 0 |
| Indicators.VwapZeroVolume | src/strategy/indicators.js:171-194 | VWAP is null exactly on absent or empty input; with zero total volume it is the rounded mean typical price |
| Indicators.CumUniform | src/strategy/indicators.js:179-185 | with a uniform volume v, the cumulative volume is k·v and the cumulative TPV is v times the cumulative typical price |
| Indicators.VwapUniformVolume | src/strategy/indicators.js:171-194 | with a uniform positive volume, VWAP is the rounded mean typical price |
| Indicators.HeikenAshi | src/strategy/indicators.js:201-231 | there is one HA candle per input candle |
| Indicators.CalculateHeikenAshi | src/strategy/indicators.js:201-231 | `calculateHeikenAshi`'s loop yields the specified HA candles, or [] on absent input |
| Indicators.HeikenAshiPrefix | src/strategy/indicators.js:206-229 | each HA candle depends only on the candles up to it |
| Indicators.HeikenAshiShape | src/strategy/indicators.js:201-231 | ha_close is the OHLC mean; the first ha_open is (O+C)/2 and later ones average the previous ha_open and ha_close; ha_high ≥ high, ha_open, ha_close; ha_low ≤ low, ha_open, ha_close |
| Indicators.PlusDMAt | src/strategy/indicators.js:267-277 | each +DM contribution is non-negative |
| Indicators.MinusDMAt | src/strategy/indicators.js:267-277 | each −DM contribution is non-negative |
| Indicators.PlusDM | src/strategy/indicators.js:264-277 | the +DM total is non-negative |
| Indicators.MinusDM | src/strategy/indicators.js:264-277 | the −DM total is non-negative |
| Indicators.DmRatioBounds | src/strategy/indicators.js:279 | dmRatio ∈ [0, 1] |
| Indicators.DirectionalMovement | src/strategy/indicators.js:264-277 | the DM loop computes the specified +DM and −DM totals |
| Indicators.DetectRegime | src/strategy/indicators.js:238-302 | `detectRegime` returns the specified regime label |
| Indicators.RegimeConditions | src/strategy/indicators.js:238-302 | CHOP under 20 candles; dmRatio ∈ [0,1]; TREND_UP only with trendStrength > 0.5, dmRatio > 0.3, sma10 > sma20, price > sma10 (mirrored for TREND_DOWN); RANGE only with range% < 3 and dmRatio < 0.2 |
| Indicators.TrueRange | src/strategy/indicators.js:321-325 | a true range is non-negative |
| Indicators.TrueRanges | src/strategy/indicators.js:315-328 | there is one true range per consecutive candle pair |
| Indicators.CalculateATR | src/strategy/indicators.js:310-337 | `calculateATR`'s loop yields the mean of the last `period` true ranges, or null |
| Indicators.AtrNonNegative | src/strategy/indicators.js:310-337 | ATR is null exactly for absent input or fewer than period+1 candles, and otherwise ≥ 0 |
| Indicators.BullCount | src/strategy/indicators.js:350-360 | the bullish count is at most the lookback |
| Indicators.BearCount | src/strategy/indicators.js:350-360 | the bearish count is at most the lookback |
| Indicators.CountsDisjoint | src/strategy/indicators.js:354-360 | bullish and bearish counts together do not exceed the lookback |
| Indicators.GetHATrend | src/strategy/indicators.js:345-372 | `getHATrend`'s counting loop yields the specified trend |
| Indicators.HaTrendFacts | src/strategy/indicators.js:345-372 | neutral/0 when short; 'up' iff bullish > bearish, 'down' iff bearish > bullish; neutral (and on a tie) strength 0; strength ∈ [0, 1] |
| BaseModel.CalculateEdge | src/strategy/models/base-model.js:58-67 | the edge is defined exactly when both quote sides are numbers, and then is probability minus the chosen side's price |
| BaseModel.ShouldMakeTradeStrict | src/strategy/models/base-model.js:74-76 | `shouldMakeTrade` is strict (an edge equal to the threshold does not trade) and monotone in the edge |
| BaseModel.CreateResult | src/strategy/models/base-model.js:83-93 | name, direction, shouldTrade and time are stamped; confidence and edge are within ½·10⁻³ of the given values, or 0 when missing |
| BaseModel.Round3Idempotent | src/strategy/models/base-model.js:87-88 | rounding an already rounded value again changes nothing |
| BaseModel.NoTrade | src/strategy/models/base-model.js:100-108 | a no-trade result has direction null, confidence 0, edge 0, shouldTrade false and the given reason |
| BaseModel.ValidateCandles | src/strategy/models/base-model.js:116-126 | the candles are accepted exactly when present, at least `minRequired` and non-empty |
| BaseModel.ValidQuoteFacts | src/strategy/models/base-model.js:133-144 | an accepted quote has both sides in [0, 1] and a defined edge for either direction |
| BaselineModel.BaselineFacts | src/strategy/models/baseline-model.js:39-65 | invalid quote → no trade; Up iff up ≥ down; confidence is the favoured price; edge 0; trades only if the threshold is negative |
| BaselineModel.RandomFacts | src/strategy/models/baseline-model.js:97-123 | invalid quote → no trade; Up iff the draw > 0.5; confidence ∈ [0.5, 0.9]; edge is confidence minus the side's price (to rounding); never trades |
| TAModel.CalculateIndicators | src/strategy/models/ta-model.js:109-136 | the current price is the last close; RSI ∈ [0,100] when present; HA strength ∈ [0,1]; one HA candle per candle |
| TAModel.RsiSignalBounds | src/strategy/models/ta-model.js:156-168 | the RSI signal is in [−1, 1]: non-negative when oversold, non-positive when overbought, within ±0.15 in between |
| TAModel.MacdSignalOf | src/strategy/models/ta-model.js:171-190 | the MACD signal is in [−0.8, 0.8] and takes the sign of an agreeing histogram and line crossover |
| TAModel.VwapSignalOf | src/strategy/models/ta-model.js:193-197 | the VWAP signal is in [−1, 1], positive above a positive VWAP and negative below it |
| TAModel.HaSignalOf | src/strategy/models/ta-model.js:200-207 | the HA signal is ±strength, so in [−1, 1], and 0 when neutral |
| TAModel.RegimeSignalOf | src/strategy/models/ta-model.js:210-223 | the regime signal is in [−0.7, 0.7]: positive exactly for TREND_UP, negative exactly for TREND_DOWN |
| TAModel.SignalsInRange | src/strategy/models/ta-model.js:146-226 | all five signals of real candles lie in [−1, 1] |
| TAModel.CompositeInRange | src/strategy/models/ta-model.js:239-257 | with signals in [−1, 1] and weights summing to 1, the composite lies in [−1, 1] |
| TAModel.CalculateModelProbability | src/strategy/models/ta-model.js:235-296 | the weighting loop yields the specified direction, probability and strong-signal list |
| TAModel.ModelProbabilityFacts | src/strategy/models/ta-model.js:235-296 | no direction (probability 0.5) iff \|composite\| < 0.15; Up iff composite ≥ 0.15; probability ∈ [0.53, 0.9], ≤ 0.7 in CHOP; the strong signals are exactly those with \|signal\| ≥ 0.3 |
| TAModel.StrongExactly | src/strategy/models/ta-model.js:249-257 | the loop lists exactly the weighted signals with \|signal\| ≥ 0.3 |
| TAModel.EveryNameWeighted | src/strategy/models/ta-model.js:239-245 | every signal has a weight |
| TAModel.DirectionalResult | src/strategy/models/ta-model.js:76-101 | a directional result keeps confidence in [0.53, 0.9], edge = confidence − price to rounding, and trades only when the rounded edge is above the threshold to rounding |
| TAModel.EvaluateFacts | src/strategy/models/ta-model.js:48-102 | too few candles or an invalid quote → no trade with that reason; no direction → no trade; trades iff the inputs are valid and the model's verdict has a side whose probability minus the market price (unrounded) exceeds the threshold |
| TAModel.ConcludeFacts | src/strategy/models/ta-model.js:70-101 | from a verdict: no direction → no trade; otherwise bounded confidence and edge against the real side price; trades iff the verdict has a side and its unrounded edge is strictly above the threshold |
| TAModel.ConcludeAtThreshold | src/strategy/models/ta-model.js:76-80 | an edge exactly equal to the threshold gives a directional result that does not trade and reports the edge as below the threshold |
| Evaluator.ErrorResult | src/strategy/evaluator.js:50-60 | a failing model contributes its name, no direction, confidence 0, edge 0 and no trade |
| Evaluator.RunModel | src/strategy/evaluator.js:48-61 | a result carries the model's name; the baseline with threshold ≥ 0, the random model and a model without evaluate never trade |
| Evaluator.ResultsTo | src/strategy/evaluator.js:46-62 | there is one result per model, in registration order |
| Evaluator.BestIndexTo | src/strategy/evaluator.js:96-105 | the chosen index is in range |
| Evaluator.BestIndexCharacterized | src/strategy/evaluator.js:96-105 | none iff no result trades; otherwise a trading result with maximal edge, strictly above every earlier trading result (ties to the first) |
| Evaluator.RecommendationCharacterized | src/strategy/evaluator.js:90-106 | the recommendation is null iff nothing trades, else a trading result of maximal edge, the first such |
| Evaluator.CompareModels | src/strategy/evaluator.js:160-185 | null iff there is no evaluation or no outcome; otherwise one comparison per result |
| Evaluator.ComparisonVerdicts | src/strategy/evaluator.js:165-183 | correct iff the prediction names the outcome's side, or is null against a null outcome (`===`); never against an absent direction, where every untraded result is correctly avoided; the three verdicts are exclusive and follow shouldTrade |
| Evaluator.SummaryOf | src/strategy/evaluator.js:120-153 | "not evaluated" before any evaluation; undefined only when the stored quote is missing |
| Evaluator.SummaryAgrees | src/strategy/evaluator.js:120-153 | the summary lists every model's name and trade flag in order and names the recommended model |
| Evaluator.Without | src/strategy/evaluator.js:203-207 | the filtered list keeps no model of that name and is no longer |
| Evaluator.WithoutShrinks | src/strategy/evaluator.js:203-207 | the list shrinks iff some model had that name |
| Evaluator.WithoutKeeps | src/strategy/evaluator.js:203-207 | with no model of that name, the list is unchanged |
| Evaluator.FindModel | src/strategy/evaluator.js:214-216 | the first model with that name, or none if there is none |
| Evaluator.StrategyEvaluator.constructor | src/strategy/evaluator.js:19-32 | the given models, else TA then Baseline; nothing cached |
| Evaluator.StrategyEvaluator.Evaluate | src/strategy/evaluator.js:42-82 | caches and returns one result per model in order, with quote, remaining minutes, candle count and time |
| Evaluator.StrategyEvaluator.GetAllResults | src/strategy/evaluator.js:112-114 | the cached results, or [] before any evaluation |
| Evaluator.StrategyEvaluator.AddModel | src/strategy/evaluator.js:191-196 | appends exactly a model that has `evaluate`; otherwise changes nothing |
| Evaluator.StrategyEvaluator.RemoveModel | src/strategy/evaluator.js:203-207 | drops every model with the name and returns true iff one existed |
| Evaluator.StrategyEvaluator.GetModel | src/strategy/evaluator.js:214-216 | null iff no model has the name, else the first model with that name |
| Evaluator.CreateEvaluator | src/strategy/evaluator.js:233-248 | registers TA, then Baseline, then Random only if requested |
| Evaluator.OnlyFirstCanTrade | src/strategy/evaluator.js:90-106 | when only the first model can trade, it is the recommendation iff it trades |
| Evaluator.StandardSetRecommendsTA | src/strategy/evaluator.js:233-248 | with a non-negative baseline threshold, the standard set recommends exactly the TA result when it trades |
| DecisionEngine.StakeFacts | src/paper/decision-engine.js:56-77 | rejected sizing has stake 0; accepted sizing needs edge ≥ minEdge and price ∈ (0,1), and stakes min(bankroll·edge·p/(1−p), maxStake) > 0 |
| DecisionEngine.KellyForm | src/paper/decision-engine.js:65-69 | `edge/(1/p − 1)` equals `edge·p/(1 − p)` |
| DecisionEngine.DefaultStakeAccepts | src/paper/decision-engine.js:3-7 | with the defaults, sizing accepts iff edge ≥ 0.05 and 0 < p < 1 |
| DecisionEngine.TradingDecisionFacts | src/paper/decision-engine.js:15-103 | no trade → stake 0; a trade needs valid inputs, a model and an entry price in (0,1), with 0 < stake ≤ maxStake |
| DecisionEngine.DecisionEngine.constructor | src/paper/decision-engine.js:10-13 | keeps the configuration and creates the standard evaluator |
| DecisionEngine.DecisionEngine.Decide | src/paper/decision-engine.js:15-54 | returns the specified decision; the evaluator caches a new evaluation exactly when the inputs are valid |
| DecisionEngine.DefaultStakeOnTaEdge | src/paper/decision-engine.js:56-77 | a TA-range edge is accepted by the defaults iff the price is positive, with a stake in (0, 100] |
| DecisionEngine.DefaultRecommendation | src/strategy/evaluator.js:90-106 | with the standard models, the recommendation is the TA result when it trades, else none |
| DecisionEngine.DefaultEngineTradesWithTA | src/paper/decision-engine.js:15-54 | the default engine trades iff the TA model trades at a positive price, copying its direction and edge with a stake in (0, 100] |
| TradeRecorder.PaperTradesTable.constructor | src/paper/trade-recorder.js:2-43 | an empty table whose first id is 1 |
| TradeRecorder.PaperTradesTable.Insert | src/paper/trade-recorder.js:7-29 | appends one row with a fresh id, leaving earlier rows as they were |
| TradeRecorder.TradeFor | src/paper/trade-recorder.js:45-74 | the row copies the decision's fields; shares·entryPrice = stake when the price is positive, else shares are 0 |
| TradeRecorder.Pending | src/paper/trade-recorder.js:31-35 | the pending rows are a subset of the table |
| TradeRecorder.PendingExactly | src/paper/trade-recorder.js:76-78 | a row is pending iff it is in the table with no outcome |
| TradeRecorder.RecordedIsPending | src/paper/trade-recorder.js:63-73 | a newly recorded row is pending, at the end |
| TradeRecorder.OfModel | src/paper/trade-recorder.js:37-42 | the model's rows are a subset of the table |
| TradeRecorder.Reverse | src/paper/trade-recorder.js:37-42 | reversal maps index i to index n−1−i |
| TradeRecorder.OfModelExactly | src/paper/trade-recorder.js:80-82 | a row is the model's iff it is in the table with that model name |
| TradeRecorder.OfModelInOrder | src/paper/trade-recorder.js:37-42 | filtering keeps rows in creation order |
| TradeRecorder.ByModelFacts | src/paper/trade-recorder.js:80-82 | `getTradesByModel` returns exactly that model's rows, newest first |
| TradeRecorder.TradeRecorder.constructor | src/paper/trade-recorder.js:2-5 | the recorder writes to the given table |
| TradeRecorder.TradeRecorder.RecordTrade | src/paper/trade-recorder.js:45-74 | a falsy market id or a missing decision records nothing; otherwise exactly one row for the decision is appended |
| TradeRecorder.NewTradeRecorder | src/paper/trade-recorder.js:2-5 | without a database there is no recorder |
| ResultChecker.WinPnl | src/paper/result-checker.js:24-27 | the win P&L is stake·(1/entry − 1), and non-finite at entry 0 |
| ResultChecker.SettlementPaysShares | src/paper/result-checker.js:22-33 | win iff the direction matches; a win pays 1 per share, a loss pays 0 and loses the stake; stake + pnl = shares·exit |
| ResultChecker.WinPayout | src/paper/result-checker.js:24-27 | a win returns exactly the shares bought; the P&L is positive for a positive stake |
| ResultChecker.ZeroEntryWinIsNotFinite | src/paper/result-checker.js:24-27 | a winning trade with entry price 0 has a non-finite P&L (+∞ for a positive stake) |
| ResultChecker.Apply | src/paper/result-checker.js:7-14 | only rows with the id get outcome, pnl, exit price and resolution time; all others are untouched |
| ResultChecker.Matching | src/paper/result-checker.js:35-41 | the change count is at most the number of rows |
| ResultChecker.MatchingAtMostOne | src/paper/result-checker.js:35-41 | with unique ids, at most one row changes, and one does iff the id exists |
| ResultChecker.ApplyKeepsIds | src/paper/result-checker.js:7-14 | settling changes no id |
| ResultChecker.ResettleOverwrites | src/paper/result-checker.js:17-41 | re-settling rewrites the same outcome; only the resolution time changes |
| ResultChecker.ResultChecker.constructor | src/paper/result-checker.js:2-5 | the checker updates the given table |
| ResultChecker.ResultChecker.CheckAndUpdate | src/paper/result-checker.js:17-42 | a missing trade or empty outcome changes nothing; otherwise settles the row with the trade's id and reports at most one change |
| ResultChecker.NewResultChecker | src/paper/result-checker.js:2-5 | without a database there is no checker |
| RateLimiter.RefilledBounds | src/shared/rate-limiter.js:15-25 | a refill keeps tokens in [tokens, maxTokens], adds at most elapsed·rate/60000, and is a no-op for elapsed ≤ 0 |
| RateLimiter.RefillSplits | src/shared/rate-limiter.js:15-25 | refilling over two intervals equals refilling over their sum |
| RateLimiter.WaitSuffices | src/shared/rate-limiter.js:36-44 | the wait is ≥ 1 ms and refills at least one token when maxTokens ≥ 1 |
| RateLimiter.RateLimiter.constructor | src/shared/rate-limiter.js:2-13 | the bucket starts full |
| RateLimiter.RateLimiter.Refill | src/shared/rate-limiter.js:15-25 | tokens become the refilled amount; `lastRefill` moves to now only when tokens were added; 0 ≤ tokens ≤ maxTokens is kept |
| RateLimiter.RateLimiter.TryAcquire | src/shared/rate-limiter.js:27-34 | grants iff at least one token after refill, removing exactly one; the invariant is kept |
| RateLimiter.NewRateLimiter | src/shared/rate-limiter.js:2-13 | a limiter exists iff both parameters are given and positive |
| RateLimiter.FractionalBucketNeverGrants | src/shared/rate-limiter.js:2-34 | with maxTokens < 1 the bucket never reaches one token |
| RateLimiter.NewUsableRateLimiter | src/shared/rate-limiter.js:2-13 | the corrected factory accepts exactly maxTokens ≥ 1 and a positive rate |
| MarketsConfig.CountListed | src/shared/markets-config.js:337-339 | a group counts at most its markets |
| MarketsConfig.KeyMapMeaning | src/shared/markets-config.js:330-348 | a category/timeframe key is present iff some group has it, with that key's listed count |
| MarketsConfig.GetMarketsSummary | src/shared/markets-config.js:330-348 | the loop computes the total and both per-key count maps |
| MarketsConfig.RemoveKey | src/shared/markets-config.js:330-348 | removing a key keeps the other entries |
| MarketsConfig.SumValuesRemove | src/shared/markets-config.js:339-344 | a map's value sum is one entry plus the sum of the rest |
| MarketsConfig.SumValuesAdd | src/shared/markets-config.js:339-344 | adding x to one key adds x to the value sum |
| MarketsConfig.SummaryBalances | src/shared/markets-config.js:330-348 | the total equals the sum of byCategory counts and of byTimeframe counts |
| MarketsConfig.SumValuesEmpty | src/shared/markets-config.js:331-335 | an empty count map sums to 0 |
| MarketsConfig.SummaryStep | src/shared/markets-config.js:337-344 | each group adds its listed count to every per-key sum |
| MarketsConfig.GroupCounts | src/shared/markets-config.js:7-282 | the listed-market count of every configured group |
| MarketsConfig.MixedGroupCount | src/shared/markets-config.js:7-282 | a group whose first n markets are listed counts n |
| MarketsConfig.ConfigTotal | src/shared/markets-config.js:7-282 | the configuration lists 34 markets with a series id |
| MarketsConfig.TotalFromCounts | src/shared/markets-config.js:337-340 | the total is the sum of per-group counts |
| MarketsConfig.AllListed | src/shared/markets-config.js:337-339 | a group with every series id set counts all its markets |
| MarketsConfig.NoneListed | src/shared/markets-config.js:337-339 | a group without series ids counts 0 |
| MarketsConfig.CountListedAppend | src/shared/markets-config.js:337-339 | counting distributes over concatenation |
| MarketsConfig.SourceTagged | src/shared/markets-config.js:355-361 | each market gets its group's category, timeframe, poll and candle intervals |
| MarketsConfig.GetMarketsForDataSource | src/shared/markets-config.js:350-366 | the loop yields the specified tagged markets in config order |
| MarketsConfig.ForSourceExactly | src/shared/markets-config.js:350-366 | a market is returned iff it belongs to a group with that data source |
| MarketsConfig.ForSourceSize | src/shared/markets-config.js:350-366 | the result has one entry per market of the matching groups |
| MarketsConfig.BinanceMarketCount | src/shared/markets-config.js:7-282 | the configuration has 12 Binance markets |
| MarketsConfig.BinanceMarketsAreCrypto | src/shared/markets-config.js:7-282 | every Binance market is crypto with a candle interval |
| MarketsConfig.NoPolymarketMarkets | src/shared/markets-config.js:350-366 | a source no group uses gives an empty list |
| MarketsConfig.CategoryTagged | src/shared/markets-config.js:372-374 | each market gets only its group's timeframe |
| MarketsConfig.GetMarketsByCategory | src/shared/markets-config.js:368-378 | the loop yields the specified markets in order |
| MarketsConfig.InCategoryExactly | src/shared/markets-config.js:368-378 | a market is returned iff its group has that category |
| Binance.SymbolToAsset | src/collectors/binance.service.js:11-15 | strips a trailing USDT (checked first), else a trailing USD, else keeps the symbol |
| Binance.SymbolToAssetRoundTrip | src/collectors/binance.service.js:11-15 | the asset of `asset+"USDT"` and of `asset+"USD"` is `asset` |
| Binance.BinanceSymbols | src/collectors/binance.service.js:97-103 | the loop yields the specified distinct symbols |
| Binance.UniqueSymbolsFacts | src/collectors/binance.service.js:97-103 | the symbols are distinct and are exactly the non-empty symbols of the markets |
| CandleRows.ArrayReadings | src/collectors/binance.service.js:144-149 | `Number` of an array cell: [] and [null] read 0, [x] reads as x for a number or text, [true] and any two items read NaN |
| Binance.ConvertKlines | src/collectors/binance.service.js:137-172 | a non-array payload stores nothing; otherwise the loop stores the specified rows |
| Binance.KlineRowsExactly | src/collectors/binance.service.js:141-172 | a row is stored iff a kline of ≥ 6 cells has a finite time and OHLC; it is a binance/1m row of the asset with those readings |
| Yahoo.MarketsToFetch | src/collectors/yahoo.service.js:91-95 | the fetched markets are a subsequence of the configured ones |
| Yahoo.MarketsToFetchExactly | src/collectors/yahoo.service.js:91-95 | a market is fetched iff it has a non-empty symbol |
| Yahoo.ConvertChart | src/collectors/yahoo.service.js:129-167 | a missing result stores nothing; otherwise the loop stores the specified rows |
| Yahoo.ChartRowsExactly | src/collectors/yahoo.service.js:138-167 | at most one row per timestamp; a row is stored iff its index reads finite; it is a yahoo/1d row at seconds·1000 |
| Yahoo.NullPricesStoredAsZero | src/collectors/yahoo.service.js:140-160 | as written, a day of null prices is stored with prices 0 |
| Yahoo.ReadCell | src/collectors/yahoo.service.js:140-148 | the corrected reading: a null cell is missing |
| Yahoo.StrictRowsSkipNulls | src/collectors/yahoo.service.js:138-167 | corrected rows never take a price from a null cell, and equal the written rows on null-free payloads |
| PaperTrader.BuildCandleIntervalMap | src/paper/paper-trader.service.js:13-23 | the loop yields the specified name→interval map |
| PaperTrader.AddGroupMeaning | src/paper/paper-trader.service.js:16-20 | adding a group maps each of its names to its interval and keeps other entries |
| PaperTrader.IntervalMapMeaning | src/paper/paper-trader.service.js:13-23 | a name is mapped iff some group has it, to the interval of the last such group |
| PaperTrader.BeforeUnderscore | src/paper/paper-trader.service.js:28 | the text before the first '_' is a prefix without '_' |
| PaperTrader.NormalizeFacts | src/paper/paper-trader.service.js:25-31 | null/empty → null; an interval suffix leaves the prefix before '_'; other names are unchanged; idempotent |
| PaperTrader.NoUnderscoreNoSuffix | src/paper/paper-trader.service.js:27 | a name without '_' has no interval suffix |
| PaperTrader.NormalizeStripsIntervalSuffix | src/paper/paper-trader.service.js:25-31 | BTC_15M and BTC_DAILY normalise to BTC |
| PaperTrader.NormalizeKeepsPlainNames | src/paper/paper-trader.service.js:25-31 | CRUDE_OIL and SPX are kept |
| PaperTrader.GetCandles | src/paper/paper-trader.service.js:219-223 | null without an asset name, else the rows reversed |
| PaperTrader.GetCandlesAscending | src/paper/paper-trader.service.js:219-223 | newest-first rows come back oldest-first |
| PaperTrader.GetMarketPrices | src/paper/paper-trader.service.js:225-249 | snapshot prices first, then initial prices; a single missing side is 1 − the other; null iff neither side is finite |
| PaperTrader.RemainingMinutes | src/paper/paper-trader.service.js:251-260 | max(0, ceil(seconds/60)) from the snapshot, else from end time − now in ms; null without an end time |
| PaperTrader.MinutesUp | src/paper/paper-trader.service.js:253 | max(0, ceil(amount/unit)) is the least non-negative count of units covering the amount |
| PaperTrader.UnitsCover | src/paper/paper-trader.service.js:253 | the ceiling of amount/unit covers the amount and one unit less does not |
| PaperTrader.ResolvedFacts | src/paper/paper-trader.service.js:262-273 | a settled trade is never re-settled; a well-priced trade settles with stake + pnl = shares·exit |
| PaperTrader.PaperTraderService.constructor | src/paper/paper-trader.service.js:34-51 | a default engine, and a recorder and checker on the same table |
| PaperTrader.MarketDecisionFacts | src/paper/paper-trader.service.js:140-175 | a market is decided on only with a non-empty interval; a decision to trade has an entry price in (0,1), 0 < stake ≤ maxStake, and its recorded row is well priced |
| PaperTrader.PollLedgerHalted | src/paper/paper-trader.service.js:197 | once `recordTrade` throws, the later markets change nothing |
| PaperTrader.PollLedgerRecords | src/paper/paper-trader.service.js:183-197 | earlier rows are kept; each added row is `recordTrade`'s row for a market whose decision trades and which had no trade, under consecutive ids; the pass ends early only on market id 0 |
| PaperTrader.PollLedgerOneTrade | src/paper/paper-trader.service.js:187-197 | the pass keeps at most one trade per market |
| PaperTrader.PollLedgerCovers | src/paper/paper-trader.service.js:183-197 | a pass run to the end leaves a trade on every market whose decision is to trade |
| PaperTrader.PollLedgerFacts | src/paper/paper-trader.service.js:135-207 | the pass's ledger keeps one trade per market and the old rows; added rows are pending, well priced, on polled markets without a prior trade; a completed pass covers every trading market |
| PaperTrader.PaperTraderService.DecideMarket | src/paper/paper-trader.service.js:140-175 | returns `MarketDecision`: skips markets without an interval, candles or prices; a trading decision has a price in (0,1) and 0 < stake ≤ maxStake |
| PaperTrader.PaperTraderService.PollMarkets | src/paper/paper-trader.service.js:135-207 | the table ends as `PollLedger` says: earlier rows untouched; a row `TradeFor(market, decision)` added exactly for each market whose decision trades and which has no trade, in market order; a completed pass covers every trading market; at most one trade per market |
| PaperTrader.PaperTraderService.UpdateResolvedTrades | src/paper/paper-trader.service.js:262-273 | every row is settled iff it is pending and its market has an outcome |
| PaperTrader.PaperTraderService.Poll | src/paper/paper-trader.service.js:130-217 | the table ends as the pass's ledger, each row settled by `Resolved` when the pass completes; new rows are well priced on markets without a prior trade; a completed poll covers every trading market; one trade per market is kept |

## Left out

- Network fetching, timers, the `polling` and `stopping` flags, `run`, `cleanup`, `_updateStatus` and logging are left out. They are I/O and concurrency.
- `RateLimiter.acquire`'s sleep loop is left out. Only its wait formula is modelled (`RateLimiter.WaitSuffices`).
- SQLite and its SQL text are replaced by in-memory tables and query results passed in.
  - `tracked_markets` ids are taken as unique, since they are the table's key. The settlement join takes the first market with the trade's id.
  - The join returns trades in table order.
- `PaperTrader.PaperTraderService.PollMarkets`: an exception thrown by `recordTrade` (market id 0) ends the pass. The model reports this as `completed == false` and records nothing further.
- Floating point is modelled with `real`: NaN, ±Infinity and the exact float results of `Math.round` are not modelled. `Ext` covers only the divisions that can reach a comparison.
- `Number()` parsing of strings is left out. A text cell carries the number `Number` reads from it, if any. An array cell reads through its joined text, and a plain object reads NaN (custom `toString` or `valueOf` methods are not modelled).
- The `reason` texts, the `toFixed` formatting in `getSummary` and the indicators JSON are left out. They are replaced by structured values; the indicators are never serialised, so the serialisation failure path is not modelled.
- `Indicators.CalculateMACD` keeps the fast-EMA index exactly as written. That index is not aligned in time with the slow EMA.
- Indicator periods (RSI, EMA, SMA, ATR, HA lookback, MACD lengths) must be at least 1. A period of 0 makes the source divide by zero, and no caller passes one.
- The ATR value computed inside `detectRegime` is unused by the source and is not modelled.
- `BaseModel.ValidateCandles`: candles are records whose close is always a number, so the check "first close is numeric" always holds.
- BaseModel's constructor guards (abstract class, missing name) are left out. The models are a closed datatype with fixed names, so neither case can occur.
- Models added through `addModel` are functions from inputs to a result. An exception from one is the `ModelError` result.
- Random draws (`Math.random`) and the clock (`Date.now`) are parameters.
- `PaperTrader.PaperTraderService.Poll` takes the active markets and the tracked markets as two independent inputs. That the active list is the tracked markets whose outcome is null, ordered by end time, is not modelled.
- `TAModel.RsiSignalBounds` states ±0.15 for the neutral zone, which holds for every valid configuration. It does not state the tighter ±0.06 that holds for the default thresholds 30/70.
- `Evaluator.SummaryOf` does not model the percentage strings of the summary.

## Findings

| source | as written | input that shows it | evidently intended | confidence | as-written member | corrected member |
|---|---|---|---|---|---|---|
| src/shared/rate-limiter.js:2-13 | the constructor accepts any maxTokens > 0, but a token is granted only when tokens ≥ 1 and refills are capped at maxTokens | `new RateLimiter({ maxTokens: 0.5, refillRate: 60 })`: `tryAcquire` is false forever and `acquire` never returns | reject maxTokens < 1 (or cap refills at max(1, maxTokens)) | not executed; high | RateLimiter.FractionalBucketNeverGrants | RateLimiter.NewUsableRateLimiter |
| src/collectors/yahoo.service.js:140-148 | every cell goes through `Number(...)`, so a null price is 0 and passes the finiteness check | a chart whose quote columns are `[null]` at a timestamp: a candle with open = high = low = close = 0 is stored | skip days whose prices are null, as the finiteness check intends | not executed; medium | Yahoo.NullPricesStoredAsZero | Yahoo.StrictRowsSkipNulls |
