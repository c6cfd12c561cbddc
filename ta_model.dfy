/**
 * The technical-analysis model (src/strategy/models/ta-model.js): indicators
 * are turned into five signals in [-1, 1], weighted into a composite score,
 * and the composite is mapped to a direction and a conservative probability
 * in [0.5, 0.9] that is compared against the market price of that side.
 */
module TAModel {
  import opened Numeric
  import opened Indicators
  import opened BaseModel

  const Name: string := "TA-Model"

  /** The model's configuration after the defaults are merged with the caller's overrides. */
  datatype TAConfig = TAConfig(edgeThreshold: real, rsiPeriod: nat, rsiOverbought: real,
                               rsiOversold: real, minCandles: int)
  {
    /**
     * Configurations the signal formulas can evaluate: a positive RSI period
     * and thresholds that do not divide by zero.
     */
    predicate Valid()
    {
      rsiPeriod >= 1 && 0.0 < rsiOversold && rsiOverbought < 100.0
    }
  }

  const DefaultConfig: TAConfig := TAConfig(0.05, 14, 70.0, 30.0, 30)

  /** What `calculateIndicators` returns on success. */
  datatype TAIndicators = TAIndicators(rsi: Option<real>, macd: Option<Macd>, vwap: Option<real>,
                                       haCandles: seq<HaCandle>, haTrend: HaTrend, regime: Regime,
                                       currentPrice: real)

  function CalculateIndicators(config: TAConfig, candles: seq<Candle>): (r: TAIndicators)
    requires config.Valid() && |candles| >= 1
    ensures r.currentPrice == candles[|candles| - 1].close
    ensures r.rsi.Some? ==> 0.0 <= r.rsi.value <= 100.0
    ensures 0.0 <= r.haTrend.strength <= 1.0
    ensures |r.haCandles| == |candles|
  {
    RsiRange(Some(candles), config.rsiPeriod);
    var ha := HeikenAshi(candles);
    HaTrendFacts(ha, 3);
    TAIndicators(Rsi(Some(candles), config.rsiPeriod), MacdOf(Some(candles), 12, 26, 9), Vwap(Some(candles)),
                 ha, HaTrendOf(ha, 3), RegimeOf(Some(candles)), candles[|candles| - 1].close)
  }

  datatype Signals = Signals(rsi: real, macd: real, vwap: real, heikenAshi: real, regime: real)

  /** RSI signal: oversold is bullish, overbought bearish, the neutral zone a slight bias. */
  function RsiSignalOf(config: TAConfig, rsi: Option<real>): real
    requires config.Valid()
  {
    match rsi
    case None => 0.0
    case Some(v) =>
      if v <= config.rsiOversold then (config.rsiOversold - v) / config.rsiOversold
      else if v >= config.rsiOverbought then -(v - config.rsiOverbought) / (100.0 - config.rsiOverbought)
      else (v - 50.0) / 100.0 * 0.3
  }

  /**
   * For an RSI in [0, 100] the signal lies in [-1, 1]: non-negative at or
   * below the oversold level, non-positive at or above the overbought level,
   * and within 0.15 of zero in the neutral zone between them.
   */
  lemma RsiSignalBounds(config: TAConfig, v: real)
    requires config.Valid() && 0.0 <= v <= 100.0
    ensures var r := RsiSignalOf(config, Some(v));
            && -1.0 <= r <= 1.0
            && (v <= config.rsiOversold ==> r >= 0.0)
            && (config.rsiOversold < v && v >= config.rsiOverbought ==> r <= 0.0)
            && (config.rsiOversold < v < config.rsiOverbought ==> -0.15 <= r <= 0.15)
  {
    if v <= config.rsiOversold {
      FractionBounds(config.rsiOversold - v, config.rsiOversold);
    } else if v >= config.rsiOverbought {
      FractionBounds(v - config.rsiOverbought, 100.0 - config.rsiOverbought);
      NegateQuotient(v - config.rsiOverbought, 100.0 - config.rsiOverbought);
    }
  }

  /** MACD signal: histogram relative to |line| (or 1), capped at 0.5, plus 0.3 for the line/signal cross. */
  function MacdSignalOf(macd: Option<Macd>): (r: real)
    ensures -0.8 <= r <= 0.8
    ensures macd.Some? && macd.value.histogram > 0.0 && macd.value.line > macd.value.signal ==> r > 0.0
    ensures macd.Some? && macd.value.histogram <= 0.0 && macd.value.line < macd.value.signal ==> r < 0.0
  {
    match macd
    case None => 0.0
    case Some(m) =>
      var scale := Abs(if m.line == 0.0 then 1.0 else m.line);
      QuotientSign(m.histogram, scale);
      var ratio := m.histogram / scale * 0.5;
      var base := if m.histogram > 0.0 then Min(0.5, ratio) else Max(-0.5, ratio);
      var crossed := if m.line > m.signal then base + 0.3 else if m.line < m.signal then base - 0.3 else base;
      Clamp(crossed, -1.0, 1.0)
  }

  /** VWAP signal: ten times the relative distance of price above VWAP, clamped; 0 when either is 0 or VWAP is null. */
  function VwapSignalOf(vwap: Option<real>, currentPrice: real): (r: real)
    ensures -1.0 <= r <= 1.0
    ensures vwap.Some? && vwap.value > 0.0 && currentPrice > vwap.value ==> r > 0.0
    ensures vwap.Some? && vwap.value > 0.0 && 0.0 < currentPrice < vwap.value ==> r < 0.0
  {
    if vwap.Some? && vwap.value != 0.0 && currentPrice != 0.0 then
      var diff := (currentPrice - vwap.value) / vwap.value;
      QuotientSign(currentPrice - vwap.value, Abs(vwap.value));
      Clamp(diff * 10.0, -1.0, 1.0)
    else 0.0
  }

  /** Heiken-Ashi signal: the trend strength, signed by its direction. */
  function HaSignalOf(trend: HaTrend): (r: real)
    ensures 0.0 <= trend.strength <= 1.0 ==> -1.0 <= r <= 1.0
    ensures trend.direction == HaNeutral ==> r == 0.0
  {
    match trend.direction
    case HaUp => trend.strength
    case HaDown => -trend.strength
    case HaNeutral => 0.0
  }

  function RegimeSignalOf(regime: Regime): (r: real)
    ensures -0.7 <= r <= 0.7
    ensures r > 0.0 <==> regime == TrendUp
    ensures r < 0.0 <==> regime == TrendDown
  {
    match regime
    case TrendUp => 0.7
    case TrendDown => -0.7
    case Range => 0.0
    case Chop => 0.0
  }

  /** `calculateSignals(indicators, candles)` */
  function CalculateSignals(config: TAConfig, ind: TAIndicators): Signals
    requires config.Valid()
  {
    Signals(RsiSignalOf(config, ind.rsi), MacdSignalOf(ind.macd), VwapSignalOf(ind.vwap, ind.currentPrice),
            HaSignalOf(ind.haTrend), RegimeSignalOf(ind.regime))
  }

  predicate SignalsBounded(s: Signals)
  {
    -1.0 <= s.rsi <= 1.0 && -1.0 <= s.macd <= 1.0 && -1.0 <= s.vwap <= 1.0
    && -1.0 <= s.heikenAshi <= 1.0 && -1.0 <= s.regime <= 1.0
  }

  /** Every signal computed from real indicators lies in [-1, 1]. */
  lemma SignalsInRange(config: TAConfig, candles: seq<Candle>)
    requires config.Valid() && |candles| >= 1
    ensures SignalsBounded(CalculateSignals(config, CalculateIndicators(config, candles)))
  {
    var ind := CalculateIndicators(config, candles);
    if ind.rsi.Some? {
      RsiSignalBounds(config, ind.rsi.value);
    }
  }

  /** The weights of the composite score, in the order the source visits them. */
  const Weights: seq<(SignalName, real)> :=
    [(RsiSignal, 0.20), (MacdSignal, 0.25), (VwapSignal, 0.15), (HeikenAshiSignal, 0.25), (RegimeSignal, 0.15)]

  function SignalOf(s: Signals, name: SignalName): real
  {
    match name
    case RsiSignal => s.rsi
    case MacdSignal => s.macd
    case VwapSignal => s.vwap
    case HeikenAshiSignal => s.heikenAshi
    case RegimeSignal => s.regime
  }

  /** Weighted sum over the first `k` weights. */
  function CompositeTo(s: Signals, k: nat): real
    requires k <= |Weights|
  {
    if k == 0 then 0.0 else CompositeTo(s, k - 1) + SignalOf(s, Weights[k - 1].0) * Weights[k - 1].1
  }

  /** Names, among the first `k` weights, whose signal is at least 0.3 in magnitude. */
  function StrongTo(s: Signals, k: nat): seq<SignalName>
    requires k <= |Weights|
  {
    if k == 0 then []
    else StrongTo(s, k - 1) + (if Abs(SignalOf(s, Weights[k - 1].0)) >= 0.3 then [Weights[k - 1].0] else [])
  }

  /** The weights sum to 1, so the composite of bounded signals is bounded. */
  lemma CompositeInRange(s: Signals)
    requires SignalsBounded(s)
    ensures -1.0 <= CompositeTo(s, |Weights|) <= 1.0
  {
    assert CompositeTo(s, 1) == s.rsi * 0.20;
    assert CompositeTo(s, 2) == CompositeTo(s, 1) + s.macd * 0.25;
    assert CompositeTo(s, 3) == CompositeTo(s, 2) + s.vwap * 0.15;
    assert CompositeTo(s, 4) == CompositeTo(s, 3) + s.heikenAshi * 0.25;
    assert CompositeTo(s, 5) == CompositeTo(s, 4) + s.regime * 0.15;
  }

  /** The outcome of `calculateModelProbability`. */
  datatype Verdict = Verdict(direction: Option<Direction>, probability: real, strong: seq<SignalName>)

  function ModelProbability(s: Signals, regime: Regime): Verdict
  {
    var composite := CompositeTo(s, |Weights|);
    var strong := StrongTo(s, |Weights|);
    if Abs(composite) < 0.15 then Verdict(None, 0.5, strong)
    else
      var raw := 0.5 + Abs(composite) * 0.4;
      var p := if regime == Chop then 0.5 + (raw - 0.5) * 0.5 else raw;
      Verdict(Some(if composite > 0.0 then Up else Down), Max(0.5, Min(0.9, p)), strong)
  }

  method CalculateModelProbability(s: Signals, regime: Regime) returns (v: Verdict)
    ensures v == ModelProbability(s, regime)
  {
    var reasons: seq<SignalName> := [];
    var compositeScore := 0.0;
    var i := 0;
    while i < |Weights|
      invariant 0 <= i <= |Weights|
      invariant compositeScore == CompositeTo(s, i) && reasons == StrongTo(s, i)
    {
      var (indicator, weight) := Weights[i];
      var signal := SignalOf(s, indicator);
      compositeScore := compositeScore + signal * weight;
      if Abs(signal) >= 0.3 {
        reasons := reasons + [indicator];
      }
      i := i + 1;
    }
    if Abs(compositeScore) < 0.15 {
      return Verdict(None, 0.5, reasons);
    }
    var direction := if compositeScore > 0.0 then Up else Down;
    var rawProbability := 0.5 + Abs(compositeScore) * 0.4;
    var modelProbability := rawProbability;
    if regime == Chop {
      modelProbability := 0.5 + (rawProbability - 0.5) * 0.5;
    }
    modelProbability := Max(0.5, Min(0.9, modelProbability));
    v := Verdict(Some(direction), modelProbability, reasons);
  }

  /**
   * A direction is chosen exactly when the composite reaches 0.15 in
   * magnitude, Up exactly when it is positive; the probability is 0.5
   * without a direction and otherwise lies in [0.53, 0.9], at most 0.7 in a
   * choppy regime. The strong-signal list names exactly the signals of
   * magnitude at least 0.3, in weight order.
   */
  lemma ModelProbabilityFacts(s: Signals, regime: Regime)
    requires SignalsBounded(s)
    ensures var v := ModelProbability(s, regime);
            var c := CompositeTo(s, |Weights|);
            && (v.direction.None? <==> Abs(c) < 0.15)
            && (v.direction == Some(Up) <==> c >= 0.15)
            && (v.direction == Some(Down) <==> c <= -0.15)
            && (v.direction.None? ==> v.probability == 0.5)
            && (v.direction.Some? ==> 0.53 <= v.probability <= 0.9)
            && (v.direction.Some? && regime == Chop ==> v.probability <= 0.7)
            && (forall n :: n in v.strong <==> Abs(SignalOf(s, n)) >= 0.3)
  {
    CompositeInRange(s);
    StrongExactly(s, |Weights|);
    forall n ensures n in StrongTo(s, |Weights|) <==> Abs(SignalOf(s, n)) >= 0.3 {
      EveryNameWeighted(n);
    }
  }

  lemma {:induction false} StrongExactly(s: Signals, k: nat)
    requires k <= |Weights|
    ensures forall n :: n in StrongTo(s, k) <==> Abs(SignalOf(s, n)) >= 0.3 && exists j :: 0 <= j < k && Weights[j].0 == n
  {
    if k > 0 {
      StrongExactly(s, k - 1);
    }
  }

  /** Every signal has a weight. */
  lemma EveryNameWeighted(n: SignalName)
    ensures exists j :: 0 <= j < |Weights| && Weights[j].0 == n
  {
    match n
    case RsiSignal => assert Weights[0].0 == n;
    case MacdSignal => assert Weights[1].0 == n;
    case VwapSignal => assert Weights[2].0 == n;
    case HeikenAshiSignal => assert Weights[3].0 == n;
    case RegimeSignal => assert Weights[4].0 == n;
  }

  /** `evaluate(candles, marketPrices, remainingMinutes)` */
  function Evaluate(config: TAConfig, candles: Option<seq<Candle>>, quote: Option<Quote>, now: int): EvalResult
    requires config.Valid()
  {
    if !ValidateCandles(candles, config.minCandles) then
      NoTrade(Name, InsufficientCandles(config.minCandles, CandleCount(candles)), now)
    else if !ValidateMarketPrices(quote) then
      NoTrade(Name, InvalidMarketPrices, now)
    else
      var indicators := CalculateIndicators(config, candles.value);
      Conclude(TaVerdict(config, candles.value), indicators.regime, quote, config.edgeThreshold, now)
  }

  /** The side and probability `evaluate` derives from the candles, before looking at the market. */
  function TaVerdict(config: TAConfig, candles: seq<Candle>): Verdict
    requires config.Valid() && |candles| > 0
  {
    var indicators := CalculateIndicators(config, candles);
    ModelProbability(CalculateSignals(config, indicators), indicators.regime)
  }

  /** The end of `evaluate` once the model has a verdict: no trade without a side, else the edge against the threshold. */
  function Conclude(verdict: Verdict, regime: Regime, quote: Option<Quote>, edgeThreshold: real, now: int): EvalResult
    requires ValidateMarketPrices(quote)
  {
    if verdict.direction.None? then
      NoTrade(Name, NoClearSignal(verdict.strong, regime), now)
    else
      var direction := verdict.direction.value;
      var edge := CalculateEdge(direction, verdict.probability, quote).value;
      var shouldTrade := ShouldMakeTrade(edge, edgeThreshold);
      CreateResult(Name, Some(direction), Some(verdict.probability), Some(edge), shouldTrade,
                   Some(TaEdge(direction, verdict.strong, regime, !shouldTrade)), now)
  }

  /** The result built for a chosen side: rounded confidence and edge, and the edge test before rounding. */
  lemma DirectionalResult(direction: Direction, p: real, price: real, threshold: real, reason: Reason, now: int)
    requires 0.53 <= p <= 0.9
    ensures var r := CreateResult(Name, Some(direction), Some(p), Some(p - price), ShouldMakeTrade(p - price, threshold),
                                  Some(reason), now);
            && 0.53 <= r.confidence <= 0.9
            && -0.001 <= r.edge - (r.confidence - price) <= 0.001
            && (r.shouldTrade ==> r.edge > threshold - 0.0005 && r.edge >= Round3(threshold))
  {
    RoundToWithin(p, 1000.0, 530, 900);
    if p - price > threshold {
      RoundToMonotone(threshold, p - price, 1000.0);
    }
  }

  /**
   * A TA result is named "TA-Model". Without enough candles or with invalid
   * prices it is a no-trade result saying so. When it picks a side, its
   * confidence lies in [0.53, 0.9] and its edge is that confidence minus the
   * market price of the side, up to rounding. It trades only with a side
   * and an edge strictly above the threshold: it trades exactly when the
   * verdict has a side and the unrounded edge exceeds the threshold (the
   * reported edge is rounded to 3 decimals). A result without a side never
   * trades and reports zero confidence and edge.
   */
  lemma EvaluateFacts(config: TAConfig, candles: Option<seq<Candle>>, quote: Option<Quote>, now: int)
    requires config.Valid()
    ensures var r := Evaluate(config, candles, quote, now);
            && r.model == Name && r.timestamp == now
            && (!ValidateCandles(candles, config.minCandles) ==>
                  r.reason == InsufficientCandles(config.minCandles, CandleCount(candles)) && !r.shouldTrade)
            && (ValidateCandles(candles, config.minCandles) && !ValidateMarketPrices(quote) ==>
                  r.reason == InvalidMarketPrices && !r.shouldTrade)
            && (r.direction.None? ==> !r.shouldTrade && r.confidence == 0.0 && r.edge == 0.0)
            && (r.direction.Some? ==>
                  && ValidateCandles(candles, config.minCandles) && ValidateMarketPrices(quote)
                  && 0.53 <= r.confidence <= 0.9
                  && -0.001 <= r.edge - (r.confidence - SidePrice(quote.value, r.direction.value).value) <= 0.001)
            && (r.shouldTrade ==> r.direction.Some? && r.edge > config.edgeThreshold - 0.0005
                                  && r.edge >= Round3(config.edgeThreshold))
            && (r.shouldTrade <==>
                  && ValidateCandles(candles, config.minCandles) && ValidateMarketPrices(quote)
                  && var v := TaVerdict(config, candles.value);
                     v.direction.Some? && v.probability - SidePrice(quote.value, v.direction.value).value > config.edgeThreshold)
  {
    if ValidateCandles(candles, config.minCandles) && ValidateMarketPrices(quote) {
      var indicators := CalculateIndicators(config, candles.value);
      var signals := CalculateSignals(config, indicators);
      SignalsInRange(config, candles.value);
      ModelProbabilityFacts(signals, indicators.regime);
      ConcludeFacts(TaVerdict(config, candles.value), indicators.regime, quote, config.edgeThreshold, now);
    }
  }

  /** The facts `EvaluateFacts` states about a result once the model has a verdict with a bounded probability. */
  lemma ConcludeFacts(verdict: Verdict, regime: Regime, quote: Option<Quote>, edgeThreshold: real, now: int)
    requires ValidateMarketPrices(quote)
    requires verdict.direction.Some? ==> 0.53 <= verdict.probability <= 0.9
    ensures var r := Conclude(verdict, regime, quote, edgeThreshold, now);
            && r.model == Name && r.timestamp == now
            && (r.direction.None? ==> !r.shouldTrade && r.confidence == 0.0 && r.edge == 0.0)
            && (r.direction.Some? ==>
                  && 0.53 <= r.confidence <= 0.9
                  && -0.001 <= r.edge - (r.confidence - SidePrice(quote.value, r.direction.value).value) <= 0.001)
            && (r.shouldTrade ==> r.direction.Some? && r.edge > edgeThreshold - 0.0005 && r.edge >= Round3(edgeThreshold))
            && (r.shouldTrade <==>
                  verdict.direction.Some? && verdict.probability - SidePrice(quote.value, verdict.direction.value).value > edgeThreshold)
  {
    if verdict.direction.Some? {
      var direction := verdict.direction.value;
      var price := SidePrice(quote.value, direction).value;
      var edge := CalculateEdge(direction, verdict.probability, quote).value;
      DirectionalResult(direction, verdict.probability, price, edgeThreshold,
                        TaEdge(direction, verdict.strong, regime, !(edge > edgeThreshold)), now);
    }
  }

  /** An edge exactly at the threshold does not trade: the test of `shouldMakeTrade` is strict. */
  lemma ConcludeAtThreshold(verdict: Verdict, regime: Regime, quote: Option<Quote>, now: int)
    requires ValidateMarketPrices(quote) && verdict.direction.Some?
    ensures var edge := verdict.probability - SidePrice(quote.value, verdict.direction.value).value;
            var r := Conclude(verdict, regime, quote, edge, now);
            r.direction == verdict.direction && !r.shouldTrade && r.reason.TaEdge? && r.reason.belowThreshold
  {
    ShouldMakeTradeStrict(0.0, 0.0, verdict.probability - SidePrice(quote.value, verdict.direction.value).value);
  }
}
