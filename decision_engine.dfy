/**
 * The paper-trading decision engine (src/paper/decision-engine.js): validates
 * the inputs, runs the standard evaluator, takes its recommendation and sizes
 * the stake with a Kelly-style formula capped at the maximum stake.
 */
module DecisionEngine {
  import opened Numeric
  import opened Indicators
  import opened BaseModel
  import opened TAModel
  import opened BaselineModel
  import opened Evaluator

  /** The engine's configuration after the defaults are merged with the caller's overrides. */
  datatype EngineConfig = EngineConfig(minEdge: real, maxStake: real, bankroll: real)

  const DefaultEngineConfig: EngineConfig := EngineConfig(0.05, 100.0, 1000.0)

  datatype Stake = Stake(stake: real, shouldTrade: bool)

  /** `_calculateStake(edge, entryPrice)` */
  function CalculateStake(config: EngineConfig, edge: real, entryPrice: real): Stake
  {
    if edge < config.minEdge then Stake(0.0, false)
    else if entryPrice <= 0.0 || entryPrice >= 1.0 then Stake(0.0, false)
    else
      var odds := 1.0 / entryPrice - 1.0;
      if odds <= 0.0 then Stake(0.0, false)
      else
        var stake := config.bankroll * edge / odds;
        if stake <= 0.0 then Stake(0.0, false)
        else Stake(Min(stake, config.maxStake), true)
  }

  /**
   * A stake is placed only for an edge of at least `minEdge` and an entry
   * price strictly inside (0, 1); it is then the Kelly fraction
   * bankroll * edge * p / (1 - p), capped at `maxStake`, and it is positive
   * when the cap is. Without a trade the stake is 0.
   */
  lemma StakeFacts(config: EngineConfig, edge: real, p: real)
    ensures var s := CalculateStake(config, edge, p);
            && (!s.shouldTrade ==> s.stake == 0.0)
            && (s.shouldTrade ==>
                  && edge >= config.minEdge && 0.0 < p < 1.0
                  && s.stake == Min(config.bankroll * edge * p / (1.0 - p), config.maxStake)
                  && s.stake <= config.maxStake
                  && (config.maxStake > 0.0 ==> s.stake > 0.0))
  {
    if edge >= config.minEdge && 0.0 < p < 1.0 {
      var odds := 1.0 / p - 1.0;
      assert odds == (1.0 - p) / p;
      assert odds > 0.0 by { QuotientSign(1.0 - p, p); }
      KellyForm(config.bankroll * edge, p);
    }
  }

  /** Dividing by the odds 1/p - 1 is multiplying by p / (1 - p). */
  lemma KellyForm(a: real, p: real)
    requires 0.0 < p < 1.0
    ensures a / (1.0 / p - 1.0) == a * p / (1.0 - p)
  {
    var odds := 1.0 / p - 1.0;
    assert odds * p == 1.0 - p;
    assert (a * p / (1.0 - p)) * odds == a;
  }

  /** With the default bankroll, every edge of at least 0.05 at an entry price inside (0, 1) gets a stake. */
  lemma DefaultStakeAccepts(edge: real, p: real)
    ensures CalculateStake(DefaultEngineConfig, edge, p).shouldTrade <==> edge >= 0.05 && 0.0 < p < 1.0
  {
    if edge >= 0.05 && 0.0 < p < 1.0 {
      var odds := 1.0 / p - 1.0;
      assert odds == (1.0 - p) / p;
      QuotientSign(1.0 - p, p);
      QuotientSign(1000.0 * edge, odds);
    }
  }

  datatype NoDecisionReason = MissingCandles | BadMarketPrices | NoModelRecommended

  /** `{ summary, results }` as the engine attaches it; the summary is None where building it throws. */
  datatype EvaluationView = EvaluationView(summary: Option<Summary>, results: seq<EvalResult>)

  /** The `indicators` field: a reason for no decision and/or the evaluation that was run. */
  datatype DecisionInfo = DecisionInfo(reason: Option<NoDecisionReason>, evaluation: Option<EvaluationView>)

  datatype Decision = Decision(shouldTrade: bool, direction: Option<Direction>, stake: real, entryPrice: Option<real>,
                               modelName: Option<string>, confidence: real, edge: real, indicators: DecisionInfo)

  /** `_noDecision(reason, indicators)` */
  function NoDecision(reason: NoDecisionReason, evaluation: Option<EvaluationView>): Decision
  {
    Decision(false, None, 0.0, None, None, 0.0, 0.0, DecisionInfo(Some(reason), evaluation))
  }

  /** The price of the side the recommendation names; a recommendation without one reads the Down price. */
  function EntryPrice(quote: Quote, direction: Option<Direction>): Option<real>
  {
    if direction == Some(Up) then quote.up else quote.down
  }

  /** Whether `decide` gets as far as running the evaluator. */
  predicate InputsAccepted(candles: Option<seq<Candle>>, quote: Option<Quote>)
  {
    candles.Some? && |candles.value| > 0 && ValidateMarketPrices(quote)
  }

  /** `decide(candles, marketPrices, remainingMinutes)` for an evaluator holding `models`. */
  function DecisionFor(config: EngineConfig, models: seq<Model>, candles: Option<seq<Candle>>, quote: Option<Quote>,
                  remainingMinutes: Option<real>, draws: nat -> RandomDraw, now: int, elapsedMs: int): Decision
    requires AllWellConfigured(models)
  {
    if candles.None? || |candles.value| == 0 then NoDecision(MissingCandles, None)
    else if !ValidateMarketPrices(quote) then NoDecision(BadMarketPrices, None)
    else
      var e := Evaluation(ResultsTo(models, candles, quote, remainingMinutes, draws, now, |models|),
                          quote, remainingMinutes, CandleCount(candles), elapsedMs, now);
      var view := EvaluationView(SummaryOf(Some(e)), e.results);
      var rec := Recommendation(Some(e));
      if rec.None? then NoDecision(NoModelRecommended, Some(view))
      else
        var r := rec.value;
        var entryPrice := EntryPrice(quote.value, r.direction).value;
        var s := CalculateStake(config, r.edge, entryPrice);
        Decision(s.shouldTrade, r.direction, s.stake, Some(entryPrice), Some(r.model), r.confidence, r.edge,
                 DecisionInfo(None, Some(view)))
  }

  /**
   * Whatever the models, a decision to trade names a side and an entry price
   * strictly inside (0, 1) and a stake of at most `maxStake` (positive when
   * `maxStake` is); a decision not to trade stakes nothing.
   */
  lemma TradingDecisionFacts(config: EngineConfig, models: seq<Model>, candles: Option<seq<Candle>>, quote: Option<Quote>,
                             remainingMinutes: Option<real>, draws: nat -> RandomDraw, now: int, elapsedMs: int)
    requires AllWellConfigured(models)
    ensures var d := DecisionFor(config, models, candles, quote, remainingMinutes, draws, now, elapsedMs);
            && (!d.shouldTrade ==> d.stake == 0.0)
            && (d.shouldTrade ==>
                  && InputsAccepted(candles, quote) && d.modelName.Some?
                  && d.entryPrice.Some? && 0.0 < d.entryPrice.value < 1.0
                  && d.stake <= config.maxStake && (config.maxStake > 0.0 ==> d.stake > 0.0))
  {
    if InputsAccepted(candles, quote) {
      var e := Evaluation(ResultsTo(models, candles, quote, remainingMinutes, draws, now, |models|),
                          quote, remainingMinutes, CandleCount(candles), elapsedMs, now);
      var rec := Recommendation(Some(e));
      if rec.Some? {
        var entryPrice := EntryPrice(quote.value, rec.value.direction).value;
        StakeFacts(config, rec.value.edge, entryPrice);
      }
    }
  }

  class DecisionEngine {
    const config: EngineConfig
    const evaluator: StrategyEvaluator

    ghost predicate Valid()
      reads this, evaluator
    {
      evaluator.Valid()
    }

    /** `new DecisionEngine({ config })`: the evaluator is `createEvaluator()` with no options. */
    constructor (config: EngineConfig)
      ensures Valid() && this.config == config
      ensures fresh(evaluator) && evaluator.models == DefaultModels && evaluator.lastResults.None?
    {
      this.config := config;
      var e := CreateEvaluator(EvaluatorOptions(DefaultConfig, DefaultEdgeThreshold, false));
      evaluator := e;
    }

    method Decide(candles: Option<seq<Candle>>, quote: Option<Quote>, remainingMinutes: Option<real>,
                  draws: nat -> RandomDraw, now: int, elapsedMs: int) returns (d: Decision)
      requires Valid()
      modifies evaluator
      ensures Valid() && evaluator.models == old(evaluator.models)
      ensures d == DecisionFor(config, evaluator.models, candles, quote, remainingMinutes, draws, now, elapsedMs)
      ensures !InputsAccepted(candles, quote) ==> evaluator.lastResults == old(evaluator.lastResults)
      ensures InputsAccepted(candles, quote) ==>
                evaluator.lastResults == Some(Evaluation(ResultsTo(evaluator.models, candles, quote, remainingMinutes, draws, now, |evaluator.models|),
                                                         quote, remainingMinutes, CandleCount(candles), elapsedMs, now))
    {
      if candles.None? || |candles.value| == 0 {
        return NoDecision(MissingCandles, None);
      }
      if !ValidateMarketPrices(quote) {
        return NoDecision(BadMarketPrices, None);
      }
      var _ := evaluator.Evaluate(candles, quote, remainingMinutes, draws, now, elapsedMs);
      var recommendation := evaluator.GetModelRecommendation();
      var indicators := EvaluationView(evaluator.GetSummary(), evaluator.GetAllResults());
      if recommendation.None? {
        return NoDecision(NoModelRecommended, Some(indicators));
      }
      var direction := recommendation.value.direction;
      var entryPrice := if direction == Some(Up) then quote.value.up.value else quote.value.down.value;
      var stake := CalculateStake(config, recommendation.value.edge, entryPrice);
      d := Decision(stake.shouldTrade, direction, stake.stake, Some(entryPrice), Some(recommendation.value.model),
                    recommendation.value.confidence, recommendation.value.edge, DecisionInfo(None, Some(indicators)));
    }
  }

  /**
   * An edge the TA model trades on (at least 0.05, and at most 0.901 less the
   * price, since its confidence is at most 0.9) leads the default engine to
   * trade exactly at a positive price, with a stake in (0, 100].
   */
  lemma DefaultStakeOnTaEdge(edge: real, p: real)
    requires 0.05 <= edge <= 0.901 - p && 0.0 <= p
    ensures var s := CalculateStake(DefaultEngineConfig, edge, p);
            && (s.shouldTrade <==> p > 0.0)
            && (s.shouldTrade ==> 0.0 < s.stake <= 100.0)
  {
    DefaultStakeAccepts(edge, p);
    StakeFacts(DefaultEngineConfig, edge, p);
  }

  /** With the default models the evaluator recommends the TA result exactly when it trades. */
  lemma DefaultRecommendation(candles: Option<seq<Candle>>, quote: Option<Quote>, remainingMinutes: Option<real>,
                              draws: nat -> RandomDraw, now: int, elapsedMs: int)
    ensures var e := Evaluation(ResultsTo(DefaultModels, candles, quote, remainingMinutes, draws, now, |DefaultModels|),
                                quote, remainingMinutes, CandleCount(candles), elapsedMs, now);
            var ta := TAModel.Evaluate(DefaultConfig, candles, quote, now);
            Recommendation(Some(e)) == if ta.shouldTrade then Some(ta) else None
  {
    var options := EvaluatorOptions(DefaultConfig, DefaultEdgeThreshold, false);
    assert ModelsFor(options) == DefaultModels;
    StandardSetRecommendsTA(options, candles, quote, remainingMinutes, draws, now, elapsedMs);
    var results := ResultsTo(DefaultModels, candles, quote, remainingMinutes, draws, now, |DefaultModels|);
    assert results[0] == RunModel(TA(DefaultConfig), candles, quote, remainingMinutes, draws(0), now);
  }

  /**
   * The engine as constructed with default settings trades exactly when the
   * TA model's result trades at a non-zero entry price; the trade then bets
   * on the TA side at that side's market price, with a stake in (0, 100].
   */
  lemma DefaultEngineTradesWithTA(candles: Option<seq<Candle>>, quote: Option<Quote>, remainingMinutes: Option<real>,
                                  draws: nat -> RandomDraw, now: int, elapsedMs: int)
    ensures var d := DecisionFor(DefaultEngineConfig, DefaultModels, candles, quote, remainingMinutes, draws, now, elapsedMs);
            var ta := TAModel.Evaluate(DefaultConfig, candles, quote, now);
            && (!InputsAccepted(candles, quote) ==> !d.shouldTrade && d.stake == 0.0)
            && (InputsAccepted(candles, quote) ==>
                  (d.shouldTrade <==> ta.shouldTrade && SidePrice(quote.value, ta.direction.value).value > 0.0))
            && (d.shouldTrade ==>
                  && d.modelName == Some(TAModel.Name) && d.direction == ta.direction && d.direction.Some?
                  && d.entryPrice == SidePrice(quote.value, d.direction.value)
                  && 0.0 < d.entryPrice.value < 1.0
                  && 0.0 < d.stake <= 100.0 && d.edge == ta.edge)
  {
    if InputsAccepted(candles, quote) {
      DefaultRecommendation(candles, quote, remainingMinutes, draws, now, elapsedMs);
      var ta := TAModel.Evaluate(DefaultConfig, candles, quote, now);
      EvaluateFacts(DefaultConfig, candles, quote, now);
      var e := Evaluation(ResultsTo(DefaultModels, candles, quote, remainingMinutes, draws, now, |DefaultModels|),
                          quote, remainingMinutes, CandleCount(candles), elapsedMs, now);
      var d := DecisionFor(DefaultEngineConfig, DefaultModels, candles, quote, remainingMinutes, draws, now, elapsedMs);
      if ta.shouldTrade {
        RoundToExact(50, 1000.0);
        assert Round3(0.05) == 0.05;
        var p := SidePrice(quote.value, ta.direction.value).value;
        assert EntryPrice(quote.value, ta.direction) == Some(p);
        DefaultStakeOnTaEdge(ta.edge, p);
        var s := CalculateStake(DefaultEngineConfig, ta.edge, p);
        assert d == Decision(s.shouldTrade, ta.direction, s.stake, Some(p), Some(ta.model), ta.confidence, ta.edge,
                             DecisionInfo(None, Some(EvaluationView(SummaryOf(Some(e)), e.results))));
      } else {
        assert d == NoDecision(NoModelRecommended, Some(EvaluationView(SummaryOf(Some(e)), e.results)));
      }
    }
  }
}
