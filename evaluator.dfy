/**
 * The strategy evaluator (src/strategy/evaluator.js): runs every model on the
 * same inputs, isolates model failures as error results, caches the last
 * evaluation, and picks the recommendation: the trading result with the
 * largest edge.
 */
module Evaluator {
  import opened Numeric
  import opened Indicators
  import opened BaseModel
  import opened TAModel
  import opened BaselineModel

  /** What a model's `evaluate` did: returned a result or threw with a message. */
  datatype Outcome = Returned(result: EvalResult) | Threw(message: string)

  /**
   * A model in the evaluator's list. The three models of the core are
   * modelled exactly; a model added from outside is `Foreign`, its
   * `evaluate` given as a function of the inputs and the clock; an object
   * without an `evaluate` method is `WithoutEvaluate` (calling it throws).
   */
  datatype Model =
    | TA(config: TAConfig)
    | Baseline(edgeThreshold: real)
    | Random(edgeThreshold: real)
    | Foreign(name: string, run: (Option<seq<Candle>>, Option<Quote>, Option<real>, int) -> Outcome)
    | WithoutEvaluate(name: string)
  {
    function Name(): string
    {
      match this
      case TA(_) => TAModel.Name
      case Baseline(_) => BaselineName
      case Random(_) => RandomName
      case Foreign(name, _) => name
      case WithoutEvaluate(name) => name
    }

    /** A TA model's configuration must be one its formulas can evaluate. */
    predicate WellConfigured()
    {
      TA? ==> config.Valid()
    }
  }

  /** The result recorded for a model whose `evaluate` threw. */
  function ErrorResult(name: string, message: string, now: int): (r: EvalResult)
    ensures r.model == name && r.direction.None? && !r.shouldTrade && r.confidence == 0.0 && r.edge == 0.0
  {
    EvalResult(name, None, 0.0, 0.0, false, ModelError(message), now)
  }

  /** The message a TypeError carries when a model has no `evaluate`. */
  const NotAFunction: string := "model.evaluate is not a function"

  /** One iteration of the evaluation loop: the model's result, or its error result. */
  function RunModel(m: Model, candles: Option<seq<Candle>>, quote: Option<Quote>, remainingMinutes: Option<real>,
                    draw: RandomDraw, now: int): (r: EvalResult)
    requires m.WellConfigured()
    ensures !m.Foreign? ==> r.model == m.Name()
    ensures m.Baseline? && m.edgeThreshold >= 0.0 ==> !r.shouldTrade
    ensures m.Random? || m.WithoutEvaluate? ==> !r.shouldTrade
  {
    match m
    case TA(config) =>
      EvaluateFacts(config, candles, quote, now);
      TAModel.Evaluate(config, candles, quote, now)
    case Baseline(t) =>
      BaselineFacts(t, quote, now);
      EvaluateBaseline(t, quote, now)
    case Random(t) =>
      RandomFacts(t, quote, draw, now);
      EvaluateRandom(t, quote, draw, now)
    case Foreign(name, run) =>
      (match run(candles, quote, remainingMinutes, now)
       case Returned(result) => result
       case Threw(message) => ErrorResult(name, message, now))
    case WithoutEvaluate(name) => ErrorResult(name, NotAFunction, now)
  }

  predicate AllWellConfigured(models: seq<Model>)
  {
    forall i :: 0 <= i < |models| ==> models[i].WellConfigured()
  }

  /** Results of the first `k` models, in list order; model i reads the i-th pair of random draws. */
  function ResultsTo(models: seq<Model>, candles: Option<seq<Candle>>, quote: Option<Quote>,
                     remainingMinutes: Option<real>, draws: nat -> RandomDraw, now: int, k: nat): (r: seq<EvalResult>)
    requires k <= |models| && AllWellConfigured(models)
    ensures |r| == k
  {
    seq(k, i requires 0 <= i < k => RunModel(models[i], candles, quote, remainingMinutes, draws(i), now))
  }

  /** The cached `lastResults` record. */
  datatype Evaluation = Evaluation(results: seq<EvalResult>, quote: Option<Quote>, remainingMinutes: Option<real>,
                                   candleCount: nat, evaluationTimeMs: int, timestamp: int)

  // ---------------------------------------------------------------------------
  // Recommendation
  // ---------------------------------------------------------------------------

  /**
   * Index of the recommended result among the first `k`: a trading result
   * whose edge no earlier trading result reaches and no later one exceeds
   * (the head of a stable sort by edge, descending).
   */
  function BestIndexTo(results: seq<EvalResult>, k: nat): (r: Option<nat>)
    requires k <= |results|
    ensures r.Some? ==> r.value < k
  {
    if k == 0 then None
    else
      var best := BestIndexTo(results, k - 1);
      var candidate := results[k - 1];
      if candidate.shouldTrade && (best.None? || candidate.edge > results[best.value].edge) then Some(k - 1)
      else best
  }

  /** `getModelRecommendation()` on a cached evaluation. */
  function Recommendation(last: Option<Evaluation>): Option<EvalResult>
  {
    if last.None? then None
    else
      var results := last.value.results;
      var best := BestIndexTo(results, |results|);
      if best.None? then None else Some(results[best.value])
  }

  /**
   * The recommendation is absent exactly when no result trades; otherwise it
   * is a trading result with the largest edge among trading results, and
   * the first such in list order.
   */
  lemma {:induction false} BestIndexCharacterized(results: seq<EvalResult>, k: nat)
    requires k <= |results|
    ensures BestIndexTo(results, k).None? <==> forall j :: 0 <= j < k ==> !results[j].shouldTrade
    ensures BestIndexTo(results, k).Some? ==>
              var i := BestIndexTo(results, k).value;
              && results[i].shouldTrade
              && (forall j :: 0 <= j < k && results[j].shouldTrade ==> results[j].edge <= results[i].edge)
              && (forall j :: 0 <= j < i && results[j].shouldTrade ==> results[j].edge < results[i].edge)
  {
    if k > 0 {
      BestIndexCharacterized(results, k - 1);
    }
  }

  lemma RecommendationCharacterized(last: Evaluation)
    ensures var rec := Recommendation(Some(last));
            var results := last.results;
            && (rec.None? <==> forall j :: 0 <= j < |results| ==> !results[j].shouldTrade)
            && (rec.Some? ==>
                  exists i :: 0 <= i < |results| && results[i] == rec.value
                    && rec.value.shouldTrade
                    && (forall j :: 0 <= j < |results| && results[j].shouldTrade ==> results[j].edge <= rec.value.edge)
                    && (forall j :: 0 <= j < i && results[j].shouldTrade ==> results[j].edge < rec.value.edge))
  {
    BestIndexCharacterized(last.results, |last.results|);
  }

  // ---------------------------------------------------------------------------
  // Model comparison and summary
  // ---------------------------------------------------------------------------

  /**
   * The `direction` of an `actualOutcome`: a side, null, or anything else
   * (absent, so undefined, or a value that names no side).
   */
  datatype OutcomeDirection = Side(side: Direction) | NullDirection | NoSide

  /** `actualOutcome`, as far as the comparison reads it. */
  datatype ActualOutcome = ActualOutcome(direction: OutcomeDirection)

  /**
   * `result.direction === actualOutcome.direction`: a result's direction is
   * a side or null, so it never equals an absent or unknown direction.
   */
  predicate SameDirection(predicted: Option<Direction>, actual: OutcomeDirection)
  {
    match actual
    case Side(d) => predicted == Some(d)
    case NullDirection => predicted.None?
    case NoSide => false
  }

  datatype Comparison = Comparison(model: string, predicted: Option<Direction>, actual: OutcomeDirection,
                                   correct: bool, shouldTrade: bool, edge: real,
                                   tradedCorrectly: bool, tradedIncorrectly: bool, correctlyAvoided: bool)

  function CompareOne(r: EvalResult, actual: ActualOutcome): Comparison
  {
    var correct := SameDirection(r.direction, actual.direction);
    Comparison(r.model, r.direction, actual.direction, correct, r.shouldTrade, r.edge,
               r.shouldTrade && correct, r.shouldTrade && !correct, !r.shouldTrade && !correct)
  }

  /** `compareModels(actualOutcome)`; None stands for the source's null. */
  function CompareModels(last: Option<Evaluation>, actual: Option<ActualOutcome>): (r: Option<seq<Comparison>>)
    ensures r.Some? <==> last.Some? && actual.Some?
    ensures r.Some? ==> |r.value| == |last.value.results|
  {
    if last.None? || actual.None? then None
    else Some(seq(|last.value.results|, i requires 0 <= i < |last.value.results| => CompareOne(last.value.results[i], actual.value)))
  }

  /**
   * Each comparison row describes its own result, and the three verdicts
   * are exclusive: a traded result is traded correctly or incorrectly, an
   * untraded one counts as correctly avoided exactly when its prediction was
   * wrong. A prediction is correct when it names the outcome's side, or is
   * null against a null outcome; against an absent direction it is never
   * correct, so every untraded result counts as correctly avoided.
   */
  lemma ComparisonVerdicts(last: Evaluation, actual: ActualOutcome, i: nat)
    requires i < |last.results|
    ensures var c := CompareModels(Some(last), Some(actual)).value[i];
            var r := last.results[i];
            && c.model == r.model && c.predicted == r.direction && c.actual == actual.direction
            && (c.correct <==> || (actual.direction.Side? && r.direction == Some(actual.direction.side))
                               || (actual.direction.NullDirection? && r.direction.None?))
            && (actual.direction.NoSide? ==> !c.correct && (c.correctlyAvoided <==> !r.shouldTrade))
            && (r.shouldTrade ==> (c.tradedCorrectly <==> !c.tradedIncorrectly) && !c.correctlyAvoided)
            && (!r.shouldTrade ==> !c.tradedCorrectly && !c.tradedIncorrectly && (c.correctlyAvoided <==> !c.correct))
  {
  }

  datatype ModelSummary = ModelSummary(model: string, direction: Option<Direction>, confidencePercent: real,
                                       edgePercent: real, shouldTrade: bool)
  datatype RecommendationSummary = RecommendationSummary(model: string, direction: Option<Direction>,
                                                         edgePercent: real, reason: Reason)
  /**
   * `getSummary()`. Percentages are value * 100 (the source prints them with
   * one decimal); a side that is not a number prints as NaN (None).
   */
  datatype Summary =
    | NotEvaluated
    | Evaluated(timestamp: int, upPercent: Option<real>, downPercent: Option<real>, remainingMinutes: Option<real>,
                candleCount: nat, models: seq<ModelSummary>, recommendation: Option<RecommendationSummary>)

  function SummarizeResult(r: EvalResult): ModelSummary
  {
    ModelSummary(r.model, r.direction, r.confidence * 100.0, r.edge * 100.0, r.shouldTrade)
  }

  function Percent100(x: Option<real>): Option<real>
  {
    if x.Some? then Some(x.value * 100.0) else None
  }

  /** None where the source throws: a cached evaluation whose market prices were null or missing. */
  function SummaryOf(last: Option<Evaluation>): (r: Option<Summary>)
    ensures last.None? ==> r == Some(NotEvaluated)
    ensures r.None? <==> last.Some? && last.value.quote.None?
  {
    if last.None? then Some(NotEvaluated)
    else if last.value.quote.None? then None
    else
      var e := last.value;
      var rec := Recommendation(last);
      Some(Evaluated(e.timestamp, Percent100(e.quote.value.up), Percent100(e.quote.value.down), e.remainingMinutes,
                     e.candleCount,
                     seq(|e.results|, i requires 0 <= i < |e.results| => SummarizeResult(e.results[i])),
                     if rec.Some? then Some(RecommendationSummary(rec.value.model, rec.value.direction,
                                                                  rec.value.edge * 100.0, rec.value.reason))
                     else None))
  }

  /** The summary lists every model's result in order and names the recommendation's model, if any. */
  lemma SummaryAgrees(last: Evaluation)
    requires last.quote.Some?
    ensures var s := SummaryOf(Some(last)).value;
            && s.Evaluated?
            && |s.models| == |last.results|
            && (forall i :: 0 <= i < |last.results| ==>
                  s.models[i].model == last.results[i].model && s.models[i].shouldTrade == last.results[i].shouldTrade)
            && (s.recommendation.Some? <==> Recommendation(Some(last)).Some?)
            && (s.recommendation.Some? ==> s.recommendation.value.model == Recommendation(Some(last)).value.model)
  {
  }

  // ---------------------------------------------------------------------------
  // Model list maintenance
  // ---------------------------------------------------------------------------

  /** `models.filter(m => m.name !== name)` */
  function Without(models: seq<Model>, name: string): (r: seq<Model>)
    ensures |r| <= |models|
    ensures forall i :: 0 <= i < |r| ==> r[i].Name() != name
    ensures AllWellConfigured(models) ==> AllWellConfigured(r)
  {
    if |models| == 0 then []
    else
      var rest := Without(models[..|models| - 1], name);
      var last := models[|models| - 1];
      assert AllWellConfigured(models) ==> AllWellConfigured(models[..|models| - 1]);
      if last.Name() != name then rest + [last] else rest
  }

  /** The list shrinks exactly when some model carried the name. */
  lemma {:induction false} WithoutShrinks(models: seq<Model>, name: string)
    ensures |Without(models, name)| < |models| <==> exists i :: 0 <= i < |models| && models[i].Name() == name
  {
    if |models| > 0 {
      var init := models[..|models| - 1];
      var last := models[|models| - 1];
      WithoutShrinks(init, name);
      if last.Name() == name {
        assert |Without(models, name)| == |Without(init, name)|;
        assert models[|models| - 1].Name() == name;
      } else {
        assert |Without(models, name)| == |Without(init, name)| + 1;
        if exists i :: 0 <= i < |models| && models[i].Name() == name {
          var i :| 0 <= i < |models| && models[i].Name() == name;
          assert init[i].Name() == name;
        }
        if exists i :: 0 <= i < |init| && init[i].Name() == name {
          var i :| 0 <= i < |init| && init[i].Name() == name;
          assert models[i].Name() == name;
        }
      }
    }
  }

  /** A list where no model carries the name is left unchanged. */
  lemma {:induction false} WithoutKeeps(models: seq<Model>, name: string)
    requires forall i :: 0 <= i < |models| ==> models[i].Name() != name
    ensures Without(models, name) == models
  {
    if |models| > 0 {
      var init := models[..|models| - 1];
      WithoutKeeps(init, name);
      assert models == init + [models[|models| - 1]];
    }
  }

  /** `models.find(m => m.name === name) || null` */
  function FindModel(models: seq<Model>, name: string): (r: Option<nat>)
    ensures r.Some? ==> r.value < |models| && models[r.value].Name() == name
    ensures r.Some? ==> forall j :: 0 <= j < r.value ==> models[j].Name() != name
    ensures r.None? ==> forall j :: 0 <= j < |models| ==> models[j].Name() != name
  {
    if |models| == 0 then None
    else if models[0].Name() == name then Some(0)
    else
      var rest := FindModel(models[1..], name);
      if rest.None? then None else Some(rest.value + 1)
  }

  const DefaultModels: seq<Model> := [TA(DefaultConfig), Baseline(DefaultEdgeThreshold)]

  class StrategyEvaluator {
    var models: seq<Model>
    var lastResults: Option<Evaluation>
    var lastEvaluationTime: Option<int>

    ghost predicate Valid()
      reads this
    {
      AllWellConfigured(models)
    }

    /** `new StrategyEvaluator({ models })`: the given list, or TA and Baseline with defaults when none is given. */
    constructor (models: Option<seq<Model>>)
      requires models.Some? ==> AllWellConfigured(models.value)
      ensures Valid()
      ensures this.models == (if models.Some? then models.value else DefaultModels)
      ensures lastResults.None? && lastEvaluationTime.None?
    {
      this.models := if models.Some? then models.value else DefaultModels;
      lastResults := None;
      lastEvaluationTime := None;
    }

    /**
     * `evaluate(candles, marketPrices, remainingMinutes)`: every model in list
     * order; `now` is the clock reading and `elapsedMs` the measured duration.
     */
    method Evaluate(candles: Option<seq<Candle>>, quote: Option<Quote>, remainingMinutes: Option<real>,
                    draws: nat -> RandomDraw, now: int, elapsedMs: int) returns (r: Evaluation)
      requires Valid()
      modifies this
      ensures Valid() && models == old(models)
      ensures r == Evaluation(ResultsTo(models, candles, quote, remainingMinutes, draws, now, |models|),
                              quote, remainingMinutes, CandleCount(candles), elapsedMs, now)
      ensures lastResults == Some(r) && lastEvaluationTime == Some(now)
    {
      var ms := models;
      var results: seq<EvalResult> := [];
      var i := 0;
      while i < |ms|
        invariant 0 <= i <= |ms|
        invariant results == ResultsTo(ms, candles, quote, remainingMinutes, draws, now, i)
      {
        results := results + [RunModel(ms[i], candles, quote, remainingMinutes, draws(i), now)];
        i := i + 1;
      }
      r := Evaluation(results, quote, remainingMinutes, CandleCount(candles), elapsedMs, now);
      lastResults := Some(r);
      lastEvaluationTime := Some(now);
    }

    /** `getModelRecommendation()` */
    function GetModelRecommendation(): Option<EvalResult>
      reads this
    {
      Recommendation(lastResults)
    }

    /** `getAllResults()`: the cached results, or none before the first evaluation. */
    function GetAllResults(): (r: seq<EvalResult>)
      reads this
      ensures lastResults.None? ==> r == []
      ensures lastResults.Some? ==> r == lastResults.value.results
    {
      if lastResults.Some? then lastResults.value.results else []
    }

    function GetSummary(): Option<Summary>
      reads this
    {
      SummaryOf(lastResults)
    }

    /** `addModel(model)`: refuses a missing model or one without `evaluate`, otherwise appends it. */
    method AddModel(model: Option<Model>) returns (added: bool)
      requires Valid()
      requires model.Some? ==> model.value.WellConfigured()
      modifies this
      ensures Valid()
      ensures added <==> model.Some? && !model.value.WithoutEvaluate?
      ensures added ==> models == old(models) + [model.value]
      ensures !added ==> models == old(models)
      ensures lastResults == old(lastResults) && lastEvaluationTime == old(lastEvaluationTime)
    {
      if model.None? || model.value.WithoutEvaluate? {
        return false;
      }
      models := models + [model.value];
      added := true;
    }

    /** `removeModel(name)`: drops every model with that name; true when the list shrank. */
    method RemoveModel(name: string) returns (removed: bool)
      requires Valid()
      modifies this
      ensures Valid()
      ensures models == Without(old(models), name)
      ensures removed <==> exists i :: 0 <= i < |old(models)| && old(models)[i].Name() == name
      ensures lastResults == old(lastResults) && lastEvaluationTime == old(lastEvaluationTime)
    {
      var initialLength := |models|;
      WithoutShrinks(models, name);
      models := Without(models, name);
      removed := |models| < initialLength;
    }

    /** `getModel(name)`: the first model with that name. */
    function GetModel(name: string): (r: Option<Model>)
      reads this
      ensures r.None? <==> forall j :: 0 <= j < |models| ==> models[j].Name() != name
      ensures r.Some? ==> r.value.Name() == name
      ensures r.Some? ==> exists i :: 0 <= i < |models| && models[i] == r.value
                                      && forall j :: 0 <= j < i ==> models[j].Name() != name
    {
      var i := FindModel(models, name);
      if i.Some? then Some(models[i.value]) else None
    }
  }

  /** Options of `createEvaluator`: the two configurations and whether to add the random model. */
  datatype EvaluatorOptions = EvaluatorOptions(taConfig: TAConfig, baselineEdgeThreshold: real, includeRandom: bool)

  function ModelsFor(options: EvaluatorOptions): seq<Model>
  {
    [TA(options.taConfig), Baseline(options.baselineEdgeThreshold)]
    + (if options.includeRandom then [Random(DefaultEdgeThreshold)] else [])
  }

  /** `createEvaluator(options)` */
  method CreateEvaluator(options: EvaluatorOptions) returns (e: StrategyEvaluator)
    requires options.taConfig.Valid()
    ensures fresh(e) && e.Valid()
    ensures e.models == ModelsFor(options) && e.lastResults.None?
  {
    e := new StrategyEvaluator(Some(ModelsFor(options)));
  }

  /** When no result after the first trades, the recommendation is the first result if it trades. */
  lemma OnlyFirstCanTrade(last: Evaluation)
    requires |last.results| >= 1
    requires forall j :: 1 <= j < |last.results| ==> !last.results[j].shouldTrade
    ensures Recommendation(Some(last)) == if last.results[0].shouldTrade then Some(last.results[0]) else None
  {
    BestIndexCharacterized(last.results, |last.results|);
  }

  /**
   * With the standard model set and a non-negative baseline threshold, only
   * the TA model can be recommended: the recommendation is the TA result
   * exactly when it trades, and there is none otherwise.
   */
  lemma StandardSetRecommendsTA(options: EvaluatorOptions, candles: Option<seq<Candle>>, quote: Option<Quote>,
                                remainingMinutes: Option<real>, draws: nat -> RandomDraw, now: int, elapsedMs: int)
    requires options.taConfig.Valid() && options.baselineEdgeThreshold >= 0.0
    ensures var models := ModelsFor(options);
            var results := ResultsTo(models, candles, quote, remainingMinutes, draws, now, |models|);
            var rec := Recommendation(Some(Evaluation(results, quote, remainingMinutes, CandleCount(candles), elapsedMs, now)));
            && (rec.Some? <==> results[0].shouldTrade)
            && (rec.Some? ==> rec.value == results[0] && rec.value.model == TAModel.Name)
  {
    var models := ModelsFor(options);
    var results := ResultsTo(models, candles, quote, remainingMinutes, draws, now, |models|);
    assert models[0] == TA(options.taConfig) && models[1] == Baseline(options.baselineEdgeThreshold);
    assert |models| == 3 ==> models[2] == Random(DefaultEdgeThreshold);
    forall j | 1 <= j < |results|
      ensures !results[j].shouldTrade
    {
      assert results[j] == RunModel(models[j], candles, quote, remainingMinutes, draws(j), now);
    }
    assert results[0] == RunModel(models[0], candles, quote, remainingMinutes, draws(0), now);
    OnlyFirstCanTrade(Evaluation(results, quote, remainingMinutes, CandleCount(candles), elapsedMs, now));
  }
}
