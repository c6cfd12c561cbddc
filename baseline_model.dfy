/**
 * The two reference models (src/strategy/models/baseline-model.js): the
 * baseline agrees with the market (so its edge is 0), and the random model
 * picks a side and a probability from two uniform draws but never trades.
 */
module BaselineModel {
  import opened Numeric
  import opened BaseModel

  const BaselineName: string := "Baseline-Model"
  const RandomName: string := "Random-Model"

  /** Both reference models default to an edge threshold of 0.05. */
  const DefaultEdgeThreshold: real := 0.05

  /** The baseline `evaluate`: the likelier side by market price, at the market's own price. */
  function EvaluateBaseline(edgeThreshold: real, quote: Option<Quote>, now: int): EvalResult
  {
    if !ValidateMarketPrices(quote) then NoTrade(BaselineName, InvalidMarketPrices, now)
    else
      var q := quote.value;
      var direction := if q.up.value >= q.down.value then Up else Down;
      var marketPrice := SidePrice(q, direction).value;
      var modelProbability := marketPrice;
      var edge := CalculateEdge(direction, modelProbability, quote).value;
      CreateResult(BaselineName, Some(direction), Some(modelProbability), Some(edge), ShouldMakeTrade(edge, edgeThreshold),
                   Some(BaselineAgrees(marketPrice)), now)
  }

  /**
   * The baseline's edge is always 0 and its confidence is the larger market
   * price (rounded), on the side with that price (Up on a tie); so it never
   * trades unless its threshold is negative, and with invalid prices it
   * returns a no-trade result.
   */
  lemma BaselineFacts(edgeThreshold: real, quote: Option<Quote>, now: int)
    ensures var r := EvaluateBaseline(edgeThreshold, quote, now);
            && r.model == BaselineName && r.edge == 0.0
            && (r.shouldTrade <==> ValidateMarketPrices(quote) && edgeThreshold < 0.0)
            && (!ValidateMarketPrices(quote) ==> r.direction.None? && r.reason == InvalidMarketPrices)
            && (ValidateMarketPrices(quote) ==>
                  && (r.direction == Some(Up) <==> quote.value.up.value >= quote.value.down.value)
                  && r.direction.Some?
                  && r.confidence == Round3(Max(quote.value.up.value, quote.value.down.value)))
  {
    RoundToExact(0, 1000.0);
  }

  /** One call's pair of `Math.random()` readings, each in [0, 1). */
  type Unit = x: real | 0.0 <= x < 1.0 witness 0.0

  datatype RandomDraw = RandomDraw(first: Unit, second: Unit)

  /** The random `evaluate`: Up when the first draw exceeds 0.5, probability 0.5 + 0.4 * second draw. */
  function EvaluateRandom(edgeThreshold: real, quote: Option<Quote>, draw: RandomDraw, now: int): EvalResult
  {
    if !ValidateMarketPrices(quote) then NoTrade(RandomName, InvalidMarketPrices, now)
    else
      var direction := if draw.first > 0.5 then Up else Down;
      var marketPrice := SidePrice(quote.value, direction).value;
      var modelProbability := 0.5 + draw.second * 0.4;
      var edge := CalculateEdge(direction, modelProbability, quote).value;
      // The source also computes `shouldMakeTrade(edge)` but reports false regardless.
      CreateResult(RandomName, Some(direction), Some(modelProbability), Some(edge), false,
                   Some(RandomPick(direction, modelProbability, marketPrice)), now)
  }

  /**
   * The random model never trades, whatever its threshold; with valid prices
   * its confidence lies in [0.5, 0.9], its side is Up exactly when the first
   * draw exceeds 0.5, and its edge is confidence minus that side's price up
   * to rounding.
   */
  lemma RandomFacts(edgeThreshold: real, quote: Option<Quote>, draw: RandomDraw, now: int)
    ensures var r := EvaluateRandom(edgeThreshold, quote, draw, now);
            && r.model == RandomName && !r.shouldTrade
            && (!ValidateMarketPrices(quote) ==> r.direction.None? && r.reason == InvalidMarketPrices)
            && (ValidateMarketPrices(quote) ==>
                  && (r.direction == Some(Up) <==> draw.first > 0.5)
                  && r.direction.Some?
                  && 0.5 <= r.confidence <= 0.9
                  && -0.001 <= r.edge - (r.confidence - SidePrice(quote.value, r.direction.value).value) <= 0.001)
  {
    if ValidateMarketPrices(quote) {
      RoundToWithin(0.5 + draw.second * 0.4, 1000.0, 500, 900);
    }
  }
}
