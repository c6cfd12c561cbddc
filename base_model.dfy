/**
 * The shared vocabulary of the trading models (src/strategy/models/base-model.js):
 * market quotes, the evaluation result every model returns, and the helpers
 * all models use to compute an edge against the market, to validate their
 * inputs and to build (rounded) results.
 */
module BaseModel {
  import opened Numeric
  import opened Indicators

  datatype Direction = Up | Down

  /**
   * Polymarket prices `{ up, down }` for one market. A side is None when the
   * value is not of type number (missing, null, a string).
   */
  datatype Quote = Quote(up: Option<real>, down: Option<real>)

  /** The indicator signals a TA result names as strong (|signal| >= 0.3). */
  datatype SignalName = RsiSignal | MacdSignal | VwapSignal | HeikenAshiSignal | RegimeSignal

  /**
   * Why a model decided what it did. The source builds human-readable text;
   * the model keeps the kind of reason and the data it is built from.
   */
  datatype Reason =
    | NoReasonProvided
    | InsufficientCandles(need: int, got: nat)
    | InvalidMarketPrices
    | NoClearSignal(strong: seq<SignalName>, regime: Regime)
    | TaEdge(direction: Direction, strong: seq<SignalName>, regime: Regime, belowThreshold: bool)
    | BaselineAgrees(marketPrice: real)
    | RandomPick(direction: Direction, probability: real, marketPrice: real)
    | ModelError(message: string)

  /** One model's evaluation; `timestamp` is the clock reading (ms) taken when it was built. */
  datatype EvalResult = EvalResult(model: string, direction: Option<Direction>, confidence: real,
                                   edge: real, shouldTrade: bool, reason: Reason, timestamp: int)

  /** The market price of the side `direction` bets on. */
  function SidePrice(quote: Quote, direction: Direction): Option<real>
  {
    match direction
    case Up => quote.up
    case Down => quote.down
  }

  /**
   * `calculateEdge(direction, modelProbability, marketPrices)`: the model's
   * probability minus the market's price for that side; None where the
   * source throws (no quote, or a side that is not a number).
   */
  function CalculateEdge(direction: Direction, modelProbability: real, quote: Option<Quote>): (r: Option<real>)
    ensures r.Some? <==> quote.Some? && quote.value.up.Some? && quote.value.down.Some?
    ensures r.Some? ==> r.value + SidePrice(quote.value, direction).value == modelProbability
  {
    if quote.None? || quote.value.up.None? || quote.value.down.None? then None
    else Some(modelProbability - SidePrice(quote.value, direction).value)
  }

  /** `shouldMakeTrade(edge)`: the model trades only on an edge strictly above its threshold. */
  function ShouldMakeTrade(edge: real, edgeThreshold: real): bool
  {
    edge > edgeThreshold
  }

  /** The threshold test is strict (an edge equal to it does not trade) and monotone in the edge. */
  lemma ShouldMakeTradeStrict(edge: real, larger: real, edgeThreshold: real)
    requires edge <= larger
    ensures !ShouldMakeTrade(edgeThreshold, edgeThreshold)
    ensures ShouldMakeTrade(edge, edgeThreshold) ==> ShouldMakeTrade(larger, edgeThreshold)
    ensures ShouldMakeTrade(edge, edgeThreshold) ==> edge != edgeThreshold
  {
  }

  /** `createResult(...)`: confidence and edge rounded to 3 decimals (undefined gives 0). */
  function CreateResult(name: string, direction: Option<Direction>, confidence: Option<real>, edge: Option<real>,
                        shouldTrade: bool, reason: Option<Reason>, now: int): (r: EvalResult)
    ensures r.model == name && r.direction == direction && r.shouldTrade == shouldTrade && r.timestamp == now
    ensures confidence.None? ==> r.confidence == 0.0
    ensures confidence.Some? ==> confidence.value - 0.0005 < r.confidence <= confidence.value + 0.0005
    ensures edge.None? ==> r.edge == 0.0
    ensures edge.Some? ==> edge.value - 0.0005 < r.edge <= edge.value + 0.0005
    ensures reason.None? ==> r.reason == NoReasonProvided
  {
    RoundToClose(confidence.GetOr(0.0), 1000.0);
    RoundToClose(edge.GetOr(0.0), 1000.0);
    EvalResult(name,
               direction,
               if confidence.Some? then Round3(confidence.value) else 0.0,
               if edge.Some? then Round3(edge.value) else 0.0,
               shouldTrade,
               reason.GetOr(NoReasonProvided),
               now)
  }

  /** Rounding to 3 decimals is idempotent: a result's numbers are already in their rounded form. */
  lemma Round3Idempotent(x: real)
    ensures Round3(Round3(x)) == Round3(x)
  {
    var k := (x * 1000.0 + 0.5).Floor;
    assert Round3(x) == k as real / 1000.0;
    RoundToExact(k, 1000.0);
  }

  /** `noTrade(reason)`: no direction, zero confidence and edge, never a trade. */
  function NoTrade(name: string, reason: Reason, now: int): (r: EvalResult)
    ensures r.model == name && r.direction.None? && !r.shouldTrade
    ensures r.confidence == 0.0 && r.edge == 0.0 && r.reason == reason
  {
    RoundToExact(0, 1000.0);
    CreateResult(name, None, Some(0.0), Some(0.0), false, Some(reason), now)
  }

  /**
   * `validateCandles(candles, minRequired)`: an array with at least
   * `minRequired` candles whose first candle exists (its close is always a
   * number here).
   */
  function ValidateCandles(candles: Option<seq<Candle>>, minRequired: int): (r: bool)
    ensures r <==> candles.Some? && |candles.value| >= minRequired && |candles.value| >= 1
  {
    candles.Some? && |candles.value| >= minRequired && |candles.value| > 0
  }

  /** `validateMarketPrices(marketPrices)`: both sides numbers in [0, 1]. */
  predicate ValidateMarketPrices(quote: Option<Quote>)
  {
    && quote.Some? && quote.value.up.Some? && quote.value.down.Some?
    && 0.0 <= quote.value.up.value <= 1.0
    && 0.0 <= quote.value.down.value <= 1.0
  }

  /** Quotes that pass validation give every side a price in [0, 1] and never make `calculateEdge` throw. */
  lemma ValidQuoteFacts(quote: Option<Quote>, direction: Direction, p: real)
    requires ValidateMarketPrices(quote)
    ensures SidePrice(quote.value, direction).Some?
    ensures 0.0 <= SidePrice(quote.value, direction).value <= 1.0
    ensures CalculateEdge(direction, p, quote) == Some(p - SidePrice(quote.value, direction).value)
  {
  }

  /** The length the source reports for a candle argument: `candles?.length || 0`. */
  function CandleCount(candles: Option<seq<Candle>>): nat
  {
    if candles.Some? then |candles.value| else 0
  }
}
