/**
 * The paper-trading service (src/paper/paper-trader.service.js): for every
 * open market it finds the candles of the market's asset and the latest
 * prices, asks the decision engine, records at most one paper trade per
 * market, and settles pending trades once their market has an outcome.
 * The database queries are inputs: the open markets, the latest snapshot of
 * each market and the newest-first candle rows of each asset and interval.
 */
module PaperTrader {
  import opened Numeric
  import opened Indicators
  import opened BaseModel
  import opened BaselineModel
  import opened Evaluator
  import opened DecisionEngine
  import opened MarketsConfig
  import opened TradeRecorder
  import opened ResultChecker

  // ---------------------------------------------------------------------------
  // buildCandleIntervalMap
  // ---------------------------------------------------------------------------

  /** The map after adding the first j markets of group g (a later name overwrites an earlier one). */
  function AddGroup(m: map<string, Option<string>>, g: MarketGroup, j: nat): map<string, Option<string>>
    requires j <= |g.markets|
  {
    if j == 0 then m
    else
      var before := AddGroup(m, g, j - 1);
      var name := g.markets[j - 1].name;
      if name != "" then before[name := g.candleInterval] else before
  }

  /** The map after the first k groups. */
  function IntervalMapTo(groups: seq<MarketGroup>, k: nat): map<string, Option<string>>
    requires k <= |groups|
  {
    if k == 0 then map[] else AddGroup(IntervalMapTo(groups, k - 1), groups[k - 1], |groups[k - 1].markets|)
  }

  /** `buildCandleIntervalMap()` over a list of groups: each market name to its group's candle interval. */
  method BuildCandleIntervalMap(groups: seq<MarketGroup>) returns (intervals: map<string, Option<string>>)
    ensures intervals == IntervalMapTo(groups, |groups|)
  {
    intervals := map[];
    var i := 0;
    while i < |groups|
      invariant i <= |groups|
      invariant intervals == IntervalMapTo(groups, i)
    {
      var group := groups[i];
      var j := 0;
      while j < |group.markets|
        invariant j <= |group.markets|
        invariant intervals == AddGroup(IntervalMapTo(groups, i), group, j)
      {
        if group.markets[j].name != "" {
          intervals := intervals[group.markets[j].name := group.candleInterval];
        }
        j := j + 1;
      }
      i := i + 1;
    }
  }

  /** Group g has a market called `name`. */
  predicate InGroup(g: MarketGroup, name: string)
  {
    exists j :: 0 <= j < |g.markets| && g.markets[j].name == name
  }

  lemma {:induction false} AddGroupMeaning(m: map<string, Option<string>>, g: MarketGroup, j: nat, name: string)
    requires j <= |g.markets| && name != ""
    ensures var r := AddGroup(m, g, j);
            && (name in r <==> name in m || exists i :: 0 <= i < j && g.markets[i].name == name)
            && ((exists i :: 0 <= i < j && g.markets[i].name == name) ==> r[name] == g.candleInterval)
            && (!(exists i :: 0 <= i < j && g.markets[i].name == name) && name in m ==> r[name] == m[name])
  {
    if j > 0 {
      AddGroupMeaning(m, g, j - 1, name);
    }
  }

  /**
   * A non-empty name is in the map exactly when some group has a market of
   * that name, and it maps to the candle interval of the last such group.
   */
  lemma {:induction false} IntervalMapMeaning(groups: seq<MarketGroup>, k: nat, name: string)
    requires k <= |groups| && name != ""
    ensures name in IntervalMapTo(groups, k) <==> exists i :: 0 <= i < k && InGroup(groups[i], name)
    ensures name in IntervalMapTo(groups, k) ==>
              exists i :: 0 <= i < k && InGroup(groups[i], name)
                          && IntervalMapTo(groups, k)[name] == groups[i].candleInterval
                          && forall l :: i < l < k ==> !InGroup(groups[l], name)
  {
    if k > 0 {
      IntervalMapMeaning(groups, k - 1, name);
      var g := groups[k - 1];
      AddGroupMeaning(IntervalMapTo(groups, k - 1), g, |g.markets|, name);
      if InGroup(g, name) {
        assert 0 <= k - 1 < k && InGroup(groups[k - 1], name);
      } else if exists i :: 0 <= i < k && InGroup(groups[i], name) {
        var i :| 0 <= i < k && InGroup(groups[i], name);
        assert i < k - 1;
      }
    }
  }

  // ---------------------------------------------------------------------------
  // normalizeAssetName
  // ---------------------------------------------------------------------------

  predicate IsDigit(c: char)
  {
    '0' <= c <= '9'
  }

  /** The name matches `/_((\d+M)|(\d+H)|DAILY)$/`: it ends in `_<digits>M`, `_<digits>H` or `_DAILY`. */
  predicate HasIntervalSuffix(s: string)
  {
    || (|s| >= 6 && s[|s| - 6..] == "_DAILY")
    || (|s| >= 3 && (s[|s| - 1] == 'M' || s[|s| - 1] == 'H')
        && exists i :: 0 <= i < |s| - 2 && s[i] == '_' && forall j :: i < j < |s| - 1 ==> IsDigit(s[j]))
  }

  /** `s.split('_')[0]`: the text before the first underscore (all of it when there is none). */
  function BeforeUnderscore(s: string): (r: string)
    ensures r <= s && '_' !in r
    ensures r == s || (|r| < |s| && s[|r|] == '_')
  {
    if |s| == 0 || s[0] == '_' then [] else [s[0]] + BeforeUnderscore(s[1..])
  }

  /** `normalizeAssetName(assetName)`: None for a missing or empty name. */
  function NormalizeAssetName(assetName: Option<string>): Option<string>
  {
    if assetName.None? || assetName.value == "" then None
    else if HasIntervalSuffix(assetName.value) then Some(BeforeUnderscore(assetName.value))
    else assetName
  }

  /**
   * A market name with an interval suffix normalizes to the asset before its
   * first underscore; any other name is kept; and normalizing again changes
   * nothing, except that a name starting with '_' normalizes to "" and then
   * to None.
   */
  lemma NormalizeFacts(assetName: Option<string>)
    ensures var r := NormalizeAssetName(assetName);
            && (r.None? <==> assetName.None? || assetName.value == "")
            && (r.Some? && HasIntervalSuffix(assetName.value) ==> r.value <= assetName.value && '_' !in r.value)
            && (r.Some? && !HasIntervalSuffix(assetName.value) ==> r == assetName)
            && (r != Some("") ==> NormalizeAssetName(r) == r)
  {
    var r := NormalizeAssetName(assetName);
    if r.Some? && r.value != "" && HasIntervalSuffix(assetName.value) {
      NoUnderscoreNoSuffix(r.value);
    }
  }

  /** A name without an underscore has no interval suffix. */
  lemma NoUnderscoreNoSuffix(s: string)
    requires '_' !in s
    ensures !HasIntervalSuffix(s)
  {
    if |s| >= 6 {
      assert s[|s| - 6..][0] == s[|s| - 6];
    }
  }

  /** Configured names with an interval suffix: "BTC_15M" and "BTC_DAILY" are both the asset "BTC". */
  lemma NormalizeStripsIntervalSuffix()
    ensures NormalizeAssetName(Some("BTC_15M")) == Some("BTC")
    ensures NormalizeAssetName(Some("BTC_DAILY")) == Some("BTC")
  {
    var a := "BTC_15M";
    assert a[3] == '_' && IsDigit(a[4]) && IsDigit(a[5]);
    assert HasIntervalSuffix(a);
    assert BeforeUnderscore(a) == "BTC" by {
      assert a[3..][0] == '_';
      assert a[1..][1..][1..] == a[3..];
    }
    var b := "BTC_DAILY";
    assert b[|b| - 6..] == "_DAILY";
    assert BeforeUnderscore(b) == "BTC" by {
      assert b[3..][0] == '_';
      assert b[1..][1..][1..] == b[3..];
    }
  }

  /** Names without an interval suffix, underscores included, are kept whole. */
  lemma NormalizeKeepsPlainNames()
    ensures NormalizeAssetName(Some("CRUDE_OIL")) == Some("CRUDE_OIL")
    ensures NormalizeAssetName(Some("SPX")) == Some("SPX")
  {
    var c := "CRUDE_OIL";
    assert !HasIntervalSuffix(c) by {
      assert c[|c| - 1] == 'L';
      assert c[|c| - 6..] != "_DAILY" by { assert c[|c| - 6..][0] == 'D'; }
    }
    var d := "SPX";
    assert !HasIntervalSuffix(d) by {
      assert d[|d| - 1] == 'X';
    }
  }

  // ---------------------------------------------------------------------------
  // Reading the market
  // ---------------------------------------------------------------------------

  /** A `tracked_markets` row; a price or time that is NULL (or not finite) is None. */
  datatype TrackedMarket = TrackedMarket(id: int, assetName: Option<string>, initialUpPrice: Option<real>,
                                         initialDownPrice: Option<real>, endTime: Option<real>, outcome: Option<string>)

  /** The latest `market_snapshots` row of a market. */
  datatype Snapshot = Snapshot(upPrice: Option<real>, downPrice: Option<real>, timeRemainingSeconds: Option<real>)

  /** `_getCandles(assetName, candleInterval)` given the query's newest-first rows: oldest first, None without a name. */
  function GetCandles(assetName: Option<string>, newestFirst: seq<Candle>): (r: Option<seq<Candle>>)
    ensures r.None? <==> assetName.None? || assetName.value == ""
    ensures r.Some? ==> r.value == Reverse(newestFirst)
  {
    if assetName.None? || assetName.value == "" then None else Some(Reverse(newestFirst))
  }

  /** Rows ordered by timestamp descending come out ascending, as the indicators expect. */
  lemma GetCandlesAscending(assetName: string, newestFirst: seq<Candle>)
    requires assetName != ""
    requires forall i, j :: 0 <= i < j < |newestFirst| ==> newestFirst[i].timestamp > newestFirst[j].timestamp
    ensures var r := GetCandles(Some(assetName), newestFirst).value;
            forall i, j :: 0 <= i < j < |r| ==> r[i].timestamp < r[j].timestamp
  {
  }

  /** The first of two readings that is finite. */
  function FirstFinite(a: Option<real>, b: Option<real>): Option<real>
  {
    if a.Some? then a else b
  }

  /** The prices `_getMarketPrices` settles on, side by side: the first known reading, else 1 minus the other side. */
  function QuoteFor(market: TrackedMarket, snapshot: Option<Snapshot>): Option<Quote>
  {
    var up := FirstFinite(if snapshot.Some? then snapshot.value.upPrice else None, market.initialUpPrice);
    var down := FirstFinite(if snapshot.Some? then snapshot.value.downPrice else None, market.initialDownPrice);
    if up.None? && down.None? then None
    else if down.None? then Some(Quote(up, Some(1.0 - up.value)))
    else if up.None? then Some(Quote(Some(1.0 - down.value), down))
    else Some(Quote(up, down))
  }

  /**
   * `_getMarketPrices(market, snapshot)`: each side from the snapshot, else
   * from the market's initial price; a side still missing is 1 minus the
   * other; None when neither side is known.
   */
  method GetMarketPrices(market: TrackedMarket, snapshot: Option<Snapshot>) returns (prices: Option<Quote>)
    ensures prices == QuoteFor(market, snapshot)
    ensures var up := FirstFinite(if snapshot.Some? then snapshot.value.upPrice else None, market.initialUpPrice);
            var down := FirstFinite(if snapshot.Some? then snapshot.value.downPrice else None, market.initialDownPrice);
            && (prices.None? <==> up.None? && down.None?)
            && (prices.Some? ==> prices.value.up.Some? && prices.value.down.Some?)
            && (prices.Some? && up.Some? ==> prices.value.up == up)
            && (prices.Some? && down.Some? ==> prices.value.down == down)
            && (prices.Some? && (up.None? || down.None?) ==> prices.value.up.value + prices.value.down.value == 1.0)
  {
    var upPrice := if snapshot.Some? then snapshot.value.upPrice else None;
    var downPrice := if snapshot.Some? then snapshot.value.downPrice else None;
    if upPrice.None? {
      upPrice := market.initialUpPrice;
    }
    if downPrice.None? {
      downPrice := market.initialDownPrice;
    }
    if upPrice.Some? && downPrice.None? {
      downPrice := Some(1.0 - upPrice.value);
    }
    if downPrice.Some? && upPrice.None? {
      upPrice := Some(1.0 - downPrice.value);
    }
    if upPrice.None? || downPrice.None? {
      return None;
    }
    prices := Some(Quote(upPrice, downPrice));
  }

  /**
   * `_getRemainingMinutes(market, snapshot)` at clock reading `now` (ms):
   * whole minutes, rounded up and at least 0, from the snapshot's remaining
   * seconds, else from the market's end time; None without either.
   */
  function RemainingMinutes(market: TrackedMarket, snapshot: Option<Snapshot>, now: int): (r: Option<int>)
    ensures r.Some? ==> r.value >= 0
    ensures snapshot.Some? && snapshot.value.timeRemainingSeconds.Some? ==>
              var seconds := snapshot.value.timeRemainingSeconds.value;
              && r.Some? && r.value as real * 60.0 >= seconds
              && (r.value > 0 ==> (r.value - 1) as real * 60.0 < seconds)
    ensures !(snapshot.Some? && snapshot.value.timeRemainingSeconds.Some?) ==>
              && (r.None? <==> market.endTime.None?)
              && (r.Some? ==> var left := market.endTime.value - now as real;
                              && r.value as real * 60000.0 >= left
                              && (r.value > 0 ==> (r.value - 1) as real * 60000.0 < left))
  {
    if snapshot.Some? && snapshot.value.timeRemainingSeconds.Some? then
      Some(MinutesUp(snapshot.value.timeRemainingSeconds.value, 60.0))
    else if market.endTime.None? then None
    else Some(MinutesUp(market.endTime.value - now as real, 60000.0))
  }

  /** `Math.max(0, Math.ceil(amount / unit))`: the fewest whole units covering a non-negative amount. */
  function MinutesUp(amount: real, unit: real): (r: int)
    requires unit > 0.0
    ensures r >= 0 && r as real * unit >= amount
    ensures r > 0 ==> (r - 1) as real * unit < amount
  {
    var c := Ceil(amount / unit);
    UnitsCover(amount, unit, c);
    if c >= 0 then c else 0
  }

  /** The whole number of units just above `amount / unit` covers the amount, and one unit fewer does not. */
  lemma UnitsCover(amount: real, unit: real, c: int)
    requires unit > 0.0 && (c - 1) as real < amount / unit <= c as real
    ensures c as real * unit >= amount && (c - 1) as real * unit < amount
  {
    var q := amount / unit;
    assert q * unit == amount;
    assert (c as real - q) * unit >= 0.0;
    assert (q - (c - 1) as real) * unit > 0.0;
  }

  // ---------------------------------------------------------------------------
  // The service
  // ---------------------------------------------------------------------------

  /** No two rows of the table are trades on the same market. */
  ghost predicate OneTradePerMarket(rows: seq<TradeRow>)
  {
    forall i, j :: 0 <= i < j < |rows| ==> rows[i].marketId != rows[j].marketId
  }

  /** `selectMarketTradeStmt.get(marketId)` finds a row. */
  predicate HasTrade(rows: seq<TradeRow>, marketId: int)
  {
    exists i :: 0 <= i < |rows| && rows[i].marketId == marketId
  }

  /** Some market of the list has this id. */
  predicate IsMarket(markets: seq<TrackedMarket>, id: int)
  {
    exists k :: 0 <= k < |markets| && markets[k].id == id
  }

  /** A recorded trade bought its shares with its stake at a price strictly inside (0, 1). */
  ghost predicate WellPriced(row: TradeRow)
  {
    row.entryPrice.Some? && 0.0 < row.entryPrice.value < 1.0 && row.shares * row.entryPrice.value == row.stake
  }

  /** The market outcome the settlement query joins to a trade: that of the first market with the trade's id. */
  function MarketOutcome(markets: seq<TrackedMarket>, marketId: int): Option<string>
  {
    if |markets| == 0 then None
    else if markets[0].id == marketId then markets[0].outcome
    else MarketOutcome(markets[1..], marketId)
  }

  /**
   * A row after `_updateResolvedTrades()`: a pending trade whose market has
   * a non-empty outcome is settled; every other row is left as it was.
   */
  function Resolved(row: TradeRow, markets: seq<TrackedMarket>, now: int): TradeRow
  {
    var outcome := MarketOutcome(markets, row.marketId);
    if row.outcome.None? && outcome.Some? && outcome.value != "" then
      var s := Settle(row, outcome.value);
      row.(outcome := Some(s.outcome), pnl := Some(s.pnl), exitPrice := Some(s.exitPrice), resolvedAt := Some(now))
    else row
  }

  /**
   * Settling is final: a trade already settled is never touched again, and
   * a well-priced trade settles with a finite profit and loss equal to its
   * shares times the exit price, less its stake.
   */
  lemma ResolvedFacts(row: TradeRow, markets: seq<TrackedMarket>, now: int)
    ensures row.outcome.Some? ==> Resolved(row, markets, now) == row
    ensures Resolved(row, markets, now).id == row.id && Resolved(row, markets, now).marketId == row.marketId
    ensures WellPriced(row) && Resolved(row, markets, now).outcome != row.outcome ==>
              var r := Resolved(row, markets, now);
              r.pnl.Some? && r.pnl.value.Finite? && row.stake + r.pnl.value.v == row.shares * r.exitPrice.value
  {
    var outcome := MarketOutcome(markets, row.marketId);
    if WellPriced(row) && row.outcome.None? && outcome.Some? && outcome.value != "" {
      SettlementPaysShares(row, outcome.value);
    }
  }

  /** `candleIntervalMap.get(market.asset_name)` */
  function IntervalOf(intervals: map<string, Option<string>>, market: TrackedMarket): Option<string>
  {
    if market.assetName.Some? && market.assetName.value in intervals then intervals[market.assetName.value]
    else None
  }

  /** What one `_poll()` reads besides the markets: the snapshot and candle queries, the random draws and the clock. */
  datatype PollQueries = PollQueries(snapshots: int -> Option<Snapshot>, candleRows: (string, string) -> seq<Candle>,
                                     draws: nat -> RandomDraw, now: int, elapsedMs: int)

  /**
   * The steps of `_poll()` for one market up to the decision: None when the
   * market is skipped for want of a candle interval, candles or prices,
   * otherwise what `decide` returns for the engine's configuration and models.
   */
  function MarketDecision(intervals: map<string, Option<string>>, config: EngineConfig, models: seq<Model>,
                          q: PollQueries, market: TrackedMarket): Option<Decision>
    requires AllWellConfigured(models)
  {
    var candleInterval := IntervalOf(intervals, market);
    if candleInterval.None? || candleInterval.value == "" then None
    else
      var assetName := NormalizeAssetName(market.assetName);
      var candles := if assetName.Some? then GetCandles(assetName, q.candleRows(assetName.value, candleInterval.value))
                     else None;
      if candles.None? || |candles.value| == 0 then None
      else
        var snapshot := q.snapshots(market.id);
        var marketPrices := QuoteFor(market, snapshot);
        if marketPrices.None? then None
        else
          var minutes := RemainingMinutes(market, snapshot, q.now);
          var remainingMinutes := if minutes.Some? then Some(minutes.value as real) else None;
          Some(DecisionFor(config, models, candles, marketPrices, remainingMinutes, q.draws, q.now, q.elapsedMs))
  }

  /** A decision that is reached and says to trade. */
  predicate Trades(decision: Option<Decision>)
  {
    decision.Some? && decision.value.shouldTrade
  }

  /**
   * A market the pass decides on has a non-empty candle interval, and a
   * decision to trade names an entry price strictly inside (0, 1) and a
   * stake of at most `maxStake` (positive when that is), so the trade it
   * records is well priced.
   */
  lemma MarketDecisionFacts(intervals: map<string, Option<string>>, config: EngineConfig, models: seq<Model>,
                            q: PollQueries, market: TrackedMarket)
    requires AllWellConfigured(models)
    ensures var d := MarketDecision(intervals, config, models, q, market);
            && (d.Some? ==> IntervalOf(intervals, market).Some? && IntervalOf(intervals, market).value != "")
            && (Trades(d) ==>
                  && d.value.entryPrice.Some? && 0.0 < d.value.entryPrice.value < 1.0
                  && d.value.stake <= config.maxStake && (config.maxStake > 0.0 ==> d.value.stake > 0.0)
                  && forall id, rowId, now :: WellPriced(Stored(TradeFor(id, d.value), rowId, now)))
  {
    var d := MarketDecision(intervals, config, models, q, market);
    if d.Some? {
      var candleInterval := IntervalOf(intervals, market);
      var assetName := NormalizeAssetName(market.assetName);
      var candles := if assetName.Some? then GetCandles(assetName, q.candleRows(assetName.value, candleInterval.value))
                     else None;
      var snapshot := q.snapshots(market.id);
      var marketPrices := QuoteFor(market, snapshot);
      var minutes := RemainingMinutes(market, snapshot, q.now);
      var remainingMinutes := if minutes.Some? then Some(minutes.value as real) else None;
      TradingDecisionFacts(config, models, candles, marketPrices, remainingMinutes, q.draws, q.now, q.elapsedMs);
    }
  }

  /** The trades table as the market pass leaves it: its rows, its next id, and whether the pass ran to the end. */
  datatype Ledger = Ledger(rows: seq<TradeRow>, nextId: nat, completed: bool)

  /**
   * One market of the pass: a decision to trade on a market without a trade
   * appends the row `recordTrade` stores for it, except that a market id of
   * 0 makes `recordTrade` throw, which ends the pass. Once ended, nothing
   * more happens.
   */
  function PollStep(l: Ledger, marketId: int, decision: Option<Decision>, now: int): Ledger
  {
    if !l.completed || !Trades(decision) || HasTrade(l.rows, marketId) then l
    else if marketId == 0 then l.(completed := false)
    else Ledger(l.rows + [Stored(TradeFor(marketId, decision.value), l.nextId, now)], l.nextId + 1, true)
  }

  /** The market pass over `markets`, in order, from the table `start`, given the decision reached for each market. */
  function PassLedger(markets: seq<TrackedMarket>, decisions: seq<Option<Decision>>, now: int, start: Ledger): Ledger
    requires |decisions| == |markets|
    decreases |markets|
  {
    if |markets| == 0 then start
    else
      var n := |markets| - 1;
      PollStep(PassLedger(markets[..n], decisions[..n], now, start), markets[n].id, decisions[n], now)
  }

  /** The decision `_poll()` reaches for each market of the list. */
  function Decisions(intervals: map<string, Option<string>>, config: EngineConfig, models: seq<Model>,
                     q: PollQueries, markets: seq<TrackedMarket>): (r: seq<Option<Decision>>)
    requires AllWellConfigured(models)
    ensures |r| == |markets|
  {
    seq(|markets|, k requires 0 <= k < |markets| => MarketDecision(intervals, config, models, q, markets[k]))
  }

  /** The market pass of `_poll()` over `markets`, in order, from the table `start`. */
  function PollLedger(intervals: map<string, Option<string>>, config: EngineConfig, models: seq<Model>,
                      q: PollQueries, markets: seq<TrackedMarket>, start: Ledger): Ledger
    requires AllWellConfigured(models)
  {
    PassLedger(markets, Decisions(intervals, config, models, q, markets), q.now, start)
  }

  /** Once the pass has ended on a market, the later markets change nothing. */
  lemma {:induction false} PollLedgerHalted(markets: seq<TrackedMarket>, decisions: seq<Option<Decision>>, now: int,
                                            k: nat, start: Ledger)
    requires |decisions| == |markets| && k <= |markets|
    requires !PassLedger(markets[..k], decisions[..k], now, start).completed
    ensures PassLedger(markets, decisions, now, start) == PassLedger(markets[..k], decisions[..k], now, start)
  {
    if k < |markets| {
      var n := |markets| - 1;
      assert markets[..n][..k] == markets[..k] && decisions[..n][..k] == decisions[..k];
      PollLedgerHalted(markets[..n], decisions[..n], now, k, start);
    } else {
      assert markets[..k] == markets && decisions[..k] == decisions;
    }
  }

  /**
   * What the market pass records: the earlier rows stay as they were, and
   * each row it adds is the `recordTrade` row, under the next id, of a
   * polled market whose decision is to trade and which had no trade in the
   * table before; the pass ends early only on a market id of 0.
   */
  lemma {:induction false} PollLedgerRecords(markets: seq<TrackedMarket>, decisions: seq<Option<Decision>>, now: int,
                                             start: Ledger)
    requires |decisions| == |markets| && start.completed
    ensures var l := PassLedger(markets, decisions, now, start);
            && |start.rows| <= |l.rows| && l.rows[..|start.rows|] == start.rows
            && l.nextId == start.nextId + (|l.rows| - |start.rows|)
            && (!l.completed ==> IsMarket(markets, 0))
            && forall i :: |start.rows| <= i < |l.rows| ==>
                 && !HasTrade(start.rows, l.rows[i].marketId)
                 && exists k :: 0 <= k < |markets| && markets[k].id == l.rows[i].marketId && Trades(decisions[k])
                                && l.rows[i] == Stored(TradeFor(markets[k].id, decisions[k].value),
                                                       start.nextId + (i - |start.rows|), now)
  {
    if |markets| > 0 {
      var n := |markets| - 1;
      var front, ds := markets[..n], decisions[..n];
      var before := PassLedger(front, ds, now, start);
      PollLedgerRecords(front, ds, now, start);
      var l := PassLedger(markets, decisions, now, start);
      if !before.completed {
        assert IsMarket(front, 0);
        var k :| 0 <= k < |front| && front[k].id == 0;
        assert markets[k] == front[k];
      } else if !l.completed {
        assert markets[n].id == 0;
      }
      forall i | |start.rows| <= i < |l.rows|
        ensures !HasTrade(start.rows, l.rows[i].marketId)
        ensures exists k :: 0 <= k < |markets| && markets[k].id == l.rows[i].marketId && Trades(decisions[k])
                            && l.rows[i] == Stored(TradeFor(markets[k].id, decisions[k].value),
                                                   start.nextId + (i - |start.rows|), now)
      {
        if i < |before.rows| {
          assert l.rows[i] == before.rows[i];
          var k :| 0 <= k < |front| && front[k].id == before.rows[i].marketId && Trades(ds[k])
                   && before.rows[i] == Stored(TradeFor(front[k].id, ds[k].value), start.nextId + (i - |start.rows|), now);
          assert markets[k] == front[k] && decisions[k] == ds[k];
        } else {
          assert i == |before.rows|;
          assert forall j :: 0 <= j < |start.rows| ==> before.rows[j] == start.rows[j];
        }
      }
      assert forall i :: |start.rows| <= i < |l.rows| ==> !HasTrade(start.rows, l.rows[i].marketId);
    }
  }

  /** The pass keeps the table at most one trade per market: it records only for a market without a trade. */
  lemma {:induction false} PollLedgerOneTrade(markets: seq<TrackedMarket>, decisions: seq<Option<Decision>>, now: int,
                                              start: Ledger)
    requires |decisions| == |markets| && OneTradePerMarket(start.rows)
    ensures OneTradePerMarket(PassLedger(markets, decisions, now, start).rows)
  {
    if |markets| > 0 {
      var n := |markets| - 1;
      var before := PassLedger(markets[..n], decisions[..n], now, start);
      PollLedgerOneTrade(markets[..n], decisions[..n], now, start);
      var l := PassLedger(markets, decisions, now, start);
      if |l.rows| > |before.rows| {
        var id := l.rows[|before.rows|].marketId;
        assert !HasTrade(before.rows, id);
        assert forall i :: 0 <= i < |before.rows| ==> l.rows[i] == before.rows[i];
      }
    }
  }

  /**
   * A pass that runs to the end leaves a trade on every polled market whose
   * decision is to trade: the one it recorded, or the one the market had.
   */
  lemma {:induction false} PollLedgerCovers(markets: seq<TrackedMarket>, decisions: seq<Option<Decision>>, now: int,
                                            start: Ledger)
    requires |decisions| == |markets|
    ensures var l := PassLedger(markets, decisions, now, start);
            l.completed ==> forall k :: 0 <= k < |markets| && Trades(decisions[k]) ==> HasTrade(l.rows, markets[k].id)
  {
    if |markets| > 0 {
      var n := |markets| - 1;
      var front, ds := markets[..n], decisions[..n];
      var before := PassLedger(front, ds, now, start);
      PollLedgerCovers(front, ds, now, start);
      var l := PassLedger(markets, decisions, now, start);
      if l.completed {
        assert before.completed;
        assert forall i :: 0 <= i < |before.rows| ==> l.rows[i] == before.rows[i];
        forall k | 0 <= k < |markets| && Trades(decisions[k])
          ensures HasTrade(l.rows, markets[k].id)
        {
          if k < n {
            assert markets[k] == front[k] && decisions[k] == ds[k];
            var j :| 0 <= j < |before.rows| && before.rows[j].marketId == front[k].id;
            assert l.rows[j] == before.rows[j];
          } else if !HasTrade(before.rows, markets[n].id) {
            assert l.rows[|before.rows|].marketId == markets[n].id;
          } else {
            var j :| 0 <= j < |before.rows| && before.rows[j].marketId == markets[n].id;
            assert l.rows[j] == before.rows[j];
          }
        }
      }
    }
  }

  /**
   * The facts the market pass of `_poll()` guarantees: the table keeps at
   * most one trade per market and its earlier rows; every row added is a
   * pending, well-priced trade on a polled market that had no trade; the
   * pass ends early only on a market id of 0; and a pass that runs to the
   * end leaves a trade on every market whose decision is to trade.
   */
  lemma PollLedgerFacts(intervals: map<string, Option<string>>, config: EngineConfig, models: seq<Model>,
                        q: PollQueries, markets: seq<TrackedMarket>, start: Ledger)
    requires AllWellConfigured(models) && OneTradePerMarket(start.rows) && start.completed
    ensures var l := PollLedger(intervals, config, models, q, markets, start);
            && OneTradePerMarket(l.rows)
            && (!l.completed ==> IsMarket(markets, 0))
            && |start.rows| <= |l.rows| && l.rows[..|start.rows|] == start.rows
            && (forall i :: |start.rows| <= i < |l.rows| ==>
                  && WellPriced(l.rows[i]) && l.rows[i].outcome.None?
                  && IsMarket(markets, l.rows[i].marketId) && !HasTrade(start.rows, l.rows[i].marketId))
            && (l.completed ==>
                  forall k :: 0 <= k < |markets| && Trades(MarketDecision(intervals, config, models, q, markets[k])) ==>
                                HasTrade(l.rows, markets[k].id))
  {
    var ds := Decisions(intervals, config, models, q, markets);
    var l := PassLedger(markets, ds, q.now, start);
    PollLedgerRecords(markets, ds, q.now, start);
    PollLedgerOneTrade(markets, ds, q.now, start);
    PollLedgerCovers(markets, ds, q.now, start);
    forall i | |start.rows| <= i < |l.rows|
      ensures WellPriced(l.rows[i]) && l.rows[i].outcome.None? && IsMarket(markets, l.rows[i].marketId)
    {
      var k :| 0 <= k < |markets| && markets[k].id == l.rows[i].marketId && Trades(ds[k])
               && l.rows[i] == Stored(TradeFor(markets[k].id, ds[k].value), start.nextId + (i - |start.rows|), q.now);
      MarketDecisionFacts(intervals, config, models, q, markets[k]);
    }
  }

  class PaperTraderService {
    const engine: DecisionEngine
    const recorder: TradeRecorder
    const checker: ResultChecker
    const candleIntervals: map<string, Option<string>>

    ghost predicate Valid()
      reads this, engine, engine.evaluator, recorder, recorder.table, checker
    {
      && engine.Valid() && recorder.table.Valid() && checker.table == recorder.table
    }

    /**
     * The service as `start()` sets it up: a default decision engine, a
     * recorder and a checker over the same trades table, and the candle
     * interval map of the configured markets.
     */
    constructor (table: PaperTradesTable, intervals: map<string, Option<string>>)
      requires table.Valid()
      ensures Valid() && recorder.table == table && candleIntervals == intervals
      ensures engine.config == DefaultEngineConfig && engine.evaluator.models == DefaultModels
      ensures fresh(engine) && fresh(engine.evaluator) && fresh(recorder) && fresh(checker)
    {
      engine := new DecisionEngine(DefaultEngineConfig);
      recorder := new TradeRecorder(table);
      checker := new ResultChecker(table);
      candleIntervals := intervals;
    }

    /**
     * The steps of `_poll()` for one market up to the decision, as
     * `MarketDecision` gives them: None when the market is skipped for want
     * of a candle interval, candles or prices. A decision to trade always
     * names an entry price strictly inside (0, 1) and a stake of at most the
     * engine's `maxStake` (positive when that is).
     */
    method DecideMarket(market: TrackedMarket, snapshots: int -> Option<Snapshot>, candleRows: (string, string) -> seq<Candle>,
                        draws: nat -> RandomDraw, now: int, elapsedMs: int) returns (decision: Option<Decision>)
      requires Valid()
      modifies engine.evaluator
      ensures Valid() && engine.evaluator.models == old(engine.evaluator.models)
      ensures decision == MarketDecision(candleIntervals, engine.config, engine.evaluator.models,
                                         PollQueries(snapshots, candleRows, draws, now, elapsedMs), market)
      ensures decision.Some? ==> IntervalOf(candleIntervals, market).Some? && IntervalOf(candleIntervals, market).value != ""
      ensures decision.Some? && decision.value.shouldTrade ==>
                && decision.value.entryPrice.Some? && 0.0 < decision.value.entryPrice.value < 1.0
                && decision.value.stake <= engine.config.maxStake
                && (engine.config.maxStake > 0.0 ==> decision.value.stake > 0.0)
    {
      MarketDecisionFacts(candleIntervals, engine.config, engine.evaluator.models,
                          PollQueries(snapshots, candleRows, draws, now, elapsedMs), market);
      var candleInterval := IntervalOf(candleIntervals, market);
      if candleInterval.None? || candleInterval.value == "" {
        return None;
      }
      var assetName := NormalizeAssetName(market.assetName);
      var candles := if assetName.Some? then GetCandles(assetName, candleRows(assetName.value, candleInterval.value))
                     else None;
      if candles.None? || |candles.value| == 0 {
        return None;
      }
      var snapshot := snapshots(market.id);
      var marketPrices := GetMarketPrices(market, snapshot);
      if marketPrices.None? {
        return None;
      }
      var minutes := RemainingMinutes(market, snapshot, now);
      var remainingMinutes := if minutes.Some? then Some(minutes.value as real) else None;
      var d := engine.Decide(candles, marketPrices, remainingMinutes, draws, now, elapsedMs);
      decision := Some(d);
    }

    /**
     * The per-market loop of `_poll()` over the active markets: the table ends
     * as `PollLedger` says. A market without a candle interval, candles or
     * prices is skipped; otherwise the engine decides, and the decision's
     * trade is recorded exactly when the decision is to trade and the market
     * has no trade yet. `completed` is false when `recordTrade` throws (a
     * market id of 0), which ends the poll. Old rows are kept; every row added
     * is a pending, well-priced trade on a market that traded and had no
     * trade before; a completed pass leaves a trade on every market whose
     * decision is to trade; and the table keeps at most one trade per market.
     */
    method PollMarkets(markets: seq<TrackedMarket>, snapshots: int -> Option<Snapshot>,
                       candleRows: (string, string) -> seq<Candle>, draws: nat -> RandomDraw, now: int, elapsedMs: int)
      returns (completed: bool)
      requires Valid() && OneTradePerMarket(recorder.table.rows)
      modifies engine.evaluator, recorder.table
      ensures Valid() && OneTradePerMarket(recorder.table.rows)
      ensures engine.evaluator.models == old(engine.evaluator.models)
      ensures Ledger(recorder.table.rows, recorder.table.nextId, completed)
              == PollLedger(candleIntervals, engine.config, engine.evaluator.models,
                            PollQueries(snapshots, candleRows, draws, now, elapsedMs), markets,
                            Ledger(old(recorder.table.rows), old(recorder.table.nextId), true))
      ensures !completed ==> IsMarket(markets, 0)
      ensures |old(recorder.table.rows)| <= |recorder.table.rows|
      ensures recorder.table.rows[..|old(recorder.table.rows)|] == old(recorder.table.rows)
      ensures forall i :: |old(recorder.table.rows)| <= i < |recorder.table.rows| ==>
                && WellPriced(recorder.table.rows[i]) && recorder.table.rows[i].outcome.None?
                && IsMarket(markets, recorder.table.rows[i].marketId)
                && !HasTrade(old(recorder.table.rows), recorder.table.rows[i].marketId)
      ensures completed ==>
                forall k :: 0 <= k < |markets|
                            && Trades(MarketDecision(candleIntervals, engine.config, engine.evaluator.models,
                                                     PollQueries(snapshots, candleRows, draws, now, elapsedMs), markets[k])) ==>
                              HasTrade(recorder.table.rows, markets[k].id)
    {
      ghost var q := PollQueries(snapshots, candleRows, draws, now, elapsedMs);
      ghost var ds := Decisions(candleIntervals, engine.config, engine.evaluator.models, q, markets);
      ghost var start := Ledger(recorder.table.rows, recorder.table.nextId, true);
      var k := 0;
      completed := true;
      while k < |markets|
        invariant k <= |markets| && completed
        invariant Valid() && engine.evaluator.models == old(engine.evaluator.models)
        invariant PassLedger(markets[..k], ds[..k], now, start) == Ledger(recorder.table.rows, recorder.table.nextId, true)
      {
        var market := markets[k];
        ghost var before := Ledger(recorder.table.rows, recorder.table.nextId, true);
        assert markets[..k + 1][..k] == markets[..k] && markets[..k + 1][k] == market;
        assert ds[..k + 1][..k] == ds[..k];
        k := k + 1;
        var decision := DecideMarket(market, snapshots, candleRows, draws, now, elapsedMs);
        assert decision == ds[k - 1];
        assert PassLedger(markets[..k], ds[..k], now, start) == PollStep(before, market.id, decision, now);
        if decision.None? || !decision.value.shouldTrade {
          continue;
        }
        if HasTrade(recorder.table.rows, market.id) {
          continue;
        }
        var id := recorder.RecordTrade(Some(market.id), decision, now);
        if id.None? {
          PollLedgerHalted(markets, ds, now, k, start);
          completed := false;
          break;
        }
      }
      if completed {
        assert markets[..k] == markets && ds[..k] == ds;
      }
      PollLedgerFacts(candleIntervals, engine.config, engine.evaluator.models, q, markets, start);
    }

    /**
     * `_updateResolvedTrades()` against the tracked markets: each pending
     * trade whose market has an outcome is handed to the result checker,
     * which settles it unless the outcome is empty. Every row ends as
     * `Resolved` says; no row is added or removed.
     */
    method UpdateResolvedTrades(markets: seq<TrackedMarket>, now: int)
      requires Valid()
      modifies recorder.table
      ensures Valid() && |recorder.table.rows| == |old(recorder.table.rows)|
      ensures forall i :: 0 <= i < |recorder.table.rows| ==>
                recorder.table.rows[i] == Resolved(old(recorder.table.rows)[i], markets, now)
    {
      var trades := recorder.table.rows;
      var i := 0;
      while i < |trades|
        invariant i <= |trades|
        invariant Valid() && |recorder.table.rows| == |trades|
        invariant forall l :: 0 <= l < i ==> recorder.table.rows[l] == Resolved(trades[l], markets, now)
        invariant forall l :: i <= l < |trades| ==> recorder.table.rows[l] == trades[l]
      {
        var trade := trades[i];
        var outcome := MarketOutcome(markets, trade.marketId);
        if trade.outcome.None? && outcome.Some? {
          ghost var before := recorder.table.rows;
          assert forall l :: 0 <= l < |before| ==> before[l].id == trades[l].id;
          var _ := checker.CheckAndUpdate(Some(trade), outcome, now);
          assert forall l :: 0 <= l < |before| && l != i ==> before[l].id != trade.id;
        }
        i := i + 1;
      }
    }

    /**
     * One `_poll()`: the market pass, then, unless it was cut short, the
     * settlement pass. The table ends as the pass's ledger settled by
     * `Resolved`: rows that existed before are settled as `Resolved` says;
     * rows added are the well-priced trades of active markets that traded and
     * had none; a completed poll leaves a trade on every active market whose
     * decision is to trade; and there is still at most one trade per market.
     */
    method Poll(activeMarkets: seq<TrackedMarket>, trackedMarkets: seq<TrackedMarket>, snapshots: int -> Option<Snapshot>,
                candleRows: (string, string) -> seq<Candle>, draws: nat -> RandomDraw, now: int, elapsedMs: int)
      returns (completed: bool)
      requires Valid() && OneTradePerMarket(recorder.table.rows)
      modifies engine.evaluator, recorder.table
      ensures Valid() && OneTradePerMarket(recorder.table.rows)
      ensures engine.evaluator.models == old(engine.evaluator.models)
      ensures var l := PollLedger(candleIntervals, engine.config, engine.evaluator.models,
                                  PollQueries(snapshots, candleRows, draws, now, elapsedMs), activeMarkets,
                                  Ledger(old(recorder.table.rows), old(recorder.table.nextId), true));
              && completed == l.completed && |recorder.table.rows| == |l.rows|
              && forall i :: 0 <= i < |l.rows| ==>
                   recorder.table.rows[i] == if completed then Resolved(l.rows[i], trackedMarkets, now) else l.rows[i]
      ensures !completed ==> IsMarket(activeMarkets, 0)
      ensures |old(recorder.table.rows)| <= |recorder.table.rows|
      ensures forall i :: 0 <= i < |old(recorder.table.rows)| ==>
                recorder.table.rows[i] == if completed then Resolved(old(recorder.table.rows)[i], trackedMarkets, now)
                                          else old(recorder.table.rows)[i]
      ensures forall i :: |old(recorder.table.rows)| <= i < |recorder.table.rows| ==>
                && WellPriced(recorder.table.rows[i])
                && IsMarket(activeMarkets, recorder.table.rows[i].marketId)
                && !HasTrade(old(recorder.table.rows), recorder.table.rows[i].marketId)
      ensures completed ==>
                forall k :: 0 <= k < |activeMarkets|
                            && Trades(MarketDecision(candleIntervals, engine.config, engine.evaluator.models,
                                                     PollQueries(snapshots, candleRows, draws, now, elapsedMs), activeMarkets[k])) ==>
                              HasTrade(recorder.table.rows, activeMarkets[k].id)
    {
      ghost var rows0 := recorder.table.rows;
      completed := PollMarkets(activeMarkets, snapshots, candleRows, draws, now, elapsedMs);
      if !completed {
        return;
      }
      ghost var rows1 := recorder.table.rows;
      assert forall i :: 0 <= i < |rows0| ==> rows1[i] == rows0[i];
      assert forall i :: |rows0| <= i < |rows1| ==>
               WellPriced(rows1[i]) && IsMarket(activeMarkets, rows1[i].marketId) && !HasTrade(rows0, rows1[i].marketId);
      UpdateResolvedTrades(trackedMarkets, now);
      forall i | 0 <= i < |rows1|
        ensures recorder.table.rows[i].marketId == rows1[i].marketId
        ensures WellPriced(rows1[i]) ==> WellPriced(recorder.table.rows[i])
      {
        assert recorder.table.rows[i] == Resolved(rows1[i], trackedMarkets, now);
      }
    }
  }
}
