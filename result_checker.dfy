/**
 * Settlement of paper trades (src/paper/result-checker.js): once a market
 * resolves, the trade on it is marked a win or a loss, with its profit and
 * loss and its exit price, by an UPDATE of that one row.
 */
module ResultChecker {
  import opened Numeric
  import opened BaseModel
  import opened TradeRecorder

  /** The text a direction is stored as. */
  function DirectionText(d: Direction): string
  {
    match d
    case Up => "Up"
    case Down => "Down"
  }

  /** The values the UPDATE writes: outcome, profit and loss, exit price. */
  datatype Settlement = Settlement(outcome: TradeOutcome, pnl: Ext, exitPrice: real)

  /** A trade wins when its stored direction is exactly the market's outcome text. */
  predicate Won(trade: TradeRow, actualOutcome: string)
  {
    trade.direction.Some? && DirectionText(trade.direction.value) == actualOutcome
  }

  /**
   * `stake * ((1 / entryPrice) - 1)` in IEEE arithmetic: a zero entry price
   * makes the quotient +Infinity, so the product is +Infinity, NaN or
   * -Infinity by the sign of the stake.
   */
  function WinPnl(stake: real, entryPrice: real): (r: Ext)
    ensures entryPrice != 0.0 ==> r == Finite(stake * (1.0 / entryPrice - 1.0))
    ensures entryPrice == 0.0 ==> !r.Finite?
  {
    if entryPrice != 0.0 then Finite(stake * (1.0 / entryPrice - 1.0))
    else if stake > 0.0 then PosInf
    else if stake < 0.0 then NegInf
    else NaN
  }

  /** The settlement `checkAndUpdate` computes for a trade and the market's outcome text. */
  function Settle(trade: TradeRow, actualOutcome: string): Settlement
  {
    var stake := trade.stake;
    var entryPrice := trade.entryPrice.GetOr(0.0);
    if Won(trade, actualOutcome) then Settlement(Win, WinPnl(stake, entryPrice), 1.0)
    else Settlement(Loss, Finite(-stake), 0.0)
  }

  /**
   * A win pays one unit per share, a loss pays nothing; so for a row whose
   * shares were bought with its stake at a price in (0, 1), the stake plus
   * the profit and loss is always the shares times the exit price, a win
   * gains stake * (1 - p) / p > 0 and a loss loses exactly the stake.
   */
  lemma SettlementPaysShares(trade: TradeRow, actualOutcome: string)
    requires trade.entryPrice.Some? && 0.0 < trade.entryPrice.value < 1.0
    requires trade.shares * trade.entryPrice.value == trade.stake
    ensures var s := Settle(trade, actualOutcome);
            && (s.outcome == Win <==> Won(trade, actualOutcome))
            && s.pnl.Finite?
            && trade.stake + s.pnl.v == trade.shares * s.exitPrice
            && (s.outcome == Win ==>
                  s.exitPrice == 1.0 && s.pnl.v == trade.stake * (1.0 - trade.entryPrice.value) / trade.entryPrice.value)
            && (s.outcome == Loss ==> s.exitPrice == 0.0 && s.pnl.v == -trade.stake)
            && (trade.stake > 0.0 ==> (s.outcome == Win <==> s.pnl.v > 0.0))
  {
    WinPayout(trade.stake, trade.entryPrice.value, trade.shares);
    assert trade.entryPrice.GetOr(0.0) == trade.entryPrice.value;
  }

  /** At price p a stake buys stake / p shares; winning pays those shares one unit each. */
  lemma WinPayout(stake: real, p: real, shares: real)
    requires 0.0 < p < 1.0 && shares * p == stake
    ensures stake + stake * (1.0 / p - 1.0) == shares
    ensures stake * (1.0 / p - 1.0) == stake * (1.0 - p) / p
    ensures stake > 0.0 ==> stake * (1.0 / p - 1.0) > 0.0
  {
    assert shares == stake / p;
    assert stake * (1.0 / p - 1.0) == stake / p - stake;
    assert stake * (1.0 - p) / p == stake / p - stake;
    if stake > 0.0 {
      QuotientSign(stake * (1.0 - p), p);
    }
  }

  /** A trade settled at a zero entry price gets a non-finite profit and loss when it wins. */
  lemma ZeroEntryWinIsNotFinite(trade: TradeRow, actualOutcome: string)
    requires Won(trade, actualOutcome) && trade.entryPrice.GetOr(0.0) == 0.0
    ensures !Settle(trade, actualOutcome).pnl.Finite?
    ensures trade.stake > 0.0 ==> Settle(trade, actualOutcome).pnl == PosInf
  {
  }

  /** The rows after `UPDATE ... WHERE id = @id`: the row with that id gets the settlement, every other row stays. */
  function Apply(rows: seq<TradeRow>, id: nat, s: Settlement, resolvedAt: int): (r: seq<TradeRow>)
    ensures |r| == |rows|
    ensures forall i :: 0 <= i < |rows| ==>
              r[i] == if rows[i].id == id
                      then rows[i].(outcome := Some(s.outcome), pnl := Some(s.pnl), exitPrice := Some(s.exitPrice),
                                    resolvedAt := Some(resolvedAt))
                      else rows[i]
  {
    if |rows| == 0 then []
    else
      var row := rows[|rows| - 1];
      var updated := if row.id == id
                     then row.(outcome := Some(s.outcome), pnl := Some(s.pnl), exitPrice := Some(s.exitPrice),
                               resolvedAt := Some(resolvedAt))
                     else row;
      Apply(rows[..|rows| - 1], id, s, resolvedAt) + [updated]
  }

  /** The number of rows an UPDATE by id changes. */
  function Matching(rows: seq<TradeRow>, id: nat): (n: nat)
    ensures n <= |rows|
  {
    if |rows| == 0 then 0
    else Matching(rows[..|rows| - 1], id) + (if rows[|rows| - 1].id == id then 1 else 0)
  }

  /** With increasing ids an UPDATE by id changes at most one row, and exactly one when that id is stored. */
  lemma {:induction false} MatchingAtMostOne(rows: seq<TradeRow>, nextId: nat, id: nat)
    requires IdsIncreasing(rows, nextId)
    ensures Matching(rows, id) <= 1
    ensures Matching(rows, id) == 1 <==> exists i :: 0 <= i < |rows| && rows[i].id == id
  {
    if |rows| > 0 {
      var front := rows[..|rows| - 1];
      assert IdsIncreasing(front, nextId);
      MatchingAtMostOne(front, nextId, id);
      if rows[|rows| - 1].id == id {
        assert forall i :: 0 <= i < |front| ==> front[i].id != id;
      }
      if exists i :: 0 <= i < |rows| && rows[i].id == id {
        var i :| 0 <= i < |rows| && rows[i].id == id;
        if i < |front| {
          assert front[i].id == id;
        }
      }
    }
  }

  /** Settling never changes ids, so the table stays well formed. */
  lemma ApplyKeepsIds(rows: seq<TradeRow>, nextId: nat, id: nat, s: Settlement, resolvedAt: int)
    requires IdsIncreasing(rows, nextId)
    ensures IdsIncreasing(Apply(rows, id, s, resolvedAt), nextId)
    ensures forall i :: 0 <= i < |rows| ==> Apply(rows, id, s, resolvedAt)[i].id == rows[i].id
  {
  }

  /**
   * There is no guard against settling twice: settling a row again with the
   * same outcome leaves the same outcome, profit and loss and exit price,
   * and only the resolution time is the later one.
   */
  lemma ResettleOverwrites(rows: seq<TradeRow>, id: nat, s: Settlement, t1: int, t2: int)
    ensures Apply(Apply(rows, id, s, t1), id, s, t2) == Apply(rows, id, s, t2)
  {
    var once := Apply(rows, id, s, t1);
    assert forall i :: 0 <= i < |rows| ==> once[i].id == rows[i].id;
  }

  class ResultChecker {
    const table: PaperTradesTable

    constructor (table: PaperTradesTable)
      ensures this.table == table
    {
      this.table := table;
    }

    /**
     * `checkAndUpdate(trade, actualOutcome)`: None and no change for a missing
     * trade or an empty/missing outcome; otherwise the row with the trade's
     * id is settled and the number of changed rows returned.
     */
    method CheckAndUpdate(trade: Option<TradeRow>, actualOutcome: Option<string>, now: int) returns (changes: Option<nat>)
      requires table.Valid()
      modifies table
      ensures table.Valid() && table.nextId == old(table.nextId)
      ensures changes.None? <==> trade.None? || actualOutcome.None? || actualOutcome.value == ""
      ensures changes.None? ==> table.rows == old(table.rows)
      ensures changes.Some? ==>
                && table.rows == Apply(old(table.rows), trade.value.id, Settle(trade.value, actualOutcome.value), now)
                && changes.value == Matching(old(table.rows), trade.value.id)
                && changes.value <= 1
    {
      if trade.None? || actualOutcome.None? || actualOutcome.value == "" {
        return None;
      }
      var settlement := Settle(trade.value, actualOutcome.value);
      MatchingAtMostOne(table.rows, table.nextId, trade.value.id);
      ApplyKeepsIds(table.rows, table.nextId, trade.value.id, settlement, now);
      changes := Some(Matching(table.rows, trade.value.id));
      table.rows := Apply(table.rows, trade.value.id, settlement, now);
    }
  }

  /** `new ResultChecker({ db })`: None where the source throws for a missing database. */
  method NewResultChecker(db: Option<PaperTradesTable>) returns (r: Option<ResultChecker>)
    ensures r.Some? <==> db.Some?
    ensures r.Some? ==> fresh(r.value) && r.value.table == db.value
  {
    if db.None? {
      return None;
    }
    var checker := new ResultChecker(db.value);
    r := Some(checker);
  }
}
