/**
 * Paper-trade bookkeeping (src/paper/trade-recorder.js): the `paper_trades`
 * table as an in-memory sequence of rows, and the recorder that inserts one
 * row per traded decision and answers the two queries the service uses.
 */
module TradeRecorder {
  import opened Numeric
  import opened BaseModel
  import opened DecisionEngine

  datatype TradeOutcome = Win | Loss

  /**
   * One `paper_trades` row. `id` and `createdAt` are assigned by the table;
   * `outcome`, `pnl`, `exitPrice` and `resolvedAt` stay NULL (None) until the
   * trade is settled. The serialised indicators are kept as the structure they
   * serialise.
   */
  datatype TradeRow = TradeRow(id: nat, marketId: int, modelName: Option<string>, direction: Option<Direction>,
                               entryPrice: Option<real>, shares: real, stake: real, confidence: real, edge: real,
                               indicators: DecisionInfo, outcome: Option<TradeOutcome>, pnl: Option<Ext>,
                               exitPrice: Option<real>, resolvedAt: Option<int>, createdAt: int)

  /** The named parameters of the INSERT statement. */
  datatype NewTrade = NewTrade(marketId: int, modelName: Option<string>, direction: Option<Direction>,
                               entryPrice: Option<real>, shares: real, stake: real, confidence: real, edge: real,
                               indicators: DecisionInfo)

  /** Row ids are positive, below the next id, and increase in insertion order (so they are unique). */
  ghost predicate IdsIncreasing(rows: seq<TradeRow>, nextId: nat)
  {
    && (forall i :: 0 <= i < |rows| ==> 1 <= rows[i].id < nextId)
    && (forall i, j :: 0 <= i < j < |rows| ==> rows[i].id < rows[j].id)
  }

  /** The row an INSERT of `t` stores under `id` at time `now`. */
  function Stored(t: NewTrade, id: nat, now: int): TradeRow
  {
    TradeRow(id, t.marketId, t.modelName, t.direction, t.entryPrice, t.shares, t.stake, t.confidence, t.edge,
             t.indicators, None, None, None, None, now)
  }

  /** The `paper_trades` table: its rows in insertion order and the next row id. */
  class PaperTradesTable {
    var rows: seq<TradeRow>
    var nextId: nat

    ghost predicate Valid()
      reads this
    {
      nextId >= 1 && IdsIncreasing(rows, nextId)
    }

    constructor ()
      ensures Valid() && rows == [] && nextId == 1
    {
      rows := [];
      nextId := 1;
    }

    /** INSERT: appends one unsettled row under a fresh id and returns that id. */
    method Insert(t: NewTrade, now: int) returns (id: nat)
      requires Valid()
      modifies this
      ensures Valid()
      ensures id == old(nextId) && nextId == id + 1
      ensures rows == old(rows) + [Stored(t, id, now)]
      ensures forall i :: 0 <= i < |old(rows)| ==> old(rows)[i].id != id
    {
      id := nextId;
      rows := rows + [Stored(t, id, now)];
      nextId := nextId + 1;
    }
  }

  /**
   * The parameters `recordTrade` binds for a decision: the decision's fields,
   * and the number of shares the stake buys at the entry price (0 when the
   * entry price is missing or not positive).
   */
  function TradeFor(marketId: int, d: Decision): (t: NewTrade)
    ensures t.marketId == marketId && t.modelName == d.modelName && t.direction == d.direction
    ensures t.entryPrice == d.entryPrice && t.stake == d.stake
    ensures t.confidence == d.confidence && t.edge == d.edge && t.indicators == d.indicators
    ensures d.entryPrice.Some? && d.entryPrice.value > 0.0 ==> t.shares * d.entryPrice.value == d.stake
    ensures !(d.entryPrice.Some? && d.entryPrice.value > 0.0) ==> t.shares == 0.0
  {
    var shares := if d.entryPrice.Some? && d.entryPrice.value > 0.0 then d.stake / d.entryPrice.value else 0.0;
    NewTrade(marketId, d.modelName, d.direction, d.entryPrice, shares, d.stake, d.confidence, d.edge, d.indicators)
  }

  /** A market id is falsy when it is missing or 0. */
  predicate Truthy(marketId: Option<int>)
  {
    marketId.Some? && marketId.value != 0
  }

  /** `getPendingTrades()`: the rows whose outcome is NULL, in table order. */
  function Pending(rows: seq<TradeRow>): (r: seq<TradeRow>)
    ensures |r| <= |rows|
  {
    if |rows| == 0 then []
    else if rows[|rows| - 1].outcome.None? then Pending(rows[..|rows| - 1]) + [rows[|rows| - 1]]
    else Pending(rows[..|rows| - 1])
  }

  /** A row is pending exactly when it is in the table and unsettled. */
  lemma {:induction false} PendingExactly(rows: seq<TradeRow>, x: TradeRow)
    ensures x in Pending(rows) <==> x in rows && x.outcome.None?
  {
    if |rows| > 0 {
      var front := rows[..|rows| - 1];
      assert rows == front + [rows[|rows| - 1]];
      PendingExactly(front, x);
    }
  }

  /** A freshly recorded row is pending: it joins the end of the pending list. */
  lemma RecordedIsPending(rows: seq<TradeRow>, t: NewTrade, id: nat, now: int)
    ensures Pending(rows + [Stored(t, id, now)]) == Pending(rows) + [Stored(t, id, now)]
  {
    assert (rows + [Stored(t, id, now)])[..|rows|] == rows;
  }

  /** The rows recorded by one model, in table order. */
  function OfModel(rows: seq<TradeRow>, modelName: string): (r: seq<TradeRow>)
    ensures |r| <= |rows|
  {
    if |rows| == 0 then []
    else if rows[|rows| - 1].modelName == Some(modelName) then OfModel(rows[..|rows| - 1], modelName) + [rows[|rows| - 1]]
    else OfModel(rows[..|rows| - 1], modelName)
  }

  function Reverse<T>(s: seq<T>): (r: seq<T>)
    ensures |r| == |s| && forall i :: 0 <= i < |s| ==> r[i] == s[|s| - 1 - i]
  {
    if |s| == 0 then [] else [s[|s| - 1]] + Reverse(s[..|s| - 1])
  }

  /**
   * `getTradesByModel(modelName)`: that model's rows, latest first.
   * `ORDER BY created_at DESC` leaves the order of equal `created_at` open;
   * the model puts the latest-inserted row first.
   */
  function ByModel(rows: seq<TradeRow>, modelName: string): seq<TradeRow>
  {
    Reverse(OfModel(rows, modelName))
  }

  /** A model's list holds exactly the table's rows recorded under that model's name. */
  lemma {:induction false} OfModelExactly(rows: seq<TradeRow>, modelName: string, x: TradeRow)
    ensures x in OfModel(rows, modelName) <==> x in rows && x.modelName == Some(modelName)
  {
    if |rows| > 0 {
      var front := rows[..|rows| - 1];
      assert rows == front + [rows[|rows| - 1]];
      OfModelExactly(front, modelName, x);
    }
  }

  /** Rows whose creation times never decrease along the table. */
  predicate CreatedInOrder(rows: seq<TradeRow>)
  {
    forall i, j :: 0 <= i < j < |rows| ==> rows[i].createdAt <= rows[j].createdAt
  }

  /** Keeping the rows of one model keeps creation order. */
  lemma {:induction false} OfModelInOrder(rows: seq<TradeRow>, modelName: string)
    requires CreatedInOrder(rows)
    ensures CreatedInOrder(OfModel(rows, modelName))
    ensures forall x :: x in OfModel(rows, modelName) ==> x in rows
  {
    if |rows| > 0 {
      var front := rows[..|rows| - 1];
      OfModelInOrder(front, modelName);
      var last := rows[|rows| - 1];
      forall x | x in OfModel(front, modelName)
        ensures x.createdAt <= last.createdAt
      {
        var k :| 0 <= k < |front| && front[k] == x;
      }
    }
  }

  /**
   * `getTradesByModel` returns exactly that model's rows, and when the clock
   * never went back while rows were inserted they are ordered by
   * `created_at` descending, as the query asks.
   */
  lemma ByModelFacts(rows: seq<TradeRow>, modelName: string)
    ensures forall x :: x in ByModel(rows, modelName) <==> x in rows && x.modelName == Some(modelName)
    ensures CreatedInOrder(rows) ==>
              forall i, j :: 0 <= i < j < |ByModel(rows, modelName)| ==>
                ByModel(rows, modelName)[i].createdAt >= ByModel(rows, modelName)[j].createdAt
  {
    var m := OfModel(rows, modelName);
    forall x
      ensures x in ByModel(rows, modelName) <==> x in rows && x.modelName == Some(modelName)
    {
      OfModelExactly(rows, modelName, x);
      assert x in Reverse(m) <==> x in m by {
        if x in m {
          var k :| 0 <= k < |m| && m[k] == x;
          assert Reverse(m)[|m| - 1 - k] == x;
        }
      }
    }
    if CreatedInOrder(rows) {
      OfModelInOrder(rows, modelName);
    }
  }

  class TradeRecorder {
    const table: PaperTradesTable

    constructor (table: PaperTradesTable)
      ensures this.table == table
    {
      this.table := table;
    }

    /**
     * `recordTrade(marketId, decision)`: None where the source throws (a
     * falsy market id or no decision); otherwise one row built from the
     * decision is appended and its id returned.
     */
    method RecordTrade(marketId: Option<int>, decision: Option<Decision>, now: int) returns (id: Option<nat>)
      requires table.Valid()
      modifies table
      ensures table.Valid()
      ensures id.None? <==> !Truthy(marketId) || decision.None?
      ensures id.None? ==> table.rows == old(table.rows) && table.nextId == old(table.nextId)
      ensures id.Some? ==> && id.value == old(table.nextId) && table.nextId == id.value + 1
                           && table.rows == old(table.rows) + [Stored(TradeFor(marketId.value, decision.value), id.value, now)]
    {
      if !Truthy(marketId) || decision.None? {
        return None;
      }
      var t := TradeFor(marketId.value, decision.value);
      var rowId := table.Insert(t, now);
      id := Some(rowId);
    }

    /** `getPendingTrades()` */
    function GetPendingTrades(): seq<TradeRow>
      reads table
    {
      Pending(table.rows)
    }

    /** `getTradesByModel(modelName)` */
    function GetTradesByModel(modelName: string): seq<TradeRow>
      reads table
    {
      ByModel(table.rows, modelName)
    }
  }

  /** `new TradeRecorder({ db })`: None where the source throws for a missing database. */
  method NewTradeRecorder(db: Option<PaperTradesTable>) returns (r: Option<TradeRecorder>)
    ensures r.Some? <==> db.Some?
    ensures r.Some? ==> fresh(r.value) && r.value.table == db.value
  {
    if db.None? {
      return None;
    }
    var recorder := new TradeRecorder(db.value);
    r := Some(recorder);
  }
}
