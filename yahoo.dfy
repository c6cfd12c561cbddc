/**
 * The pure parts of the Yahoo collector (src/collectors/yahoo.service.js):
 * which markets are fetched, and how a chart payload's parallel columns are
 * zipped into daily candle rows.
 */
module Yahoo {
  import opened Numeric
  import opened MarketsConfig
  import opened CandleRows

  /** The markets of `getMarketsForDataSource('yahoo')` the poll fetches: those with a non-empty symbol, in order. */
  function MarketsToFetch(markets: seq<SourceMarket>): (r: seq<SourceMarket>)
    ensures |r| <= |markets|
  {
    if |markets| == 0 then []
    else
      var last := markets[|markets| - 1];
      MarketsToFetch(markets[..|markets| - 1])
      + (if last.market.symbol.Some? && last.market.symbol.value != "" then [last] else [])
  }

  /** A market is fetched exactly when it is listed and has a non-empty symbol. */
  lemma {:induction false} MarketsToFetchExactly(markets: seq<SourceMarket>, m: SourceMarket)
    ensures m in MarketsToFetch(markets) <==> m in markets && m.market.symbol.Some? && m.market.symbol.value != ""
  {
    if |markets| > 0 {
      var front := markets[..|markets| - 1];
      assert markets == front + [markets[|markets| - 1]];
      MarketsToFetchExactly(front, m);
    }
  }

  /** `quote.open`, `quote.high`, ... as received; a missing quote object reads as `{}`. */
  datatype QuoteColumns = QuoteColumns(open: Raw, high: Raw, low: Raw, close: Raw, volume: Raw)

  /** `payload.chart.result[0]`: its `timestamp` column and `indicators.quote[0]`. */
  datatype ChartResult = ChartResult(timestamp: Raw, quote: Option<QuoteColumns>)

  /** The five columns after the defaults: a column that is not an array is empty. */
  datatype Columns = Columns(open: seq<Raw>, high: seq<Raw>, low: seq<Raw>, close: seq<Raw>, volume: seq<Raw>)

  function ColumnsOf(quote: Option<QuoteColumns>): Columns
  {
    if quote.None? then Columns([], [], [], [], [])
    else
      var q := quote.value;
      Columns(ArrayOrEmpty(q.open), ArrayOrEmpty(q.high), ArrayOrEmpty(q.low), ArrayOrEmpty(q.close), ArrayOrEmpty(q.volume))
  }

  /**
   * The row for index i, as written: every cell goes through `Number(...)`,
   * so a null cell reads as 0 and passes the finiteness check, while a cell
   * past the end of its column is undefined and rejects the row.
   */
  function ChartRow(name: string, timestamps: seq<Raw>, columns: Columns, i: nat): Option<CandleRow>
  {
    var tsSeconds := ToNumber(At(timestamps, i));
    var open := ToNumber(At(columns.open, i));
    var high := ToNumber(At(columns.high, i));
    var low := ToNumber(At(columns.low, i));
    var close := ToNumber(At(columns.close, i));
    if tsSeconds.None? then None
    else if open.None? || high.None? || low.None? || close.None? then None
    else Some(CandleRow(name, "yahoo", "1d", tsSeconds.value * 1000.0, open.value, high.value, low.value, close.value,
                        ToNumber(At(columns.volume, i))))
  }

  /** The rows stored for the first k timestamps. */
  function ChartRowsTo(name: string, timestamps: seq<Raw>, columns: Columns, k: nat): seq<CandleRow>
    requires k <= |timestamps|
  {
    if k == 0 then []
    else
      var row := ChartRow(name, timestamps, columns, k - 1);
      ChartRowsTo(name, timestamps, columns, k - 1) + (if row.Some? then [row.value] else [])
  }

  /**
   * The insert loop over one market's chart payload: one candidate row per
   * timestamp, the other columns read at the same index.
   */
  method ConvertChart(name: string, result: Option<ChartResult>) returns (rows: seq<CandleRow>)
    ensures result.None? ==> rows == []
    ensures result.Some? ==>
              var timestamps := ArrayOrEmpty(result.value.timestamp);
              rows == ChartRowsTo(name, timestamps, ColumnsOf(result.value.quote), |timestamps|)
  {
    rows := [];
    if result.None? {
      return;
    }
    var timestamps := ArrayOrEmpty(result.value.timestamp);
    var columns := ColumnsOf(result.value.quote);
    var i := 0;
    while i < |timestamps|
      invariant i <= |timestamps|
      invariant rows == ChartRowsTo(name, timestamps, columns, i)
    {
      var tsSeconds := ToNumber(timestamps[i]);
      var open := ToNumber(At(columns.open, i));
      var high := ToNumber(At(columns.high, i));
      var low := ToNumber(At(columns.low, i));
      var close := ToNumber(At(columns.close, i));
      var volume := ToNumber(At(columns.volume, i));
      if tsSeconds.Some? && open.Some? && high.Some? && low.Some? && close.Some? {
        rows := rows + [CandleRow(name, "yahoo", "1d", tsSeconds.value * 1000.0, open.value, high.value, low.value,
                                  close.value, volume)];
      }
      i := i + 1;
    }
  }

  /**
   * Every stored row is a daily Yahoo candle of the market, at the index's
   * timestamp converted to milliseconds, with that index's readings; there
   * are never more rows than timestamps.
   */
  lemma {:induction false} ChartRowsExactly(name: string, timestamps: seq<Raw>, columns: Columns, k: nat, r: CandleRow)
    requires k <= |timestamps|
    ensures |ChartRowsTo(name, timestamps, columns, k)| <= k
    ensures r in ChartRowsTo(name, timestamps, columns, k) <==> exists i :: 0 <= i < k && ChartRow(name, timestamps, columns, i) == Some(r)
    ensures r in ChartRowsTo(name, timestamps, columns, k) ==>
              exists i :: 0 <= i < k && r.assetName == name && r.dataSource == "yahoo" && r.interval == "1d"
                          && ToNumber(timestamps[i]).Some? && r.timestamp == ToNumber(timestamps[i]).value * 1000.0
                          && ToNumber(At(columns.open, i)) == Some(r.open) && ToNumber(At(columns.close, i)) == Some(r.close)
                          && i < |columns.open| && i < |columns.high| && i < |columns.low| && i < |columns.close|
  {
    if k > 0 {
      ChartRowsExactly(name, timestamps, columns, k - 1, r);
      if r in ChartRowsTo(name, timestamps, columns, k) && r !in ChartRowsTo(name, timestamps, columns, k - 1) {
        assert ChartRow(name, timestamps, columns, k - 1) == Some(r);
      }
      if exists i :: 0 <= i < k && ChartRow(name, timestamps, columns, i) == Some(r) {
        var i :| 0 <= i < k && ChartRow(name, timestamps, columns, i) == Some(r);
        if i == k - 1 {
          assert r in ChartRowsTo(name, timestamps, columns, k);
        }
      }
    }
  }

  /**
   * As written, a day whose prices Yahoo reports as null is stored as a
   * candle with all prices (and the volume) 0, since `Number(null)` is 0.
   */
  lemma NullPricesStoredAsZero()
    ensures var columns := Columns([Null], [Null], [Null], [Null], [Null]);
            ChartRowsTo("SPX", [Num(1700000000.0)], columns, 1)
            == [CandleRow("SPX", "yahoo", "1d", 1700000000000.0, 0.0, 0.0, 0.0, 0.0, Some(0.0))]
  {
  }

  /** `Number(...)` restricted as the finiteness check evidently intends: a null cell is missing, not 0. */
  function ReadCell(x: Raw): (r: Option<real>)
    ensures x.Null? ==> r.None?
    ensures !x.Null? ==> r == ToNumber(x)
  {
    if x.Null? then None else ToNumber(x)
  }

  /** The row for index i when null cells count as missing: null prices skip the day and a null volume is stored as NULL. */
  function StrictChartRow(name: string, timestamps: seq<Raw>, columns: Columns, i: nat): Option<CandleRow>
  {
    var tsSeconds := ReadCell(At(timestamps, i));
    var open := ReadCell(At(columns.open, i));
    var high := ReadCell(At(columns.high, i));
    var low := ReadCell(At(columns.low, i));
    var close := ReadCell(At(columns.close, i));
    if tsSeconds.None? then None
    else if open.None? || high.None? || low.None? || close.None? then None
    else Some(CandleRow(name, "yahoo", "1d", tsSeconds.value * 1000.0, open.value, high.value, low.value, close.value,
                        ReadCell(At(columns.volume, i))))
  }

  function StrictChartRowsTo(name: string, timestamps: seq<Raw>, columns: Columns, k: nat): seq<CandleRow>
    requires k <= |timestamps|
  {
    if k == 0 then []
    else
      var row := StrictChartRow(name, timestamps, columns, k - 1);
      StrictChartRowsTo(name, timestamps, columns, k - 1) + (if row.Some? then [row.value] else [])
  }

  /** Cells without a null: no reading differs between the two conversions. */
  predicate NullFreeAt(timestamps: seq<Raw>, columns: Columns, i: nat)
  {
    && !At(timestamps, i).Null? && !At(columns.open, i).Null? && !At(columns.high, i).Null?
    && !At(columns.low, i).Null? && !At(columns.close, i).Null? && !At(columns.volume, i).Null?
  }

  /** On null-free payloads the corrected rows are those written today. */
  lemma {:induction false} StrictRowsAgree(name: string, timestamps: seq<Raw>, columns: Columns, k: nat)
    requires k <= |timestamps|
    requires forall i :: 0 <= i < k ==> NullFreeAt(timestamps, columns, i)
    ensures StrictChartRowsTo(name, timestamps, columns, k) == ChartRowsTo(name, timestamps, columns, k)
  {
    if k > 0 {
      StrictRowsAgree(name, timestamps, columns, k - 1);
      assert NullFreeAt(timestamps, columns, k - 1);
      assert StrictChartRow(name, timestamps, columns, k - 1) == ChartRow(name, timestamps, columns, k - 1);
    }
  }

  /**
   * With null cells treated as missing, no stored row takes a price from a
   * null cell, a row's volume is NULL whenever its volume cell is null, and
   * on payloads without nulls the rows are exactly those written today.
   */
  lemma {:induction false} StrictRowsSkipNulls(name: string, timestamps: seq<Raw>, columns: Columns, k: nat)
    requires k <= |timestamps|
    ensures forall r :: r in StrictChartRowsTo(name, timestamps, columns, k) ==>
              exists i :: 0 <= i < k && StrictChartRow(name, timestamps, columns, i) == Some(r)
                          && !At(columns.open, i).Null? && !At(columns.high, i).Null?
                          && !At(columns.low, i).Null? && !At(columns.close, i).Null?
                          && (At(columns.volume, i).Null? ==> r.volume.None?)
    ensures (forall i :: 0 <= i < k ==> NullFreeAt(timestamps, columns, i))
            ==> StrictChartRowsTo(name, timestamps, columns, k) == ChartRowsTo(name, timestamps, columns, k)
  {
    if k > 0 {
      StrictRowsSkipNulls(name, timestamps, columns, k - 1);
      var previous := StrictChartRowsTo(name, timestamps, columns, k - 1);
      forall r | r in StrictChartRowsTo(name, timestamps, columns, k)
        ensures exists i :: 0 <= i < k && StrictChartRow(name, timestamps, columns, i) == Some(r)
                            && !At(columns.open, i).Null? && !At(columns.high, i).Null?
                            && !At(columns.low, i).Null? && !At(columns.close, i).Null?
                            && (At(columns.volume, i).Null? ==> r.volume.None?)
      {
        if r !in previous {
          assert StrictChartRow(name, timestamps, columns, k - 1) == Some(r);
        }
      }
    }
    if forall i :: 0 <= i < k ==> NullFreeAt(timestamps, columns, i) {
      StrictRowsAgree(name, timestamps, columns, k);
    }
  }
}
