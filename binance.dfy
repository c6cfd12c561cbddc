/**
 * The pure parts of the Binance collector (src/collectors/binance.service.js):
 * naming an asset after its trading pair, choosing the distinct symbols to
 * fetch, and turning a klines payload into candle rows.
 */
module Binance {
  import opened Numeric
  import opened MarketsConfig
  import opened CandleRows

  predicate EndsWith(s: string, suffix: string)
  {
    |suffix| <= |s| && s[|s| - |suffix|..] == suffix
  }

  /** `symbolToAsset(symbol)`: the symbol without a trailing "USDT", else without a trailing "USD". */
  function SymbolToAsset(symbol: string): (asset: string)
    ensures asset <= symbol
    ensures EndsWith(symbol, "USDT") ==> asset + "USDT" == symbol
    ensures !EndsWith(symbol, "USDT") && EndsWith(symbol, "USD") ==> asset + "USD" == symbol
    ensures !EndsWith(symbol, "USDT") && !EndsWith(symbol, "USD") ==> asset == symbol
  {
    if EndsWith(symbol, "USDT") then symbol[..|symbol| - 4]
    else if EndsWith(symbol, "USD") then symbol[..|symbol| - 3]
    else symbol
  }

  /**
   * Quoting an asset in USDT or in USD and naming the pair's asset gives the
   * asset back, whatever its name.
   */
  lemma SymbolToAssetRoundTrip(asset: string)
    ensures SymbolToAsset(asset + "USDT") == asset
    ensures SymbolToAsset(asset + "USD") == asset
  {
    var t := asset + "USDT";
    assert t[|t| - 4..] == "USDT";
    assert t[..|t| - 4] == asset;
    var d := asset + "USD";
    assert d[|d| - 3..] == "USD";
    assert d[..|d| - 3] == asset;
    assert d[|d| - 1] == 'D';
    assert "USDT"[3] == 'T';
  }

  /**
   * The symbols of the first k markets, without missing or empty ones and
   * without repeats, in order of first occurrence (`Array.from(new Set(...))`).
   */
  function UniqueSymbolsTo(markets: seq<SourceMarket>, k: nat): seq<string>
    requires k <= |markets|
  {
    if k == 0 then []
    else
      var previous := UniqueSymbolsTo(markets, k - 1);
      var symbol := markets[k - 1].market.symbol;
      if symbol.None? || symbol.value == "" || symbol.value in previous then previous
      else previous + [symbol.value]
  }

  /** The symbols the Binance poll fetches, for the markets `getMarketsForDataSource('binance')` returns. */
  method BinanceSymbols(markets: seq<SourceMarket>) returns (symbols: seq<string>)
    ensures symbols == UniqueSymbolsTo(markets, |markets|)
  {
    symbols := [];
    var seen: set<string> := {};
    var i := 0;
    while i < |markets|
      invariant i <= |markets|
      invariant symbols == UniqueSymbolsTo(markets, i)
      invariant seen == set s | s in symbols
    {
      var symbol := markets[i].market.symbol;
      if symbol.Some? && symbol.value != "" && symbol.value !in seen {
        symbols := symbols + [symbol.value];
        seen := seen + {symbol.value};
      }
      i := i + 1;
    }
  }

  /**
   * The fetched symbols are exactly the non-empty symbols of the markets,
   * each once.
   */
  lemma {:induction false} UniqueSymbolsFacts(markets: seq<SourceMarket>, k: nat)
    requires k <= |markets|
    ensures var r := UniqueSymbolsTo(markets, k);
            && (forall i, j :: 0 <= i < j < |r| ==> r[i] != r[j])
            && (forall s :: s in r <==> s != "" && exists j :: 0 <= j < k && markets[j].market.symbol == Some(s))
  {
    if k > 0 {
      UniqueSymbolsFacts(markets, k - 1);
      var previous := UniqueSymbolsTo(markets, k - 1);
      forall s
        ensures s in UniqueSymbolsTo(markets, k) <==> s != "" && exists j :: 0 <= j < k && markets[j].market.symbol == Some(s)
      {
        if s != "" && markets[k - 1].market.symbol == Some(s) {
          assert s in UniqueSymbolsTo(markets, k);
        }
        if s != "" && exists j :: 0 <= j < k && markets[j].market.symbol == Some(s) {
          var j :| 0 <= j < k && markets[j].market.symbol == Some(s);
          if j < k - 1 {
            assert s in previous;
          }
        }
      }
    }
  }

  /**
   * One kline of the payload as a candle row: it must be an array of at
   * least six cells whose open time and four prices read as finite numbers;
   * the volume is kept only when it reads as a finite number.
   */
  function KlineRow(asset: string, kline: Raw): Option<CandleRow>
  {
    if !kline.Arr? || |kline.items| < 6 then None
    else
      var cells := kline.items;
      var timestamp := ToNumber(cells[0]);
      var open := ToNumber(cells[1]);
      var high := ToNumber(cells[2]);
      var low := ToNumber(cells[3]);
      var close := ToNumber(cells[4]);
      if timestamp.None? then None
      else if open.None? || high.None? || low.None? || close.None? then None
      else Some(CandleRow(asset, "binance", "1m", timestamp.value, open.value, high.value, low.value, close.value,
                          ToNumber(cells[5])))
  }

  /** The rows stored for the first k klines of a payload. */
  function KlineRowsTo(asset: string, klines: seq<Raw>, k: nat): seq<CandleRow>
    requires k <= |klines|
  {
    if k == 0 then []
    else
      var row := KlineRow(asset, klines[k - 1]);
      KlineRowsTo(asset, klines, k - 1) + (if row.Some? then [row.value] else [])
  }

  /**
   * The insert loop over one symbol's payload: a payload that is not an
   * array stores nothing; otherwise every usable kline is stored, in order.
   */
  method ConvertKlines(symbol: string, payload: Raw) returns (rows: seq<CandleRow>)
    ensures !payload.Arr? ==> rows == []
    ensures payload.Arr? ==> rows == KlineRowsTo(SymbolToAsset(symbol), payload.items, |payload.items|)
  {
    rows := [];
    if !payload.Arr? {
      return;
    }
    var assetName := SymbolToAsset(symbol);
    var i := 0;
    while i < |payload.items|
      invariant i <= |payload.items|
      invariant rows == KlineRowsTo(assetName, payload.items, i)
    {
      var kline := payload.items[i];
      i := i + 1;
      if !kline.Arr? || |kline.items| < 6 {
        continue;
      }
      var timestamp := ToNumber(kline.items[0]);
      var open := ToNumber(kline.items[1]);
      var high := ToNumber(kline.items[2]);
      var low := ToNumber(kline.items[3]);
      var close := ToNumber(kline.items[4]);
      var volume := ToNumber(kline.items[5]);
      if timestamp.None? {
        continue;
      }
      if open.None? || high.None? || low.None? || close.None? {
        continue;
      }
      rows := rows + [CandleRow(assetName, "binance", "1m", timestamp.value, open.value, high.value, low.value,
                                close.value, volume)];
    }
  }

  /**
   * A row is stored exactly for each kline that is an array of at least six
   * cells with a readable open time and prices; every stored row is a
   * Binance one-minute candle of the symbol's asset carrying those readings.
   */
  lemma {:induction false} KlineRowsExactly(asset: string, klines: seq<Raw>, k: nat, r: CandleRow)
    requires k <= |klines|
    ensures r in KlineRowsTo(asset, klines, k) <==> exists j :: 0 <= j < k && KlineRow(asset, klines[j]) == Some(r)
    ensures r in KlineRowsTo(asset, klines, k) ==>
              exists j :: 0 <= j < k && klines[j].Arr? && |klines[j].items| >= 6
                          && r.assetName == asset && r.dataSource == "binance" && r.interval == "1m"
                          && ToNumber(klines[j].items[0]) == Some(r.timestamp)
                          && ToNumber(klines[j].items[1]) == Some(r.open) && ToNumber(klines[j].items[2]) == Some(r.high)
                          && ToNumber(klines[j].items[3]) == Some(r.low) && ToNumber(klines[j].items[4]) == Some(r.close)
                          && r.volume == ToNumber(klines[j].items[5])
  {
    if k > 0 {
      KlineRowsExactly(asset, klines, k - 1, r);
      if r in KlineRowsTo(asset, klines, k) && r !in KlineRowsTo(asset, klines, k - 1) {
        assert KlineRow(asset, klines[k - 1]) == Some(r);
      }
      if exists j :: 0 <= j < k && KlineRow(asset, klines[j]) == Some(r) {
        var j :| 0 <= j < k && KlineRow(asset, klines[j]) == Some(r);
        if j == k - 1 {
          assert r in KlineRowsTo(asset, klines, k);
        }
      }
    }
  }
}
