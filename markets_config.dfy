/**
 * The table of recurring Polymarket markets (src/shared/markets-config.js):
 * market groups sharing a category, timeframe, polling cadence, data source
 * and candle interval, and the helpers that count the listed markets and
 * flatten the groups by data source or by category.
 */
module MarketsConfig {
  import opened Numeric

  /** One market of a group; fields a market does not set are None (or false for `discover`). */
  datatype MarketEntry = MarketEntry(name: string, seriesId: Option<int>, symbol: Option<string>,
                                     altSeriesId: Option<int>, location: Option<string>,
                                     lat: Option<real>, lon: Option<real>, discover: bool)

  datatype TradingHours = TradingHours(start: string, end: string, timezone: string)

  /** One entry of `MARKETS_CONFIG`; the weather group has no candle interval. */
  datatype MarketGroup = MarketGroup(key: string, category: string, timeframe: string, pollInterval: int,
                                     snapshotInterval: int, dataSource: string, candleInterval: Option<string>,
                                     tradingHours: Option<TradingHours>, markets: seq<MarketEntry>)

  function Listed(name: string, seriesId: int, symbol: string): MarketEntry
  {
    MarketEntry(name, Some(seriesId), Some(symbol), None, None, None, None, false)
  }

  function ListedWithAlt(name: string, seriesId: int, symbol: string, altSeriesId: int): MarketEntry
  {
    MarketEntry(name, Some(seriesId), Some(symbol), Some(altSeriesId), None, None, None, false)
  }

  function ToDiscover(name: string, symbol: string): MarketEntry
  {
    MarketEntry(name, None, Some(symbol), None, None, None, None, true)
  }

  function City(name: string, seriesId: int, location: string, lat: real, lon: real): MarketEntry
  {
    MarketEntry(name, Some(seriesId), None, None, Some(location), Some(lat), Some(lon), false)
  }

  function CityToDiscover(name: string, location: string, lat: real, lon: real): MarketEntry
  {
    MarketEntry(name, None, None, None, Some(location), Some(lat), Some(lon), true)
  }

  const UsMarketHours: TradingHours := TradingHours("09:30", "16:00", "America/New_York")

  /** `MARKETS_CONFIG`, in its key order. */
  const Groups: seq<MarketGroup> := [
    MarketGroup("crypto_15m", "crypto", "15m", 60000, 60000, "binance", Some("1m"), None,
                [Listed("BTC_15M", 10192, "BTCUSDT"), Listed("SOL_15M", 10423, "SOLUSDT"),
                 Listed("XRP_15M", 10422, "XRPUSDT")]),
    MarketGroup("crypto_5m", "crypto", "5m", 30000, 30000, "binance", Some("1m"), None,
                [Listed("ETH_5M", 10683, "ETHUSDT"), Listed("XRP_5M", 10685, "XRPUSDT")]),
    MarketGroup("crypto_hourly", "crypto", "1h", 60000, 60000, "binance", Some("1m"), None,
                [Listed("BTC_1H", 10114, "BTCUSDT"), Listed("ETH_1H", 10117, "ETHUSDT"),
                 Listed("XRP_1H", 10123, "XRPUSDT")]),
    MarketGroup("crypto_4h", "crypto", "4h", 300000, 300000, "binance", Some("5m"), None,
                [Listed("BTC_4H", 10331, "BTCUSDT"), Listed("ETH_4H", 10325, "ETHUSDT"),
                 Listed("SOL_4H", 10233, "SOLUSDT")]),
    MarketGroup("crypto_daily", "crypto", "1d", 300000, 300000, "binance", Some("1h"), None,
                [Listed("BTC_DAILY", 41, "BTCUSDT")]),
    MarketGroup("indices_daily", "indices", "1d", 300000, 300000, "yahoo", Some("1d"), Some(UsMarketHours),
                [Listed("SPX", 10383, "^GSPC"), Listed("DJI", 10384, "^DJI"), Listed("NDX", 10381, "^NDX"),
                 Listed("FTSE", 10385, "^FTSE")]),
    MarketGroup("commodities_daily", "commodities", "1d", 300000, 300000, "yahoo", Some("1d"), None,
                [ListedWithAlt("GOLD", 10457, "GC=F", 10396), ListedWithAlt("SILVER", 10458, "SI=F", 10397),
                 Listed("PLATINUM", 10399, "PL=F"), ListedWithAlt("PALLADIUM", 10459, "PA=F", 10398),
                 Listed("CRUDE_OIL", 10401, "CL=F"), Listed("BRENT_OIL", 10462, "BZ=F")]),
    MarketGroup("forex_daily", "forex", "1d", 300000, 300000, "yahoo", Some("1d"), None,
                [Listed("USDJPY", 10988, "USDJPY=X"), Listed("AUDUSD", 10402, "AUDUSD=X"),
                 ToDiscover("EURUSD", "EURUSD=X"), ToDiscover("GBPUSD", "GBPUSD=X"),
                 ToDiscover("USDCHF", "USDCHF=X"), ToDiscover("EURCHF", "EURCHF=X")]),
    MarketGroup("stocks_daily", "stocks", "1d", 300000, 300000, "yahoo", Some("1d"), Some(UsMarketHours),
                [Listed("TSLA", 10375, "TSLA"), Listed("PLTR", 10391, "PLTR"), Listed("OPEN", 10392, "OPEN"),
                 Listed("NFLX", 10389, "NFLX"), Listed("RKLB", 10393, "RKLB")]),
    MarketGroup("weather_daily", "weather", "1d", 600000, 600000, "openweather", None, None,
                [City("TOKYO", 10740, "Tokyo,JP", 35.6762, 139.6503),
                 City("LOS_ANGELES", 10725, "Los Angeles,US", 34.0522, -118.2437),
                 City("PHOENIX", 10729, "Phoenix,US", 33.4484, -112.074),
                 City("AUCKLAND", 10901, "Auckland,NZ", -36.8509, 174.7645),
                 City("SEOUL", 10742, "Seoul,KR", 37.5665, 126.978),
                 CityToDiscover("NEW_YORK", "New York,US", 40.7128, -74.006),
                 CityToDiscover("LONDON", "London,GB", 51.5074, -0.1278),
                 CityToDiscover("PARIS", "Paris,FR", 48.8566, 2.3522),
                 CityToDiscover("SYDNEY", "Sydney,AU", -33.8688, 151.2093),
                 CityToDiscover("MIAMI", "Miami,US", 25.7617, -80.1918),
                 CityToDiscover("CHICAGO", "Chicago,US", 41.8781, -87.6298),
                 CityToDiscover("DALLAS", "Dallas,US", 32.7767, -96.797)])
  ]

  // ---------------------------------------------------------------------------
  // getMarketsSummary
  // ---------------------------------------------------------------------------

  /** The markets of a list that have a series id (`seriesId !== null`). */
  function CountListed(markets: seq<MarketEntry>): (n: nat)
    ensures n <= |markets|
  {
    if |markets| == 0 then 0
    else CountListed(markets[..|markets| - 1]) + (if markets[|markets| - 1].seriesId.Some? then 1 else 0)
  }

  /** The listed markets of the first k groups. */
  function TotalTo(groups: seq<MarketGroup>, k: nat): nat
    requires k <= |groups|
  {
    if k == 0 then 0 else TotalTo(groups, k - 1) + CountListed(groups[k - 1].markets)
  }

  /** The two ways the summary breaks the total down. */
  datatype Dimension = ByCategory | ByTimeframe

  function KeyOf(g: MarketGroup, d: Dimension): string
  {
    match d
    case ByCategory => g.category
    case ByTimeframe => g.timeframe
  }

  /** The listed markets of the first k groups whose category (or timeframe) is `key`. */
  function KeyCountTo(groups: seq<MarketGroup>, k: nat, d: Dimension, key: string): nat
    requires k <= |groups|
  {
    if k == 0 then 0
    else KeyCountTo(groups, k - 1, d, key) + (if KeyOf(groups[k - 1], d) == key then CountListed(groups[k - 1].markets) else 0)
  }

  /** Some of the first k groups has category (or timeframe) `key`. */
  predicate HasKey(groups: seq<MarketGroup>, k: nat, d: Dimension, key: string)
    requires k <= |groups|
  {
    exists j :: 0 <= j < k && KeyOf(groups[j], d) == key
  }

  /** `counts[key] = (counts[key] || 0) + n` */
  function Bump(counts: map<string, nat>, key: string, n: nat): map<string, nat>
  {
    counts[key := (if key in counts then counts[key] else 0) + n]
  }

  /** The dictionary the summary loop has built after k groups. */
  function KeyMapTo(groups: seq<MarketGroup>, k: nat, d: Dimension): map<string, nat>
    requires k <= |groups|
  {
    if k == 0 then map[]
    else
      Bump(KeyMapTo(groups, k - 1, d), KeyOf(groups[k - 1], d), CountListed(groups[k - 1].markets))
  }

  /** The dictionary has an entry for exactly the categories (timeframes) seen, holding their listed-market count. */
  lemma {:induction false} KeyMapMeaning(groups: seq<MarketGroup>, k: nat, d: Dimension, key: string)
    requires k <= |groups|
    ensures key in KeyMapTo(groups, k, d) <==> HasKey(groups, k, d, key)
    ensures key in KeyMapTo(groups, k, d) ==> KeyMapTo(groups, k, d)[key] == KeyCountTo(groups, k, d, key)
    ensures !HasKey(groups, k, d, key) ==> KeyCountTo(groups, k, d, key) == 0
  {
    if k > 0 {
      KeyMapMeaning(groups, k - 1, d, key);
      if KeyOf(groups[k - 1], d) == key {
        assert HasKey(groups, k, d, key);
      } else if HasKey(groups, k, d, key) {
        var j :| 0 <= j < k && KeyOf(groups[j], d) == key;
        assert j < k - 1;
        assert HasKey(groups, k - 1, d, key);
      }
    }
  }

  datatype MarketsSummary = MarketsSummary(total: nat, byCategory: map<string, nat>, byTimeframe: map<string, nat>)

  /**
   * `getMarketsSummary()` over a list of groups: the number of listed
   * markets, in total and per category and timeframe.
   */
  method GetMarketsSummary(groups: seq<MarketGroup>) returns (summary: MarketsSummary)
    ensures summary.total == TotalTo(groups, |groups|)
    ensures summary.byCategory == KeyMapTo(groups, |groups|, ByCategory)
    ensures summary.byTimeframe == KeyMapTo(groups, |groups|, ByTimeframe)
  {
    var total: nat := 0;
    var byCategory: map<string, nat> := map[];
    var byTimeframe: map<string, nat> := map[];
    var i := 0;
    while i < |groups|
      invariant i <= |groups|
      invariant total == TotalTo(groups, i)
      invariant byCategory == KeyMapTo(groups, i, ByCategory)
      invariant byTimeframe == KeyMapTo(groups, i, ByTimeframe)
    {
      var group := groups[i];
      var count := CountListed(group.markets);
      total := total + count;
      byCategory := Bump(byCategory, group.category, count);
      byTimeframe := Bump(byTimeframe, group.timeframe, count);
      i := i + 1;
    }
    summary := MarketsSummary(total, byCategory, byTimeframe);
  }

  /** The sum of a dictionary's counts. */
  ghost function SumValues(m: map<string, nat>): nat
    decreases |m.Keys|
  {
    if m.Keys == {} then 0
    else
      var k :| k in m.Keys;
      assert m.Keys - {k} < m.Keys;
      m[k] + SumValues(RemoveKey(m, k))
  }

  function RemoveKey(m: map<string, nat>, key: string): (r: map<string, nat>)
    ensures r.Keys == m.Keys - {key}
    ensures forall j :: j in r ==> r[j] == m[j]
  {
    map j | j in m && j != key :: m[j]
  }

  /** Any entry can be taken out first when summing a dictionary. */
  lemma {:induction false} SumValuesRemove(m: map<string, nat>, key: string)
    requires key in m
    ensures SumValues(m) == m[key] + SumValues(RemoveKey(m, key))
    decreases |m.Keys|
  {
    var k :| k in m.Keys && SumValues(m) == m[k] + SumValues(RemoveKey(m, k));
    if k != key {
      assert m.Keys - {k} < m.Keys;
      assert m.Keys - {key} < m.Keys;
      SumValuesRemove(RemoveKey(m, k), key);
      SumValuesRemove(RemoveKey(m, key), k);
      assert RemoveKey(RemoveKey(m, k), key) == RemoveKey(RemoveKey(m, key), k);
    }
  }

  /** Adding x to one entry (a new entry starting at 0) adds x to the sum. */
  lemma SumValuesAdd(m: map<string, nat>, key: string, x: nat)
    ensures SumValues(m[key := (if key in m then m[key] else 0) + x]) == SumValues(m) + x
  {
    var m' := m[key := (if key in m then m[key] else 0) + x];
    SumValuesRemove(m', key);
    if key in m {
      SumValuesRemove(m, key);
      assert RemoveKey(m', key) == RemoveKey(m, key);
    } else {
      assert RemoveKey(m', key) == m;
    }
  }

  /** The per-category counts, and likewise the per-timeframe counts, add up to the total. */
  lemma {:induction false} SummaryBalances(groups: seq<MarketGroup>, k: nat, d: Dimension)
    requires k <= |groups|
    ensures SumValues(KeyMapTo(groups, k, d)) == TotalTo(groups, k)
  {
    if k == 0 {
      SumValuesEmpty();
    } else {
      SummaryBalances(groups, k - 1, d);
      SummaryStep(groups, k, d);
    }
  }

  lemma SumValuesEmpty()
    ensures SumValues(map[]) == 0
  {
    var m: map<string, nat> := map[];
    assert m.Keys == {};
  }

  /** One more group adds its listed-market count to the sum of the dictionary. */
  lemma SummaryStep(groups: seq<MarketGroup>, k: nat, d: Dimension)
    requires 0 < k <= |groups|
    ensures SumValues(KeyMapTo(groups, k, d)) == SumValues(KeyMapTo(groups, k - 1, d)) + CountListed(groups[k - 1].markets)
  {
    var m := KeyMapTo(groups, k - 1, d);
    var key := KeyOf(groups[k - 1], d);
    var x := CountListed(groups[k - 1].markets);
    var m' := m[key := (if key in m then m[key] else 0) + x];
    assert KeyMapTo(groups, k, d) == m';
    SumValuesAdd(m, key, x);
  }

  /** The number of listed markets in each configured group, in table order. */
  const ListedPerGroup: seq<nat> := [3, 2, 3, 3, 1, 4, 6, 2, 5, 5]

  lemma GroupCounts()
    ensures |Groups| == |ListedPerGroup|
    ensures forall i :: 0 <= i < |Groups| ==> CountListed(Groups[i].markets) == ListedPerGroup[i]
  {
    forall i | 0 <= i < |Groups|
      ensures CountListed(Groups[i].markets) == ListedPerGroup[i]
    {
      if i == 7 {
        MixedGroupCount(7, 2);
      } else if i == 9 {
        MixedGroupCount(9, 5);
      } else {
        AllListed(Groups[i].markets);
      }
    }
  }

  /** A group whose first `n` markets have a series id and whose others have none lists `n` markets. */
  lemma MixedGroupCount(g: nat, n: nat)
    requires g < |Groups| && n <= |Groups[g].markets|
    requires forall i :: 0 <= i < |Groups[g].markets| ==> (Groups[g].markets[i].seriesId.Some? <==> i < n)
    ensures CountListed(Groups[g].markets) == n
  {
    var markets := Groups[g].markets;
    assert markets == markets[..n] + markets[n..];
    AllListed(markets[..n]);
    NoneListed(markets[n..]);
    CountListedAppend(markets[..n], markets[n..]);
  }

  /** The configured table lists 34 markets with a series id. */
  lemma ConfigTotal()
    ensures TotalTo(Groups, |Groups|) == 34
  {
    GroupCounts();
    TotalFromCounts(Groups, ListedPerGroup, |Groups|);
    var c := ListedPerGroup;
    assert NatSumTo(c, 10) == 34 by {
      assert NatSumTo(c, 1) == 3;
      assert NatSumTo(c, 2) == 5;
      assert NatSumTo(c, 3) == 8;
      assert NatSumTo(c, 4) == 11;
      assert NatSumTo(c, 5) == 12;
      assert NatSumTo(c, 6) == 16;
      assert NatSumTo(c, 7) == 22;
      assert NatSumTo(c, 8) == 24;
      assert NatSumTo(c, 9) == 29;
    }
  }

  /** The sum of the first k counts. */
  function NatSumTo(counts: seq<nat>, k: nat): nat
    requires k <= |counts|
  {
    if k == 0 then 0 else NatSumTo(counts, k - 1) + counts[k - 1]
  }

  /** Given each group's listed-market count, the total is their sum. */
  lemma {:induction false} TotalFromCounts(groups: seq<MarketGroup>, counts: seq<nat>, k: nat)
    requires k <= |groups| == |counts|
    requires forall i :: 0 <= i < |groups| ==> CountListed(groups[i].markets) == counts[i]
    ensures TotalTo(groups, k) == NatSumTo(counts, k)
  {
    if k > 0 {
      TotalFromCounts(groups, counts, k - 1);
    }
  }

  /** Every market of the list has a series id. */
  lemma AllListed(markets: seq<MarketEntry>)
    requires forall i :: 0 <= i < |markets| ==> markets[i].seriesId.Some?
    ensures CountListed(markets) == |markets|
  {
    if |markets| > 0 {
      AllListed(markets[..|markets| - 1]);
    }
  }

  /** No market of the list has a series id. */
  lemma NoneListed(markets: seq<MarketEntry>)
    requires forall i :: 0 <= i < |markets| ==> markets[i].seriesId.None?
    ensures CountListed(markets) == 0
  {
    if |markets| > 0 {
      NoneListed(markets[..|markets| - 1]);
    }
  }

  lemma {:induction false} CountListedAppend(a: seq<MarketEntry>, b: seq<MarketEntry>)
    ensures CountListed(a + b) == CountListed(a) + CountListed(b)
  {
    if |b| > 0 {
      assert (a + b)[..|a + b| - 1] == a + b[..|b| - 1];
      CountListedAppend(a, b[..|b| - 1]);
    } else {
      assert a + b == a;
    }
  }

  // ---------------------------------------------------------------------------
  // getMarketsForDataSource / getMarketsByCategory
  // ---------------------------------------------------------------------------

  /** A market spread together with its group's category, timeframe, poll interval and candle interval. */
  datatype SourceMarket = SourceMarket(market: MarketEntry, category: string, timeframe: string, pollInterval: int,
                                       candleInterval: Option<string>)

  function SourceTag(g: MarketGroup, m: MarketEntry): SourceMarket
  {
    SourceMarket(m, g.category, g.timeframe, g.pollInterval, g.candleInterval)
  }

  function SourceTagged(g: MarketGroup, markets: seq<MarketEntry>): (r: seq<SourceMarket>)
    ensures |r| == |markets| && forall i :: 0 <= i < |markets| ==> r[i] == SourceTag(g, markets[i])
  {
    seq(|markets|, i requires 0 <= i < |markets| => SourceTag(g, markets[i]))
  }

  /** The markets of the first k groups fed by `dataSource`, in table order. */
  function ForSourceTo(groups: seq<MarketGroup>, k: nat, dataSource: string): seq<SourceMarket>
    requires k <= |groups|
  {
    if k == 0 then []
    else ForSourceTo(groups, k - 1, dataSource)
         + (if groups[k - 1].dataSource == dataSource then SourceTagged(groups[k - 1], groups[k - 1].markets) else [])
  }

  /** `getMarketsForDataSource(dataSource)` over a list of groups. */
  method GetMarketsForDataSource(groups: seq<MarketGroup>, dataSource: string) returns (markets: seq<SourceMarket>)
    ensures markets == ForSourceTo(groups, |groups|, dataSource)
  {
    markets := [];
    var i := 0;
    while i < |groups|
      invariant i <= |groups|
      invariant markets == ForSourceTo(groups, i, dataSource)
    {
      var group := groups[i];
      if group.dataSource == dataSource {
        var j := 0;
        while j < |group.markets|
          invariant j <= |group.markets|
          invariant markets == ForSourceTo(groups, i, dataSource) + SourceTagged(group, group.markets[..j])
        {
          assert SourceTagged(group, group.markets[..j + 1]) == SourceTagged(group, group.markets[..j]) + [SourceTag(group, group.markets[j])];
          markets := markets + [SourceTag(group, group.markets[j])];
          j := j + 1;
        }
        assert group.markets[..j] == group.markets;
      }
      i := i + 1;
    }
  }

  /**
   * A market is returned for a data source exactly when it belongs to a
   * group fed by that source, carrying that group's settings; so a source no
   * group uses gives an empty list.
   */
  lemma {:induction false} ForSourceExactly(groups: seq<MarketGroup>, k: nat, dataSource: string, x: SourceMarket)
    requires k <= |groups|
    ensures x in ForSourceTo(groups, k, dataSource) <==>
              exists i, j :: 0 <= i < k && 0 <= j < |groups[i].markets| && groups[i].dataSource == dataSource
                             && x == SourceTag(groups[i], groups[i].markets[j])
  {
    if k > 0 {
      ForSourceExactly(groups, k - 1, dataSource, x);
      var g := groups[k - 1];
      if x in ForSourceTo(groups, k, dataSource) && x !in ForSourceTo(groups, k - 1, dataSource) {
        var j :| 0 <= j < |g.markets| && SourceTagged(g, g.markets)[j] == x;
        assert 0 <= k - 1 < k && groups[k - 1].dataSource == dataSource && x == SourceTag(groups[k - 1], groups[k - 1].markets[j]);
      }
      if exists i, j :: 0 <= i < k && 0 <= j < |groups[i].markets| && groups[i].dataSource == dataSource
                        && x == SourceTag(groups[i], groups[i].markets[j]) {
        var i, j :| 0 <= i < k && 0 <= j < |groups[i].markets| && groups[i].dataSource == dataSource
                    && x == SourceTag(groups[i], groups[i].markets[j]);
        if i == k - 1 {
          assert SourceTagged(g, g.markets)[j] == x;
        }
      }
    }
  }

  /** The number of markets in the first k groups fed by `dataSource`. */
  function SourceSizeTo(groups: seq<MarketGroup>, k: nat, dataSource: string): nat
    requires k <= |groups|
  {
    if k == 0 then 0
    else SourceSizeTo(groups, k - 1, dataSource) + (if groups[k - 1].dataSource == dataSource then |groups[k - 1].markets| else 0)
  }

  /** A data source's list has one entry per market of its groups. */
  lemma {:induction false} ForSourceSize(groups: seq<MarketGroup>, k: nat, dataSource: string)
    requires k <= |groups|
    ensures |ForSourceTo(groups, k, dataSource)| == SourceSizeTo(groups, k, dataSource)
  {
    if k > 0 {
      ForSourceSize(groups, k - 1, dataSource);
    }
  }

  /** The Binance source feeds twelve markets. */
  lemma BinanceMarketCount()
    ensures |ForSourceTo(Groups, |Groups|, "binance")| == 12
  {
    ForSourceSize(Groups, |Groups|, "binance");
    assert SourceSizeTo(Groups, 1, "binance") == 3;
    assert SourceSizeTo(Groups, 2, "binance") == 5;
    assert SourceSizeTo(Groups, 3, "binance") == 8;
    assert SourceSizeTo(Groups, 4, "binance") == 11;
    assert SourceSizeTo(Groups, 5, "binance") == 12;
    assert SourceSizeTo(Groups, 6, "binance") == 12;
    assert SourceSizeTo(Groups, 7, "binance") == 12;
    assert SourceSizeTo(Groups, 8, "binance") == 12;
    assert SourceSizeTo(Groups, 9, "binance") == 12;
    assert SourceSizeTo(Groups, 10, "binance") == 12;
  }

  /** Every Binance market is a crypto market with a candle interval. */
  lemma BinanceMarketsAreCrypto()
    ensures forall x :: x in ForSourceTo(Groups, |Groups|, "binance") ==> x.category == "crypto" && x.candleInterval.Some?
  {
    forall x | x in ForSourceTo(Groups, |Groups|, "binance")
      ensures x.category == "crypto" && x.candleInterval.Some?
    {
      ForSourceExactly(Groups, |Groups|, "binance", x);
    }
  }

  /** No configured group is fed by Polymarket, so asking for it gives no markets. */
  lemma NoPolymarketMarkets()
    ensures ForSourceTo(Groups, |Groups|, "polymarket") == []
  {
    var r := ForSourceTo(Groups, |Groups|, "polymarket");
    if |r| > 0 {
      ForSourceExactly(Groups, |Groups|, "polymarket", r[0]);
    }
  }

  /** A market with its group's timeframe, as `getMarketsByCategory` returns it. */
  datatype CategoryMarket = CategoryMarket(market: MarketEntry, timeframe: string)

  function CategoryTagged(g: MarketGroup, markets: seq<MarketEntry>): (r: seq<CategoryMarket>)
    ensures |r| == |markets| && forall i :: 0 <= i < |markets| ==> r[i] == CategoryMarket(markets[i], g.timeframe)
  {
    seq(|markets|, i requires 0 <= i < |markets| => CategoryMarket(markets[i], g.timeframe))
  }

  /** The markets of the first k groups in `category`, in table order. */
  function InCategoryTo(groups: seq<MarketGroup>, k: nat, category: string): seq<CategoryMarket>
    requires k <= |groups|
  {
    if k == 0 then []
    else InCategoryTo(groups, k - 1, category)
         + (if groups[k - 1].category == category then CategoryTagged(groups[k - 1], groups[k - 1].markets) else [])
  }

  /** `getMarketsByCategory(category)` over a list of groups. */
  method GetMarketsByCategory(groups: seq<MarketGroup>, category: string) returns (markets: seq<CategoryMarket>)
    ensures markets == InCategoryTo(groups, |groups|, category)
  {
    markets := [];
    var i := 0;
    while i < |groups|
      invariant i <= |groups|
      invariant markets == InCategoryTo(groups, i, category)
    {
      var group := groups[i];
      if group.category == category {
        markets := markets + CategoryTagged(group, group.markets);
      }
      i := i + 1;
    }
  }

  /**
   * A market is returned for a category exactly when it belongs to a group
   * of that category, carrying that group's timeframe.
   */
  lemma {:induction false} InCategoryExactly(groups: seq<MarketGroup>, k: nat, category: string, x: CategoryMarket)
    requires k <= |groups|
    ensures x in InCategoryTo(groups, k, category) <==>
              exists i, j :: 0 <= i < k && 0 <= j < |groups[i].markets| && groups[i].category == category
                             && x == CategoryMarket(groups[i].markets[j], groups[i].timeframe)
  {
    if k > 0 {
      InCategoryExactly(groups, k - 1, category, x);
      var g := groups[k - 1];
      if x in InCategoryTo(groups, k, category) && x !in InCategoryTo(groups, k - 1, category) {
        var j :| 0 <= j < |g.markets| && CategoryTagged(g, g.markets)[j] == x;
        assert 0 <= k - 1 < k && groups[k - 1].category == category
               && x == CategoryMarket(groups[k - 1].markets[j], groups[k - 1].timeframe);
      }
      if exists i, j :: 0 <= i < k && 0 <= j < |groups[i].markets| && groups[i].category == category
                        && x == CategoryMarket(groups[i].markets[j], groups[i].timeframe) {
        var i, j :| 0 <= i < k && 0 <= j < |groups[i].markets| && groups[i].category == category
                    && x == CategoryMarket(groups[i].markets[j], groups[i].timeframe);
        if i == k - 1 {
          assert CategoryTagged(g, g.markets)[j] == x;
        }
      }
    }
  }
}
