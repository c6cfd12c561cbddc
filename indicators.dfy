/**
 * Technical indicators over candle sequences (src/strategy/indicators.js).
 *
 * Each indicator the source computes with an accumulating loop is a method
 * whose loop is proved to compute a specification function; the rest of the
 * model (the trading models) uses the specification functions, and the lemmas
 * below state what the source promises about them: null on short input, the
 * range of RSI, the length and seed of EMA, the shape of the MACD line, the
 * zero-volume fallback of VWAP, the Heiken-Ashi recurrence and envelope, the
 * conditions behind each regime label, and the bounds of ATR and HA trend.
 */
module Indicators {
  import opened Numeric

  /** One OHLC bar; `volume` is None when the stored volume is null. */
  datatype Candle = Candle(timestamp: real, open: real, high: real, low: real, close: real, volume: Option<real>)

  /** `candles.map(c => c.close)` */
  function Closes(candles: seq<Candle>): (r: seq<real>)
    ensures |r| == |candles|
    ensures forall i :: 0 <= i < |candles| ==> r[i] == candles[i].close
  {
    seq(|candles|, i requires 0 <= i < |candles| => candles[i].close)
  }

  // ---------------------------------------------------------------------------
  // RSI with Wilder smoothing
  // ---------------------------------------------------------------------------

  /** Close-to-close changes: one fewer than the closes. */
  function Changes(closes: seq<real>): (r: seq<real>)
    requires |closes| >= 1
    ensures |r| == |closes| - 1
  {
    seq(|closes| - 1, i requires 0 <= i < |closes| - 1 => closes[i + 1] - closes[i])
  }

  function Gain(change: real): real { if change > 0.0 then change else 0.0 }
  function Loss(change: real): real { if change < 0.0 then -change else 0.0 }

  /** Total gain over the first `k` changes. */
  function SeedGain(ch: seq<real>, k: nat): (r: real)
    requires k <= |ch|
    ensures r >= 0.0
  {
    if k == 0 then 0.0 else SeedGain(ch, k - 1) + Gain(ch[k - 1])
  }

  /** Total loss (as a positive amount) over the first `k` changes. */
  function SeedLoss(ch: seq<real>, k: nat): (r: real)
    requires k <= |ch|
    ensures r >= 0.0
  {
    if k == 0 then 0.0 else SeedLoss(ch, k - 1) + Loss(ch[k - 1])
  }

  /** Wilder smoothing: `(prev * (period - 1) + x) / period`. */
  function Smooth(prev: real, x: real, period: nat): (r: real)
    requires period >= 1
    ensures prev >= 0.0 && x >= 0.0 ==> r >= 0.0
  {
    assert prev >= 0.0 ==> prev * (period - 1) as real >= 0.0;
    (prev * (period - 1) as real + x) / period as real
  }

  /** Wilder-smoothed average gain after the first `k` changes (k >= period). */
  function WilderGain(ch: seq<real>, period: nat, k: nat): (r: real)
    requires 1 <= period <= k <= |ch|
    ensures r >= 0.0
    decreases k
  {
    if k == period then SeedGain(ch, period) / period as real
    else Smooth(WilderGain(ch, period, k - 1), Gain(ch[k - 1]), period)
  }

  /** Wilder-smoothed average loss after the first `k` changes (k >= period). */
  function WilderLoss(ch: seq<real>, period: nat, k: nat): (r: real)
    requires 1 <= period <= k <= |ch|
    ensures r >= 0.0
    decreases k
  {
    if k == period then SeedLoss(ch, period) / period as real
    else Smooth(WilderLoss(ch, period, k - 1), Loss(ch[k - 1]), period)
  }

  /** `calculateRSI(candles, period)`; None stands for the source's null. */
  function Rsi(candles: Option<seq<Candle>>, period: nat): Option<real>
    requires period >= 1
  {
    if candles.None? || |candles.value| < period + 1 then None
    else
      var ch := Changes(Closes(candles.value));
      var avgGain := WilderGain(ch, period, |ch|);
      var avgLoss := WilderLoss(ch, period, |ch|);
      if avgLoss == 0.0 then Some(100.0)
      else Some(Round2(100.0 - 100.0 / (1.0 + avgGain / avgLoss)))
  }

  /** The source's first RSI loop: consecutive close differences. */
  method ComputeChanges(closes: seq<real>) returns (changes: seq<real>)
    requires |closes| >= 1
    ensures changes == Changes(closes)
  {
    changes := [];
    var i := 1;
    while i < |closes|
      invariant 1 <= i <= |closes|
      invariant |changes| == i - 1
      invariant forall j :: 0 <= j < i - 1 ==> changes[j] == closes[j + 1] - closes[j]
    {
      changes := changes + [closes[i] - closes[i - 1]];
      i := i + 1;
    }
  }

  /** The source's seed loop: mean gain and mean loss over the first `period` changes. */
  method SeedAverages(changes: seq<real>, period: nat) returns (avgGain: real, avgLoss: real)
    requires 1 <= period <= |changes|
    ensures avgGain == WilderGain(changes, period, period)
    ensures avgLoss == WilderLoss(changes, period, period)
  {
    avgGain, avgLoss := 0.0, 0.0;
    var k := 0;
    while k < period
      invariant 0 <= k <= period
      invariant avgGain == SeedGain(changes, k) && avgLoss == SeedLoss(changes, k)
    {
      var change := changes[k];
      if change > 0.0 {
        avgGain := avgGain + change;
      } else {
        avgLoss := avgLoss + Abs(change);
      }
      k := k + 1;
    }
    avgGain := avgGain / period as real;
    avgLoss := avgLoss / period as real;
  }

  /** The source's smoothing loop over the remaining changes. */
  method SmoothAverages(changes: seq<real>, period: nat, gain0: real, loss0: real) returns (avgGain: real, avgLoss: real)
    requires 1 <= period <= |changes|
    requires gain0 == WilderGain(changes, period, period) && loss0 == WilderLoss(changes, period, period)
    ensures avgGain == WilderGain(changes, period, |changes|)
    ensures avgLoss == WilderLoss(changes, period, |changes|)
  {
    avgGain, avgLoss := gain0, loss0;
    var k := period;
    while k < |changes|
      invariant period <= k <= |changes|
      invariant avgGain == WilderGain(changes, period, k)
      invariant avgLoss == WilderLoss(changes, period, k)
    {
      var change := changes[k];
      var gain := if change > 0.0 then change else 0.0;
      var loss := if change < 0.0 then Abs(change) else 0.0;
      assert gain == Gain(change) && loss == Loss(change);
      avgGain := Smooth(avgGain, gain, period);
      avgLoss := Smooth(avgLoss, loss, period);
      k := k + 1;
    }
  }

  method CalculateRSI(candles: Option<seq<Candle>>, period: nat) returns (rsi: Option<real>)
    requires period >= 1
    ensures rsi == Rsi(candles, period)
  {
    if candles.None? || |candles.value| < period + 1 {
      return None;
    }
    var closes := Closes(candles.value);
    var changes := ComputeChanges(closes);
    // The source re-checks `changes.length < period` here; the guard above already excludes it.
    var avgGain, avgLoss := SeedAverages(changes, period);
    avgGain, avgLoss := SmoothAverages(changes, period, avgGain, avgLoss);

    if avgLoss == 0.0 {
      return Some(100.0);
    }
    var rs := avgGain / avgLoss;
    rsi := Some(Round2(100.0 - 100.0 / (1.0 + rs)));
  }

  /** RSI is null exactly when fewer than period+1 candles are given, and otherwise lies in [0, 100]. */
  lemma RsiRange(candles: Option<seq<Candle>>, period: nat)
    requires period >= 1
    ensures Rsi(candles, period).None? <==> candles.None? || |candles.value| < period + 1
    ensures Rsi(candles, period).Some? ==> 0.0 <= Rsi(candles, period).value <= 100.0
  {
    if candles.Some? && |candles.value| >= period + 1 {
      var ch := Changes(Closes(candles.value));
      var g := WilderGain(ch, period, |ch|);
      var l := WilderLoss(ch, period, |ch|);
      if l != 0.0 {
        var rs := g / l;
        assert rs >= 0.0;
        var x := 100.0 - 100.0 / (1.0 + rs);
        assert 0.0 < 100.0 / (1.0 + rs) <= 100.0;
        RoundToWithin(x, 100.0, 0, 10000);
      }
    }
  }

  /** With no losing change the smoothed loss stays 0. */
  lemma {:induction false} NoLossKeepsZero(ch: seq<real>, period: nat, k: nat)
    requires 1 <= period <= k <= |ch|
    requires forall i :: 0 <= i < |ch| ==> ch[i] >= 0.0
    ensures SeedLoss(ch, period) == 0.0
    ensures WilderLoss(ch, period, k) == 0.0
  {
    SeedLossZero(ch, period);
    if k > period {
      NoLossKeepsZero(ch, period, k - 1);
    }
  }

  lemma {:induction false} SeedLossZero(ch: seq<real>, k: nat)
    requires k <= |ch|
    requires forall i :: 0 <= i < |ch| ==> ch[i] >= 0.0
    ensures SeedLoss(ch, k) == 0.0
  {
    if k > 0 {
      SeedLossZero(ch, k - 1);
    }
  }

  /** A series whose closes never fall (all gains) has RSI exactly 100. */
  lemma RsiAllGains(candles: seq<Candle>, period: nat)
    requires period >= 1 && |candles| >= period + 1
    requires forall i :: 0 <= i < |candles| - 1 ==> candles[i].close <= candles[i + 1].close
    ensures Rsi(Some(candles), period) == Some(100.0)
  {
    var ch := Changes(Closes(candles));
    NoLossKeepsZero(ch, period, |ch|);
  }

  // ---------------------------------------------------------------------------
  // EMA and SMA
  // ---------------------------------------------------------------------------

  /** One EMA step: `(value - last) * multiplier + last` with multiplier 2/(period+1). */
  function EmaNext(last: real, value: real, period: nat): real
    requires period >= 1
  {
    (value - last) * (2.0 / (period + 1) as real) + last
  }

  /** EMA values after reading the first `m` values: seeded by the mean of the first `period`. */
  function EmaSeries(values: seq<real>, period: nat, m: nat): (r: seq<real>)
    requires 1 <= period <= m <= |values|
    ensures |r| == m - period + 1
    decreases m
  {
    if m == period then [Sum(values[..period]) / period as real]
    else
      var prev := EmaSeries(values, period, m - 1);
      prev + [EmaNext(prev[|prev| - 1], values[m - 1], period)]
  }

  /** `calculateEMA(values, period)` */
  function Ema(values: seq<real>, period: nat): Option<seq<real>>
    requires period >= 1
  {
    if |values| < period then None else Some(EmaSeries(values, period, |values|))
  }

  method CalculateEMA(values: seq<real>, period: nat) returns (ema: Option<seq<real>>)
    requires period >= 1
    ensures ema == Ema(values, period)
  {
    if |values| < period {
      return None;
    }
    var sum := 0.0;
    var i := 0;
    while i < period
      invariant 0 <= i <= period
      invariant sum == Sum(values[..i])
    {
      assert values[..i + 1] == values[..i] + [values[i]];
      SumSnoc(values[..i], values[i]);
      sum := sum + values[i];
      i := i + 1;
    }
    var series := [sum / period as real];
    i := period;
    while i < |values|
      invariant period <= i <= |values|
      invariant series == EmaSeries(values, period, i)
    {
      var last := series[|series| - 1];
      series := series + [EmaNext(last, values[i], period)];
      i := i + 1;
    }
    ema := Some(series);
  }

  /** The EMA has one entry per value from index period-1 on, and starts at the mean of the first `period` values. */
  lemma {:induction false} EmaShape(values: seq<real>, period: nat, m: nat)
    requires 1 <= period <= m <= |values|
    ensures |EmaSeries(values, period, m)| == m - period + 1
    ensures EmaSeries(values, period, m)[0] == Sum(values[..period]) / period as real
    decreases m
  {
    if m > period {
      EmaShape(values, period, m - 1);
    }
  }

  /** An EMA step stays between the bounds of its two inputs. */
  lemma EmaNextWithin(last: real, value: real, period: nat, lo: real, hi: real)
    requires period >= 1
    requires lo <= last <= hi && lo <= value <= hi
    ensures lo <= EmaNext(last, value, period) <= hi
  {
    var k := 2.0 / (period + 1) as real;
    assert 0.0 < k <= 1.0;
    var next := EmaNext(last, value, period);
    assert next == (value - last) * k + last;
    if value >= last {
      MulMonotone(k, 0.0, value - last);
      MulMonotone(value - last, k, 1.0);
    } else {
      MulMonotone(k, value - last, 0.0);
      MulMonotone(last - value, k, 1.0);
    }
  }

  /** Each EMA entry is a convex combination of the values seen, so it stays within their bounds. */
  lemma {:induction false} EmaWithin(values: seq<real>, period: nat, m: nat, lo: real, hi: real)
    requires 1 <= period <= m <= |values|
    requires forall i :: 0 <= i < |values| ==> lo <= values[i] <= hi
    ensures forall j :: 0 <= j < |EmaSeries(values, period, m)| ==> lo <= EmaSeries(values, period, m)[j] <= hi
    decreases m
  {
    var r := EmaSeries(values, period, m);
    if m == period {
      MeanWithin(values[..period], lo, hi);
    } else {
      EmaWithin(values, period, m - 1, lo, hi);
      var prev := EmaSeries(values, period, m - 1);
      EmaNextWithin(prev[|prev| - 1], values[m - 1], period, lo, hi);
    }
  }

  /** `calculateSMA(values, period)`: mean of the last `period` values. */
  function Sma(values: Option<seq<real>>, period: nat): (r: Option<real>)
    requires period >= 1
    ensures r.None? <==> values.None? || |values.value| < period
  {
    if values.None? || |values.value| < period then None
    else Some(Sum(values.value[|values.value| - period..]) / period as real)
  }

  /** The SMA lies within any bounds that hold for the last `period` values. */
  lemma SmaWithin(values: seq<real>, period: nat, lo: real, hi: real)
    requires 1 <= period <= |values|
    requires forall i :: |values| - period <= i < |values| ==> lo <= values[i] <= hi
    ensures lo <= Sma(Some(values), period).value <= hi
  {
    MeanWithin(values[|values| - period..], lo, hi);
  }

  // ---------------------------------------------------------------------------
  // MACD
  // ---------------------------------------------------------------------------

  datatype Macd = Macd(line: real, signal: real, histogram: real)

  /**
   * MACD line entries pushed for close indices slow-1 .. i-1: entry for close
   * index j pairs fastEma[j - (slow - fast)] with slowEma[j - (slow - 1)],
   * skipped when the fast index is out of range (exactly as written).
   */
  function MacdLineTo(fastEma: seq<real>, slowEma: seq<real>, fast: nat, slow: nat, i: int): seq<real>
    requires 1 <= slow && slow - 1 <= i <= |slowEma| + slow - 1
    decreases i - (slow - 1)
  {
    if i == slow - 1 then []
    else
      var prev := MacdLineTo(fastEma, slowEma, fast, slow, i - 1);
      var fastIndex := (i - 1) - (slow - fast);
      if 0 <= fastIndex < |fastEma| then prev + [fastEma[fastIndex] - slowEma[(i - 1) - (slow - 1)]]
      else prev
  }

  /** `calculateMACD(candles, fast, slow, signal)` */
  function MacdOf(candles: Option<seq<Candle>>, fast: nat, slow: nat, signal: nat): Option<Macd>
    requires fast >= 1 && slow >= 1 && signal >= 1
  {
    if candles.None? || |candles.value| < slow + signal then None
    else
      var closes := Closes(candles.value);
      var fastEma := Ema(closes, fast);
      var slowEma := Ema(closes, slow);
      if fastEma.None? || slowEma.None? then None
      else
        var line := MacdLineTo(fastEma.value, slowEma.value, fast, slow, |closes|);
        var signalLine := Ema(line, signal);
        if signalLine.None? || |signalLine.value| == 0 then None
        else
          var latestMacd := line[|line| - 1];
          var latestSignal := signalLine.value[|signalLine.value| - 1];
          Some(Macd(Round5(latestMacd), Round5(latestSignal), Round5(latestMacd - latestSignal)))
  }

  method CalculateMACD(candles: Option<seq<Candle>>, fast: nat, slow: nat, signal: nat) returns (r: Option<Macd>)
    requires fast >= 1 && slow >= 1 && signal >= 1
    ensures r == MacdOf(candles, fast, slow, signal)
  {
    if candles.None? || |candles.value| < slow + signal {
      return None;
    }
    var closes := Closes(candles.value);
    var fastEma := CalculateEMA(closes, fast);
    var slowEma := CalculateEMA(closes, slow);
    if fastEma.None? || slowEma.None? {
      return None;
    }
    var line: seq<real> := [];
    var startIndex := slow - 1;
    var i := startIndex;
    while i < |closes|
      invariant startIndex <= i <= |closes|
      invariant line == MacdLineTo(fastEma.value, slowEma.value, fast, slow, i)
    {
      var fastIndex := i - (slow - fast);
      if 0 <= fastIndex < |fastEma.value| {
        line := line + [fastEma.value[fastIndex] - slowEma.value[i - startIndex]];
      }
      i := i + 1;
    }
    if |line| < signal {
      return None;
    }
    var signalLine := CalculateEMA(line, signal);
    if signalLine.None? || |signalLine.value| == 0 {
      return None;
    }
    var latestMacd := line[|line| - 1];
    var latestSignal := signalLine.value[|signalLine.value| - 1];
    r := Some(Macd(Round5(latestMacd), Round5(latestSignal), Round5(latestMacd - latestSignal)));
  }

  /**
   * When 2*fast <= slow+1 every close index from slow-1 on yields an entry:
   * the line has n-slow+1 entries and entry k is fastEma[k+fast-1] - slowEma[k].
   * (The fast index k+fast-1 is the one the source uses; the time-aligned one
   * would be k+slow-fast.)
   */
  lemma {:induction false} MacdLineShape(fastEma: seq<real>, slowEma: seq<real>, fast: nat, slow: nat, n: nat, i: int)
    requires 1 <= fast && 2 * fast <= slow + 1
    requires |fastEma| == n - fast + 1 && |slowEma| == n - slow + 1 && slow <= n
    requires slow - 1 <= i <= n
    ensures |MacdLineTo(fastEma, slowEma, fast, slow, i)| == i - slow + 1
    ensures forall k :: 0 <= k < i - slow + 1 ==>
              MacdLineTo(fastEma, slowEma, fast, slow, i)[k] == fastEma[k + fast - 1] - slowEma[k]
    decreases i - (slow - 1)
  {
    if i > slow - 1 {
      MacdLineShape(fastEma, slowEma, fast, slow, n, i - 1);
      var prev := MacdLineTo(fastEma, slowEma, fast, slow, i - 1);
      var k := i - slow;
      assert (i - 1) - (slow - fast) == k + fast - 1 < |fastEma|;
      var line := prev + [fastEma[k + fast - 1] - slowEma[k]];
      assert MacdLineTo(fastEma, slowEma, fast, slow, i) == line;
      forall j | 0 <= j < i - slow + 1
        ensures line[j] == fastEma[j + fast - 1] - slowEma[j]
      {
        if j < k {
          assert line[j] == prev[j];
        }
      }
    }
  }

  /** MACD is null below slow+signal candles; with the default periods (12, 26, 9) it is defined from 35 candles on. */
  lemma MacdDefinedness(candles: Option<seq<Candle>>)
    ensures candles.None? || |candles.value| < 35 ==> MacdOf(candles, 12, 26, 9).None?
    ensures candles.Some? && |candles.value| >= 35 ==> MacdOf(candles, 12, 26, 9).Some?
  {
    if candles.Some? && |candles.value| >= 35 {
      var closes := Closes(candles.value);
      var n := |closes|;
      var fe := EmaSeries(closes, 12, n);
      var se := EmaSeries(closes, 26, n);
      MacdLineShape(fe, se, 12, 26, n, n);
    }
  }

  /** The reported histogram equals the reported line minus signal up to the three 5-decimal roundings. */
  lemma MacdHistogramNearDifference(candles: Option<seq<Candle>>, fast: nat, slow: nat, signal: nat)
    requires fast >= 1 && slow >= 1 && signal >= 1
    requires MacdOf(candles, fast, slow, signal).Some?
    ensures var m := MacdOf(candles, fast, slow, signal).value;
            -0.000015 < m.histogram - (m.line - m.signal) < 0.000015
  {
    var closes := Closes(candles.value);
    var line := MacdLineTo(Ema(closes, fast).value, Ema(closes, slow).value, fast, slow, |closes|);
    var sl := Ema(line, signal).value;
    var a := line[|line| - 1];
    var b := sl[|sl| - 1];
    RoundToClose(a, 100000.0);
    RoundToClose(b, 100000.0);
    RoundToClose(a - b, 100000.0);
  }

  // ---------------------------------------------------------------------------
  // VWAP
  // ---------------------------------------------------------------------------

  function TypicalPrice(c: Candle): real { (c.high + c.low + c.close) / 3.0 }

  /** `candle.volume || 0` */
  function VolumeOrZero(c: Candle): real { c.volume.GetOr(0.0) }

  /** Sum of typical price times volume over the first `k` candles. */
  function CumTPV(cs: seq<Candle>, k: nat): real
    requires k <= |cs|
  {
    if k == 0 then 0.0 else CumTPV(cs, k - 1) + TypicalPrice(cs[k - 1]) * VolumeOrZero(cs[k - 1])
  }

  /** Sum of volumes over the first `k` candles. */
  function CumVolume(cs: seq<Candle>, k: nat): real
    requires k <= |cs|
  {
    if k == 0 then 0.0 else CumVolume(cs, k - 1) + VolumeOrZero(cs[k - 1])
  }

  /** Sum of typical prices over the first `k` candles. */
  function CumTP(cs: seq<Candle>, k: nat): real
    requires k <= |cs|
  {
    if k == 0 then 0.0 else CumTP(cs, k - 1) + TypicalPrice(cs[k - 1])
  }

  /** `calculateVWAP(candles)` */
  function Vwap(candles: Option<seq<Candle>>): Option<real>
  {
    if candles.None? || |candles.value| == 0 then None
    else
      var cs := candles.value;
      if CumVolume(cs, |cs|) == 0.0 then Some(Round2(CumTP(cs, |cs|) / |cs| as real))
      else Some(Round2(CumTPV(cs, |cs|) / CumVolume(cs, |cs|)))
  }

  method CalculateVWAP(candles: Option<seq<Candle>>) returns (vwap: Option<real>)
    ensures vwap == Vwap(candles)
  {
    if candles.None? || |candles.value| == 0 {
      return None;
    }
    var cs := candles.value;
    var cumulativeTPV, cumulativeVolume := 0.0, 0.0;
    var i := 0;
    while i < |cs|
      invariant 0 <= i <= |cs|
      invariant cumulativeTPV == CumTPV(cs, i) && cumulativeVolume == CumVolume(cs, i)
    {
      var typicalPrice := (cs[i].high + cs[i].low + cs[i].close) / 3.0;
      var volume := cs[i].volume.GetOr(0.0);
      cumulativeTPV := cumulativeTPV + typicalPrice * volume;
      cumulativeVolume := cumulativeVolume + volume;
      i := i + 1;
    }
    if cumulativeVolume == 0.0 {
      return Some(Round2(CumTP(cs, |cs|) / |cs| as real));
    }
    vwap := Some(Round2(cumulativeTPV / cumulativeVolume));
  }

  lemma {:induction false} CumVolumeZero(cs: seq<Candle>, k: nat)
    requires k <= |cs|
    requires forall i :: 0 <= i < |cs| ==> VolumeOrZero(cs[i]) == 0.0
    ensures CumVolume(cs, k) == 0.0
  {
    if k > 0 {
      CumVolumeZero(cs, k - 1);
    }
  }

  /** VWAP is null only on empty input; with missing or zero volumes it is the mean typical price, rounded to 2 decimals. */
  lemma VwapZeroVolume(candles: Option<seq<Candle>>)
    ensures Vwap(candles).None? <==> candles.None? || |candles.value| == 0
    ensures candles.Some? && |candles.value| > 0 &&
            (forall i :: 0 <= i < |candles.value| ==> VolumeOrZero(candles.value[i]) == 0.0) ==>
            Vwap(candles) == Some(Round2(CumTP(candles.value, |candles.value|) / |candles.value| as real))
  {
    if candles.Some? && |candles.value| > 0 && forall i :: 0 <= i < |candles.value| ==> VolumeOrZero(candles.value[i]) == 0.0 {
      CumVolumeZero(candles.value, |candles.value|);
    }
  }

  lemma {:induction false} CumUniform(cs: seq<Candle>, k: nat, v: real)
    requires k <= |cs|
    requires forall i :: 0 <= i < |cs| ==> cs[i].volume == Some(v)
    ensures CumVolume(cs, k) == k as real * v
    ensures CumTPV(cs, k) == v * CumTP(cs, k)
  {
    if k > 0 {
      CumUniform(cs, k - 1, v);
    }
  }

  /** When every candle carries the same positive volume, VWAP is the plain mean typical price. */
  lemma VwapUniformVolume(cs: seq<Candle>, v: real)
    requires |cs| > 0 && v > 0.0
    requires forall i :: 0 <= i < |cs| ==> cs[i].volume == Some(v)
    ensures Vwap(Some(cs)) == Some(Round2(CumTP(cs, |cs|) / |cs| as real))
  {
    CumUniform(cs, |cs|, v);
    var t, n := CumTP(cs, |cs|), |cs| as real;
    CancelFactor(t, n, v);
    assert CumTPV(cs, |cs|) / CumVolume(cs, |cs|) == (v * t) / (n * v);
  }

  // ---------------------------------------------------------------------------
  // Heiken-Ashi
  // ---------------------------------------------------------------------------

  /** A raw candle with its synthetic Heiken-Ashi values (the source spreads the raw candle into it). */
  datatype HaCandle = HaCandle(candle: Candle, haOpen: real, haHigh: real, haLow: real, haClose: real)

  function Max3(a: real, b: real, c: real): real { Max(a, Max(b, c)) }
  function Min3(a: real, b: real, c: real): real { Min(a, Min(b, c)) }

  /** The Heiken-Ashi candle for raw candle `c` given its synthetic open. */
  function HaOf(c: Candle, haOpen: real): HaCandle
  {
    var haClose := (c.open + c.high + c.low + c.close) / 4.0;
    HaCandle(c, haOpen, Max3(c.high, haOpen, haClose), Min3(c.low, haOpen, haClose), haClose)
  }

  /** Synthetic open of the next candle after the Heiken-Ashi candles `prev`. */
  function NextHaOpen(prev: seq<HaCandle>, c: Candle): real
  {
    if |prev| == 0 then (c.open + c.close) / 2.0
    else (prev[|prev| - 1].haOpen + prev[|prev| - 1].haClose) / 2.0
  }

  function HeikenAshi(cs: seq<Candle>): (r: seq<HaCandle>)
    ensures |r| == |cs|
  {
    if |cs| == 0 then []
    else
      var prev := HeikenAshi(cs[..|cs| - 1]);
      prev + [HaOf(cs[|cs| - 1], NextHaOpen(prev, cs[|cs| - 1]))]
  }

  /** `calculateHeikenAshi(candles)` */
  method CalculateHeikenAshi(candles: Option<seq<Candle>>) returns (ha: seq<HaCandle>)
    ensures candles.None? ==> ha == []
    ensures candles.Some? ==> ha == HeikenAshi(candles.value)
  {
    if candles.None? || |candles.value| == 0 {
      return [];
    }
    var cs := candles.value;
    ha := [];
    var i := 0;
    while i < |cs|
      invariant 0 <= i <= |cs|
      invariant ha == HeikenAshi(cs[..i])
    {
      var candle := cs[i];
      var haClose := (candle.open + candle.high + candle.low + candle.close) / 4.0;
      var haOpen;
      if i == 0 {
        haOpen := (candle.open + candle.close) / 2.0;
      } else {
        haOpen := (ha[i - 1].haOpen + ha[i - 1].haClose) / 2.0;
      }
      var next := HaCandle(candle, haOpen, Max3(candle.high, haOpen, haClose), Min3(candle.low, haOpen, haClose), haClose);
      assert cs[..i + 1][..i] == cs[..i];
      ha := ha + [next];
      i := i + 1;
    }
    assert cs[..i] == cs;
  }

  lemma {:induction false} HeikenAshiPrefix(cs: seq<Candle>, k: nat)
    requires k <= |cs|
    ensures HeikenAshi(cs)[..k] == HeikenAshi(cs[..k])
    decreases |cs|
  {
    if k < |cs| {
      assert cs[..|cs| - 1][..k] == cs[..k];
      HeikenAshiPrefix(cs[..|cs| - 1], k);
    } else {
      assert cs[..k] == cs;
    }
  }

  /**
   * Heiken-Ashi keeps the length; each synthetic close is the OHLC mean; the
   * first synthetic open is (O+C)/2 and each later one the mean of the previous
   * synthetic open and close; the synthetic high (low) bounds the raw high
   * (low) and both synthetic open and close from above (below).
   */
  lemma HeikenAshiShape(cs: seq<Candle>, i: nat)
    requires i < |cs|
    ensures |HeikenAshi(cs)| == |cs|
    ensures var h := HeikenAshi(cs)[i];
            && h.candle == cs[i]
            && h.haClose == (cs[i].open + cs[i].high + cs[i].low + cs[i].close) / 4.0
            && (i == 0 ==> h.haOpen == (cs[0].open + cs[0].close) / 2.0)
            && (i > 0 ==> h.haOpen == (HeikenAshi(cs)[i - 1].haOpen + HeikenAshi(cs)[i - 1].haClose) / 2.0)
            && h.haHigh >= cs[i].high && h.haHigh >= h.haOpen && h.haHigh >= h.haClose
            && h.haLow <= cs[i].low && h.haLow <= h.haOpen && h.haLow <= h.haClose
  {
    HeikenAshiPrefix(cs, i + 1);
    var pre := cs[..i + 1];
    assert pre[..i] == cs[..i];
    assert HeikenAshi(cs)[i] == HeikenAshi(pre)[i];
    if i > 0 {
      HeikenAshiPrefix(cs, i);
      assert HeikenAshi(pre)[..i] == HeikenAshi(cs[..i]);
      assert HeikenAshi(cs)[i - 1] == HeikenAshi(cs[..i])[i - 1];
    }
  }

  // ---------------------------------------------------------------------------
  // Regime classifier
  // ---------------------------------------------------------------------------

  datatype Regime = TrendUp | TrendDown | Range | Chop

  /** Positive directional movement contributed by bar `i` (against bar i-1). */
  function PlusDMAt(recent: seq<Candle>, i: nat): (r: real)
    requires 1 <= i < |recent|
    ensures r >= 0.0
  {
    var highDiff := recent[i].high - recent[i - 1].high;
    var lowDiff := recent[i - 1].low - recent[i].low;
    if highDiff > lowDiff && highDiff > 0.0 then highDiff else 0.0
  }

  /** Negative directional movement contributed by bar `i`. */
  function MinusDMAt(recent: seq<Candle>, i: nat): (r: real)
    requires 1 <= i < |recent|
    ensures r >= 0.0
  {
    var highDiff := recent[i].high - recent[i - 1].high;
    var lowDiff := recent[i - 1].low - recent[i].low;
    if lowDiff > highDiff && lowDiff > 0.0 then lowDiff else 0.0
  }

  /** plusDM accumulated over bars 1 .. k-1. */
  function PlusDM(recent: seq<Candle>, k: nat): (r: real)
    requires k <= |recent|
    ensures r >= 0.0
  {
    if k <= 1 then 0.0 else PlusDM(recent, k - 1) + PlusDMAt(recent, k - 1)
  }

  /** minusDM accumulated over bars 1 .. k-1. */
  function MinusDM(recent: seq<Candle>, k: nat): (r: real)
    requires k <= |recent|
    ensures r >= 0.0
  {
    if k <= 1 then 0.0 else MinusDM(recent, k - 1) + MinusDMAt(recent, k - 1)
  }

  /** |plusDM - minusDM| / (plusDM + minusDM), or 0 when there was no movement. */
  function DmRatio(plusDM: real, minusDM: real): real
    requires plusDM >= 0.0 && minusDM >= 0.0
  {
    if plusDM + minusDM > 0.0 then Abs(plusDM - minusDM) / (plusDM + minusDM) else 0.0
  }

  lemma DmRatioBounds(plusDM: real, minusDM: real)
    requires plusDM >= 0.0 && minusDM >= 0.0
    ensures 0.0 <= DmRatio(plusDM, minusDM) <= 1.0
  {
    if plusDM + minusDM > 0.0 {
      FractionBounds(Abs(plusDM - minusDM), plusDM + minusDM);
    }
  }

  /** The quantities the classifier compares, over the last 20 bars. */
  datatype RegimeStats = RegimeStats(sma10: real, sma20: real, rangePercent: Ext, dmRatio: real,
                                     trendStrength: Ext, currentPrice: real)

  function Stats(cs: seq<Candle>): RegimeStats
    requires |cs| >= 20
  {
    var recent := cs[|cs| - 20..];
    StatsFrom(cs, PlusDM(recent, 20), MinusDM(recent, 20))
  }

  /** The statistics given the directional movement the loop summed over the last 20 bars. */
  function StatsFrom(cs: seq<Candle>, plusDM: real, minusDM: real): RegimeStats
    requires |cs| >= 20 && plusDM >= 0.0 && minusDM >= 0.0
  {
    var closes := Closes(cs);
    var last20 := closes[|closes| - 20..];
    var sma10 := Sma(Some(closes), 10).value;
    var sma20 := Sma(Some(closes), 20).value;
    var priceRange := MaxOf(last20) - MinOf(last20);
    var avgPrice := Sum(last20) / 20.0;
    RegimeStats(sma10, sma20, Percent(priceRange, avgPrice), DmRatio(plusDM, minusDM),
                Percent(Abs(sma10 - sma20), avgPrice), closes[|closes| - 1])
  }

  function Classify(s: RegimeStats): Regime
  {
    if ExtGreater(s.trendStrength, 0.5) && s.dmRatio > 0.3 && s.sma10 > s.sma20 && s.currentPrice > s.sma10 then TrendUp
    else if ExtGreater(s.trendStrength, 0.5) && s.dmRatio > 0.3 && s.sma10 < s.sma20 && s.currentPrice < s.sma10 then TrendDown
    else if ExtLess(s.rangePercent, 3.0) && s.dmRatio < 0.2 then Range
    else Chop
  }

  /** `detectRegime(candles)` */
  function RegimeOf(candles: Option<seq<Candle>>): Regime
  {
    if candles.None? || |candles.value| < 20 then Chop else Classify(Stats(candles.value))
  }

  /** The loop of `detectRegime` summing the upward and downward directional movement of the bars. */
  method DirectionalMovement(recent: seq<Candle>) returns (plusDM: real, minusDM: real)
    ensures plusDM == PlusDM(recent, |recent|) && minusDM == MinusDM(recent, |recent|)
  {
    plusDM, minusDM := 0.0, 0.0;
    if |recent| == 0 {
      return;
    }
    var i := 1;
    while i < |recent|
      invariant 1 <= i <= |recent|
      invariant plusDM == PlusDM(recent, i) && minusDM == MinusDM(recent, i)
    {
      var highDiff := recent[i].high - recent[i - 1].high;
      var lowDiff := recent[i - 1].low - recent[i].low;
      if highDiff > lowDiff && highDiff > 0.0 {
        plusDM := plusDM + highDiff;
      }
      if lowDiff > highDiff && lowDiff > 0.0 {
        minusDM := minusDM + lowDiff;
      }
      i := i + 1;
    }
  }

  method DetectRegime(candles: Option<seq<Candle>>) returns (regime: Regime)
    ensures regime == RegimeOf(candles)
  {
    if candles.None? || |candles.value| < 20 {
      return Chop;
    }
    var cs := candles.value;
    var plusDM, minusDM := DirectionalMovement(cs[|cs| - 20..]);
    var s := StatsFrom(cs, plusDM, minusDM);
    if ExtGreater(s.trendStrength, 0.5) && s.dmRatio > 0.3 {
      if s.sma10 > s.sma20 && s.currentPrice > s.sma10 {
        return TrendUp;
      }
      if s.sma10 < s.sma20 && s.currentPrice < s.sma10 {
        return TrendDown;
      }
    }
    if ExtLess(s.rangePercent, 3.0) && s.dmRatio < 0.2 {
      return Range;
    }
    return Chop;
  }

  /**
   * The classifier answers CHOP below 20 candles; its directional ratio lies
   * in [0, 1]; TREND_UP and TREND_DOWN require trend strength above 0.5,
   * ratio above 0.3 and the SMA10 side confirmed by the last close; RANGE
   * requires a 20-bar range below 3% and ratio below 0.2.
   */
  lemma RegimeConditions(candles: Option<seq<Candle>>)
    ensures candles.None? || |candles.value| < 20 ==> RegimeOf(candles) == Chop
    ensures candles.Some? && |candles.value| >= 20 ==> 0.0 <= Stats(candles.value).dmRatio <= 1.0
    ensures RegimeOf(candles) == TrendUp ==>
              var s := Stats(candles.value);
              ExtGreater(s.trendStrength, 0.5) && s.dmRatio > 0.3 && s.sma10 > s.sma20 && s.currentPrice > s.sma10
    ensures RegimeOf(candles) == TrendDown ==>
              var s := Stats(candles.value);
              ExtGreater(s.trendStrength, 0.5) && s.dmRatio > 0.3 && s.sma10 < s.sma20 && s.currentPrice < s.sma10
    ensures RegimeOf(candles) == Range ==>
              var s := Stats(candles.value);
              ExtLess(s.rangePercent, 3.0) && s.dmRatio < 0.2
  {
    if candles.Some? && |candles.value| >= 20 {
      var recent := candles.value[|candles.value| - 20..];
      DmRatioBounds(PlusDM(recent, 20), MinusDM(recent, 20));
    }
  }

  // ---------------------------------------------------------------------------
  // ATR
  // ---------------------------------------------------------------------------

  function TrueRange(current: Candle, previous: Candle): (r: real)
    ensures r >= 0.0
  {
    Max3(current.high - current.low, Abs(current.high - previous.close), Abs(current.low - previous.close))
  }

  function TrueRanges(cs: seq<Candle>): (r: seq<real>)
    requires |cs| >= 1
    ensures |r| == |cs| - 1
  {
    seq(|cs| - 1, i requires 0 <= i < |cs| - 1 => TrueRange(cs[i + 1], cs[i]))
  }

  /** `calculateATR(candles, period)`: simple mean of the last `period` true ranges. */
  function Atr(candles: Option<seq<Candle>>, period: nat): Option<real>
    requires period >= 1
  {
    if candles.None? || |candles.value| < period + 1 then None
    else
      var trs := TrueRanges(candles.value);
      Some(Sum(trs[|trs| - period..]) / period as real)
  }

  method CalculateATR(candles: Option<seq<Candle>>, period: nat) returns (atr: Option<real>)
    requires period >= 1
    ensures atr == Atr(candles, period)
  {
    if candles.None? || |candles.value| < period + 1 {
      return None;
    }
    var cs := candles.value;
    var trueRanges: seq<real> := [];
    var i := 1;
    while i < |cs|
      invariant 1 <= i <= |cs|
      invariant |trueRanges| == i - 1
      invariant forall j :: 0 <= j < i - 1 ==> trueRanges[j] == TrueRange(cs[j + 1], cs[j])
    {
      var tr := Max3(cs[i].high - cs[i].low, Abs(cs[i].high - cs[i - 1].close), Abs(cs[i].low - cs[i - 1].close));
      trueRanges := trueRanges + [tr];
      i := i + 1;
    }
    assert trueRanges == TrueRanges(cs);
    atr := Some(Sum(trueRanges[|trueRanges| - period..]) / period as real);
  }

  /** ATR is null below period+1 candles and otherwise non-negative. */
  lemma AtrNonNegative(candles: Option<seq<Candle>>, period: nat)
    requires period >= 1
    ensures Atr(candles, period).None? <==> candles.None? || |candles.value| < period + 1
    ensures Atr(candles, period).Some? ==> Atr(candles, period).value >= 0.0
  {
    if candles.Some? && |candles.value| >= period + 1 {
      var trs := TrueRanges(candles.value);
      var w := trs[|trs| - period..];
      assert forall i :: 0 <= i < |w| ==> w[i] >= 0.0 by {
        forall i | 0 <= i < |w| ensures w[i] >= 0.0 {
          assert w[i] == trs[|trs| - period + i];
        }
      }
      SumNonNegative(w);
      QuotientSign(Sum(w), period as real);
    }
  }

  // ---------------------------------------------------------------------------
  // Heiken-Ashi trend
  // ---------------------------------------------------------------------------

  datatype HaDirection = HaUp | HaDown | HaNeutral
  datatype HaTrend = HaTrend(direction: HaDirection, strength: real)

  /** Bullish (close above open) candles among the first `k`. */
  function BullCount(recent: seq<HaCandle>, k: nat): (r: nat)
    requires k <= |recent|
    ensures r <= k
  {
    if k == 0 then 0 else BullCount(recent, k - 1) + (if recent[k - 1].haClose > recent[k - 1].haOpen then 1 else 0)
  }

  /** Bearish (close below open) candles among the first `k`. */
  function BearCount(recent: seq<HaCandle>, k: nat): (r: nat)
    requires k <= |recent|
    ensures r <= k
  {
    if k == 0 then 0 else BearCount(recent, k - 1) + (if recent[k - 1].haClose < recent[k - 1].haOpen then 1 else 0)
  }

  lemma {:induction false} CountsDisjoint(recent: seq<HaCandle>, k: nat)
    requires k <= |recent|
    ensures BullCount(recent, k) + BearCount(recent, k) <= k
  {
    if k > 0 {
      CountsDisjoint(recent, k - 1);
    }
  }

  /** The final choice of `getHATrend` from the two counts. */
  function TrendFromCounts(bullish: nat, bearish: nat, lookback: nat): HaTrend
    requires lookback >= 1
  {
    var strength := (if bullish >= bearish then bullish else bearish) as real / lookback as real;
    if bullish > bearish then HaTrend(HaUp, strength)
    else if bearish > bullish then HaTrend(HaDown, strength)
    else HaTrend(HaNeutral, 0.0)
  }

  /** `getHATrend(haCandles, lookback)` */
  function HaTrendOf(haCandles: seq<HaCandle>, lookback: nat): HaTrend
    requires lookback >= 1
  {
    if |haCandles| < lookback then HaTrend(HaNeutral, 0.0)
    else
      var recent := haCandles[|haCandles| - lookback..];
      TrendFromCounts(BullCount(recent, lookback), BearCount(recent, lookback), lookback)
  }

  method GetHATrend(haCandles: seq<HaCandle>, lookback: nat) returns (trend: HaTrend)
    requires lookback >= 1
    ensures trend == HaTrendOf(haCandles, lookback)
  {
    if |haCandles| < lookback {
      return HaTrend(HaNeutral, 0.0);
    }
    var recent := haCandles[|haCandles| - lookback..];
    var bullishCount, bearishCount := 0, 0;
    var i := 0;
    while i < |recent|
      invariant 0 <= i <= |recent|
      invariant bullishCount == BullCount(recent, i) && bearishCount == BearCount(recent, i)
    {
      if recent[i].haClose > recent[i].haOpen {
        bullishCount := bullishCount + 1;
      } else if recent[i].haClose < recent[i].haOpen {
        bearishCount := bearishCount + 1;
      }
      i := i + 1;
    }
    var strength := (if bullishCount >= bearishCount then bullishCount else bearishCount) as real / lookback as real;
    if bullishCount > bearishCount {
      return HaTrend(HaUp, strength);
    }
    if bearishCount > bullishCount {
      return HaTrend(HaDown, strength);
    }
    return HaTrend(HaNeutral, 0.0);
  }

  /**
   * HA trend: neutral with strength 0 on short input or a tie; 'up' exactly
   * when bullish candles outnumber bearish ones; strength in [0, 1].
   */
  lemma HaTrendFacts(haCandles: seq<HaCandle>, lookback: nat)
    requires lookback >= 1
    ensures var t := HaTrendOf(haCandles, lookback);
            && 0.0 <= t.strength <= 1.0
            && (|haCandles| < lookback ==> t == HaTrend(HaNeutral, 0.0))
            && (|haCandles| >= lookback ==>
                  var recent := haCandles[|haCandles| - lookback..];
                  && (t.direction == HaUp <==> BullCount(recent, lookback) > BearCount(recent, lookback))
                  && (t.direction == HaDown <==> BearCount(recent, lookback) > BullCount(recent, lookback))
                  && (t.direction == HaNeutral ==> t.strength == 0.0))
  {
    if |haCandles| >= lookback {
      var recent := haCandles[|haCandles| - lookback..];
      CountsDisjoint(recent, lookback);
      var b := BullCount(recent, lookback);
      var s := BearCount(recent, lookback);
      var m := if b >= s then b else s;
      FractionBounds(m as real, lookback as real);
    }
  }
}
