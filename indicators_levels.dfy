/**
 * Price-level and volume indicators of `TechnicalIndicators`: on-balance
 * volume and its moving average, the recent swing high and low, the
 * support level, and bullish RSI divergence.
 */
module IndicatorsLevels {
  import opened Common
  import opened Indicators

  // ---------------------------------------------------------------- OBV

  /** The OBV change at candle `i`: plus its volume on a higher close, minus on a lower one, nothing on an equal one. */
  function ObvStep(candles: seq<Candle>, i: int): real
    requires 1 <= i < |candles|
  {
    if candles[i].close > candles[i - 1].close then candles[i].volume
    else if candles[i].close < candles[i - 1].close then -candles[i].volume
    else 0.0
  }

  /** The running OBV at candle `i`, starting from 0 at the first candle. */
  function ObvAt(candles: seq<Candle>, i: int): real
    requires 0 <= i < |candles|
    decreases i
  {
    if i == 0 then 0.0 else ObvAt(candles, i - 1) + ObvStep(candles, i)
  }

  /** `CalculateObv`: one value per candle, empty for no candles. */
  function Obv(candles: seq<Candle>): (r: seq<real>)
    ensures |r| == |candles|
  {
    seq(|candles|, i requires 0 <= i < |candles| => ObvAt(candles, i))
  }

  method CalculateObv(candles: seq<Candle>) returns (result: seq<real>)
    ensures result == Obv(candles)
  {
    result := [];
    if |candles| == 0 {
      return;
    }
    var obv := 0.0;
    result := result + [obv];
    for i := 1 to |candles|
      invariant |result| == i
      invariant obv == ObvAt(candles, i - 1)
      invariant forall k :: 0 <= k < i ==> result[k] == ObvAt(candles, k)
    {
      if candles[i].close > candles[i - 1].close {
        obv := obv + candles[i].volume;
      } else if candles[i].close < candles[i - 1].close {
        obv := obv - candles[i].volume;
      }
      result := result + [obv];
    }
  }

  /** The volume traded from the second candle through candle `i`. */
  function VolumeThrough(candles: seq<Candle>, i: int): real
    requires 0 <= i < |candles|
    decreases i
  {
    if i == 0 then 0.0 else VolumeThrough(candles, i - 1) + candles[i].volume
  }

  /** With non-negative volumes, OBV never moves further from 0 than the volume traded so far. */
  lemma {:induction false} ObvBoundedByVolume(candles: seq<Candle>, i: int)
    requires 0 <= i < |candles|
    requires forall k :: 0 <= k < |candles| ==> candles[k].volume >= 0.0
    ensures Abs(ObvAt(candles, i)) <= VolumeThrough(candles, i)
    decreases i
  {
    if i > 0 {
      ObvBoundedByVolume(candles, i - 1);
    }
  }

  /** On strictly rising closes OBV is the cumulative volume; on strictly falling closes its negation. */
  lemma {:induction false} ObvOfMonotoneCloses(candles: seq<Candle>, i: int)
    requires 0 <= i < |candles|
    ensures (forall k :: 1 <= k <= i ==> candles[k].close > candles[k - 1].close) ==>
              ObvAt(candles, i) == VolumeThrough(candles, i)
    ensures (forall k :: 1 <= k <= i ==> candles[k].close < candles[k - 1].close) ==>
              ObvAt(candles, i) == -VolumeThrough(candles, i)
    decreases i
  {
    if i > 0 {
      ObvOfMonotoneCloses(candles, i - 1);
    }
  }

  /** `CalculateObvSma`: the SMA of the OBV series. */
  function ObvSma(candles: seq<Candle>, period: int): (r: seq<Option<real>>)
    requires period >= 1
    ensures |r| == |candles|
  {
    Sma(Obv(candles), period)
  }

  method CalculateObvSma(candles: seq<Candle>, period: int) returns (result: seq<Option<real>>)
    requires period >= 1
    ensures result == ObvSma(candles, period)
  {
    var obvValues := CalculateObv(candles);
    result := CalculateSma(obvValues, period);
  }

  /** With non-negative volumes every OBV average lies within the total volume of the series, either way. */
  lemma ObvSmaBounds(candles: seq<Candle>, period: int)
    requires period >= 1 && |candles| > 0
    requires forall k :: 0 <= k < |candles| ==> candles[k].volume >= 0.0
    ensures DefinedWithin(ObvSma(candles, period), -VolumeThrough(candles, |candles| - 1), VolumeThrough(candles, |candles| - 1))
  {
    var total := VolumeThrough(candles, |candles| - 1);
    var obv := Obv(candles);
    forall k | 0 <= k < |obv| ensures -total <= obv[k] <= total {
      ObvBoundedByVolume(candles, k);
      VolumeThroughMonotone(candles, k, |candles| - 1);
    }
    SmaBounds(obv, period, -total, total);
  }

  lemma {:induction false} VolumeThroughMonotone(candles: seq<Candle>, i: int, j: int)
    requires 0 <= i <= j < |candles|
    requires forall k :: 0 <= k < |candles| ==> candles[k].volume >= 0.0
    ensures VolumeThrough(candles, i) <= VolumeThrough(candles, j)
    decreases j - i
  {
    if i < j {
      VolumeThroughMonotone(candles, i, j - 1);
    }
  }

  // ------------------------------------------------------ Swing, support

  /** `FindRecentSwing`: the highest high and lowest low of the last `lookback` candles, `(0, 0)` when there are fewer. */
  function RecentSwing(candles: seq<Candle>, lookback: int): (real, real)
    requires lookback >= 1
  {
    if |candles| < lookback then (0.0, 0.0)
    else
      var snapshot := candles[|candles| - lookback..];
      (MaxOf(Highs(snapshot)), MinOf(Lows(snapshot)))
  }

  /** The swing high is a high of the window above every other high, the swing low a low below every other low. */
  lemma RecentSwingExtremes(candles: seq<Candle>, lookback: int)
    requires lookback >= 1 && |candles| >= lookback
    ensures var (high, low) := RecentSwing(candles, lookback);
      (forall k :: |candles| - lookback <= k < |candles| ==> candles[k].high <= high && low <= candles[k].low) &&
      (exists k :: |candles| - lookback <= k < |candles| && candles[k].high == high) &&
      (exists k :: |candles| - lookback <= k < |candles| && candles[k].low == low)
  {
    var start := |candles| - lookback;
    var highs := Highs(candles[start..]);
    var lows := Lows(candles[start..]);
    forall k | start <= k < |candles| ensures candles[k].high <= MaxOf(highs) && MinOf(lows) <= candles[k].low {
      MaxOfIsUpper(highs, k - start);
      MinOfIsLower(lows, k - start);
    }
    MaxOfIsElement(highs);
    var h :| 0 <= h < |highs| && highs[h] == MaxOf(highs);
    assert candles[start + h].high == MaxOf(highs);
    MinOfIsElement(lows);
    var l :| 0 <= l < |lows| && lows[l] == MinOf(lows);
    assert candles[start + l].low == MinOf(lows);
  }

  /** When every candle's low is at most its high, the swing low is at most the swing high. */
  lemma RecentSwingOrdered(candles: seq<Candle>, lookback: int)
    requires lookback >= 1
    requires forall k :: 0 <= k < |candles| ==> candles[k].low <= candles[k].high
    ensures RecentSwing(candles, lookback).1 <= RecentSwing(candles, lookback).0
  {
    if |candles| >= lookback {
      RecentSwingExtremes(candles, lookback);
      var start := |candles| - lookback;
      assert candles[start].low <= candles[start].high;
    }
  }

  /** `CalculateSupportLevel`: the lowest low of the last `lookback` candles, null when there are fewer. */
  function SupportLevel(candles: seq<Candle>, lookback: int): Option<real>
    requires lookback >= 1
  {
    if |candles| < lookback then None
    else Some(MinOf(Lows(candles[|candles| - lookback..])))
  }

  /** The support level exists exactly when there are enough candles, and is then the lowest low of the window. */
  lemma SupportLevelIsLowestLow(candles: seq<Candle>, lookback: int)
    requires lookback >= 1
    ensures SupportLevel(candles, lookback).Some? <==> |candles| >= lookback
    ensures SupportLevel(candles, lookback).Some? ==>
      var level := SupportLevel(candles, lookback).value;
      (forall k :: |candles| - lookback <= k < |candles| ==> level <= candles[k].low) &&
      (exists k :: |candles| - lookback <= k < |candles| && candles[k].low == level)
  {
    if |candles| >= lookback {
      RecentSwingExtremes(candles, lookback);
    }
  }

  // ------------------------------------------------------ RSI divergence

  /**
   * `DetectBullishDivergence`: the lowest low of the later half of the last
   * `lookback` candles is below that of the earlier half, while the lowest
   * RSI of the later half of the non-null RSI values is above that of the
   * earlier half. At least five RSI values are needed.
   */
  function BullishDivergence(candles: seq<Candle>, rsiValues: seq<Option<real>>, lookback: int): bool
  {
    if |candles| < lookback || |rsiValues| < lookback then false
    else
      var recentCandles := TakeLast(candles, lookback);
      var recentRsi := Somes(TakeLast(rsiValues, lookback));
      if |recentRsi| < 5 then false
      else
        var priceLow1 := MinOf(Lows(recentCandles[..|recentCandles| / 2]));
        var priceLow2 := MinOf(Lows(recentCandles[|recentCandles| / 2..]));
        var rsiLow1 := MinOf(recentRsi[..|recentRsi| / 2]);
        var rsiLow2 := MinOf(recentRsi[|recentRsi| / 2..]);
        priceLow2 < priceLow1 && rsiLow2 > rsiLow1
  }

  /** One minimum is below another exactly when some element of the first is below every element of the second. */
  lemma MinBelowIff(a: seq<real>, b: seq<real>)
    requires |a| > 0 && |b| > 0
    ensures MinOf(a) < MinOf(b) <==> exists j :: 0 <= j < |a| && forall i :: 0 <= i < |b| ==> a[j] < b[i]
  {
    MinOfIsElement(a);
    MinOfIsElement(b);
    var ja :| 0 <= ja < |a| && a[ja] == MinOf(a);
    var jb :| 0 <= jb < |b| && b[jb] == MinOf(b);
    if MinOf(a) < MinOf(b) {
      forall i | 0 <= i < |b| ensures a[ja] < b[i] {
        MinOfIsLower(b, i);
      }
    }
    if exists j :: 0 <= j < |a| && forall i :: 0 <= i < |b| ==> a[j] < b[i] {
      var j :| 0 <= j < |a| && forall i :: 0 <= i < |b| ==> a[j] < b[i];
      MinOfIsLower(a, j);
      assert a[j] < b[jb];
    }
  }

  /** The later part's minimum is below the earlier part's exactly when some later element is below every earlier one. */
  lemma LaterMinBelowIff(s: seq<real>, h: int)
    requires 0 < h < |s|
    ensures MinOf(s[h..]) < MinOf(s[..h]) <==> exists j :: h <= j < |s| && forall i :: 0 <= i < h ==> s[j] < s[i]
  {
    var later, earlier := s[h..], s[..h];
    MinBelowIff(later, earlier);
    if exists j :: h <= j < |s| && forall i :: 0 <= i < h ==> s[j] < s[i] {
      var j :| h <= j < |s| && forall i :: 0 <= i < h ==> s[j] < s[i];
      assert later[j - h] == s[j];
      assert forall i :: 0 <= i < |earlier| ==> later[j - h] < earlier[i];
    }
    if exists j :: 0 <= j < |later| && forall i :: 0 <= i < |earlier| ==> later[j] < earlier[i] {
      var j :| 0 <= j < |later| && forall i :: 0 <= i < |earlier| ==> later[j] < earlier[i];
      assert forall i :: 0 <= i < h ==> s[h + j] < s[i] by {
        forall i | 0 <= i < h ensures s[h + j] < s[i] {
          assert later[j] < earlier[i];
        }
      }
    }
  }

  /** The earlier part's minimum is below the later part's exactly when some earlier element is below every later one. */
  lemma EarlierMinBelowIff(s: seq<real>, h: int)
    requires 0 < h < |s|
    ensures MinOf(s[..h]) < MinOf(s[h..]) <==> exists j :: 0 <= j < h && forall i :: h <= i < |s| ==> s[j] < s[i]
  {
    var later, earlier := s[h..], s[..h];
    MinBelowIff(earlier, later);
    if exists j :: 0 <= j < h && forall i :: h <= i < |s| ==> s[j] < s[i] {
      var j :| 0 <= j < h && forall i :: h <= i < |s| ==> s[j] < s[i];
      assert earlier[j] == s[j];
      assert forall i :: 0 <= i < |later| ==> earlier[j] < later[i] by {
        forall i | 0 <= i < |later| ensures earlier[j] < later[i] {
          assert later[i] == s[h + i];
        }
      }
    }
    if exists j :: 0 <= j < |earlier| && forall i :: 0 <= i < |later| ==> earlier[j] < later[i] {
      var j :| 0 <= j < |earlier| && forall i :: 0 <= i < |later| ==> earlier[j] < later[i];
      assert forall i :: h <= i < |s| ==> s[j] < s[i] by {
        forall i | h <= i < |s| ensures s[j] < s[i] {
          assert earlier[j] < later[i - h];
        }
      }
    }
  }

  /**
   * The divergence in terms of the candles and RSI values themselves: some
   * later candle's low is below every earlier low, and some earlier RSI is
   * below every later RSI.
   */
  lemma BullishDivergenceMeaning(candles: seq<Candle>, rsiValues: seq<Option<real>>, lookback: int)
    requires |candles| >= lookback && |rsiValues| >= lookback
    requires |Somes(TakeLast(rsiValues, lookback))| >= 5
    ensures var lows := Lows(TakeLast(candles, lookback));
      var rsi := Somes(TakeLast(rsiValues, lookback));
      var h := |lows| / 2;
      var hr := |rsi| / 2;
      BullishDivergence(candles, rsiValues, lookback) <==>
        (exists j :: h <= j < |lows| && forall i :: 0 <= i < h ==> lows[j] < lows[i]) &&
        (exists j :: 0 <= j < hr && forall i :: hr <= i < |rsi| ==> rsi[j] < rsi[i])
  {
    var recent := TakeLast(candles, lookback);
    var lows := Lows(recent);
    var rsi := Somes(TakeLast(rsiValues, lookback));
    var h := |lows| / 2;
    assert Lows(recent[..h]) == lows[..h];
    assert Lows(recent[h..]) == lows[h..];
    LaterMinBelowIff(lows, h);
    EarlierMinBelowIff(rsi, |rsi| / 2);
  }
}
