/**
 * Volatility and trend-strength indicators of `TechnicalIndicators`:
 * Bollinger bands and bandwidth, the average true range and the average
 * directional index with its +DI and -DI lines.
 *
 * The standard deviation of the Bollinger bands goes through
 * `Math.Sqrt` on doubles; the model receives that square root as the
 * parameter `sqrt` and proves what holds for any square root.
 */
module IndicatorsBands {
  import opened Common
  import opened Indicators

  // ----------------------------------------------------- Bollinger bands

  datatype Bands = Bands(upper: seq<Option<real>>, middle: seq<Option<real>>, lower: seq<Option<real>>)

  /** The squared deviations from the window's mean. */
  function SquaredDeviations(window: seq<real>): (r: seq<real>)
    requires |window| > 0
    ensures |r| == |window|
    ensures forall k :: 0 <= k < |r| ==> r[k] >= 0.0
  {
    var avg := Mean(window);
    seq(|window|, k requires 0 <= k < |window| => SquareNonNegative(window[k] - avg))
  }

  function SquareNonNegative(d: real): (r: real)
    ensures r == d * d && r >= 0.0
  {
    if d >= 0.0 then MulNonNegative(d, d); d * d
    else MulNonNegative(-d, -d); d * d
  }

  /** The population variance of the window the band at index `i` uses. */
  function BandVariance(prices: seq<real>, period: int, i: int): (r: real)
    requires period >= 1 && period - 1 <= i < |prices|
    ensures r >= 0.0
  {
    var window := prices[i - period + 1 .. i + 1];
    SumNonNegative(SquaredDeviations(window));
    Sum(SquaredDeviations(window)) / period as real
  }

  /** The standard deviation of the window at index `i`, through the given square root. */
  function StdDevAt(prices: seq<real>, period: int, sqrt: real -> real, i: int): real
    requires period >= 1 && period - 1 <= i < |prices|
  {
    sqrt(BandVariance(prices, period, i))
  }

  /** How far the outer bands sit from the middle band at index `i`. */
  function BandOffset(prices: seq<real>, period: int, multiplier: real, sqrt: real -> real, i: int): real
    requires period >= 1 && period - 1 <= i < |prices|
  {
    StdDevAt(prices, period, sqrt, i) * multiplier
  }

  /** The upper band at index `i`: `multiplier` standard deviations above the SMA. */
  function UpperBandAt(prices: seq<real>, period: int, multiplier: real, sqrt: real -> real, i: int): Option<real>
    requires period >= 1 && 0 <= i < |prices|
  {
    if i < period - 1 then None
    else Some(SmaAt(prices, period, i).value + BandOffset(prices, period, multiplier, sqrt, i))
  }

  /** The lower band at index `i`: `multiplier` standard deviations below the SMA. */
  function LowerBandAt(prices: seq<real>, period: int, multiplier: real, sqrt: real -> real, i: int): Option<real>
    requires period >= 1 && 0 <= i < |prices|
  {
    if i < period - 1 then None
    else Some(SmaAt(prices, period, i).value - BandOffset(prices, period, multiplier, sqrt, i))
  }

  /**
   * `CalculateBollingerBands`: the middle band is the SMA, the outer bands
   * are `multiplier` standard deviations above and below it.
   */
  function BollingerBands(prices: seq<real>, period: int, multiplier: real, sqrt: real -> real): (r: Bands)
    requires period >= 1
    ensures |r.upper| == |r.middle| == |r.lower| == |prices|
    ensures r.middle == Sma(prices, period)
  {
    Bands(
      seq(|prices|, i requires 0 <= i < |prices| => UpperBandAt(prices, period, multiplier, sqrt, i)),
      Sma(prices, period),
      seq(|prices|, i requires 0 <= i < |prices| => LowerBandAt(prices, period, multiplier, sqrt, i)))
  }

  method CalculateBollingerBands(prices: seq<real>, period: int, multiplier: real, sqrt: real -> real)
    returns (upper: seq<Option<real>>, middle: seq<Option<real>>, lower: seq<Option<real>>)
    requires period >= 1
    ensures Bands(upper, middle, lower) == BollingerBands(prices, period, multiplier, sqrt)
  {
    var smaList := CalculateSma(prices, period);
    upper, middle, lower := [], [], [];
    for i := 0 to |prices|
      invariant |upper| == |middle| == |lower| == i
      invariant forall k :: 0 <= k < i ==> upper[k] == UpperBandAt(prices, period, multiplier, sqrt, k)
      invariant forall k :: 0 <= k < i ==> middle[k] == SmaAt(prices, period, k)
      invariant forall k :: 0 <= k < i ==> lower[k] == LowerBandAt(prices, period, multiplier, sqrt, k)
    {
      assert smaList[i] == SmaAt(prices, period, i);
      var upperEntry, lowerEntry := None, None;
      if smaList[i].Some? {
        var sma := smaList[i].value;
        var stdDev := StdDevAt(prices, period, sqrt, i);
        var offset := stdDev * multiplier;
        assert offset == BandOffset(prices, period, multiplier, sqrt, i);
        upperEntry, lowerEntry := Some(sma + offset), Some(sma - offset);
      }
      assert upperEntry == UpperBandAt(prices, period, multiplier, sqrt, i);
      assert lowerEntry == LowerBandAt(prices, period, multiplier, sqrt, i);
      upper, middle, lower := upper + [upperEntry], middle + [smaList[i]], lower + [lowerEntry];
    }
    ghost var b := BollingerBands(prices, period, multiplier, sqrt);
    assert upper == b.upper;
    assert middle == b.middle;
    assert lower == b.lower;
  }

  /** The outer bands are symmetric around the middle band and defined exactly where it is. */
  lemma BandsSymmetric(prices: seq<real>, period: int, multiplier: real, sqrt: real -> real, i: int)
    requires period >= 1 && 0 <= i < |prices|
    ensures var b := BollingerBands(prices, period, multiplier, sqrt);
      (b.upper[i].Some? <==> b.middle[i].Some?) && (b.lower[i].Some? <==> b.middle[i].Some?) &&
      (b.middle[i].Some? ==> b.upper[i].value - b.middle[i].value == b.middle[i].value - b.lower[i].value)
  {
  }

  /** With a non-negative square root and multiplier, lower <= middle <= upper. */
  lemma BandsOrdered(prices: seq<real>, period: int, multiplier: real, sqrt: real -> real, i: int)
    requires period >= 1 && 0 <= i < |prices| && multiplier >= 0.0
    requires forall x :: x >= 0.0 ==> sqrt(x) >= 0.0
    requires BollingerBands(prices, period, multiplier, sqrt).middle[i].Some?
    ensures var b := BollingerBands(prices, period, multiplier, sqrt);
      b.lower[i].value <= b.middle[i].value <= b.upper[i].value
  {
    MulNonNegative(StdDevAt(prices, period, sqrt, i), multiplier);
    assert BandOffset(prices, period, multiplier, sqrt, i) >= 0.0;
  }

  /** A constant window has zero variance. */
  lemma {:induction false} ConstantWindowVariance(prices: seq<real>, period: int, i: int)
    requires period >= 1 && period - 1 <= i < |prices|
    requires forall k :: i - period + 1 <= k <= i ==> prices[k] == prices[i]
    ensures BandVariance(prices, period, i) == 0.0
  {
    var w := prices[i - period + 1 .. i + 1];
    assert forall k :: 0 <= k < |w| ==> w[k] == prices[i];
    MeanBounds(w, prices[i], prices[i]);
    var d := SquaredDeviations(w);
    assert forall k :: 0 <= k < |d| ==> d[k] == 0.0;
    SumBounds(d, 0.0, 0.0);
  }

  /** One bandwidth entry: `(upper - lower) / middle * 100`, null where a band is null or the middle is 0. */
  function BandwidthAt(upper: Option<real>, middle: Option<real>, lower: Option<real>): Option<real>
  {
    if upper.None? || middle.None? || lower.None? || middle.value == 0.0 then None
    else Some((upper.value - lower.value) / middle.value * 100.0)
  }

  /** `CalculateBollingerBandwidth` on computed bands. */
  function BandwidthOf(bands: Bands): (r: seq<Option<real>>)
    requires |bands.upper| == |bands.middle| == |bands.lower|
    ensures |r| == |bands.middle|
  {
    seq(|bands.middle|, i requires 0 <= i < |bands.middle| =>
      BandwidthAt(bands.upper[i], bands.middle[i], bands.lower[i]))
  }

  function Bandwidth(prices: seq<real>, period: int, multiplier: real, sqrt: real -> real): (r: seq<Option<real>>)
    requires period >= 1
    ensures |r| == |prices|
  {
    BandwidthOf(BollingerBands(prices, period, multiplier, sqrt))
  }

  method CalculateBollingerBandwidth(prices: seq<real>, period: int, multiplier: real, sqrt: real -> real)
    returns (result: seq<Option<real>>)
    requires period >= 1
    ensures result == Bandwidth(prices, period, multiplier, sqrt)
  {
    var upper, middle, lower := CalculateBollingerBands(prices, period, multiplier, sqrt);
    result := [];
    for i := 0 to |prices|
      invariant |result| == i
      invariant forall k :: 0 <= k < i ==> result[k] == BandwidthAt(upper[k], middle[k], lower[k])
    {
      var entry := None;
      if !(upper[i].None? || middle[i].None? || lower[i].None? || middle[i].value == 0.0) {
        entry := Some((upper[i].value - lower[i].value) / middle[i].value * 100.0);
      }
      assert entry == BandwidthAt(upper[i], middle[i], lower[i]);
      result := result + [entry];
    }
    assert result == BandwidthOf(Bands(upper, middle, lower));
  }

  /** With positive middle band and ordered bands the bandwidth is `200 * multiplier * sd / middle`, never negative. */
  lemma BandwidthNonNegative(prices: seq<real>, period: int, multiplier: real, sqrt: real -> real, i: int)
    requires period >= 1 && 0 <= i < |prices| && multiplier >= 0.0
    requires forall x :: x >= 0.0 ==> sqrt(x) >= 0.0
    requires Bandwidth(prices, period, multiplier, sqrt)[i].Some?
    requires Sma(prices, period)[i].value > 0.0
    ensures Bandwidth(prices, period, multiplier, sqrt)[i].value >= 0.0
  {
    var b := BollingerBands(prices, period, multiplier, sqrt);
    BandsOrdered(prices, period, multiplier, sqrt, i);
    var w := b.upper[i].value - b.lower[i].value;
    assert w >= 0.0;
    assert w / b.middle[i].value >= 0.0;
  }

  // ------------------------------------------------------ True range, ATR

  /** A candle's true range: its own range for the first, else the widest gap to the previous close. */
  function TrueRange(candles: seq<Candle>, i: int): real
    requires 0 <= i < |candles|
  {
    if i == 0 then candles[i].high - candles[i].low
    else Max2(candles[i].high - candles[i].low,
              Max2(Abs(candles[i].high - candles[i - 1].close), Abs(candles[i].low - candles[i - 1].close)))
  }

  function TrueRanges(candles: seq<Candle>): (r: seq<real>)
    ensures |r| == |candles|
  {
    seq(|candles|, i requires 0 <= i < |candles| => TrueRange(candles, i))
  }

  /** `CalculateAtr`: empty for fewer than two candles, else the SMA of the true ranges. */
  function Atr(candles: seq<Candle>, period: int): (r: seq<Option<real>>)
    requires period >= 1
    ensures |candles| < 2 ==> r == []
    ensures |candles| >= 2 ==> |r| == |candles|
  {
    if |candles| < 2 then [] else Sma(TrueRanges(candles), period)
  }

  /** The first loop of `CalculateAtr`: the true range of every candle. */
  method TrueRangeList(candles: seq<Candle>) returns (trueRanges: seq<real>)
    ensures trueRanges == TrueRanges(candles)
  {
    trueRanges := [];
    for i := 0 to |candles|
      invariant |trueRanges| == i
      invariant forall k :: 0 <= k < i ==> trueRanges[k] == TrueRange(candles, k)
    {
      if i == 0 {
        trueRanges := trueRanges + [candles[i].high - candles[i].low];
      } else {
        var highLow := candles[i].high - candles[i].low;
        var highPrevClose := Abs(candles[i].high - candles[i - 1].close);
        var lowPrevClose := Abs(candles[i].low - candles[i - 1].close);
        trueRanges := trueRanges + [Max2(highLow, Max2(highPrevClose, lowPrevClose))];
      }
    }
  }

  /** The second loop of `CalculateAtr` is the loop of `CalculateSma`, run on the true ranges. */
  method CalculateAtr(candles: seq<Candle>, period: int) returns (result: seq<Option<real>>)
    requires period >= 1
    ensures result == Atr(candles, period)
  {
    result := [];
    if |candles| < 2 {
      return;
    }
    var trueRanges := TrueRangeList(candles);
    result := CalculateSma(trueRanges, period);
  }

  /** Past the first candle the true range is never negative and never below the candle's own range. */
  lemma TrueRangeBounds(candles: seq<Candle>, i: int)
    requires 1 <= i < |candles|
    ensures TrueRange(candles, i) >= 0.0
    ensures TrueRange(candles, i) >= candles[i].high - candles[i].low
  {
  }

  /** With a first candle whose high is not below its low, every ATR value is non-negative. */
  lemma AtrNonNegative(candles: seq<Candle>, period: int)
    requires period >= 1 && |candles| > 0 && candles[0].high >= candles[0].low
    ensures forall i :: 0 <= i < |Atr(candles, period)| && Atr(candles, period)[i].Some? ==>
              Atr(candles, period)[i].value >= 0.0
  {
    var tr := TrueRanges(candles);
    var hi := MaxOf(tr);
    forall k | 0 <= k < |tr| ensures 0.0 <= tr[k] <= hi {
      MaxOfIsUpper(tr, k);
      if k > 0 {
        TrueRangeBounds(candles, k);
      }
    }
    SmaBounds(tr, period, 0.0, hi);
  }

  // ---------------------------------------------------------------- ADX

  /** +DM of candle `i`: the rise of the high when it exceeds the fall of the low and is positive. */
  function PlusDm(candles: seq<Candle>, i: int): (r: real)
    requires 1 <= i < |candles|
    ensures r >= 0.0
  {
    var upMove := candles[i].high - candles[i - 1].high;
    var downMove := candles[i - 1].low - candles[i].low;
    if upMove > downMove && upMove > 0.0 then upMove else 0.0
  }

  /** -DM of candle `i`: the fall of the low when it exceeds the rise of the high and is positive. */
  function MinusDm(candles: seq<Candle>, i: int): (r: real)
    requires 1 <= i < |candles|
    ensures r >= 0.0
  {
    var upMove := candles[i].high - candles[i - 1].high;
    var downMove := candles[i - 1].low - candles[i].low;
    if downMove > upMove && downMove > 0.0 then downMove else 0.0
  }

  /** At most one of +DM and -DM is non-zero on any candle. */
  lemma DirectionalMovesExclusive(candles: seq<Candle>, i: int)
    requires 1 <= i < |candles|
    ensures PlusDm(candles, i) == 0.0 || MinusDm(candles, i) == 0.0
  {
  }

  /** The per-move lists of `CalculateAdx`, one entry for each candle after the first. */
  function PlusDms(candles: seq<Candle>): (r: seq<real>)
    requires |candles| >= 1
    ensures |r| == |candles| - 1
  {
    seq(|candles| - 1, j requires 0 <= j < |candles| - 1 => PlusDm(candles, j + 1))
  }

  function MinusDms(candles: seq<Candle>): (r: seq<real>)
    requires |candles| >= 1
    ensures |r| == |candles| - 1
  {
    seq(|candles| - 1, j requires 0 <= j < |candles| - 1 => MinusDm(candles, j + 1))
  }

  function MoveTrueRanges(candles: seq<Candle>): (r: seq<real>)
    requires |candles| >= 1
    ensures |r| == |candles| - 1
  {
    seq(|candles| - 1, j requires 0 <= j < |candles| - 1 => TrueRange(candles, j + 1))
  }

  /** One Wilder smoothing step on a running sum: `s - s / period + x`. */
  function WilderSumUpdate(s: real, x: real, period: int): real
    requires period >= 1
  {
    s - s / period as real + x
  }

  /** The smoothed sum at iteration `t`: the plain sum of the first `period` values, then Wilder steps. */
  function Smoothed(xs: seq<real>, period: int, t: nat): real
    requires period >= 1 && period <= |xs|
    requires period - 1 + t < |xs|
    decreases t
  {
    if t == 0 then Sum(xs[..period])
    else WilderSumUpdate(Smoothed(xs, period, t - 1), xs[period - 1 + t], period)
  }

  lemma {:induction false} SmoothedNonNegative(xs: seq<real>, period: int, t: nat)
    requires period >= 1 && period <= |xs| && period - 1 + t < |xs|
    requires forall k :: 0 <= k < |xs| ==> xs[k] >= 0.0
    ensures Smoothed(xs, period, t) >= 0.0
    decreases t
  {
    if t == 0 {
      SumNonNegative(xs[..period]);
    } else {
      SmoothedNonNegative(xs, period, t - 1);
      var s := Smoothed(xs, period, t - 1);
      assert s / period as real <= s;
    }
  }

  /** A directional indicator: `dm / tr * 100`, or 0 when the smoothed range is 0. */
  function DiOf(dm: real, tr: real): real
  {
    if tr > 0.0 then dm / tr * 100.0 else 0.0
  }

  /** The directional index: `|+DI - -DI| / (+DI + -DI) * 100`, or 0 when both are 0. */
  function DxOf(plusDi: real, minusDi: real): real
  {
    var diSum := plusDi + minusDi;
    if diSum > 0.0 then Abs(plusDi - minusDi) / diSum * 100.0 else 0.0
  }

  lemma DxRange(plusDi: real, minusDi: real)
    requires plusDi >= 0.0 && minusDi >= 0.0
    ensures 0.0 <= DxOf(plusDi, minusDi) <= 100.0
  {
    var diSum := plusDi + minusDi;
    if diSum > 0.0 {
      assert Abs(plusDi - minusDi) <= diSum;
      assert Abs(plusDi - minusDi) / diSum <= 1.0;
    }
  }

  lemma DiNonNegative(dm: real, tr: real)
    requires dm >= 0.0
    ensures DiOf(dm, tr) >= 0.0
  {
  }

  /** The number of smoothing iterations `CalculateAdx` performs. */
  function AdxSteps(candles: seq<Candle>, period: int): int
  {
    |candles| - period
  }

  /** A directional indicator at iteration `t` of the smoothing loop, from a movement list and the true ranges. */
  function DiAtOf(dm: seq<real>, tr: seq<real>, period: int, t: nat): real
    requires period >= 1 && |dm| == |tr| && period - 1 + t < |tr|
  {
    DiOf(Smoothed(dm, period, t), Smoothed(tr, period, t))
  }

  /** The DX at iteration `t`, from the +DM, -DM and true-range lists. */
  function DxAtOf(plusDm: seq<real>, minusDm: seq<real>, tr: seq<real>, period: int, t: nat): real
    requires period >= 1 && |plusDm| == |minusDm| == |tr| && period - 1 + t < |tr|
  {
    DxOf(DiAtOf(plusDm, tr, period, t), DiAtOf(minusDm, tr, period, t))
  }

  /** The last `period` DX values up to iteration `t`. */
  function DxWindowOf(plusDm: seq<real>, minusDm: seq<real>, tr: seq<real>, period: int, t: nat): (r: seq<real>)
    requires period >= 1 && |plusDm| == |minusDm| == |tr| && period - 1 <= t && period - 1 + t < |tr|
    ensures |r| == period
  {
    seq(period, j requires 0 <= j < period => DxAtOf(plusDm, minusDm, tr, period, t + 1 - period + j))
  }

  /** The ADX at iteration `t`: the mean of the last `period` DX values once there are that many. */
  function AdxAtOf(plusDm: seq<real>, minusDm: seq<real>, tr: seq<real>, period: int, t: nat): Option<real>
    requires period >= 1 && |plusDm| == |minusDm| == |tr| && period - 1 + t < |tr|
  {
    if t + 1 >= period then Some(Mean(DxWindowOf(plusDm, minusDm, tr, period, t))) else None
  }

  function PlusDiAt(candles: seq<Candle>, period: int, t: nat): real
    requires period >= 1 && |candles| >= period + 1 && t < AdxSteps(candles, period)
  {
    DiAtOf(PlusDms(candles), MoveTrueRanges(candles), period, t)
  }

  function MinusDiAt(candles: seq<Candle>, period: int, t: nat): real
    requires period >= 1 && |candles| >= period + 1 && t < AdxSteps(candles, period)
  {
    DiAtOf(MinusDms(candles), MoveTrueRanges(candles), period, t)
  }

  function DxAt(candles: seq<Candle>, period: int, t: nat): real
    requires period >= 1 && |candles| >= period + 1 && t < AdxSteps(candles, period)
  {
    DxAtOf(PlusDms(candles), MinusDms(candles), MoveTrueRanges(candles), period, t)
  }

  function DxWindow(candles: seq<Candle>, period: int, t: nat): (r: seq<real>)
    requires period >= 1 && |candles| >= period + 1 && period - 1 <= t < AdxSteps(candles, period)
    ensures |r| == period
  {
    DxWindowOf(PlusDms(candles), MinusDms(candles), MoveTrueRanges(candles), period, t)
  }

  function AdxAt(candles: seq<Candle>, period: int, t: nat): Option<real>
    requires period >= 1 && |candles| >= period + 1 && t < AdxSteps(candles, period)
  {
    AdxAtOf(PlusDms(candles), MinusDms(candles), MoveTrueRanges(candles), period, t)
  }

  datatype Adx = Adx(adx: seq<Option<real>>, plusDi: seq<Option<real>>, minusDi: seq<Option<real>>)

  /** Entry `i` of the padded lists: null for the first `period` indices, iteration `i - period` after. */
  function AdxEntry(candles: seq<Candle>, period: int, i: int): Option<real>
    requires period >= 1 && |candles| >= period + 1 && 0 <= i < |candles|
  {
    if i < period then None else AdxAt(candles, period, i - period)
  }

  function PlusDiEntry(candles: seq<Candle>, period: int, i: int): Option<real>
    requires period >= 1 && |candles| >= period + 1 && 0 <= i < |candles|
  {
    if i < period then None else Some(PlusDiAt(candles, period, i - period))
  }

  function MinusDiEntry(candles: seq<Candle>, period: int, i: int): Option<real>
    requires period >= 1 && |candles| >= period + 1 && 0 <= i < |candles|
  {
    if i < period then None else Some(MinusDiAt(candles, period, i - period))
  }

  /**
   * `CalculateAdx`: all null for fewer than `period + 1` candles; otherwise
   * iteration `t` of the smoothing loop lands at index `period + t`, and the
   * first `period` entries are null.
   */
  function CalculateAdxSpec(candles: seq<Candle>, period: int): (r: Adx)
    requires period >= 1
    ensures |r.adx| == |r.plusDi| == |r.minusDi| == |candles|
  {
    var n := |candles|;
    if n < period + 1 then Adx(seq(n, i => None), seq(n, i => None), seq(n, i => None))
    else
      Adx(seq(n, i requires 0 <= i < n => AdxEntry(candles, period, i)),
          seq(n, i requires 0 <= i < n => PlusDiEntry(candles, period, i)),
          seq(n, i requires 0 <= i < n => MinusDiEntry(candles, period, i)))
  }

  /** The first loop of `CalculateAdx`: +DM, -DM and true range of every move. */
  method DirectionalMoves(candles: seq<Candle>) returns (plusDm: seq<real>, minusDm: seq<real>, tr: seq<real>)
    requires |candles| >= 1
    ensures plusDm == PlusDms(candles) && minusDm == MinusDms(candles) && tr == MoveTrueRanges(candles)
  {
    plusDm, minusDm, tr := [], [], [];
    for i := 1 to |candles|
      invariant |plusDm| == |minusDm| == |tr| == i - 1
      invariant forall k :: 0 <= k < i - 1 ==> plusDm[k] == PlusDm(candles, k + 1)
      invariant forall k :: 0 <= k < i - 1 ==> minusDm[k] == MinusDm(candles, k + 1)
      invariant forall k :: 0 <= k < i - 1 ==> tr[k] == TrueRange(candles, k + 1)
    {
      var upMove := candles[i].high - candles[i - 1].high;
      var downMove := candles[i - 1].low - candles[i].low;
      plusDm := plusDm + [if upMove > downMove && upMove > 0.0 then upMove else 0.0];
      minusDm := minusDm + [if downMove > upMove && downMove > 0.0 then downMove else 0.0];
      var highLow := candles[i].high - candles[i].low;
      var highPrevClose := Abs(candles[i].high - candles[i - 1].close);
      var lowPrevClose := Abs(candles[i].low - candles[i - 1].close);
      tr := tr + [Max2(highLow, Max2(highPrevClose, lowPrevClose))];
    }
  }

  /** The DX values computed so far are the window `DxWindowOf` once there are `period` of them. */
  lemma DxTailIsWindow(plusDm: seq<real>, minusDm: seq<real>, tr: seq<real>, period: int, t: nat, dxList: seq<real>)
    requires period >= 1 && |plusDm| == |minusDm| == |tr| && period - 1 <= t && period - 1 + t < |tr|
    requires |dxList| == t + 1
    requires forall s :: 0 <= s < |dxList| ==> dxList[s] == DxAtOf(plusDm, minusDm, tr, period, s)
    ensures dxList[|dxList| - period..] == DxWindowOf(plusDm, minusDm, tr, period, t)
  {
  }

  /** The lists of the smoothing loop after `|dxList|` iterations: a leading null, then each iteration's entries. */
  ghost predicate SmoothedPrefix(plusDm: seq<real>, minusDm: seq<real>, tr: seq<real>, period: int,
                                 dxList: seq<real>, adxList: seq<Option<real>>, plusDiList: seq<Option<real>>, minusDiList: seq<Option<real>>)
    requires period >= 1 && |plusDm| == |minusDm| == |tr| && period - 1 + |dxList| <= |tr|
  {
    && |adxList| == |plusDiList| == |minusDiList| == 1 + |dxList|
    && adxList[0] == plusDiList[0] == minusDiList[0] == None
    && (forall t :: 0 <= t < |dxList| ==> dxList[t] == DxAtOf(plusDm, minusDm, tr, period, t))
    && (forall t :: 0 <= t < |dxList| ==> plusDiList[1 + t] == Some(DiAtOf(plusDm, tr, period, t)))
    && (forall t :: 0 <= t < |dxList| ==> minusDiList[1 + t] == Some(DiAtOf(minusDm, tr, period, t)))
    && (forall t :: 0 <= t < |dxList| ==> adxList[1 + t] == AdxAtOf(plusDm, minusDm, tr, period, t))
  }

  /** The DX values of the lists extended by the next iteration's DX. */
  lemma SmoothedPrefixDx(plusDm: seq<real>, minusDm: seq<real>, tr: seq<real>, period: int,
                         dxList: seq<real>, adxList: seq<Option<real>>, plusDiList: seq<Option<real>>, minusDiList: seq<Option<real>>,
                         dx: real)
    requires period >= 1 && |plusDm| == |minusDm| == |tr| && period - 1 + |dxList| < |tr|
    requires SmoothedPrefix(plusDm, minusDm, tr, period, dxList, adxList, plusDiList, minusDiList)
    requires dx == DxAtOf(plusDm, minusDm, tr, period, |dxList|)
    ensures forall t :: 0 <= t < |dxList| + 1 ==> (dxList + [dx])[t] == DxAtOf(plusDm, minusDm, tr, period, t)
  {
  }

  /** One iteration appends its DX, its two DIs and its ADX entry, and keeps the lists in step. */
  lemma SmoothedPrefixStep(plusDm: seq<real>, minusDm: seq<real>, tr: seq<real>, period: int,
                           dxList: seq<real>, adxList: seq<Option<real>>, plusDiList: seq<Option<real>>, minusDiList: seq<Option<real>>,
                           adxEntry: Option<real>)
    requires period >= 1 && |plusDm| == |minusDm| == |tr| && period - 1 + |dxList| < |tr|
    requires SmoothedPrefix(plusDm, minusDm, tr, period, dxList, adxList, plusDiList, minusDiList)
    requires adxEntry == AdxAtOf(plusDm, minusDm, tr, period, |dxList|)
    ensures SmoothedPrefix(plusDm, minusDm, tr, period,
      dxList + [DxAtOf(plusDm, minusDm, tr, period, |dxList|)], adxList + [adxEntry],
      plusDiList + [Some(DiAtOf(plusDm, tr, period, |dxList|))], minusDiList + [Some(DiAtOf(minusDm, tr, period, |dxList|))])
  {
  }

  /**
   * The smoothing loop of `CalculateAdx` on the movement lists: a leading
   * null, then one entry per iteration, before the lists are padded.
   */
  method SmoothMoves(plusDm: seq<real>, minusDm: seq<real>, tr: seq<real>, period: int)
    returns (adxList: seq<Option<real>>, plusDiList: seq<Option<real>>, minusDiList: seq<Option<real>>)
    requires period >= 1 && |plusDm| == |minusDm| == |tr| && |tr| >= period
    ensures |adxList| == |plusDiList| == |minusDiList| == |tr| - period + 2
    ensures adxList[0] == plusDiList[0] == minusDiList[0] == None
    ensures forall t :: 0 <= t < |tr| - period + 1 ==> adxList[1 + t] == AdxAtOf(plusDm, minusDm, tr, period, t)
    ensures forall t :: 0 <= t < |tr| - period + 1 ==> plusDiList[1 + t] == Some(DiAtOf(plusDm, tr, period, t))
    ensures forall t :: 0 <= t < |tr| - period + 1 ==> minusDiList[1 + t] == Some(DiAtOf(minusDm, tr, period, t))
  {
    adxList, plusDiList, minusDiList := [None], [None], [None];
    var smoothedPlusDm := Sum(plusDm[..period]);
    var smoothedMinusDm := Sum(minusDm[..period]);
    var smoothedTr := Sum(tr[..period]);
    var dxList: seq<real> := [];
    for i := period - 1 to |plusDm|
      invariant |dxList| == i - (period - 1)
      invariant |adxList| == |plusDiList| == |minusDiList| == 1 + |dxList|
      invariant smoothedPlusDm == Smoothed(plusDm, period, if i > period - 1 then i - period else 0)
      invariant smoothedMinusDm == Smoothed(minusDm, period, if i > period - 1 then i - period else 0)
      invariant smoothedTr == Smoothed(tr, period, if i > period - 1 then i - period else 0)
      invariant SmoothedPrefix(plusDm, minusDm, tr, period, dxList, adxList, plusDiList, minusDiList)
    {
      ghost var t := i - (period - 1);
      if i == period - 1 {
        // initial values
      } else {
        smoothedPlusDm := WilderSumUpdate(smoothedPlusDm, plusDm[i], period);
        smoothedMinusDm := WilderSumUpdate(smoothedMinusDm, minusDm[i], period);
        smoothedTr := WilderSumUpdate(smoothedTr, tr[i], period);
      }
      var plusDi := DiOf(smoothedPlusDm, smoothedTr);
      var minusDi := DiOf(smoothedMinusDm, smoothedTr);
      assert plusDi == DiAtOf(plusDm, tr, period, t);
      assert minusDi == DiAtOf(minusDm, tr, period, t);
      ghost var before := (dxList, adxList, plusDiList, minusDiList);
      plusDiList := plusDiList + [Some(plusDi)];
      minusDiList := minusDiList + [Some(minusDi)];
      var dx := DxOf(plusDi, minusDi);
      assert dx == DxAtOf(plusDm, minusDm, tr, period, t);
      dxList := dxList + [dx];
      var adxEntry: Option<real> := None;
      if |dxList| >= period {
        SmoothedPrefixDx(plusDm, minusDm, tr, period, before.0, before.1, before.2, before.3, dx);
        DxTailIsWindow(plusDm, minusDm, tr, period, t, dxList);
        adxEntry := Some(Mean(dxList[|dxList| - period..]));
      }
      assert adxEntry == AdxAtOf(plusDm, minusDm, tr, period, t);
      adxList := adxList + [adxEntry];
      SmoothedPrefixStep(plusDm, minusDm, tr, period, before.0, before.1, before.2, before.3, adxEntry);
    }
  }

  /** `list.Insert(0, null)` until the list has `n` entries. */
  method PadFront(list: seq<Option<real>>, n: int) returns (padded: seq<Option<real>>)
    ensures |list| < n ==> padded == seq(n - |list|, i => None) + list
    ensures |list| >= n ==> padded == list
  {
    padded := list;
    while |padded| < n
      invariant |list| <= |padded|
      invariant |list| < n ==> |padded| <= n
      invariant |list| >= n ==> padded == list
      invariant padded == seq(|padded| - |list|, i => None) + list
      decreases n - |padded|
    {
      padded := [None] + padded;
    }
  }

  /** A list with one leading null and iteration `t` at `1 + t`, padded in front, is the target layout. */
  lemma PaddedLayout(list: seq<Option<real>>, period: int, target: seq<Option<real>>)
    requires period >= 1 && |list| >= 1 && list[0] == None
    requires |target| == period - 1 + |list|
    requires forall k :: 0 <= k < period ==> target[k] == None
    requires forall k :: period <= k < |target| ==> target[k] == list[k - period + 1]
    ensures seq(period - 1, i => None) + list == target
  {
  }

  /** The short-series branch of `CalculateAdx`: `n` nulls in each of the three lines. */
  method NullLines(n: nat) returns (adxList: seq<Option<real>>, plusDiList: seq<Option<real>>, minusDiList: seq<Option<real>>)
    ensures adxList == plusDiList == minusDiList == seq(n, i => None)
  {
    adxList, plusDiList, minusDiList := [], [], [];
    for i := 0 to n
      invariant adxList == plusDiList == minusDiList == seq(i, k => None)
    {
      adxList, plusDiList, minusDiList := adxList + [None], plusDiList + [None], minusDiList + [None];
    }
  }

  method CalculateAdx(candles: seq<Candle>, period: int) returns (adxList: seq<Option<real>>, plusDiList: seq<Option<real>>, minusDiList: seq<Option<real>>)
    requires period >= 1
    ensures Adx(adxList, plusDiList, minusDiList) == CalculateAdxSpec(candles, period)
  {
    if |candles| < period + 1 {
      adxList, plusDiList, minusDiList := NullLines(|candles|);
      assert CalculateAdxSpec(candles, period) == Adx(seq(|candles|, i => None), seq(|candles|, i => None), seq(|candles|, i => None));
      return;
    }
    var plusDm, minusDm, tr := DirectionalMoves(candles);
    var adx, plus, minus := SmoothMoves(plusDm, minusDm, tr, period);
    plusDiList := PadFront(plus, |candles|);
    minusDiList := PadFront(minus, |candles|);
    adxList := PadFront(adx, |candles|);
    AdxLinePadded(candles, period, adx);
    DiLinePadded(candles, period, plus, PlusDms(candles), true);
    DiLinePadded(candles, period, minus, MinusDms(candles), false);
  }

  /** The padded ADX list of the smoothing loop is the ADX line. */
  lemma AdxLinePadded(candles: seq<Candle>, period: int, adx: seq<Option<real>>)
    requires period >= 1 && |candles| >= period + 1
    requires |adx| == AdxSteps(candles, period) + 1 && adx[0] == None
    requires forall t :: 0 <= t < AdxSteps(candles, period) ==>
      adx[1 + t] == AdxAtOf(PlusDms(candles), MinusDms(candles), MoveTrueRanges(candles), period, t)
    ensures seq(period - 1, i => None) + adx == CalculateAdxSpec(candles, period).adx
  {
    var target := CalculateAdxSpec(candles, period).adx;
    forall k | period <= k < |target| ensures target[k] == adx[k - period + 1] {
      assert target[k] == AdxEntry(candles, period, k);
    }
    PaddedLayout(adx, period, target);
  }

  /** The padded +DI (`plus`) or -DI list of the smoothing loop is that DI line. */
  lemma DiLinePadded(candles: seq<Candle>, period: int, di: seq<Option<real>>, dm: seq<real>, plus: bool)
    requires period >= 1 && |candles| >= period + 1
    requires dm == if plus then PlusDms(candles) else MinusDms(candles)
    requires |di| == AdxSteps(candles, period) + 1 && di[0] == None
    requires forall t :: 0 <= t < AdxSteps(candles, period) ==>
      di[1 + t] == Some(DiAtOf(dm, MoveTrueRanges(candles), period, t))
    ensures plus ==> seq(period - 1, i => None) + di == CalculateAdxSpec(candles, period).plusDi
    ensures !plus ==> seq(period - 1, i => None) + di == CalculateAdxSpec(candles, period).minusDi
  {
    var spec := CalculateAdxSpec(candles, period);
    var target := if plus then spec.plusDi else spec.minusDi;
    forall k | period <= k < |target| ensures target[k] == di[k - period + 1] {
      if plus {
        assert target[k] == PlusDiEntry(candles, period, k);
      } else {
        assert target[k] == MinusDiEntry(candles, period, k);
      }
    }
    PaddedLayout(di, period, target);
  }

  /** Every +DI and -DI value is non-negative. */
  lemma DiValuesNonNegative(candles: seq<Candle>, period: int, t: nat)
    requires period >= 1 && |candles| >= period + 1 && t < AdxSteps(candles, period)
    ensures PlusDiAt(candles, period, t) >= 0.0 && MinusDiAt(candles, period, t) >= 0.0
  {
    SmoothedNonNegative(PlusDms(candles), period, t);
    SmoothedNonNegative(MinusDms(candles), period, t);
  }

  /** The ADX of one iteration lies in `[0, 100]`: it averages DX values, each within that range. */
  lemma AdxAtRange(candles: seq<Candle>, period: int, t: nat)
    requires period >= 1 && |candles| >= period + 1 && t < AdxSteps(candles, period)
    requires AdxAt(candles, period, t).Some?
    ensures 0.0 <= AdxAt(candles, period, t).value <= 100.0
  {
    var dxs := DxWindow(candles, period, t);
    forall j | 0 <= j < |dxs| ensures 0.0 <= dxs[j] <= 100.0 {
      var s := t + 1 - period + j;
      assert dxs[j] == DxAt(candles, period, s);
      DiValuesNonNegative(candles, period, s);
      DxRange(PlusDiAt(candles, period, s), MinusDiAt(candles, period, s));
    }
    MeanBounds(dxs, 0.0, 100.0);
  }

  /** Every defined ADX value lies in `[0, 100]`. */
  lemma AdxRange(candles: seq<Candle>, period: int)
    requires period >= 1
    ensures DefinedWithin(CalculateAdxSpec(candles, period).adx, 0.0, 100.0)
  {
    if |candles| >= period + 1 {
      var r := CalculateAdxSpec(candles, period);
      forall k | 0 <= k < |r.adx| && r.adx[k].Some? ensures 0.0 <= r.adx[k].value <= 100.0 {
        assert r.adx[k] == AdxEntry(candles, period, k);
        AdxAtRange(candles, period, k - period);
      }
    }
  }

  /** The +DI and -DI lines are null for the first `period` candles and defined after. */
  lemma DiDefinedIff(candles: seq<Candle>, period: int, i: int)
    requires period >= 1 && 0 <= i < |candles|
    ensures CalculateAdxSpec(candles, period).plusDi[i].Some? <==> (|candles| >= period + 1 && i >= period)
    ensures CalculateAdxSpec(candles, period).minusDi[i].Some? <==> (|candles| >= period + 1 && i >= period)
  {
  }

  /** The ADX line is defined from index `2 * period - 1` on. */
  lemma AdxDefinedIff(candles: seq<Candle>, period: int, i: int)
    requires period >= 1 && 0 <= i < |candles|
    ensures CalculateAdxSpec(candles, period).adx[i].Some? <==> (|candles| >= period + 1 && i >= 2 * period - 1)
  {
  }
}
