/**
 * The scanner strategies that read volume and volatility indicators:
 * the divergence detector, the breakout hunter and whale accumulation.
 * Their `SetParameters` use `int.Parse`/`decimal.Parse`, so a malformed
 * value throws after the earlier keys have been applied.
 */
module StrategiesVolume {
  import opened Common
  import opened StrategyBase
  import opened Indicators
  import opened IndicatorsRsi
  import opened IndicatorsBands
  import opened IndicatorsLevels
  import opened IndicatorsTrend

  // ------------------------------------------------------------ divergence detector

  /**
   * `DetectRsiBullishDivergence`, `DetectRsiHiddenBullishDivergence` and
   * `DetectMacdBullishDivergence` as written: the non-null indicator values
   * of the window are split at half the number of CANDLES, so when fewer
   * than half of the window's values are defined, the later part is empty
   * and `Min()` throws. `hidden` selects the higher-low, lower-indicator
   * pattern.
   */
  function SplitDivergence(candles: seq<Candle>, values: seq<Option<real>>, lookback: int, hidden: bool): (r: Result<bool>)
    ensures r.Failure? <==>
      |candles| >= lookback && |values| >= lookback &&
      5 <= |Somes(TakeLast(values, lookback))| <= lookback / 2
    ensures r.Failure? ==> r.error == NoElements
  {
    if |candles| < lookback || |values| < lookback then Success(false)
    else
      var recentCandles := TakeLast(candles, lookback);
      var recent := Somes(TakeLast(values, lookback));
      if |recent| < 5 then Success(false)
      else
        var half := |recentCandles| / 2;
        if |recent| <= half then Failure(NoElements)
        else
          var priceLow1 := MinOf(Lows(recentCandles[..half]));
          var priceLow2 := MinOf(Lows(recentCandles[half..]));
          var low1 := MinOf(recent[..half]);
          var low2 := MinOf(recent[half..]);
          Success(if hidden then priceLow2 > priceLow1 && low2 < low1 else priceLow2 < priceLow1 && low2 > low1)
  }

  /** The detectors with the values split at their own half, as the shared `DetectBullishDivergence` does: they never throw. */
  function HalvesDivergence(candles: seq<Candle>, values: seq<Option<real>>, lookback: int, hidden: bool): bool
  {
    if |candles| < lookback || |values| < lookback then false
    else
      var recentCandles := TakeLast(candles, lookback);
      var recent := Somes(TakeLast(values, lookback));
      if |recent| < 5 then false
      else
        var priceLow1 := MinOf(Lows(recentCandles[..|recentCandles| / 2]));
        var priceLow2 := MinOf(Lows(recentCandles[|recentCandles| / 2..]));
        var low1 := MinOf(recent[..|recent| / 2]);
        var low2 := MinOf(recent[|recent| / 2..]);
        if hidden then priceLow2 > priceLow1 && low2 < low1 else priceLow2 < priceLow1 && low2 > low1
  }

  /** The corrected bullish detector is the shared indicator helper. */
  lemma HalvesDivergenceIsBullishDivergence(candles: seq<Candle>, values: seq<Option<real>>, lookback: int)
    ensures HalvesDivergence(candles, values, lookback, false) == BullishDivergence(candles, values, lookback)
  {
  }

  /** When every value of the window is defined, both splits coincide and the detector as written does not throw. */
  lemma SplitDivergenceAgrees(candles: seq<Candle>, values: seq<Option<real>>, lookback: int, hidden: bool)
    requires |candles| >= lookback && |values| >= lookback
    requires |Somes(TakeLast(values, lookback))| == lookback
    ensures SplitDivergence(candles, values, lookback, hidden) == Success(HalvesDivergence(candles, values, lookback, hidden))
  {
    if lookback >= 5 {
      assert |TakeLast(candles, lookback)| == lookback;
    }
  }

  /** The hidden pattern and the plain one exclude each other. */
  lemma DivergencePatternsExclusive(candles: seq<Candle>, values: seq<Option<real>>, lookback: int)
    ensures !(HalvesDivergence(candles, values, lookback, false) && HalvesDivergence(candles, values, lookback, true))
    ensures SplitDivergence(candles, values, lookback, false).Success? && SplitDivergence(candles, values, lookback, true).Success? ==>
      !(SplitDivergence(candles, values, lookback, false).value && SplitDivergence(candles, values, lookback, true).value)
  {
  }

  /** When the entries before index `k` are null and the rest defined, `Somes` keeps `|s| - k` values. */
  lemma {:induction false} SomesCountSuffix(s: seq<Option<real>>, k: int)
    requires 0 <= k <= |s|
    requires forall i :: 0 <= i < |s| ==> (s[i].Some? <==> i >= k)
    ensures |Somes(s)| == |s| - k
  {
    if |s| > 0 {
      var prefix := s[..|s| - 1];
      assert forall i :: 0 <= i < |prefix| ==> prefix[i] == s[i];
      if k == |s| {
        SomesCountSuffix(prefix, |s| - 1);
      } else {
        SomesCountSuffix(prefix, k);
      }
    }
  }

  /** The values the divergence score reads. */
  datatype DivergenceReadings = DivergenceReadings(
    lastRsi: real, rsiBullish: bool, rsiHidden: bool, macdBullish: bool,
    volSma: Option<real>, volume: real, prevHist: Option<real>, lastHist: Option<real>)

  const DivergenceBuy := "Bullish divergence tespit edildi - Trend dönüşü sinyali"
  const DivergenceNoSignal := "Divergence sinyali yok"

  /** Divergence detector: buy when the divergence score reaches 70, whatever the position. */
  class DivergenceDetectorStrategy {
    var rsiPeriod: int
    var divergenceLookback: int

    constructor()
      ensures rsiPeriod == 14 && divergenceLookback == 20
    {
      rsiPeriod, divergenceLookback := 14, 20;
    }

    /** `int.Parse` on each key in turn: a malformed value throws and leaves the later keys unread. */
    method SetParameters(parameters: map<string, string>) returns (error: Option<string>)
      modifies this
      ensures var r1 := IntParseSetting(parameters, "RsiPeriod", old(rsiPeriod));
        var r2 := IntParseSetting(parameters, "DivergenceLookback", old(divergenceLookback));
        if r1.Failure? then
          error == Some(r1.error) && rsiPeriod == old(rsiPeriod) && divergenceLookback == old(divergenceLookback)
        else
          rsiPeriod == r1.value &&
          if r2.Failure? then error == Some(r2.error) && divergenceLookback == old(divergenceLookback)
          else error == None && divergenceLookback == r2.value
    {
      error := None;
      var r1 := IntParseSetting(parameters, "RsiPeriod", rsiPeriod);
      if r1.Failure? {
        error := Some(r1.error);
        return;
      }
      rsiPeriod := r1.value;
      var r2 := IntParseSetting(parameters, "DivergenceLookback", divergenceLookback);
      if r2.Failure? {
        error := Some(r2.error);
        return;
      }
      divergenceLookback := r2.value;
    }

    predicate PeriodsValid()
      reads this
    {
      rsiPeriod >= 1
    }

    function RsiSeries(candles: seq<Candle>): seq<Option<real>>
      reads this
      requires PeriodsValid()
    {
      Rsi(Closes(candles), rsiPeriod)
    }

    /** The MACD histogram of `CalculateMacd` with 12/26/9, which does not throw from 26 prices on. */
    function HistogramSeries(candles: seq<Candle>): seq<Option<real>>
      requires |candles| >= 26
    {
      MacdFailsIff(Closes(candles), 12, 26, 9);
      CalculateMacdSpec(Closes(candles), 12, 26, 9).value.histogram
    }

    function Readings(candles: seq<Candle>, rsiBullish: bool, rsiHidden: bool, macdBullish: bool): (v: DivergenceReadings)
      reads this
      requires PeriodsValid() && |candles| >= 26 && LastOrNull(RsiSeries(candles)).Some?
    {
      var hist := HistogramSeries(candles);
      DivergenceReadings(
        LastOrNull(RsiSeries(candles)).value, rsiBullish, rsiHidden, macdBullish,
        LastOrNull(Sma(Volumes(candles), 20)), candles[|candles| - 1].volume, FromEnd(hist, 1), LastOrNull(hist))
    }

    /**
     * `CalculateSignalScore` as written; `DivergenceScoreFailsIff` says
     * when it throws.
     */
    function Score(candles: seq<Candle>): (r: Result<real>)
      reads this
      requires PeriodsValid()
      ensures |candles| < 50 ==> r == Success(0.0)
      ensures r.Success? ==> 0.0 <= r.value <= 100.0
    {
      if |candles| < 50 then Success(0.0)
      else
        var rsi := RsiSeries(candles);
        if LastOrNull(rsi).None? then Success(0.0)
        else match SplitDivergence(candles, rsi, divergenceLookback, false)
          case Failure(e) => Failure(e)
          case Success(bullish) =>
            match (if bullish then Success(false) else SplitDivergence(candles, rsi, divergenceLookback, true))
            case Failure(e) => Failure(e)
            case Success(hidden) =>
              match SplitDivergence(candles, HistogramSeries(candles), divergenceLookback, false)
              case Failure(e) => Failure(e)
              case Success(macd) => Success(DivergenceScore(Readings(candles, bullish, hidden, macd)))
    }

    /** `CalculateSignalScore` with the corrected detectors: it never throws. */
    function ScoreCorrected(candles: seq<Candle>): (r: real)
      reads this
      requires PeriodsValid()
      ensures 0.0 <= r <= 100.0
      ensures |candles| < 50 || LastOrNull(RsiSeries(candles)).None? ==> r == 0.0
    {
      if |candles| < 50 then 0.0
      else
        var rsi := RsiSeries(candles);
        if LastOrNull(rsi).None? then 0.0
        else
          var bullish := HalvesDivergence(candles, rsi, divergenceLookback, false);
          var hidden := !bullish && HalvesDivergence(candles, rsi, divergenceLookback, true);
          var macd := HalvesDivergence(candles, HistogramSeries(candles), divergenceLookback, false);
          DivergenceScore(Readings(candles, bullish, hidden, macd))
    }

    /** `Analyze` as written: it throws where the score throws. */
    function Analyze(candles: seq<Candle>): (r: Result<StrategyResult>)
      reads this
      requires PeriodsValid()
      ensures |candles| < 50 ==> r == Success(DefaultResult())
      ensures |candles| >= 50 ==> (r.Failure? <==> Score(candles).Failure?)
      ensures |candles| >= 50 && r.Success? ==>
        var price := candles[|candles| - 1].close;
        (r.value.action == Buy <==> Score(candles).value >= 70.0) && r.value.action != Sell &&
        (r.value.action == Buy ==> r.value.targetPrice == price * 1.12 && r.value.stopPrice == price * 0.95)
    {
      if |candles| < 50 then Success(DefaultResult())
      else match Score(candles)
        case Failure(e) => Failure(e)
        case Success(score) => Success(DivergenceDecision(score, candles[|candles| - 1].close))
    }

    /** `Analyze` on the corrected score. */
    function AnalyzeCorrected(candles: seq<Candle>): (r: StrategyResult)
      reads this
      requires PeriodsValid()
      ensures |candles| < 50 ==> r == DefaultResult()
      ensures |candles| >= 50 ==>
        var price := candles[|candles| - 1].close;
        (r.action == Buy <==> ScoreCorrected(candles) >= 70.0) && r.action != Sell &&
        (r.action == Buy ==> r.targetPrice == price * 1.12 && r.stopPrice == price * 0.95)
    {
      if |candles| < 50 then DefaultResult() else DivergenceDecision(ScoreCorrected(candles), candles[|candles| - 1].close)
    }
  }

  function DivergenceDecision(score: real, price: real): (r: StrategyResult)
  {
    if score >= 70.0 then Signal(Buy, price * 1.12, price * 0.95, DivergenceBuy)
    else Describe(NoTrade, DivergenceNoSignal)
  }

  /** The RSI divergence part (weight 35): 35 for a bullish divergence, else 25 for a hidden one. */
  function RsiDivergencePoints(bullish: bool, hidden: bool): (r: real)
    ensures r in {0.0, 25.0, 35.0}
    ensures r > 0.0 <==> bullish || hidden
  {
    if bullish then 35.0 else if hidden then 25.0 else 0.0
  }

  /** The oversold part (weight 20): 20 at or below 30, 15 at or below 40. */
  function OversoldPoints(rsi: real): (r: real)
    ensures r in {0.0, 15.0, 20.0}
    ensures r > 0.0 <==> rsi <= 40.0
  {
    if rsi <= 40.0 then (if rsi <= 30.0 then 20.0 else 15.0) else 0.0
  }

  /** The volume confirmation (weight 10): 10 at 1.3 times the SMA, 5 at 1 times. */
  function ConfirmVolumePoints(volume: real, volSma: Option<real>): (r: real)
    ensures r in {0.0, 5.0, 10.0}
    ensures r > 0.0 ==> volSma.Some? && volSma.value > 0.0 && volume / volSma.value >= 1.0
  {
    if volSma.Some? && volSma.value > 0.0 then
      var ratio := volume / volSma.value;
      if ratio >= 1.3 then 10.0 else if ratio >= 1.0 then 5.0 else 0.0
    else 0.0
  }

  /** The histogram turn (weight 10): a negative histogram that rises at the last value. */
  function HistogramTurnPoints(prev: Option<real>, last: Option<real>): (r: real)
    ensures r in {0.0, 10.0}
    ensures r > 0.0 <==> prev.Some? && last.Some? && prev.value < 0.0 && last.value > prev.value
  {
    if prev.Some? && last.Some? && prev.value < 0.0 && last.value > prev.value then 10.0 else 0.0
  }

  /** The five parts, at most 100. */
  function DivergenceScore(v: DivergenceReadings): (r: real)
    ensures 0.0 <= r <= 100.0
  {
    Min2(RsiDivergencePoints(v.rsiBullish, v.rsiHidden) + (if v.macdBullish then 25.0 else 0.0)
         + OversoldPoints(v.lastRsi) + ConfirmVolumePoints(v.volume, v.volSma)
         + HistogramTurnPoints(v.prevHist, v.lastHist), 100.0)
  }

  /**
   * A divergence buy (70 points) needs an RSI divergence: without it the
   * MACD divergence and the other parts reach at most 65. The weights add
   * up to 100, so the cap never changes the score.
   */
  lemma DivergenceBuyNeedsRsiDivergence(v: DivergenceReadings)
    requires DivergenceScore(v) >= 70.0
    ensures v.rsiBullish || v.rsiHidden
  {
    assert !v.rsiBullish && !v.rsiHidden ==> RsiDivergencePoints(v.rsiBullish, v.rsiHidden) == 0.0;
  }

  /**
   * When the score throws: never without an RSI value, and otherwise exactly
   * when the plain RSI or the MACD detector throws (the hidden detector
   * throws exactly when the plain RSI one does).
   */
  lemma DivergenceScoreFailsIff(s: DivergenceDetectorStrategy, candles: seq<Candle>)
    requires s.PeriodsValid() && |candles| >= 50
    ensures LastOrNull(s.RsiSeries(candles)).None? ==> s.Score(candles) == Success(0.0)
    ensures LastOrNull(s.RsiSeries(candles)).Some? ==>
      (s.Score(candles).Failure? <==>
        SplitDivergence(candles, s.RsiSeries(candles), s.divergenceLookback, false).Failure? ||
        SplitDivergence(candles, s.HistogramSeries(candles), s.divergenceLookback, false).Failure?)
  {
  }

  /** As written, 50 candles with an RSI period of 40 and a lookback of 20 make the score throw; corrected, it does not. */
  lemma DivergenceScoreThrows(s: DivergenceDetectorStrategy, candles: seq<Candle>)
    requires s.rsiPeriod == 40 && s.divergenceLookback == 20 && |candles| == 50
    ensures s.Score(candles).Failure?
    ensures 0.0 <= s.ScoreCorrected(candles) <= 100.0
  {
    var prices := Closes(candles);
    var rsi := s.RsiSeries(candles);
    RsiLength(prices, 40);
    assert |rsi| == 50;
    RsiDefinedIff(prices, 40, 49);
    assert LastOrNull(rsi).Some?;
    var window := TakeLast(rsi, 20);
    assert window == rsi[30..];
    forall i | 0 <= i < 20 ensures window[i].Some? <==> i >= 11 {
      RsiDefinedIff(prices, 40, 30 + i);
    }
    SomesCountSuffix(window, 11);
    assert SplitDivergence(candles, rsi, 20, false).Failure?;
  }

  // ------------------------------------------------------------ breakout hunter

  /** The Bollinger deviation multiplier and the volume SMA period, which `SetParameters` never changes. */
  const BreakoutBbStdDev := 2.0
  const BreakoutVolumeSmaPeriod := 20

  /** The values the breakout score reads. */
  datatype BreakoutView = BreakoutView(
    lastBandwidth: Option<real>, prevBandwidth: Option<real>,
    lastAtr: Option<real>, prevAtr: Option<real>,
    upper: Option<real>, middle: Option<real>, volSma: Option<real>, last: Candle)

  const BreakoutBuy := "Konsolidasyondan kırılım tespit edildi - Breakout fırsatı"
  const BreakoutNoSignal := "Kırılım sinyali yok"

  /**
   * `Skip(Count - 5).Take(4).Average(x => x ?? 0)`: the mean of the four
   * values before the last, nulls counted as 0; null with fewer than 5.
   */
  function PriorAverage(s: seq<Option<real>>): (r: Option<real>)
    ensures |s| < 5 <==> r.None?
  {
    if |s| < 5 then None
    else
      var n := |s|;
      Some((OrZero(s[n - 5]) + OrZero(s[n - 4]) + OrZero(s[n - 3]) + OrZero(s[n - 2])) / 4.0)
  }

  function OrZero(x: Option<real>): real
  {
    if x.Some? then x.value else 0.0
  }

  /**
   * Breakout hunter: buy when the breakout score reaches 75, whatever the
   * position. The square root of the band deviation is a parameter.
   */
  class BreakoutHunterStrategy {
    var bbPeriod: int
    var atrPeriod: int

    constructor()
      ensures bbPeriod == 20 && atrPeriod == 14
    {
      bbPeriod, atrPeriod := 20, 14;
    }

    method SetParameters(parameters: map<string, string>) returns (error: Option<string>)
      modifies this
      ensures var r1 := IntParseSetting(parameters, "BbPeriod", old(bbPeriod));
        var r2 := IntParseSetting(parameters, "AtrPeriod", old(atrPeriod));
        if r1.Failure? then error == Some(r1.error) && bbPeriod == old(bbPeriod) && atrPeriod == old(atrPeriod)
        else
          bbPeriod == r1.value &&
          if r2.Failure? then error == Some(r2.error) && atrPeriod == old(atrPeriod)
          else error == None && atrPeriod == r2.value
    {
      error := None;
      var r1 := IntParseSetting(parameters, "BbPeriod", bbPeriod);
      if r1.Failure? {
        error := Some(r1.error);
        return;
      }
      bbPeriod := r1.value;
      var r2 := IntParseSetting(parameters, "AtrPeriod", atrPeriod);
      if r2.Failure? {
        error := Some(r2.error);
        return;
      }
      atrPeriod := r2.value;
    }

    predicate PeriodsValid()
      reads this
    {
      bbPeriod >= 1 && atrPeriod >= 1
    }

    function View(candles: seq<Candle>, sqrt: real -> real): (v: BreakoutView)
      reads this
      requires PeriodsValid() && |candles| >= 1
      ensures v.last == candles[|candles| - 1]
    {
      var prices := Closes(candles);
      var bands := BollingerBands(prices, bbPeriod, BreakoutBbStdDev, sqrt);
      var bandwidth := Bandwidth(prices, bbPeriod, BreakoutBbStdDev, sqrt);
      var atr := Atr(candles, atrPeriod);
      BreakoutView(LastOrNull(bandwidth), PriorAverage(bandwidth), LastOrNull(atr), PriorAverage(atr),
                   LastOrNull(bands.upper), LastOrNull(bands.middle),
                   LastOrNull(Sma(Volumes(candles), BreakoutVolumeSmaPeriod)), candles[|candles| - 1])
    }

    /** `CalculateSignalScore`: it throws only on a zero close above a (negative) middle band. */
    function Score(candles: seq<Candle>, sqrt: real -> real): (r: Result<real>)
      reads this
      requires PeriodsValid()
      ensures |candles| < 50 ==> r == Success(0.0)
      ensures |candles| >= 50 ==> r == BreakoutScore(View(candles, sqrt))
    {
      if |candles| < 50 then Success(0.0) else BreakoutScore(View(candles, sqrt))
    }

    function Analyze(candles: seq<Candle>, sqrt: real -> real): (r: Result<StrategyResult>)
      reads this
      requires PeriodsValid()
      ensures |candles| < 50 ==> r == Success(DefaultResult())
      ensures |candles| >= 50 ==> (r.Failure? <==> Score(candles, sqrt).Failure?)
      ensures |candles| >= 50 && r.Success? ==>
        var price := candles[|candles| - 1].close;
        (r.value.action == Buy <==> Score(candles, sqrt).value >= 75.0) && r.value.action != Sell &&
        (r.value.action == Buy ==> r.value.targetPrice == price * 1.15 && r.value.stopPrice == price * 0.94)
    {
      if |candles| < 50 then Success(DefaultResult())
      else match Score(candles, sqrt)
        case Failure(e) => Failure(e)
        case Success(score) =>
          var price := candles[|candles| - 1].close;
          if score >= 75.0 then Success(Signal(Buy, price * 1.15, price * 0.94, BreakoutBuy))
          else Success(Describe(NoTrade, BreakoutNoSignal))
    }
  }

  /** The squeeze part (weight 25): a narrow band that widens by 30%, else graded by how narrow it is. */
  function SqueezePoints(last: real, prev: Option<real>): (r: real)
    ensures r in {0.0, 10.0, 15.0, 20.0, 25.0}
    ensures r > 0.0 <==> prev.Some? && prev.value > 0.0 && last < 8.0
  {
    if prev.Some? && prev.value > 0.0 then
      var ratio := last / prev.value;
      if ratio > 1.3 && last < 8.0 then 25.0
      else if last < 4.0 then 20.0
      else if last < 6.0 then 15.0
      else if last < 8.0 then 10.0
      else 0.0
    else 0.0
  }

  /** The volatility part (weight 20): the ATR at 1.5, 1.3 or 1.1 times its prior average. */
  function AtrPoints(last: real, prev: Option<real>): (r: real)
    ensures r in {0.0, 10.0, 15.0, 20.0}
    ensures r > 0.0 <==> prev.Some? && prev.value > 0.0 && last / prev.value >= 1.1
  {
    if prev.Some? && prev.value > 0.0 then
      var ratio := last / prev.value;
      if ratio >= 1.5 then 20.0 else if ratio >= 1.3 then 15.0 else if ratio >= 1.1 then 10.0 else 0.0
    else 0.0
  }

  /**
   * The band part (weight 25): 25 above the upper band; above the middle
   * band, graded by the distance to the upper band in percent of the close,
   * which throws on a zero close.
   */
  function BreakoutBandPoints(close: real, upper: real, middle: Option<real>): (r: Result<real>)
    ensures r.Failure? <==> close <= upper && middle.Some? && close > middle.value && close == 0.0
    ensures r.Success? ==> r.value in {0.0, 10.0, 15.0, 20.0, 25.0}
    ensures r.Success? ==> (r.value > 0.0 <==> close > upper || (middle.Some? && close > middle.value))
  {
    if close > upper then Success(25.0)
    else if middle.Some? && close > middle.value then
      if close == 0.0 then Failure(DivideByZero)
      else
        var distance := (upper - close) / close * 100.0;
        Success(if distance < 1.0 then 20.0 else if distance < 2.0 then 15.0 else 10.0)
    else Success(0.0)
  }

  /** The volume part (weight 20): 20 at twice the SMA, 15 at 1.5 times, 10 at 1.2 times. */
  function BreakoutVolumePoints(volume: real, volSma: real): (r: real)
    ensures r in {0.0, 10.0, 15.0, 20.0}
    ensures r > 0.0 <==> volSma > 0.0 && volume / volSma >= 1.2
  {
    if volSma > 0.0 then
      var ratio := volume / volSma;
      if ratio >= 2.0 then 20.0 else if ratio >= 1.5 then 15.0 else if ratio >= 1.2 then 10.0 else 0.0
    else 0.0
  }

  /** The candle part (weight 10): a rising candle whose body is over 70%, 50% or 30% of its range. */
  function BodyPoints(c: Candle): (r: real)
    ensures r in {0.0, 5.0, 7.0, 10.0}
    ensures r > 0.0 ==> c.close > c.open && c.high > c.low
  {
    if c.close > c.open && c.high - c.low > 0.0 then
      var ratio := (c.close - c.open) / (c.high - c.low);
      if ratio > 0.7 then 10.0 else if ratio > 0.5 then 7.0 else if ratio > 0.3 then 5.0 else 0.0
    else 0.0
  }

  /** `CalculateSignalScore` on the readings: 0 when an input is missing, else the five parts, at most 100. */
  function BreakoutScore(v: BreakoutView): (r: Result<real>)
    ensures v.lastBandwidth.None? || v.lastAtr.None? || v.upper.None? || v.volSma.None? ==> r == Success(0.0)
    ensures r.Failure? <==>
      v.lastBandwidth.Some? && v.lastAtr.Some? && v.upper.Some? && v.volSma.Some? &&
      BreakoutBandPoints(v.last.close, v.upper.value, v.middle).Failure?
    ensures r.Success? ==> 0.0 <= r.value <= 100.0
  {
    if v.lastBandwidth.None? || v.lastAtr.None? || v.upper.None? || v.volSma.None? then Success(0.0)
    else match BreakoutBandPoints(v.last.close, v.upper.value, v.middle)
      case Failure(e) => Failure(e)
      case Success(band) =>
        Success(Min2(SqueezePoints(v.lastBandwidth.value, v.prevBandwidth) + AtrPoints(v.lastAtr.value, v.prevAtr)
                     + band + BreakoutVolumePoints(v.last.volume, v.volSma.value) + BodyPoints(v.last), 100.0))
  }

  /**
   * A breakout buy (75 points) needs both a consolidation sign (a squeeze
   * or an ATR expansion) and a breakout sign (the band or the volume):
   * without either pair the other parts reach at most 55.
   */
  lemma BreakoutBuyNeedsSqueezeAndBreak(v: BreakoutView)
    requires BreakoutScore(v).Success? && BreakoutScore(v).value >= 75.0
    ensures v.lastBandwidth.Some? && v.lastAtr.Some? && v.upper.Some? && v.volSma.Some?
    ensures SqueezePoints(v.lastBandwidth.value, v.prevBandwidth) > 0.0 || AtrPoints(v.lastAtr.value, v.prevAtr) > 0.0
    ensures BreakoutBandPoints(v.last.close, v.upper.value, v.middle).value > 0.0 ||
            BreakoutVolumePoints(v.last.volume, v.volSma.value) > 0.0
  {
  }

  // ------------------------------------------------------------ whale accumulation

  /** The Bollinger deviation multiplier, which `SetParameters` never changes. */
  const WhaleBbStdDev := 2.0

  /** The values the whale score reads. */
  datatype WhaleView = WhaleView(
    lastObv: real, lastObvSma: Option<real>, lastBandwidth: Option<real>, lastVolSma: Option<real>,
    obvTrend: real, rangeHigh: real, rangeLow: real, volume: real)

  const WhaleBuy := "Balina biriktirme tespit edildi - Kırılım bekleniyor"
  const WhaleNoSignal := "Birikim sinyali yetersiz"

  /**
   * The OBV trend: the mean of the last 5 OBV values against the mean of
   * the 5 before them, in percent of the latter's magnitude; 0 when that
   * mean is 0 or there are fewer than 10 values.
   */
  function ObvTrend(obv: seq<real>): (r: real)
    ensures |obv| >= 10 ==>
      var recent, prior := Mean(obv[|obv| - 5..]), Mean(obv[|obv| - 10..|obv| - 5]);
      (prior != 0.0 ==> (r > 0.0 <==> recent > prior)) && (prior == 0.0 ==> r == 0.0)
    ensures |obv| < 10 ==> r == 0.0
  {
    if |obv| >= 10 then
      var recent, prior := Mean(obv[|obv| - 5..]), Mean(obv[|obv| - 10..|obv| - 5]);
      if prior != 0.0 then
        var r := (recent - prior) / Abs(prior) * 100.0;
        assert r > 0.0 <==> recent > prior by {
          DivCompare(recent - prior, Abs(prior), 0.0);
        }
        r
      else 0.0
    else 0.0
  }

  /** Whale accumulation: buy when the accumulation score reaches 75, whatever the position. */
  class WhaleAccumulationStrategy {
    var obvSmaPeriod: int
    var bbPeriod: int
    var squeezeThreshold: real

    constructor()
      ensures obvSmaPeriod == 20 && bbPeriod == 20 && squeezeThreshold == 5.0
    {
      obvSmaPeriod, bbPeriod, squeezeThreshold := 20, 20, 5.0;
    }

    method SetParameters(parameters: map<string, string>) returns (error: Option<string>)
      modifies this
      ensures var r1 := IntParseSetting(parameters, "ObvSmaPeriod", old(obvSmaPeriod));
        var r2 := IntParseSetting(parameters, "BbPeriod", old(bbPeriod));
        var r3 := DecimalParseSetting(parameters, "SqueezeThreshold", old(squeezeThreshold));
        if r1.Failure? then
          error == Some(r1.error) && obvSmaPeriod == old(obvSmaPeriod) && bbPeriod == old(bbPeriod) &&
          squeezeThreshold == old(squeezeThreshold)
        else
          obvSmaPeriod == r1.value &&
          if r2.Failure? then error == Some(r2.error) && bbPeriod == old(bbPeriod) && squeezeThreshold == old(squeezeThreshold)
          else
            bbPeriod == r2.value &&
            if r3.Failure? then error == Some(r3.error) && squeezeThreshold == old(squeezeThreshold)
            else error == None && squeezeThreshold == r3.value
    {
      error := None;
      var r1 := IntParseSetting(parameters, "ObvSmaPeriod", obvSmaPeriod);
      if r1.Failure? {
        error := Some(r1.error);
        return;
      }
      obvSmaPeriod := r1.value;
      var r2 := IntParseSetting(parameters, "BbPeriod", bbPeriod);
      if r2.Failure? {
        error := Some(r2.error);
        return;
      }
      bbPeriod := r2.value;
      var r3 := DecimalParseSetting(parameters, "SqueezeThreshold", squeezeThreshold);
      if r3.Failure? {
        error := Some(r3.error);
        return;
      }
      squeezeThreshold := r3.value;
    }

    predicate PeriodsValid()
      reads this
    {
      obvSmaPeriod >= 1 && bbPeriod >= 1
    }

    /** The range is that of the last 10 candles. */
    function View(candles: seq<Candle>, sqrt: real -> real): (v: WhaleView)
      reads this
      requires PeriodsValid() && |candles| >= 10
      ensures v.volume == candles[|candles| - 1].volume
      ensures (v.rangeHigh, v.rangeLow) == RecentSwing(candles, 10)
    {
      var obv := Obv(candles);
      var swing := RecentSwing(candles, 10);
      WhaleView(obv[|obv| - 1], LastOrNull(Sma(obv, obvSmaPeriod)),
                LastOrNull(Bandwidth(Closes(candles), bbPeriod, WhaleBbStdDev, sqrt)),
                LastOrNull(Sma(Volumes(candles), obvSmaPeriod)), ObvTrend(obv),
                swing.0, swing.1, candles[|candles| - 1].volume)
    }

    function Score(candles: seq<Candle>, sqrt: real -> real): (r: real)
      reads this
      requires PeriodsValid()
      ensures 0.0 <= r <= 100.0
      ensures |candles| < 50 ==> r == 0.0
      ensures |candles| >= 50 ==> r == WhaleScore(View(candles, sqrt), squeezeThreshold)
    {
      if |candles| < 50 then 0.0 else WhaleScore(View(candles, sqrt), squeezeThreshold)
    }

    function Analyze(candles: seq<Candle>, sqrt: real -> real): (r: StrategyResult)
      reads this
      requires PeriodsValid()
      ensures |candles| < 50 ==> r == DefaultResult()
      ensures |candles| >= 50 ==>
        var price := candles[|candles| - 1].close;
        (r.action == Buy <==> Score(candles, sqrt) >= 75.0) && r.action != Sell &&
        (r.action == Buy ==> r.targetPrice == price * 1.15 && r.stopPrice == price * 0.93)
    {
      if |candles| < 50 then DefaultResult()
      else
        var price := candles[|candles| - 1].close;
        if Score(candles, sqrt) >= 75.0 then Signal(Buy, price * 1.15, price * 0.93, WhaleBuy)
        else Describe(NoTrade, WhaleNoSignal)
    }
  }

  /** The squeeze part (weight 35): 35 below 3%, 30 below the threshold, 20 below 7%, 10 below 10%. */
  function TightnessPoints(bandwidth: real, threshold: real): (r: real)
    ensures r in {0.0, 10.0, 20.0, 30.0, 35.0}
    ensures r > 0.0 <==> bandwidth < 10.0 || bandwidth < threshold
  {
    if bandwidth < 3.0 then 35.0
    else if bandwidth < threshold then 30.0
    else if bandwidth < 7.0 then 20.0
    else if bandwidth < 10.0 then 10.0
    else 0.0
  }

  /** The accumulation part (weight 35): only for the OBV above its SMA, graded by the OBV trend. */
  function AccumulationPoints(obv: real, obvSma: real, trend: real): (r: real)
    ensures r in {0.0, 10.0, 20.0, 28.0, 35.0}
    ensures r > 0.0 <==> obv > obvSma
  {
    if obv > obvSma then
      if trend > 5.0 then 35.0 else if trend > 2.0 then 28.0 else if trend > 0.0 then 20.0 else 10.0
    else 0.0
  }

  /** The range of the last candles in percent of its low, 100 when the low is not positive. */
  function RangePercent(high: real, low: real): real
  {
    if low > 0.0 then (high - low) / low * 100.0 else 100.0
  }

  /** The consolidation part (weight 15): a range under 3%, 5% or 8%. */
  function ConsolidationPoints(rangePercent: real): (r: real)
    ensures r in {0.0, 8.0, 12.0, 15.0}
    ensures r > 0.0 <==> rangePercent < 8.0
  {
    if rangePercent < 3.0 then 15.0 else if rangePercent < 5.0 then 12.0 else if rangePercent < 8.0 then 8.0 else 0.0
  }

  /** The quiet-volume part (weight 15): best between 0.6 and 1.2 times the SMA, nothing above 1.5 times. */
  function QuietVolumePoints(volume: real, volSma: real): (r: real)
    ensures r in {0.0, 8.0, 10.0, 15.0}
    ensures r == 15.0 <==> volSma > 0.0 && 0.6 <= volume / volSma <= 1.2
    ensures r == 0.0 <==> volSma <= 0.0 || volume / volSma > 1.5
  {
    if volSma > 0.0 then
      var ratio := volume / volSma;
      if 0.6 <= ratio <= 1.2 then 15.0 else if 1.2 < ratio <= 1.5 then 10.0 else if ratio < 0.6 then 8.0 else 0.0
    else 0.0
  }

  /** `CalculateSignalScore` on the readings: 0 when an input is missing, else the four parts, at most 100. */
  function WhaleScore(v: WhaleView, threshold: real): (r: real)
    ensures 0.0 <= r <= 100.0
    ensures v.lastObvSma.None? || v.lastBandwidth.None? || v.lastVolSma.None? ==> r == 0.0
  {
    if v.lastObvSma.None? || v.lastBandwidth.None? || v.lastVolSma.None? then 0.0
    else
      Min2(TightnessPoints(v.lastBandwidth.value, threshold) + AccumulationPoints(v.lastObv, v.lastObvSma.value, v.obvTrend)
           + ConsolidationPoints(RangePercent(v.rangeHigh, v.rangeLow)) + QuietVolumePoints(v.volume, v.lastVolSma.value), 100.0)
  }

  /**
   * A whale buy (75 points) needs both the OBV above its SMA and a
   * squeeze: without either, the other parts reach at most 65.
   */
  lemma WhaleBuyNeedsAccumulationAndSqueeze(v: WhaleView, threshold: real)
    requires WhaleScore(v, threshold) >= 75.0
    ensures v.lastObvSma.Some? && v.lastBandwidth.Some? && v.lastVolSma.Some?
    ensures v.lastObv > v.lastObvSma.value
    ensures v.lastBandwidth.value < 10.0 || v.lastBandwidth.value < threshold
  {
  }
}
