/**
 * The momentum strategies that implement the strategy interface directly:
 * Alpha Trend (EMA cross with an RSI filter), Scout breakout (volume spike
 * with RSI), oversold recovery, trend surfer and Phoenix momentum. Each
 * decision and each score is stated on a snapshot of the indicator values
 * it reads from the last candles.
 */
module StrategiesMomentum {
  import opened Common
  import opened StrategyBase
  import opened Indicators
  import opened IndicatorsRsi
  import opened IndicatorsBands
  import opened IndicatorsLevels
  import opened IndicatorsTrend

  /** `x ?? d` on a nullable decimal. */
  function OrElse(x: Option<real>, d: real): (r: real)
    ensures x.Some? ==> r == x.value
    ensures x.None? ==> r == d
  {
    if x.Some? then x.value else d
  }

  // ------------------------------------------------------------ Alpha Trend

  /** The last close, the last two values of both EMAs and the last RSI, all defined. */
  datatype AlphaView = AlphaView(price: real, fast: real, prevFast: real, slow: real, prevSlow: real, rsi: real)

  /** The gap between the EMAs in percent of the slow one. */
  function EmaGap(fast: real, slow: real): real
    requires slow != 0.0
  {
    (fast - slow) / slow * 100.0
  }

  const AlphaBuy := "ALIM: EMA Kesişimi & RSI OK"
  const AlphaDeathCross := "SATIŞ: EMA Negatif Kesişim (Death Cross)"
  const AlphaWeakening := "SATIŞ: RSI Aşırı Alım"

  /**
   * Alpha Trend: buy on a golden cross of the fast over the slow EMA while
   * the RSI is below the buy threshold; sell on a death cross, or when the
   * RSI is above the sell threshold and the EMA gap shrinks or the RSI
   * passes 80.
   */
  class AlphaTrendStrategy {
    var fastEma: int
    var slowEma: int
    var rsiPeriod: int
    var rsiBuyThreshold: real
    var rsiSellThreshold: real

    constructor()
      ensures fastEma == 20 && slowEma == 50 && rsiPeriod == 14
      ensures rsiBuyThreshold == 65.0 && rsiSellThreshold == 75.0
    {
      fastEma, slowEma, rsiPeriod := 20, 50, 14;
      rsiBuyThreshold, rsiSellThreshold := 65.0, 75.0;
    }

    method SetParameters(parameters: map<string, string>)
      modifies this
      ensures fastEma == IntSetting(parameters, "fastEma", old(fastEma))
      ensures slowEma == IntSetting(parameters, "slowEma", old(slowEma))
      ensures rsiPeriod == IntSetting(parameters, "rsiPeriod", old(rsiPeriod))
      ensures rsiBuyThreshold == DecimalSetting(parameters, "rsiBuy", old(rsiBuyThreshold))
      ensures rsiSellThreshold == DecimalSetting(parameters, "rsiSell", old(rsiSellThreshold))
    {
      fastEma := IntSetting(parameters, "fastEma", fastEma);
      slowEma := IntSetting(parameters, "slowEma", slowEma);
      rsiPeriod := IntSetting(parameters, "rsiPeriod", rsiPeriod);
      rsiBuyThreshold := DecimalSetting(parameters, "rsiBuy", rsiBuyThreshold);
      rsiSellThreshold := DecimalSetting(parameters, "rsiSell", rsiSellThreshold);
    }

    predicate PeriodsValid()
      reads this
    {
      fastEma >= 1 && slowEma >= 1 && rsiPeriod >= 1
    }

    /** `Math.Max(slowEma, rsiPeriod) + 1`. */
    function MinCandles(): int
      reads this
    {
      MaxInt(slowEma, rsiPeriod) + 1
    }

    function View(candles: seq<Candle>): Option<AlphaView>
      reads this
      requires PeriodsValid() && |candles| >= MinCandles()
    {
      var prices := Closes(candles);
      var n := |candles|;
      var fast, slow := Ema(prices, fastEma), Ema(prices, slowEma);
      var rsi := LastOrNull(Rsi(prices, rsiPeriod));
      if fast[n - 1].None? || slow[n - 1].None? || rsi.None? || fast[n - 2].None? || slow[n - 2].None? then None
      else Some(AlphaView(prices[n - 1], fast[n - 1].value, fast[n - 2].value, slow[n - 1].value, slow[n - 2].value, rsi.value))
    }

    /** The trend weakens: the EMA gap is smaller than at the previous candle. */
    predicate GapShrinks(v: AlphaView)
      requires v.slow != 0.0 && v.prevSlow != 0.0
    {
      EmaGap(v.fast, v.slow) < EmaGap(v.prevFast, v.prevSlow)
    }

    /**
     * `Analyze`. The EMA gaps divide by the slow EMA, so a zero slow EMA in
     * the RSI branch throws.
     */
    function Analyze(candles: seq<Candle>, currentPositionAmount: real): (r: Result<StrategyResult>)
      reads this
      requires PeriodsValid()
      ensures |candles| < MinCandles() ==> r == Success(DefaultResult())
      ensures |candles| >= MinCandles() && View(candles).None? ==> r == Success(DefaultResult())
      ensures |candles| >= MinCandles() && View(candles).Some? ==>
        var v := View(candles).value;
        var death := CrossedBelow(v.prevFast, v.prevSlow, v.fast, v.slow);
        (r.Failure? <==>
          currentPositionAmount != 0.0 && !death && v.rsi > rsiSellThreshold && (v.slow == 0.0 || v.prevSlow == 0.0)) &&
        (r.Success? ==>
          (r.value.action == Buy <==>
            currentPositionAmount == 0.0 && CrossedAbove(v.prevFast, v.prevSlow, v.fast, v.slow) && v.rsi < rsiBuyThreshold) &&
          (r.value.action == Buy ==> r.value.targetPrice == v.price * 1.05 && r.value.stopPrice == v.price * 0.97) &&
          (r.value.action == Sell <==>
            currentPositionAmount != 0.0 &&
            (death || (v.rsi > rsiSellThreshold && (GapShrinks(v) || v.rsi > 80.0)))) &&
          (r.value.action == Sell && death ==> r.value.description == AlphaDeathCross))
    {
      if |candles| < MinCandles() then Success(DefaultResult())
      else match View(candles)
        case None => Success(DefaultResult())
        case Some(v) =>
          if currentPositionAmount == 0.0 then
            if CrossedAbove(v.prevFast, v.prevSlow, v.fast, v.slow) && v.rsi < rsiBuyThreshold then
              Success(Signal(Buy, v.price * 1.05, v.price * 0.97, AlphaBuy))
            else Success(DefaultResult())
          else if CrossedBelow(v.prevFast, v.prevSlow, v.fast, v.slow) then Success(Describe(Sell, AlphaDeathCross))
          else if v.rsi > rsiSellThreshold then
            if v.slow == 0.0 || v.prevSlow == 0.0 then Failure(DivideByZero)
            else if GapShrinks(v) || v.rsi > 80.0 then Success(Describe(Sell, AlphaWeakening))
            else Success(DefaultResult())
          else Success(DefaultResult())
    }

    /** `CalculateSignalScore`: 0 without enough candles, else the clamped trend and RSI score. */
    function Score(candles: seq<Candle>): (r: real)
      reads this
      requires PeriodsValid()
      ensures 0.0 <= r <= 100.0
      ensures |candles| < MinCandles() ==> r == 0.0
      ensures |candles| >= MinCandles() ==>
        var prices := Closes(candles);
        r == AlphaScore(OrElse(LastOrNull(Ema(prices, fastEma)), 0.0) > OrElse(LastOrNull(Ema(prices, slowEma)), 0.0),
                        OrElse(LastOrNull(Rsi(prices, rsiPeriod)), 50.0), rsiBuyThreshold, rsiSellThreshold)
    {
      if |candles| < MinCandles() then 0.0
      else
        var prices := Closes(candles);
        var fast := OrElse(LastOrNull(Ema(prices, fastEma)), 0.0);
        var slow := OrElse(LastOrNull(Ema(prices, slowEma)), 0.0);
        var rsi := OrElse(LastOrNull(Rsi(prices, rsiPeriod)), 50.0);
        AlphaScore(fast > slow, rsi, rsiBuyThreshold, rsiSellThreshold)
    }
  }

  /** The RSI part of the Alpha Trend score: more the lower the RSI below the buy threshold, less above the sell threshold. */
  function AlphaRsiPoints(rsi: real, buy: real, sell: real): real
  {
    if rsi < buy then 50.0 - rsi / 2.0
    else if rsi > sell then -((rsi - 50.0) / 2.0)
    else 0.0
  }

  /** 50, plus or minus 20 for the EMA trend, plus the RSI part, clamped to `[0, 100]`. */
  function AlphaScore(trendUp: bool, rsi: real, buy: real, sell: real): (r: real)
    ensures 0.0 <= r <= 100.0
    ensures rsi > sell && rsi >= buy && rsi >= 50.0 ==> r <= 70.0
  {
    Clamp(50.0 + (if trendUp then 20.0 else -20.0) + AlphaRsiPoints(rsi, buy, sell), 0.0, 100.0)
  }

  /**
   * Lower RSI is better for buying: with the thresholds ordered, the buy
   * threshold at most 100 and the sell threshold at least 50, the score
   * never rises with the RSI.
   */
  lemma AlphaScoreAntitone(trendUp: bool, rsi1: real, rsi2: real, buy: real, sell: real)
    requires rsi1 <= rsi2 && buy <= sell && buy <= 100.0 && sell >= 50.0
    ensures AlphaScore(trendUp, rsi2, buy, sell) <= AlphaScore(trendUp, rsi1, buy, sell)
  {
    assert AlphaRsiPoints(rsi2, buy, sell) <= AlphaRsiPoints(rsi1, buy, sell);
  }

  /** A golden-cross buy scores above 70: the trend adds 20 and an RSI below 100 adds a positive amount. */
  lemma AlphaTrendBuyScoresHigh(s: AlphaTrendStrategy, candles: seq<Candle>)
    requires s.PeriodsValid() && s.rsiBuyThreshold <= 100.0
    requires s.Analyze(candles, 0.0).Success? && s.Analyze(candles, 0.0).value.action == Buy
    ensures s.Score(candles) > 70.0
  {
    var prices := Closes(candles);
    assert |candles| >= s.MinCandles() && s.View(candles).Some?;
    var v := s.View(candles).value;
    assert v.fast > v.slow && v.rsi < s.rsiBuyThreshold;
    var rsiList := Rsi(prices, s.rsiPeriod);
    RsiRange(prices, s.rsiPeriod);
    assert LastOrNull(rsiList) == Some(v.rsi);
    assert v.rsi < 100.0 by {
      assert rsiList[|rsiList| - 1].Some?;
    }
    assert OrElse(LastOrNull(Ema(prices, s.fastEma)), 0.0) == v.fast;
    assert OrElse(LastOrNull(Ema(prices, s.slowEma)), 0.0) == v.slow;
    assert OrElse(LastOrNull(rsiList), 50.0) == v.rsi;
    assert s.Score(candles) == AlphaScore(true, v.rsi, s.rsiBuyThreshold, s.rsiSellThreshold);
  }

  // ------------------------------------------------------------ Scout breakout

  const ScoutRsiLower := 30.0
  const ScoutRsiUpper := 70.0

  /** The last RSI (50 when null), the one before it, the last volume and the average of the volumes before it. */
  datatype ScoutView = ScoutView(price: real, rsi: real, prevRsi: Option<real>, lastVolume: real, avgVolume: real)

  /** An RSI breakout: strictly between 50 and the upper bound. */
  predicate RsiBreakout(v: ScoutView)
  {
    50.0 < v.rsi < ScoutRsiUpper
  }

  /** An RSI recovery: above the lower bound now, at or below it at the previous value (a null one is not). */
  predicate RsiRecovery(v: ScoutView)
  {
    v.rsi > ScoutRsiLower && v.prevRsi.Some? && v.prevRsi.value <= ScoutRsiLower
  }

  const ScoutBreakoutBuy := "SCOUT: Hacim Patlaması & RSI Breakout"
  const ScoutRecoveryBuy := "SCOUT: Hacim Patlaması & Dip Dönüşü"
  const ScoutOverbought := "SCOUT: Hacim Güçlü Ancak RSI"
  const ScoutWaiting := "SCOUT: Hacim Patlaması Var Ancak Net Trend Teyidi Bekleniyor"
  const ScoutBottom := "SCOUT: Dip Bölgesi, Hacim Desteği Bekleniyor"
  const ScoutTarget := "SCOUT: Hedefe Ulaşıldı (Aşırı Alım)"
  const ScoutMomentumLost := "SCOUT: Momentum Kaybedildi"

  /** Scout breakout: a volume spike with an RSI breakout or an RSI recovery from oversold. */
  class ScoutBreakoutStrategy {
    var rsiPeriod: int
    var volumeAvgPeriod: int
    var volumeMultiplier: real

    constructor()
      ensures rsiPeriod == 14 && volumeAvgPeriod == 20 && volumeMultiplier == 1.8
    {
      rsiPeriod, volumeAvgPeriod, volumeMultiplier := 14, 20, 1.8;
    }

    method SetParameters(parameters: map<string, string>)
      modifies this
      ensures rsiPeriod == IntSetting(parameters, "rsiPeriod", old(rsiPeriod))
      ensures volumeAvgPeriod == IntSetting(parameters, "volPeriod", old(volumeAvgPeriod))
      ensures volumeMultiplier == DecimalSetting(parameters, "volMult", old(volumeMultiplier))
    {
      rsiPeriod := IntSetting(parameters, "rsiPeriod", rsiPeriod);
      volumeAvgPeriod := IntSetting(parameters, "volPeriod", volumeAvgPeriod);
      volumeMultiplier := DecimalSetting(parameters, "volMult", volumeMultiplier);
    }

    predicate PeriodsValid()
      reads this
    {
      rsiPeriod >= 1 && volumeAvgPeriod >= 1
    }

    function MinCandles(): int
      reads this
    {
      MaxInt(volumeAvgPeriod, rsiPeriod) + 1
    }

    /** The average is over the `volumeAvgPeriod` volumes that end just before the last candle. */
    function View(candles: seq<Candle>): (v: ScoutView)
      reads this
      requires PeriodsValid() && |candles| >= MinCandles()
      ensures v.price == candles[|candles| - 1].close && v.lastVolume == candles[|candles| - 1].volume
      ensures v.avgVolume == Mean(Volumes(candles)[|candles| - volumeAvgPeriod - 1..|candles| - 1])
    {
      var prices := Closes(candles);
      var volumes := Volumes(candles);
      var n := |candles|;
      var rsiList := Rsi(prices, rsiPeriod);
      RsiLength(prices, rsiPeriod);
      ScoutView(prices[n - 1], OrElse(rsiList[|rsiList| - 1], 50.0), rsiList[|rsiList| - 2],
                volumes[n - 1], Mean(volumes[n - volumeAvgPeriod - 1..n - 1]))
    }

    predicate Spike(v: ScoutView)
      reads this
    {
      v.lastVolume > v.avgVolume * volumeMultiplier
    }

    function Analyze(candles: seq<Candle>, currentPositionAmount: real): (r: StrategyResult)
      reads this
      requires PeriodsValid()
      ensures |candles| < MinCandles() ==> r == DefaultResult()
      ensures |candles| >= MinCandles() ==>
        var v := View(candles);
        (r.action == Buy <==> currentPositionAmount == 0.0 && Spike(v) && (RsiBreakout(v) || RsiRecovery(v))) &&
        (r.action == Buy ==>
          r.targetPrice == v.price * 1.03 && r.stopPrice == v.price * 0.98 &&
          r.description == (if RsiBreakout(v) then ScoutBreakoutBuy else ScoutRecoveryBuy)) &&
        (r.action == Sell <==> currentPositionAmount != 0.0 && (v.rsi > 75.0 || (!Spike(v) && v.rsi < 50.0)))
    {
      if |candles| < MinCandles() then DefaultResult()
      else
        var v := View(candles);
        if currentPositionAmount == 0.0 then
          if Spike(v) && (RsiBreakout(v) || RsiRecovery(v)) then
            Signal(Buy, v.price * 1.03, v.price * 0.98, if RsiBreakout(v) then ScoutBreakoutBuy else ScoutRecoveryBuy)
          else if Spike(v) then Describe(NoTrade, if v.rsi >= ScoutRsiUpper then ScoutOverbought else ScoutWaiting)
          else if v.rsi < 30.0 then Describe(NoTrade, ScoutBottom)
          else DefaultResult()
        else if v.rsi > 75.0 || (!Spike(v) && v.rsi < 50.0) then
          Describe(Sell, if v.rsi > 75.0 then ScoutTarget else ScoutMomentumLost)
        else DefaultResult()
    }

    /** `CalculateSignalScore`: 50 without enough candles, else 50 plus the volume and RSI points, clamped. */
    function Score(candles: seq<Candle>): (r: real)
      reads this
      requires PeriodsValid()
      ensures 50.0 <= r <= 100.0
      ensures |candles| < MinCandles() ==> r == 50.0
      ensures |candles| >= MinCandles() ==> r == ScoutScore(View(candles))
    {
      if |candles| < MinCandles() then 50.0 else ScoutScore(View(candles))
    }
  }

  /** 50 plus the volume and RSI points, clamped to `[0, 100]`. */
  function ScoutScore(v: ScoutView): (r: real)
    ensures 50.0 <= r <= 100.0
  {
    Clamp(50.0 + ScoutVolumePoints(v.lastVolume, v.avgVolume) + ScoutRsiPoints(v.rsi), 0.0, 100.0)
  }

  /** The volume ratio, over an average replaced by 1 when it is not positive. */
  function VolumeRatio(lastVolume: real, avgVolume: real): real
  {
    lastVolume / (if avgVolume > 0.0 then avgVolume else 1.0)
  }

  /** 15 points per unit of volume ratio above 1, at most 45. */
  function ScoutVolumePoints(lastVolume: real, avgVolume: real): (r: real)
    ensures 0.0 <= r <= 45.0
    ensures r > 0.0 <==> VolumeRatio(lastVolume, avgVolume) > 1.0
  {
    var ratio := VolumeRatio(lastVolume, avgVolume);
    if ratio > 1.0 then Min2(ratio * 15.0, 45.0) else 0.0
  }

  /** 25 above 60 and 15 above 50 (both below 70), 5 above 70, 10 below 35; an RSI of exactly 70 gets nothing. */
  function ScoutRsiPoints(rsi: real): (r: real)
    ensures r in {0.0, 5.0, 10.0, 15.0, 25.0}
    ensures 50.0 < rsi < 70.0 ==> r >= 15.0
    ensures rsi == 70.0 || 35.0 <= rsi <= 50.0 ==> r == 0.0
  {
    if 50.0 < rsi < 70.0 then (if rsi > 60.0 then 25.0 else 15.0)
    else if rsi > 70.0 then 5.0
    else if rsi < 35.0 then 10.0
    else 0.0
  }

  /**
   * The readings of a Scout buy, with a multiplier of at least 1 over a
   * positive average, earn at least 15 volume points: the score is at
   * least 65, and at least 80 on an RSI breakout.
   */
  lemma ScoutBuyScores(v: ScoutView, multiplier: real)
    requires v.avgVolume > 0.0 && multiplier >= 1.0 && v.lastVolume > v.avgVolume * multiplier
    requires RsiBreakout(v) || RsiRecovery(v)
    ensures ScoutScore(v) >= 65.0
    ensures RsiBreakout(v) ==> ScoutScore(v) >= 80.0
  {
    MulMonotone(1.0, multiplier, v.avgVolume);
    DivCompare(v.lastVolume, v.avgVolume, 1.0);
  }

  // ------------------------------------------------------------ oversold recovery

  /** The values the oversold-recovery score reads. */
  datatype OversoldView = OversoldView(
    lastRsi: Option<real>, prevRsi: Option<real>,
    lastStochK: Option<real>, prevStochK: Option<real>,
    lastVolSma: Option<real>, support: Option<real>,
    close: real, volume: real, divergence: bool)

  const OversoldTakeProfit := "DİP DÖNÜŞ KÂR AL: Toparlanma tamamlandı"
  const OversoldRsiNormal := "DİP DÖNÜŞ: RSI normalleşti"
  const OversoldFailed := "DİP DÖNÜŞ STOP: Toparlanma başarısız"
  const OversoldStop := "DİP DÖNÜŞ STOP"
  const OversoldHolding := "Dip dönüş pozisyonda"
  const OversoldBuy := "Aşırı satımdan toparlanma sinyali - Dip alım fırsatı"
  const OversoldNoSignal := "Toparlanma sinyali yok"

  /**
   * Oversold recovery: buy when the recovery score reaches 70; in a
   * position, take profit at 12%, at more than 5% once the RSI normalises,
   * and stop out at -5%.
   */
  class OversoldRecoveryStrategy {
    var rsiPeriod: int
    var stochRsiPeriod: int
    var oversoldLevel: real

    constructor()
      ensures rsiPeriod == 14 && stochRsiPeriod == 14 && oversoldLevel == 30.0
    {
      rsiPeriod, stochRsiPeriod, oversoldLevel := 14, 14, 30.0;
    }

    method SetParameters(parameters: map<string, string>)
      modifies this
      ensures rsiPeriod == IntSetting(parameters, "RsiPeriod", old(rsiPeriod))
      ensures stochRsiPeriod == IntSetting(parameters, "StochRsiPeriod", old(stochRsiPeriod))
      ensures oversoldLevel == DecimalSetting(parameters, "OversoldLevel", old(oversoldLevel))
    {
      rsiPeriod := IntSetting(parameters, "RsiPeriod", rsiPeriod);
      stochRsiPeriod := IntSetting(parameters, "StochRsiPeriod", stochRsiPeriod);
      oversoldLevel := DecimalSetting(parameters, "OversoldLevel", oversoldLevel);
    }

    predicate PeriodsValid()
      reads this
    {
      rsiPeriod >= 1 && stochRsiPeriod >= 1
    }

    /** The RSI, the smoothed stochastic %K (smoothing 3 and 3), SMA 20 of the volumes and the 20-candle support. */
    function View(candles: seq<Candle>): (v: OversoldView)
      reads this
      requires PeriodsValid() && |candles| >= 1
      ensures v.close == candles[|candles| - 1].close && v.volume == candles[|candles| - 1].volume
    {
      var prices := Closes(candles);
      var rsi := Rsi(prices, rsiPeriod);
      var k := StochasticRsi(prices, rsiPeriod, stochRsiPeriod, 3, 3).0;
      OversoldView(
        LastOrNull(rsi), FromEnd(rsi, 1), LastOrNull(k), FromEnd(k, 1),
        LastOrNull(Sma(Volumes(candles), 20)), SupportLevel(candles, 20),
        candles[|candles| - 1].close, candles[|candles| - 1].volume,
        BullishDivergence(candles, rsi, 10))
    }

    function Score(candles: seq<Candle>): (r: real)
      reads this
      requires PeriodsValid()
      ensures 0.0 <= r <= 100.0
      ensures |candles| < 50 ==> r == 0.0
      ensures |candles| >= 50 ==> r == OversoldScore(View(candles), oversoldLevel)
    {
      if |candles| < 50 then 0.0 else OversoldScore(View(candles), oversoldLevel)
    }

    function Analyze(candles: seq<Candle>, currentPositionAmount: real, entryPrice: real): (r: StrategyResult)
      reads this
      requires PeriodsValid()
      ensures |candles| < 50 ==> r == DefaultResult()
      ensures |candles| >= 50 && currentPositionAmount > 0.0 && entryPrice > 0.0 ==>
        var price := candles[|candles| - 1].close;
        var pnl := PnlPercent(price, entryPrice);
        var rsi := OrElse(LastOrNull(Rsi(Closes(candles), rsiPeriod)), 50.0);
        (r.action == Sell <==> pnl >= 12.0 || (rsi > 65.0 && pnl > 5.0) || pnl <= -5.0) &&
        r.action != Buy &&
        (pnl >= 12.0 ==> r.description == OversoldTakeProfit) &&
        (pnl < 12.0 && rsi > 65.0 && pnl > 5.0 ==> r.description == OversoldRsiNormal) &&
        (rsi < 20.0 && pnl <= -5.0 ==> r.description == OversoldFailed)
      ensures |candles| >= 50 && !(currentPositionAmount > 0.0 && entryPrice > 0.0) ==>
        var price := candles[|candles| - 1].close;
        (r.action == Buy <==> Score(candles) >= 70.0) && r.action != Sell &&
        (r.action == Buy ==> r.targetPrice == price * 1.12 && r.stopPrice == price * 0.95)
    {
      if |candles| < 50 then DefaultResult()
      else
        var price := candles[|candles| - 1].close;
        if currentPositionAmount > 0.0 && entryPrice > 0.0 then
          var rsi := OrElse(LastOrNull(Rsi(Closes(candles), rsiPeriod)), 50.0);
          var pnl := PnlPercent(price, entryPrice);
          if pnl >= 12.0 then Describe(Sell, OversoldTakeProfit)
          else if rsi > 65.0 && pnl > 5.0 then Describe(Sell, OversoldRsiNormal)
          else if rsi < 20.0 && pnl <= -5.0 then Describe(Sell, OversoldFailed)
          else if pnl <= -5.0 then Describe(Sell, OversoldStop)
          else Describe(NoTrade, OversoldHolding)
        else if Score(candles) >= 70.0 then Signal(Buy, price * 1.12, price * 0.95, OversoldBuy)
        else Describe(NoTrade, OversoldNoSignal)
    }
  }

  /** The RSI recovery part (weight 30): a rise from at or below the oversold level, graded by how low the RSI still is. */
  function RecoveryPoints(last: real, prev: Option<real>, oversoldLevel: real): (r: real)
    ensures r in {0.0, 10.0, 15.0, 25.0, 30.0}
    ensures r >= 15.0 <==> prev.Some? && prev.value <= oversoldLevel && last > prev.value
  {
    if prev.Some? && prev.value <= oversoldLevel && last > prev.value then
      if last <= 40.0 then 30.0 else if last <= 50.0 then 25.0 else 15.0
    else if last <= oversoldLevel then 10.0
    else 0.0
  }

  /** The stochastic part (weight 25): only for a rising %K, most for a crossing of 20. */
  function StochPoints(last: real, prev: Option<real>): (r: real)
    ensures r in {0.0, 10.0, 20.0, 25.0}
    ensures r > 0.0 <==> prev.Some? && last > prev.value
  {
    if prev.Some? && last > prev.value then
      if prev.value <= 20.0 && last > 20.0 then 25.0 else if last <= 30.0 then 20.0 else 10.0
    else 0.0
  }

  /** The distance above the support in percent, 100 when the support is not positive. */
  function SupportDistance(close: real, support: real): real
  {
    if support > 0.0 then (close - support) / support * 100.0 else 100.0
  }

  /** The support part (weight 20): 20 within 2% above it, 15 within 5%, 8 within 10%. */
  function SupportPoints(distance: real): (r: real)
    ensures r in {0.0, 8.0, 15.0, 20.0}
    ensures r > 0.0 <==> 0.0 <= distance <= 10.0
  {
    if 0.0 <= distance <= 2.0 then 20.0
    else if 2.0 < distance <= 5.0 then 15.0
    else if 5.0 < distance <= 10.0 then 8.0
    else 0.0
  }

  /** The volume part (weight 15): by the ratio of the last volume to its SMA, when that is positive. */
  function RecoveryVolumePoints(volume: real, volSma: real): (r: real)
    ensures r in {0.0, 8.0, 12.0, 15.0}
    ensures r > 0.0 <==> volSma > 0.0 && volume / volSma >= 1.0
  {
    if volSma > 0.0 then
      var ratio := volume / volSma;
      if ratio >= 1.5 then 15.0 else if ratio >= 1.2 then 12.0 else if ratio >= 1.0 then 8.0 else 0.0
    else 0.0
  }

  /** `CalculateSignalScore` on the readings: 0 when an input is missing, else the five parts, at most 100. */
  function OversoldScore(v: OversoldView, oversoldLevel: real): (r: real)
    ensures 0.0 <= r <= 100.0
    ensures v.lastRsi.None? || v.lastStochK.None? || v.lastVolSma.None? || v.support.None? ==> r == 0.0
  {
    if v.lastRsi.None? || v.lastStochK.None? || v.lastVolSma.None? || v.support.None? then 0.0
    else
      var score := RecoveryPoints(v.lastRsi.value, v.prevRsi, oversoldLevel)
        + StochPoints(v.lastStochK.value, v.prevStochK)
        + SupportPoints(SupportDistance(v.close, v.support.value))
        + RecoveryVolumePoints(v.volume, v.lastVolSma.value)
        + (if v.divergence then 10.0 else 0.0);
      Min2(score, 100.0)
  }

  /**
   * The weights add up to exactly 100, so the cap never changes the score,
   * and a buy (70 points) needs at least two of the three largest parts.
   */
  lemma OversoldScoreUncapped(v: OversoldView, oversoldLevel: real)
    requires v.lastRsi.Some? && v.lastStochK.Some? && v.lastVolSma.Some? && v.support.Some?
    ensures OversoldScore(v, oversoldLevel) ==
      RecoveryPoints(v.lastRsi.value, v.prevRsi, oversoldLevel) + StochPoints(v.lastStochK.value, v.prevStochK)
      + SupportPoints(SupportDistance(v.close, v.support.value)) + RecoveryVolumePoints(v.volume, v.lastVolSma.value)
      + (if v.divergence then 10.0 else 0.0)
    ensures OversoldScore(v, oversoldLevel) >= 70.0 ==>
      RecoveryPoints(v.lastRsi.value, v.prevRsi, oversoldLevel) > 10.0 ||
      StochPoints(v.lastStochK.value, v.prevStochK) > 0.0
  {
  }

  // ------------------------------------------------------------ trend surfer

  /** The values the trend-surfer score reads. */
  datatype TrendView = TrendView(
    adx: Option<real>, plusDi: Option<real>, minusDi: Option<real>,
    cross: EmaCross, rsi: Option<real>, close: real)

  const SurferTakeProfit := "TREND SURFER KÂR AL"
  const SurferReversal := "TREND SURFER: Trend yön değiştirdi (-DI > +DI, ADX: "
  const SurferDeathCross := "TREND SURFER: Death Cross tespit edildi"
  const SurferStop := "TREND SURFER STOP"
  const SurferHolding := "Trend Surfer pozisyonda"
  const SurferBuy := "Güçlü yükseliş trendi tespit edildi - Trende binme fırsatı"
  const SurferNoSignal := "Trend gücü yetersiz"

  /**
   * Trend surfer: buy when the trend score reaches 70; in a position, take
   * profit at 20%, leave when -DI leads with ADX above 25 or on a death
   * cross, and stop out at -8%.
   */
  class TrendSurferStrategy {
    var adxPeriod: int
    var fastEmaPeriod: int
    var slowEmaPeriod: int

    constructor()
      ensures adxPeriod == 14 && fastEmaPeriod == 50 && slowEmaPeriod == 200
    {
      adxPeriod, fastEmaPeriod, slowEmaPeriod := 14, 50, 200;
    }

    method SetParameters(parameters: map<string, string>)
      modifies this
      ensures adxPeriod == IntSetting(parameters, "AdxPeriod", old(adxPeriod))
      ensures fastEmaPeriod == IntSetting(parameters, "FastEmaPeriod", old(fastEmaPeriod))
      ensures slowEmaPeriod == IntSetting(parameters, "SlowEmaPeriod", old(slowEmaPeriod))
    {
      adxPeriod := IntSetting(parameters, "AdxPeriod", adxPeriod);
      fastEmaPeriod := IntSetting(parameters, "FastEmaPeriod", fastEmaPeriod);
      slowEmaPeriod := IntSetting(parameters, "SlowEmaPeriod", slowEmaPeriod);
    }

    predicate PeriodsValid()
      reads this
    {
      adxPeriod >= 1 && fastEmaPeriod >= 1 && slowEmaPeriod >= 1
    }

    /** The last ADX, +DI and -DI, the EMA cross of the two periods, RSI 14 and the last close. */
    function View(candles: seq<Candle>): (v: TrendView)
      reads this
      requires PeriodsValid() && |candles| >= 1
      ensures v.close == candles[|candles| - 1].close
    {
      var prices := Closes(candles);
      var adx := CalculateAdxSpec(candles, adxPeriod);
      TrendView(LastOrNull(adx.adx), LastOrNull(adx.plusDi), LastOrNull(adx.minusDi),
                DetectEmaCross(prices, fastEmaPeriod, slowEmaPeriod), LastOrNull(Rsi(prices, 14)),
                candles[|candles| - 1].close)
    }

    function Score(candles: seq<Candle>): (r: real)
      reads this
      requires PeriodsValid()
      ensures 0.0 <= r <= 100.0
      ensures |candles| < 200 ==> r == 0.0
      ensures |candles| >= 200 ==> r == TrendScore(View(candles))
    {
      if |candles| < 200 then 0.0 else TrendScore(View(candles))
    }

    /** -DI above +DI with ADX above 25; a null value compares false. */
    predicate Reversal(v: TrendView)
    {
      v.plusDi.Some? && v.minusDi.Some? && v.minusDi.value > v.plusDi.value && v.adx.Some? && v.adx.value > 25.0
    }

    function Analyze(candles: seq<Candle>, currentPositionAmount: real, entryPrice: real): (r: StrategyResult)
      reads this
      requires PeriodsValid()
      ensures |candles| < 200 ==> r == DefaultResult()
      ensures |candles| >= 200 && currentPositionAmount > 0.0 && entryPrice > 0.0 ==>
        var v := View(candles);
        var pnl := PnlPercent(v.close, entryPrice);
        (r.action == Sell <==> pnl >= 20.0 || Reversal(v) || v.cross.isDeathCross || pnl <= -8.0) &&
        r.action != Buy &&
        (pnl >= 20.0 ==> r.description == SurferTakeProfit) &&
        (pnl < 20.0 && Reversal(v) ==> r.description == SurferReversal) &&
        (pnl < 20.0 && !Reversal(v) && v.cross.isDeathCross ==> r.description == SurferDeathCross)
      ensures |candles| >= 200 && !(currentPositionAmount > 0.0 && entryPrice > 0.0) ==>
        var price := candles[|candles| - 1].close;
        (r.action == Buy <==> Score(candles) >= 70.0) && r.action != Sell &&
        (r.action == Buy ==> r.targetPrice == price * 1.20 && r.stopPrice == price * 0.92)
    {
      if |candles| < 200 then DefaultResult()
      else
        var price := candles[|candles| - 1].close;
        if currentPositionAmount > 0.0 && entryPrice > 0.0 then
          var v := View(candles);
          var pnl := PnlPercent(v.close, entryPrice);
          if pnl >= 20.0 then Describe(Sell, SurferTakeProfit)
          else if Reversal(v) then Describe(Sell, SurferReversal)
          else if v.cross.isDeathCross then Describe(Sell, SurferDeathCross)
          else if pnl <= -8.0 then Describe(Sell, SurferStop)
          else Describe(NoTrade, SurferHolding)
        else if Score(candles) >= 70.0 then Signal(Buy, price * 1.20, price * 0.92, SurferBuy)
        else Describe(NoTrade, SurferNoSignal)
    }
  }

  /** The ADX part (weight 35): never below 5, so a defined ADX always adds something. */
  function AdxPoints(adx: real): (r: real)
    ensures 5.0 <= r <= 35.0
    ensures r >= 25.0 <==> adx >= 25.0
  {
    if adx >= 50.0 then 35.0
    else if adx >= 40.0 then 30.0
    else if adx >= 25.0 then 25.0
    else if adx >= 20.0 then 15.0
    else 5.0
  }

  /** The direction part (weight 25): only when +DI leads, graded by the lead. */
  function DirectionPoints(plusDi: real, minusDi: real): (r: real)
    ensures r in {0.0, 10.0, 15.0, 20.0, 25.0}
    ensures r > 0.0 <==> plusDi > minusDi
  {
    if plusDi > minusDi then
      var diff := plusDi - minusDi;
      if diff > 20.0 then 25.0 else if diff > 10.0 then 20.0 else if diff > 5.0 then 15.0 else 10.0
    else 0.0
  }

  /** The EMA part: 20 for the fast EMA above the slow one, 5 more on a golden cross, 10 for the close above the fast EMA. */
  function EmaPoints(cross: EmaCross, close: real): (r: real)
    ensures 0.0 <= r <= 35.0
  {
    (if cross.fastEma.Some? && cross.slowEma.Some? && cross.fastEma.value > cross.slowEma.value then
      20.0 + (if cross.isGoldenCross then 5.0 else 0.0)
     else 0.0)
    + (if cross.fastEma.Some? && close > cross.fastEma.value then 10.0 else 0.0)
  }

  /** The RSI part: 10 in `[50, 70]`, 5 in `(70, 80]`. */
  function MomentumPoints(rsi: Option<real>): (r: real)
    ensures r in {0.0, 5.0, 10.0}
  {
    if rsi.Some? && 50.0 <= rsi.value <= 70.0 then 10.0
    else if rsi.Some? && 70.0 < rsi.value <= 80.0 then 5.0
    else 0.0
  }

  /** `CalculateSignalScore` on the readings: 0 when ADX or a DI is missing, else the parts, at most 100. */
  function TrendScore(v: TrendView): (r: real)
    ensures 0.0 <= r <= 100.0
    ensures v.adx.None? || v.plusDi.None? || v.minusDi.None? <==> r == 0.0
    ensures r > 0.0 ==> r >= 5.0
  {
    if v.adx.None? || v.plusDi.None? || v.minusDi.None? then 0.0
    else
      Min2(AdxPoints(v.adx.value) + DirectionPoints(v.plusDi.value, v.minusDi.value)
           + EmaPoints(v.cross, v.close) + MomentumPoints(v.rsi), 100.0)
  }

  /** Without +DI leading, a trend-surfer buy needs a strong ADX: the other parts reach at most 80 and need 25 from it. */
  lemma SurferBuyWithoutLeadNeedsAdx(v: TrendView)
    requires v.adx.Some? && v.plusDi.Some? && v.minusDi.Some? && v.plusDi.value <= v.minusDi.value
    requires TrendScore(v) >= 70.0
    ensures v.adx.value >= 25.0
  {
    assert DirectionPoints(v.plusDi.value, v.minusDi.value) == 0.0;
  }

  // ------------------------------------------------------------ Phoenix momentum

  /** The values the Phoenix score reads. */
  datatype PhoenixView = PhoenixView(
    rsi: Option<real>, bbUpper: Option<real>, volSma: Option<real>,
    macd: Option<real>, signal: Option<real>, close: real, volume: real)

  const PhoenixTakeProfit := "PHOENIX KÂR AL"
  const PhoenixOverbought := "PHOENIX: RSI aşırı alım"
  const PhoenixStop := "PHOENIX STOP"
  const PhoenixHolding := "Phoenix pozisyonda"
  const PhoenixBuy := "Güçlü hacim ve momentum kırılımı (Pump Sinyali)"
  const PhoenixNoSignal := "Momentum yetersiz"

  /**
   * Phoenix momentum: buy when the pump score reaches 80; in a position,
   * take profit at 10%, leave when the RSI passes 85 and stop out at -5%.
   * The Bollinger bands use 2 standard deviations, the volume SMA 20
   * candles and MACD 12/26/9; the square root is a parameter.
   */
  class PhoenixMomentumStrategy {
    var rsiPeriod: int
    var bbPeriod: int

    constructor()
      ensures rsiPeriod == 14 && bbPeriod == 20
    {
      rsiPeriod, bbPeriod := 14, 20;
    }

    method SetParameters(parameters: map<string, string>)
      modifies this
      ensures rsiPeriod == IntSetting(parameters, "RsiPeriod", old(rsiPeriod))
      ensures bbPeriod == IntSetting(parameters, "BbPeriod", old(bbPeriod))
    {
      rsiPeriod := IntSetting(parameters, "RsiPeriod", rsiPeriod);
      bbPeriod := IntSetting(parameters, "BbPeriod", bbPeriod);
    }

    predicate PeriodsValid()
      reads this
    {
      rsiPeriod >= 1 && bbPeriod >= 1
    }

    /** With at least 26 prices `CalculateMacd` does not throw, so its lines can be read. */
    function View(candles: seq<Candle>, sqrt: real -> real): (v: PhoenixView)
      reads this
      requires PeriodsValid() && |candles| >= 26
      ensures v.close == candles[|candles| - 1].close && v.volume == candles[|candles| - 1].volume
    {
      var prices := Closes(candles);
      MacdFailsIff(prices, 12, 26, 9);
      var macd := CalculateMacdSpec(prices, 12, 26, 9).value;
      PhoenixView(
        LastOrNull(Rsi(prices, rsiPeriod)), LastOrNull(BollingerBands(prices, bbPeriod, 2.0, sqrt).upper),
        LastOrNull(Sma(Volumes(candles), 20)), LastOrNull(macd.macdLine), LastOrNull(macd.signalLine),
        candles[|candles| - 1].close, candles[|candles| - 1].volume)
    }

    function Score(candles: seq<Candle>, sqrt: real -> real): (r: real)
      reads this
      requires PeriodsValid()
      ensures 0.0 <= r <= 100.0
      ensures |candles| < 50 ==> r == 0.0
      ensures |candles| >= 50 ==> r == PhoenixScore(View(candles, sqrt))
    {
      if |candles| < 50 then 0.0 else PhoenixScore(View(candles, sqrt))
    }

    function Analyze(candles: seq<Candle>, currentPositionAmount: real, entryPrice: real, sqrt: real -> real)
      : (r: StrategyResult)
      reads this
      requires PeriodsValid()
      ensures |candles| < 50 ==> r == DefaultResult()
      ensures |candles| >= 50 && currentPositionAmount > 0.0 && entryPrice > 0.0 ==>
        var pnl := PnlPercent(candles[|candles| - 1].close, entryPrice);
        var rsi := OrElse(LastOrNull(Rsi(Closes(candles), rsiPeriod)), 50.0);
        (r.action == Sell <==> pnl >= 10.0 || rsi > 85.0 || pnl <= -5.0) && r.action != Buy &&
        (pnl >= 10.0 ==> r.description == PhoenixTakeProfit) &&
        (pnl < 10.0 && rsi > 85.0 ==> r.description == PhoenixOverbought)
      ensures |candles| >= 50 && !(currentPositionAmount > 0.0 && entryPrice > 0.0) ==>
        var price := candles[|candles| - 1].close;
        (r.action == Buy <==> Score(candles, sqrt) >= 80.0) && r.action != Sell &&
        (r.action == Buy ==> r.targetPrice == price * 1.10 && r.stopPrice == price * 0.95)
    {
      if |candles| < 50 then DefaultResult()
      else
        var price := candles[|candles| - 1].close;
        if currentPositionAmount > 0.0 && entryPrice > 0.0 then
          var rsi := OrElse(LastOrNull(Rsi(Closes(candles), rsiPeriod)), 50.0);
          var pnl := PnlPercent(price, entryPrice);
          if pnl >= 10.0 then Describe(Sell, PhoenixTakeProfit)
          else if rsi > 85.0 then Describe(Sell, PhoenixOverbought)
          else if pnl <= -5.0 then Describe(Sell, PhoenixStop)
          else Describe(NoTrade, PhoenixHolding)
        else if Score(candles, sqrt) >= 80.0 then Signal(Buy, price * 1.10, price * 0.95, PhoenixBuy)
        else Describe(NoTrade, PhoenixNoSignal)
    }
  }

  /** The volume spike (weight 30): 30 at twice the SMA, 20 at 1.5 times, 10 at 1.2 times. */
  function SpikePoints(volume: real, volSma: real): (r: real)
    ensures r in {0.0, 10.0, 20.0, 30.0}
    ensures r > 0.0 <==> volSma > 0.0 && volume / volSma >= 1.2
  {
    if volSma > 0.0 then
      var ratio := volume / volSma;
      if ratio >= 2.0 then 30.0 else if ratio >= 1.5 then 20.0 else if ratio >= 1.2 then 10.0 else 0.0
    else 0.0
  }

  /** The band part (weight 25): 25 above the upper band, 20 within 1% under it. */
  function BandPoints(close: real, upper: real): (r: real)
    ensures r in {0.0, 20.0, 25.0}
    ensures r > 0.0 <==> close > upper || close >= upper * 0.99
  {
    if close > upper then 25.0 else if close >= upper * 0.99 then 20.0 else 0.0
  }

  /** The RSI part (weight 25): 25 in `[55, 75]`, 15 in `(75, 85)`, 10 in `[50, 55)`. */
  function PhoenixRsiPoints(rsi: real): (r: real)
    ensures r in {0.0, 10.0, 15.0, 25.0}
    ensures r == 25.0 <==> 55.0 <= rsi <= 75.0
    ensures r == 15.0 <==> 75.0 < rsi < 85.0
    ensures r == 10.0 <==> 50.0 <= rsi < 55.0
  {
    if 55.0 <= rsi <= 75.0 then 25.0 else if 75.0 < rsi < 85.0 then 15.0 else if 50.0 <= rsi < 55.0 then 10.0 else 0.0
  }

  /** The MACD part (weight 20): 20 above the signal line and above 0, 10 above the signal line only. */
  function MacdPoints(macd: real, signal: real): (r: real)
    ensures r in {0.0, 10.0, 20.0}
    ensures r == 20.0 <==> macd > signal && macd > 0.0
    ensures r == 10.0 <==> macd > signal && macd <= 0.0
  {
    if macd > signal && macd > 0.0 then 20.0 else if macd > signal then 10.0 else 0.0
  }

  /** `CalculateSignalScore` on the readings: 0 when an input is missing, else the four parts, at most 100. */
  function PhoenixScore(v: PhoenixView): (r: real)
    ensures 0.0 <= r <= 100.0
    ensures v.rsi.None? || v.bbUpper.None? || v.volSma.None? || v.macd.None? || v.signal.None? ==> r == 0.0
  {
    if v.rsi.None? || v.bbUpper.None? || v.volSma.None? || v.macd.None? || v.signal.None? then 0.0
    else
      Min2(SpikePoints(v.volume, v.volSma.value) + BandPoints(v.close, v.bbUpper.value)
           + PhoenixRsiPoints(v.rsi.value) + MacdPoints(v.macd.value, v.signal.value), 100.0)
  }

  /**
   * A Phoenix buy (80 points) needs both a volume spike of at least 1.2
   * times the SMA and a close within 1% of the upper band: without either,
   * the other parts reach at most 75.
   */
  lemma PhoenixBuyNeedsSpikeAndBand(v: PhoenixView)
    requires PhoenixScore(v) >= 80.0
    ensures v.rsi.Some? && v.bbUpper.Some? && v.volSma.Some? && v.macd.Some? && v.signal.Some?
    ensures v.volSma.value > 0.0 && v.volume / v.volSma.value >= 1.2
    ensures v.close > v.bbUpper.value || v.close >= v.bbUpper.value * 0.99
  {
  }
}
