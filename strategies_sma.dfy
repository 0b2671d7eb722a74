/**
 * The moving-average trend strategies that implement the strategy
 * interface directly: Golden Rose (both versions), Golden Cross and the SMA
 * 111 crossover. Each reads the last two values of its averages; the
 * decision rules are stated on that snapshot.
 */
module StrategiesSma {
  import opened Common
  import opened StrategyBase
  import opened Indicators

  const InsufficientData := "Yetersiz veri"

  /** The last two closes and the last two values of two averages, when all are defined. */
  datatype TwoLineView = TwoLineView(
    price: real, prevPrice: real,
    fast: real, prevFast: real,
    slow: real, prevSlow: real)

  /** The view over the last two candles of two average series of the same length. */
  function ViewOf(candles: seq<Candle>, fast: seq<Option<real>>, slow: seq<Option<real>>): (r: Option<TwoLineView>)
    requires |candles| >= 2 && |fast| == |slow| == |candles|
    ensures r.Some? <==> fast[|candles| - 1].Some? && fast[|candles| - 2].Some? &&
                         slow[|candles| - 1].Some? && slow[|candles| - 2].Some?
    ensures r.Some? ==> r.value.price == candles[|candles| - 1].close && r.value.prevPrice == candles[|candles| - 2].close
    ensures r.Some? ==> r.value.fast == fast[|candles| - 1].value && r.value.prevFast == fast[|candles| - 2].value
    ensures r.Some? ==> r.value.slow == slow[|candles| - 1].value && r.value.prevSlow == slow[|candles| - 2].value
  {
    var n := |candles|;
    if fast[n - 1].Some? && fast[n - 2].Some? && slow[n - 1].Some? && slow[n - 2].Some? then
      Some(TwoLineView(candles[n - 1].close, candles[n - 2].close,
                       fast[n - 1].value, fast[n - 2].value, slow[n - 1].value, slow[n - 2].value))
    else None
  }

  // ------------------------------------------------------------ Golden Rose

  const GoldenRoseBuy := "ALIM: SMA Kırılımı"
  const GoldenRoseCycleTop := "SATIŞ: TEPE TESPİT EDİLDİ (Cycle Top Detected)!"
  const GoldenRoseTrendBroken := "SATIŞ: Trend Bozuldu"

  /** The Golden Rose settings: the two SMA periods, the take-profit and the cycle-top multipliers. */
  datatype GoldenRoseSettings = GoldenRoseSettings(sma1Period: int, sma2Period: int, tpMultiplier: real, cycleTopMultiplier: real)
  {
    predicate PeriodsValid()
    {
      sma1Period >= 1 && sma2Period >= 1
    }
  }

  /** The settings the constructor sets. */
  const GoldenRoseDefaults := GoldenRoseSettings(111, 350, 1.618, 2.0)

  /**
   * The Golden Rose trend strategy: enter when the price crosses above the
   * short SMA while above the long one; leave at the cycle top (the short
   * SMA falling back through `cycleTop` times the long SMA) or when the
   * price drops 2% under the short SMA. Its decision is
   * `GoldenRoseAnalyze` of its settings.
   */
  class GoldenRoseStrategy {
    var sma1Period: int
    var sma2Period: int
    var tpMultiplier: real
    var cycleTopMultiplier: real

    constructor()
      ensures Settings() == GoldenRoseDefaults
    {
      sma1Period := 111;
      sma2Period := 350;
      tpMultiplier := 1.618;
      cycleTopMultiplier := 2.0;
    }

    function Settings(): GoldenRoseSettings
      reads this
    {
      GoldenRoseSettings(sma1Period, sma2Period, tpMultiplier, cycleTopMultiplier)
    }

    method SetParameters(parameters: map<string, string>)
      modifies this
      ensures sma1Period == IntSetting(parameters, "sma1", old(sma1Period))
      ensures sma2Period == IntSetting(parameters, "sma2", old(sma2Period))
      ensures tpMultiplier == DecimalSetting(parameters, "tp", old(tpMultiplier))
      ensures cycleTopMultiplier == DecimalSetting(parameters, "cycleTop", old(cycleTopMultiplier))
    {
      sma1Period := IntSetting(parameters, "sma1", sma1Period);
      sma2Period := IntSetting(parameters, "sma2", sma2Period);
      tpMultiplier := DecimalSetting(parameters, "tp", tpMultiplier);
      cycleTopMultiplier := DecimalSetting(parameters, "cycleTop", cycleTopMultiplier);
    }

    predicate PeriodsValid()
      reads this
    {
      Settings().PeriodsValid()
    }

    function Analyze(candles: seq<Candle>, currentPositionAmount: real): Result<StrategyResult>
      reads this
      requires PeriodsValid()
    {
      GoldenRoseAnalyze(Settings(), candles, currentPositionAmount)
    }
  }

  /** The snapshot the decision reads, once there are enough candles. */
  function GoldenRoseView(st: GoldenRoseSettings, candles: seq<Candle>): Option<TwoLineView>
    requires st.PeriodsValid() && |candles| >= 2
  {
    var prices := Closes(candles);
    ViewOf(candles, Sma(prices, st.sma1Period), Sma(prices, st.sma2Period))
  }

  /** The cycle top: the short SMA was above `cycleTop` times the long SMA and is now at or below it. */
  predicate TopDetected(st: GoldenRoseSettings, v: TwoLineView)
  {
    v.prevFast > v.prevSlow * st.cycleTopMultiplier && v.fast <= v.slow * st.cycleTopMultiplier
  }

  /** The take-profit: `tp` times the long SMA, or `cycleTop` times it when that is within 2% of the price. */
  function Target(st: GoldenRoseSettings, v: TwoLineView): (r: real)
    ensures v.slow * st.tpMultiplier > v.price * 1.02 ==> r == v.slow * st.tpMultiplier
    ensures v.slow * st.tpMultiplier <= v.price * 1.02 ==> r == v.slow * st.cycleTopMultiplier
  {
    var target := v.slow * st.tpMultiplier;
    if target <= v.price * 1.02 then v.slow * st.cycleTopMultiplier else target
  }

  /**
   * `Analyze`. With a single candle and both periods 1 the source reads
   * index -1 of the SMA list and throws.
   */
  function GoldenRoseAnalyze(st: GoldenRoseSettings, candles: seq<Candle>, currentPositionAmount: real): (r: Result<StrategyResult>)
    requires st.PeriodsValid()
    ensures r.Failure? <==> |candles| == 1 && st.sma1Period == 1 && st.sma2Period == 1
    ensures r.Success? && r.value.action != NoTrade ==>
      |candles| >= MaxInt(st.sma1Period, st.sma2Period) && |candles| >= 2 && GoldenRoseView(st, candles).Some?
    ensures r.Success? && |candles| >= 2 && GoldenRoseView(st, candles).Some? && |candles| >= MaxInt(st.sma1Period, st.sma2Period) ==>
      var v := GoldenRoseView(st, candles).value;
      (r.value.action == Buy <==>
        currentPositionAmount == 0.0 && CrossedAbove(v.prevPrice, v.prevFast, v.price, v.fast) && v.price > v.slow) &&
      (r.value.action == Buy ==> r.value.targetPrice == Target(st, v) && r.value.stopPrice == v.fast * 0.97) &&
      (r.value.action == Sell <==>
        currentPositionAmount != 0.0 && (TopDetected(st, v) || v.price < v.fast * 0.98)) &&
      (r.value.action == Sell && TopDetected(st, v) ==> r.value.description == GoldenRoseCycleTop)
  {
    if |candles| < MaxInt(st.sma1Period, st.sma2Period) then Success(DefaultResult())
    else if |candles| < 2 then Failure(IndexOutOfRange)
    else match GoldenRoseView(st, candles)
      case None => Success(DefaultResult())
      case Some(v) =>
        if currentPositionAmount == 0.0 then
          if CrossedAbove(v.prevPrice, v.prevFast, v.price, v.fast) && v.price > v.slow then
            Success(Signal(Buy, Target(st, v), v.fast * 0.97, GoldenRoseBuy))
          else Success(DefaultResult())
        else if TopDetected(st, v) then Success(Describe(Sell, GoldenRoseCycleTop))
        else if v.price < v.fast * 0.98 then Success(Describe(Sell, GoldenRoseTrendBroken))
        else Success(DefaultResult())
  }

  /** A Golden Rose buy above a positive short SMA has its stop below the price. */
  lemma GoldenRoseStopBelowPrice(st: GoldenRoseSettings, candles: seq<Candle>)
    requires st.PeriodsValid() && |candles| >= 2
    requires GoldenRoseAnalyze(st, candles, 0.0).Success? && GoldenRoseAnalyze(st, candles, 0.0).value.action == Buy
    requires GoldenRoseView(st, candles).Some? && GoldenRoseView(st, candles).value.fast > 0.0
    ensures GoldenRoseAnalyze(st, candles, 0.0).value.stopPrice < candles[|candles| - 1].close
  {
  }

  const GoldenRoseApiSell := "Satış: Fiyat SMA111 altına sarktı (Trend Bitti)"
  const GoldenRoseApiBuy := "Alım: SMA111 Kırılımı"

  /**
   * The older Golden Rose of the second backend: fixed periods 111, 200
   * and 350, a buy on the crossing of SMA 111 alone, target 1.618 times SMA
   * 350 or 10% above the price when that target is not above it.
   */
  function GoldenRoseApiAnalyze(candles: seq<Candle>, currentPositionAmount: real): (r: StrategyResult)
    ensures |candles| < 350 ==> r == DefaultResult()
    ensures |candles| >= 350 ==>
      var prices := Closes(candles);
      var n := |candles|;
      var sma111, prevSma111 := Sma(prices, 111)[n - 1].value, Sma(prices, 111)[n - 2].value;
      var sma350 := Sma(prices, 350)[n - 1].value;
      var price := candles[n - 1].close;
      (r.action == Buy <==> currentPositionAmount == 0.0 && CrossedAbove(candles[n - 2].close, prevSma111, price, sma111)) &&
      (r.action == Buy ==>
        r.targetPrice == (if sma350 * 1.618 > price then sma350 * 1.618 else price * 1.10) &&
        r.stopPrice == sma111 * 0.97) &&
      (r.action == Sell <==> currentPositionAmount != 0.0 && price < sma111 * 0.98)
    ensures r.action == Buy && candles[|candles| - 1].close > 0.0 ==> r.targetPrice > candles[|candles| - 1].close
  {
    if |candles| < 350 then DefaultResult()
    else
      var prices := Closes(candles);
      var n := |candles|;
      var last111, last200, last350 := Sma(prices, 111)[n - 1], Sma(prices, 200)[n - 1], Sma(prices, 350)[n - 1];
      var prev111 := Sma(prices, 111)[n - 2];
      var price, prevPrice := candles[n - 1].close, candles[n - 2].close;
      if last111.None? || last200.None? || last350.None? then DefaultResult()
      else if currentPositionAmount == 0.0 then
        // a comparison with a null `prevSma111` is false in C#
        if prev111.Some? && CrossedAbove(prevPrice, prev111.value, price, last111.value) then
          var target := last350.value * 1.618;
          Signal(Buy, if target <= price then price * 1.10 else target, last111.value * 0.97, GoldenRoseApiBuy)
        else DefaultResult()
      else if price < last111.value * 0.98 then Describe(Sell, GoldenRoseApiSell)
      else DefaultResult()
  }

  // ------------------------------------------------------------ Golden Cross

  const GoldenCrossBuy := "Altın Kesişim!"
  const DeathCrossSell := "Ölüm Kesişimi!"
  const BullTrend := "Boğa Trendi (Golden Cross)"
  const BearTrend := "Ayı Trendi"

  /** The Golden Cross strategy: buy when the short SMA crosses above the long one, sell on the opposite crossing. */
  class GoldenCrossStrategy {
    var shortPeriod: int
    var longPeriod: int

    constructor()
      ensures shortPeriod == 50 && longPeriod == 200
    {
      shortPeriod := 50;
      longPeriod := 200;
    }

    method SetParameters(parameters: map<string, string>)
      modifies this
      ensures shortPeriod == IntSetting(parameters, "shortPeriod", old(shortPeriod))
      ensures longPeriod == IntSetting(parameters, "longPeriod", old(longPeriod))
    {
      shortPeriod := IntSetting(parameters, "shortPeriod", shortPeriod);
      longPeriod := IntSetting(parameters, "longPeriod", longPeriod);
    }

    predicate PeriodsValid()
      reads this
    {
      shortPeriod >= 1 && longPeriod >= 1
    }

    function ShortSma(candles: seq<Candle>): (r: seq<Option<real>>)
      reads this
      requires PeriodsValid()
      ensures |r| == |candles|
    {
      Sma(Closes(candles), shortPeriod)
    }

    function LongSma(candles: seq<Candle>): (r: seq<Option<real>>)
      reads this
      requires PeriodsValid()
      ensures |r| == |candles|
    {
      Sma(Closes(candles), longPeriod)
    }

    function View(candles: seq<Candle>): Option<TwoLineView>
      reads this
      requires PeriodsValid() && |candles| >= 2
    {
      ViewOf(candles, ShortSma(candles), LongSma(candles))
    }

    /** `Analyze`: the crossings of the two SMAs at the last candle, and a trend label otherwise. */
    function Analyze(candles: seq<Candle>, currentPositionAmount: real): (r: StrategyResult)
      reads this
      requires PeriodsValid()
      ensures |candles| < longPeriod + 1 ==> r == Describe(NoTrade, InsufficientData)
      ensures r.action != NoTrade ==> |candles| >= longPeriod + 1 && View(candles).Some?
      ensures |candles| >= longPeriod + 1 && View(candles).Some? ==>
        var v := View(candles).value;
        (r.action == Buy <==> currentPositionAmount == 0.0 && CrossedAbove(v.prevFast, v.prevSlow, v.fast, v.slow)) &&
        (r.action == Buy ==> r.targetPrice == v.price * 1.10 && r.stopPrice == v.price * 0.92) &&
        (r.action == Sell <==> currentPositionAmount != 0.0 && CrossedBelow(v.prevFast, v.prevSlow, v.fast, v.slow)) &&
        (r.action == NoTrade ==> r.description == (if v.fast > v.slow then BullTrend else BearTrend))
    {
      if |candles| < longPeriod + 1 then Describe(NoTrade, InsufficientData)
      else match View(candles)
        case None => DefaultResult()
        case Some(v) =>
          if currentPositionAmount == 0.0 && CrossedAbove(v.prevFast, v.prevSlow, v.fast, v.slow) then
            Signal(Buy, v.price * 1.10, v.price * 0.92, GoldenCrossBuy)
          else if currentPositionAmount != 0.0 && CrossedBelow(v.prevFast, v.prevSlow, v.fast, v.slow) then
            Describe(Sell, DeathCrossSell)
          else Describe(NoTrade, if v.fast > v.slow then BullTrend else BearTrend)
    }

    /**
     * The score: 100 for an upward crossing within the last three candles,
     * 85 in an uptrend with the price above both averages, 70 in an uptrend
     * otherwise, and 0 in a downtrend or without data.
     */
    function Score(candles: seq<Candle>): (r: real)
      reads this
      requires PeriodsValid()
      ensures r in {0.0, 70.0, 85.0, 100.0}
      ensures r != 0.0 ==> |candles| >= longPeriod + 1
      ensures |candles| >= longPeriod + 1 ==>
        var n := |candles|;
        var s, l := ShortSma(candles), LongSma(candles);
        (r == 100.0 <==> s[n - 1].Some? && l[n - 1].Some? && RecentUpCross(s, l, 3)) &&
        (r == 85.0 ==> s[n - 1].Some? && l[n - 1].Some? && s[n - 1].value > l[n - 1].value &&
                       candles[n - 1].close > s[n - 1].value && candles[n - 1].close > l[n - 1].value) &&
        (r == 70.0 ==> s[n - 1].Some? && l[n - 1].Some? && s[n - 1].value > l[n - 1].value)
    {
      var s, l := ShortSma(candles), LongSma(candles);
      var n := |candles|;
      if n < longPeriod + 1 || s[n - 1].None? || l[n - 1].None? then 0.0
      else if RecentUpCross(s, l, 3) then 100.0
      else if s[n - 1].value > l[n - 1].value then
        var price := candles[n - 1].close;
        if price > s[n - 1].value && price > l[n - 1].value then 85.0 else 70.0
      else 0.0
    }

    /** `CalculateSignalScore`, with its three-step loop over the last candles. */
    method CalculateSignalScore(candles: seq<Candle>) returns (score: real)
      requires PeriodsValid()
      ensures score == Score(candles)
    {
      if |candles| < longPeriod + 1 {
        return 0.0;
      }
      var prices := Closes(candles);
      var shortList := CalculateSma(prices, shortPeriod);
      var longList := CalculateSma(prices, longPeriod);
      var n := |candles|;
      if shortList[n - 1].None? || longList[n - 1].None? {
        return 0.0;
      }
      var hasRecentCrossover := FindRecentUpCross(shortList, longList, 3);
      if hasRecentCrossover {
        return 100.0;
      }
      if shortList[n - 1].value > longList[n - 1].value {
        var price := candles[n - 1].close;
        if price > shortList[n - 1].value && price > longList[n - 1].value {
          return 85.0;
        }
        return 70.0;
      }
      return 0.0;
    }
  }

  /** A Golden Cross buy signal always comes with the top score. */
  lemma GoldenCrossBuyScoresTop(s: GoldenCrossStrategy, candles: seq<Candle>)
    requires s.PeriodsValid()
    requires s.Analyze(candles, 0.0).action == Buy
    ensures s.Score(candles) == 100.0
  {
    var n := |candles|;
    assert UpCrossAt(s.ShortSma(candles), s.LongSma(candles), n - 1);
  }

  // ------------------------------------------------------------ SMA 111

  const SmaBreakBuy := "SMA Kırılımı Gerçekleşti"
  const SmaBreakSell := "Fiyat SMA Altına Düştü"
  const AboveTrend := "Trend Üzerinde"
  const BelowTrend := "Trend Altında"

  /** The SMA 111 crossover: buy when the price crosses above the SMA, sell when it crosses below. */
  class Sma111Strategy {
    var period: int

    constructor()
      ensures period == 111
    {
      period := 111;
    }

    method SetParameters(parameters: map<string, string>)
      modifies this
      ensures period == IntSetting(parameters, "period", old(period))
    {
      period := IntSetting(parameters, "period", period);
    }

    function SmaList(candles: seq<Candle>): (r: seq<Option<real>>)
      reads this
      requires period >= 1
      ensures |r| == |candles|
    {
      Sma(Closes(candles), period)
    }

    /** The price against its SMA over the last two candles (`fast` is the price, `slow` the SMA). */
    function View(candles: seq<Candle>): Option<TwoLineView>
      reads this
      requires period >= 1 && |candles| >= 2
    {
      ViewOf(candles, Lift(Closes(candles)), SmaList(candles))
    }

    function Analyze(candles: seq<Candle>, currentPositionAmount: real): (r: StrategyResult)
      reads this
      requires period >= 1
      ensures |candles| < period + 1 ==> r == Describe(NoTrade, InsufficientData)
      ensures r.action != NoTrade ==> |candles| >= period + 1 && View(candles).Some?
      ensures |candles| >= period + 1 && View(candles).Some? ==>
        var v := View(candles).value;
        (r.action == Buy <==> currentPositionAmount == 0.0 && CrossedAbove(v.prevPrice, v.prevSlow, v.price, v.slow)) &&
        (r.action == Buy ==> r.targetPrice == v.price * 1.05 && r.stopPrice == v.price * 0.95) &&
        (r.action == Sell <==> currentPositionAmount != 0.0 && CrossedBelow(v.prevPrice, v.prevSlow, v.price, v.slow)) &&
        (r.action == NoTrade ==> r.description == (if v.price > v.slow then AboveTrend else BelowTrend))
    {
      if |candles| < period + 1 then Describe(NoTrade, InsufficientData)
      else match View(candles)
        case None => DefaultResult()
        case Some(v) =>
          if currentPositionAmount == 0.0 && CrossedAbove(v.prevPrice, v.prevSlow, v.price, v.slow) then
            Signal(Buy, v.price * 1.05, v.price * 0.95, SmaBreakBuy)
          else if currentPositionAmount != 0.0 && CrossedBelow(v.prevPrice, v.prevSlow, v.price, v.slow) then
            Describe(Sell, SmaBreakSell)
          else Describe(NoTrade, if v.price > v.slow then AboveTrend else BelowTrend)
    }

    /**
     * The score: 100 for a crossing within the last three candles; above
     * the SMA, 90 within 1% of it, 80 within 3%, 70 further away; 0 below
     * it. The distance divides by the SMA, which throws when it is zero.
     */
    function Score(candles: seq<Candle>): (r: Result<real>)
      reads this
      requires period >= 1
      ensures r.Success? ==> r.value in {0.0, 70.0, 80.0, 90.0, 100.0}
      ensures |candles| < period + 1 ==> r == Success(0.0)
      ensures |candles| >= period + 1 && View(candles).Some? ==>
        var v := View(candles).value;
        (r == Success(100.0) <==> RecentUpCross(Lift(Closes(candles)), SmaList(candles), 3)) &&
        (r.Failure? <==> !RecentUpCross(Lift(Closes(candles)), SmaList(candles), 3) && v.price > v.slow && v.slow == 0.0) &&
        (r.Success? && r.value >= 70.0 ==> v.price > v.slow || r.value == 100.0) &&
        (v.slow > 0.0 ==> (r == Success(90.0) <==>
          !RecentUpCross(Lift(Closes(candles)), SmaList(candles), 3) && v.slow < v.price < v.slow * 1.01))
    {
      var n := |candles|;
      if n < period + 1 then Success(0.0)
      else match View(candles)
        case None => Success(0.0)
        case Some(v) =>
          if RecentUpCross(Lift(Closes(candles)), SmaList(candles), 3) then Success(100.0)
          else if v.price > v.slow then
            if v.slow == 0.0 then Failure(DivideByZero)
            else
              var distance := (v.price - v.slow) / v.slow;
              assert v.slow > 0.0 ==> (distance < 0.01 <==> v.price < v.slow * 1.01) by {
                if v.slow > 0.0 {
                  DistanceBand(v.price, v.slow, 0.01);
                }
              }
              Success(if distance < 0.01 then 90.0 else if distance < 0.03 then 80.0 else 70.0)
          else Success(0.0)
    }

    /** `CalculateSignalScore`, with its three-step loop over the last candles. */
    method CalculateSignalScore(candles: seq<Candle>) returns (score: Result<real>)
      requires period >= 1
      ensures score == Score(candles)
    {
      var n := |candles|;
      if n < period + 1 {
        return Success(0.0);
      }
      var prices := Closes(candles);
      var smaList := CalculateSma(prices, period);
      if smaList[n - 1].None? || smaList[n - 2].None? {
        return Success(0.0);
      }
      var currentSma := smaList[n - 1].value;
      var currentPrice := candles[n - 1].close;
      ghost var v := View(candles);
      assert v.Some? && v.value.slow == currentSma && v.value.price == currentPrice;
      var hasRecentCrossover := FindRecentUpCross(Lift(prices), smaList, 3);
      if hasRecentCrossover {
        return Success(100.0);
      }
      if currentPrice > currentSma {
        if currentSma == 0.0 {
          return Failure(DivideByZero);
        }
        var distance := (currentPrice - currentSma) / currentSma;
        if distance < 0.01 {
          return Success(90.0);
        }
        if distance < 0.03 {
          return Success(80.0);
        }
        return Success(70.0);
      }
      return Success(0.0);
    }
  }

  /** A relative distance below `t` above a positive average is a price below `(1 + t)` times it. */
  lemma DistanceBand(price: real, average: real, t: real)
    requires average > 0.0
    ensures (price - average) / average < t <==> price < average * (1.0 + t)
  {
    DivCompare(price - average, average, t);
  }

  /** An SMA 111 buy signal always comes with the top score. */
  lemma Sma111BuyScoresTop(s: Sma111Strategy, candles: seq<Candle>)
    requires s.period >= 1
    requires s.Analyze(candles, 0.0).action == Buy
    ensures s.Score(candles) == Success(100.0)
  {
    var n := |candles|;
    assert UpCrossAt(Lift(Closes(candles)), s.SmaList(candles), n - 1);
  }
}
