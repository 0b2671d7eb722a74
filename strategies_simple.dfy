/**
 * The strategies that need no indicator: market buy, the simulation
 * strategy, dollar-cost averaging and the grid bot. None of them derives
 * from `BaseStrategy`, so an empty candle list reaches `candles.Last()` and
 * throws; that exception is a `Failure` here.
 *
 * Descriptions that interpolate numbers keep only their fixed text.
 */
module StrategiesSimple {
  import opened Common
  import opened StrategyBase

  /** The close of the last candle, or the exception `candles.Last()` throws. */
  function LastClose(candles: seq<Candle>): (r: Result<real>)
    ensures r.Failure? <==> |candles| == 0
    ensures r.Success? ==> r.value == candles[|candles| - 1].close
  {
    if |candles| == 0 then Failure(NoElements) else Success(candles[|candles| - 1].close)
  }

  // ------------------------------------------------------------ market buy

  const MarketBuyMessage := "Kullanıcı isteği ile anında alım (Market Buy)"

  /** `MarketBuyStrategy.CalculateSignalScore`: always neutral. */
  const MarketBuyScore := 50.0

  /**
   * `MarketBuyStrategy.Analyze`: buy at once when flat, with no target and
   * no stop (the user's own values are kept by the engine); nothing when in
   * a position. The candles are not looked at.
   */
  function MarketBuyAnalyze(currentPositionAmount: real): (r: StrategyResult)
    ensures r.action == Buy <==> currentPositionAmount == 0.0
    ensures r.action != Sell
    ensures r.targetPrice == 0.0 && r.stopPrice == 0.0
    ensures r.action == Buy ==> r.description == MarketBuyMessage
  {
    if currentPositionAmount == 0.0 then Signal(Buy, 0.0, 0.0, MarketBuyMessage)
    else DefaultResult()
  }

  // ------------------------------------------------------------ simulation

  const SimulationBuyMessage := "Simülasyon: Alım sinyali üretildi."
  const SimulationTakeProfit := "Simülasyon: Kâr Al"
  const SimulationStopLoss := "Simülasyon: Zarar Durdur"
  const SimulationWaiting := "Simülasyon: Pozisyonda, TP/SL bekleniyor."

  /**
   * `SimulationStrategy.Analyze`: buy when flat with a 5% target and a 5%
   * stop; in a position with a known entry price, sell at a profit of 5% or
   * more, or at a loss of 5% or more; otherwise wait.
   */
  function SimulationAnalyze(candles: seq<Candle>, currentPositionAmount: real, entryPrice: real): (r: Result<StrategyResult>)
    ensures r.Failure? <==> |candles| == 0
    ensures r.Success? ==> (r.value.action == Buy <==> currentPositionAmount == 0.0)
    ensures r.Success? && r.value.action == Buy ==>
      var price := candles[|candles| - 1].close;
      r.value.targetPrice == price * 1.05 && r.value.stopPrice == price * 0.95
    ensures r.Success? ==>
      (r.value.action == Sell <==>
        currentPositionAmount != 0.0 && entryPrice > 0.0 &&
        var pnl := PnlPercent(candles[|candles| - 1].close, entryPrice);
        pnl >= 5.0 || pnl <= -5.0)
    ensures r.Success? && r.value.action == Sell ==>
      r.value.description == (if PnlPercent(candles[|candles| - 1].close, entryPrice) >= 5.0
                              then SimulationTakeProfit else SimulationStopLoss)
  {
    match LastClose(candles)
    case Failure(e) => Failure(e)
    case Success(price) =>
      if currentPositionAmount == 0.0 then
        Success(Signal(Buy, price * 1.05, price * 0.95, SimulationBuyMessage))
      else if entryPrice > 0.0 && PnlPercent(price, entryPrice) >= 5.0 then
        Success(Describe(Sell, SimulationTakeProfit))
      else if entryPrice > 0.0 && PnlPercent(price, entryPrice) <= -5.0 then
        Success(Describe(Sell, SimulationStopLoss))
      else
        Success(Describe(NoTrade, SimulationWaiting))
  }

  /** `SimulationStrategy.CalculateSignalScore`: a deterministic score from the candle count. */
  function SimulationScore(candles: seq<Candle>): (r: real)
    ensures |candles| == 0 ==> r == 0.0
    ensures |candles| > 0 ==> 60.0 <= r <= 90.0 && r == r.Floor as real
    ensures |candles| > 0 ==> r == (60 + |candles| % 31) as real
  {
    if |candles| == 0 then 0.0 else (60 + |candles| % 31) as real
  }

  /** The simulation score repeats with period 31 in the candle count. */
  lemma SimulationScorePeriodic(a: seq<Candle>, b: seq<Candle>)
    requires |a| > 0 && |b| == |a| + 31
    ensures SimulationScore(a) == SimulationScore(b)
  {
  }

  // ------------------------------------------------------------ DCA

  const DcaFirstBuy := "DCA Başlangıç Alımı"
  const DcaStepBuy := "DCA Step"

  /** `DcaStrategy.CalculateSignalScore`: always neutral. */
  const DcaScore := 50.0

  /** The DCA (martingale) bot: buys again every time the price falls far enough below the entry. */
  class DcaStrategy {
    var maxDcaStep: int
    var priceDeviation: real
    var amountScale: real

    constructor()
      ensures maxDcaStep == 5 && priceDeviation == 2.0 && amountScale == 2.0
    {
      maxDcaStep := 5;
      priceDeviation := 2.0;
      amountScale := 2.0;
    }

    /** `SetParameters`: each parsable value replaces its setting; the others are kept. */
    method SetParameters(parameters: map<string, string>)
      modifies this
      ensures maxDcaStep == IntSetting(parameters, "dcaCount", old(maxDcaStep))
      ensures priceDeviation == DecimalSetting(parameters, "priceDeviation", old(priceDeviation))
      ensures amountScale == DecimalSetting(parameters, "amountScale", old(amountScale))
    {
      maxDcaStep := IntSetting(parameters, "dcaCount", maxDcaStep);
      priceDeviation := DecimalSetting(parameters, "priceDeviation", priceDeviation);
      amountScale := DecimalSetting(parameters, "amountScale", amountScale);
    }

    /**
     * `Analyze`: the first buy is unconditional with a 1% target; later buys
     * happen while fewer than `maxDcaStep` extra buys were made and the price
     * is at least `priceDeviation` percent below the entry, for
     * `amountScale` times the position. A DCA bot never sells by signal.
     */
    function Analyze(candles: seq<Candle>, currentPositionAmount: real, entryPrice: real, currentStep: int)
      : (r: Result<StrategyResult>)
      reads this
      ensures r.Failure? <==> |candles| == 0
      ensures r.Success? ==> r.value.action != Sell
      ensures r.Success? && currentPositionAmount == 0.0 ==>
        r.value.action == Buy && r.value.targetPrice == candles[|candles| - 1].close * 1.01
      ensures r.Success? && currentPositionAmount != 0.0 ==>
        (r.value.action == Buy <==>
          currentStep < maxDcaStep && entryPrice > 0.0 &&
          PnlPercent(candles[|candles| - 1].close, entryPrice) <= -priceDeviation)
      ensures r.Success? && currentPositionAmount != 0.0 && r.value.action == Buy ==>
        r.value.amount == currentPositionAmount * amountScale && r.value.targetPrice == 0.0
    {
      match LastClose(candles)
      case Failure(e) => Failure(e)
      case Success(price) =>
        if currentPositionAmount == 0.0 then
          Success(Signal(Buy, price * 1.01, 0.0, DcaFirstBuy))
        else if currentStep < maxDcaStep && entryPrice > 0.0
             && PnlPercent(price, entryPrice) <= -1.0 * priceDeviation then
          Success(StrategyResult(Buy, 0.0, 0.0, DcaStepBuy, currentPositionAmount * amountScale, map[]))
        else
          Success(DefaultResult())
    }
  }

  /** A follow-up DCA buy happens exactly when the price is at or below `entry * (1 - deviation/100)`. */
  lemma DcaBuyThreshold(s: DcaStrategy, candles: seq<Candle>, currentPositionAmount: real, entryPrice: real, currentStep: int)
    requires |candles| > 0 && currentPositionAmount != 0.0 && entryPrice > 0.0 && currentStep < s.maxDcaStep
    ensures s.Analyze(candles, currentPositionAmount, entryPrice, currentStep).value.action == Buy <==>
      candles[|candles| - 1].close <= entryPrice * (1.0 - s.priceDeviation / 100.0)
  {
    PnlThreshold(candles[|candles| - 1].close, entryPrice, -s.priceDeviation);
  }

  // ------------------------------------------------------------ grid

  const GridMissingBounds := "GRID HATA: Alt ve üst fiyat parametreleri gerekli (lowerPrice, upperPrice)"
  const GridBoundsOrder := "GRID HATA: Üst fiyat, alt fiyattan büyük olmalı"
  const GridTooFewLevels := "GRID HATA: Grid sayısı en az 2 olmalı"
  const GridStopBelow := "GRID STOP: Fiyat grid aralığının çok altına düştü"
  const GridWaitBelow := "GRID: Fiyat aralık dışında (altında), bekleniyor"
  const GridProfitAbove := "GRID KÂR: Fiyat grid aralığının üstüne çıktı"
  const GridWaitAbove := "GRID: Fiyat aralık dışında (üstünde), bekleniyor"
  const GridBuy := "GRID ALIM"
  const GridWaitUpperHalf := "GRID BEKLİYOR"
  const GridNoEntry := "GRID: Giriş fiyatı bilgisi bekleniyor"
  const GridSell := "GRID SATIŞ"
  const GridStop := "GRID STOP"
  const GridHolding := "GRID POZİSYONDA"


  /**
   * The grid bot: `gridCount` equal steps between `lowerPrice` and
   * `upperPrice`; buy in the lower half, sell one level above the entry.
   */
  class GridStrategy {
    var gridCount: int
    var lowerPrice: real
    var upperPrice: real

    constructor()
      ensures gridCount == 10 && lowerPrice == 0.0 && upperPrice == 0.0
    {
      gridCount := 10;
      lowerPrice := 0.0;
      upperPrice := 0.0;
    }

    method SetParameters(parameters: map<string, string>)
      modifies this
      ensures gridCount == IntSetting(parameters, "gridCount", old(gridCount))
      ensures lowerPrice == DecimalSetting(parameters, "lowerPrice", old(lowerPrice))
      ensures upperPrice == DecimalSetting(parameters, "upperPrice", old(upperPrice))
    {
      gridCount := IntSetting(parameters, "gridCount", gridCount);
      lowerPrice := DecimalSetting(parameters, "lowerPrice", lowerPrice);
      upperPrice := DecimalSetting(parameters, "upperPrice", upperPrice);
    }

    /** The three parameter checks of `Analyze` all pass. */
    predicate BoundsValid()
      reads this
    {
      lowerPrice > 0.0 && upperPrice > lowerPrice && gridCount >= 2
    }

    /** The distance between two grid levels. */
    function GridStep(): (r: real)
      reads this
      requires BoundsValid()
      ensures r > 0.0
    {
      (upperPrice - lowerPrice) / gridCount as real
    }

    /** The unclamped level of a price, `(int)((price - lower) / step)`, which may not fit in an `int`. */
    function RawLevel(price: real): int
      reads this
      requires BoundsValid()
    {
      Truncate((price - lowerPrice) / GridStep())
    }

    /** The level as the source computes it: cast (which may throw), then clamp to `[0, gridCount]`. */
    function CastLevel(price: real): (r: Result<int>)
      reads this
      requires BoundsValid()
      ensures r.Success? <==> InInt32(RawLevel(price))
      ensures r.Success? ==> 0 <= r.value <= gridCount && r.value == ClampInt(RawLevel(price), 0, gridCount)
    {
      var raw := RawLevel(price);
      if InInt32(raw) then Success(ClampInt(raw, 0, gridCount)) else Failure(CastOverflow)
    }

    /** The result for a price outside the 5% tolerance band around the grid. */
    function OutsideResult(price: real, currentPositionAmount: real): (r: StrategyResult)
      reads this
      requires price < lowerPrice * 0.95 || price > upperPrice * 1.05
      ensures r.action == (if currentPositionAmount > 0.0 then Sell else NoTrade)
    {
      if price < lowerPrice * 0.95 then
        if currentPositionAmount > 0.0 then Describe(Sell, GridStopBelow) else Describe(NoTrade, GridWaitBelow)
      else
        if currentPositionAmount > 0.0 then Describe(Sell, GridProfitAbove) else Describe(NoTrade, GridWaitAbove)
    }

    /** The price up to which a flat grid buys: `lower + step * gridCount / 2`. */
    function BuyLimit(): real
      reads this
      requires BoundsValid()
    {
      lowerPrice + GridStep() * (gridCount as real / 2.0)
    }

    /** The result when flat, with the current level: buy in the lower half, targeting the next level up. */
    function FlatResult(price: real, level: int): (r: StrategyResult)
      reads this
      requires BoundsValid()
    {
      if price <= BuyLimit() then
        Signal(Buy, Min2(lowerPrice + (level + 1) as real * GridStep(), upperPrice), lowerPrice * 0.95, GridBuy)
      else Describe(NoTrade, GridWaitUpperHalf)
    }

    /** The result in a position, with the current and the entry level. */
    function HeldResult(price: real, entryPrice: real, level: int, entryLevel: int): (r: StrategyResult)
      reads this
      ensures r.action != Buy
      ensures r.action == Sell <==> level > entryLevel || (level < entryLevel - 1 && price < entryPrice * 0.97)
    {
      if level > entryLevel then Describe(Sell, GridSell)
      else if level < entryLevel - 1 && price < entryPrice * 0.97 then Describe(Sell, GridStop)
      else Describe(NoTrade, GridHolding)
    }

    /** The result of invalid parameters, checked in the source's order. */
    function InvalidResult(): (r: StrategyResult)
      reads this
      ensures r.action == NoTrade
    {
      if lowerPrice <= 0.0 || upperPrice <= 0.0 then Describe(NoTrade, GridMissingBounds)
      else if upperPrice <= lowerPrice then Describe(NoTrade, GridBoundsOrder)
      else Describe(NoTrade, GridTooFewLevels)
    }

    /**
     * `Analyze` as written: the level of the price is cast to `int` before
     * the price is compared with the tolerance band, so a price far outside
     * the grid makes the cast throw.
     */
    function Analyze(candles: seq<Candle>, currentPositionAmount: real, entryPrice: real): (r: Result<StrategyResult>)
      reads this
      ensures |candles| == 0 ==> r == Failure(NoElements)
      ensures |candles| > 0 && !BoundsValid() ==> r.Success? && r.value.action == NoTrade
      ensures |candles| > 0 && BoundsValid() && !InInt32(RawLevel(candles[|candles| - 1].close)) ==> r == Failure(CastOverflow)
    {
      match LastClose(candles)
      case Failure(e) => Failure(e)
      case Success(price) =>
        if !BoundsValid() then Success(InvalidResult())
        else match CastLevel(price)
          case Failure(e) => Failure(e)
          case Success(level) =>
            if price < lowerPrice * 0.95 || price > upperPrice * 1.05 then
              Success(OutsideResult(price, currentPositionAmount))
            else if currentPositionAmount == 0.0 then Success(FlatResult(price, level))
            else if entryPrice <= 0.0 then Success(Describe(NoTrade, GridNoEntry))
            else match CastLevel(entryPrice)
              case Failure(e) => Failure(e)
              case Success(entryLevel) => Success(HeldResult(price, entryPrice, level, entryLevel))
    }

    /** The level clamped before the cast, so that it always fits. */
    function ClampedLevel(price: real): (r: int)
      reads this
      requires BoundsValid()
      ensures 0 <= r <= gridCount
    {
      Truncate(Clamp((price - lowerPrice) / GridStep(), 0.0, gridCount as real))
    }

    /** `Analyze` with the level clamped before the cast: the same rules, and no exception for any price. */
    function AnalyzeCorrected(candles: seq<Candle>, currentPositionAmount: real, entryPrice: real): (r: Result<StrategyResult>)
      reads this
      ensures r.Failure? <==> |candles| == 0
      ensures r.Success? && !BoundsValid() ==> r.value.action == NoTrade
      ensures r.Success? && BoundsValid() ==>
        var price := candles[|candles| - 1].close;
        if price < lowerPrice * 0.95 || price > upperPrice * 1.05 then
          r.value.action == (if currentPositionAmount > 0.0 then Sell else NoTrade)
        else if currentPositionAmount == 0.0 then
          (r.value.action == Buy <==> price <= BuyLimit())
        else if entryPrice <= 0.0 then r.value.action == NoTrade
        else
          var level, entryLevel := ClampedLevel(price), ClampedLevel(entryPrice);
          r.value.action != Buy &&
          (r.value.action == Sell <==> level > entryLevel || (level < entryLevel - 1 && price < entryPrice * 0.97))
    {
      match LastClose(candles)
      case Failure(e) => Failure(e)
      case Success(price) =>
        if !BoundsValid() then Success(InvalidResult())
        else if price < lowerPrice * 0.95 || price > upperPrice * 1.05 then
          Success(OutsideResult(price, currentPositionAmount))
        else if currentPositionAmount == 0.0 then Success(FlatResult(price, ClampedLevel(price)))
        else if entryPrice <= 0.0 then Success(Describe(NoTrade, GridNoEntry))
        else Success(HeldResult(price, entryPrice, ClampedLevel(price), ClampedLevel(entryPrice)))
    }

    /**
     * `CalculateSignalScore` as written: the parameter check omits
     * `upper > lower`, so equal bounds and a price on them divide by zero.
     */
    function CalculateSignalScore(candles: seq<Candle>): (r: Result<real>)
      reads this
      ensures lowerPrice <= 0.0 || upperPrice <= 0.0 || gridCount < 2 ==> r == Success(0.0)
      ensures r.Success? ==> r.value in {0.0, 30.0, 50.0, 70.0, 85.0}
      ensures r.Failure? && |candles| > 0 ==> upperPrice == lowerPrice == candles[|candles| - 1].close
    {
      if lowerPrice <= 0.0 || upperPrice <= 0.0 || gridCount < 2 then Success(0.0)
      else match LastClose(candles)
        case Failure(e) => Failure(e)
        case Success(price) =>
          if price < lowerPrice || price > upperPrice then Success(0.0)
          else if upperPrice - lowerPrice == 0.0 then Failure(DivideByZero)
          else Success(ZoneScore((price - lowerPrice) / (upperPrice - lowerPrice)))
    }

    /** `CalculateSignalScore` with the same bound checks as `Analyze`: never divides by zero. */
    function CalculateSignalScoreCorrected(candles: seq<Candle>): (r: Result<real>)
      reads this
      ensures !BoundsValid() ==> r == Success(0.0)
      ensures BoundsValid() ==> (r.Failure? <==> |candles| == 0)
      ensures r.Success? ==> r.value in {0.0, 30.0, 50.0, 70.0, 85.0}
      ensures r.Success? && BoundsValid() ==>
        var price := candles[|candles| - 1].close;
        (r.value == 85.0 <==> lowerPrice <= price <= lowerPrice + 0.3 * (upperPrice - lowerPrice))
    {
      if !BoundsValid() then Success(0.0)
      else match LastClose(candles)
        case Failure(e) => Failure(e)
        case Success(price) =>
          if price < lowerPrice || price > upperPrice then Success(0.0)
          else
            var position := (price - lowerPrice) / (upperPrice - lowerPrice);
            assert position <= 0.3 <==> price <= lowerPrice + 0.3 * (upperPrice - lowerPrice) by {
              DivCompare(price - lowerPrice, upperPrice - lowerPrice, 0.3);
            }
            Success(ZoneScore(position))
    }
  }

  /** The score of a relative position inside the grid: the lower, the better. */
  function ZoneScore(position: real): (r: real)
    ensures r in {30.0, 50.0, 70.0, 85.0}
    ensures r == 85.0 <==> position <= 0.3
  {
    if position <= 0.3 then 85.0
    else if position <= 0.5 then 70.0
    else if position <= 0.7 then 50.0
    else 30.0
  }

  /** Lower positions never score less than higher ones. */
  lemma ZoneScoreMonotone(p: real, q: real)
    requires p <= q
    ensures ZoneScore(p) >= ZoneScore(q)
  {
  }

  /** The buy zone of a flat grid is exactly the lower half of the range. */
  lemma GridBuyLimitIsMidpoint(s: GridStrategy)
    requires s.BoundsValid()
    ensures s.BuyLimit() == (s.lowerPrice + s.upperPrice) / 2.0
  {
    var n := s.gridCount as real;
    var step := s.GridStep();
    assert step * n == s.upperPrice - s.lowerPrice;
    assert step * (n / 2.0) == (step * n) / 2.0;
  }

  /** Within the grid, the level `k` of a price brackets it: `lower + k*step <= price < lower + (k+1)*step`. */
  lemma GridLevelBrackets(s: GridStrategy, price: real)
    requires s.BoundsValid() && s.lowerPrice <= price < s.upperPrice
    ensures var k := s.ClampedLevel(price); var step := s.GridStep();
      s.lowerPrice + k as real * step <= price < s.lowerPrice + (k + 1) as real * step
  {
    var step := s.GridStep();
    var x := (price - s.lowerPrice) / step;
    var n := s.gridCount as real;
    assert x >= 0.0;
    assert x < n by {
      assert step * n == s.upperPrice - s.lowerPrice;
      DivCompare(price - s.lowerPrice, step, n);
    }
    assert Clamp(x, 0.0, n) == x;
    var k := Truncate(x);
    assert k == s.ClampedLevel(price);
    StepBracket(x, step, price - s.lowerPrice, k);
  }

  /** A grid buy always targets a price above the current one, and its stop is not above it. */
  lemma GridBuyTargetAbovePrice(s: GridStrategy, candles: seq<Candle>, entryPrice: real)
    requires |candles| > 0
    requires s.AnalyzeCorrected(candles, 0.0, entryPrice).value.action == Buy
    ensures var r := s.AnalyzeCorrected(candles, 0.0, entryPrice).value;
      var price := candles[|candles| - 1].close;
      r.targetPrice > price && r.stopPrice <= price
  {
    var price := candles[|candles| - 1].close;
    assert s.BoundsValid() && !(price < s.lowerPrice * 0.95) && price <= s.BuyLimit();
    assert s.AnalyzeCorrected(candles, 0.0, entryPrice) == Success(s.FlatResult(price, s.ClampedLevel(price)));
    FlatBuyBrackets(s, price);
  }

  /** A flat buy targets the level above the price and stops below it. */
  lemma FlatBuyBrackets(s: GridStrategy, price: real)
    requires s.BoundsValid() && s.lowerPrice * 0.95 <= price <= s.BuyLimit()
    ensures var r := s.FlatResult(price, s.ClampedLevel(price));
      r.targetPrice > price && r.stopPrice <= price
  {
    GridBuyLimitIsMidpoint(s);
    assert price < s.upperPrice;
    var step := s.GridStep();
    var k := s.ClampedLevel(price);
    if price >= s.lowerPrice {
      GridLevelBrackets(s, price);
    } else {
      DivCompare(price - s.lowerPrice, step, 0.0);
      assert k == 0;
      assert (k + 1) as real * step == step;
    }
    assert s.lowerPrice + (k + 1) as real * step > price;
  }

  /** `(int)` then clamp equals clamp then `(int)`, whenever the cast does not throw. */
  lemma TruncateClampCommute(x: real, n: int)
    requires n >= 0
    ensures ClampInt(Truncate(x), 0, n) == Truncate(Clamp(x, 0.0, n as real))
  {
  }

  /** Where the source does not throw, the corrected grid analysis gives the same result. */
  lemma GridCorrectedAgrees(s: GridStrategy, candles: seq<Candle>, currentPositionAmount: real, entryPrice: real)
    requires s.Analyze(candles, currentPositionAmount, entryPrice).Success?
    ensures s.AnalyzeCorrected(candles, currentPositionAmount, entryPrice) == s.Analyze(candles, currentPositionAmount, entryPrice)
  {
    if s.BoundsValid() {
      var price := candles[|candles| - 1].close;
      var step := s.GridStep();
      TruncateClampCommute((price - s.lowerPrice) / step, s.gridCount);
      TruncateClampCommute((entryPrice - s.lowerPrice) / step, s.gridCount);
    }
  }

  /** As written, a price far above a narrow grid makes `Analyze` throw instead of selling the position. */
  lemma GridAnalyzeOverflows(s: GridStrategy, candles: seq<Candle>)
    requires s.lowerPrice == 1.0 && s.upperPrice == 2.0 && s.gridCount == 2
    requires |candles| > 0 && candles[|candles| - 1].close == 3000000000.0
    ensures s.Analyze(candles, 1.0, 1.5) == Failure(CastOverflow)
    ensures s.AnalyzeCorrected(candles, 1.0, 1.5) == Success(Describe(Sell, GridProfitAbove))
  {
    assert s.GridStep() == 0.5;
    assert (3000000000.0 - 1.0) / 0.5 == 5999999998.0;
  }

  /** As written, equal bounds with the price on them make the score divide by zero. */
  lemma GridScoreDividesByZero(s: GridStrategy, candles: seq<Candle>)
    requires s.lowerPrice == 100.0 && s.upperPrice == 100.0 && s.gridCount == 10
    requires |candles| > 0 && candles[|candles| - 1].close == 100.0
    ensures s.CalculateSignalScore(candles) == Failure(DivideByZero)
    ensures s.CalculateSignalScoreCorrected(candles) == Success(0.0)
  {
  }
}
