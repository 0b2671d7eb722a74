/**
 * The scanner strategies built on `BaseStrategy`: SMA 111 breakout, SMA 111
 * buy/sell and the BIST multi-MA breakout. The base class guards every
 * analysis (an empty candle list gives the invalid-data result) and every
 * score; the indicator values are exposed to the chart in the result's
 * indicator map.
 */
module StrategiesScanner {
  import opened Common
  import opened StrategyBase
  import opened Indicators

  const Sma111 := 111
  const Sma350 := 350

  // ------------------------------------------------------------ SMA 111 breakout

  const BreakoutNoData := "Yetersiz veri."
  const BreakoutNoSma := "SMA hesaplanamadı."
  const BreakoutAbove := "SMA 111 Üzerinde"
  const BreakoutHolding := "Trend devam ediyor."
  const BreakoutBelow := "SMA 111 Altına İndi"

  /** `Sma111BreakoutStrategy.OnAnalyze`: hold or enter above SMA 111, leave below it. */
  function Sma111BreakoutOnAnalyze(candles: seq<Candle>, currentPositionAmount: real): (r: StrategyResult)
  {
    var n := |candles|;
    if n < Sma111 then Describe(NoTrade, BreakoutNoData)
    else
      var sma := Sma(Closes(candles), Sma111)[n - 1];
      if sma.None? then Describe(NoTrade, BreakoutNoSma)
      else
        var price := candles[n - 1].close;
        var indicators := map["SMA111" := sma.value];
        if price > sma.value then
          if currentPositionAmount == 0.0 then StrategyResult(Buy, 0.0, 0.0, BreakoutAbove, 0.0, indicators)
          else StrategyResult(NoTrade, 0.0, 0.0, BreakoutHolding, 0.0, indicators)
        else if currentPositionAmount > 0.0 then StrategyResult(Sell, 0.0, 0.0, BreakoutBelow, 0.0, indicators)
        else StrategyResult(NoTrade, 0.0, 0.0, "", 0.0, indicators)
  }

  /**
   * `Analyze` of the SMA 111 breakout strategy: buy when flat and the last
   * close is above SMA 111, sell a long position when it is at or below.
   */
  function Sma111BreakoutAnalyze(candles: seq<Candle>, currentPositionAmount: real): (r: StrategyResult)
    ensures |candles| == 0 ==> r == Describe(NoTrade, InvalidDataMessage)
    ensures 0 < |candles| < Sma111 ==> r == Describe(NoTrade, BreakoutNoData)
    ensures |candles| >= Sma111 ==>
      var sma := Sma(Closes(candles), Sma111)[|candles| - 1].value;
      var price := candles[|candles| - 1].close;
      r.indicators == map["SMA111" := sma] &&
      (r.action == Buy <==> currentPositionAmount == 0.0 && price > sma) &&
      (r.action == Sell <==> currentPositionAmount > 0.0 && price <= sma)
  {
    GuardAnalyze(candles, Success(Sma111BreakoutOnAnalyze(candles, currentPositionAmount)))
  }

  /**
   * `OnCalculateSignalScore`: 100 on the first close above SMA 111, five
   * points less for every earlier candle that already closed at or above
   * it, never below 0; 0 below the SMA or with fewer than 112 candles.
   */
  function Sma111BreakoutScore(candles: seq<Candle>): (r: real)
    ensures 0.0 <= r <= 100.0
    ensures r > 0.0 ==>
      |candles| >= Sma111 + 1 &&
      candles[|candles| - 1].close >= Sma(Closes(candles), Sma111)[|candles| - 1].value
  {
    var n := |candles|;
    if n < Sma111 + 1 then 0.0
    else
      var closes := Closes(candles);
      var sma := Sma(closes, Sma111);
      if sma[n - 1].None? || candles[n - 1].close < sma[n - 1].value then 0.0
      else Max2(100.0 - (RunAbove(closes, sma, Sma111 - 1, n - 2) * 5) as real, 0.0)
  }

  /**
   * The top score is exactly a first close above the SMA after a close
   * below it, and a score of `100 - 5j` or less means the `j` candles
   * before the last also closed at or above it.
   */
  lemma Sma111BreakoutScoreMeaning(candles: seq<Candle>)
    ensures var r := Sma111BreakoutScore(candles);
      (r == 100.0 <==>
        |candles| >= Sma111 + 1 &&
        var sma := Sma(Closes(candles), Sma111);
        var n := |candles|;
        candles[n - 1].close >= sma[n - 1].value && candles[n - 2].close < sma[n - 2].value)
      && (r > 0.0 ==>
        forall j :: 1 <= j && (j * 5) as real <= 100.0 - r ==>
          Sma(Closes(candles), Sma111)[|candles| - 1 - j].Some? &&
          candles[|candles| - 1 - j].close >= Sma(Closes(candles), Sma111)[|candles| - 1 - j].value)
  {
    var n := |candles|;
    if n >= Sma111 + 1 {
      var closes := Closes(candles);
      var sma := Sma(closes, Sma111);
      if sma[n - 1].Some? && candles[n - 1].close >= sma[n - 1].value {
        var k := RunAbove(closes, sma, Sma111 - 1, n - 2);
        assert k == 0 <==> closes[n - 2] < sma[n - 2].value;
      }
    }
  }

  /** `CalculateSignalScore` of the SMA 111 breakout strategy, with its backward scan. */
  method CalculateSma111BreakoutScore(candles: seq<Candle>) returns (score: real)
    ensures score == GuardScore(candles, Success(Sma111BreakoutScore(candles)))
  {
    var n := |candles|;
    if n < Sma111 + 1 {
      return 0.0;
    }
    var prices := Closes(candles);
    var smaValues := CalculateSma(prices, Sma111);
    if smaValues[n - 1].None? || candles[n - 1].close < smaValues[n - 1].value {
      return 0.0;
    }
    var candlesSinceBreakout, _ := CountSinceBreakout(prices, smaValues, Sma111 - 1);
    score := Max2(100.0 - (candlesSinceBreakout * 5) as real, 0.0);
    assert score == Sma111BreakoutScore(candles) by {
      assert candlesSinceBreakout == RunAbove(Closes(candles), Sma(Closes(candles), Sma111), Sma111 - 1, n - 2);
    }
  }

  // ------------------------------------------------------------ SMA 111 buy/sell

  const BuySellNoData := "Yetersiz veri."
  const BuySellNoSma := "Yetersiz SMA verisi."
  const BuySellUpCross := "SMA 111 KESİŞİMİ (YUKARI)"
  const BuySellUpTrend := "Trend YUKARI (Pozisyon yok, yeni kesişim bekleniyor)"
  const BuySellDownTrend := "Trend AŞAĞI (Nötr)"
  const BuySellDownCross := "SMA 111 KESİŞİMİ (AŞAĞI)"
  const BuySellCarry := "Pozisyon taşınıyor."

  /** The chart multipliers of SMA 350, with the text C# gives each `decimal` in the key `x{m}`. */
  const Multipliers: seq<(string, real)> :=
    [("0.702", 0.702), ("1.618", 1.618), ("2.0", 2.0), ("3.0", 3.0),
     ("5.0", 5.0), ("8.0", 8.0), ("13.0", 13.0), ("21.0", 21.0)]

  /** A chart key that no multiplier line can overwrite. */
  predicate NotLineKey(k: string)
  {
    |k| > 0 && k[0] != 'x'
  }

  /** The chart key of the `i`-th multiplier line. */
  function LineKey(i: int): string
    requires 0 <= i < |Multipliers|
  {
    "x" + Multipliers[i].0
  }

  /** `r` is `indicators` with the first `n` multiplier lines added. */
  ghost predicate LinesAdded(r: map<string, real>, indicators: map<string, real>, sma350: real, n: int)
    requires 0 <= n <= |Multipliers|
  {
    && (forall j :: 0 <= j < n ==> LineKey(j) in r && r[LineKey(j)] == sma350 * Multipliers[j].1)
    && (forall k :: k in indicators && NotLineKey(k) ==> k in r && r[k] == indicators[k])
    && (forall k :: k in r ==> k in indicators || exists j :: 0 <= j < n && k == LineKey(j))
  }

  lemma LinesStep(r: map<string, real>, indicators: map<string, real>, sma350: real, n: int)
    requires 0 <= n < |Multipliers| && LinesAdded(r, indicators, sma350, n)
    ensures LinesAdded(r[LineKey(n) := sma350 * Multipliers[n].1], indicators, sma350, n + 1)
  {
    forall j | 0 <= j < n ensures LineKey(n) != LineKey(j) {
      MultiplierKeysDistinct(n, j);
    }
    assert LineKey(n)[0] == 'x';
  }

  /** The `foreach` over the multipliers: add `x{m}` = SMA 350 times `m` for each. */
  method AddMultiplierLines(indicators: map<string, real>, sma350: real) returns (r: map<string, real>)
    ensures forall i :: 0 <= i < |Multipliers| ==>
      "x" + Multipliers[i].0 in r && r["x" + Multipliers[i].0] == sma350 * Multipliers[i].1
    ensures forall k :: k in indicators && NotLineKey(k) ==> k in r && r[k] == indicators[k]
    ensures forall k :: k in r ==> k in indicators || exists i :: 0 <= i < |Multipliers| && k == "x" + Multipliers[i].0
  {
    r := indicators;
    var i := 0;
    while i < |Multipliers|
      invariant 0 <= i <= |Multipliers|
      invariant LinesAdded(r, indicators, sma350, i)
    {
      LinesStep(r, indicators, sma350, i);
      r := r[LineKey(i) := sma350 * Multipliers[i].1];
      i := i + 1;
    }
    assert forall j :: 0 <= j < |Multipliers| ==> LineKey(j) == "x" + Multipliers[j].0;
  }

  lemma MultiplierKeysDistinct(i: int, j: int)
    requires 0 <= j < i < |Multipliers|
    ensures "x" + Multipliers[i].0 != "x" + Multipliers[j].0
  {
    var a, b := Multipliers[i].0, Multipliers[j].0;
    assert ("x" + a)[1..] == a;
    assert ("x" + b)[1..] == b;
    assert a != b by {
      if |a| == |b| {
        assert a[0] != b[0] || a[1] != b[1];
      }
    }
  }

  /** The chart lines of the buy/sell strategy: SMA 111, SMA 350 and the multiples of SMA 350. */
  method BuySellLines(sma111: real, sma350: real) returns (indicators: map<string, real>)
    ensures "SMA111" in indicators && indicators["SMA111"] == sma111
    ensures "SMA350" in indicators && indicators["SMA350"] == sma350
    ensures forall i :: 0 <= i < |Multipliers| ==>
      "x" + Multipliers[i].0 in indicators && indicators["x" + Multipliers[i].0] == sma350 * Multipliers[i].1
  {
    var lines := map["SMA111" := sma111, "SMA350" := sma350];
    assert NotLineKey("SMA111") && NotLineKey("SMA350");
    indicators := AddMultiplierLines(lines, sma350);
  }

  /**
   * `Analyze` of the SMA 111 buy/sell strategy: trade only at a crossing
   * of SMA 111 by the close (up when flat, down in a position), with SMA 111,
   * SMA 350 and their multiples in the chart map. SMA 350 must be defined, so
   * nothing trades before the 350th candle.
   */
  method Sma111BuySellAnalyze(candles: seq<Candle>, currentPositionAmount: real) returns (r: StrategyResult)
    ensures |candles| == 0 ==> r == Describe(NoTrade, InvalidDataMessage)
    ensures 0 < |candles| < Sma111 + 1 ==> r == Describe(NoTrade, BuySellNoData)
    ensures Sma111 + 1 <= |candles| < Sma350 ==> r == Describe(NoTrade, BuySellNoSma)
    ensures |candles| >= Sma350 ==>
      var n := |candles|;
      var sma111, sma350 := Sma(Closes(candles), Sma111), Sma(Closes(candles), Sma350)[n - 1].value;
      var prev, cur := candles[n - 2].close, candles[n - 1].close;
      (r.action == Buy <==> currentPositionAmount == 0.0 && CrossedAbove(prev, sma111[n - 2].value, cur, sma111[n - 1].value)) &&
      (r.action == Sell <==> currentPositionAmount != 0.0 && CrossedBelow(prev, sma111[n - 2].value, cur, sma111[n - 1].value)) &&
      "SMA111" in r.indicators && r.indicators["SMA111"] == sma111[n - 1].value &&
      "SMA350" in r.indicators && r.indicators["SMA350"] == sma350 &&
      forall i :: 0 <= i < |Multipliers| ==>
        "x" + Multipliers[i].0 in r.indicators && r.indicators["x" + Multipliers[i].0] == sma350 * Multipliers[i].1
  {
    var n := |candles|;
    if !ValidateCandles(candles) {
      return Describe(NoTrade, InvalidDataMessage);
    }
    if n < Sma111 + 1 {
      return Describe(NoTrade, BuySellNoData);
    }
    var prices := Closes(candles);
    var sma111Values := CalculateSma(prices, Sma111);
    var sma350Values := CalculateSma(prices, Sma350);
    if sma111Values[n - 1].None? || sma111Values[n - 2].None? || sma350Values[n - 1].None? {
      return Describe(NoTrade, BuySellNoSma);
    }
    var current111, prev111, current350 := sma111Values[n - 1].value, sma111Values[n - 2].value, sma350Values[n - 1].value;
    var indicators := BuySellLines(current111, current350);
    var prev, cur := candles[n - 2].close, candles[n - 1].close;
    var action := NoTrade;
    var message := "";
    if currentPositionAmount == 0.0 {
      if CrossedAbove(prev, prev111, cur, current111) {
        action, message := Buy, BuySellUpCross;
      } else {
        message := if cur > current111 then BuySellUpTrend else BuySellDownTrend;
      }
    } else {
      if CrossedBelow(prev, prev111, cur, current111) {
        action, message := Sell, BuySellDownCross;
      } else {
        message := BuySellCarry;
      }
    }
    r := StrategyResult(action, 0.0, 0.0, message, 0.0, indicators);
  }

  /** `OnCalculateSignalScore` of the buy/sell strategy: 80 above SMA 111, 20 at or below it, 0 without data. */
  function Sma111BuySellScore(candles: seq<Candle>): (r: real)
    ensures r in {0.0, 20.0, 80.0}
    ensures r == 0.0 <==> |candles| < Sma111
    ensures r == 80.0 <==>
      |candles| >= Sma111 &&
      candles[|candles| - 1].close > Sma(Closes(candles), Sma111)[|candles| - 1].value
  {
    var n := |candles|;
    if n < Sma111 then 0.0
    else
      var sma := Sma(Closes(candles), Sma111)[n - 1];
      if sma.None? then 0.0
      else if candles[n - 1].close > sma.value then 80.0 else 20.0
  }

  // ------------------------------------------------------------ BIST multi-MA

  /** An enabled moving average: its chart name, its period, and whether it is an EMA. */
  datatype MovingAverage = MovingAverage(name: string, period: int, isEma: bool)

  const Sma13Average := MovingAverage("SMA 13", 13, false)
  const Ema21Average := MovingAverage("EMA 21", 21, true)
  const Sma50Average := MovingAverage("SMA 50", 50, false)
  const Sma111Average := MovingAverage("SMA 111", 111, false)
  const Sma200Average := MovingAverage("SMA 200", 200, false)
  const Sma350Average := MovingAverage("SMA 350", 350, false)

  /** A `use_*` switch: the stored text, or the default when missing, is exactly `true`. */
  predicate SwitchedOn(parameters: map<string, string>, key: string, defaultValue: string)
  {
    (if key in parameters then parameters[key] else defaultValue) == "true"
  }

  /** The switch is what `GetParameter(key, defaultValue) == "true"` reads from the parameter store. */
  lemma SwitchedOnIsGetParameter(parameters: map<string, string>, key: string, defaultValue: string)
    ensures SwitchedOn(parameters, key, defaultValue) <==> ParameterOf(parameters, key, defaultValue, AsString) == "true"
  {
    StringParameter(parameters, key, defaultValue);
  }

  /**
   * `GetEnabledMas`, in its order: SMA 13, EMA 21, SMA 50, SMA 111, SMA
   * 200, SMA 350, each when its `use_*` switch is on; only SMA 111 is on by
   * default.
   */
  function GetEnabledMas(parameters: map<string, string>): (r: seq<MovingAverage>)
    ensures forall m :: m in r ==> m.period >= 13
    ensures PeriodsPositive(r)
  {
    var sma13 := SwitchedOn(parameters, "use_sma13", "false");
    var ema21 := SwitchedOn(parameters, "use_ema21", "false");
    var sma50 := SwitchedOn(parameters, "use_sma50", "false");
    var sma111 := SwitchedOn(parameters, "use_sma111", "true");
    var sma200 := SwitchedOn(parameters, "use_sma200", "false");
    var sma350 := SwitchedOn(parameters, "use_sma350", "false");
    var shorter := (if sma13 then [Sma13Average] else []) + (if ema21 then [Ema21Average] else [])
      + (if sma50 then [Sma50Average] else []);
    var middle := if sma111 then [Sma111Average] else [];
    var longer := (if sma200 then [Sma200Average] else []) + (if sma350 then [Sma350Average] else []);
    assert forall m :: m in shorter ==> 13 <= m.period < 111;
    assert forall m :: m in longer ==> m.period > 111;
    shorter + middle + longer
  }

  /** SMA 111 is enabled exactly when its switch is missing or reads `true`. */
  lemma Sma111EnabledIff(parameters: map<string, string>)
    ensures (exists m :: m in GetEnabledMas(parameters) && m.period == 111)
      <==> "use_sma111" !in parameters || parameters["use_sma111"] == "true"
  {
    var r := GetEnabledMas(parameters);
    if "use_sma111" !in parameters || parameters["use_sma111"] == "true" {
      assert Sma111Average in r;
    }
  }

  /** With no parameters, SMA 111 is the only enabled average. */
  lemma DefaultEnabledMas()
    ensures GetEnabledMas(map[]) == [Sma111Average]
  {
    var none: map<string, string> := map[];
    assert !SwitchedOn(none, "use_sma13", "false") && !SwitchedOn(none, "use_ema21", "false");
    assert !SwitchedOn(none, "use_sma50", "false") && SwitchedOn(none, "use_sma111", "true");
    assert !SwitchedOn(none, "use_sma200", "false") && !SwitchedOn(none, "use_sma350", "false");
  }

  /** `enabledMas.Max(m => m.Period)`. */
  function MaxPeriod(mas: seq<MovingAverage>): (r: int)
    requires |mas| > 0
    ensures forall m :: m in mas ==> m.period <= r
    ensures exists m :: m in mas && m.period == r
    ensures r >= mas[0].period
  {
    if |mas| == 1 then mas[0].period
    else
      var rest := MaxPeriod(mas[1..]);
      assert forall m :: m in mas[1..] ==> m in mas;
      if mas[0].period >= rest then mas[0].period else rest
  }

  /** The values of one average over the closes. */
  function MaValues(prices: seq<real>, ma: MovingAverage): (r: seq<Option<real>>)
    requires ma.period >= 1
    ensures |r| == |prices|
  {
    if ma.isEma then Ema(prices, ma.period) else Sma(prices, ma.period)
  }

  method CalculateMa(prices: seq<real>, ma: MovingAverage) returns (values: seq<Option<real>>)
    requires ma.period >= 1
    ensures values == MaValues(prices, ma)
  {
    if ma.isEma {
      values := CalculateEma(prices, ma.period);
    } else {
      values := CalculateSma(prices, ma.period);
    }
  }

  predicate PeriodsPositive(mas: seq<MovingAverage>)
  {
    forall k :: 0 <= k < |mas| ==> mas[k].period >= 1
  }

  /** The last value of the average is defined and below the price. */
  predicate Triggers(prices: seq<real>, ma: MovingAverage, price: real)
    requires ma.period >= 1
  {
    LastOrNull(MaValues(prices, ma)).Some? && price > LastOrNull(MaValues(prices, ma)).value
  }

  /** The last close is at or above the defined last value of the average. */
  predicate AtOrAbove(closes: seq<real>, ma: MovingAverage)
    requires ma.period >= 1 && |closes| >= 1
  {
    var values := MaValues(closes, ma);
    values[|closes| - 1].Some? && closes[|closes| - 1] >= values[|closes| - 1].value
  }

  /** The names of the averages whose last value is defined and below the price, in order. */
  function TriggeredNames(prices: seq<real>, mas: seq<MovingAverage>, price: real): (r: seq<string>)
    requires PeriodsPositive(mas)
    ensures forall x :: x in r ==>
      exists k :: 0 <= k < |mas| && mas[k].name == x && Triggers(prices, mas[k], price)
    ensures forall k :: 0 <= k < |mas| && Triggers(prices, mas[k], price) ==> mas[k].name in r
    decreases |mas|
  {
    if |mas| == 0 then []
    else
      var init := TriggeredNames(prices, mas[..|mas| - 1], price);
      var last := LastOrNull(MaValues(prices, mas[|mas| - 1]));
      assert forall k :: 0 <= k < |mas| - 1 ==> mas[..|mas| - 1][k] == mas[k];
      init + (if last.Some? && price > last.value then [mas[|mas| - 1].name] else [])
  }

  /** The chart map: each average's name with its last value, where it is defined. */
  function MaIndicators(prices: seq<real>, mas: seq<MovingAverage>): (r: map<string, real>)
    requires PeriodsPositive(mas)
    decreases |mas|
  {
    if |mas| == 0 then map[]
    else
      var init := MaIndicators(prices, mas[..|mas| - 1]);
      var last := LastOrNull(MaValues(prices, mas[|mas| - 1]));
      if last.Some? then init[mas[|mas| - 1].name := last.value] else init
  }

  /** One more average: what the prefix of `i + 1` averages adds to the prefix of `i`. */
  lemma ScanStep(prices: seq<real>, mas: seq<MovingAverage>, i: nat, price: real)
    requires PeriodsPositive(mas) && i < |mas|
    ensures var last := LastOrNull(MaValues(prices, mas[i]));
      && TriggeredNames(prices, mas[..i + 1], price)
         == TriggeredNames(prices, mas[..i], price) + (if last.Some? && price > last.value then [mas[i].name] else [])
      && MaIndicators(prices, mas[..i + 1])
         == (if last.Some? then MaIndicators(prices, mas[..i])[mas[i].name := last.value] else MaIndicators(prices, mas[..i]))
  {
    assert mas[..i + 1][..i] == mas[..i];
  }

  /** The `foreach` over the enabled averages in `OnAnalyze`. */
  method ScanAverages(prices: seq<real>, mas: seq<MovingAverage>, price: real)
    returns (triggered: seq<string>, indicators: map<string, real>)
    requires PeriodsPositive(mas)
    ensures triggered == TriggeredNames(prices, mas, price)
    ensures indicators == MaIndicators(prices, mas)
  {
    triggered := [];
    indicators := map[];
    var i := 0;
    while i < |mas|
      invariant 0 <= i <= |mas|
      invariant triggered == TriggeredNames(prices, mas[..i], price)
      invariant indicators == MaIndicators(prices, mas[..i])
    {
      var values := CalculateMa(prices, mas[i]);
      var current := LastOrNull(values);
      ScanStep(prices, mas, i, price);
      if current.Some? {
        indicators := indicators[mas[i].name := current.value];
        if price > current.value {
          triggered := triggered + [mas[i].name];
        }
      }
      i := i + 1;
    }
    assert mas[..|mas|] == mas;
  }

  /** `string.Join(separator, parts)`. */
  function Join(separator: string, parts: seq<string>): string
  {
    if |parts| == 0 then ""
    else if |parts| == 1 then parts[0]
    else parts[0] + separator + Join(separator, parts[1..])
  }

  const NoMaSelected := "Hiçbir MA seçilmedi."
  const BelowAllMas := "Fiyat tüm seçili ortalamaların altında."

  /** The last close is above the defined last value of at least one of the averages. */
  predicate AboveAny(prices: seq<real>, mas: seq<MovingAverage>, price: real)
    requires PeriodsPositive(mas)
  {
    exists k :: 0 <= k < |mas| && Triggers(prices, mas[k], price)
  }

  lemma TriggeredNamesNonEmpty(prices: seq<real>, mas: seq<MovingAverage>, price: real)
    requires PeriodsPositive(mas)
    ensures |TriggeredNames(prices, mas, price)| > 0 <==> AboveAny(prices, mas, price)
  {
    var r := TriggeredNames(prices, mas, price);
    if |r| > 0 {
      assert r[0] in r;
    }
  }

  /** The decision of `OnAnalyze` once every enabled average has been computed over enough candles. */
  method AnalyzeAverages(prices: seq<real>, mas: seq<MovingAverage>, price: real, currentPositionAmount: real)
    returns (r: StrategyResult)
    requires PeriodsPositive(mas)
    ensures r.action == Buy <==> currentPositionAmount == 0.0 && AboveAny(prices, mas, price)
    ensures r.action == Sell <==> currentPositionAmount > 0.0 && !AboveAny(prices, mas, price)
    ensures r.indicators == MaIndicators(prices, mas)
    ensures r.targetPrice == 0.0 && r.stopPrice == 0.0
  {
    var triggeredMas, indicators := ScanAverages(prices, mas, price);
    TriggeredNamesNonEmpty(prices, mas, price);
    var action := NoTrade;
    var message := "";
    if |triggeredMas| > 0 {
      if currentPositionAmount == 0.0 {
        action, message := Buy, "Fiyat " + Join(", ", triggeredMas) + " üzerinde.";
      } else {
        message := "Trend devam ediyor (" + Join(", ", triggeredMas) + ").";
      }
    } else if currentPositionAmount > 0.0 {
      action, message := Sell, BelowAllMas;
    }
    r := StrategyResult(action, 0.0, 0.0, message, 0.0, indicators);
  }

  /**
   * `Analyze` of the BIST multi-MA breakout: buy when flat and the last
   * close is above at least one enabled average, sell a long position when
   * it is above none of them; nothing trades before the longest enabled
   * period is covered.
   */
  method BistMultiMaAnalyze(parameters: map<string, string>, candles: seq<Candle>, currentPositionAmount: real)
    returns (r: StrategyResult)
    ensures |candles| == 0 ==> r == Describe(NoTrade, InvalidDataMessage)
    ensures |candles| > 0 && GetEnabledMas(parameters) == [] ==> r == Describe(NoTrade, NoMaSelected)
    ensures r.action != NoTrade ==>
      |candles| > 0 && GetEnabledMas(parameters) != [] && |candles| >= MaxPeriod(GetEnabledMas(parameters))
    ensures |candles| > 0 && GetEnabledMas(parameters) != [] && |candles| >= MaxPeriod(GetEnabledMas(parameters)) ==>
      var mas := GetEnabledMas(parameters);
      var prices := Closes(candles);
      var price := candles[|candles| - 1].close;
      (r.action == Buy <==> currentPositionAmount == 0.0 && AboveAny(prices, mas, price)) &&
      (r.action == Sell <==> currentPositionAmount > 0.0 && !AboveAny(prices, mas, price)) &&
      r.indicators == MaIndicators(prices, mas)
  {
    if !ValidateCandles(candles) {
      return Describe(NoTrade, InvalidDataMessage);
    }
    var enabledMas := GetEnabledMas(parameters);
    if |enabledMas| == 0 {
      return Describe(NoTrade, NoMaSelected);
    }
    var maxPeriod := MaxPeriod(enabledMas);
    if |candles| < maxPeriod {
      return Describe(NoTrade, "Yetersiz veri (Gerekli: " + NatToString(maxPeriod) + ").");
    }
    r := AnalyzeAverages(Closes(candles), enabledMas, candles[|candles| - 1].close, currentPositionAmount);
  }

  /**
   * The score of one average: 0 when its last value is undefined or above
   * the price; otherwise 100 minus 2 per candle since the breakout (not
   * below 70), or 70 when the scan found no close below the average.
   */
  function MaScore(closes: seq<real>, values: seq<Option<real>>, maxPeriod: int): (r: real)
    requires |closes| == |values| && maxPeriod >= 1 && |closes| >= 1
    ensures r == 0.0 || 70.0 <= r <= 100.0
    ensures r > 0.0 <==> values[|closes| - 1].Some? && closes[|closes| - 1] >= values[|closes| - 1].value
  {
    var n := |closes|;
    if values[n - 1].None? || closes[n - 1] < values[n - 1].value then 0.0
    else if BreakoutFound(closes, values, maxPeriod - 1, n - 2) then
      var k := RunAbove(closes, values, maxPeriod - 1, n - 2);
      100.0 - (MinInt(k, 15) * 2) as real
    else 70.0
  }

  /** The best score over the averages, starting from 0. */
  function BestScore(prices: seq<real>, mas: seq<MovingAverage>, maxPeriod: int): (r: real)
    requires PeriodsPositive(mas) && maxPeriod >= 1 && |prices| >= 1
    ensures r == 0.0 || 70.0 <= r <= 100.0
    ensures r > 0.0 <==> exists k :: 0 <= k < |mas| && MaScore(prices, MaValues(prices, mas[k]), maxPeriod) > 0.0
    decreases |mas|
  {
    if |mas| == 0 then 0.0
    else
      var init := BestScore(prices, mas[..|mas| - 1], maxPeriod);
      var s := MaScore(prices, MaValues(prices, mas[|mas| - 1]), maxPeriod);
      assert forall k :: 0 <= k < |mas| - 1 ==> mas[..|mas| - 1][k] == mas[k];
      if s > init then s else init
  }

  /** `OnCalculateSignalScore` of the BIST multi-MA breakout. */
  function BistMultiMaScore(parameters: map<string, string>, candles: seq<Candle>): (r: real)
    ensures r == 0.0 || 70.0 <= r <= 100.0
  {
    var mas := GetEnabledMas(parameters);
    if |mas| == 0 then 0.0
    else
      var maxPeriod := MaxPeriod(mas);
      if |candles| < maxPeriod + 1 then 0.0
      else BestScore(Closes(candles), mas, maxPeriod)
  }

  /**
   * The BIST score is positive exactly when some average is enabled, there
   * are more candles than the longest period, and the last close is at or
   * above the last value of one of the enabled averages.
   */
  lemma BistMultiMaScoreMeaning(parameters: map<string, string>, candles: seq<Candle>)
    ensures var mas := GetEnabledMas(parameters);
      BistMultiMaScore(parameters, candles) > 0.0 <==>
      mas != [] && |candles| >= MaxPeriod(mas) + 1 &&
      exists k :: 0 <= k < |mas| && AtOrAbove(Closes(candles), mas[k])
  {
    var mas := GetEnabledMas(parameters);
    if mas != [] && |candles| >= MaxPeriod(mas) + 1 {
      var closes := Closes(candles);
      var maxPeriod := MaxPeriod(mas);
      forall k | 0 <= k < |mas|
        ensures MaScore(closes, MaValues(closes, mas[k]), maxPeriod) > 0.0 <==> AtOrAbove(closes, mas[k])
      {
      }
    }
  }

  /** The body of the loop over the averages: the backward scan of one average. */
  method CalculateMaScore(closes: seq<real>, values: seq<Option<real>>, maxPeriod: int) returns (score: real)
    requires |closes| == |values| && maxPeriod >= 1 && |closes| >= 1
    ensures score == MaScore(closes, values, maxPeriod)
  {
    var n := |closes|;
    if values[n - 1].None? || closes[n - 1] < values[n - 1].value {
      return 0.0;
    }
    var candlesSinceBreakout, foundBreakout := CountSinceBreakout(closes, values, maxPeriod - 1);
    score := if foundBreakout then 100.0 - (MinInt(candlesSinceBreakout, 15) * 2) as real else 70.0;
  }

  /** The loop over the enabled averages, keeping the best score. */
  /** One more average: the best score of a prefix of `i + 1` averages from that of `i`. */
  lemma BestScoreStep(prices: seq<real>, mas: seq<MovingAverage>, maxPeriod: int, i: nat)
    requires PeriodsPositive(mas) && maxPeriod >= 1 && |prices| >= 1 && i < |mas|
    ensures var s := MaScore(prices, MaValues(prices, mas[i]), maxPeriod);
      var init := BestScore(prices, mas[..i], maxPeriod);
      BestScore(prices, mas[..i + 1], maxPeriod) == if s > init then s else init
  {
    assert mas[..i + 1][..i] == mas[..i];
  }

  method CalculateBestScore(prices: seq<real>, mas: seq<MovingAverage>, maxPeriod: int) returns (maxScore: real)
    requires PeriodsPositive(mas) && maxPeriod >= 1 && |prices| >= 1
    ensures maxScore == BestScore(prices, mas, maxPeriod)
  {
    maxScore := 0.0;
    var i := 0;
    while i < |mas|
      invariant 0 <= i <= |mas|
      invariant maxScore == BestScore(prices, mas[..i], maxPeriod)
    {
      var maValues := CalculateMa(prices, mas[i]);
      var score := CalculateMaScore(prices, maValues, maxPeriod);
      BestScoreStep(prices, mas, maxPeriod, i);
      if score > maxScore {
        maxScore := score;
      }
      i := i + 1;
    }
    assert mas[..|mas|] == mas;
  }

  /** `CalculateSignalScore` of the BIST multi-MA breakout. */
  method CalculateBistMultiMaScore(parameters: map<string, string>, candles: seq<Candle>) returns (score: real)
    ensures score == GuardScore(candles, Success(BistMultiMaScore(parameters, candles)))
  {
    var enabledMas := GetEnabledMas(parameters);
    if |enabledMas| == 0 || |candles| == 0 {
      return 0.0;
    }
    var maxPeriod := MaxPeriod(enabledMas);
    if |candles| < maxPeriod + 1 {
      return 0.0;
    }
    var maxScore := CalculateBestScore(Closes(candles), enabledMas, maxPeriod);
    score := Max2(maxScore, 0.0);
  }
}
