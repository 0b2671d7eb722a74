/**
 * `BacktestService`: replays a candle history through the Golden Rose
 * strategy, candle by candle after a 350-candle warm-up, entering with the
 * whole balance on a buy and leaving on a strategy sell, the take-profit or
 * the stop-loss, and then sums the trades up.
 *
 * The fetch of the history from the exchange, the date parsing and the
 * symbol clean-up happen before the simulation; the model starts from the
 * fetched candles.
 */
module Backtest {
  import opened Common
  import opened Listing
  import opened Intervals
  import opened StrategiesSma

  const WarmUpPeriod := 350
  const GoldenRoseId := "strategy-golden-rose"
  const TakeProfitExit := "Take Profit (Golden Rose Hedefi)"
  const StopLossExit := "Stop Loss"
  /** The entry date before any entry, `DateTime.MinValue`. */
  const NoDate := 0

  /** The request fields the simulation reads. */
  datatype BacktestRequest = BacktestRequest(strategyId: string, interval: string, initialBalance: real)

  /** A closed trade: its label, entry and exit dates and prices, and its profit. */
  datatype BacktestTrade = BacktestTrade(kind: string, entryDate: int, exitDate: int, entryPrice: real, exitPrice: real, pnl: real)

  datatype BacktestResult = BacktestResult(
    totalTrades: int, winningTrades: int, losingTrades: int,
    totalPnl: real, totalPnlPercent: real, winRate: real, maxDrawdown: real,
    trades: seq<BacktestTrade>)

  /** The loop's variables. */
  datatype SimState = SimState(
    balance: real, position: real, entryPrice: real, entryDate: int,
    targetPrice: real, stopPrice: real, inPosition: bool, trades: seq<BacktestTrade>)

  function InitialState(balance: real): (s: SimState)
    ensures !s.inPosition && s.position == 0.0 && s.balance == balance && s.trades == []
  {
    SimState(balance, 0.0, 0.0, NoDate, 0.0, 0.0, false, [])
  }

  // ------------------------------------------------------------ intervals

  /** `GetIntervalTimeSpan`, in minutes: thirteen codes, and 15 minutes for any other. */
  function IntervalSpan(code: string): (m: nat)
    ensures forall k :: Code(k) == code ==> m == Minutes(k)
  {
    match code
    case "1m" => 1
    case "3m" => 3
    case "5m" => 5
    case "15m" => 15
    case "30m" => 30
    case "1h" => 60
    case "2h" => 120
    case "4h" => 240
    case "6h" => 360
    case "8h" => 480
    case "12h" => 720
    case "1d" => 1440
    case "1w" => 10080
    case _ => 15
  }

  /** The candle interval asked of the exchange: ten codes, and 15 minutes for any other (6h, 8h and 12h included). */
  function BacktestInterval(code: string): (k: KlineInterval)
  {
    match code
    case "1m" => OneMinute
    case "3m" => ThreeMinutes
    case "5m" => FiveMinutes
    case "15m" => FifteenMinutes
    case "30m" => ThirtyMinutes
    case "1h" => OneHour
    case "2h" => TwoHour
    case "4h" => FourHour
    case "1d" => OneDay
    case "1w" => OneWeek
    case _ => FifteenMinutes
  }

  /**
   * The two tables agree on every code except 6h, 8h and 12h, where the
   * warm-up is measured in the long interval while 15-minute candles are
   * fetched; unknown codes are 15 minutes in both.
   */
  lemma IntervalTablesAgree(code: string)
    ensures Minutes(BacktestInterval(code)) == IntervalSpan(code) <==> code !in {"6h", "8h", "12h"}
    ensures code !in {"6h", "8h", "12h"} ==> Code(BacktestInterval(code)) == code || BacktestInterval(code) == FifteenMinutes
  {
    if code in {"6h", "8h", "12h"} {
      assert Minutes(BacktestInterval(code)) == 15;
    } else if forall k :: Code(k) != code {
      UnknownIntervals(code);
    } else {
      var k :| Code(k) == code;
      assert IntervalSpan(code) == Minutes(k);
    }
  }

  /** A code of no interval is 15 minutes in both tables. */
  lemma UnknownIntervals(code: string)
    requires forall k :: Code(k) != code
    ensures IntervalSpan(code) == 15 && BacktestInterval(code) == FifteenMinutes
  {
    assert Code(OneMinute) != code && Code(ThreeMinutes) != code && Code(FiveMinutes) != code;
    assert Code(ThirtyMinutes) != code && Code(OneHour) != code && Code(TwoHour) != code;
    assert Code(FourHour) != code && Code(SixHour) != code && Code(EightHour) != code;
    assert Code(TwelveHour) != code && Code(OneDay) != code && Code(OneWeek) != code;
  }

  /** The history starts 350 candles of the span before the requested start, so the strategy is warm at the start. */
  function WarmUpStart(startMinute: int, code: string): (r: int)
    ensures startMinute - r == WarmUpPeriod * IntervalSpan(code)
  {
    startMinute - IntervalSpan(code) * WarmUpPeriod
  }

  // ------------------------------------------------------------ one candle

  /** `string.Contains`: `t` occurs somewhere in `s`. */
  predicate Contains(s: string, t: string)
    decreases |s|
  {
    |t| <= |s| && (s[..|t|] == t || Contains(s[1..], t))
  }

  /** The reason to leave, in order: a strategy sell, the take-profit reached by the high, the stop-loss reached by the low. */
  function ExitReason(s: SimState, c: Candle, signal: StrategyResult): (r: Option<string>)
    ensures signal.action == Sell ==> r == Some(signal.description)
    ensures signal.action != Sell && s.targetPrice > 0.0 && c.high >= s.targetPrice ==> r == Some(TakeProfitExit)
    ensures (signal.action != Sell && !(s.targetPrice > 0.0 && c.high >= s.targetPrice) &&
      s.stopPrice > 0.0 && c.low <= s.stopPrice) ==> r == Some(StopLossExit)
    ensures r.None? <==> (signal.action != Sell && !(s.targetPrice > 0.0 && c.high >= s.targetPrice) &&
      !(s.stopPrice > 0.0 && c.low <= s.stopPrice))
  {
    if signal.action == Sell then Some(signal.description)
    else if s.targetPrice > 0.0 && c.high >= s.targetPrice then Some(TakeProfitExit)
    else if s.stopPrice > 0.0 && c.low <= s.stopPrice then Some(StopLossExit)
    else None
  }

  /** The price of a take-profit reason is the target, of a stop-loss reason the stop, of any other the close. */
  function ExitPrice(reason: string, close: real, targetPrice: real, stopPrice: real): real
  {
    if Contains(reason, "Take Profit") then targetPrice
    else if Contains(reason, "Stop Loss") then stopPrice
    else close
  }

  /** The two fixed reasons are priced at the target and at the stop. */
  lemma ExitPriceOfFixedReasons(close: real, targetPrice: real, stopPrice: real)
    ensures ExitPrice(TakeProfitExit, close, targetPrice, stopPrice) == targetPrice
    ensures ExitPrice(StopLossExit, close, targetPrice, stopPrice) == stopPrice
  {
    assert TakeProfitExit[0..|"Take Profit"|] == "Take Profit";
    assert StopLossExit[0..|"Stop Loss"|] == "Stop Loss";
  }

  /** The trade's label: "Take Profit (reason)" when it made money, "Stop Loss (reason)" otherwise. */
  function TradeKind(reason: string, pnl: real): string
  {
    if pnl > 0.0 then "Take Profit (" + reason + ")" else "Stop Loss (" + reason + ")"
  }

  /**
   * One pass of the loop body, as written. Flat, a buy invests the whole
   * balance at the close and subtracts it twice (a zero close throws);
   * in a position, an exit sells everything at the exit price, records
   * the trade and resets the position.
   */
  function Step(s: SimState, c: Candle, signal: StrategyResult): (r: Result<SimState>)
  {
    if !s.inPosition then
      if signal.action == Buy then
        if c.close == 0.0 then Failure(DivideByZero)
        else
          var amountToInvest := s.balance;
          Success(s.(position := amountToInvest / c.close, balance := s.balance - amountToInvest - amountToInvest,
            entryPrice := c.close, entryDate := c.openTime, targetPrice := signal.targetPrice,
            stopPrice := signal.stopPrice, inPosition := true))
      else Success(s)
    else
      match ExitReason(s, c, signal)
      case None => Success(s)
      case Some(reason) => Success(Exit(s, c, reason))
  }

  function Exit(s: SimState, c: Candle, reason: string): (r: SimState)
  {
    var exitPrice := ExitPrice(reason, c.close, s.targetPrice, s.stopPrice);
    var exitTotal := s.position * exitPrice;
    var pnl := exitTotal - s.position * s.entryPrice;
    s.(balance := s.balance + exitTotal,
      trades := s.trades + [BacktestTrade(TradeKind(reason, pnl), s.entryDate, c.openTime, s.entryPrice, exitPrice, pnl)],
      inPosition := false, position := 0.0, entryPrice := 0.0)
  }

  /** The loop body with the balance taken once, as the comment "invest the whole balance" means. */
  function StepCorrected(s: SimState, c: Candle, signal: StrategyResult): (r: Result<SimState>)
  {
    if !s.inPosition then
      if signal.action == Buy then
        if c.close == 0.0 then Failure(DivideByZero)
        else
          Success(s.(position := s.balance / c.close, balance := 0.0,
            entryPrice := c.close, entryDate := c.openTime, targetPrice := signal.targetPrice,
            stopPrice := signal.stopPrice, inPosition := true))
      else Success(s)
    else
      match ExitReason(s, c, signal)
      case None => Success(s)
      case Some(reason) => Success(Exit(s, c, reason))
  }

  /**
   * A step records a trade exactly when it leaves a position, and then
   * the position is reset; otherwise the trades stay as they are. A flat
   * state stays flat with a zero position unless the signal buys.
   */
  lemma StepTrades(s: SimState, c: Candle, signal: StrategyResult)
    requires Step(s, c, signal).Success?
    ensures var r := Step(s, c, signal).value;
      (s.inPosition && !r.inPosition ==>
        r.trades == s.trades + [r.trades[|s.trades|]] && r.position == 0.0 && r.entryPrice == 0.0) &&
      (!(s.inPosition && !r.inPosition) ==> r.trades == s.trades) &&
      (!s.inPosition && signal.action != Buy ==> r == s) &&
      (s.inPosition && ExitReason(s, c, signal).None? ==> r == s)
  {
  }

  /**
   * A closed trade's profit is the position times the move from entry to
   * exit, and the balance takes the whole exit value.
   */
  lemma ExitPnl(s: SimState, c: Candle, reason: string)
    ensures var r := Exit(s, c, reason);
      var exitPrice := ExitPrice(reason, c.close, s.targetPrice, s.stopPrice);
      r.trades[|s.trades|].pnl == s.position * (exitPrice - s.entryPrice) &&
      r.trades[|s.trades|].exitPrice == exitPrice && r.trades[|s.trades|].entryPrice == s.entryPrice &&
      r.balance == s.balance + s.position * exitPrice
  {
  }

  /**
   * As written, a buy from a balance `b` leaves `-b`, and after the round
   * trip the balance is the trade's profit alone, which is what the next
   * entry then invests.
   */
  lemma RoundTripAsWritten(s: SimState, buyCandle: Candle, buy: StrategyResult, exitCandle: Candle, reason: string)
    requires !s.inPosition && buy.action == Buy && buyCandle.close != 0.0
    ensures var held := Step(s, buyCandle, buy).value;
      held.inPosition && held.balance == -s.balance &&
      var closed := Exit(held, exitCandle, reason);
      closed.balance == closed.trades[|s.trades|].pnl
  {
    var held := Step(s, buyCandle, buy).value;
    assert held.position * buyCandle.close == s.balance;
  }

  /** Corrected, a buy leaves nothing free and the round trip returns the balance plus the trade's profit. */
  lemma RoundTripCorrected(s: SimState, buyCandle: Candle, buy: StrategyResult, exitCandle: Candle, reason: string)
    requires !s.inPosition && buy.action == Buy && buyCandle.close != 0.0
    ensures var held := StepCorrected(s, buyCandle, buy).value;
      held.inPosition && held.balance == 0.0 && held.position * held.entryPrice == s.balance &&
      var closed := Exit(held, exitCandle, reason);
      closed.balance == s.balance + closed.trades[|s.trades|].pnl
  {
    var held := StepCorrected(s, buyCandle, buy).value;
    assert held.position * buyCandle.close == s.balance;
  }

  /**
   * A concrete case: 100 in, a buy at 10 with its stop at 10, and the next
   * candle's low at the stop. The trade breaks even, yet as written the
   * balance ends at 0; corrected, it ends at 100.
   */
  lemma FlatRoundTripLosesBalance()
    ensures var s := InitialState(100.0);
      var c := Candle(0, 10.0, 10.0, 10.0, 10.0, 1.0);
      var buy := Signal(Buy, 0.0, 10.0, "");
      var closed := Step(Step(s, c, buy).value, c, DefaultResult());
      var closedCorrected := StepCorrected(StepCorrected(s, c, buy).value, c, DefaultResult());
      closed.Success? && closed.value.balance == 0.0 && |closed.value.trades| == 1 && closed.value.trades[0].pnl == 0.0 &&
      closedCorrected.Success? && closedCorrected.value.balance == 100.0
  {
    var s := InitialState(100.0);
    var c := Candle(0, 10.0, 10.0, 10.0, 10.0, 1.0);
    var buy := Signal(Buy, 0.0, 10.0, "");
    var held := Step(s, c, buy).value;
    assert ExitReason(held, c, DefaultResult()) == Some(StopLossExit);
    ExitPriceOfFixedReasons(c.close, held.targetPrice, held.stopPrice);
    var heldCorrected := StepCorrected(s, c, buy).value;
    assert ExitReason(heldCorrected, c, DefaultResult()) == Some(StopLossExit);
  }

  // ------------------------------------------------------------ the whole run

  /** The answer of a Golden Rose strategy with its default settings; with 350-candle SMAs it never throws. */
  function DefaultSignal(history: seq<Candle>, position: real): StrategyResult
  {
    GoldenRoseAnalyze(GoldenRoseDefaults, history, position).value
  }

  /**
   * The loop `for (i = 350; i < n; i++)` up to `n`: each pass asks the
   * strategy about the history up to and including candle `i` with the
   * current position, then steps; an exception ends the run.
   */
  function Simulate(signal: (seq<Candle>, real) -> StrategyResult, candles: seq<Candle>, init: SimState, n: int): (r: Result<SimState>)
    requires n <= |candles|
    decreases n
  {
    if n <= WarmUpPeriod then Success(init)
    else match Simulate(signal, candles, init, n - 1)
      case Failure(e) => Failure(e)
      case Success(s) => Step(s, candles[n - 1], signal(candles[..n], s.position))
  }

  /** Flat states have a zero position throughout, and trades are only ever appended. */
  lemma {:induction false} SimulateKeeps(signal: (seq<Candle>, real) -> StrategyResult, candles: seq<Candle>, init: SimState, n: int)
    requires n <= |candles|
    requires !init.inPosition && init.position == 0.0
    requires Simulate(signal, candles, init, n).Success?
    ensures var s := Simulate(signal, candles, init, n).value;
      (!s.inPosition ==> s.position == 0.0) && |init.trades| <= |s.trades| && s.trades[..|init.trades|] == init.trades
    decreases n
  {
    if n > WarmUpPeriod {
      SimulateKeeps(signal, candles, init, n - 1);
      var s := Simulate(signal, candles, init, n - 1).value;
      StepTrades(s, candles[n - 1], signal(candles[..n], s.position));
    }
  }

  /** With no more candles than the warm-up the loop does not run and no trade is made. */
  lemma ShortHistoryNoTrades(signal: (seq<Candle>, real) -> StrategyResult, candles: seq<Candle>, balance: real)
    requires |candles| <= WarmUpPeriod
    ensures Simulate(signal, candles, InitialState(balance), |candles|) == Success(InitialState(balance))
  {
  }

  /** An exception at candle `n - 1` ends the run with it. */
  lemma {:induction false} SimulateFails(signal: (seq<Candle>, real) -> StrategyResult, candles: seq<Candle>, init: SimState, n: int)
    requires n <= |candles| && Simulate(signal, candles, init, n).Failure?
    ensures Simulate(signal, candles, init, |candles|) == Simulate(signal, candles, init, n)
    decreases |candles| - n
  {
    if n < |candles| {
      assert Simulate(signal, candles, init, n + 1) == Simulate(signal, candles, init, n);
      SimulateFails(signal, candles, init, n + 1);
    }
  }

  // ------------------------------------------------------------ statistics

  predicate Won(t: BacktestTrade)
  {
    t.pnl > 0.0
  }

  predicate Lost(t: BacktestTrade)
  {
    t.pnl <= 0.0
  }

  function PnlOf(t: BacktestTrade): real
  {
    t.pnl
  }

  /**
   * The statistics: counts of winning and losing trades, the summed
   * profit, its percentage of the initial balance (a zero balance throws
   * on the division) and the win rate; the maximum drawdown is never set.
   */
  function Statistics(trades: seq<BacktestTrade>, initialBalance: real): (r: Result<BacktestResult>)
    ensures r.Failure? <==> initialBalance == 0.0
    ensures r.Success? ==>
      r.value.trades == trades && r.value.totalTrades == |trades| &&
      r.value.winningTrades + r.value.losingTrades == r.value.totalTrades &&
      r.value.totalPnl == SumOver(trades, PnlOf) &&
      r.value.totalPnlPercent * initialBalance == r.value.totalPnl * 100.0 &&
      (|trades| == 0 ==> r.value.winRate == 0.0) &&
      0.0 <= r.value.winRate <= 100.0 &&
      r.value.maxDrawdown == 0.0
  {
    if initialBalance == 0.0 then Failure(DivideByZero)
    else
      var total := |trades|;
      var winning := CountWhere(trades, Won);
      var losing := CountWhere(trades, Lost);
      CountWhereComplement(trades, Won, Lost);
      var totalPnl := SumOver(trades, PnlOf);
      var winRate := if total > 0 then WinRate(winning, total) else 0.0;
      Success(BacktestResult(total, winning, losing, totalPnl, (totalPnl / initialBalance) * 100.0, winRate, 0.0, trades))
  }

  function WinRate(winning: nat, total: nat): (r: real)
    requires winning <= total && total > 0
    ensures 0.0 <= r <= 100.0
  {
    DivCompare(winning as real, total as real, 1.0);
    (winning as real / total as real) * 100.0
  }

  /**
   * `RunBacktestAsync` from the fetched candles: the strategy is a new
   * Golden Rose whatever the request names, the loop runs from the warm-up
   * on, and the statistics close the run. Exceptions come back as
   * failures.
   */
  method RunBacktest(request: BacktestRequest, candles: seq<Candle>) returns (r: Result<BacktestResult>)
    ensures match Simulate(DefaultSignal, candles, InitialState(request.initialBalance), |candles|)
      case Failure(e) => r == Failure(e)
      case Success(s) => r == Statistics(s.trades, request.initialBalance)
  {
    var strategy := new GoldenRoseStrategy();
    var outcome := SimulationLoop(strategy, candles, InitialState(request.initialBalance));
    if outcome.Failure? {
      return Failure(outcome.error);
    }
    r := Statistics(outcome.value.trades, request.initialBalance);
  }

  /** The simulation loop, asking the strategy object at each candle. */
  method SimulationLoop(strategy: GoldenRoseStrategy, candles: seq<Candle>, init: SimState) returns (r: Result<SimState>)
    requires strategy.Settings() == GoldenRoseDefaults
    ensures r == Simulate(DefaultSignal, candles, init, |candles|)
  {
    var s := init;
    var i := WarmUpPeriod;
    while i < |candles|
      invariant WarmUpPeriod <= i && (i <= |candles| || |candles| < WarmUpPeriod)
      invariant Simulate(DefaultSignal, candles, init, if i <= |candles| then i else |candles|) == Success(s)
    {
      var history := candles[..i + 1];
      var signal := strategy.Analyze(history, s.position);
      assert signal.value == DefaultSignal(history, s.position);
      var next := Step(s, candles[i], signal.value);
      assert next == Simulate(DefaultSignal, candles, init, i + 1);
      if next.Failure? {
        SimulateFails(DefaultSignal, candles, init, i + 1);
        return next;
      }
      s := next.value;
      i := i + 1;
    }
    r := Success(s);
  }
}
