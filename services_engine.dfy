/**
 * `BotEngineService`: the background loop that enters waiting bots on a
 * buy signal and, for running bots, marks the PnL to the market and
 * closes the position on a strategy sell, the take-profit or the
 * stop-loss. The candles and the price come from the exchange and are
 * parameters; `None` candles stand for a failed kline request.
 */
module BotEngine {
  import opened Common
  import opened Listing
  import opened Trading
  import opened Intervals
  import opened StrategiesSimple
  import opened StrategiesSma

  // ------------------------------------------------------------ strategy and interval

  datatype EngineStrategy = MarketBuyEngine | GoldenRoseEngine

  /** `GetStrategy`: the market-buy id gets the market-buy strategy, every other id Golden Rose. */
  function GetStrategy(id: string): (s: EngineStrategy)
    ensures s == MarketBuyEngine <==> id == MarketBuyId
  {
    if id == MarketBuyId then MarketBuyEngine
    else if id == "strategy-golden-rose" then GoldenRoseEngine
    else GoldenRoseEngine
  }

  /** `GetKlineInterval`: the twelve codes it knows, else one hour. */
  function GetKlineInterval(code: string): (k: KlineInterval)
  {
    match code
    case "1m" => OneMinute
    case "3m" => ThreeMinutes
    case "5m" => FiveMinutes
    case "15m" => FifteenMinutes
    case "30m" => ThirtyMinutes
    case "1h" => OneHour
    case "2h" => TwoHour
    case "4h" => FourHour
    case "6h" => SixHour
    case "8h" => EightHour
    case "12h" => TwelveHour
    case "1d" => OneDay
    case _ => OneHour
  }

  /** Every interval but the week is read back from its own code; the week's code and unknown codes give one hour. */
  lemma KlineIntervalRoundTrip(k: KlineInterval, code: string)
    ensures k != OneWeek ==> GetKlineInterval(Code(k)) == k
    ensures (forall j :: Code(j) != code) || code == Code(OneWeek) ==> GetKlineInterval(code) == OneHour
  {
    if (forall j :: Code(j) != code) {
      assert code != Code(OneMinute) && code != Code(ThreeMinutes) && code != Code(FiveMinutes);
      assert code != Code(FifteenMinutes) && code != Code(ThirtyMinutes) && code != Code(OneHour);
      assert code != Code(TwoHour) && code != Code(FourHour) && code != Code(SixHour);
      assert code != Code(EightHour) && code != Code(TwelveHour) && code != Code(OneDay);
    }
  }

  /**
   * `strategy.Analyze(candles, balance, position)` on a freshly built
   * strategy, as the engine builds one per call. Golden Rose keeps its
   * default periods 111/350, so it never fails; it buys only when flat and
   * sells only with a position, and acts on 350 candles or more.
   */
  method AnalyzeWith(strategy: EngineStrategy, candles: seq<Candle>, position: real) returns (r: StrategyResult)
    ensures strategy == MarketBuyEngine ==> r == MarketBuyAnalyze(position)
    ensures strategy == GoldenRoseEngine ==>
      (r.action != NoTrade ==> |candles| >= 350) &&
      (r.action == Buy ==> position == 0.0) &&
      (r.action == Sell ==> position != 0.0)
  {
    if strategy == MarketBuyEngine {
      r := MarketBuyAnalyze(position);
    } else {
      var g := new GoldenRoseStrategy();
      var outcome := g.Analyze(candles, position);
      r := outcome.value;
    }
  }

  // ------------------------------------------------------------ entry

  /** The fixed text of the engine's messages; amounts and prices follow it in the source. */
  const NoFundsLog := "⚠️ ALIM SİNYALİ GELDİ ANCAK BAKİYE YETERSİZ!"
  const EntryLog := "⚡ SİNYAL GELDİ: Alım Yapıldı!"

  function NoFundsSystemLog(symbol: string): string
  {
    "Yetersiz Bakiye: " + symbol
  }

  function EntrySystemLog(symbol: string): string
  {
    "Bot İşlemi Başladı: " + symbol
  }

  function EntryErrorLog(symbol: string, message: string): string
  {
    "Bot Hatası (" + symbol + "): " + message
  }

  function AutoBuyDescription(b: Bot): string
  {
    "Otomatik Alım: " + b.symbol + " (" + b.strategyName + ")"
  }

  /** Setting the protection levels from a zero price divides by zero. */
  predicate ProtectionFails(price: real, signal: StrategyResult)
  {
    price == 0.0 && (signal.targetPrice > 0.0 || signal.stopPrice > 0.0)
  }

  /** The take-profit a signal sets, as a percentage above the entry price; kept when the signal has no target. */
  function TakeProfitFrom(b: Bot, price: real, signal: StrategyResult): (tp: Option<real>)
    requires !ProtectionFails(price, signal)
    ensures signal.targetPrice > 0.0 ==> tp == Some((signal.targetPrice - price) / price * 100.0)
    ensures signal.targetPrice <= 0.0 ==> tp == b.takeProfit
  {
    if signal.targetPrice > 0.0 then Some((signal.targetPrice - price) / price * 100.0) else b.takeProfit
  }

  /** The stop-loss a signal sets, as a percentage below the entry price; kept when the signal has no stop. */
  function StopLossFrom(b: Bot, price: real, signal: StrategyResult): (sl: Option<real>)
    requires !ProtectionFails(price, signal)
    ensures signal.stopPrice > 0.0 ==> sl == Some((price - signal.stopPrice) / price * 100.0)
    ensures signal.stopPrice <= 0.0 ==> sl == b.stopLoss
  {
    if signal.stopPrice > 0.0 then Some((price - signal.stopPrice) / price * 100.0) else b.stopLoss
  }

  /** A target above a positive entry price is a positive take-profit; a stop below it a positive stop-loss. */
  lemma ProtectionSigns(b: Bot, price: real, signal: StrategyResult)
    requires price > 0.0
    ensures signal.targetPrice > price ==> TakeProfitFrom(b, price, signal).value > 0.0
    ensures 0.0 < signal.stopPrice < price ==> StopLossFrom(b, price, signal).value > 0.0
  {
    if signal.targetPrice > price {
      DivPositive(signal.targetPrice - price, price);
    }
    if 0.0 < signal.stopPrice < price {
      DivPositive(price - signal.stopPrice, price);
    }
  }

  lemma DivPositive(a: real, b: real)
    requires a > 0.0 && b > 0.0
    ensures a / b * 100.0 > 0.0
  {
    assert a / b > 0.0;
  }

  /** The bot once in its position: running at `price` with no PnL yet, and the signal's protection levels. */
  function EnteredRow(b: Bot, price: real, signal: StrategyResult, now: int): (e: Bot)
    requires !ProtectionFails(price, signal)
    ensures e.status == Running && e.entryPrice == price && e.currentPnl == 0.0 && e.currentPnlPercent == 0.0
    ensures e.takeProfit == TakeProfitFrom(b, price, signal) && e.stopLoss == StopLossFrom(b, price, signal)
    ensures e.logs == b.logs + [LogEntry(EntryLog, Info, now)]
    ensures e.id == b.id && e.amount == b.amount && e.strategyName == b.strategyName
  {
    b.(status := Running, entryPrice := price, currentPnl := 0.0, currentPnlPercent := 0.0,
       takeProfit := TakeProfitFrom(b, price, signal), stopLoss := StopLossFrom(b, price, signal),
       logs := b.logs + [LogEntry(EntryLog, Info, now)])
  }

  /** Debits the bot's amount into the locked balance, with a `BotInvestment` transaction. */
  method LockAmount(db: TradingDb, b: Bot, now: int)
    requires db.wallet != null
    modifies db, db.wallet
    ensures db.wallet == old(db.wallet) && db.bots == old(db.bots) && db.systemLogs == old(db.systemLogs)
    ensures db.wallet.balance == old(db.wallet.balance) - b.amount
    ensures db.wallet.lockedBalance == old(db.wallet.lockedBalance) + b.amount
    ensures db.wallet.lastUpdated == now
    ensures db.transactions == old(db.transactions) + [WalletTransaction(-b.amount, BotInvestment, AutoBuyDescription(b), now)]
    ensures db.wallet.Total() == old(db.wallet.Total())
  {
    db.wallet.balance := db.wallet.balance - b.amount;
    db.wallet.lockedBalance := db.wallet.lockedBalance + b.amount;
    db.wallet.lastUpdated := now;
    db.transactions := db.transactions + [WalletTransaction(-b.amount, BotInvestment, AutoBuyDescription(b), now)];
  }

  /**
   * The part of `CheckEntrySignal` after the amount is locked: an empty
   * candle list is logged as an error and the bot keeps waiting; a zero
   * last close with a target or stop makes the bot run without protection
   * levels; otherwise the bot enters at the last close.
   */
  method EnterAtLastClose(db: TradingDb, i: nat, candles: seq<Candle>, signal: StrategyResult, now: int)
    requires i < |db.bots|
    modifies db
    ensures db.wallet == old(db.wallet) && db.transactions == old(db.transactions)
    ensures var b := old(db.bots)[i];
      if |candles| == 0 then
        db.bots == old(db.bots) &&
        db.systemLogs == old(db.systemLogs) + [SystemLog(EntryErrorLog(b.symbol, NoElements), Error, b.id)]
      else
        var price := candles[|candles| - 1].close;
        if ProtectionFails(price, signal) then
          db.bots == old(db.bots)[i := b.(status := Running, entryPrice := price, currentPnl := 0.0, currentPnlPercent := 0.0)] &&
          db.systemLogs == old(db.systemLogs) + [SystemLog(EntryErrorLog(b.symbol, DivideByZero), Error, b.id)]
        else
          db.bots == old(db.bots)[i := EnteredRow(b, price, signal, now)] &&
          db.systemLogs == old(db.systemLogs) + [SystemLog(EntrySystemLog(b.symbol), Info, b.id)]
    ensures |db.bots| == |old(db.bots)|
    ensures db.bots[i].amount == old(db.bots)[i].amount && db.bots[i].strategyName == old(db.bots)[i].strategyName
    ensures |candles| > 0 ==> db.bots[i].status == Running && db.bots[i].entryPrice == candles[|candles| - 1].close
    ensures |candles| == 0 ==> db.bots[i] == old(db.bots)[i]
    ensures LockedDemand(db.bots) == LockedDemand(old(db.bots)) - LockOf(old(db.bots)[i]) + LockOf(db.bots[i])
  {
    var bot := db.bots[i];
    if |candles| == 0 {
      db.systemLogs := db.systemLogs + [SystemLog(EntryErrorLog(bot.symbol, NoElements), Error, bot.id)];
      return;
    }
    var price := candles[|candles| - 1].close;
    var running := bot.(status := Running, entryPrice := price, currentPnl := 0.0, currentPnlPercent := 0.0);
    if ProtectionFails(price, signal) {
      LockedDemandUpdate(db.bots, i, running);
      db.bots := db.bots[i := running];
      db.systemLogs := db.systemLogs + [SystemLog(EntryErrorLog(bot.symbol, DivideByZero), Error, bot.id)];
      return;
    }
    var entered := EnteredRow(bot, price, signal, now);
    LockedDemandUpdate(db.bots, i, entered);
    db.bots := db.bots[i := entered];
    db.systemLogs := db.systemLogs + [SystemLog(EntrySystemLog(bot.symbol), Info, bot.id)];
  }

  /**
   * `CheckEntrySignal` for the waiting bot at `i`, as written. On a buy
   * signal without a wallet or with too little free balance the bot gets a
   * warning log and nothing else changes. Otherwise the amount is locked —
   * a second time for a market-buy bot, whose amount was locked at
   * creation — and the bot enters at the last close. Two exceptions are
   * caught after the wallet was changed, and the tracked changes are still
   * saved: an empty candle list (the bot keeps waiting) and a zero price
   * with a target or stop (the bot runs without protection levels or entry
   * log). Returns the signal when the candles were fetched.
   */
  method CheckEntrySignal(db: TradingDb, i: nat, klines: Option<seq<Candle>>, now: int) returns (signal: Option<StrategyResult>)
    requires i < |db.bots| && db.bots[i].status == WaitingForEntry
    modifies db, WalletFrame(db)
    ensures db.wallet == old(db.wallet) && |db.bots| == |old(db.bots)|
    ensures klines.None? <==> signal.None?
    ensures signal.None? || signal.value.action != Buy ==> unchanged(db) && unchanged(WalletFrame(db))
    ensures signal.Some? && signal.value.action == Buy ==>
      var b := old(db.bots)[i];
      var candles := klines.value;
      if old(db.wallet) == null || old(db.wallet.balance) < b.amount then
        unchanged(WalletFrame(db)) && db.transactions == old(db.transactions) &&
        db.bots == old(db.bots)[i := b.(logs := b.logs + [LogEntry(NoFundsLog, Warning, now)])] &&
        db.systemLogs == old(db.systemLogs) + [SystemLog(NoFundsSystemLog(b.symbol), Warning, b.id)]
      else
        db.wallet.balance == old(db.wallet.balance) - b.amount &&
        db.wallet.lockedBalance == old(db.wallet.lockedBalance) + b.amount &&
        db.wallet.lastUpdated == now &&
        db.transactions == old(db.transactions) + [WalletTransaction(-b.amount, BotInvestment, AutoBuyDescription(b), now)] &&
        if |candles| == 0 then
          db.bots == old(db.bots) &&
          db.systemLogs == old(db.systemLogs) + [SystemLog(EntryErrorLog(b.symbol, NoElements), Error, b.id)]
        else
          var price := candles[|candles| - 1].close;
          if ProtectionFails(price, signal.value) then
            db.bots == old(db.bots)[i := b.(status := Running, entryPrice := price, currentPnl := 0.0, currentPnlPercent := 0.0)] &&
            db.systemLogs == old(db.systemLogs) + [SystemLog(EntryErrorLog(b.symbol, DivideByZero), Error, b.id)]
          else
            db.bots == old(db.bots)[i := EnteredRow(b, price, signal.value, now)] &&
            db.systemLogs == old(db.systemLogs) + [SystemLog(EntrySystemLog(b.symbol), Info, b.id)]
    ensures db.wallet != null ==> db.wallet.Total() == old(db.wallet.Total())
    ensures (old(db.wallet) != null && old(db.wallet.balance) >= old(db.bots)[i].amount &&
      signal.Some? && signal.value.action == Buy && old(db.bots)[i].strategyName == MarketBuyId) ==>
      db.wallet.lockedBalance == old(db.wallet.lockedBalance) + old(db.bots)[i].amount &&
      (old(db.LocksConsistent()) && old(db.bots)[i].amount != 0.0 ==> !db.LocksConsistent())
  {
    var bot := db.bots[i];
    var strategy := GetStrategy(bot.strategyName);
    if klines.None? {
      return None;
    }
    var candles := klines.value;
    var sig := AnalyzeWith(strategy, candles, 0.0);
    signal := Some(sig);
    if sig.action != Buy {
      return;
    }
    var wallet := db.wallet;
    if wallet == null || wallet.balance < bot.amount {
      db.systemLogs := db.systemLogs + [SystemLog(NoFundsSystemLog(bot.symbol), Warning, bot.id)];
      db.bots := db.bots[i := bot.(logs := bot.logs + [LogEntry(NoFundsLog, Warning, now)])];
      return;
    }
    LockAmount(db, bot, now);
    EnterAtLastClose(db, i, candles, sig, now);
  }

  /**
   * `CheckEntrySignal` with the amount of a market-buy bot taken only once,
   * at creation: on entry such a bot neither needs nor debits the free
   * balance again. With that, an entry keeps the wallet matching the bots.
   */
  method CheckEntrySignalCorrected(db: TradingDb, i: nat, klines: Option<seq<Candle>>, now: int) returns (signal: Option<StrategyResult>)
    requires i < |db.bots| && db.bots[i].status == WaitingForEntry
    modifies db, WalletFrame(db)
    ensures db.wallet == old(db.wallet) && |db.bots| == |old(db.bots)|
    ensures klines.None? <==> signal.None?
    ensures signal.None? || signal.value.action != Buy ==> unchanged(db) && unchanged(WalletFrame(db))
    ensures signal.Some? && signal.value.action == Buy && db.bots[i].status == Running && |klines.value| > 0 ==>
      db.bots[i].entryPrice == klines.value[|klines.value| - 1].close
    ensures old(db.bots)[i].strategyName == MarketBuyId ==> unchanged(WalletFrame(db)) && db.transactions == old(db.transactions)
    ensures db.wallet != null ==> db.wallet.Total() == old(db.wallet.Total())
    ensures old(db.LocksConsistent()) ==> db.LocksConsistent()
  {
    var bot := db.bots[i];
    var strategy := GetStrategy(bot.strategyName);
    if klines.None? {
      return None;
    }
    var candles := klines.value;
    var sig := AnalyzeWith(strategy, candles, 0.0);
    signal := Some(sig);
    if sig.action != Buy {
      return;
    }
    var alreadyLocked := bot.strategyName == MarketBuyId;
    var wallet := db.wallet;
    if !alreadyLocked {
      if wallet == null || wallet.balance < bot.amount {
        db.systemLogs := db.systemLogs + [SystemLog(NoFundsSystemLog(bot.symbol), Warning, bot.id)];
        db.bots := db.bots[i := bot.(logs := bot.logs + [LogEntry(NoFundsLog, Warning, now)])];
        LockedDemandUpdate(old(db.bots), i, db.bots[i]);
        return;
      }
      LockAmount(db, bot, now);
    }
    // A non-market-buy bot only buys on 350 candles or more.
    EnterAtLastClose(db, i, candles, sig, now);
  }

  // ------------------------------------------------------------ exit

  /** `(price - entry) / entry * 100`. */
  function PnlPercentOf(price: real, entry: real): real
    requires entry != 0.0
  {
    (price - entry) / entry * 100.0
  }

  /** `amount * (pnlPercent / 100)`. */
  function PnlAmountOf(amount: real, price: real, entry: real): real
    requires entry != 0.0
  {
    amount * (PnlPercentOf(price, entry) / 100.0)
  }

  /** The PnL is the amount's share of the price change: positive exactly when the price is above the entry. */
  lemma PnlAmountMeaning(amount: real, price: real, entry: real)
    requires entry > 0.0 && amount > 0.0
    ensures PnlAmountOf(amount, price, entry) == amount * (price - entry) / entry
    ensures PnlAmountOf(amount, price, entry) > 0.0 <==> price > entry
    ensures PnlAmountOf(amount, price, entry) == 0.0 <==> price == entry
  {
    var d := price - entry;
    assert PnlPercentOf(price, entry) / 100.0 == d / entry;
    if d > 0.0 {
      assert d / entry > 0.0;
      MulNonNegative(amount, d / entry);
      assert amount * (d / entry) > 0.0;
    } else if d < 0.0 {
      assert d / entry < 0.0;
      assert amount * (-(d / entry)) > 0.0;
    }
  }

  const TakeProfitReason := "🎯 KAR AL"
  const StopLossReason := "🛑 ZARAR DURDUR"

  datatype Exit = Exit(status: BotStatus, reason: string)

  /**
   * The exit rule, in order: a strategy sell (Completed if the trade made
   * money, else Stopped), then the take-profit, then the stop-loss.
   */
  function ExitDecision(strategySell: Option<string>, pnlAmount: real, pnlPercent: real, takeProfit: Option<real>, stopLoss: Option<real>): (r: Option<Exit>)
    ensures strategySell.Some? ==> r == Some(Exit(if pnlAmount > 0.0 then Completed else Stopped, strategySell.value))
    ensures strategySell.None? && takeProfit.Some? && pnlPercent >= takeProfit.value ==> r == Some(Exit(Completed, TakeProfitReason))
    ensures strategySell.None? && !(takeProfit.Some? && pnlPercent >= takeProfit.value) && stopLoss.Some? && pnlPercent <= -stopLoss.value ==>
      r == Some(Exit(Stopped, StopLossReason))
    ensures r.None? <==>
      strategySell.None? && !(takeProfit.Some? && pnlPercent >= takeProfit.value) && !(stopLoss.Some? && pnlPercent <= -stopLoss.value)
  {
    if strategySell.Some? then Some(Exit(if pnlAmount > 0.0 then Completed else Stopped, strategySell.value))
    else if takeProfit.Some? && pnlPercent >= takeProfit.value then Some(Exit(Completed, TakeProfitReason))
    else if stopLoss.Some? && pnlPercent <= -stopLoss.value then Some(Exit(Stopped, StopLossReason))
    else None
  }

  /**
   * A bot completes only on a profitable strategy sell or on its
   * take-profit; with non-negative protection levels a completion by the
   * take-profit means a non-negative PnL and a stop by the stop-loss a
   * non-positive one.
   */
  lemma ExitStatusMeaning(strategySell: Option<string>, pnlAmount: real, pnlPercent: real, takeProfit: Option<real>, stopLoss: Option<real>)
    requires takeProfit.Some? ==> takeProfit.value >= 0.0
    requires stopLoss.Some? ==> stopLoss.value >= 0.0
    ensures var r := ExitDecision(strategySell, pnlAmount, pnlPercent, takeProfit, stopLoss);
      (r.Some? && r.value.status == Completed <==>
        (strategySell.Some? && pnlAmount > 0.0) || (strategySell.None? && takeProfit.Some? && pnlPercent >= takeProfit.value)) &&
      (r.Some? && strategySell.None? && r.value.status == Completed ==> pnlPercent >= 0.0) &&
      (r.Some? && strategySell.None? && r.value.status == Stopped ==> pnlPercent <= 0.0)
  {
  }

  const ClosedLog := "🏁 İşlem Sonlandı."

  function ClosedDescription(symbol: string, reason: string): string
  {
    "Bot Kapatıldı: " + symbol + " | " + reason
  }

  function ClosedSystemLog(symbol: string): string
  {
    "Bot Kapandı: " + symbol
  }

  /**
   * `ClosePosition`: the bot takes its final status and two info logs (the
   * reason and the closing line); the wallet, if any, releases the amount
   * and pays back the amount plus the PnL with a `BotReturn` transaction.
   */
  method ClosePosition(db: TradingDb, i: nat, finalStatus: BotStatus, reason: string, pnlAmount: real, now: int)
    requires i < |db.bots|
    modifies db, WalletFrame(db)
    ensures db.wallet == old(db.wallet)
    ensures var b := old(db.bots)[i];
      db.bots == old(db.bots)[i := b.(status := finalStatus, logs := b.logs + [LogEntry(reason, Info, now), LogEntry(ClosedLog, Info, now)])] &&
      db.systemLogs == old(db.systemLogs) + [SystemLog(ClosedSystemLog(b.symbol), Info, b.id)]
    ensures db.wallet != null ==>
      var b := old(db.bots)[i];
      db.wallet.lockedBalance == old(db.wallet.lockedBalance) - b.amount &&
      db.wallet.balance == old(db.wallet.balance) + (b.amount + pnlAmount) &&
      db.wallet.lastUpdated == now &&
      db.wallet.Total() == old(db.wallet.Total()) + pnlAmount &&
      db.transactions == old(db.transactions) + [WalletTransaction(b.amount + pnlAmount, BotReturn, ClosedDescription(b.symbol, reason), now)]
    ensures db.wallet == null ==> db.transactions == old(db.transactions)
    ensures old(db.bots)[i].status == Running && (finalStatus == Completed || finalStatus == Stopped) && old(db.LocksConsistent()) ==>
      db.LocksConsistent()
  {
    var bot := db.bots[i];
    var closed := bot.(status := finalStatus, logs := bot.logs + [LogEntry(reason, Info, now), LogEntry(ClosedLog, Info, now)]);
    LockedDemandUpdate(db.bots, i, closed);
    db.bots := db.bots[i := closed];
    var wallet := db.wallet;
    if wallet != null {
      wallet.lockedBalance := wallet.lockedBalance - bot.amount;
      var returnAmount := bot.amount + pnlAmount;
      wallet.balance := wallet.balance + returnAmount;
      wallet.lastUpdated := now;
      db.transactions := db.transactions + [WalletTransaction(returnAmount, BotReturn, ClosedDescription(bot.symbol, reason), now)];
    }
    db.systemLogs := db.systemLogs + [SystemLog(ClosedSystemLog(bot.symbol), Info, bot.id)];
  }

  const InPositionLog := "[İşlemde]"

  function ExitErrorLog(symbol: string, message: string): string
  {
    "Bot Çıkış Hatası (" + symbol + "): " + message
  }

  /**
   * The progress line: written when the clock's second is a multiple of 30
   * and the last log is more than five minutes old (or there is none).
   */
  predicate ProgressLogDue(logs: seq<LogEntry>, now: int)
  {
    (now % 60) % 30 == 0 && (|logs| == 0 || now - logs[|logs| - 1].timestamp > 300)
  }

  /**
   * `CheckExitSignalAndPnl` for the running bot at `i`, with the market
   * price `price`. A zero price changes nothing; a zero entry price throws
   * (an error in the system log, nothing else). Otherwise `MarkAndExit`
   * goes on.
   */
  method CheckExitSignalAndPnl(db: TradingDb, i: nat, price: real, klines: Option<seq<Candle>>, now: int) returns (exit: Option<Exit>)
    requires i < |db.bots| && db.bots[i].status == Running
    modifies db, WalletFrame(db)
    ensures db.wallet == old(db.wallet) && |db.bots| == |old(db.bots)|
    ensures price == 0.0 ==> exit.None? && unchanged(db) && unchanged(WalletFrame(db))
    ensures price != 0.0 && old(db.bots)[i].entryPrice == 0.0 ==>
      exit.None? && unchanged(WalletFrame(db)) && db.bots == old(db.bots) && db.transactions == old(db.transactions) &&
      db.systemLogs == old(db.systemLogs) + [SystemLog(ExitErrorLog(old(db.bots)[i].symbol, DivideByZero), Error, old(db.bots)[i].id)]
    ensures price != 0.0 && old(db.bots)[i].entryPrice != 0.0 ==>
      var b := old(db.bots)[i];
      var pct := PnlPercentOf(price, b.entryPrice);
      var pnl := PnlAmountOf(b.amount, price, b.entryPrice);
      db.bots[i].currentPnl == pnl && db.bots[i].currentPnlPercent == pct &&
      (exit.Some? ==>
        db.bots[i].status == exit.value.status &&
        (db.wallet != null ==> db.wallet.Total() == old(db.wallet.Total()) + pnl)) &&
      (exit.None? ==> db.bots[i].status == Running && unchanged(WalletFrame(db)) && db.transactions == old(db.transactions)) &&
      (klines.None? ==> exit == ExitDecision(None, pnl, pct, b.takeProfit, b.stopLoss))
    ensures old(db.LocksConsistent()) ==> db.LocksConsistent()
  {
    if price == 0.0 {
      return None;
    }
    var bot := db.bots[i];
    if bot.entryPrice == 0.0 {
      db.systemLogs := db.systemLogs + [SystemLog(ExitErrorLog(bot.symbol, DivideByZero), Error, bot.id)];
      return None;
    }
    exit := MarkAndExit(db, i, price, klines, now);
  }

  /**
   * The strategy's opinion on an open position of amount/entry coins: the
   * description of its sell signal, if it gives one. Without candles there
   * is none, the market-buy strategy never sells, and Golden Rose sells
   * only from 350 candles on.
   */
  method StrategySell(bot: Bot, klines: Option<seq<Candle>>) returns (sell: Option<string>)
    requires bot.entryPrice != 0.0
    ensures klines.None? ==> sell.None?
    ensures GetStrategy(bot.strategyName) == MarketBuyEngine ==> sell.None?
    ensures sell.Some? ==> klines.Some? && |klines.value| >= 350
  {
    sell := None;
    var strategy := GetStrategy(bot.strategyName);
    if klines.Some? {
      var sig := AnalyzeWith(strategy, klines.value, bot.amount / bot.entryPrice);
      if sig.action == Sell {
        sell := Some(sig.description);
      }
    }
  }

  /**
   * The body of `CheckExitSignalAndPnl` past its guards: the PnL is marked
   * to the price, the strategy is asked with the position size
   * amount/entry, and `ExitDecision` decides whether to close; a bot that
   * stays open may get the progress line.
   */
  method MarkAndExit(db: TradingDb, i: nat, price: real, klines: Option<seq<Candle>>, now: int) returns (exit: Option<Exit>)
    requires i < |db.bots| && db.bots[i].status == Running
    requires price != 0.0 && db.bots[i].entryPrice != 0.0
    modifies db, WalletFrame(db)
    ensures db.wallet == old(db.wallet) && |db.bots| == |old(db.bots)|
    ensures var b := old(db.bots)[i];
      var pct := PnlPercentOf(price, b.entryPrice);
      var pnl := PnlAmountOf(b.amount, price, b.entryPrice);
      db.bots[i].currentPnl == pnl && db.bots[i].currentPnlPercent == pct &&
      (exit.Some? ==>
        db.bots[i].status == exit.value.status &&
        (db.wallet != null ==> db.wallet.Total() == old(db.wallet.Total()) + pnl)) &&
      (exit.None? ==> db.bots[i].status == Running && unchanged(WalletFrame(db)) && db.transactions == old(db.transactions)) &&
      (klines.None? ==> exit == ExitDecision(None, pnl, pct, b.takeProfit, b.stopLoss))
    ensures old(db.LocksConsistent()) ==> db.LocksConsistent()
  {
    var bot := db.bots[i];
    var pnlPercent := PnlPercentOf(price, bot.entryPrice);
    var pnlAmount := PnlAmountOf(bot.amount, price, bot.entryPrice);
    var marked := bot.(currentPnl := pnlAmount, currentPnlPercent := pnlPercent);
    LockedDemandUpdate(db.bots, i, marked);
    db.bots := db.bots[i := marked];

    var strategySell := StrategySell(bot, klines);
    exit := ExitDecision(strategySell, pnlAmount, pnlPercent, bot.takeProfit, bot.stopLoss);
    if exit.Some? {
      ClosePosition(db, i, exit.value.status, exit.value.reason, pnlAmount, now);
    } else if ProgressLogDue(marked.logs, now) {
      var logged := marked.(logs := marked.logs + [LogEntry(InPositionLog, Info, now)]);
      LockedDemandUpdate(db.bots, i, logged);
      db.bots := db.bots[i := logged];
    }
  }
}
