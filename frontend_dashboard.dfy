/**
 * The dashboard page of the web client: the list of bots kept live by the
 * hub's `BotUpdated` and `LogAdded` messages, the toasts shown when a bot
 * stops running, the split into active and finished bots, and the form
 * that starts a bot.
 *
 * React state is a class whose fields the page's updaters reassign; the
 * updaters themselves are functions of the previous state. Numbers are
 * reals, and `Number(...)` on a text field is the oracle `number`.
 */
module DashboardPage {
  import opened Common
  import opened Listing

  datatype BotStatus = Running | Stopped | Paused | Completed | WaitingForEntry

  datatype LogEntry = LogEntry(id: int, message: string, level: int, timestamp: string)

  /** The fields of the client's `Bot` that the page reads; `logs` may be absent. */
  datatype Bot = Bot(id: string, symbol: string, status: BotStatus, pnlPercent: real, logs: Option<seq<LogEntry>>)

  /** At most this many log lines are kept per bot once a new line arrives. */
  const MaxLogs := 50

  /** `findIndex` by id: the first position of a bot with this id, or -1. */
  function IndexOfBot(bots: seq<Bot>, id: string): (r: int)
    ensures -1 <= r < |bots|
    ensures r >= 0 ==> bots[r].id == id && forall j :: 0 <= j < r ==> bots[j].id != id
    ensures r == -1 <==> forall j :: 0 <= j < |bots| ==> bots[j].id != id
  {
    if |bots| == 0 then -1
    else if bots[0].id == id then 0
    else
      var rest := IndexOfBot(bots[1..], id);
      assert forall j :: 1 <= j < |bots| ==> bots[j] == bots[1..][j - 1];
      if rest == -1 then -1 else rest + 1
  }

  // ------------------------------------------------------------ BotUpdated

  /** The `BotUpdated` updater: the bot with the same id is replaced where it stands, else the bot goes first. */
  function BotUpdated(prev: seq<Bot>, updated: Bot): seq<Bot>
  {
    var index := IndexOfBot(prev, updated.id);
    if index > -1 then prev[index := updated] else [updated] + prev
  }

  /**
   * After an update the list grows by at most one bot, the update is the
   * bot the list finds under its id, a known bot keeps its place while
   * every other position is untouched, and nothing but the update and the
   * previous bots is in the list.
   */
  lemma BotUpdatedFacts(prev: seq<Bot>, updated: Bot)
    ensures var r := BotUpdated(prev, updated);
      |prev| <= |r| <= |prev| + 1 &&
      IndexOfBot(r, updated.id) >= 0 && r[IndexOfBot(r, updated.id)] == updated &&
      (forall b :: b in r ==> b == updated || b in prev) &&
      (forall b :: b in prev && b.id != updated.id ==> b in r)
    ensures var k := IndexOfBot(prev, updated.id);
      k >= 0 ==> |BotUpdated(prev, updated)| == |prev| && IndexOfBot(BotUpdated(prev, updated), updated.id) == k &&
                 forall j :: 0 <= j < |prev| && j != k ==> BotUpdated(prev, updated)[j] == prev[j]
  {
    var k := IndexOfBot(prev, updated.id);
    var r := BotUpdated(prev, updated);
    if k >= 0 {
      assert forall j :: 0 <= j < k ==> r[j].id != updated.id;
      assert r[k].id == updated.id;
      forall b | b in prev && b.id != updated.id ensures b in r {
        var j :| 0 <= j < |prev| && prev[j] == b;
        assert r[j] == b;
      }
    } else {
      assert r[0] == updated;
      forall b | b in prev ensures b in r {
        var j :| 0 <= j < |prev| && prev[j] == b;
        assert r[j + 1] == b;
      }
    }
  }

  /** Delivering the same update twice is the same as once. */
  lemma BotUpdatedIdempotent(prev: seq<Bot>, updated: Bot)
    ensures BotUpdated(BotUpdated(prev, updated), updated) == BotUpdated(prev, updated)
  {
    BotUpdatedFacts(prev, updated);
  }

  // ------------------------------------------------------------ LogAdded

  /** `[...logs, log]`, then the oldest line is dropped when there are more than `MaxLogs`. */
  function AppendLog(logs: Option<seq<LogEntry>>, log: LogEntry): seq<LogEntry>
  {
    var appended := (if logs.Some? then logs.value else []) + [log];
    if |appended| > MaxLogs then appended[1..] else appended
  }

  /**
   * The new line is last, the result is the newest lines of the old ones
   * followed by it, and it grows only while it is below `MaxLogs`: a list
   * of at most `MaxLogs` lines stays within it.
   */
  lemma AppendLogFacts(logs: Option<seq<LogEntry>>, log: LogEntry)
    ensures var old_ := if logs.Some? then logs.value else [];
      var r := AppendLog(logs, log);
      |r| > 0 && r[|r| - 1] == log &&
      |r| <= |old_| + 1 && r == (old_ + [log])[|old_| + 1 - |r|..] &&
      (|old_| < MaxLogs ==> |r| == |old_| + 1) &&
      (|old_| >= MaxLogs ==> |r| == |old_|) &&
      |r| <= if |old_| > MaxLogs then |old_| else MaxLogs
  {
  }

  function WithLog(b: Bot, botId: string, log: LogEntry): Bot
  {
    if b.id == botId then b.(logs := Some(AppendLog(b.logs, log))) else b
  }

  /** The `LogAdded` updater: the line goes to every bot with that id, the others are returned as they were. */
  function LogAdded(prev: seq<Bot>, botId: string, log: LogEntry): (r: seq<Bot>)
    ensures |r| == |prev|
    ensures forall i :: 0 <= i < |prev| ==> r[i] == WithLog(prev[i], botId, log)
  {
    seq(|prev|, i requires 0 <= i < |prev| => WithLog(prev[i], botId, log))
  }

  /** Every bot that carries logs carries at most `MaxLogs` lines. */
  predicate LogsBounded(bots: seq<Bot>)
  {
    forall i :: 0 <= i < |bots| && bots[i].logs.Some? ==> |bots[i].logs.value| <= MaxLogs
  }

  /**
   * A new line changes only the logs of the bots with its id, ends their
   * logs, and keeps every bot's log within `MaxLogs` when it was before.
   */
  lemma LogAddedFacts(prev: seq<Bot>, botId: string, log: LogEntry)
    ensures var r := LogAdded(prev, botId, log);
      (forall i :: 0 <= i < |prev| ==> r[i] == prev[i].(logs := r[i].logs)) &&
      (forall i :: 0 <= i < |prev| && prev[i].id != botId ==> r[i] == prev[i]) &&
      (forall i :: 0 <= i < |prev| && prev[i].id == botId ==>
         r[i].logs.Some? && |r[i].logs.value| > 0 && r[i].logs.value[|r[i].logs.value| - 1] == log)
    ensures LogsBounded(prev) ==> LogsBounded(LogAdded(prev, botId, log))
  {
    forall i | 0 <= i < |prev| && prev[i].id == botId
      ensures var l := LogAdded(prev, botId, log)[i].logs.value; |l| > 0 && l[|l| - 1] == log
      ensures prev[i].logs.Some? ==> |AppendLog(prev[i].logs, log)| <= if |prev[i].logs.value| > MaxLogs then |prev[i].logs.value| else MaxLogs
      ensures prev[i].logs.None? ==> |AppendLog(prev[i].logs, log)| == 1
    {
      AppendLogFacts(prev[i].logs, log);
    }
  }

  // ------------------------------------------------------------ status toasts

  /** The toasts the page shows when a bot stops running. */
  datatype Toast = TakeProfitReached(symbol: string, pnlPercent: real) | StopLossTriggered(symbol: string, pnlPercent: real)

  /** The toast for one bot, against the first bot with its id in the previous list. */
  function ToastFor(prev: seq<Bot>, bot: Bot): Option<Toast>
  {
    var before := IndexOfBot(prev, bot.id);
    if before >= 0 && prev[before].status == Running && bot.status != Running then
      if bot.status == Completed then Some(TakeProfitReached(bot.symbol, bot.pnlPercent))
      else if bot.status == Stopped then Some(StopLossTriggered(bot.symbol, bot.pnlPercent))
      else None
    else None
  }

  /** A bot whose previous state was Running. */
  predicate WasRunning(prev: seq<Bot>, bot: Bot)
  {
    var before := IndexOfBot(prev, bot.id);
    before >= 0 && prev[before].status == Running
  }

  /**
   * A toast appears exactly for a bot that was Running and is now Completed
   * (take profit) or Stopped (stop loss); a bot paused or still running
   * gives none.
   */
  lemma ToastForIff(prev: seq<Bot>, bot: Bot)
    ensures ToastFor(prev, bot).Some? <==> WasRunning(prev, bot) && (bot.status == Completed || bot.status == Stopped)
    ensures ToastFor(prev, bot).Some? ==> bot.status != Running
    ensures ToastFor(prev, bot).Some? ==>
              (ToastFor(prev, bot).value.symbol == bot.symbol &&
               (ToastFor(prev, bot).value.TakeProfitReached? <==> bot.status == Completed))
  {
  }

  /** The toasts of the `forEach` over the bots, in their order. */
  function Toasts(prev: seq<Bot>, bots: seq<Bot>): seq<Toast>
  {
    if |bots| == 0 then []
    else
      var t := ToastFor(prev, bots[|bots| - 1]);
      Toasts(prev, bots[..|bots| - 1]) + (if t.Some? then [t.value] else [])
  }

  function HasToast(prev: seq<Bot>): Bot -> bool
  {
    (b: Bot) => ToastFor(prev, b).Some?
  }

  /** One toast per bot that earns one, no more. */
  lemma {:induction false} ToastsCount(prev: seq<Bot>, bots: seq<Bot>)
    ensures |Toasts(prev, bots)| == CountWhere(bots, HasToast(prev))
    decreases |bots|
  {
    if |bots| > 0 {
      var front := bots[..|bots| - 1];
      ToastsCount(prev, front);
      CountWhereSnoc(front, bots[|bots| - 1], HasToast(prev));
      assert front + [bots[|bots| - 1]] == bots;
    }
  }

  /** When the list did not change and ids are distinct, no toast is shown. */
  lemma NoChangeNoToast(bots: seq<Bot>)
    requires forall i, j :: 0 <= i < j < |bots| ==> bots[i].id != bots[j].id
    ensures Toasts(bots, bots) == []
  {
    forall i | 0 <= i < |bots| ensures !HasToast(bots)(bots[i]) {
      assert IndexOfBot(bots, bots[i].id) == i;
    }
    ToastsCount(bots, bots);
    FilterNone(bots, HasToast(bots));
    CountWhereIsFilterLength(bots, HasToast(bots));
  }

  // ------------------------------------------------------------ active / history

  predicate IsActive(b: Bot)
  {
    b.status == Running || b.status == WaitingForEntry
  }

  predicate IsHistory(b: Bot)
  {
    b.status != Running && b.status != WaitingForEntry
  }

  function ActiveBots(bots: seq<Bot>): seq<Bot>
  {
    Filter(bots, IsActive)
  }

  function HistoryBots(bots: seq<Bot>): seq<Bot>
  {
    Filter(bots, IsHistory)
  }

  /** The two tabs split the bots: each bot is on exactly one of them, as often as it is in the list. */
  lemma ActiveHistoryPartition(bots: seq<Bot>)
    ensures multiset(ActiveBots(bots)) + multiset(HistoryBots(bots)) == multiset(bots)
    ensures |ActiveBots(bots)| + |HistoryBots(bots)| == |bots|
    ensures forall b :: b in bots ==> (b in ActiveBots(bots) <==> !(b in HistoryBots(bots)))
  {
    FilterSplit(bots, IsActive, IsHistory);
    assert |multiset(ActiveBots(bots))| + |multiset(HistoryBots(bots))| == |multiset(bots)|;
    forall b | b in bots ensures b in ActiveBots(bots) <==> !(b in HistoryBots(bots)) {
      var i :| 0 <= i < |bots| && bots[i] == b;
    }
  }

  // ------------------------------------------------------------ the start form

  const MarketBuy := "strategy-market-buy"

  /**
   * `setAmountByPercent`: with a non-zero available balance the amount
   * becomes the whole part of that percentage of it; without a wallet or
   * with a zero balance it is left as it was.
   */
  function AmountByPercent(amount: real, available: Option<real>, percent: real): (r: real)
    ensures available.None? || available.value == 0.0 ==> r == amount
    ensures available.Some? && available.value != 0.0 ==>
              r == r.Floor as real && r <= available.value * (percent / 100.0) < r + 1.0
  {
    if available.Some? && available.value != 0.0 then (available.value * (percent / 100.0)).Floor as real else amount
  }

  /** A percentage between 0 and 100 of a positive balance is a whole amount between 0 and the balance. */
  lemma PercentWithinBalance(amount: real, available: real, percent: real)
    requires available > 0.0 && 0.0 <= percent <= 100.0
    ensures 0.0 <= AmountByPercent(amount, Some(available), percent) <= available
  {
    assert 0.0 <= available * (percent / 100.0) <= available;
  }

  /** The interval the page switches to when a strategy is chosen; other strategies keep the current one. */
  function DefaultInterval(strategy: string, current: string): string
  {
    if strategy == MarketBuy then "1m"
    else if strategy == "strategy-golden-rose" then "1h"
    else if strategy == "strategy-sma-crossover" then "15m"
    else current
  }

  /**
   * Market buy, Golden Rose and the SMA crossover get a fixed interval
   * whatever was chosen before; every other strategy, Golden Cross among
   * them, keeps the current interval; applying the default twice is
   * applying it once.
   */
  lemma DefaultIntervalFacts(strategy: string, current: string, other: string)
    ensures strategy !in {MarketBuy, "strategy-golden-rose", "strategy-sma-crossover"} ==>
              DefaultInterval(strategy, current) == current
    ensures strategy in {MarketBuy, "strategy-golden-rose", "strategy-sma-crossover"} ==>
              DefaultInterval(strategy, current) == DefaultInterval(strategy, other)
    ensures DefaultInterval("strategy-golden-cross", current) == current
    ensures DefaultInterval(strategy, DefaultInterval(strategy, current)) == DefaultInterval(strategy, current)
  {
  }

  /** `isStarting || (isImmediate && isInsufficientBalance)`; the balance check needs a wallet. */
  predicate StartDisabled(isStarting: bool, strategy: string, available: Option<real>, amount: real)
  {
    isStarting || (strategy == MarketBuy && available.Some? && amount > available.value)
  }

  /** An amount picked with a percent button never disables the start button by itself. */
  lemma PercentAmountStartable(amount: real, strategy: string, available: real, percent: real)
    requires available > 0.0 && 0.0 <= percent <= 100.0
    ensures !StartDisabled(false, strategy, Some(available), AmountByPercent(amount, Some(available), percent))
  {
    PercentWithinBalance(amount, available, percent);
  }

  /** The request `handleStartBot` sends. */
  datatype StartBotRequest = StartBotRequest(symbol: string, strategyId: string, amount: real, interval: string,
                                             takeProfit: Option<real>, stopLoss: Option<real>)

  /**
   * `handleStartBot`: nothing is sent without a coin, a strategy and a
   * positive amount; otherwise the form becomes the request, an empty
   * take-profit or stop-loss field being left out.
   */
  function StartRequest(coin: string, strategy: string, amount: real, interval: string, takeProfit: string, stopLoss: string,
                        number: string -> real): (r: Option<StartBotRequest>)
    ensures r.None? <==> coin == "" || strategy == "" || amount <= 0.0
    ensures r.Some? ==> r.value.symbol == coin && r.value.strategyId == strategy && r.value.amount == amount && r.value.amount > 0.0
    ensures r.Some? ==> (r.value.takeProfit.None? <==> takeProfit == "") && (r.value.stopLoss.None? <==> stopLoss == "")
  {
    if coin == "" || strategy == "" || amount <= 0.0 then None
    else Some(StartBotRequest(coin, strategy, amount, interval,
                              if takeProfit != "" then Some(number(takeProfit)) else None,
                              if stopLoss != "" then Some(number(stopLoss)) else None))
  }

  // ------------------------------------------------------------ the page state

  /** The page's state: the bots, the list the status effect last saw, and the amount field. */
  class Dashboard {
    var bots: seq<Bot>
    var prevBots: seq<Bot>
    var amount: real

    constructor ()
      ensures bots == [] && prevBots == [] && amount == 100.0
    {
      bots := [];
      prevBots := [];
      amount := 100.0;
    }

    method OnBotUpdated(updated: Bot)
      modifies this
      ensures bots == BotUpdated(old(bots), updated)
      ensures prevBots == old(prevBots) && amount == old(amount)
    {
      bots := BotUpdated(bots, updated);
    }

    method OnLogAdded(botId: string, log: LogEntry)
      modifies this
      ensures bots == LogAdded(old(bots), botId, log)
      ensures LogsBounded(old(bots)) ==> LogsBounded(bots)
      ensures prevBots == old(prevBots) && amount == old(amount)
    {
      LogAddedFacts(bots, botId, log);
      bots := LogAdded(bots, botId, log);
    }

    /**
     * The effect that runs when the bots change: the first time the list is
     * only recorded; afterwards every bot is checked against the recorded
     * list, then the current list is recorded.
     */
    method CheckStatusChanges() returns (toasts: seq<Toast>)
      modifies this
      ensures |old(prevBots)| == 0 ==> toasts == []
      ensures |old(prevBots)| > 0 ==> toasts == Toasts(old(prevBots), bots)
      ensures |toasts| <= |bots|
      ensures prevBots == bots && bots == old(bots) && amount == old(amount)
    {
      if |prevBots| == 0 {
        prevBots := bots;
        return [];
      }
      toasts := [];
      for i := 0 to |bots|
        invariant toasts == Toasts(prevBots, bots[..i])
      {
        assert bots[..i + 1][..i] == bots[..i];
        var t := ToastFor(prevBots, bots[i]);
        if t.Some? {
          toasts := toasts + [t.value];
        }
      }
      assert bots[..|bots|] == bots;
      ToastsCount(prevBots, bots);
      prevBots := bots;
    }

    method SetAmountByPercent(available: Option<real>, percent: real)
      modifies this
      ensures amount == AmountByPercent(old(amount), available, percent)
      ensures bots == old(bots) && prevBots == old(prevBots)
    {
      amount := AmountByPercent(amount, available, percent);
    }
  }
}
