/**
 * `BotService`: listing, creating, stopping and archiving bots, and the
 * wallet bookkeeping that goes with them. Notifications to the clients
 * are not modelled.
 */
module BotServices {
  import opened Common
  import opened Listing
  import opened Trading

  // ------------------------------------------------------------ listing

  function CreatedKey(b: Bot): real
  {
    b.createdAt as real
  }

  predicate NotArchived(b: Bot)
  {
    !b.isArchived
  }

  /** The rows `GetAllBotsAsync` lists: the bots that are not archived, newest first. */
  function VisibleBots(bots: seq<Bot>): (r: seq<Bot>)
    ensures |r| == CountWhere(bots, NotArchived)
    ensures forall i :: 0 <= i < |r| ==> !r[i].isArchived && r[i] in bots
    ensures forall i :: 0 <= i < |bots| && !bots[i].isArchived ==> bots[i] in r
    ensures SortedDesc(r, CreatedKey)
  {
    var kept := Filter(bots, NotArchived);
    var r := SortDesc(kept, CreatedKey);
    CountWhereIsFilterLength(bots, NotArchived);
    forall i | 0 <= i < |r| ensures !r[i].isArchived && r[i] in bots {
      SortDescElements(kept, CreatedKey, r[i]);
    }
    forall i | 0 <= i < |bots| && !bots[i].isArchived ensures bots[i] in r {
      SortDescElements(kept, CreatedKey, bots[i]);
    }
    r
  }

  /** The listed rows are a rearrangement of the non-archived bots. */
  lemma VisibleBotsMultiset(bots: seq<Bot>)
    ensures multiset(VisibleBots(bots)) == multiset(Filter(bots, NotArchived))
  {
  }

  function LogTime(l: LogEntry): real
  {
    l.timestamp as real
  }

  /** How many log lines a listed bot carries at most. */
  const ListedLogCount := 50

  lemma {:induction false} CutSplits(s: seq<LogEntry>, n: nat)
    requires n <= |s|
    ensures multiset(s) == multiset(s[..n]) + multiset(s[n..])
  {
    assert s == s[..n] + s[n..];
  }

  /** In a list sorted newest first, a line after position `n` is no newer than any line before it. */
  lemma {:induction false} CutIsOlder(sorted: seq<LogEntry>, n: nat, l: LogEntry)
    requires SortedDesc(sorted, LogTime) && n <= |sorted|
    requires l in multiset(sorted[n..])
    ensures forall i :: 0 <= i < n ==> LogTime(l) <= LogTime(sorted[i])
  {
    var dropped := sorted[n..];
    var j :| 0 <= j < |dropped| && dropped[j] == l;
    assert sorted[n + j] == l;
  }

  /** The front of a list sorted newest first holds its newest lines: anything cut off is no newer. */
  lemma {:induction false} NewestFront(sorted: seq<LogEntry>, n: nat)
    requires SortedDesc(sorted, LogTime) && n <= |sorted|
    ensures SortedDesc(sorted[..n], LogTime)
    ensures multiset(sorted[..n]) <= multiset(sorted)
    ensures forall l :: multiset(sorted[..n])[l] < multiset(sorted)[l] ==>
      forall i :: 0 <= i < n ==> LogTime(l) <= LogTime(sorted[i])
  {
    CutSplits(sorted, n);
    forall l | multiset(sorted[..n])[l] < multiset(sorted)[l]
      ensures forall i :: 0 <= i < n ==> LogTime(l) <= LogTime(sorted[i])
    {
      CutIsOlder(sorted, n, l);
    }
  }

  /**
   * `Logs.OrderByDescending(l => l.Timestamp).Take(50)`: the newest lines,
   * newest first. A line left out is no newer than any line kept.
   */
  function RecentLogs(logs: seq<LogEntry>): (r: seq<LogEntry>)
    ensures |r| == if |logs| < ListedLogCount then |logs| else ListedLogCount
    ensures SortedDesc(r, LogTime)
    ensures multiset(r) <= multiset(logs)
    ensures forall l :: multiset(r)[l] < multiset(logs)[l] ==>
      forall i :: 0 <= i < |r| ==> LogTime(l) <= LogTime(r[i])
  {
    var sorted := SortDesc(logs, LogTime);
    if |sorted| <= ListedLogCount then sorted
    else
      NewestFront(sorted, ListedLogCount);
      sorted[..ListedLogCount]
  }

  /** A bot as listed: its logs cut to the newest lines. */
  function Listed(b: Bot): Bot
  {
    b.(logs := RecentLogs(b.logs))
  }

  /**
   * `GetAllBotsAsync`: one entry per bot that is not archived, newest
   * first, each the stored bot with its logs cut to the 50 newest lines,
   * newest first.
   */
  function ListBots(bots: seq<Bot>): (r: seq<Bot>)
    ensures |r| == CountWhere(bots, NotArchived)
    ensures forall i :: 0 <= i < |r| ==> r[i] == Listed(VisibleBots(bots)[i])
    ensures forall i :: 0 <= i < |r| ==>
      !r[i].isArchived && |r[i].logs| <= ListedLogCount && SortedDesc(r[i].logs, LogTime)
    ensures SortedDesc(r, CreatedKey)
  {
    var rows := VisibleBots(bots);
    seq(|rows|, i requires 0 <= i < |rows| => Listed(rows[i]))
  }

  // ------------------------------------------------------------ creating

  datatype CreateBotRequest = CreateBotRequest(
    symbol: string,
    strategyId: string,
    amount: real,
    interval: string,
    stopLoss: Option<real>,
    takeProfit: Option<real>,
    isTrailingStop: bool,
    trailingStopDistance: Option<real>,
    strategyParameters: Option<string>)

  const WalletNotFound := "Cüzdan bulunamadı!"
  /** The fixed head of the insufficient-balance message; the amounts follow it. */
  const InsufficientBalance := "Yetersiz Bakiye!"

  function InvestmentDescription(symbol: string): string
  {
    "Bot Başlatıldı (Hemen Al): " + symbol
  }

  function AmbushLog(request: CreateBotRequest): string
  {
    "👀 Bot Pusuya Yattı! " + request.symbol + " için " + request.strategyId + " sinyali bekleniyor..."
  }

  /**
   * The bot a create request produces: waiting for entry, no entry price,
   * no PnL, not archived, one info log.
   */
  function NewBot(request: CreateBotRequest, id: nat, now: int): (b: Bot)
    ensures b.id == id && b.symbol == request.symbol && b.strategyName == request.strategyId
    ensures b.amount == request.amount && b.stopLoss == request.stopLoss && b.takeProfit == request.takeProfit
    ensures b.status == WaitingForEntry && b.entryPrice == 0.0 && b.currentPnl == 0.0 && b.currentPnlPercent == 0.0
    ensures !b.isArchived && |b.logs| == 1 && b.logs[0].level == Info
  {
    Bot(id, request.symbol, request.strategyId, request.amount, request.interval,
        request.stopLoss, request.takeProfit, WaitingForEntry, now, 0.0, 0.0, 0.0,
        [LogEntry(AmbushLog(request), Info, now)],
        request.isTrailingStop, request.trailingStopDistance, false, request.strategyParameters)
  }

  /**
   * `CreateBotAsync`. Without a wallet it throws. A market-buy bot needs the
   * amount in the free balance and moves it to the locked balance with a
   * `BotInvestment` transaction; any other strategy leaves the wallet
   * alone. `id` is the fresh GUID and `now` the clock.
   */
  method CreateBot(db: TradingDb, request: CreateBotRequest, id: nat, now: int) returns (r: Result<Bot>)
    requires IndexOfId(db.bots, id).None?
    modifies db, WalletFrame(db)
    ensures db.wallet == old(db.wallet) && db.systemLogs == old(db.systemLogs)
    ensures old(db.wallet) == null ==> r == Failure(WalletNotFound) && unchanged(db)
    ensures old(db.wallet) != null && request.strategyId == MarketBuyId && old(db.wallet.balance) < request.amount ==>
      r == Failure(InsufficientBalance) && unchanged(db) && unchanged(WalletFrame(db))
    ensures r.Success? <==>
      old(db.wallet) != null && (request.strategyId != MarketBuyId || old(db.wallet.balance) >= request.amount)
    ensures r.Success? ==>
      r.value == NewBot(request, id, now) && db.bots == old(db.bots) + [r.value] &&
      IndexOfId(db.bots, id) == Some(|old(db.bots)|)
    ensures r.Success? && request.strategyId == MarketBuyId ==>
      db.wallet.balance == old(db.wallet.balance) - request.amount &&
      db.wallet.lockedBalance == old(db.wallet.lockedBalance) + request.amount &&
      db.wallet.lastUpdated == now &&
      db.transactions == old(db.transactions) +
        [WalletTransaction(-request.amount, BotInvestment, InvestmentDescription(request.symbol), now)]
    ensures r.Success? && request.strategyId != MarketBuyId ==>
      unchanged(WalletFrame(db)) && db.transactions == old(db.transactions)
    ensures db.wallet != null ==> db.wallet.Total() == old(db.wallet.Total())
    ensures old(db.LocksConsistent()) ==> db.LocksConsistent()
  {
    var wallet := db.wallet;
    if wallet == null {
      return Failure(WalletNotFound);
    }
    var isImmediateBuy := request.strategyId == MarketBuyId;
    if isImmediateBuy {
      if wallet.balance < request.amount {
        return Failure(InsufficientBalance);
      }
      wallet.balance := wallet.balance - request.amount;
      wallet.lockedBalance := wallet.lockedBalance + request.amount;
      wallet.lastUpdated := now;
      db.transactions := db.transactions +
        [WalletTransaction(-request.amount, BotInvestment, InvestmentDescription(request.symbol), now)];
    }
    var bot := NewBot(request, id, now);
    LockedDemandAppend(db.bots, bot);
    NewIdFoundAtEnd(db.bots, bot);
    db.bots := db.bots + [bot];
    r := Success(bot);
  }

  lemma NewIdFoundAtEnd(bots: seq<Bot>, b: Bot)
    requires IndexOfId(bots, b.id).None?
    ensures IndexOfId(bots + [b], b.id) == Some(|bots|)
    decreases |bots|
  {
    if |bots| > 0 {
      assert (bots + [b])[1..] == bots[1..] + [b];
      NewIdFoundAtEnd(bots[1..], b);
    }
  }

  // ------------------------------------------------------------ stopping

  const ManualStopLog := "Bot kullanıcı tarafından manuel durduruldu."

  function ManualStopDescription(symbol: string): string
  {
    "Manuel Durdurma: " + symbol
  }

  /** The bot row after a manual stop: status Stopped and one warning log more. */
  function StoppedRow(b: Bot, now: int): (s: Bot)
    ensures s.status == Stopped && s.logs == b.logs + [LogEntry(ManualStopLog, Warning, now)]
    ensures s.id == b.id && s.amount == b.amount && s.currentPnl == b.currentPnl
  {
    b.(status := Stopped, logs := b.logs + [LogEntry(ManualStopLog, Warning, now)])
  }

  /**
   * Moves a bot's amount out of the locked balance and pays back the amount
   * plus its PnL, with a `BotReturn` transaction.
   */
  method Refund(db: TradingDb, b: Bot, description: string, now: int)
    requires db.wallet != null
    modifies db, db.wallet
    ensures db.wallet == old(db.wallet) && db.bots == old(db.bots) && db.systemLogs == old(db.systemLogs)
    ensures db.wallet.lockedBalance == old(db.wallet.lockedBalance) - b.amount
    ensures db.wallet.balance == old(db.wallet.balance) + (b.amount + b.currentPnl)
    ensures db.wallet.lastUpdated == now
    ensures db.transactions == old(db.transactions) + [WalletTransaction(b.amount + b.currentPnl, BotReturn, description, now)]
    ensures db.wallet.Total() == old(db.wallet.Total()) + b.currentPnl
  {
    var wallet := db.wallet;
    wallet.lockedBalance := wallet.lockedBalance - b.amount;
    var returnAmount := b.amount + b.currentPnl;
    wallet.balance := wallet.balance + returnAmount;
    wallet.lastUpdated := now;
    db.transactions := db.transactions + [WalletTransaction(returnAmount, BotReturn, description, now)];
  }

  /**
   * The refund rule as written: `shouldRefund` reads the status after
   * it has been set to Stopped, so only a waiting market-buy bot is paid
   * back.
   */
  predicate RefundedAsWritten(b: Bot)
  {
    var newStatus := Stopped;
    newStatus == Running || (b.status == WaitingForEntry && b.strategyName == MarketBuyId)
  }

  /** The refund rule as intended: every bot that holds a lock is paid back. */
  predicate RefundedAsIntended(b: Bot)
  {
    b.status == Running || (b.status == WaitingForEntry && b.strategyName == MarketBuyId)
  }

  lemma RefundRules(b: Bot)
    ensures RefundedAsWritten(b) <==> b.status == WaitingForEntry && b.strategyName == MarketBuyId
    ensures RefundedAsIntended(b) <==> HoldsLock(b)
  {
  }

  /**
   * `StopBotAsync`. Only an active bot (running or waiting) is touched: it
   * becomes Stopped with a warning log, and when `RefundedAsWritten` holds
   * and a wallet exists, its amount is released with its PnL. A running
   * bot stopped this way keeps its amount in the locked balance, so the
   * wallet no longer matches the bots.
   */
  method StopBot(db: TradingDb, id: nat, now: int)
    modifies db, WalletFrame(db)
    ensures db.wallet == old(db.wallet) && db.systemLogs == old(db.systemLogs)
    ensures |db.bots| == |old(db.bots)|
    ensures IndexOfId(old(db.bots), id).None? || !Active(old(db.bots)[IndexOfId(old(db.bots), id).value]) ==>
      unchanged(db) && unchanged(WalletFrame(db))
    ensures IndexOfId(old(db.bots), id).Some? && Active(old(db.bots)[IndexOfId(old(db.bots), id).value]) ==>
      var i := IndexOfId(old(db.bots), id).value;
      var b := old(db.bots)[i];
      db.bots == old(db.bots)[i := StoppedRow(b, now)] &&
      (RefundedAsWritten(b) && db.wallet != null ==>
        db.wallet.lockedBalance == old(db.wallet.lockedBalance) - b.amount &&
        db.wallet.balance == old(db.wallet.balance) + (b.amount + b.currentPnl) &&
        db.transactions == old(db.transactions) + [WalletTransaction(b.amount + b.currentPnl, BotReturn, ManualStopDescription(b.symbol), now)]) &&
      (RefundedAsWritten(b) && db.wallet != null ==> db.wallet.lastUpdated == now) &&
      (!RefundedAsWritten(b) ==> unchanged(WalletFrame(db)) && db.transactions == old(db.transactions)) &&
      (db.wallet == null ==> db.transactions == old(db.transactions)) &&
      (b.status == Running && b.amount != 0.0 && old(db.LocksConsistent()) && db.wallet != null ==> !db.LocksConsistent())
  {
    var found := IndexOfId(db.bots, id);
    if found.None? {
      return;
    }
    var i := found.value;
    var bot := db.bots[i];
    if bot.status == Running || bot.status == WaitingForEntry {
      var oldStatus := bot.status;
      var stopped := StoppedRow(bot, now);
      LockedDemandUpdate(db.bots, i, stopped);
      db.bots := db.bots[i := stopped];
      var shouldRefund := stopped.status == Running;
      if oldStatus == WaitingForEntry && bot.strategyName == MarketBuyId {
        shouldRefund := true;
      }
      if shouldRefund && db.wallet != null {
        Refund(db, bot, ManualStopDescription(bot.symbol), now);
      }
    }
  }

  /**
   * `StopBotAsync` with the refund the comment intends: a running bot's
   * amount is released with its PnL too, so the wallet keeps matching the
   * bots.
   */
  method StopBotCorrected(db: TradingDb, id: nat, now: int)
    modifies db, WalletFrame(db)
    ensures db.wallet == old(db.wallet) && db.systemLogs == old(db.systemLogs)
    ensures |db.bots| == |old(db.bots)|
    ensures IndexOfId(old(db.bots), id).None? || !Active(old(db.bots)[IndexOfId(old(db.bots), id).value]) ==>
      unchanged(db) && unchanged(WalletFrame(db))
    ensures IndexOfId(old(db.bots), id).Some? && Active(old(db.bots)[IndexOfId(old(db.bots), id).value]) ==>
      var i := IndexOfId(old(db.bots), id).value;
      var b := old(db.bots)[i];
      db.bots == old(db.bots)[i := StoppedRow(b, now)] &&
      (HoldsLock(b) && db.wallet != null ==>
        db.wallet.Total() == old(db.wallet.Total()) + b.currentPnl &&
        db.transactions == old(db.transactions) + [WalletTransaction(b.amount + b.currentPnl, BotReturn, ManualStopDescription(b.symbol), now)]) &&
      (!HoldsLock(b) ==> unchanged(WalletFrame(db)) && db.transactions == old(db.transactions))
    ensures old(db.LocksConsistent()) ==> db.LocksConsistent()
  {
    var found := IndexOfId(db.bots, id);
    if found.None? {
      return;
    }
    var i := found.value;
    var bot := db.bots[i];
    if bot.status == Running || bot.status == WaitingForEntry {
      var stopped := StoppedRow(bot, now);
      LockedDemandUpdate(db.bots, i, stopped);
      db.bots := db.bots[i := stopped];
      if RefundedAsIntended(bot) && db.wallet != null {
        Refund(db, bot, ManualStopDescription(bot.symbol), now);
      }
    }
  }

  /** The `BotReturn` transaction a manual stop writes when it refunds `b`. */
  function StopReturn(b: Bot, now: int): WalletTransaction
  {
    WalletTransaction(b.amount + b.currentPnl, BotReturn, ManualStopDescription(b.symbol), now)
  }

  /** The transactions stopping every bot of `bots` appends: one return per refunded bot, in table order. */
  function StopAllReturns(bots: seq<Bot>, now: int): (r: seq<WalletTransaction>)
    ensures |r| == CountWhere(bots, RefundedAsWritten)
    ensures forall k :: 0 <= k < |r| ==> r[k].kind == BotReturn && r[k].createdAt == now
  {
    if |bots| == 0 then []
    else (if RefundedAsWritten(bots[0]) then [StopReturn(bots[0], now)] else []) + StopAllReturns(bots[1..], now)
  }

  /** What a manual stop takes out of the locked balance for `b`. */
  function RefundLockOf(b: Bot): (r: real)
    ensures r == (if RefundedAsWritten(b) then b.amount else 0.0)
  {
    if RefundedAsWritten(b) then b.amount else 0.0
  }

  /** What a manual stop pays into the free balance for `b`. */
  function RefundPaidOf(b: Bot): (r: real)
    ensures r == RefundLockOf(b) + (if RefundedAsWritten(b) then b.currentPnl else 0.0)
  {
    if RefundedAsWritten(b) then b.amount + b.currentPnl else 0.0
  }

  /** The lock a running bot holds, which a manual stop leaves behind. */
  function RunningLockOf(b: Bot): (r: real)
    ensures r == (if b.status == Running then b.amount else 0.0)
  {
    if b.status == Running then b.amount else 0.0
  }

  function TransactionTotal(ts: seq<WalletTransaction>): real
  {
    if |ts| == 0 then 0.0 else ts[0].amount + TransactionTotal(ts[1..])
  }

  /** The returns written by stopping every bot add up to what the free balance gains. */
  lemma {:induction false} StopAllReturnsTotal(bots: seq<Bot>, now: int)
    ensures TransactionTotal(StopAllReturns(bots, now)) == SumOver(bots, RefundPaidOf)
    decreases |bots|
  {
    if |bots| > 0 {
      StopAllReturnsTotal(bots[1..], now);
      var head := if RefundedAsWritten(bots[0]) then [StopReturn(bots[0], now)] else [];
      TransactionTotalAppend(head, StopAllReturns(bots[1..], now));
    }
  }

  lemma {:induction false} TransactionTotalAppend(a: seq<WalletTransaction>, b: seq<WalletTransaction>)
    ensures TransactionTotal(a + b) == TransactionTotal(a) + TransactionTotal(b)
    decreases |a|
  {
    if |a| > 0 {
      assert (a + b)[1..] == a[1..] + b;
      TransactionTotalAppend(a[1..], b);
    } else {
      assert a + b == b;
    }
  }

  /**
   * The locks the bots account for split into what a manual stop releases
   * (the waiting market buys) and what it strands (the running bots).
   */
  lemma LockedDemandSplit(bots: seq<Bot>)
    ensures LockedDemand(bots) == SumOver(bots, RefundLockOf) + SumOver(bots, RunningLockOf)
  {
    forall i | 0 <= i < |bots|
      ensures LockOf(bots[i]) == RefundLockOf(bots[i]) + RunningLockOf(bots[i])
    {
      RefundRules(bots[i]);
    }
    SumOverAdd(bots, LockOf, RefundLockOf, RunningLockOf);
  }

  /** Rows that are no longer active account for no lock at all. */
  lemma InactiveNoLocks(bots: seq<Bot>)
    requires forall j :: 0 <= j < |bots| ==> !Active(bots[j])
    ensures LockedDemand(bots) == 0.0
  {
    SumOverZero(bots, LockOf);
  }

  /** The row after `StopBotAsync` looked at it: stopped if it was active, untouched otherwise. */
  function StopIfActive(b: Bot, now: int): (s: Bot)
    ensures !Active(s) && s.id == b.id
    ensures Active(b) ==> s == StoppedRow(b, now)
    ensures !Active(b) ==> s == b
  {
    if Active(b) then StoppedRow(b, now) else b
  }

  /** The rows before `i` have been stopped, the others are as they were. */
  predicate StoppedBefore(start: seq<Bot>, bots: seq<Bot>, i: nat, now: int)
  {
    |bots| == |start| && i <= |start| &&
    (forall j :: 0 <= j < i ==> bots[j] == StopIfActive(start[j], now)) &&
    (forall j :: i <= j < |bots| ==> bots[j] == start[j])
  }

  lemma StoppedBeforeStep(start: seq<Bot>, bots: seq<Bot>, i: nat, now: int)
    requires StoppedBefore(start, bots, i, now) && i < |start|
    ensures StoppedBefore(start, bots[i := StopIfActive(bots[i], now)], i + 1, now)
  {
  }

  lemma StoppedBeforeUnique(start: seq<Bot>, bots: seq<Bot>, i: nat, now: int)
    requires StoppedBefore(start, bots, i, now) && IdsUnique(start)
    ensures IdsUnique(bots)
  {
    forall a, c | 0 <= a < c < |bots| ensures bots[a].id != bots[c].id {
      assert bots[a].id == start[a].id && bots[c].id == start[c].id;
    }
  }

  /** The wallet's fields and the transaction table, as values. */
  datatype Books = Books(locked: real, balance: real, lastUpdated: int, transactions: seq<WalletTransaction>)

  function BooksOf(db: TradingDb): (k: Books)
    requires db.wallet != null
    reads db, db.wallet
    ensures k.locked == db.wallet.lockedBalance && k.balance == db.wallet.balance
    ensures k.lastUpdated == db.wallet.lastUpdated && k.transactions == db.transactions
  {
    Books(db.wallet.lockedBalance, db.wallet.balance, db.wallet.lastUpdated, db.transactions)
  }

  /** The books after a manual stop of `b`: `Refund` when `RefundedAsWritten` holds, nothing otherwise. */
  function RefundBooks(k: Books, b: Bot, now: int): (r: Books)
    ensures RefundedAsWritten(b) ==> r.locked == k.locked - b.amount && r.balance == k.balance + (b.amount + b.currentPnl)
    ensures RefundedAsWritten(b) ==> r.lastUpdated == now && r.transactions == k.transactions + [StopReturn(b, now)]
    ensures !RefundedAsWritten(b) ==> r == k
  {
    if RefundedAsWritten(b)
    then Books(k.locked - b.amount, k.balance + (b.amount + b.currentPnl), now, k.transactions + [StopReturn(b, now)])
    else k
  }

  /** The books after stopping the rows of `bots` one after the other. */
  function StopAllBooks(k: Books, bots: seq<Bot>, now: int): Books
    decreases |bots|
  {
    if |bots| == 0 then k else StopAllBooks(RefundBooks(k, bots[0], now), bots[1..], now)
  }

  lemma {:induction false} StopAllBooksSnoc(k: Books, bots: seq<Bot>, b: Bot, now: int)
    ensures StopAllBooks(k, bots + [b], now) == RefundBooks(StopAllBooks(k, bots, now), b, now)
    decreases |bots|
  {
    if |bots| > 0 {
      assert (bots + [b])[1..] == bots[1..] + [b];
      StopAllBooksSnoc(RefundBooks(k, bots[0], now), bots[1..], b, now);
    } else {
      assert (bots + [b])[1..] == [];
    }
  }

  /**
   * Stopping every bot takes the refunded amounts out of the locked
   * balance, pays them back with their PnL, and appends one return per
   * refunded bot; the wallet is touched only if some bot was refunded.
   */
  lemma {:induction false} StopAllBooksTotals(k: Books, bots: seq<Bot>, now: int)
    ensures StopAllBooks(k, bots, now).locked == k.locked - SumOver(bots, RefundLockOf)
    ensures StopAllBooks(k, bots, now).balance == k.balance + SumOver(bots, RefundPaidOf)
    ensures StopAllBooks(k, bots, now).lastUpdated == (if StopAllReturns(bots, now) == [] then k.lastUpdated else now)
    ensures StopAllBooks(k, bots, now).transactions == k.transactions + StopAllReturns(bots, now)
    decreases |bots|
  {
    if |bots| > 0 {
      var k1 := RefundBooks(k, bots[0], now);
      StopAllBooksTotals(k1, bots[1..], now);
      var head := if RefundedAsWritten(bots[0]) then [StopReturn(bots[0], now)] else [];
      assert StopAllReturns(bots, now) == head + StopAllReturns(bots[1..], now);
      assert k1.transactions == k.transactions + head;
    } else {
      assert k.transactions + [] == k.transactions;
    }
  }

  /** One step of `StopAllBotsAsync`: the row at `i` is stopped through `StopBot` if it is active. */
  method StopRowAt(db: TradingDb, i: nat, now: int)
    requires IdsUnique(db.bots) && i < |db.bots|
    modifies db, WalletFrame(db)
    ensures db.wallet == old(db.wallet) && db.systemLogs == old(db.systemLogs)
    ensures db.bots == old(db.bots)[i := StopIfActive(old(db.bots)[i], now)]
    ensures db.wallet == null ==> db.transactions == old(db.transactions)
    ensures db.wallet != null ==> BooksOf(db) == RefundBooks(old(BooksOf(db)), old(db.bots)[i], now)
  {
    RefundRules(db.bots[i]);
    if Active(db.bots[i]) {
      IndexOfUniqueId(db.bots, i);
      StopBot(db, db.bots[i].id, now);
    }
  }

  /**
   * `StopAllBotsAsync`: stops every active bot, one `StopBotAsync` at a
   * time, and returns how many there were. The source collects the active
   * bots first; with unique ids, stopping one bot never changes another,
   * so visiting the rows in table order stops the same bots. The waiting
   * market buys are refunded; the running bots leave their amounts in the
   * locked balance, so from a consistent wallet the locked balance ends up
   * at the running amounts while the bots account for none.
   */
  method StopAllBots(db: TradingDb, now: int) returns (count: nat)
    requires IdsUnique(db.bots)
    modifies db, WalletFrame(db)
    ensures db.wallet == old(db.wallet) && db.systemLogs == old(db.systemLogs)
    ensures |db.bots| == |old(db.bots)|
    ensures forall j :: 0 <= j < |db.bots| ==>
      db.bots[j] == (if Active(old(db.bots)[j]) then StoppedRow(old(db.bots)[j], now) else old(db.bots)[j])
    ensures forall j :: 0 <= j < |db.bots| ==> !Active(db.bots[j])
    ensures count == CountWhere(old(db.bots), Active)
    ensures db.wallet == null ==> db.transactions == old(db.transactions)
    ensures db.wallet != null ==>
      db.wallet.lockedBalance == old(db.wallet.lockedBalance) - SumOver(old(db.bots), RefundLockOf) &&
      db.wallet.balance == old(db.wallet.balance) + SumOver(old(db.bots), RefundPaidOf) &&
      db.wallet.lastUpdated == (if StopAllReturns(old(db.bots), now) == [] then old(db.wallet.lastUpdated) else now) &&
      db.transactions == old(db.transactions) + StopAllReturns(old(db.bots), now)
    ensures old(db.LocksConsistent()) && db.wallet != null ==>
      db.wallet.lockedBalance == SumOver(old(db.bots), RunningLockOf) && LockedDemand(db.bots) == 0.0
  {
    ghost var start := db.bots;
    ghost var startBooks := if db.wallet == null then Books(0.0, 0.0, 0, []) else BooksOf(db);
    ghost var startTransactions := db.transactions;
    count := 0;
    var i := 0;
    while i < |db.bots|
      invariant 0 <= i <= |db.bots| == |start|
      invariant db.wallet == old(db.wallet) && db.systemLogs == old(db.systemLogs)
      invariant StoppedBefore(start, db.bots, i, now)
      invariant count == CountWhere(start[..i], Active)
      invariant db.wallet == null ==> db.transactions == startTransactions
      invariant db.wallet != null ==> BooksOf(db) == StopAllBooks(startBooks, start[..i], now)
    {
      StoppedBeforeUnique(start, db.bots, i, now);
      StoppedBeforeStep(start, db.bots, i, now);
      CountWhereSnoc(start[..i], start[i], Active);
      StopAllBooksSnoc(startBooks, start[..i], start[i], now);
      assert start[..i + 1] == start[..i] + [start[i]];
      if Active(db.bots[i]) {
        count := count + 1;
      }
      StopRowAt(db, i, now);
      i := i + 1;
    }
    assert start[..i] == start;
    if db.wallet != null {
      StopAllBooksTotals(startBooks, start, now);
      if startBooks.locked == LockedDemand(start) {
        LockedDemandSplit(start);
        InactiveNoLocks(db.bots);
      }
    }
  }

  lemma {:induction false} CountWhereSnoc<T>(s: seq<T>, x: T, p: T -> bool)
    ensures CountWhere(s + [x], p) == CountWhere(s, p) + (if p(x) then 1 else 0)
    decreases |s|
  {
    if |s| > 0 {
      assert (s + [x])[1..] == s[1..] + [x];
      CountWhereSnoc(s[1..], x, p);
    } else {
      assert s + [x] == [x];
    }
  }

  // ------------------------------------------------------------ archiving

  /** A stopped or completed bot that is not archived yet becomes archived; any other row is kept. */
  function ArchivedRow(b: Bot): (a: Bot)
    ensures a.isArchived <==> b.isArchived || b.status == Stopped || b.status == Completed
    ensures a == b.(isArchived := a.isArchived)
  {
    if (b.status == Stopped || b.status == Completed) && !b.isArchived then b.(isArchived := true) else b
  }

  /** Archiving twice is archiving once. */
  lemma ArchiveIdempotent(b: Bot)
    ensures ArchivedRow(ArchivedRow(b)) == ArchivedRow(b)
  {
  }

  /** `ArchiveHistoryAsync`: archives every finished bot; nothing else changes. */
  method ArchiveHistory(db: TradingDb)
    modifies db
    ensures db.wallet == old(db.wallet) && db.transactions == old(db.transactions) && db.systemLogs == old(db.systemLogs)
    ensures |db.bots| == |old(db.bots)|
    ensures forall j :: 0 <= j < |db.bots| ==> db.bots[j] == ArchivedRow(old(db.bots)[j])
    ensures old(db.LocksConsistent()) ==> db.LocksConsistent()
  {
    ghost var start := db.bots;
    var i := 0;
    while i < |db.bots|
      invariant 0 <= i <= |db.bots| == |start|
      invariant db.wallet == old(db.wallet) && db.transactions == old(db.transactions) && db.systemLogs == old(db.systemLogs)
      invariant forall j :: 0 <= j < i ==> db.bots[j] == ArchivedRow(start[j])
      invariant forall j :: i <= j < |db.bots| ==> db.bots[j] == start[j]
      invariant LockedDemand(db.bots) == LockedDemand(start)
    {
      var row := ArchivedRow(db.bots[i]);
      LockedDemandUpdate(db.bots, i, row);
      db.bots := db.bots[i := row];
      i := i + 1;
    }
  }
}
