/**
 * The trading tables shared by the bot service, the bot engine and the
 * wallet controller: bots with their logs, the single wallet, its
 * transactions and the system log written by the log service.
 *
 * A bot row is a value inside the `bots` table; updating a tracked bot in
 * place is replacing its row. The wallet is one object that every service
 * reaches through `FirstOrDefault`, so it is a class.
 */
module Trading {
  import opened Common
  import opened Listing

  datatype BotStatus = Stopped | Running | Paused | Completed | WaitingForEntry

  datatype LogLevel = Info | Warning | Error

  /** A log line: message, level and a timestamp in seconds. */
  datatype LogEntry = LogEntry(message: string, level: LogLevel, timestamp: int)

  /** A line written by the log service, tagged with the bot it is about. */
  datatype SystemLog = SystemLog(message: string, level: LogLevel, botId: nat)

  /** The `Bot` entity. Ids are the GUIDs, as naturals. */
  datatype Bot = Bot(
    id: nat,
    symbol: string,
    strategyName: string,
    amount: real,
    interval: string,
    stopLoss: Option<real>,
    takeProfit: Option<real>,
    status: BotStatus,
    createdAt: int,
    entryPrice: real,
    currentPnl: real,
    currentPnlPercent: real,
    logs: seq<LogEntry>,
    isTrailingStop: bool,
    trailingStopDistance: Option<real>,
    isArchived: bool,
    strategyParams: Option<string>)

  datatype TransactionType = Deposit | Withdraw | BotInvestment | BotReturn | Fee

  datatype WalletTransaction = WalletTransaction(amount: real, kind: TransactionType, description: string, createdAt: int)

  /** The id of the strategy that buys at once and ties up the amount at creation. */
  const MarketBuyId := "strategy-market-buy"

  /** The wallet: free balance, balance tied up in bots, last update time. */
  class Wallet {
    var balance: real
    var lockedBalance: real
    var lastUpdated: int

    constructor(balance: real, lockedBalance: real)
      ensures this.balance == balance && this.lockedBalance == lockedBalance && lastUpdated == 0
    {
      this.balance := balance;
      this.lockedBalance := lockedBalance;
      lastUpdated := 0;
    }

    /** Free and locked balance together. */
    function Total(): real
      reads this
    {
      balance + lockedBalance
    }
  }

  /** In a position, or waiting for entry with the amount already taken at creation. */
  predicate HoldsLock(b: Bot)
  {
    b.status == Running || (b.status == WaitingForEntry && b.strategyName == MarketBuyId)
  }

  /** What a bot should contribute to the locked balance. */
  function LockOf(b: Bot): (r: real)
    ensures HoldsLock(b) ==> r == b.amount
    ensures !HoldsLock(b) ==> r == 0.0
  {
    if HoldsLock(b) then b.amount else 0.0
  }

  /** The locked balance the bots account for: the amounts of the bots that hold a lock. */
  function LockedDemand(bots: seq<Bot>): real
  {
    SumOver(bots, LockOf)
  }

  function RunningPnl(b: Bot): (r: real)
    ensures b.status == Running ==> r == b.currentPnl
    ensures b.status != Running ==> r == 0.0
  {
    if b.status == Running then b.currentPnl else 0.0
  }

  /** The open profit: the current PnL summed over the running bots. */
  function ActivePnl(bots: seq<Bot>): real
  {
    SumOver(bots, RunningPnl)
  }

  predicate Active(b: Bot)
  {
    b.status == Running || b.status == WaitingForEntry
  }

  predicate IdsUnique(bots: seq<Bot>)
  {
    forall i, j :: 0 <= i < j < |bots| ==> bots[i].id != bots[j].id
  }

  /** `FindAsync(id)`: the row with that id. */
  function IndexOfId(bots: seq<Bot>, id: nat): (r: Option<nat>)
    ensures r.Some? ==> r.value < |bots| && bots[r.value].id == id
    ensures r.Some? ==> forall k :: 0 <= k < r.value ==> bots[k].id != id
    ensures r.None? ==> forall k :: 0 <= k < |bots| ==> bots[k].id != id
  {
    if |bots| == 0 then None
    else if bots[0].id == id then Some(0)
    else match IndexOfId(bots[1..], id)
      case None => None
      case Some(k) => Some(k + 1)
  }

  /** With unique ids, the lookup finds exactly the row at `i`. */
  lemma IndexOfUniqueId(bots: seq<Bot>, i: nat)
    requires IdsUnique(bots) && i < |bots|
    ensures IndexOfId(bots, bots[i].id) == Some(i)
  {
  }

  /** The database context: the wallet table (first row or none), bots, transactions and system logs. */
  class TradingDb {
    var wallet: Wallet?
    var bots: seq<Bot>
    var transactions: seq<WalletTransaction>
    var systemLogs: seq<SystemLog>

    constructor(wallet: Wallet?, bots: seq<Bot>)
      ensures this.wallet == wallet && this.bots == bots
      ensures transactions == [] && systemLogs == []
    {
      this.wallet := wallet;
      this.bots := bots;
      transactions := [];
      systemLogs := [];
    }

    /** The wallet's locked balance is what the bots holding a lock account for. */
    predicate LocksConsistent()
      reads this, wallet
    {
      wallet != null ==> wallet.lockedBalance == LockedDemand(bots)
    }
  }

  /** The frame of a method that may change the wallet. */
  function WalletFrame(db: TradingDb): set<object>
    reads db
  {
    if db.wallet == null then {} else {db.wallet}
  }

  /** Changing one bot moves the locked demand by the change of its own lock. */
  lemma LockedDemandUpdate(bots: seq<Bot>, i: int, b: Bot)
    requires 0 <= i < |bots|
    ensures LockedDemand(bots[i := b]) == LockedDemand(bots) - LockOf(bots[i]) + LockOf(b)
  {
    SumOverUpdate(bots, i, b, LockOf);
  }

  lemma LockedDemandAppend(bots: seq<Bot>, b: Bot)
    ensures LockedDemand(bots + [b]) == LockedDemand(bots) + LockOf(b)
  {
    SumOverAppend(bots, [b], LockOf);
    assert [b][1..] == [];
  }

  /** With non-negative amounts nothing can ask for a negative lock. */
  lemma LockedDemandNonNegative(bots: seq<Bot>)
    requires forall i :: 0 <= i < |bots| ==> bots[i].amount >= 0.0
    ensures LockedDemand(bots) >= 0.0
  {
    SumOverNonNegative(bots, LockOf);
  }
}
