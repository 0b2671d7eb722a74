/**
 * `WalletController`: the wallet summary, which first creates a default
 * wallet when there is none and then re-derives the locked balance from
 * the bots, and the paged transaction history.
 */
module WalletControllers {
  import opened Common
  import opened Listing
  import opened Paging
  import opened Trading

  const StartingBalance := 10000.0

  /**
   * The summary sent to the client. `availableBalance` is the wallet's free
   * balance, the amount the bot service checks a new bot against.
   */
  datatype WalletSummary = WalletSummary(currentBalance: real, availableBalance: real, lockedBalance: real, totalPnl: real)

  /**
   * `GetWallet`. A missing wallet is created with 10000 free and nothing
   * locked. The locked balance is then set to what the bots account for
   * (running bots and waiting market-buy bots), with the difference moved
   * to or from the free balance so that the total is kept. The summary
   * adds the open PnL of the running bots to the total.
   */
  method GetWallet(db: TradingDb) returns (s: WalletSummary)
    modifies db, WalletFrame(db)
    ensures db.bots == old(db.bots) && db.transactions == old(db.transactions) && db.systemLogs == old(db.systemLogs)
    ensures old(db.wallet) != null ==> db.wallet == old(db.wallet)
    ensures old(db.wallet) == null ==> fresh(db.wallet)
    ensures db.wallet != null && db.LocksConsistent()
    ensures db.wallet.Total() == (if old(db.wallet) == null then StartingBalance else old(db.wallet.Total()))
    ensures old(db.wallet) != null && old(db.LocksConsistent()) ==> unchanged(db.wallet)
    ensures s.totalPnl == ActivePnl(db.bots)
    ensures s.lockedBalance == db.wallet.lockedBalance == LockedDemand(db.bots)
    ensures s.availableBalance == db.wallet.balance
    ensures s.availableBalance == (if old(db.wallet) == null then StartingBalance else old(db.wallet.Total())) - LockedDemand(db.bots)
    ensures s.currentBalance == s.availableBalance + s.lockedBalance + s.totalPnl
  {
    var wallet := db.wallet;
    if wallet == null {
      wallet := new Wallet(StartingBalance, 0.0);
      db.wallet := wallet;
    }
    var totalActivePnl := ActivePnl(db.bots);
    var actualLocked := LockedDemand(db.bots);
    if wallet.lockedBalance != actualLocked {
      wallet.balance := wallet.balance + (wallet.lockedBalance - actualLocked);
      wallet.lockedBalance := actualLocked;
    }
    s := WalletSummary(wallet.balance + wallet.lockedBalance + totalActivePnl, wallet.balance, wallet.lockedBalance, totalActivePnl);
  }

  function TransactionTime(t: WalletTransaction): real
  {
    t.createdAt as real
  }

  /**
   * `GetTransactions`: every transaction, newest first, cut to the
   * requested page; the total is the count before paging.
   */
  function TransactionsPage(transactions: seq<WalletTransaction>, page: int, pageSize: int): (r: PagedResult<WalletTransaction>)
    requires page >= 1 && 1 <= pageSize <= 100
    ensures r.page == page && r.pageSize == pageSize && r.totalCount == |transactions|
    ensures |r.items| <= pageSize
    ensures SortedDesc(r.items, TransactionTime)
    ensures forall k :: 0 <= k < |r.items| ==> r.items[k] in transactions
    ensures |r.items| > 0 ==> PageStart(page, pageSize) + |r.items| <= |transactions|
    ensures forall k :: 0 <= k < |r.items| ==>
      r.items[k] == SortDesc(transactions, TransactionTime)[PageStart(page, pageSize) + k]
  {
    var ordered := SortDesc(transactions, TransactionTime);
    var items := PageOf(ordered, page, pageSize);
    PageOfSlice(ordered, page, pageSize);
    PageOfSorted(ordered, page, pageSize, TransactionTime);
    forall k | 0 <= k < |items| ensures items[k] in transactions {
      SortDescElements(transactions, TransactionTime, items[k]);
    }
    PagedResult(items, page, pageSize, |transactions|)
  }

  /** Taken in turn, the pages list every transaction once, newest first: page p+1 starts where page p ends. */
  lemma TransactionPagesCover(transactions: seq<WalletTransaction>, page: int, pageSize: int)
    requires page >= 1 && 1 <= pageSize <= 100
    requires PageStart(page, pageSize) + pageSize <= |transactions|
    ensures TransactionsPage(transactions, page, pageSize).items + Skip(SortDesc(transactions, TransactionTime), PageStart(page + 1, pageSize))
      == Skip(SortDesc(transactions, TransactionTime), PageStart(page, pageSize))
  {
    PagesAdjacent(SortDesc(transactions, TransactionTime), page, pageSize);
  }
}
