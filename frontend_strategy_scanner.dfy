/**
 * The batch back-test panel of the web client: the symbols to test, the
 * request it sends, and the sortable table of results.
 *
 * The component's state is a class whose fields the handlers reassign;
 * the sort comparator and the updaters are functions. The batch scan call
 * is the oracle `scan`.
 */
module StrategyScannerPanelView {
  import opened Common
  import opened Listing
  import opened Text
  import opened ScannerDashboardView

  /** One row of the batch result table. */
  datatype BatchResultItem = BatchResultItem(
    symbol: string,
    totalPnlPercent: real,
    winRate: real,
    totalTrades: real,
    maxDrawdown: real,
    profitFactor: real,
    sharpeRatio: real,
    success: bool,
    errorMessage: Option<string>)

  /** The numeric columns of the table a click can sort by. */
  datatype SortKey = TotalPnlPercent | WinRate | TotalTrades | MaxDrawdown

  datatype Direction = Asc | Desc

  datatype SortConfig = SortConfig(key: SortKey, direction: Direction)

  // ------------------------------------------------------------ sorting

  /**
   * `requestSort`: a column is first sorted descending; a second click on a
   * column sorted descending turns it ascending, and any other click
   * descending again.
   */
  function NextSortConfig(config: Option<SortConfig>, key: SortKey): SortConfig
  {
    if config.Some? && config.value.key == key && config.value.direction == Desc then SortConfig(key, Asc)
    else SortConfig(key, Desc)
  }

  /** A new column starts descending, and clicks on the same column alternate the direction. */
  lemma NextSortConfigFacts(config: Option<SortConfig>, key: SortKey)
    ensures NextSortConfig(config, key).key == key
    ensures config.None? || config.value.key != key ==> NextSortConfig(config, key).direction == Desc
    ensures config.Some? && config.value.key == key ==> NextSortConfig(config, key).direction != config.value.direction
    ensures NextSortConfig(Some(NextSortConfig(config, key)), key).direction != NextSortConfig(config, key).direction
    ensures NextSortConfig(Some(NextSortConfig(Some(NextSortConfig(config, key)), key)), key) == NextSortConfig(config, key)
  {
  }

  function KeyValue(key: SortKey): BatchResultItem -> real
  {
    match key
    case TotalPnlPercent => (r: BatchResultItem) => r.totalPnlPercent
    case WinRate => (r: BatchResultItem) => r.winRate
    case TotalTrades => (r: BatchResultItem) => r.totalTrades
    case MaxDrawdown => (r: BatchResultItem) => r.maxDrawdown
  }

  /** `sortedResults`: the results as they came without a sort, else sorted on the column in its direction. */
  function SortedResults(results: seq<BatchResultItem>, config: Option<SortConfig>): seq<BatchResultItem>
  {
    if config.None? then results
    else if config.value.direction == Asc then SortAsc(results, KeyValue(config.value.key))
    else SortDesc(results, KeyValue(config.value.key))
  }

  /**
   * The table shows the same rows as the results, as often as they occur;
   * with a sort they are ordered on the column in the chosen direction.
   */
  lemma SortedResultsFacts(results: seq<BatchResultItem>, config: Option<SortConfig>)
    ensures multiset(SortedResults(results, config)) == multiset(results)
    ensures config.None? ==> SortedResults(results, config) == results
    ensures config.Some? && config.value.direction == Asc ==>
              forall i, j :: 0 <= i < j < |results| ==>
                KeyValue(config.value.key)(SortedResults(results, config)[i]) <= KeyValue(config.value.key)(SortedResults(results, config)[j])
    ensures config.Some? && config.value.direction == Desc ==>
              forall i, j :: 0 <= i < j < |results| ==>
                KeyValue(config.value.key)(SortedResults(results, config)[i]) >= KeyValue(config.value.key)(SortedResults(results, config)[j])
  {
  }

  // ------------------------------------------------------------ selection

  /** The panel's `filteredCoins`: the coins whose symbol contains the search term, ignoring case, in their order. */
  function SearchedCoins(coins: seq<Coin>, term: string): seq<Coin>
  {
    Filter(coins, MatchesSearch(term))
  }

  /**
   * The search shows exactly the matching coins, each as often as it
   * occurs; an empty term shows every coin.
   */
  lemma SearchedCoinsFacts(coins: seq<Coin>, term: string)
    ensures forall c :: c in SearchedCoins(coins, term) <==> c in coins && Contains(Lower(c.symbol), Lower(term))
    ensures multiset(SearchedCoins(coins, term)) <= multiset(coins)
    ensures term == "" ==> SearchedCoins(coins, term) == coins
  {
    var r := SearchedCoins(coins, term);
    FilterSplit(coins, MatchesSearch(term), (c: Coin) => !MatchesSearch(term)(c));
    forall c ensures c in r <==> c in coins && Contains(Lower(c.symbol), Lower(term)) {
      assert c in r <==> c in multiset(r);
      if c in coins && Contains(Lower(c.symbol), Lower(term)) {
        var i :| 0 <= i < |coins| && coins[i] == c;
        assert c in multiset(coins);
      }
    }
    if term == "" {
      FilterAll(coins, MatchesSearch(term));
    }
  }

  /** `handleSelectTop`: the symbols of the first `count` coins, in order. */
  function TopSymbols(coins: seq<Coin>, count: nat): (r: seq<string>)
  {
    var top := Take(coins, count);
    seq(|top|, i requires 0 <= i < |top| => top[i].symbol)
  }

  /** The selection is the first `min(count, |coins|)` symbols, in the order of the coins. */
  lemma TopSymbolsFacts(coins: seq<Coin>, count: nat)
    ensures |TopSymbols(coins, count)| == if count < |coins| then count else |coins|
    ensures forall i :: 0 <= i < |TopSymbols(coins, count)| ==> TopSymbols(coins, count)[i] == coins[i].symbol
  {
  }

  /** The request the panel sends: the form's fields and the fixed commission and slippage rates. */
  datatype BatchScanRequest = BatchScanRequest(
    symbols: seq<string>,
    interval: string,
    strategyId: string,
    startDate: string,
    endDate: string,
    initialBalance: real,
    strategyParameters: map<string, string>,
    commissionRate: real,
    slippageRate: real)

  datatype BatchScanReply = BatchResults(results: seq<BatchResultItem>) | NoBatchResults | BatchFailed(message: string)

  const CommissionRate := 0.001
  const SlippageRate := 0.0005

  /** The panel's state. */
  class StrategyScannerPanel {
    var selectedSymbols: seq<string>
    var results: seq<BatchResultItem>
    var sortConfig: Option<SortConfig>

    constructor ()
      ensures selectedSymbols == [] && results == [] && sortConfig.None?
    {
      selectedSymbols := [];
      results := [];
      sortConfig := None;
    }

    method ToggleSymbol(symbol: string)
      modifies this
      ensures selectedSymbols == Toggled(old(selectedSymbols), symbol)
      ensures symbol in selectedSymbols <==> symbol !in old(selectedSymbols)
      ensures results == old(results) && sortConfig == old(sortConfig)
    {
      ToggleFacts(selectedSymbols, symbol);
      selectedSymbols := Toggled(selectedSymbols, symbol);
    }

    method SelectTop(coins: seq<Coin>, count: nat)
      modifies this
      ensures selectedSymbols == TopSymbols(coins, count)
      ensures results == old(results) && sortConfig == old(sortConfig)
    {
      selectedSymbols := TopSymbols(coins, count);
    }

    method RequestSort(key: SortKey)
      modifies this
      ensures sortConfig == Some(NextSortConfig(old(sortConfig), key))
      ensures selectedSymbols == old(selectedSymbols) && results == old(results)
    {
      sortConfig := Some(NextSortConfig(sortConfig, key));
    }

    /**
     * `handleRunScanner`: with nothing selected no request is sent and
     * nothing changes; otherwise the old results are cleared and replaced by
     * the reply's results when it has them.
     */
    method RunScanner(interval: string, strategy: string, startDate: string, endDate: string, balance: real,
                      parameters: map<string, string>, scan: BatchScanRequest -> BatchScanReply)
      returns (request: Option<BatchScanRequest>)
      modifies this
      ensures |old(selectedSymbols)| == 0 ==> request.None? && results == old(results)
      ensures |old(selectedSymbols)| > 0 ==>
                request == Some(BatchScanRequest(old(selectedSymbols), interval, strategy, startDate, endDate, balance,
                                                 parameters, CommissionRate, SlippageRate)) &&
                results == (if scan(request.value).BatchResults? then scan(request.value).results else [])
      ensures selectedSymbols == old(selectedSymbols) && sortConfig == old(sortConfig)
    {
      if |selectedSymbols| == 0 {
        return None;
      }
      results := [];
      var sent := BatchScanRequest(selectedSymbols, interval, strategy, startDate, endDate, balance, parameters,
                                   CommissionRate, SlippageRate);
      request := Some(sent);
      var reply := scan(sent);
      if reply.BatchResults? {
        results := reply.results;
      }
    }

    /** `sortedResults` over the current state. */
    function Sorted(): (r: seq<BatchResultItem>)
      reads this
      ensures multiset(r) == multiset(results)
      ensures sortConfig.None? ==> r == results
    {
      SortedResultsFacts(results, sortConfig);
      SortedResults(results, sortConfig)
    }
  }
}
