/**
 * The scanner screen of the web client: picking symbols by hand or from a
 * favorite list, the coin search, the scan request and the score filter
 * over its results.
 *
 * The component's state is a class whose fields the handlers reassign; the
 * updaters and memos are functions. The scan call is the oracle `scan`.
 */
module ScannerDashboardView {
  import opened Common
  import opened Listing
  import opened Text

  datatype Coin = Coin(symbol: string, price: real)

  /**
   * A scan result as the client receives it: the score may arrive as
   * `signalScore`, as `SignalScore`, or not at all.
   */
  datatype ScanResultItem = ScanResultItem(symbol: string, signalScore: Option<real>, pascalSignalScore: Option<real>)

  datatype FavoriteList = FavoriteList(id: string, name: string, symbols: seq<string>)

  datatype ScanRequest = ScanRequest(symbols: seq<string>, interval: string, strategyId: string, minScore: Option<real>)

  /** What the scan call gives: a body with results, a body without them, or an error. */
  datatype ScanReply = Results(results: seq<ScanResultItem>) | NoResults | Failed(message: string)

  // ------------------------------------------------------------ selection

  function NotSymbol(symbol: string): string -> bool
  {
    (s: string) => s != symbol
  }

  /** `handleToggleSymbol`: a selected symbol is removed, another one is added at the end. */
  function Toggled(prev: seq<string>, symbol: string): seq<string>
  {
    if symbol in prev then Filter(prev, NotSymbol(symbol)) else prev + [symbol]
  }

  /**
   * Toggling flips the membership of that symbol and of no other, and a
   * selection without repeats stays without repeats.
   */
  lemma ToggleFacts(prev: seq<string>, symbol: string)
    ensures symbol in Toggled(prev, symbol) <==> symbol !in prev
    ensures forall s :: s != symbol ==> (s in Toggled(prev, symbol) <==> s in prev)
    ensures Distinct(prev) ==> Distinct(Toggled(prev, symbol))
  {
    if symbol in prev {
      if Distinct(prev) {
        FilterDistinct(prev, NotSymbol(symbol));
      }
    }
  }

  /**
   * Toggling the same symbol twice gives back the same selected symbols,
   * and the very same list when the symbol was not selected.
   */
  lemma ToggleTwice(prev: seq<string>, symbol: string)
    ensures forall s :: s in Toggled(Toggled(prev, symbol), symbol) <==> s in prev
    ensures symbol !in prev ==> Toggled(Toggled(prev, symbol), symbol) == prev
  {
    ToggleFacts(prev, symbol);
    ToggleFacts(Toggled(prev, symbol), symbol);
    if symbol !in prev {
      FilterAppend(prev, [symbol], NotSymbol(symbol));
      FilterAll(prev, NotSymbol(symbol));
      assert Filter([symbol], NotSymbol(symbol)) == [];
    }
  }

  // ------------------------------------------------------------ coin search

  function MatchesSearch(term: string): Coin -> bool
  {
    (c: Coin) => Contains(Lower(c.symbol), Lower(term))
  }

  function IsSelected(selected: seq<string>): Coin -> bool
  {
    (c: Coin) => c.symbol in selected
  }

  function IsUnselected(selected: seq<string>): Coin -> bool
  {
    (c: Coin) => c.symbol !in selected
  }

  /**
   * `filteredCoins`: the coins whose symbol contains the search term,
   * ignoring case, sorted with a comparator that only puts selected coins
   * before unselected ones. The sort is stable, so this is the selected
   * matches followed by the unselected ones, each in their original order.
   */
  function FilteredCoins(coins: seq<Coin>, term: string, selected: seq<string>): seq<Coin>
  {
    var filtered := Filter(coins, MatchesSearch(term));
    Filter(filtered, IsSelected(selected)) + Filter(filtered, IsUnselected(selected))
  }

  /** The list holds the matching coins, each as often as it occurs, and only them. */
  lemma FilteredCoinsMembers(coins: seq<Coin>, term: string, selected: seq<string>)
    ensures var r := FilteredCoins(coins, term, selected);
      multiset(r) == multiset(Filter(coins, MatchesSearch(term))) &&
      forall c :: c in r <==> c in coins && Contains(Lower(c.symbol), Lower(term))
  {
    var filtered := Filter(coins, MatchesSearch(term));
    var r := FilteredCoins(coins, term, selected);
    FilterSplit(filtered, IsSelected(selected), IsUnselected(selected));
    assert multiset(r) == multiset(filtered);
    forall c ensures c in r <==> c in coins && Contains(Lower(c.symbol), Lower(term)) {
      assert c in r <==> c in multiset(r);
      assert c in filtered <==> c in multiset(filtered);
      if c in coins && Contains(Lower(c.symbol), Lower(term)) {
        var i :| 0 <= i < |coins| && coins[i] == c;
      }
    }
  }

  /** No unselected coin comes before a selected one. */
  lemma FilteredCoinsSelectedFirst(coins: seq<Coin>, term: string, selected: seq<string>)
    ensures var r := FilteredCoins(coins, term, selected);
      forall i, j :: 0 <= i < j < |r| && r[j].symbol in selected ==> r[i].symbol in selected
  {
    var filtered := Filter(coins, MatchesSearch(term));
    PartitionFirst(Filter(filtered, IsSelected(selected)), Filter(filtered, IsUnselected(selected)), IsSelected(selected));
  }

  /** In a list of elements satisfying `p` followed by elements that do not, none of the latter comes first. */
  lemma PartitionFirst<T>(front: seq<T>, back: seq<T>, p: T -> bool)
    requires forall k :: 0 <= k < |front| ==> p(front[k])
    requires forall k :: 0 <= k < |back| ==> !p(back[k])
    ensures forall i, j :: 0 <= i < j < |front + back| && p((front + back)[j]) ==> p((front + back)[i])
  {
    var r := front + back;
    assert forall k :: |front| <= k < |r| ==> r[k] == back[k - |front|];
    assert forall k :: 0 <= k < |front| ==> r[k] == front[k];
  }

  /** An empty search term hides no coin. */
  lemma EmptySearchKeepsAll(coins: seq<Coin>, selected: seq<string>)
    ensures multiset(FilteredCoins(coins, "", selected)) == multiset(coins)
  {
    FilteredCoinsMembers(coins, "", selected);
    FilterAll(coins, MatchesSearch(""));
  }

  // ------------------------------------------------------------ results

  /** `r.signalScore ?? r.SignalScore ?? 0`: a score of 0 is kept, only a missing one falls through. */
  function DisplayScore(r: ScanResultItem): real
  {
    if r.signalScore.Some? then r.signalScore.value
    else if r.pascalSignalScore.Some? then r.pascalSignalScore.value
    else 0.0
  }

  function ScoreAtLeast(minScore: real): ScanResultItem -> bool
  {
    (r: ScanResultItem) => DisplayScore(r) >= minScore
  }

  /** `displayResults`: the results scoring at least the minimum, in their order. */
  function DisplayResults(results: seq<ScanResultItem>, minScore: real): seq<ScanResultItem>
  {
    Filter(results, ScoreAtLeast(minScore))
  }

  /** Exactly the results whose score reaches the minimum are shown. */
  lemma DisplayResultsFacts(results: seq<ScanResultItem>, minScore: real)
    ensures forall x :: x in DisplayResults(results, minScore) <==> x in results && DisplayScore(x) >= minScore
    ensures multiset(DisplayResults(results, minScore)) <= multiset(results)
  {
    forall x | x in results && DisplayScore(x) >= minScore ensures x in DisplayResults(results, minScore) {
      var i :| 0 <= i < |results| && results[i] == x;
    }
  }

  /** Raising the minimum only hides more: the stricter view filters the looser one. */
  lemma RaisingMinScoreNarrows(results: seq<ScanResultItem>, low: real, high: real)
    requires low <= high
    ensures DisplayResults(results, high) == Filter(DisplayResults(results, low), ScoreAtLeast(high))
  {
    FilterFilter(results, ScoreAtLeast(low), ScoreAtLeast(high), ScoreAtLeast(high));
  }

  /** The request `handleRunScanner` sends: the minimum only when it is positive. */
  function ScanRequestFor(selected: seq<string>, interval: string, strategy: string, minScore: real): (r: ScanRequest)
    ensures r.symbols == selected && r.interval == interval && r.strategyId == strategy
    ensures r.minScore.Some? <==> minScore > 0.0
    ensures r.minScore.Some? ==> r.minScore.value == minScore
  {
    ScanRequest(selected, interval, strategy, if minScore > 0.0 then Some(minScore) else None)
  }

  // ------------------------------------------------------------ the component state

  class ScannerDashboard {
    var selectedSymbols: seq<string>
    var selectedListId: Option<string>
    var results: seq<ScanResultItem>
    var hasScanned: bool
    var minScore: real

    constructor ()
      ensures selectedSymbols == [] && selectedListId.None? && results == [] && !hasScanned && minScore == 50.0
    {
      selectedSymbols := [];
      selectedListId := None;
      results := [];
      hasScanned := false;
      minScore := 50.0;
    }

    method ToggleSymbol(symbol: string)
      modifies this
      ensures selectedSymbols == Toggled(old(selectedSymbols), symbol)
      ensures Distinct(old(selectedSymbols)) ==> Distinct(selectedSymbols)
      ensures selectedListId == old(selectedListId) && results == old(results) && hasScanned == old(hasScanned) && minScore == old(minScore)
    {
      ToggleFacts(selectedSymbols, symbol);
      selectedSymbols := Toggled(selectedSymbols, symbol);
    }

    /** Clicking a favorite list: its symbols replace the whole selection. */
    method SelectFavoriteList(list: FavoriteList)
      modifies this
      ensures selectedSymbols == list.symbols && selectedListId == Some(list.id)
      ensures results == old(results) && hasScanned == old(hasScanned) && minScore == old(minScore)
    {
      selectedListId := Some(list.id);
      selectedSymbols := list.symbols;
    }

    /**
     * `handleRunScanner`: the old results are cleared before the call, and
     * replaced by the reply's results when it has them; a reply without
     * results or an error leaves the list empty.
     */
    method RunScanner(interval: string, strategy: string, scan: ScanRequest -> ScanReply) returns (request: ScanRequest)
      modifies this
      ensures request == ScanRequestFor(old(selectedSymbols), interval, strategy, old(minScore))
      ensures results == (if scan(request).Results? then scan(request).results else [])
      ensures hasScanned == (old(hasScanned) || scan(request).Results?)
      ensures selectedSymbols == old(selectedSymbols) && selectedListId == old(selectedListId) && minScore == old(minScore)
    {
      results := [];
      request := ScanRequestFor(selectedSymbols, interval, strategy, minScore);
      var reply := scan(request);
      if reply.Results? {
        results := reply.results;
        hasScanned := true;
      }
    }

    /** `displayResults` over the current state. */
    function Displayed(): (r: seq<ScanResultItem>)
      reads this
      ensures forall x :: x in r <==> x in results && DisplayScore(x) >= minScore
    {
      DisplayResultsFacts(results, minScore);
      DisplayResults(results, minScore)
    }
  }
}
