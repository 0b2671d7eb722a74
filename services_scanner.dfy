/**
 * `ScannerService`: the user's favorite symbol lists and the market scan.
 *
 * The favorite-list table is a class whose rows the service updates in
 * place; the GUIDs are naturals handed out by a counter, and 0 plays
 * `Guid.Empty`. A list stores its symbols joined with commas and hands them
 * back split with `RemoveEmptyEntries`. The clock is a parameter `now` in
 * minutes.
 *
 * The scan asks the exchange for three things, each an oracle here: the
 * symbol list (`exchange`, none when the request fails), the 24-hour
 * tickers (`tickers`, likewise) and the candles of a symbol on an interval
 * (`fetch`, none when the request fails or throws). The strategy the
 * factory builds is given by its two entry points, `score` and `analyze`.
 */
module ScannerServices {
  import opened Common
  import opened Listing
  import opened Text

  // ------------------------------------------------------------ favorite lists

  /** The `UserFavoriteList` entity: the symbols are one comma-separated string. */
  datatype UserFavoriteList = UserFavoriteList(id: nat, userId: string, name: string, symbols: string, createdAt: int)

  /** `ScannerFavoriteListDto`. */
  datatype FavoriteListDto = FavoriteListDto(id: nat, name: string, symbols: seq<string>, createdAt: int)

  /** `SaveFavoriteListDto`: an absent id (or the empty GUID, 0) asks for a new list. */
  datatype SaveFavoriteListDto = SaveFavoriteListDto(id: Option<nat>, name: string, symbols: seq<string>)

  const ListNotFound := "Liste bulunamadı."

  /** How a list stores its symbols: `string.Join(",", symbols)`. */
  function JoinSymbols(symbols: seq<string>): string
  {
    Join([','], symbols)
  }

  /** A list as the client sees it: the stored string split on commas, empty pieces dropped. */
  function ToDto(l: UserFavoriteList): FavoriteListDto
  {
    FavoriteListDto(l.id, l.name, SplitNonEmpty(l.symbols, ','), l.createdAt)
  }

  /** No symbol is empty and none holds the separator. */
  predicate Storable(symbols: seq<string>)
  {
    forall k :: 0 <= k < |symbols| ==> symbols[k] != "" && ',' !in symbols[k]
  }

  /** A stored list shows its symbols as they were saved exactly when they were storable. */
  lemma StoredSymbolsRoundTrip(l: UserFavoriteList, symbols: seq<string>)
    requires l.symbols == JoinSymbols(symbols)
    ensures ToDto(l).symbols == symbols <==> Storable(symbols)
  {
    SplitNonEmptyJoin(symbols, ',');
  }

  function Owner(userId: string): UserFavoriteList -> bool
  {
    (l: UserFavoriteList) => l.userId == userId
  }

  function CreatedAtKey(l: UserFavoriteList): real
  {
    l.createdAt as real
  }

  function Dtos(s: seq<UserFavoriteList>): (r: seq<FavoriteListDto>)
    ensures |r| == |s| && forall i :: 0 <= i < |s| ==> r[i] == ToDto(s[i])
  {
    seq(|s|, i requires 0 <= i < |s| => ToDto(s[i]))
  }

  /** `GetUserFavoritesAsync`: the user's lists, newest first. */
  function FavoritesOf(lists: seq<UserFavoriteList>, userId: string): seq<FavoriteListDto>
  {
    Dtos(SortDesc(Filter(lists, Owner(userId)), CreatedAtKey))
  }

  /** The user's favorites come newest first, one per list of the user. */
  lemma FavoritesNewestFirst(lists: seq<UserFavoriteList>, userId: string)
    ensures var r := FavoritesOf(lists, userId);
      |r| == CountWhere(lists, Owner(userId)) &&
      forall i, j :: 0 <= i < j < |r| ==> r[i].createdAt >= r[j].createdAt
  {
    var sorted := SortDesc(Filter(lists, Owner(userId)), CreatedAtKey);
    CountWhereIsFilterLength(lists, Owner(userId));
    var r := Dtos(sorted);
    forall i, j | 0 <= i < j < |r| ensures r[i].createdAt >= r[j].createdAt {
      assert CreatedAtKey(sorted[i]) >= CreatedAtKey(sorted[j]);
    }
  }

  /** Every list of the user is among the user's favorites. */
  lemma FavoritesComplete(lists: seq<UserFavoriteList>, userId: string, l: UserFavoriteList)
    requires l in lists && l.userId == userId
    ensures ToDto(l) in FavoritesOf(lists, userId)
  {
    var mine := Filter(lists, Owner(userId));
    var sorted := SortDesc(mine, CreatedAtKey);
    assert l in mine;
    SortDescElements(mine, CreatedAtKey, l);
    var i :| 0 <= i < |sorted| && sorted[i] == l;
    assert Dtos(sorted)[i] == ToDto(l);
  }

  /** Nothing but the user's own lists is among the user's favorites. */
  lemma FavoritesOnlyOwn(lists: seq<UserFavoriteList>, userId: string, i: int)
    requires 0 <= i < |FavoritesOf(lists, userId)|
    ensures exists l :: l in lists && l.userId == userId && FavoritesOf(lists, userId)[i] == ToDto(l)
  {
    var mine := Filter(lists, Owner(userId));
    var sorted := SortDesc(mine, CreatedAtKey);
    var l := sorted[i];
    SortDescElements(mine, CreatedAtKey, l);
    assert l in mine;
    assert FavoritesOf(lists, userId)[i] == ToDto(l);
  }

  /** The position of the list with this id that belongs to this user, if any. */
  function FindOwned(lists: seq<UserFavoriteList>, id: nat, userId: string): (r: Option<nat>)
    ensures r.Some? ==> r.value < |lists| && lists[r.value].id == id && lists[r.value].userId == userId
    ensures r.None? <==> forall i :: 0 <= i < |lists| ==> !(lists[i].id == id && lists[i].userId == userId)
  {
    if |lists| == 0 then None
    else if lists[0].id == id && lists[0].userId == userId then Some(0)
    else
      var rest := FindOwned(lists[1..], id, userId);
      assert forall i :: 1 <= i < |lists| ==> lists[i] == lists[1..][i - 1];
      if rest.None? then None else Some(rest.value + 1)
  }

  /** The ids of the table are all different. */
  predicate DistinctIds(lists: seq<UserFavoriteList>)
  {
    forall i, j :: 0 <= i < j < |lists| ==> lists[i].id != lists[j].id
  }

  /** The favorite-list table. */
  class FavoriteTable {
    var lists: seq<UserFavoriteList>
    /** The next GUID the database hands out; every stored id is below it and above the empty GUID. */
    var nextId: nat

    predicate Valid()
      reads this
    {
      0 < nextId && DistinctIds(lists) && forall i :: 0 <= i < |lists| ==> 0 < lists[i].id < nextId
    }

    constructor ()
      ensures lists == [] && nextId == 1
      ensures Valid()
    {
      lists := [];
      nextId := 1;
    }

    /** `GetUserFavoritesAsync`. */
    function GetUserFavorites(userId: string): (r: seq<FavoriteListDto>)
      reads this
      ensures |r| == CountWhere(lists, Owner(userId))
      ensures forall i, j :: 0 <= i < j < |r| ==> r[i].createdAt >= r[j].createdAt
      ensures forall l :: l in lists && l.userId == userId ==> ToDto(l) in r
    {
      FavoritesNewestFirst(lists, userId);
      forall l | l in lists && l.userId == userId ensures ToDto(l) in FavoritesOf(lists, userId) {
        FavoritesComplete(lists, userId, l);
      }
      FavoritesOf(lists, userId)
    }

    /**
     * `SaveFavoriteListAsync`. With an id, only a list of this user with
     * that id is renamed and given the new symbols; when there is none,
     * nothing changes and the call fails. Without an id (or with the empty
     * one), a new list of the user is added with a fresh id.
     */
    method SaveFavoriteList(userId: string, dto: SaveFavoriteListDto, now: int) returns (r: Result<nat>)
      requires Valid()
      modifies this
      ensures Valid()
      ensures dto.id.Some? && dto.id.value != 0 && FindOwned(old(lists), dto.id.value, userId).None? ==>
                r == Failure(ListNotFound) && lists == old(lists) && nextId == old(nextId)
      ensures dto.id.Some? && dto.id.value != 0 && FindOwned(old(lists), dto.id.value, userId).Some? ==>
                var k := FindOwned(old(lists), dto.id.value, userId).value;
                r == Success(dto.id.value) && nextId == old(nextId) &&
                lists == old(lists)[k := old(lists)[k].(name := dto.name, symbols := JoinSymbols(dto.symbols))]
      ensures (dto.id.None? || dto.id.value == 0) ==>
                r == Success(old(nextId)) && nextId == old(nextId) + 1 &&
                lists == old(lists) + [UserFavoriteList(old(nextId), userId, dto.name, JoinSymbols(dto.symbols), now)]
    {
      if dto.id.Some? && dto.id.value != 0 {
        var found := FindOwned(lists, dto.id.value, userId);
        if found.None? {
          return Failure(ListNotFound);
        }
        var k := found.value;
        var renamed := lists[k].(name := dto.name, symbols := JoinSymbols(dto.symbols));
        var ids := lists[k := renamed];
        assert forall i :: 0 <= i < |lists| ==> ids[i].id == lists[i].id;
        assert DistinctIds(ids);
        lists := ids;
        r := Success(dto.id.value);
      } else {
        var added := UserFavoriteList(nextId, userId, dto.name, JoinSymbols(dto.symbols), now);
        var grown := lists + [added];
        assert forall i :: 0 <= i < |lists| ==> grown[i] == lists[i];
        assert DistinctIds(grown);
        lists := grown;
        r := Success(nextId);
        nextId := nextId + 1;
      }
    }

    /** `DeleteFavoriteListAsync`: removes the list only when this user owns it; otherwise nothing happens. */
    method DeleteFavoriteList(userId: string, id: nat)
      requires Valid()
      modifies this
      ensures Valid() && nextId == old(nextId)
      ensures FindOwned(old(lists), id, userId).None? ==> lists == old(lists)
      ensures FindOwned(old(lists), id, userId).Some? ==>
                var k := FindOwned(old(lists), id, userId).value;
                lists == old(lists)[..k] + old(lists)[k + 1..]
    {
      var found := FindOwned(lists, id, userId);
      if found.Some? {
        var k := found.value;
        ghost var rest := lists[..k] + lists[k + 1..];
        assert forall i :: 0 <= i < k ==> rest[i] == lists[i];
        assert forall i :: k <= i < |rest| ==> rest[i] == lists[i + 1];
        lists := lists[..k] + lists[k + 1..];
      }
    }
  }

  /**
   * A save that succeeded leaves a list of the user with the returned id
   * and the given name, which reads back with exactly the saved symbols when
   * they were storable.
   */
  lemma SavedListReadsBack(lists: seq<UserFavoriteList>, userId: string, saved: UserFavoriteList, dto: SaveFavoriteListDto)
    requires saved in lists && saved.userId == userId
    requires saved.name == dto.name && saved.symbols == JoinSymbols(dto.symbols)
    ensures exists i :: 0 <= i < |FavoritesOf(lists, userId)| &&
              FavoritesOf(lists, userId)[i].id == saved.id && FavoritesOf(lists, userId)[i].name == dto.name &&
              (FavoritesOf(lists, userId)[i].symbols == dto.symbols <==> Storable(dto.symbols))
  {
    var r := FavoritesOf(lists, userId);
    FavoritesComplete(lists, userId, saved);
    var i :| 0 <= i < |r| && r[i] == ToDto(saved);
    StoredSymbolsRoundTrip(saved, dto.symbols);
  }

  /** Updating one of the user's lists leaves every other user's favorites as they were. */
  lemma UpdateKeepsOthers(lists: seq<UserFavoriteList>, k: int, name: string, symbols: string, userId: string, other: string)
    requires 0 <= k < |lists| && lists[k].userId == userId && other != userId
    ensures FavoritesOf(lists[k := lists[k].(name := name, symbols := symbols)], other) == FavoritesOf(lists, other)
  {
    FilterUpdate(lists, k, lists[k].(name := name, symbols := symbols), Owner(other));
  }

  /** Adding a list for the user leaves every other user's favorites as they were. */
  lemma InsertKeepsOthers(lists: seq<UserFavoriteList>, added: UserFavoriteList, other: string)
    requires added.userId != other
    ensures FavoritesOf(lists + [added], other) == FavoritesOf(lists, other)
  {
    FilterAppend(lists, [added], Owner(other));
    assert Filter([added], Owner(other)) == [];
    assert Filter(lists, Owner(other)) + [] == Filter(lists, Owner(other));
  }

  /**
   * Deleting one of the user's lists leaves every other user's favorites
   * as they were, and the deleted id is gone from the table.
   */
  lemma DeleteKeepsOthers(lists: seq<UserFavoriteList>, k: int, userId: string, other: string)
    requires 0 <= k < |lists| && lists[k].userId == userId && other != userId
    requires DistinctIds(lists)
    ensures FavoritesOf(lists[..k] + lists[k + 1..], other) == FavoritesOf(lists, other)
    ensures forall l :: l in lists[..k] + lists[k + 1..] ==> l.id != lists[k].id
  {
    FilterRemove(lists, k, Owner(other));
    forall l | l in lists[..k] + lists[k + 1..] ensures l.id != lists[k].id {
      var i :| 0 <= i < |lists[..k] + lists[k + 1..]| && (lists[..k] + lists[k + 1..])[i] == l;
      if i < k {
        assert l == lists[i];
      } else {
        assert l == lists[i + 1];
      }
    }
  }

  // ------------------------------------------------------------ kline interval

  /** Binance's `KlineInterval` values the scanner uses. */
  datatype KlineInterval =
    | OneMinute | ThreeMinutes | FiveMinutes | FifteenMinutes | ThirtyMinutes
    | OneHour | TwoHour | FourHour | OneDay

  /** `GetKlineInterval`: the named intervals, and one hour for anything else. */
  function GetKlineInterval(interval: string): (r: KlineInterval)
    ensures r == OneHour <==> interval !in ["1m", "3m", "5m", "15m", "30m", "2h", "4h", "1d"]
  {
    match interval
    case "1m" => OneMinute
    case "3m" => ThreeMinutes
    case "5m" => FiveMinutes
    case "15m" => FifteenMinutes
    case "30m" => ThirtyMinutes
    case "1h" => OneHour
    case "2h" => TwoHour
    case "4h" => FourHour
    case "1d" => OneDay
    case _ => OneHour
  }

  /** The text a client sends for an interval. */
  function IntervalName(k: KlineInterval): string
  {
    match k
    case OneMinute => "1m"
    case ThreeMinutes => "3m"
    case FiveMinutes => "5m"
    case FifteenMinutes => "15m"
    case ThirtyMinutes => "30m"
    case OneHour => "1h"
    case TwoHour => "2h"
    case FourHour => "4h"
    case OneDay => "1d"
  }

  /** Every interval is reachable, from its own name. */
  lemma IntervalNameRoundTrip(k: KlineInterval)
    ensures GetKlineInterval(IntervalName(k)) == k
  {
  }

  // ------------------------------------------------------------ symbol selection

  /** Only whether a symbol is trading matters to the scanner. */
  datatype SymbolStatus = Trading | NotTrading

  /** A symbol of the exchange information. */
  datatype SymbolInfo = SymbolInfo(name: string, status: SymbolStatus, quoteAsset: string)

  /** A 24-hour ticker. */
  datatype Ticker = Ticker(symbol: string, quoteVolume: real)

  /** The name patterns of leveraged tokens and of stable and fiat pairs. */
  predicate Excluded(name: string)
  {
    EndsWith(name, "UPUSDT") || EndsWith(name, "DOWNUSDT") || EndsWith(name, "BEARUSDT") || EndsWith(name, "BULLUSDT") ||
    Contains(name, "TUSD") || Contains(name, "USDC") || Contains(name, "FDUSD") ||
    Contains(name, "EUR") || Contains(name, "GBP") || Contains(name, "DAI")
  }

  /** A trading USDT symbol whose name is not excluded. */
  predicate Eligible(s: SymbolInfo)
  {
    s.status == Trading && s.quoteAsset == "USDT" && !Excluded(s.name)
  }

  /** The names of the eligible symbols, as the hash set the scan builds. */
  function ValidSymbols(exchange: seq<SymbolInfo>): set<string>
  {
    set s | s in exchange && Eligible(s) :: s.name
  }

  function QuoteVolume(t: Ticker): real
  {
    t.quoteVolume
  }

  /** How many symbols a scan picks by itself. */
  const TopCount := 100

  /** The tickers of valid symbols, by quote volume descending, at most `TopCount` of them. */
  function ChosenTickers(exchange: seq<SymbolInfo>, tickers: seq<Ticker>): seq<Ticker>
  {
    Take(SortDesc(ValidTickers(exchange, tickers), QuoteVolume), TopCount)
  }

  function TickerSymbols(s: seq<Ticker>): (r: seq<string>)
    ensures |r| == |s| && forall i :: 0 <= i < |s| ==> r[i] == s[i].symbol
  {
    seq(|s|, i requires 0 <= i < |s| => s[i].symbol)
  }

  function ValidTickers(exchange: seq<SymbolInfo>, tickers: seq<Ticker>): seq<Ticker>
  {
    var valid := ValidSymbols(exchange);
    Filter(tickers, (t: Ticker) => t.symbol in valid)
  }

  /** The pick is the first `TopCount` (or fewer) of the valid tickers by volume. */
  lemma ChosenPrefix(exchange: seq<SymbolInfo>, tickers: seq<Ticker>)
    ensures var sorted := SortDesc(ValidTickers(exchange, tickers), QuoteVolume);
      var n := if |sorted| < TopCount then |sorted| else TopCount;
      ChosenTickers(exchange, tickers) == sorted[..n]
  {
  }

  /** The scan picks at most 100 symbols, each the name of an eligible symbol of the exchange. */
  lemma ChosenEligible(exchange: seq<SymbolInfo>, tickers: seq<Ticker>)
    ensures var chosen := ChosenTickers(exchange, tickers);
      |chosen| <= TopCount &&
      forall i :: 0 <= i < |chosen| ==> exists s :: s in exchange && Eligible(s) && s.name == chosen[i].symbol
  {
    var kept := ValidTickers(exchange, tickers);
    var chosen := ChosenTickers(exchange, tickers);
    ChosenPrefix(exchange, tickers);
    forall i | 0 <= i < |chosen| ensures exists s :: s in exchange && Eligible(s) && s.name == chosen[i].symbol {
      SortDescElements(kept, QuoteVolume, chosen[i]);
      assert chosen[i] in kept;
      assert chosen[i].symbol in ValidSymbols(exchange);
    }
  }

  /** The picked symbols come by quote volume, highest first. */
  lemma ChosenByVolume(exchange: seq<SymbolInfo>, tickers: seq<Ticker>)
    ensures var chosen := ChosenTickers(exchange, tickers);
      forall i, j :: 0 <= i < j < |chosen| ==> chosen[i].quoteVolume >= chosen[j].quoteVolume
  {
    var sorted := SortDesc(ValidTickers(exchange, tickers), QuoteVolume);
    var chosen := ChosenTickers(exchange, tickers);
    ChosenPrefix(exchange, tickers);
    forall i, j | 0 <= i < j < |chosen| ensures chosen[i].quoteVolume >= chosen[j].quoteVolume {
      assert QuoteVolume(sorted[i]) >= QuoteVolume(sorted[j]);
    }
  }

  /** A ticker of a valid symbol that is left out trades no more than any ticker picked. */
  lemma ChosenAreTop(exchange: seq<SymbolInfo>, tickers: seq<Ticker>, t: Ticker)
    requires t in tickers && t.symbol in ValidSymbols(exchange)
    requires t !in ChosenTickers(exchange, tickers)
    ensures forall i :: 0 <= i < |ChosenTickers(exchange, tickers)| ==> t.quoteVolume <= ChosenTickers(exchange, tickers)[i].quoteVolume
  {
    var kept := ValidTickers(exchange, tickers);
    var sorted := SortDesc(kept, QuoteVolume);
    var chosen := ChosenTickers(exchange, tickers);
    ChosenPrefix(exchange, tickers);
    var n := if |sorted| < TopCount then |sorted| else TopCount;
    assert t in kept;
    SortDescElements(kept, QuoteVolume, t);
    var m :| 0 <= m < |sorted| && sorted[m] == t;
    assert m >= n;
    forall i | 0 <= i < |chosen| ensures t.quoteVolume <= chosen[i].quoteVolume {
      assert QuoteVolume(sorted[i]) >= QuoteVolume(sorted[m]);
    }
  }

  // ------------------------------------------------------------ scan

  /** `ScannerRequestDto`: an empty symbol list stands for both `null` and no symbols. */
  datatype ScanRequest = ScanRequest(symbols: seq<string>, strategyId: string, interval: string, minScore: Option<int>)

  /** `ScannerResultItemDto`. */
  datatype ScanItem = ScanItem(symbol: string, signalScore: real, suggestedAction: TradeAction, comment: string, lastPrice: real)

  /**
   * The symbols a scan visits: the requested ones, or else the exchange's
   * own pick when both exchange requests succeed, or else none.
   */
  function TargetSymbols(request: ScanRequest, exchange: Option<seq<SymbolInfo>>, tickers: Option<seq<Ticker>>): (r: seq<string>)
    ensures |request.symbols| > 0 ==> r == request.symbols
    ensures |request.symbols| == 0 && (exchange.None? || tickers.None?) ==> r == []
  {
    if |request.symbols| > 0 then request.symbols
    else if exchange.Some? && tickers.Some? then TickerSymbols(ChosenTickers(exchange.value, tickers.value))
    else []
  }

  /** The symbol as the exchange expects it: slashes removed, upper-cased. */
  function CleanSymbol(symbol: string): string
  {
    Upper(ReplaceAll(symbol, "/", ""))
  }

  /**
   * The result of one symbol: none when the candles cannot be had or are
   * empty, or when the score is below the minimum; else the score, the
   * strategy's action and description and the last close.
   */
  function ItemFor(symbol: string, interval: KlineInterval, minScore: Option<int>,
                   fetch: (string, KlineInterval) -> Option<seq<Candle>>,
                   score: seq<Candle> -> real, analyze: seq<Candle> -> StrategyResult): (r: Option<ScanItem>)
    ensures r.Some? <==> fetch(CleanSymbol(symbol), interval).Some? && |fetch(CleanSymbol(symbol), interval).value| > 0 &&
                         (minScore.None? || score(fetch(CleanSymbol(symbol), interval).value) >= minScore.value as real)
    ensures r.Some? ==> r.value.symbol == symbol && r.value.signalScore == score(fetch(CleanSymbol(symbol), interval).value)
  {
    var klines := fetch(CleanSymbol(symbol), interval);
    if klines.None? || |klines.value| == 0 then None
    else
      var candles := klines.value;
      var s := score(candles);
      if minScore.Some? && s < minScore.value as real then None
      else
        var analysis := analyze(candles);
        Some(ScanItem(symbol, s, analysis.action, analysis.description, candles[|candles| - 1].close))
  }

  /** The results of the symbols, in the order they were visited. */
  function ScanItems(symbols: seq<string>, interval: KlineInterval, minScore: Option<int>,
                     fetch: (string, KlineInterval) -> Option<seq<Candle>>,
                     score: seq<Candle> -> real, analyze: seq<Candle> -> StrategyResult): seq<ScanItem>
  {
    if |symbols| == 0 then []
    else
      var front := ScanItems(symbols[..|symbols| - 1], interval, minScore, fetch, score, analyze);
      var item := ItemFor(symbols[|symbols| - 1], interval, minScore, fetch, score, analyze);
      if item.Some? then front + [item.value] else front
  }

  function SignalScore(x: ScanItem): real
  {
    x.signalScore
  }

  /**
   * `ScanAsync`: every target symbol is visited in turn, the symbols that
   * give a result are collected, and the results are ordered by score,
   * highest first.
   */
  method Scan(request: ScanRequest, exchange: Option<seq<SymbolInfo>>, tickers: Option<seq<Ticker>>,
              fetch: (string, KlineInterval) -> Option<seq<Candle>>,
              score: seq<Candle> -> real, analyze: seq<Candle> -> StrategyResult) returns (results: seq<ScanItem>)
    ensures var interval := GetKlineInterval(request.interval);
      results == SortDesc(ScanItems(TargetSymbols(request, exchange, tickers), interval, request.minScore, fetch, score, analyze), SignalScore)
  {
    var interval := GetKlineInterval(request.interval);
    var targets := TargetSymbols(request, exchange, tickers);
    if |targets| == 0 {
      return [];
    }
    var found: seq<ScanItem> := [];
    for i := 0 to |targets|
      invariant found == ScanItems(targets[..i], interval, request.minScore, fetch, score, analyze)
    {
      var item := ItemFor(targets[i], interval, request.minScore, fetch, score, analyze);
      assert targets[..i + 1][..i] == targets[..i];
      if item.Some? {
        found := found + [item.value];
      }
    }
    assert targets[..|targets|] == targets;
    results := SortDesc(found, SignalScore);
  }

  /**
   * What a scan returns: results ordered by score, highest first; each for
   * a visited symbol and none below the minimum score; and every visited
   * symbol that has candles and reaches the minimum is among them.
   */
  lemma {:induction false} ScanItemsFacts(symbols: seq<string>, interval: KlineInterval, minScore: Option<int>,
                                          fetch: (string, KlineInterval) -> Option<seq<Candle>>,
                                          score: seq<Candle> -> real, analyze: seq<Candle> -> StrategyResult)
    ensures var r := ScanItems(symbols, interval, minScore, fetch, score, analyze);
      (forall x :: x in r ==> x.symbol in symbols) &&
      (forall x :: x in r && minScore.Some? ==> x.signalScore >= minScore.value as real) &&
      (forall k :: 0 <= k < |symbols| && ItemFor(symbols[k], interval, minScore, fetch, score, analyze).Some? ==>
         ItemFor(symbols[k], interval, minScore, fetch, score, analyze).value in r)
    decreases |symbols|
  {
    if |symbols| > 0 {
      var front := symbols[..|symbols| - 1];
      ScanItemsFacts(front, interval, minScore, fetch, score, analyze);
      assert forall k :: 0 <= k < |front| ==> symbols[k] == front[k];
    }
  }

  /** The sorted results keep exactly the items the symbols gave. */
  lemma ScanResults(symbols: seq<string>, interval: KlineInterval, minScore: Option<int>,
                    fetch: (string, KlineInterval) -> Option<seq<Candle>>,
                    score: seq<Candle> -> real, analyze: seq<Candle> -> StrategyResult)
    ensures var r := SortDesc(ScanItems(symbols, interval, minScore, fetch, score, analyze), SignalScore);
      (forall i, j :: 0 <= i < j < |r| ==> r[i].signalScore >= r[j].signalScore) &&
      (forall x :: x in r ==> x.symbol in symbols) &&
      (forall x :: x in r && minScore.Some? ==> x.signalScore >= minScore.value as real) &&
      (forall k :: 0 <= k < |symbols| && ItemFor(symbols[k], interval, minScore, fetch, score, analyze).Some? ==>
         ItemFor(symbols[k], interval, minScore, fetch, score, analyze).value in r)
  {
    var items := ScanItems(symbols, interval, minScore, fetch, score, analyze);
    var r := SortDesc(items, SignalScore);
    ScanItemsFacts(symbols, interval, minScore, fetch, score, analyze);
    forall x ensures x in r <==> x in items {
      SortDescElements(items, SignalScore, x);
    }
    forall i, j | 0 <= i < j < |r| ensures r[i].signalScore >= r[j].signalScore {
      assert SignalScore(r[i]) >= SignalScore(r[j]);
    }
  }
}
