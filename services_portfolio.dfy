/**
 * `PortfolioService.GetPortfolioSummaryAsync`: the running bots grouped into
 * assets by symbol, each valued at the market price, their shares of the
 * portfolio, the risk metrics (concentration, beta, ratios from the closed
 * bots' returns and a risk level) and the rebalancing suggestions against
 * the 40/25/rest target weights.
 *
 * The market prices and 24-hour changes come from the exchange and are
 * maps from symbol to value; a symbol missing from a map takes the
 * service's default. The volatility, which needs a square root, is a
 * parameter. The order of the closed bots by exit date is given by
 * `exitTime`, which the bot model does not carry.
 */
module PortfolioServices {
  import opened Common
  import opened Listing
  import opened Text
  import opened Trading

  // ------------------------------------------------------------ base asset

  /** The quote currencies `ExtractBaseAsset` strips, in the order it tries them. */
  const QuoteAssets: seq<string> := ["USDT", "USDC", "BUSD", "BTC", "ETH", "BNB", "FDUSD"]

  /** Strips the first of `quotes` that the symbol ends with, ignoring case. */
  function StripQuote(symbol: string, quotes: seq<string>): (r: string)
    ensures |r| <= |symbol| && r == symbol[..|r|]
    ensures (forall k :: 0 <= k < |quotes| ==> !EndsWithIgnoreCase(symbol, quotes[k])) ==> r == symbol
    decreases |quotes|
  {
    if |quotes| == 0 then symbol
    else if EndsWithIgnoreCase(symbol, quotes[0]) then symbol[..|symbol| - |quotes[0]|]
    else StripQuote(symbol, quotes[1..])
  }

  /** `ExtractBaseAsset`: "BTC/USDT" gives "BTC", "ETHUSDT" gives "ETH". */
  function ExtractBaseAsset(symbol: string): (r: string)
    ensures |r| <= |symbol| && r == symbol[..|r|]
  {
    if '/' in symbol then
      SplitFirst(symbol, '/');
      Split(symbol, '/')[0]
    else StripQuote(symbol, QuoteAssets)
  }

  /** With a slash the base asset is the text before the first one, and contains no slash. */
  lemma ExtractBaseAssetSlash(symbol: string)
    requires '/' in symbol
    ensures ExtractBaseAsset(symbol) == symbol[..IndexOf(symbol, '/')]
    ensures '/' !in ExtractBaseAsset(symbol)
  {
    SplitFirst(symbol, '/');
  }

  /** A symbol that has no slash and ends in none of the quotes is its own base asset. */
  lemma ExtractBaseAssetUnknownQuote(symbol: string)
    requires '/' !in symbol
    requires forall k :: 0 <= k < |QuoteAssets| ==> !EndsWithIgnoreCase(symbol, QuoteAssets[k])
    ensures ExtractBaseAsset(symbol) == symbol
  {
  }

  /** A USDT pair gives back the coin it was built from. */
  lemma ExtractBaseAssetUsdt(coin: string)
    requires '/' !in coin
    ensures ExtractBaseAsset(coin + "USDT") == coin
  {
    var symbol := coin + "USDT";
    assert '/' !in symbol by {
      assert forall i :: 0 <= i < |"USDT"| ==> "USDT"[i] != '/';
    }
    UpperAppend(coin, "USDT");
    assert Upper("USDT") == "USDT" by {
      assert UpperChar('U') == 'U' && UpperChar('S') == 'S' && UpperChar('D') == 'D' && UpperChar('T') == 'T';
      assert forall i :: 0 <= i < 4 ==> Upper("USDT")[i] == "USDT"[i];
    }
    assert EndsWith(Upper(symbol), Upper(QuoteAssets[0])) by {
      var u := Upper(symbol);
      assert u == Upper(coin) + "USDT";
      assert u[|u| - 4..] == "USDT";
    }
    assert symbol[..|symbol| - 4] == coin;
  }

  // ------------------------------------------------------------ assets

  /** `PortfolioAssetDto`; `FirstBuyDate` is not part of this model. */
  datatype Asset = Asset(
    symbol: string,
    baseAsset: string,
    quantity: real,
    averageCost: real,
    currentPrice: real,
    currentValue: real,
    totalInvested: real,
    pnl: real,
    pnlPercent: real,
    allocationPercent: real,
    dailyChange: real)

  function SymbolOf(b: Bot): string { b.symbol }

  function Amount(b: Bot): real { b.amount }

  /** The coins a bot bought: its amount over its entry price, an entry price of 0 counting as 1. */
  function Quantity(b: Bot): real
  {
    b.amount / (if b.entryPrice > 0.0 then b.entryPrice else 1.0)
  }

  function Value(a: Asset): real { a.currentValue }

  function Invested(a: Asset): real { a.totalInvested }

  function Allocation(a: Asset): real { a.allocationPercent }

  /** `GetValueOrDefault`. */
  function ValueOr(m: map<string, real>, k: string, default: real): real
  {
    if k in m then m[k] else default
  }

  /** The asset row of one symbol group, before its allocation is known. */
  function AssetOf(symbol: string, group: seq<Bot>, prices: map<string, real>, changes: map<string, real>): Asset
  {
    var quantity := SumOver(group, Quantity);
    var invested := SumOver(group, Amount);
    var avgCost := AverageCost(group);
    var price := ValueOr(prices, symbol, avgCost);
    var value := quantity * price;
    var pnl := value - invested;
    Asset(symbol, ExtractBaseAsset(symbol), quantity, avgCost, price, value, invested,
          pnl, if invested > 0.0 then pnl / invested * 100.0 else 0.0, 0.0, ValueOr(changes, symbol, 0.0))
  }

  /** What the group invested over the coins it bought, 0 when it bought none (lines 65-68). */
  function AverageCost(group: seq<Bot>): real
  {
    var quantity := SumOver(group, Quantity);
    if quantity > 0.0 then SumOver(group, Amount) / quantity else 0.0
  }

  /** The average cost times the quantity is what the group invested. */
  lemma AverageCostTimesQuantity(group: seq<Bot>)
    requires SumOver(group, Quantity) > 0.0
    ensures AverageCost(group) * SumOver(group, Quantity) == SumOver(group, Amount)
  {
    DivTimes(SumOver(group, Amount), SumOver(group, Quantity));
  }

  /**
   * The average cost is a weighted average of the entry prices: with every
   * entry price in `[lo, hi]` (and positive) it lies in `[lo, hi]` too.
   */
  lemma AverageCostBetweenEntries(group: seq<Bot>, lo: real, hi: real)
    requires 0.0 < lo <= hi
    requires forall i :: 0 <= i < |group| ==> group[i].amount >= 0.0 && lo <= group[i].entryPrice <= hi
    requires SumOver(group, Quantity) > 0.0
    ensures lo <= AverageCost(group) <= hi
  {
    WeightedEntryBounds(group, lo, hi);
  }

  /** The amount over the quantity lies between the smallest and the largest entry price. */
  lemma WeightedEntryBounds(group: seq<Bot>, lo: real, hi: real)
    requires 0.0 < lo <= hi
    requires forall i :: 0 <= i < |group| ==> group[i].amount >= 0.0 && lo <= group[i].entryPrice <= hi
    requires SumOver(group, Quantity) > 0.0
    ensures lo <= SumOver(group, Amount) / SumOver(group, Quantity) <= hi
  {
    QuantitySumBounds(group, lo, hi);
    DivCompare(SumOver(group, Amount), SumOver(group, Quantity), hi);
    DivCompare(SumOver(group, Amount), SumOver(group, Quantity), lo);
  }

  lemma QuantitySumBounds(group: seq<Bot>, lo: real, hi: real)
    requires 0.0 < lo <= hi
    requires forall i :: 0 <= i < |group| ==> group[i].amount >= 0.0 && lo <= group[i].entryPrice <= hi
    ensures SumOver(group, Amount) <= hi * SumOver(group, Quantity)
    ensures lo * SumOver(group, Quantity) <= SumOver(group, Amount)
  {
    QuantitySumAtMost(group, lo, hi);
    QuantitySumAtLeast(group, lo, hi);
  }

  lemma {:induction false} QuantitySumAtMost(group: seq<Bot>, lo: real, hi: real)
    requires 0.0 < lo <= hi
    requires forall i :: 0 <= i < |group| ==> group[i].amount >= 0.0 && lo <= group[i].entryPrice <= hi
    ensures SumOver(group, Amount) <= hi * SumOver(group, Quantity)
    decreases |group|
  {
    if |group| > 0 {
      QuantityBetween(group[0], lo, hi);
      QuantitySumAtMost(group[1..], lo, hi);
      MulAdd(hi, Quantity(group[0]), SumOver(group[1..], Quantity));
    }
  }

  lemma {:induction false} QuantitySumAtLeast(group: seq<Bot>, lo: real, hi: real)
    requires 0.0 < lo <= hi
    requires forall i :: 0 <= i < |group| ==> group[i].amount >= 0.0 && lo <= group[i].entryPrice <= hi
    ensures lo * SumOver(group, Quantity) <= SumOver(group, Amount)
    decreases |group|
  {
    if |group| > 0 {
      QuantityBetween(group[0], lo, hi);
      QuantitySumAtLeast(group[1..], lo, hi);
      MulAdd(lo, Quantity(group[0]), SumOver(group[1..], Quantity));
    }
  }

  /** One bot bought between `amount / hi` and `amount / lo` coins. */
  lemma QuantityBetween(b: Bot, lo: real, hi: real)
    requires 0.0 < lo <= hi
    requires b.amount >= 0.0 && lo <= b.entryPrice <= hi
    ensures b.amount <= hi * Quantity(b) && lo * Quantity(b) <= b.amount
  {
    var q := b.amount / b.entryPrice;
    assert Quantity(b) == q;
    assert q * b.entryPrice == b.amount;
    assert q >= 0.0;
    MulNonNegative(q, hi - b.entryPrice);
    MulNonNegative(q, b.entryPrice - lo);
  }

  /** The asset rows for the symbols `ks`, in that order. */
  function AssetsFor(ks: seq<string>, running: seq<Bot>, prices: map<string, real>, changes: map<string, real>): (r: seq<Asset>)
    ensures |r| == |ks|
  {
    seq(|ks|, i requires 0 <= i < |ks| => AssetOf(ks[i], Group(running, SymbolOf, ks[i]), prices, changes))
  }

  /** One asset row per symbol of the running bots, in order of first appearance. */
  function AssetsOf(running: seq<Bot>, prices: map<string, real>, changes: map<string, real>): (r: seq<Asset>)
  {
    AssetsFor(GroupKeys(running, SymbolOf), running, prices, changes)
  }

  /** The invested amounts of the rows add up to the group sums. */
  lemma {:induction false} AssetsForInvested(ks: seq<string>, running: seq<Bot>, prices: map<string, real>, changes: map<string, real>)
    ensures SumOver(AssetsFor(ks, running, prices, changes), Invested) == SumGroups(ks, running, SymbolOf, Amount)
    decreases |ks|
  {
    if |ks| > 0 {
      var r := AssetsFor(ks, running, prices, changes);
      assert r[1..] == AssetsFor(ks[1..], running, prices, changes);
      AssetsForInvested(ks[1..], running, prices, changes);
      assert Invested(r[0]) == SumOver(Group(running, SymbolOf, ks[0]), Amount);
      assert SumOver(r, Invested) == Invested(r[0]) + SumOver(r[1..], Invested);
    }
  }

  /**
   * The summary loop (lines 58-96): one row per symbol group, and the running
   * totals of value and investment. What the rows invested is exactly what the
   * running bots put in.
   */
  method BuildAssets(running: seq<Bot>, prices: map<string, real>, changes: map<string, real>)
    returns (assets: seq<Asset>, totalValue: real, totalInvested: real)
    ensures assets == AssetsOf(running, prices, changes)
    ensures |assets| == |GroupKeys(running, SymbolOf)|
    ensures totalValue == SumOver(assets, Value)
    ensures totalInvested == SumOver(running, Amount)
  {
    var ks := GroupKeys(running, SymbolOf);
    assets, totalValue, totalInvested := BuildRows(ks, running, prices, changes);
    GroupSumsTotal(running, SymbolOf, Amount);
  }

  /** The loop itself, over the group keys `ks`. */
  method BuildRows(ks: seq<string>, running: seq<Bot>, prices: map<string, real>, changes: map<string, real>)
    returns (assets: seq<Asset>, totalValue: real, totalInvested: real)
    ensures assets == AssetsFor(ks, running, prices, changes)
    ensures totalValue == SumOver(assets, Value)
    ensures totalInvested == SumGroups(ks, running, SymbolOf, Amount)
  {
    ghost var all := AssetsFor(ks, running, prices, changes);
    assets := [];
    totalValue := 0.0;
    totalInvested := 0.0;
    var i := 0;
    while i < |ks|
      invariant all == AssetsFor(ks, running, prices, changes)
      invariant BuiltUpTo(all, i, assets, totalValue, totalInvested)
    {
      assets, totalValue, totalInvested := AddRow(ks, running, prices, changes, i, all, assets, totalValue, totalInvested);
      i := i + 1;
    }
    BuiltAll(all, assets, totalValue, totalInvested);
    AssetsForInvested(ks, running, prices, changes);
  }

  /** One round of the summary loop: the row of the `i`-th symbol, added to the totals. */
  method AddRow(ks: seq<string>, running: seq<Bot>, prices: map<string, real>, changes: map<string, real>, i: int,
                ghost all: seq<Asset>, assets: seq<Asset>, totalValue: real, totalInvested: real)
    returns (assets': seq<Asset>, totalValue': real, totalInvested': real)
    requires all == AssetsFor(ks, running, prices, changes) && 0 <= i < |ks|
    requires BuiltUpTo(all, i, assets, totalValue, totalInvested)
    ensures BuiltUpTo(all, i + 1, assets', totalValue', totalInvested')
  {
    BuildStep(all, i, assets, totalValue, totalInvested);
    AssetsForAt(ks, running, prices, changes, i);
    var a := AssetOf(ks[i], Group(running, SymbolOf, ks[i]), prices, changes);
    assets' := assets + [a];
    totalValue' := totalValue + a.currentValue;
    totalInvested' := totalInvested + a.totalInvested;
  }

  lemma AssetsForAt(ks: seq<string>, running: seq<Bot>, prices: map<string, real>, changes: map<string, real>, i: int)
    requires 0 <= i < |ks|
    ensures AssetsFor(ks, running, prices, changes)[i] == AssetOf(ks[i], Group(running, SymbolOf, ks[i]), prices, changes)
  {
  }

  /** After `i` rounds the loop holds the first `i` rows and their sums. */
  ghost predicate BuiltUpTo(all: seq<Asset>, i: int, assets: seq<Asset>, totalValue: real, totalInvested: real)
  {
    0 <= i <= |all| && assets == all[..i]
    && totalValue == SumOver(assets, Value) && totalInvested == SumOver(assets, Invested)
  }

  lemma BuildStep(all: seq<Asset>, i: int, assets: seq<Asset>, totalValue: real, totalInvested: real)
    requires BuiltUpTo(all, i, assets, totalValue, totalInvested) && i < |all|
    ensures BuiltUpTo(all, i + 1, assets + [all[i]], totalValue + all[i].currentValue, totalInvested + all[i].totalInvested)
  {
    SumOverSnoc(assets, all[i], Value);
    SumOverSnoc(assets, all[i], Invested);
    assert all[..i + 1] == all[..i] + [all[i]];
  }

  lemma BuiltAll(all: seq<Asset>, assets: seq<Asset>, totalValue: real, totalInvested: real)
    requires BuiltUpTo(all, |all|, assets, totalValue, totalInvested)
    ensures assets == all && totalValue == SumOver(all, Value) && totalInvested == SumOver(all, Invested)
  {
    assert all[..|all|] == all;
  }

  // ------------------------------------------------------------ allocation

  /** An asset's share of the portfolio value, in percent; 0 when the portfolio is worth nothing. */
  function AllocationOf(value: real, totalValue: real): real
  {
    if totalValue > 0.0 then value / totalValue * 100.0 else 0.0
  }

  function Allocated(assets: seq<Asset>, totalValue: real): (r: seq<Asset>)
    ensures |r| == |assets|
  {
    seq(|assets|, i requires 0 <= i < |assets| =>
      assets[i].(allocationPercent := AllocationOf(assets[i].currentValue, totalValue)))
  }

  /** The allocation loop (lines 99-104): each row gets its share, nothing else changes. */
  method AssignAllocations(assets: seq<Asset>, totalValue: real) returns (r: seq<Asset>)
    ensures r == Allocated(assets, totalValue)
  {
    r := assets;
    var i := 0;
    while i < |r|
      invariant 0 <= i <= |r| == |assets|
      invariant forall j :: 0 <= j < i ==> r[j] == Allocated(assets, totalValue)[j]
      invariant forall j :: i <= j < |r| ==> r[j] == assets[j]
    {
      r := r[i := r[i].(allocationPercent := AllocationOf(r[i].currentValue, totalValue))];
      i := i + 1;
    }
  }

  /** The shares sum to the values over the total, in percent. */
  lemma {:induction false} AllocatedSum(assets: seq<Asset>, totalValue: real)
    requires totalValue > 0.0
    ensures SumOver(Allocated(assets, totalValue), Allocation) == SumOver(assets, Value) / totalValue * 100.0
    decreases |assets|
  {
    if |assets| > 0 {
      var r := Allocated(assets, totalValue);
      assert r[1..] == Allocated(assets[1..], totalValue);
      AllocatedSum(assets[1..], totalValue);
      var v := assets[0].currentValue;
      var rest := SumOver(assets[1..], Value);
      assert v / totalValue * 100.0 + rest / totalValue * 100.0 == (v + rest) / totalValue * 100.0;
    }
  }

  /** Assigning shares changes no value. */
  lemma {:induction false} AllocatedKeepsValues(assets: seq<Asset>, totalValue: real)
    ensures SumOver(Allocated(assets, totalValue), Value) == SumOver(assets, Value)
    decreases |assets|
  {
    if |assets| > 0 {
      assert Allocated(assets, totalValue)[1..] == Allocated(assets[1..], totalValue);
      AllocatedKeepsValues(assets[1..], totalValue);
    }
  }

  /** With a positive total the shares sum to 100; with none every share is 0. */
  lemma AllocationsSumTo100(assets: seq<Asset>, totalValue: real)
    requires totalValue == SumOver(assets, Value)
    ensures totalValue > 0.0 ==> SumOver(Allocated(assets, totalValue), Allocation) == 100.0
    ensures totalValue <= 0.0 ==> forall i :: 0 <= i < |assets| ==> Allocated(assets, totalValue)[i].allocationPercent == 0.0
  {
    if totalValue > 0.0 {
      AllocatedSum(assets, totalValue);
      assert totalValue / totalValue == 1.0;
    }
  }

  /** Non-negative values give non-negative shares. */
  lemma AllocationsNonNegative(assets: seq<Asset>, totalValue: real)
    requires forall i :: 0 <= i < |assets| ==> assets[i].currentValue >= 0.0
    ensures forall i :: 0 <= i < |Allocated(assets, totalValue)| ==> Allocated(assets, totalValue)[i].allocationPercent >= 0.0
  {
    forall i | 0 <= i < |assets| ensures Allocated(assets, totalValue)[i].allocationPercent >= 0.0 {
      if totalValue > 0.0 {
        assert assets[i].currentValue / totalValue >= 0.0;
      }
    }
  }

  // ------------------------------------------------------------ concentration and beta

  /** An asset's share as a fraction of 1. */
  function Weight(a: Asset): real { a.allocationPercent / 100.0 }

  function WeightSquared(a: Asset): real { Square(Weight(a)) }

  function Square(x: real): real { x * x }

  /** The Herfindahl index: the squared shares summed (lines 235-242); 0 with no assets. */
  function ConcentrationRisk(assets: seq<Asset>): real
  {
    if |assets| > 0 then SumOver(assets, WeightSquared) else 0.0
  }

  /** Shares that are non-negative and sum to 100 give an index in `(0, 1]`. */
  lemma ConcentrationBounds(assets: seq<Asset>)
    requires forall i :: 0 <= i < |assets| ==> assets[i].allocationPercent >= 0.0
    requires SumOver(assets, Allocation) == 100.0
    ensures 0.0 < ConcentrationRisk(assets) <= 1.0
  {
    assert |assets| > 0;
    ConcentrationAtMostOne(assets);
    ConcentrationPositive(assets);
  }

  lemma ConcentrationAtMostOne(assets: seq<Asset>)
    requires forall i :: 0 <= i < |assets| ==> assets[i].allocationPercent >= 0.0
    requires SumOver(assets, Allocation) == 100.0
    ensures SumOver(assets, WeightSquared) <= 1.0
  {
    assert SumOver(assets, Weight) == 1.0 by {
      SumOverScaled(assets, Allocation, Weight, 0.01);
    }
    SharesSquaredAtMost(assets);
    SumOverMonotone(assets, WeightSquared, Weight);
  }

  /** Each share of a whole is at most 100 percent. */
  lemma SharesAtMost100(assets: seq<Asset>)
    requires forall i :: 0 <= i < |assets| ==> assets[i].allocationPercent >= 0.0
    requires SumOver(assets, Allocation) == 100.0
    ensures forall i :: 0 <= i < |assets| ==> assets[i].allocationPercent <= 100.0
  {
    forall i | 0 <= i < |assets| ensures assets[i].allocationPercent <= 100.0 {
      SumOverElement(assets, Allocation, i);
    }
  }

  lemma SharesSquaredAtMost(assets: seq<Asset>)
    requires forall i :: 0 <= i < |assets| ==> assets[i].allocationPercent >= 0.0
    requires SumOver(assets, Allocation) == 100.0
    ensures forall i :: 0 <= i < |assets| ==> 0.0 <= WeightSquared(assets[i]) <= Weight(assets[i])
  {
    SharesAtMost100(assets);
    forall i | 0 <= i < |assets| ensures 0.0 <= WeightSquared(assets[i]) <= Weight(assets[i]) {
      ShareSquared(assets[i]);
    }
  }

  lemma ConcentrationPositive(assets: seq<Asset>)
    requires forall i :: 0 <= i < |assets| ==> assets[i].allocationPercent >= 0.0
    requires SumOver(assets, Allocation) == 100.0
    ensures SumOver(assets, WeightSquared) > 0.0
  {
    SharesSquaredAtMost(assets);
    var k := PositiveShare(assets);
    SharesAtMost100(assets);
    ShareSquared(assets[k]);
    SumOverPositive(assets, WeightSquared, k);
  }

  lemma ShareSquared(a: Asset)
    requires 0.0 <= a.allocationPercent <= 100.0
    ensures 0.0 <= WeightSquared(a) <= Weight(a)
    ensures a.allocationPercent > 0.0 ==> WeightSquared(a) > 0.0
  {
    assert 0.0 <= Weight(a) <= 1.0;
    assert a.allocationPercent > 0.0 ==> Weight(a) > 0.0;
    SquareAtMost(Weight(a));
  }

  /** A fraction in `[0, 1]` squared stays between 0 and itself, and is positive if it is. */
  lemma SquareAtMost(w: real)
    requires 0.0 <= w <= 1.0
    ensures 0.0 <= Square(w) <= w
    ensures w > 0.0 ==> Square(w) > 0.0
  {
    if w > 0.0 {
      var e := ProductWitness(w, w);
      MulNonNegative(w, 1.0 - w);
    } else {
      assert Square(w) == 0.0;
    }
  }

  /** Non-negative shares summing to 100 include a positive one. */
  lemma PositiveShare(assets: seq<Asset>) returns (k: int)
    requires forall i :: 0 <= i < |assets| ==> assets[i].allocationPercent >= 0.0
    requires SumOver(assets, Allocation) == 100.0
    ensures 0 <= k < |assets| && assets[k].allocationPercent > 0.0
  {
    if forall i :: 0 <= i < |assets| ==> assets[i].allocationPercent == 0.0 {
      SumOverZero(assets, Allocation);
    }
    k :| 0 <= k < |assets| && assets[k].allocationPercent > 0.0;
  }

  predicate IsBtc(a: Asset) { a.baseAsset == "BTC" }

  /** The BTC share as a fraction of 1. */
  function BtcShare(assets: seq<Asset>): real
  {
    SumOver(Filter(assets, IsBtc), Allocation) / 100.0
  }

  /** The simplified beta (lines 291-297): 1.0 for the BTC share, 1.5 for the rest. */
  function Beta(assets: seq<Asset>): real
  {
    var b := BtcShare(assets);
    b * 1.0 + (1.0 - b) * 1.5
  }

  /** Non-negative shares summing to at most 100 keep beta within `[1.0, 1.5]`. */
  lemma BetaBounds(assets: seq<Asset>)
    requires forall i :: 0 <= i < |assets| ==> assets[i].allocationPercent >= 0.0
    requires SumOver(assets, Allocation) <= 100.0
    ensures 1.0 <= Beta(assets) <= 1.5
  {
    SumOverFilterAtMost(assets, IsBtc, Allocation);
    var btc := Filter(assets, IsBtc);
    forall i | 0 <= i < |btc| ensures btc[i].allocationPercent >= 0.0 {
      assert btc[i] in assets;
    }
    SumOverNonNegative(btc, Allocation);
  }

  /** A portfolio without BTC has beta 1.5. */
  lemma BetaWithoutBtc(assets: seq<Asset>)
    requires forall i :: 0 <= i < |assets| ==> !IsBtc(assets[i])
    ensures Beta(assets) == 1.5
  {
    FilterNone(assets, IsBtc);
  }

  /** A portfolio held entirely in BTC has beta 1.0. */
  lemma BetaAllBtc(assets: seq<Asset>)
    requires forall i :: 0 <= i < |assets| ==> IsBtc(assets[i])
    requires SumOver(assets, Allocation) == 100.0
    ensures Beta(assets) == 1.0
  {
    FilterAll(assets, IsBtc);
  }

  // ------------------------------------------------------------ drawdown of the closed bots' rs

  /** The loop state of `CalculateMaxDrawdown`: cumulative return, its peak, the largest drawdown so far. */
  datatype DrawdownState = DrawdownState(equity: real, peak: real, maxDrawdown: real)

  /** The drawdown below a positive peak, in percent of the peak; none below a peak of 0 or less. */
  function DrawdownPercent(peak: real, equity: real): real
  {
    if peak > 0.0 then (peak - equity) / peak * 100.0 else 0.0
  }

  /** One return added to the running equity. */
  function DrawdownStep(st: DrawdownState, r: real): DrawdownState
  {
    var equity := st.equity + r;
    var peak := if equity > st.peak then equity else st.peak;
    var dd := DrawdownPercent(peak, equity);
    DrawdownState(equity, peak, if dd > st.maxDrawdown then dd else st.maxDrawdown)
  }

  /** The state after the given rs, from equity, peak and drawdown all 0. */
  function DrawdownAfter(rs: seq<real>): DrawdownState
  {
    if |rs| == 0 then DrawdownState(0.0, 0.0, 0.0)
    else DrawdownStep(DrawdownAfter(rs[..|rs| - 1]), rs[|rs| - 1])
  }

  /** `CalculateMaxDrawdown` (lines 320-336): the peak-to-trough fall of the cumulative rs, in percent. */
  method CalculateMaxDrawdown(rs: seq<real>) returns (maxDrawdown: real)
    ensures maxDrawdown == DrawdownAfter(rs).maxDrawdown
  {
    var peak := 0.0;
    maxDrawdown := 0.0;
    var equity := 0.0;
    var i := 0;
    while i < |rs|
      invariant 0 <= i <= |rs|
      invariant DrawdownState(equity, peak, maxDrawdown) == DrawdownAfter(rs[..i])
    {
      assert rs[..i + 1][..i] == rs[..i];
      equity := equity + rs[i];
      if equity > peak {
        peak := equity;
      }
      var drawdown := if peak > 0.0 then (peak - equity) / peak * 100.0 else 0.0;
      if drawdown > maxDrawdown {
        maxDrawdown := drawdown;
      }
      i := i + 1;
    }
    assert rs[..|rs|] == rs;
  }

  /** The largest drawdown only grows, from 0, and the peak never falls below 0 nor below the equity. */
  lemma {:induction false} DrawdownInvariant(rs: seq<real>)
    ensures DrawdownAfter(rs).maxDrawdown >= 0.0
    ensures DrawdownAfter(rs).peak >= 0.0
    ensures DrawdownAfter(rs).peak >= DrawdownAfter(rs).equity
    decreases |rs|
  {
    if |rs| > 0 {
      DrawdownInvariant(rs[..|rs| - 1]);
    }
  }

  /** Returns that are never negative make the cumulative equity its own peak, so nothing is drawn down. */
  lemma {:induction false} DrawdownOfGains(rs: seq<real>)
    requires forall i :: 0 <= i < |rs| ==> rs[i] >= 0.0
    ensures DrawdownAfter(rs).maxDrawdown == 0.0
    ensures DrawdownAfter(rs).peak == DrawdownAfter(rs).equity >= 0.0
    decreases |rs|
  {
    if |rs| > 0 {
      DrawdownOfGains(rs[..|rs| - 1]);
    }
  }

  /** A single loss from a positive peak is its share of the peak. */
  lemma DrawdownAfterLoss(gain: real, loss: real)
    requires gain > 0.0 && loss > 0.0
    ensures DrawdownAfter([gain, -loss]).maxDrawdown == loss / gain * 100.0
  {
    assert [gain, -loss][..1] == [gain];
    assert [gain][..0] == [];
    assert DrawdownAfter([gain][..0]) == DrawdownState(0.0, 0.0, 0.0);
    assert DrawdownPercent(gain, gain) == 0.0;
    var s1 := DrawdownAfter([gain]);
    assert s1 == DrawdownStep(DrawdownState(0.0, 0.0, 0.0), gain);
    assert s1 == DrawdownState(gain, gain, 0.0);
    var dd := DrawdownPercent(gain, gain - loss);
    assert dd == loss / gain * 100.0;
    assert dd > 0.0;
    assert DrawdownAfter([gain, -loss]) == DrawdownStep(s1, -loss);
  }

  // ------------------------------------------------------------ risk level

  /** `PortfolioRiskMetricsDto`; the ratios that need a square root (Sharpe, Sortino) are not part of this model. */
  datatype RiskMetrics = RiskMetrics(
    concentrationRisk: real,
    volatility: real,
    maxDrawdown: real,
    beta: real,
    riskLevel: string)

  const VeryHighRisk := "Çok Yüksek"
  const HighRisk := "Yüksek"
  const MediumRisk := "Orta"
  const LowRisk := "Düşük"
  const VeryLowRisk := "Çok Düşük"
  /** The level of an empty portfolio. */
  const NoRisk := "Yok"

  function ConcentrationPoints(c: real): (n: int)
    ensures 0 <= n <= 3
  {
    if c > 0.5 then 3 else if c > 0.25 then 2 else if c > 0.15 then 1 else 0
  }

  function VolatilityPoints(v: real): (n: int)
    ensures 0 <= n <= 3
  {
    if v > 1.0 then 3 else if v > 0.5 then 2 else if v > 0.2 then 1 else 0
  }

  function DrawdownPoints(d: real): (n: int)
    ensures 0 <= n <= 3
  {
    if d > 30.0 then 3 else if d > 15.0 then 2 else if d > 5.0 then 1 else 0
  }

  function BetaPoints(b: real): (n: int)
    ensures 0 <= n <= 2
  {
    if b > 2.0 then 2 else if b > 1.5 then 1 else 0
  }

  /** The risk score of lines 343-363: at most 3 + 3 + 3 + 2 points. */
  function RiskScore(concentration: real, volatility: real, maxDrawdown: real, beta: real): (n: int)
    ensures 0 <= n <= 11
  {
    ConcentrationPoints(concentration) + VolatilityPoints(volatility) + DrawdownPoints(maxDrawdown) + BetaPoints(beta)
  }

  /** The label of a score, by the thresholds 8, 6, 4 and 2 (lines 365-372). */
  function LevelOfScore(score: int): (r: string)
    ensures score >= 8 <==> r == VeryHighRisk
    ensures 6 <= score < 8 <==> r == HighRisk
    ensures 4 <= score < 6 <==> r == MediumRisk
    ensures 2 <= score < 4 <==> r == LowRisk
    ensures score < 2 <==> r == VeryLowRisk
  {
    if score >= 8 then VeryHighRisk
    else if score >= 6 then HighRisk
    else if score >= 4 then MediumRisk
    else if score >= 2 then LowRisk
    else VeryLowRisk
  }

  /** `DetermineRiskLevel`. */
  function DetermineRiskLevel(m: RiskMetrics): (r: string)
    ensures r in {VeryHighRisk, HighRisk, MediumRisk, LowRisk, VeryLowRisk}
  {
    LevelOfScore(RiskScore(m.concentrationRisk, m.volatility, m.maxDrawdown, m.beta))
  }

  /** The rank of a label: a higher score never gives a lower label. */
  function LevelRank(level: string): int
  {
    if level == VeryHighRisk then 4 else if level == HighRisk then 3 else if level == MediumRisk then 2
    else if level == LowRisk then 1 else 0
  }

  lemma LevelMonotone(s: int, t: int)
    requires s <= t
    ensures LevelRank(LevelOfScore(s)) <= LevelRank(LevelOfScore(t))
  {
  }

  /** A more concentrated portfolio is never rated less risky, all else equal. */
  lemma RiskLevelMonotoneInConcentration(m: RiskMetrics, c: real)
    requires m.concentrationRisk <= c
    ensures LevelRank(DetermineRiskLevel(m)) <= LevelRank(DetermineRiskLevel(m.(concentrationRisk := c)))
  {
    assert ConcentrationPoints(m.concentrationRisk) <= ConcentrationPoints(c);
    LevelMonotone(RiskScore(m.concentrationRisk, m.volatility, m.maxDrawdown, m.beta),
                  RiskScore(c, m.volatility, m.maxDrawdown, m.beta));
  }

  /** Beta as computed here stays within `[1.0, 1.5]`, so it never adds to the score. */
  lemma BetaAddsNoPoints(assets: seq<Asset>)
    requires forall i :: 0 <= i < |assets| ==> assets[i].allocationPercent >= 0.0
    requires SumOver(assets, Allocation) <= 100.0
    ensures BetaPoints(Beta(assets)) == 0
  {
    BetaBounds(assets);
  }

  // ------------------------------------------------------------ target weights

  predicate IsMajor(base: string) { base == "BTC" || base == "ETH" }

  /** The fixed target of BTC and ETH. */
  function MajorWeight(base: string): real
  {
    if base == "BTC" then 40.0 else if base == "ETH" then 25.0 else 0.0
  }

  function MajorWeightOf(a: Asset): real { MajorWeight(a.baseAsset) }

  predicate IsAlt(a: Asset) { !IsMajor(a.baseAsset) }

  /**
   * The target weight of one base asset (lines 428-474): 40 for BTC, 25 for
   * ETH, and what the majors leave split equally over the other rows. A
   * base asset that occurs in several rows is counted once per row.
   */
  function TargetWeightOf(assets: seq<Asset>, base: string): real
  {
    if IsMajor(base) then MajorWeight(base) else AltShare(assets)
  }

  /** What the majors leave, split equally over the rows of other coins. */
  function AltShare(assets: seq<Asset>): real
  {
    var alts := CountWhere(assets, IsAlt);
    if alts > 0 then (100.0 - SumOver(assets, MajorWeightOf)) / alts as real else 0.0
  }

  function BaseAssets(assets: seq<Asset>): set<string>
  {
    set i | 0 <= i < |assets| :: assets[i].baseAsset
  }

  /** The weights the first loop records: each major base asset of the rows with its fixed weight. */
  function MajorWeights(assets: seq<Asset>): map<string, real>
  {
    if |assets| == 0 then map[]
    else
      var m := MajorWeights(assets[..|assets| - 1]);
      var base := assets[|assets| - 1].baseAsset;
      if IsMajor(base) then m[base := MajorWeight(base)] else m
  }

  /** The base assets the first loop collects as other coins, in order, repeats kept. */
  function AltBases(assets: seq<Asset>): seq<string>
  {
    if |assets| == 0 then []
    else
      var base := assets[|assets| - 1].baseAsset;
      AltBases(assets[..|assets| - 1]) + (if IsMajor(base) then [] else [base])
  }

  /** The second loop: each of `ks` set to `w`. */
  function AssignAll(m: map<string, real>, ks: seq<string>, w: real): map<string, real>
  {
    if |ks| == 0 then m else AssignAll(m, ks[..|ks| - 1], w)[ks[|ks| - 1] := w]
  }

  /**
   * `CalculateTargetWeights` (lines 428-474): one weight per base asset of the
   * rows, as `TargetWeightOf` says (lemma `TargetWeightsSpec`). The source
   * divides by the row count when there is neither a major nor another coin,
   * which only an empty list reaches; its one caller passes at least two rows.
   */
  method CalculateTargetWeights(assets: seq<Asset>) returns (weights: map<string, real>)
    requires |assets| > 0
    ensures weights.Keys == BaseAssets(assets)
    ensures forall i :: 0 <= i < |assets| ==> weights[assets[i].baseAsset] == TargetWeightOf(assets, assets[i].baseAsset)
  {
    var majorTotal, altcoins;
    weights, majorTotal, altcoins := CollectMajors(assets);
    var remaining := 100.0 - majorTotal;
    if |altcoins| > 0 {
      var perAlt := remaining / |altcoins| as real;
      AltBasesCount(assets);
      assert perAlt == AltShare(assets);
      weights := AssignAlts(weights, altcoins, perAlt);
    } else if |weights| == 0 {
      assert false;
    }
    TargetWeightsSpec(assets);
  }

  /** The second loop of `CalculateTargetWeights`: each other coin gets the equal share. */
  method AssignAlts(majors: map<string, real>, altcoins: seq<string>, perAlt: real) returns (weights: map<string, real>)
    ensures weights == AssignAll(majors, altcoins, perAlt)
  {
    weights := majors;
    var j := 0;
    while j < |altcoins|
      invariant 0 <= j <= |altcoins|
      invariant weights == AssignAll(majors, altcoins[..j], perAlt)
    {
      assert altcoins[..j + 1][..j] == altcoins[..j];
      weights := weights[altcoins[j] := perAlt];
      j := j + 1;
    }
    assert altcoins[..|altcoins|] == altcoins;
  }

  /** The first loop of `CalculateTargetWeights`. */
  method CollectMajors(assets: seq<Asset>) returns (weights: map<string, real>, majorTotal: real, altcoins: seq<string>)
    requires |assets| > 0
    ensures weights == MajorWeights(assets)
    ensures majorTotal == SumOver(assets, MajorWeightOf)
    ensures altcoins == AltBases(assets)
    ensures |altcoins| == 0 ==> |weights| > 0
  {
    weights := map[];
    majorTotal := 0.0;
    altcoins := [];
    var i := 0;
    while i < |assets|
      invariant 0 <= i <= |assets|
      invariant weights == MajorWeights(assets[..i])
      invariant majorTotal == SumOver(assets[..i], MajorWeightOf)
      invariant altcoins == AltBases(assets[..i])
    {
      assert assets[..i + 1][..i] == assets[..i];
      SumOverSnoc(assets[..i], assets[i], MajorWeightOf);
      assert assets[..i + 1] == assets[..i] + [assets[i]];
      var base := assets[i].baseAsset;
      if base == "BTC" || base == "ETH" {
        var majorWeight := if base == "BTC" then 40.0 else 25.0;
        weights := weights[base := majorWeight];
        majorTotal := majorTotal + majorWeight;
      } else {
        altcoins := altcoins + [base];
      }
      i := i + 1;
    }
    assert assets[..|assets|] == assets;
    if |altcoins| == 0 {
      MajorWeightsKeys(assets);
      AltBasesCount(assets);
      FirstIsMajor(assets);
      assert assets[0].baseAsset in weights;
    }
  }

  lemma {:induction false} MajorWeightsKeys(assets: seq<Asset>)
    ensures MajorWeights(assets).Keys == set i | 0 <= i < |assets| && IsMajor(assets[i].baseAsset) :: assets[i].baseAsset
    ensures forall b :: b in MajorWeights(assets) ==> MajorWeights(assets)[b] == MajorWeight(b)
    decreases |assets|
  {
    if |assets| > 0 {
      var init := assets[..|assets| - 1];
      MajorWeightsKeys(init);
      assert forall i :: 0 <= i < |init| ==> init[i] == assets[i];
      var prev := set i | 0 <= i < |init| && IsMajor(init[i].baseAsset) :: init[i].baseAsset;
      var all := set i | 0 <= i < |assets| && IsMajor(assets[i].baseAsset) :: assets[i].baseAsset;
      var last := assets[|assets| - 1].baseAsset;
      assert all == prev + (if IsMajor(last) then {last} else {});
    }
  }

  lemma {:induction false} AltBasesCount(assets: seq<Asset>)
    ensures |AltBases(assets)| == CountWhere(assets, IsAlt)
    ensures forall k :: 0 <= k < |AltBases(assets)| ==> !IsMajor(AltBases(assets)[k])
    ensures forall i :: 0 <= i < |assets| && IsAlt(assets[i]) ==> assets[i].baseAsset in AltBases(assets)
    ensures forall k :: 0 <= k < |AltBases(assets)| ==> AltBases(assets)[k] in BaseAssets(assets)
    decreases |assets|
  {
    if |assets| > 0 {
      var init := assets[..|assets| - 1];
      AltBasesCount(init);
      assert assets == init + [assets[|assets| - 1]];
      CountWhereSnoc(init, assets[|assets| - 1], IsAlt);
      assert forall i :: 0 <= i < |init| ==> init[i] == assets[i];
    }
  }

  lemma {:induction false} AssignAllSpec(m: map<string, real>, ks: seq<string>, w: real)
    ensures AssignAll(m, ks, w).Keys == m.Keys + (set k | 0 <= k < |ks| :: ks[k])
    ensures forall b :: b in AssignAll(m, ks, w) ==> AssignAll(m, ks, w)[b] == (if b in ks then w else m[b])
    decreases |ks|
  {
    if |ks| > 0 {
      var init := ks[..|ks| - 1];
      AssignAllSpec(m, init, w);
      assert forall k :: 0 <= k < |init| ==> init[k] == ks[k];
      assert (set k | 0 <= k < |ks| :: ks[k]) == (set k | 0 <= k < |init| :: init[k]) + {ks[|ks| - 1]};
      assert forall b :: b in ks <==> b in init || b == ks[|ks| - 1];
    }
  }

  /** The weights the method computes are those of `TargetWeightOf`, for every base asset of the rows and nothing else. */
lemma TargetWeightsSpec(assets: seq<Asset>)
    requires |assets| > 0
    ensures var alts := AltBases(assets);
      var m := if |alts| > 0 then AssignAll(MajorWeights(assets), alts, AltShare(assets))
               else MajorWeights(assets);
      m.Keys == BaseAssets(assets) &&
      forall i :: 0 <= i < |assets| ==> m[assets[i].baseAsset] == TargetWeightOf(assets, assets[i].baseAsset)
  {
    if |AltBases(assets)| > 0 {
      TargetWeightsWithAlts(assets);
    } else {
      TargetWeightsMajorsOnly(assets);
    }
  }

  lemma TargetWeightsWithAlts(assets: seq<Asset>)
    requires |AltBases(assets)| > 0
    ensures var alts := AltBases(assets);
      var m := AssignAll(MajorWeights(assets), alts, AltShare(assets));
      m.Keys == BaseAssets(assets) &&
      forall i :: 0 <= i < |assets| ==> m[assets[i].baseAsset] == TargetWeightOf(assets, assets[i].baseAsset)
  {
    var alts := AltBases(assets);
    var w := AltShare(assets);
    var m := AssignAll(MajorWeights(assets), alts, w);
    TargetKeysWithAlts(assets, m, w);
    forall i | 0 <= i < |assets| ensures m[assets[i].baseAsset] == TargetWeightOf(assets, assets[i].baseAsset) {
      TargetValueWithAlts(assets, m, w, i);
    }
  }

  lemma TargetValueWithAlts(assets: seq<Asset>, m: map<string, real>, w: real, i: int)
    requires 0 <= i < |assets| && |AltBases(assets)| > 0
    requires w == AltShare(assets)
    requires m == AssignAll(MajorWeights(assets), AltBases(assets), w)
    ensures assets[i].baseAsset in m && m[assets[i].baseAsset] == TargetWeightOf(assets, assets[i].baseAsset)
  {
    var b := assets[i].baseAsset;
    if IsMajor(b) {
      assert b in m && m[b] == MajorWeight(b) by { TargetValueMajor(assets, w, i); }
    } else {
      TargetValueAlt(assets, w, i);
    }
  }

  lemma TargetValueMajor(assets: seq<Asset>, w: real, i: int)
    requires 0 <= i < |assets| && IsMajor(assets[i].baseAsset)
    ensures var m := AssignAll(MajorWeights(assets), AltBases(assets), w);
      assets[i].baseAsset in m && m[assets[i].baseAsset] == MajorWeight(assets[i].baseAsset)
  {
    var alts := AltBases(assets);
    var b := assets[i].baseAsset;
    AltBasesCount(assets);
    assert b !in alts;
    MajorWeightsKeys(assets);
    assert b in MajorWeights(assets).Keys;
    AssignAllSpec(MajorWeights(assets), alts, w);
  }

  lemma TargetValueAlt(assets: seq<Asset>, w: real, i: int)
    requires 0 <= i < |assets| && !IsMajor(assets[i].baseAsset)
    ensures var m := AssignAll(MajorWeights(assets), AltBases(assets), w);
      assets[i].baseAsset in m && m[assets[i].baseAsset] == w
    ensures |AltBases(assets)| == CountWhere(assets, IsAlt)
  {
    var alts := AltBases(assets);
    AltBasesCount(assets);
    assert IsAlt(assets[i]);
    assert assets[i].baseAsset in alts;
    AssignAllSpec(MajorWeights(assets), alts, w);
  }

  lemma TargetKeysWithAlts(assets: seq<Asset>, m: map<string, real>, w: real)
    requires m == AssignAll(MajorWeights(assets), AltBases(assets), w)
    ensures m.Keys == BaseAssets(assets)
  {
    var alts := AltBases(assets);
    AssignAllSpec(MajorWeights(assets), alts, w);
    AltBasesCount(assets);
    MajorWeightsKeys(assets);
    forall b | b in m.Keys ensures b in BaseAssets(assets) {
      if b !in MajorWeights(assets).Keys {
        var k :| 0 <= k < |alts| && alts[k] == b;
      }
    }
    forall b | b in BaseAssets(assets) ensures b in m.Keys {
      var i :| 0 <= i < |assets| && assets[i].baseAsset == b;
      if !IsMajor(b) {
        assert IsAlt(assets[i]);
        var k :| 0 <= k < |alts| && alts[k] == b;
      }
    }
  }

  lemma TargetWeightsMajorsOnly(assets: seq<Asset>)
    requires |AltBases(assets)| == 0
    ensures var m := MajorWeights(assets);
      m.Keys == BaseAssets(assets) &&
      forall i :: 0 <= i < |assets| ==> m[assets[i].baseAsset] == TargetWeightOf(assets, assets[i].baseAsset)
  {
    MajorWeightsKeys(assets);
    AltBasesCount(assets);
    forall i | 0 <= i < |assets| ensures IsMajor(assets[i].baseAsset) {
      CountWhereZero(assets, IsAlt, i);
    }
  }

  /** With no other coin, the first row is a major and already has its weight. */
  lemma FirstIsMajor(assets: seq<Asset>)
    requires |assets| > 0 && CountWhere(assets, IsAlt) == 0
    ensures IsMajor(assets[0].baseAsset)
  {
    CountWhereZero(assets, IsAlt, 0);
  }

  /**
   * Summed over the rows, the targets are 100 as soon as one row is another
   * coin. When the base assets of the rows are distinct, the rows are the
   * keys of the weight map, so the map's weights sum to 100.
   */
  lemma TargetWeightsSumTo100(assets: seq<Asset>)
    requires CountWhere(assets, IsAlt) > 0
    ensures SumOver(assets, (a: Asset) => TargetWeightOf(assets, a.baseAsset)) == 100.0
  {
    var alts := CountWhere(assets, IsAlt);
    var majors := SumOver(assets, MajorWeightOf);
    var per := AltShare(assets);
    assert per == (100.0 - majors) / alts as real;
    var target := (a: Asset) => TargetWeightOf(assets, a.baseAsset);
    var altPart := (a: Asset) => if IsAlt(a) then per else 0.0;
    SumOverAdd(assets, target, MajorWeightOf, altPart);
    SumOverIndicator(assets, IsAlt, altPart, per);
    assert alts as real * per == 100.0 - majors;
  }

  /** Two rows of the same major coin ("BTC/USDT" and "BTCUSDC") are counted twice in the majors' share. */
  lemma TargetWeightsRepeatedMajor()
    ensures var btc := Asset("BTC/USDT", "BTC", 0.0, 0.0, 0.0, 0.0, 0.0, 0.0, 0.0, 0.0, 0.0);
      var alt := Asset("SOLUSDT", "SOL", 0.0, 0.0, 0.0, 0.0, 0.0, 0.0, 0.0, 0.0, 0.0);
      var assets := [btc, btc.(symbol := "BTCUSDC"), alt];
      TargetWeightOf(assets, "BTC") + TargetWeightOf(assets, "SOL") == 60.0
  {
    var btc := Asset("BTC/USDT", "BTC", 0.0, 0.0, 0.0, 0.0, 0.0, 0.0, 0.0, 0.0, 0.0);
    var alt := Asset("SOLUSDT", "SOL", 0.0, 0.0, 0.0, 0.0, 0.0, 0.0, 0.0, 0.0, 0.0);
    var assets := [btc, btc.(symbol := "BTCUSDC"), alt];
    assert assets[1..] == [btc.(symbol := "BTCUSDC"), alt] && assets[2..] == [alt] && assets[3..] == [];
    assert "SOL"[0] != "BTC"[0] && "SOL"[0] != "ETH"[0];
    assert IsAlt(alt) && !IsAlt(btc) && !IsAlt(assets[1]);
    assert CountWhere(assets[2..], IsAlt) == 1;
    assert CountWhere(assets, IsAlt) == 1;
    assert MajorWeightOf(alt) == 0.0 && MajorWeightOf(btc) == 40.0 && MajorWeightOf(assets[1]) == 40.0;
    assert SumOver(assets[2..], MajorWeightOf) == 0.0;
    assert SumOver(assets, MajorWeightOf) == 80.0;
  }

  // ------------------------------------------------------------ rebalancing

  /** `RebalanceSuggestionDto`; the formatted `Reason` text is not part of this model. */
  datatype Suggestion = Suggestion(
    symbol: string,
    baseAsset: string,
    currentPercent: real,
    targetPercent: real,
    deltaPercent: real,
    action: string,
    suggestedAmountUsdt: real)

  /** Deviations below this many percentage points produce no suggestion. */
  const RebalanceThreshold := 5.0

  function DeltaOf(s: Suggestion): real { s.deltaPercent }

  /** Off target: the share deviates from the target by at least the threshold. */
  predicate OffTarget(current: real, target: real)
  {
    Abs(current - target) >= RebalanceThreshold
  }

  /** The suggestion for one row against its target (lines 393-415). */
  function SuggestionFor(a: Asset, target: real, totalValue: real): Suggestion
  {
    var delta := a.allocationPercent - target;
    Suggestion(a.symbol, a.baseAsset, a.allocationPercent, target, Abs(delta),
               if delta > 0.0 then "SELL" else "BUY", Round2(totalValue * (Abs(delta) / 100.0)))
  }

  /** The suggestions of the loop over `rows`, in row order, against the targets of `assets`. */
  function SuggestionsOf(assets: seq<Asset>, rows: seq<Asset>, totalValue: real): seq<Suggestion>
  {
    if |rows| == 0 then []
    else
      var a := rows[|rows| - 1];
      var target := TargetWeightOf(assets, a.baseAsset);
      SuggestionsOf(assets, rows[..|rows| - 1], totalValue)
        + (if OffTarget(a.allocationPercent, target) then [SuggestionFor(a, target, totalValue)] else [])
  }

  /**
   * `CalculateRebalanceSuggestions` (lines 378-422): nothing for fewer than two
   * rows or a worthless portfolio; otherwise one suggestion per row that is
   * off target, largest deviation first.
   */
  method CalculateRebalanceSuggestions(assets: seq<Asset>, totalValue: real) returns (r: seq<Suggestion>)
    ensures |assets| < 2 || totalValue <= 0.0 ==> r == []
    ensures |assets| >= 2 && totalValue > 0.0 ==> r == SortDesc(SuggestionsOf(assets, assets, totalValue), DeltaOf)
  {
    if |assets| < 2 || totalValue <= 0.0 {
      return [];
    }
    var suggestions: seq<Suggestion> := [];
    var targetWeights := CalculateTargetWeights(assets);
    var i := 0;
    while i < |assets|
      invariant 0 <= i <= |assets|
      invariant suggestions == SuggestionsOf(assets, assets[..i], totalValue)
    {
      assert assets[..i + 1][..i] == assets[..i] && assets[..i + 1][i] == assets[i];
      var asset := assets[i];
      var target := ValueOr(targetWeights, asset.baseAsset, 0.0);
      assert target == TargetWeightOf(assets, asset.baseAsset);
      if Abs(asset.allocationPercent - target) >= RebalanceThreshold {
        suggestions := suggestions + [SuggestionFor(asset, target, totalValue)];
      }
      i := i + 1;
    }
    assert assets[..|assets|] == assets;
    r := SortDesc(suggestions, DeltaOf);
  }

  /**
   * What a suggestion says about its row: it comes from a row that is off its
   * target by at least 5 points, its delta is that deviation, and it sells
   * exactly when the row is above target.
   */
  lemma {:induction false} SuggestionsSound(assets: seq<Asset>, rows: seq<Asset>, totalValue: real, s: Suggestion)
    requires s in SuggestionsOf(assets, rows, totalValue)
    ensures exists a :: a in rows && s == SuggestionFor(a, TargetWeightOf(assets, a.baseAsset), totalValue)
    ensures s.deltaPercent >= RebalanceThreshold
    ensures s.deltaPercent == Abs(s.currentPercent - s.targetPercent)
    ensures s.action == "SELL" <==> s.currentPercent > s.targetPercent
    ensures s.action == "BUY" <==> s.currentPercent <= s.targetPercent
    decreases |rows|
  {
    var init := rows[..|rows| - 1];
    var a := rows[|rows| - 1];
    if s in SuggestionsOf(assets, init, totalValue) {
      SuggestionsSound(assets, init, totalValue, s);
      var b :| b in init && s == SuggestionFor(b, TargetWeightOf(assets, b.baseAsset), totalValue);
      assert b in rows;
    } else {
      assert a in rows;
    }
  }

  /** Every row that is off target has its suggestion. */
  lemma {:induction false} SuggestionsComplete(assets: seq<Asset>, rows: seq<Asset>, totalValue: real, k: int)
    requires 0 <= k < |rows|
    requires OffTarget(rows[k].allocationPercent, TargetWeightOf(assets, rows[k].baseAsset))
    ensures SuggestionFor(rows[k], TargetWeightOf(assets, rows[k].baseAsset), totalValue) in SuggestionsOf(assets, rows, totalValue)
    decreases |rows|
  {
    if k < |rows| - 1 {
      var init := rows[..|rows| - 1];
      assert init[k] == rows[k];
      SuggestionsComplete(assets, init, totalValue, k);
    }
  }

  /** The rebalancing result, stated on its elements: sound, complete, and largest deviation first. */
  lemma RebalanceSpec(assets: seq<Asset>, totalValue: real)
    requires |assets| >= 2 && totalValue > 0.0
    ensures var r := SortDesc(SuggestionsOf(assets, assets, totalValue), DeltaOf);
      SortedDesc(r, DeltaOf) &&
      (forall s :: s in r ==> s.deltaPercent >= RebalanceThreshold && (s.action == "SELL" <==> s.currentPercent > s.targetPercent)) &&
      (forall k :: 0 <= k < |assets| && OffTarget(assets[k].allocationPercent, TargetWeightOf(assets, assets[k].baseAsset)) ==>
         SuggestionFor(assets[k], TargetWeightOf(assets, assets[k].baseAsset), totalValue) in r)
  {
    var all := SuggestionsOf(assets, assets, totalValue);
    forall s | s in SortDesc(all, DeltaOf)
      ensures s.deltaPercent >= RebalanceThreshold && (s.action == "SELL" <==> s.currentPercent > s.targetPercent)
    {
      SortDescElements(all, DeltaOf, s);
      SuggestionsSound(assets, assets, totalValue, s);
    }
    forall k | 0 <= k < |assets| && OffTarget(assets[k].allocationPercent, TargetWeightOf(assets, assets[k].baseAsset))
      ensures SuggestionFor(assets[k], TargetWeightOf(assets, assets[k].baseAsset), totalValue) in SortDesc(all, DeltaOf)
    {
      SuggestionsComplete(assets, assets, totalValue, k);
      SortDescElements(all, DeltaOf, SuggestionFor(assets[k], TargetWeightOf(assets, assets[k].baseAsset), totalValue));
    }
  }

  // ------------------------------------------------------------ risk metrics

  /** Bots whose history counts: completed or stopped, and not archived (lines 245-247). */
  predicate IsClosed(b: Bot)
  {
    (b.status == Completed || b.status == Stopped) && !b.isArchived
  }

  predicate HasAmount(b: Bot) { b.amount > 0.0 }

  /** The return of each closed bot with a positive amount, its profit over its amount, in order (lines 253-256). */
  function ReturnsOf(closed: seq<Bot>): (r: seq<real>)
    ensures |r| == CountWhere(closed, HasAmount)
  {
    if |closed| == 0 then []
    else (if HasAmount(closed[0]) then [closed[0].currentPnl / closed[0].amount] else []) + ReturnsOf(closed[1..])
  }

  /**
   * `CalculateRiskMetrics` (lines 225-303). The closed bots are taken in the
   * order of `exitTime`; `volatility` is the annualised standard deviation of
   * their returns, which needs a square root. Volatility and drawdown stay 0
   * unless there are two closed bots and two returns. The Sharpe and Sortino
   * ratios feed no other figure and are not part of this model.
   */
  function RiskMetricsOf(assets: seq<Asset>, bots: seq<Bot>, exitTime: Bot -> real, volatility: real): (r: RiskMetrics)
    ensures r.concentrationRisk == ConcentrationRisk(assets) && r.beta == Beta(assets)
    ensures r.maxDrawdown >= 0.0
    ensures CountWhere(bots, IsClosed) < 2 ==> r.volatility == 0.0 && r.maxDrawdown == 0.0
    ensures r.riskLevel == DetermineRiskLevel(r)
  {
    var closed := SortAsc(Filter(bots, IsClosed), exitTime);
    var rs := ReturnsOf(closed);
    var history := |closed| >= 2 && |rs| >= 2;
    CountWhereIsFilterLength(bots, IsClosed);
    DrawdownInvariant(rs);
    var m := RiskMetrics(ConcentrationRisk(assets), if history then volatility else 0.0,
                         if history then DrawdownAfter(rs).maxDrawdown else 0.0, Beta(assets), MediumRisk);
    m.(riskLevel := DetermineRiskLevel(m))
  }

  /** A bot with an amount that lost money shows up among the returns as a negative one. */
  lemma {:induction false} ReturnsNegativeOfLoss(closed: seq<Bot>, k: int)
    requires 0 <= k < |closed| && closed[k].amount > 0.0 && closed[k].currentPnl < 0.0
    ensures exists i :: 0 <= i < |ReturnsOf(closed)| && ReturnsOf(closed)[i] < 0.0
    decreases |closed|
  {
    if k == 0 {
      assert ReturnsOf(closed)[0] == closed[0].currentPnl / closed[0].amount;
    } else {
      ReturnsNegativeOfLoss(closed[1..], k - 1);
      var i :| 0 <= i < |ReturnsOf(closed[1..])| && ReturnsOf(closed[1..])[i] < 0.0;
      var head := if HasAmount(closed[0]) then [closed[0].currentPnl / closed[0].amount] else [];
      assert ReturnsOf(closed)[|head| + i] == ReturnsOf(closed[1..])[i];
    }
  }

  /**
   * Without a history the level comes from concentration alone: a
   * portfolio whose shares are non-negative and sum to 100 is at most "Düşük".
   */
  lemma RiskLevelWithoutHistory(assets: seq<Asset>, bots: seq<Bot>, exitTime: Bot -> real, volatility: real)
    requires forall i :: 0 <= i < |assets| ==> assets[i].allocationPercent >= 0.0
    requires SumOver(assets, Allocation) == 100.0
    requires CountWhere(bots, IsClosed) < 2
    ensures RiskMetricsOf(assets, bots, exitTime, volatility).riskLevel in {LowRisk, VeryLowRisk}
  {
    BetaAddsNoPoints(assets);
  }

  /** With a history and a single asset, concentration alone scores 3: the level is at least "Düşük". */
  lemma RiskLevelOfSingleAsset(a: Asset, bots: seq<Bot>, exitTime: Bot -> real, volatility: real)
    requires a.allocationPercent == 100.0
    ensures RiskMetricsOf([a], bots, exitTime, volatility).concentrationRisk == 1.0
    ensures RiskMetricsOf([a], bots, exitTime, volatility).riskLevel != VeryLowRisk
  {
    assert [a][1..] == [];
    assert Weight(a) == 1.0;
    assert WeightSquared(a) == 1.0;
    assert SumOver([a], WeightSquared) == 1.0;
  }

  // ------------------------------------------------------------ summary

  /** `PortfolioSummaryDto`. */
  datatype PortfolioSummary = PortfolioSummary(
    totalValue: real,
    totalInvested: real,
    totalPnl: real,
    totalPnlPercent: real,
    dailyPnl: real,
    dailyPnlPercent: real,
    assetCount: nat,
    assets: seq<Asset>,
    riskMetrics: RiskMetrics,
    rebalanceSuggestions: seq<Suggestion>)

  /** The summary of a portfolio without running bots: all zero, risk level "Yok" (lines 34-40). */
  const EmptySummary := PortfolioSummary(0.0, 0.0, 0.0, 0.0, 0.0, 0.0, 0, [], RiskMetrics(0.0, 0.0, 0.0, 0.0, NoRisk), [])

  predicate IsRunning(b: Bot) { b.status == Running }

  /** A row's profit over the last day: its value times its 24-hour change (lines 113-114). */
  function DailyPnlOf(a: Asset): real { a.currentValue * (a.dailyChange / 100.0) }

  /** `p / base * 100`, or 0 when `base` is not positive. */
  function PercentOf(p: real, base: real): real
  {
    if base > 0.0 then p / base * 100.0 else 0.0
  }

  /**
   * `GetPortfolioSummaryAsync` (lines 27-135): the running bots' assets with
   * their shares, largest value first, the totals, the risk metrics and the
   * rebalancing suggestions.
   */
  method GetPortfolioSummary(bots: seq<Bot>, prices: map<string, real>, changes: map<string, real>,
                             exitTime: Bot -> real, volatility: real) returns (s: PortfolioSummary)
    ensures CountWhere(bots, IsRunning) == 0 ==> s == EmptySummary
    ensures CountWhere(bots, IsRunning) > 0 ==>
      var running := Filter(bots, IsRunning);
      && multiset(s.assets) == multiset(Allocated(AssetsOf(running, prices, changes), s.totalValue))
      && SortedDesc(s.assets, Value)
      && s.assetCount == |s.assets| == |GroupKeys(running, SymbolOf)|
      && s.totalValue == SumOver(s.assets, Value)
      && s.totalInvested == SumOver(running, Amount)
      && s.totalPnl == s.totalValue - s.totalInvested
      && s.totalPnlPercent == PercentOf(s.totalPnl, s.totalInvested)
      && s.dailyPnl == SumOver(s.assets, DailyPnlOf)
      && s.dailyPnlPercent == PercentOf(s.dailyPnl, s.totalValue)
      && (s.totalValue > 0.0 ==> SumOver(s.assets, Allocation) == 100.0)
      && s.riskMetrics == RiskMetricsOf(s.assets, bots, exitTime, volatility)
      && s.rebalanceSuggestions == (if |s.assets| < 2 || s.totalValue <= 0.0 then []
                                    else SortDesc(SuggestionsOf(s.assets, s.assets, s.totalValue), DeltaOf))
  {
    var activeBots := Filter(bots, IsRunning);
    CountWhereIsFilterLength(bots, IsRunning);
    if |activeBots| == 0 {
      return EmptySummary;
    }
    var built, totalValue, totalInvested := BuildAssets(activeBots, prices, changes);
    var withShares := AssignAllocations(built, totalValue);
    var assets := SortDesc(withShares, Value);
    AllocatedKeepsValues(built, totalValue);
    SumOverPermutation(withShares, assets, Value);
    if totalValue > 0.0 {
      AllocationsSumTo100(built, totalValue);
      SumOverPermutation(withShares, assets, Allocation);
    }
    var riskMetrics := RiskMetricsOf(assets, bots, exitTime, volatility);
    var rebalanceSuggestions := CalculateRebalanceSuggestions(assets, totalValue);
    var dailyPnl := SumOver(assets, DailyPnlOf);
    var dailyPnlPercent := PercentOf(dailyPnl, totalValue);
    var totalPnl := totalValue - totalInvested;
    s := PortfolioSummary(totalValue, totalInvested, totalPnl, PercentOf(totalPnl, totalInvested), dailyPnl,
                          dailyPnlPercent, |assets|, assets, riskMetrics, rebalanceSuggestions);
  }

  /** A portfolio with running bots never reports the "Yok" level of the empty one. */
  lemma SummaryLevelOfRunning(assets: seq<Asset>, bots: seq<Bot>, exitTime: Bot -> real, volatility: real)
    ensures RiskMetricsOf(assets, bots, exitTime, volatility).riskLevel != EmptySummary.riskMetrics.riskLevel
  {
    assert |NoRisk| == 3;
  }
}
