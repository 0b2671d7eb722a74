/**
 * `AnalyticsService`: the dashboard figures, the 30-day equity curve and
 * the per-strategy performance table, all computed over the bots that
 * have finished (status `Completed` or `Stopped`).
 *
 * Timestamps are whole minutes (see `Common.MinutesPerDay`); the clock and
 * the date formatting `"dd MMM HH:mm"` are parameters.
 */
module AnalyticsServices {
  import opened Common
  import opened Listing
  import opened Trading

  datatype DashboardStats = DashboardStats(
    totalPnl: real,
    winRate: real,
    totalTrades: int,
    winningTrades: int,
    losingTrades: int,
    bestPair: string,
    profitFactor: real,
    avgTradePnl: real,
    maxDrawdown: real)

  /** `new DashboardStats()`: every figure 0 and the best pair "". */
  const NoStats := DashboardStats(0.0, 0.0, 0, 0, 0, "", 0.0, 0.0, 0.0)

  datatype EquityPoint = EquityPoint(date: string, balance: real, dailyPnl: real)

  datatype StrategyPerformance = StrategyPerformance(
    strategyName: string,
    totalTrades: int,
    winRate: real,
    totalPnl: real,
    profitFactor: real,
    avgTrade: real)

  // ------------------------------------------------------------ shared figures

  /** A bot that has finished trading. */
  predicate IsClosed(b: Bot)
  {
    b.status == Completed || b.status == Stopped
  }

  /** `Where(b => b.Status == Completed || b.Status == Stopped)`. */
  function Closed(bots: seq<Bot>): seq<Bot>
  {
    Filter(bots, IsClosed)
  }

  function PnlOf(b: Bot): real
  {
    b.currentPnl
  }

  predicate IsWin(b: Bot)
  {
    b.currentPnl > 0.0
  }

  predicate IsLoss(b: Bot)
  {
    b.currentPnl < 0.0
  }

  /** Not a win: a loss or a bot that broke even. */
  predicate IsNotWin(b: Bot)
  {
    b.currentPnl <= 0.0
  }

  /** `Where(b => b.CurrentPnl > 0).Sum(b => b.CurrentPnl)`: the gains of the winning bots. */
  function TotalProfit(s: seq<Bot>): real
  {
    if |s| == 0 then 0.0 else (if IsWin(s[0]) then s[0].currentPnl else 0.0) + TotalProfit(s[1..])
  }

  /** `Where(b => b.CurrentPnl < 0).Sum(b => b.CurrentPnl)`: the results of the losing bots. */
  function LossSum(s: seq<Bot>): real
  {
    if |s| == 0 then 0.0 else (if IsLoss(s[0]) then s[0].currentPnl else 0.0) + LossSum(s[1..])
  }

  /** The size of the losses. */
  function TotalLoss(s: seq<Bot>): real
  {
    Abs(LossSum(s))
  }

  /** Gains and losses are both non-negative and their difference is the net result. */
  lemma ProfitAndLoss(s: seq<Bot>)
    ensures TotalProfit(s) >= 0.0 && TotalLoss(s) >= 0.0
    ensures TotalProfit(s) - TotalLoss(s) == SumOver(s, PnlOf)
  {
    WinsAndLossesSum(s);
  }

  /** The bots with a zero result add nothing, so wins and losses make up the net result. */
  lemma {:induction false} WinsAndLossesSum(s: seq<Bot>)
    ensures TotalProfit(s) >= 0.0 && LossSum(s) <= 0.0
    ensures TotalProfit(s) + LossSum(s) == SumOver(s, PnlOf)
    decreases |s|
  {
    if |s| > 0 {
      WinsAndLossesSum(s[1..]);
    }
  }

  /** Counting the wins and the rest accounts for every bot. */
  lemma {:induction false} WinsAndRest(s: seq<Bot>)
    ensures CountWhere(s, IsWin) + CountWhere(s, IsNotWin) == |s|
    decreases |s|
  {
    if |s| > 0 {
      WinsAndRest(s[1..]);
    }
  }

  /** `loss > 0 ? profit / loss : profit`. */
  function ProfitFactor(profit: real, loss: real): (r: real)
    ensures profit >= 0.0 && loss >= 0.0 ==> r >= 0.0
    ensures loss <= 0.0 ==> r == profit
  {
    if loss > 0.0 then profit / loss else profit
  }

  /** With some loss, the factor is the gains per unit of loss: at least 1 exactly when the gains cover the losses. */
  lemma ProfitFactorRatio(profit: real, loss: real)
    requires loss > 0.0
    ensures ProfitFactor(profit, loss) * loss == profit
    ensures ProfitFactor(profit, loss) >= 1.0 <==> profit >= loss
  {
    var r := profit / loss;
    assert r * loss == profit;
    assert (r - 1.0) * loss == profit - loss;
    ProductSign(r - 1.0, loss);
  }

  lemma ProductSign(x: real, y: real)
    requires y > 0.0
    ensures x >= 0.0 <==> x * y >= 0.0
  {
  }

  /** `count > 0 ? wins / count * 100 : 0`, a percentage. */
  function WinRate(wins: int, count: int): (r: real)
    ensures 0 <= wins <= count ==> 0.0 <= r <= 100.0
    ensures count <= 0 ==> r == 0.0
  {
    if count > 0 then
      var rate := wins as real / count as real;
      assert 0 <= wins <= count ==> 0.0 <= rate <= 1.0;
      rate * 100.0
    else 0.0
  }

  /** The rate is the share of wins in hundredths: 100 when every trade won, 0 when none did. */
  lemma WinRateShare(wins: int, count: int)
    requires count > 0
    ensures WinRate(wins, count) * count as real == wins as real * 100.0
    ensures wins == count ==> WinRate(wins, count) == 100.0
    ensures wins == 0 ==> WinRate(wins, count) == 0.0
  {
  }

  /** `count > 0 ? total / count : 0`. */
  function Average(total: real, count: int): (r: real)
    ensures count <= 0 ==> r == 0.0
  {
    if count > 0 then total / count as real else 0.0
  }

  /** The average times the count gives back the total. */
  lemma AverageTimesCount(total: real, count: int)
    requires count > 0
    ensures Average(total, count) * count as real == total
  {
  }

  // ------------------------------------------------------------ best pair

  datatype PairResult = PairResult(symbol: string, pnl: real)

  function SymbolOf(b: Bot): string
  {
    b.symbol
  }

  function PairPnl(p: PairResult): real
  {
    p.pnl
  }

  /** The net result of the bots that traded `symbol`. */
  function PairTotal(s: seq<Bot>, symbol: string): real
  {
    SumOver(Group(s, SymbolOf, symbol), PnlOf)
  }

  /** One result per `GroupBy(Symbol)` group, in the order the groups appear. */
  function PairResults(ks: seq<string>, s: seq<Bot>): (r: seq<PairResult>)
    ensures |r| == |ks|
    ensures forall i :: 0 <= i < |r| ==> r[i] == PairResult(ks[i], PairTotal(s, ks[i]))
  {
    seq(|ks|, i requires 0 <= i < |ks| => PairResult(ks[i], PairTotal(s, ks[i])))
  }

  /** The symbol of the first pair after ordering the pairs by net result, highest first; "-" if none. */
  function BestPair(s: seq<Bot>): string
  {
    var ranked := SortDesc(PairResults(GroupKeys(s, SymbolOf), s), PairPnl);
    if |ranked| == 0 then "-" else ranked[0].symbol
  }

  /** The first of the ranked results is one of them, and none of them is higher. */
  lemma RankedFirstIsHighest(results: seq<PairResult>)
    requires |results| > 0
    ensures var ranked := SortDesc(results, PairPnl);
      |ranked| > 0 && ranked[0] in results &&
      forall j :: 0 <= j < |results| ==> results[j].pnl <= ranked[0].pnl
  {
    var ranked := SortDesc(results, PairPnl);
    SortDescElements(results, PairPnl, ranked[0]);
    forall j | 0 <= j < |results|
      ensures results[j].pnl <= ranked[0].pnl
    {
      SortDescElements(results, PairPnl, results[j]);
      var k :| 0 <= k < |ranked| && ranked[k] == results[j];
      assert k == 0 || PairPnl(ranked[0]) >= PairPnl(ranked[k]);
    }
  }

  /** Ranking the results of the groups `ks` puts first a group with the highest total. */
  lemma RankedKeys(ks: seq<string>, s: seq<Bot>)
    requires |ks| > 0
    ensures var best := SortDesc(PairResults(ks, s), PairPnl)[0].symbol;
      best in ks && forall k :: k in ks ==> PairTotal(s, k) <= PairTotal(s, best)
  {
    var results := PairResults(ks, s);
    RankedFirstIsHighest(results);
    var best := SortDesc(results, PairPnl)[0];
    var b :| 0 <= b < |results| && results[b] == best;
    assert best.symbol == ks[b];
    forall k | k in ks
      ensures PairTotal(s, k) <= PairTotal(s, best.symbol)
    {
      var j :| 0 <= j < |ks| && ks[j] == k;
      assert results[j].pnl <= best.pnl;
    }
  }

  /** The best pair of a non-empty list is a pair some bot traded. */
  lemma BestPairTraded(s: seq<Bot>)
    requires |s| > 0
    ensures exists i :: 0 <= i < |s| && s[i].symbol == BestPair(s)
  {
    var ks := GroupKeys(s, SymbolOf);
    assert SymbolOf(s[0]) in ks;
    RankedKeys(ks, s);
    var j :| 0 <= j < |ks| && ks[j] == BestPair(s);
  }

  /** No pair's bots made more in total than the best pair's bots did. */
  lemma BestPairHighest(s: seq<Bot>)
    requires |s| > 0
    ensures forall i :: 0 <= i < |s| ==> PairTotal(s, s[i].symbol) <= PairTotal(s, BestPair(s))
  {
    var ks := GroupKeys(s, SymbolOf);
    assert SymbolOf(s[0]) in ks;
    RankedKeys(ks, s);
    forall i | 0 <= i < |s|
      ensures PairTotal(s, s[i].symbol) <= PairTotal(s, BestPair(s))
    {
      assert SymbolOf(s[i]) in ks;
    }
  }

  // ------------------------------------------------------------ drawdown

  /** The highest equity reached, starting from 0, over the running sums of `p`. */
  function Peak(p: seq<real>): real
  {
    if |p| == 0 then 0.0 else Max2(Peak(p[..|p| - 1]), Sum(p))
  }

  /** The largest fall from the peak so far, after each step of the running sum. */
  function MaxDrawdownOf(p: seq<real>): real
  {
    if |p| == 0 then 0.0 else Max2(MaxDrawdownOf(p[..|p| - 1]), Peak(p) - Sum(p))
  }

  /** `CalculateMaxDrawdown`: the running equity, its peak and the largest drawdown in one pass. */
  method CalculateMaxDrawdown(pnl: seq<real>) returns (r: real)
    ensures r == MaxDrawdownOf(pnl)
  {
    if |pnl| == 0 {
      return 0.0;
    }
    var peak, maxDrawdown, equity := 0.0, 0.0, 0.0;
    for i := 0 to |pnl|
      invariant equity == Sum(pnl[..i])
      invariant peak == Peak(pnl[..i])
      invariant maxDrawdown == MaxDrawdownOf(pnl[..i])
    {
      assert pnl[..i + 1][..i] == pnl[..i];
      SumSnoc(pnl[..i], pnl[i]);
      assert pnl[..i] + [pnl[i]] == pnl[..i + 1];
      equity := equity + pnl[i];
      if equity > peak {
        peak := equity;
      }
      var drawdown := peak - equity;
      if drawdown > maxDrawdown {
        maxDrawdown := drawdown;
      }
    }
    assert pnl[..|pnl|] == pnl;
    r := maxDrawdown;
  }

  /** The equity after the first `j` results. */
  function EquityAt(p: seq<real>, j: int): real
    requires 0 <= j <= |p|
  {
    Sum(p[..j])
  }

  /** The peak is the highest of the equities after 0, 1, …, |p| results. */
  lemma {:induction false} PeakIsHighest(p: seq<real>)
    ensures forall j :: 0 <= j <= |p| ==> EquityAt(p, j) <= Peak(p)
    ensures exists j :: 0 <= j <= |p| && EquityAt(p, j) == Peak(p)
    decreases |p|
  {
    if |p| == 0 {
      assert EquityAt(p, 0) == Sum([]) == 0.0;
    } else {
      var q := p[..|p| - 1];
      PeakIsHighest(q);
      PrefixEquities(p);
      assert p[..|p|] == p;
      var j :| 0 <= j <= |q| && EquityAt(q, j) == Peak(q);
      if Peak(p) == Peak(q) {
        assert EquityAt(p, j) == Peak(p);
      } else {
        assert EquityAt(p, |p|) == Peak(p);
      }
    }
  }

  /** Dropping the last result leaves the earlier equities as they were. */
  lemma PrefixEquities(p: seq<real>)
    requires |p| > 0
    ensures forall j :: 0 <= j <= |p| - 1 ==> EquityAt(p[..|p| - 1], j) == EquityAt(p, j)
  {
    forall j | 0 <= j <= |p| - 1
      ensures EquityAt(p[..|p| - 1], j) == EquityAt(p, j)
    {
      assert p[..|p| - 1][..j] == p[..j];
    }
  }

  /**
   * The maximum drawdown is the largest fall of the equity from an earlier
   * (or the same) point to a later one, starting from 0 before the first
   * result; so it is never negative.
   */
  lemma {:induction false} MaxDrawdownIsLargestFall(p: seq<real>)
    ensures MaxDrawdownOf(p) >= 0.0
    ensures forall j, k :: 0 <= j <= k <= |p| ==> EquityAt(p, j) - EquityAt(p, k) <= MaxDrawdownOf(p)
    ensures exists j, k :: 0 <= j <= k <= |p| && EquityAt(p, j) - EquityAt(p, k) == MaxDrawdownOf(p)
    decreases |p|
  {
    if |p| == 0 {
      assert EquityAt(p, 0) - EquityAt(p, 0) == 0.0;
    } else {
      var n := |p|;
      var q := p[..n - 1];
      MaxDrawdownIsLargestFall(q);
      PeakIsHighest(p);
      PrefixEquities(p);
      assert p[..n] == p;
      assert EquityAt(p, n) == Sum(p);
      forall j, k | 0 <= j <= k <= n
        ensures EquityAt(p, j) - EquityAt(p, k) <= MaxDrawdownOf(p)
      {
        if k < n {
          assert EquityAt(q, j) - EquityAt(q, k) <= MaxDrawdownOf(q);
        }
      }
      var j0, k0 :| 0 <= j0 <= k0 <= |q| && EquityAt(q, j0) - EquityAt(q, k0) == MaxDrawdownOf(q);
      var jp :| 0 <= jp <= n && EquityAt(p, jp) == Peak(p);
      if MaxDrawdownOf(p) == MaxDrawdownOf(q) {
        assert EquityAt(p, j0) - EquityAt(p, k0) == MaxDrawdownOf(p);
      } else {
        assert EquityAt(p, jp) - EquityAt(p, n) == MaxDrawdownOf(p);
      }
    }
  }

  // ------------------------------------------------------------ dashboard

  /** The results of the bots, in order. */
  function Pnls(s: seq<Bot>): (r: seq<real>)
    ensures |r| == |s|
    ensures forall i :: 0 <= i < |s| ==> r[i] == s[i].currentPnl
  {
    seq(|s|, i requires 0 <= i < |s| => s[i].currentPnl)
  }

  /**
   * The figures over a non-empty list of finished bots: every bot that did
   * not win counts as losing, the net result is the gains less the losses,
   * the rate is a percentage and the drawdown is never negative.
   */
  function Dashboard(closed: seq<Bot>): (r: DashboardStats)
    requires |closed| > 0
    ensures r.totalTrades == |closed|
    ensures r.winningTrades == CountWhere(closed, IsWin) && r.losingTrades == CountWhere(closed, IsNotWin)
    ensures r.winningTrades + r.losingTrades == r.totalTrades
    ensures r.totalPnl == TotalProfit(closed) - TotalLoss(closed)
    ensures 0.0 <= r.winRate <= 100.0 && r.winRate == WinRate(r.winningTrades, r.totalTrades)
    ensures r.profitFactor >= 0.0 && r.profitFactor == ProfitFactor(TotalProfit(closed), TotalLoss(closed))
    ensures r.avgTradePnl == Average(r.totalPnl, r.totalTrades)
    ensures r.bestPair == BestPair(closed)
    ensures r.maxDrawdown == MaxDrawdownOf(Pnls(closed)) && r.maxDrawdown >= 0.0
  {
    WinsAndRest(closed);
    ProfitAndLoss(closed);
    MaxDrawdownIsLargestFall(Pnls(closed));
    var wins := CountWhere(closed, IsWin);
    var totalPnl := SumOver(closed, PnlOf);
    DashboardStats(totalPnl, WinRate(wins, |closed|), |closed|, wins, |closed| - wins, BestPair(closed),
                   ProfitFactor(TotalProfit(closed), TotalLoss(closed)), Average(totalPnl, |closed|),
                   MaxDrawdownOf(Pnls(closed)))
  }

  /**
   * `GetDashboardStatsAsync`: the default figures when no bot has finished,
   * otherwise the figures over the finished bots.
   */
  method GetDashboardStats(bots: seq<Bot>) returns (stats: DashboardStats)
    ensures var closed := Filter(bots, IsClosed);
      (|closed| == 0 ==> stats == NoStats) && (|closed| > 0 ==> stats == Dashboard(closed))
  {
    var closed := Filter(bots, IsClosed);
    if |closed| == 0 {
      return NoStats;
    }
    var total := |closed|;
    var wins := CountWhere(closed, IsWin);
    var losses := total - wins;
    var totalPnl := SumOver(closed, PnlOf);
    var profitFactor := ProfitFactor(TotalProfit(closed), TotalLoss(closed));
    var drawdown := CalculateMaxDrawdown(Pnls(closed));
    stats := DashboardStats(totalPnl, WinRate(wins, total), total, wins, losses, BestPair(closed),
                            profitFactor, Average(totalPnl, total), drawdown);
  }

  // ------------------------------------------------------------ equity curve

  /** The days the equity curve covers. */
  const CurveDays: int := 30

  /** `DateTime.Date`: the start of the day a minute falls in. */
  function DayStart(t: int): (r: int)
    ensures r <= t < r + MinutesPerDay
    ensures r % MinutesPerDay == 0
  {
    t - t % MinutesPerDay
  }

  /** `DateTime.UtcNow.AddDays(-30).Date`. */
  function CurveStart(now: int): int
  {
    DayStart(now - CurveDays * MinutesPerDay)
  }

  /** A finished bot created on or after `start`. */
  predicate InCurve(b: Bot, start: int)
  {
    IsClosed(b) && b.createdAt >= start
  }

  function CreatedAtKey(b: Bot): real
  {
    b.createdAt as real
  }

  /** The bots the curve is drawn from, oldest first. */
  function CurveBots(bots: seq<Bot>, start: int): (r: seq<Bot>)
    ensures multiset(r) == multiset(Filter(bots, (b: Bot) => InCurve(b, start)))
    ensures SortedAsc(r, CreatedAtKey)
    ensures forall i :: 0 <= i < |r| ==> IsClosed(r[i]) && r[i].createdAt >= start
  {
    var window := Filter(bots, (b: Bot) => InCurve(b, start));
    var r := SortAsc(window, CreatedAtKey);
    forall i | 0 <= i < |r|
      ensures IsClosed(r[i]) && r[i].createdAt >= start
    {
      SortAscElements(window, CreatedAtKey, r[i]);
      var k :| 0 <= k < |window| && window[k] == r[i];
    }
    r
  }

  /** A point per bot after `first`, each holding the running total of the results so far. */
  method RunningTotals(curve: seq<Bot>, first: EquityPoint, formatDate: int -> string) returns (points: seq<EquityPoint>)
    requires first.balance == 0.0
    ensures |points| == |curve| + 1 && points[0] == first
    ensures forall k :: 1 <= k < |points| ==>
              points[k].date == formatDate(curve[k - 1].createdAt) &&
              points[k].dailyPnl == curve[k - 1].currentPnl &&
              points[k].balance == points[k - 1].balance + points[k].dailyPnl &&
              points[k].balance == SumOver(curve[..k], PnlOf)
  {
    var cumulative := 0.0;
    points := [first];
    for i := 0 to |curve|
      invariant |points| == i + 1 && points[0] == first
      invariant cumulative == SumOver(curve[..i], PnlOf) == points[i].balance
      invariant forall k :: 1 <= k < |points| ==>
                  points[k].date == formatDate(curve[k - 1].createdAt) &&
                  points[k].dailyPnl == curve[k - 1].currentPnl &&
                  points[k].balance == points[k - 1].balance + points[k].dailyPnl &&
                  points[k].balance == SumOver(curve[..k], PnlOf)
    {
      SumOverSnoc(curve[..i], curve[i], PnlOf);
      assert curve[..i] + [curve[i]] == curve[..i + 1];
      cumulative := cumulative + curve[i].currentPnl;
      points := points + [EquityPoint(formatDate(curve[i].createdAt), cumulative, curve[i].currentPnl)];
    }
  }

  /**
   * `GetEquityCurveAsync`: a starting point at 0 dated at the start of the
   * window, then one point per finished bot of the window, oldest first,
   * with the running total of the results.
   */
  method GetEquityCurve(bots: seq<Bot>, now: int, formatDate: int -> string) returns (points: seq<EquityPoint>)
    ensures var curve := CurveBots(bots, CurveStart(now));
      |points| == |curve| + 1 &&
      points[0] == EquityPoint(formatDate(CurveStart(now)), 0.0, 0.0) &&
      (forall k :: 1 <= k < |points| ==>
        points[k].date == formatDate(curve[k - 1].createdAt) &&
        points[k].dailyPnl == curve[k - 1].currentPnl &&
        points[k].balance == points[k - 1].balance + points[k].dailyPnl &&
        points[k].balance == SumOver(curve[..k], PnlOf))
  {
    var start := CurveStart(now);
    points := RunningTotals(CurveBots(bots, start), EquityPoint(formatDate(start), 0.0, 0.0), formatDate);
  }

  /** The last point of the curve holds the net result of every bot in the window. */
  lemma CurveEndsAtTotal(bots: seq<Bot>, start: int)
    ensures SumOver(CurveBots(bots, start), PnlOf) == SumOver(Filter(bots, (b: Bot) => InCurve(b, start)), PnlOf)
  {
    SumOverPermutation(CurveBots(bots, start), Filter(bots, (b: Bot) => InCurve(b, start)), PnlOf);
  }

  // ------------------------------------------------------------ strategies

  function StrategyNameOf(b: Bot): string
  {
    b.strategyName
  }

  /** The row of one strategy, over the finished bots that ran it. */
  function GroupPerformance(name: string, trades: seq<Bot>): (r: StrategyPerformance)
    ensures r.strategyName == name && r.totalTrades == |trades|
    ensures 0.0 <= r.winRate <= 100.0
  {
    StrategyPerformance(name, |trades|, WinRate(CountWhere(trades, IsWin), |trades|), SumOver(trades, PnlOf),
                        ProfitFactor(TotalProfit(trades), TotalLoss(trades)),
                        Average(SumOver(trades, PnlOf), |trades|))
  }

  /**
   * A row's figures agree with each other: the net result is the gains
   * less the losses and the profit factor is not negative.
   */
  lemma GroupPerformanceFacts(name: string, trades: seq<Bot>)
    ensures GroupPerformance(name, trades).totalPnl == TotalProfit(trades) - TotalLoss(trades)
    ensures GroupPerformance(name, trades).profitFactor >= 0.0
  {
    ProfitAndLoss(trades);
  }

  /** A row's average trade times its trade count is its net result. */
  lemma GroupAverage(name: string, trades: seq<Bot>)
    requires |trades| > 0
    ensures GroupPerformance(name, trades).avgTrade * |trades| as real == GroupPerformance(name, trades).totalPnl
  {
    AverageTimesCount(SumOver(trades, PnlOf), |trades|);
  }

  /** One row per strategy name in `ks`. */
  function PerformanceOf(ks: seq<string>, s: seq<Bot>): (r: seq<StrategyPerformance>)
    ensures |r| == |ks|
    ensures forall i :: 0 <= i < |ks| ==> r[i].strategyName == ks[i] && 0.0 <= r[i].winRate <= 100.0
  {
    if |ks| == 0 then []
    else [GroupPerformance(ks[0], Group(s, StrategyNameOf, ks[0]))] + PerformanceOf(ks[1..], s)
  }

  /** The row of a strategy is computed over the bots that ran it. */
  lemma {:induction false} PerformanceRow(ks: seq<string>, s: seq<Bot>, i: int)
    requires 0 <= i < |ks|
    ensures PerformanceOf(ks, s)[i] == GroupPerformance(ks[i], Group(s, StrategyNameOf, ks[i]))
    decreases |ks|
  {
    if i > 0 {
      PerformanceRow(ks[1..], s, i - 1);
    }
  }

  /** The rows over a list of finished bots. */
  function Rows(closed: seq<Bot>): seq<StrategyPerformance>
  {
    PerformanceOf(GroupKeys(closed, StrategyNameOf), closed)
  }

  /** The strategy names of the rows, in order. */
  function Names(rows: seq<StrategyPerformance>): (r: seq<string>)
    ensures |r| == |rows|
    ensures forall i :: 0 <= i < |rows| ==> r[i] == rows[i].strategyName
  {
    seq(|rows|, i requires 0 <= i < |rows| => rows[i].strategyName)
  }

  /**
   * `GetStrategyPerformanceAsync`: one row per `GroupBy(StrategyName)` key
   * of the finished bots, in the order the keys first appear, and every
   * row counts at least one bot.
   */
  function GetStrategyPerformance(bots: seq<Bot>): (r: seq<StrategyPerformance>)
    ensures Names(r) == GroupKeys(Closed(bots), StrategyNameOf)
    ensures forall j :: 0 <= j < |r| ==> r[j].totalTrades >= 1 && 0.0 <= r[j].winRate <= 100.0
  {
    var closed := Closed(bots);
    RowsNotEmpty(closed);
    var ks := GroupKeys(closed, StrategyNameOf);
    assert Names(PerformanceOf(ks, closed)) == ks;
    Rows(closed)
  }

  /** Every row counts at least one bot. */
  lemma RowsNotEmpty(closed: seq<Bot>)
    ensures forall j :: 0 <= j < |Rows(closed)| ==> Rows(closed)[j].totalTrades >= 1
  {
    var ks := GroupKeys(closed, StrategyNameOf);
    forall j | 0 <= j < |ks|
      ensures PerformanceOf(ks, closed)[j].totalTrades >= 1
    {
      var i :| 0 <= i < |closed| && StrategyNameOf(closed[i]) == ks[j];
      RowTrades(ks, closed, j, i);
    }
  }

  lemma RowTrades(ks: seq<string>, s: seq<Bot>, j: int, i: int)
    requires 0 <= j < |ks| && 0 <= i < |s| && s[i].strategyName == ks[j]
    ensures PerformanceOf(ks, s)[j].totalTrades >= 1
  {
    PerformanceRow(ks, s, j);
    GroupMember(s, i);
  }

  /** A bot belongs to the group of its own strategy, so that group is not empty. */
  lemma GroupMember(s: seq<Bot>, i: int)
    requires 0 <= i < |s|
    ensures |Group(s, StrategyNameOf, s[i].strategyName)| >= 1
  {
    var k := s[i].strategyName;
    assert s[i] in Group(s, StrategyNameOf, k);
  }

  /** The trade counts of the rows, added up. */
  function TradesTotal(rows: seq<StrategyPerformance>): int
  {
    if |rows| == 0 then 0 else rows[0].totalTrades + TradesTotal(rows[1..])
  }

  /** The net results of the rows, added up. */
  function PnlTotal(rows: seq<StrategyPerformance>): real
  {
    if |rows| == 0 then 0.0 else rows[0].totalPnl + PnlTotal(rows[1..])
  }

  function One(b: Bot): real
  {
    1.0
  }

  /** Every finished bot is counted in exactly one row, and its result in that row's total. */
  lemma StrategyTotals(bots: seq<Bot>)
    ensures TradesTotal(GetStrategyPerformance(bots)) == |Filter(bots, IsClosed)|
    ensures PnlTotal(GetStrategyPerformance(bots)) == SumOver(Filter(bots, IsClosed), PnlOf)
  {
    var closed := Filter(bots, IsClosed);
    var ks := GroupKeys(closed, StrategyNameOf);
    RowTotals(ks, closed);
    GroupSumsTotal(closed, StrategyNameOf, One);
    GroupSumsTotal(closed, StrategyNameOf, PnlOf);
    CountAsSum(closed);
  }

  lemma {:induction false} RowTotals(ks: seq<string>, s: seq<Bot>)
    ensures TradesTotal(PerformanceOf(ks, s)) as real == SumGroups(ks, s, StrategyNameOf, One)
    ensures PnlTotal(PerformanceOf(ks, s)) == SumGroups(ks, s, StrategyNameOf, PnlOf)
    decreases |ks|
  {
    if |ks| > 0 {
      var rows := PerformanceOf(ks, s);
      assert rows[1..] == PerformanceOf(ks[1..], s);
      RowTotals(ks[1..], s);
      CountAsSum(Group(s, StrategyNameOf, ks[0]));
    }
  }

  /** Summing 1 per element counts the elements. */
  lemma {:induction false} CountAsSum(s: seq<Bot>)
    ensures SumOver(s, One) == |s| as real
    decreases |s|
  {
    if |s| > 0 {
      CountAsSum(s[1..]);
    }
  }
}
