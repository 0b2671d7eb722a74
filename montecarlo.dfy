/**
 * `MonteCarloSimulator`: the trade results of a backtest are drawn at
 * random, with replacement, into many equity paths; a path stops at ruin,
 * when its drawdown from the peak reaches the threshold. The final balances
 * and the largest drawdowns are summarised as percentiles, averages,
 * probabilities and a ten-bucket histogram, and twenty paths are sampled.
 *
 * The random numbers are parameters: `pick(sim, i)` is the index drawn for
 * trade `i` of simulation `sim`, and `sampleKey(sim)` is the random key by
 * which simulation `sim`'s curve is ordered before the sample is taken.
 */
module MonteCarlo {
  import opened Common
  import opened Listing
  import opened Backtest

  const DefaultSimulations := 1000
  const DefaultTradesPerSimulation := 100
  const DefaultInitialBalance := 10000.0
  const DefaultRuinThreshold := 0.5
  const SampleSize := 20
  const HistogramBuckets := 10
  const NoTradesMessage := "No trades to simulate"

  datatype MonteCarloRequest = MonteCarloRequest(
    simulationCount: int, tradesPerSimulation: int, initialBalance: real, ruinThreshold: real)

  datatype DistributionBucket = DistributionBucket(rangeLow: real, rangeHigh: real, count: nat, percentage: real)

  datatype MonteCarloResult = MonteCarloResult(
    success: bool, errorMessage: Option<string>,
    simulationCount: int, tradesPerSimulation: int, initialBalance: real,
    medianReturn: real, percentile5Return: real, percentile25Return: real,
    percentile75Return: real, percentile95Return: real,
    averageReturn: real, worstCase: real, bestCase: real,
    probabilityOfProfit: real, probabilityOfRuin: real,
    averageMaxDrawdown: real, percentile95MaxDrawdown: real,
    sampleEquityCurves: seq<seq<real>>, returnDistribution: seq<DistributionBucket>)

  /** The answer for a backtest without trades: unsuccessful, every other field at its default. */
  const NoTradesResult := MonteCarloResult(
    false, Some(NoTradesMessage), 0, 0, 0.0,
    0.0, 0.0, 0.0, 0.0, 0.0, 0.0, 0.0, 0.0, 0.0, 0.0, 0.0, 0.0, [], [])

  // ------------------------------------------------------------ settings

  datatype Settings = Settings(simCount: int, tradesPerSim: int, initialBalance: real, ruinThreshold: real)

  /**
   * The request's values; without a request, 1000 runs of as many trades as
   * the backtest made but at least 100, from 10000, ruined at a 50% drawdown.
   */
  function SettingsOf(backtest: BacktestResult, request: Option<MonteCarloRequest>): (s: Settings)
    ensures request.Some? ==> s == Settings(request.value.simulationCount, request.value.tradesPerSimulation,
      request.value.initialBalance, request.value.ruinThreshold)
    ensures request.None? ==>
      s.simCount == DefaultSimulations && s.initialBalance == DefaultInitialBalance
      && s.ruinThreshold == DefaultRuinThreshold
    ensures request.None? ==>
      s.tradesPerSim >= DefaultTradesPerSimulation && s.tradesPerSim >= backtest.totalTrades
      && (s.tradesPerSim == DefaultTradesPerSimulation || s.tradesPerSim == backtest.totalTrades)
  {
    match request
    case Some(q) => Settings(q.simulationCount, q.tradesPerSimulation, q.initialBalance, q.ruinThreshold)
    case None => Settings(DefaultSimulations, MaxInt(backtest.totalTrades, DefaultTradesPerSimulation),
      DefaultInitialBalance, DefaultRuinThreshold)
  }

  /** `Trades.Select(t => t.Pnl)`. */
  function PnlsOf(trades: seq<BacktestTrade>): (r: seq<real>)
    ensures |r| == |trades|
    ensures forall i :: 0 <= i < |trades| ==> r[i] == trades[i].pnl
  {
    if |trades| == 0 then [] else [trades[0].pnl] + PnlsOf(trades[1..])
  }

  /** Every draw of the oracle is an index into a list of `count` trades. */
  ghost predicate PicksWithin(pick: (nat, nat) -> nat, count: nat)
  {
    forall sim: nat, i: nat :: pick(sim, i) < count
  }

  // ------------------------------------------------------------ one path

  /** What one simulation draws from: the pnls, the oracle, and the settings that shape a path. */
  datatype Plan = Plan(pnls: seq<real>, pick: (nat, nat) -> nat, tradesPerSim: nat, initialBalance: real, ruinThreshold: real)
  {
    ghost predicate Valid()
    {
      PicksWithin(pick, |pnls|)
    }
  }

  /** The loop variables of one path: the balance, its peak, the largest drawdown, whether it stopped, and the draws made. */
  datatype Walk = Walk(balance: real, peak: real, maxDrawdown: real, ruined: bool, draws: nat)

  /** The fall from the peak as a fraction of the peak; zero while the peak is not positive. */
  function Drawdown(peak: real, balance: real): (dd: real)
    ensures balance <= peak ==> dd >= 0.0
  {
    if peak > 0.0 then (peak - balance) / peak else 0.0
  }

  /** Below a positive peak, the drawdown is the fall over the peak, and at most 1 while the balance is not negative. */
  lemma DrawdownOfFall(peak: real, balance: real)
    requires 0.0 <= balance <= peak && peak > 0.0
    ensures Drawdown(peak, balance) * peak == peak - balance
    ensures Drawdown(peak, balance) <= 1.0
  {
  }

  /** One draw: add the pnl, raise the peak, record the drawdown, and stop once it reaches the threshold. */
  function Draw(w: Walk, pnl: real, ruinThreshold: real): Walk
  {
    var balance := w.balance + pnl;
    var peak := if balance > w.peak then balance else w.peak;
    var dd := Drawdown(peak, balance);
    Walk(balance, peak, if dd > w.maxDrawdown then dd else w.maxDrawdown, dd >= ruinThreshold, w.draws + 1)
  }

  /**
   * Simulation `sim` after its first `k` draws, or where it stopped. The
   * balance never exceeds the peak, which starts at the initial balance, and
   * the largest drawdown is not negative.
   */
  function WalkAfter(plan: Plan, sim: nat, k: nat): (w: Walk)
    requires plan.Valid()
    ensures w.draws <= k && (!w.ruined ==> w.draws == k)
    ensures w.balance <= w.peak && plan.initialBalance <= w.peak
    ensures 0.0 <= w.maxDrawdown
  {
    if k == 0 then Walk(plan.initialBalance, plan.initialBalance, 0.0, false, 0)
    else
      var w := WalkAfter(plan, sim, k - 1);
      if w.ruined then w else Draw(w, plan.pnls[plan.pick(sim, k - 1)], plan.ruinThreshold)
  }

  /**
   * The largest drawdown is at least the current one; a path stops only on
   * a drawdown at the threshold, and a path still running is below it.
   */
  lemma {:induction false} WalkDrawdowns(plan: Plan, sim: nat, k: nat)
    requires plan.Valid()
    ensures var w := WalkAfter(plan, sim, k);
      Drawdown(w.peak, w.balance) <= w.maxDrawdown
      && (w.ruined ==> w.draws >= 1 && Drawdown(w.peak, w.balance) >= plan.ruinThreshold)
      && (!w.ruined && k > 0 ==> Drawdown(w.peak, w.balance) < plan.ruinThreshold)
  {
    if k > 0 {
      WalkDrawdowns(plan, sim, k - 1);
    }
  }

  /** Once a path is ruined, further draws change nothing. */
  lemma {:induction false} RuinIsFinal(plan: Plan, sim: nat, j: nat, k: nat)
    requires plan.Valid() && j <= k && WalkAfter(plan, sim, j).ruined
    ensures WalkAfter(plan, sim, k) == WalkAfter(plan, sim, j)
    decreases k
  {
    if k > j {
      RuinIsFinal(plan, sim, j, k - 1);
    }
  }

  /** The peak and the largest drawdown never go down. */
  lemma {:induction false} PeakAndDrawdownGrow(plan: Plan, sim: nat, j: nat, k: nat)
    requires plan.Valid() && j <= k
    ensures WalkAfter(plan, sim, j).peak <= WalkAfter(plan, sim, k).peak
    ensures WalkAfter(plan, sim, j).maxDrawdown <= WalkAfter(plan, sim, k).maxDrawdown
    decreases k
  {
    if k > j {
      PeakAndDrawdownGrow(plan, sim, j, k - 1);
    }
  }

  /** A path that stopped early is, from then on, what it was at its last draw. */
  lemma {:induction false} StopPoint(plan: Plan, sim: nat, k: nat)
    requires plan.Valid()
    ensures WalkAfter(plan, sim, WalkAfter(plan, sim, k).draws) == WalkAfter(plan, sim, k)
  {
    if k > 0 && WalkAfter(plan, sim, k - 1).ruined {
      StopPoint(plan, sim, k - 1);
    }
  }

  /** The initial balance followed by the balances after the first `i` draws. */
  function Balances(plan: Plan, sim: nat, i: nat): (r: seq<real>)
    requires plan.Valid()
    ensures |r| == i + 1
  {
    if i == 0 then [plan.initialBalance] else Balances(plan, sim, i - 1) + [WalkAfter(plan, sim, i).balance]
  }

  function Zeros(k: nat): (r: seq<real>)
    ensures |r| == k && forall j :: 0 <= j < k ==> r[j] == 0.0
  {
    if k == 0 then [] else Zeros(k - 1) + [0.0]
  }

  /**
   * The equity curve of simulation `sim`: `tradesPerSim + 1` slots holding
   * the initial balance, the balance after each draw, and zeros after the
   * draw that ruined it.
   */
  function CurveOf(plan: Plan, sim: nat): (c: seq<real>)
    requires plan.Valid()
    ensures |c| == plan.tradesPerSim + 1
  {
    var stop := WalkAfter(plan, sim, plan.tradesPerSim).draws;
    Balances(plan, sim, stop) + Zeros(plan.tradesPerSim - stop)
  }

  lemma {:induction false} BalancesAt(plan: Plan, sim: nat, i: nat, j: nat)
    requires plan.Valid() && j <= i
    ensures Balances(plan, sim, i)[j] == WalkAfter(plan, sim, j).balance
  {
    if j < i {
      BalancesAt(plan, sim, i - 1, j);
    }
  }

  /**
   * The curve starts at the initial balance, follows the path up to where it
   * stopped, ends that part at the final balance, and is zero after.
   */
  lemma CurvePoints(plan: Plan, sim: nat)
    requires plan.Valid()
    ensures var w := WalkAfter(plan, sim, plan.tradesPerSim);
      var c := CurveOf(plan, sim);
      c[0] == plan.initialBalance
      && (forall j :: 0 <= j <= w.draws ==> c[j] == WalkAfter(plan, sim, j).balance)
      && c[w.draws] == w.balance
      && (forall j :: w.draws < j <= plan.tradesPerSim ==> c[j] == 0.0)
  {
    var w := WalkAfter(plan, sim, plan.tradesPerSim);
    forall j | 0 <= j <= w.draws ensures CurveOf(plan, sim)[j] == WalkAfter(plan, sim, j).balance {
      BalancesAt(plan, sim, w.draws, j);
    }
    StopPoint(plan, sim, plan.tradesPerSim);
  }

  /** A sequence of zeros is `Zeros` of its length. */
  lemma AllZeros(s: seq<real>)
    requires forall j :: 0 <= j < |s| ==> s[j] == 0.0
    ensures s == Zeros(|s|)
  {
  }

  /** Slots that hold the balances up to where the path stopped and zeros after are its curve. */
  lemma CurveFromSlots(plan: Plan, sim: nat, s: seq<real>, stop: nat)
    requires plan.Valid() && stop == WalkAfter(plan, sim, plan.tradesPerSim).draws
    requires |s| == plan.tradesPerSim + 1
    requires s[..stop + 1] == Balances(plan, sim, stop)
    requires forall j :: stop < j < |s| ==> s[j] == 0.0
    ensures s == CurveOf(plan, sim)
  {
    AllZeros(s[stop + 1..]);
    assert s == s[..stop + 1] + s[stop + 1..];
  }

  /** Path `sim` after `i` draws is `w`, and `slots` holds its balances so far. */
  ghost predicate PathAt(plan: Plan, sim: nat, i: nat, w: Walk, slots: seq<real>)
    requires plan.Valid()
  {
    WalkAfter(plan, sim, i) == w && slots == Balances(plan, sim, i)
  }

  /** A draw from a running path: the next walk is `Draw` of this one, and its balance extends the balances. */
  lemma NextWalk(plan: Plan, sim: nat, i: nat, w: Walk, slots: seq<real>, next: Walk)
    requires plan.Valid() && PathAt(plan, sim, i, w, slots) && !w.ruined
    requires next == Draw(w, plan.pnls[plan.pick(sim, i)], plan.ruinThreshold)
    ensures PathAt(plan, sim, i + 1, next, slots + [next.balance])
  {
  }

  /** A path that is ruined after `i` draws, or has made all of them, ends there. */
  lemma PathEnd(plan: Plan, sim: nat, i: nat, w: Walk, slots: seq<real>)
    requires plan.Valid() && PathAt(plan, sim, i, w, slots) && i <= plan.tradesPerSim
    requires w.draws == i && (w.ruined || i == plan.tradesPerSim)
    ensures WalkAfter(plan, sim, plan.tradesPerSim) == w && slots == Balances(plan, sim, i)
  {
    if w.ruined {
      RuinIsFinal(plan, sim, i, plan.tradesPerSim);
    }
  }

  /** The body of the inner loop: add the pnl, raise the peak, and track the largest drawdown. */
  method DrawStep(w: Walk, pnl: real, ruinThreshold: real) returns (next: Walk)
    ensures next == Draw(w, pnl, ruinThreshold)
  {
    var balance := w.balance + pnl;
    var peak := w.peak;
    if balance > peak {
      peak := balance;
    }
    var dd := Drawdown(peak, balance);
    var maxDD := w.maxDrawdown;
    if dd > maxDD {
      maxDD := dd;
    }
    next := Walk(balance, peak, maxDD, dd >= ruinThreshold, w.draws + 1);
  }

  /** The inner loop of `RunSimulation`: one path of `tradesPerSim` draws that breaks off at ruin. */
  method RunPath(plan: Plan, sim: nat) returns (curve: seq<real>, balance: real, maxDD: real, ruined: bool)
    requires plan.Valid()
    ensures var w := WalkAfter(plan, sim, plan.tradesPerSim);
      balance == w.balance && maxDD == w.maxDrawdown && ruined == w.ruined
    ensures curve == CurveOf(plan, sim)
  {
    var n := plan.tradesPerSim;
    balance := plan.initialBalance;
    var peak := balance;
    maxDD := 0.0;
    ruined := false;
    var c := new real[n + 1](_ => 0.0);
    c[0] := balance;
    ghost var w := Walk(balance, peak, maxDD, false, 0);
    assert c[..1] == [balance];
    var i := 0;
    while i < n
      invariant 0 <= i <= n && !ruined
      invariant w == Walk(balance, peak, maxDD, false, i)
      invariant PathAt(plan, sim, i, w, c[..i + 1])
      invariant forall j :: i < j <= n ==> c[j] == 0.0
    {
      ghost var written := c[..i + 1];
      var randomPnl := plan.pnls[plan.pick(sim, i)];
      var after := DrawStep(Walk(balance, peak, maxDD, false, i), randomPnl, plan.ruinThreshold);
      balance, peak, maxDD := after.balance, after.peak, after.maxDrawdown;
      c[i + 1] := balance;
      assert c[..i + 1] == written;
      assert c[..i + 2] == written + [balance];
      NextWalk(plan, sim, i, w, written, after);
      w := after;
      i := i + 1;
      if after.ruined {
        ruined := true;
        break;
      }
    }
    PathEnd(plan, sim, i, w, c[..i + 1]);
    curve := c[..];
    CurveFromSlots(plan, sim, curve, i);
  }

  // ------------------------------------------------------------ all paths

  /** The final balances of the first `n` simulations, in order. */
  function Finals(plan: Plan, n: nat): (r: seq<real>)
    requires plan.Valid()
    ensures |r| == n
  {
    if n == 0 then [] else Finals(plan, n - 1) + [WalkAfter(plan, n - 1, plan.tradesPerSim).balance]
  }

  /** A fraction as a percentage. */
  function AsPercent(fraction: real): real
  {
    fraction * 100.0
  }

  /** The largest drawdowns of the first `n` simulations, in percent. */
  function MaxDrawdowns(plan: Plan, n: nat): (r: seq<real>)
    requires plan.Valid()
    ensures |r| == n
  {
    if n == 0 then [] else MaxDrawdowns(plan, n - 1) + [AsPercent(WalkAfter(plan, n - 1, plan.tradesPerSim).maxDrawdown)]
  }

  lemma {:induction false} MaxDrawdownsNonNegative(plan: Plan, n: nat)
    requires plan.Valid()
    ensures forall s :: 0 <= s < n ==> MaxDrawdowns(plan, n)[s] >= 0.0
  {
    if n > 0 {
      MaxDrawdownsNonNegative(plan, n - 1);
      var w := WalkAfter(plan, n - 1, plan.tradesPerSim);
      assert AsPercent(w.maxDrawdown) >= 0.0;
      assert forall s :: 0 <= s < n - 1 ==> MaxDrawdowns(plan, n)[s] == MaxDrawdowns(plan, n - 1)[s];
    }
  }

  /** The equity curves of the first `n` simulations. */
  function Curves(plan: Plan, n: nat): (r: seq<seq<real>>)
    requires plan.Valid()
    ensures |r| == n
  {
    if n == 0 then [] else Curves(plan, n - 1) + [CurveOf(plan, n - 1)]
  }

  /** How many of the first `n` simulations were ruined: at most one count per simulation. */
  function Ruins(plan: Plan, n: nat): (r: nat)
    requires plan.Valid()
    ensures r <= n
  {
    if n == 0 then 0 else Ruins(plan, n - 1) + (if WalkAfter(plan, n - 1, plan.tradesPerSim).ruined then 1 else 0)
  }

  // ------------------------------------------------------------ statistics

  /** `(decimal)count / total * 100`. */
  function Percent(count: int, total: int): (r: real)
    requires total != 0
    ensures 0 <= count <= total ==> 0.0 <= r <= 100.0
    ensures count == 0 ==> r == 0.0
    ensures count == total ==> r == 100.0
  {
    PercentBounds(count, total);
    count as real / total as real * 100.0
  }

  lemma PercentBounds(count: int, total: int)
    requires total != 0
    ensures 0 <= count <= total ==> 0.0 <= count as real / total as real <= 1.0
  {
    if 0 <= count <= total {
      var q := count as real / total as real;
      assert q * total as real == count as real;
      if q > 1.0 {
        MulMonotone(1.0, q, total as real);
      }
    }
  }

  /** `Math.Ceiling` to a whole number. */
  function Ceiling(x: real): (n: int)
    ensures n as real - 1.0 < x <= n as real
  {
    -((-x).Floor)
  }

  lemma CeilingMonotone(x: real, y: real)
    requires x <= y
    ensures Ceiling(x) <= Ceiling(y)
  {
  }

  /**
   * The index `CalculatePercentile` reads: the nearest rank, one less than
   * the ceiling of `percentile`% of `count`, pulled into `[0, count - 1]`.
   * With no elements it is 0, which is then outside the list.
   */
  function PercentileIndex(percentile: int, count: int): (i: int)
    ensures count >= 1 ==> 0 <= i < count
    ensures count <= 0 ==> i == 0
  {
    MaxInt(0, MinInt(Ceiling(percentile as real / 100.0 * count as real) - 1, count - 1))
  }

  /**
   * For a percentile from 1 to 100 the index is the nearest rank: at least
   * `percentile`% of the elements lie at or before it, and fewer lie before it.
   */
  lemma PercentileIndexIsNearestRank(percentile: int, count: int)
    requires 1 <= percentile <= 100 && count >= 1
    ensures var i := PercentileIndex(percentile, count);
      (i + 1) * 100 >= percentile * count && i * 100 < percentile * count
  {
    var m := percentile * count;
    RankExact(percentile, count);
    assert 0 < m <= 100 * count;
    var c := Ceiling(m as real / 100.0);
    assert 1 <= c <= count;
    assert PercentileIndex(percentile, count) == c - 1;
    assert c as real * 100.0 >= m as real;
    assert (c - 1) as real * 100.0 < m as real;
  }

  /** `percentile / 100 * count` in exact arithmetic is the whole product over 100. */
  lemma RankExact(percentile: int, count: int)
    ensures percentile as real / 100.0 * count as real == (percentile * count) as real / 100.0
  {
  }

  lemma PercentileIndexMonotone(p: int, q: int, count: int)
    requires p <= q && count >= 1
    ensures PercentileIndex(p, count) <= PercentileIndex(q, count)
  {
    RankExact(p, count);
    RankExact(q, count);
    assert q * count - p * count == (q - p) * count;
    CeilingMonotone((p * count) as real / 100.0, (q * count) as real / 100.0);
  }

  function Id(x: real): real
  {
    x
  }

  /** `CalculatePercentile` on a non-empty ascending list. */
  function Percentile(sorted: seq<real>, percentile: int): real
    requires |sorted| >= 1
  {
    sorted[PercentileIndex(percentile, |sorted|)]
  }

  /** On an ascending list, a higher percentile is never a smaller value, and each lies between the minimum and the maximum. */
  lemma PercentileMonotone(sorted: seq<real>, p: int, q: int)
    requires |sorted| >= 1 && SortedAsc(sorted, Id) && p <= q
    ensures MinOf(sorted) <= Percentile(sorted, p) <= Percentile(sorted, q) <= MaxOf(sorted)
  {
    var i := PercentileIndex(p, |sorted|);
    var j := PercentileIndex(q, |sorted|);
    PercentileIndexMonotone(p, q, |sorted|);
    if i < j {
      assert Id(sorted[i]) <= Id(sorted[j]);
    }
    MinOfIsLower(sorted, i);
    MaxOfIsUpper(sorted, j);
  }

  /** One sampled curve is a simulated curve with each point rounded to cents. */
  function RoundCurve(c: seq<real>): (r: seq<real>)
    ensures |r| == |c|
  {
    seq(|c|, j requires 0 <= j < |c| => Round2(c[j]))
  }

  /** A curve with the random key it is ordered by. */
  datatype KeyedCurve = KeyedCurve(key: int, points: seq<real>)

  function KeyOf(c: KeyedCurve): real
  {
    c.key as real
  }

  function Keyed(curves: seq<seq<real>>, sampleKey: nat -> int): (r: seq<KeyedCurve>)
    ensures |r| == |curves|
  {
    seq(|curves|, s requires 0 <= s < |curves| => KeyedCurve(sampleKey(s), curves[s]))
  }

  /** `OrderBy(_ => random.Next()).Take(20)`, each point rounded to cents. */
  function SampleCurves(curves: seq<seq<real>>, sampleKey: nat -> int): (r: seq<seq<real>>)
    ensures |r| == if |curves| < SampleSize then |curves| else SampleSize
  {
    var chosen := Take(SortAsc(Keyed(curves, sampleKey), KeyOf), SampleSize);
    seq(|chosen|, k requires 0 <= k < |chosen| => RoundCurve(chosen[k].points))
  }

  /** Every sampled curve is the rounding of one of the simulated curves. */
  lemma SampledCurvesAreRounded(curves: seq<seq<real>>, sampleKey: nat -> int, k: int)
    requires 0 <= k < |SampleCurves(curves, sampleKey)|
    ensures exists s :: 0 <= s < |curves| && SampleCurves(curves, sampleKey)[k] == RoundCurve(curves[s])
  {
    var keyed := Keyed(curves, sampleKey);
    var ordered := SortAsc(keyed, KeyOf);
    var chosen := Take(ordered, SampleSize);
    assert chosen[k] == ordered[k];
    SortAscElements(keyed, KeyOf, ordered[k]);
    var s :| 0 <= s < |keyed| && keyed[s] == ordered[k];
    assert SampleCurves(curves, sampleKey)[k] == RoundCurve(curves[s]);
  }

  // ------------------------------------------------------------ histogram

  /** The lower edge of bucket `i`, which is also the upper edge of bucket `i - 1`. */
  function BucketEdge(min: real, size: real, i: int): real
  {
    min + size * i as real
  }

  /** Buckets are half-open, except the last, which also takes its upper edge. */
  predicate InBucket(v: real, low: real, high: real, last: bool)
  {
    v >= low && (if last then v <= high else v < high)
  }

  function CountInBucket(values: seq<real>, low: real, high: real, last: bool): (c: nat)
    ensures c <= |values|
  {
    if |values| == 0 then 0
    else (if InBucket(values[0], low, high, last) then 1 else 0) + CountInBucket(values[1..], low, high, last)
  }

  function MakeBucket(values: seq<real>, min: real, size: real, buckets: int, i: int): DistributionBucket
    requires |values| > 0
  {
    var low := BucketEdge(min, size, i);
    var high := BucketEdge(min, size, i + 1);
    var count := CountInBucket(values, low, high, i == buckets - 1);
    DistributionBucket(Round2(low), Round2(high), count, Percent(count, |values|))
  }

  /** `CalculateDistribution`: `buckets` equal-width buckets from the minimum to the maximum. */
  function Distribution(values: seq<real>, buckets: int): (r: seq<DistributionBucket>)
    requires |values| > 0 && buckets >= 1
    ensures |r| == buckets
    ensures forall i :: 0 <= i < buckets ==> 0.0 <= r[i].percentage <= 100.0
  {
    var min := MinOf(values);
    var size := (MaxOf(values) - min) / buckets as real;
    seq(buckets, i requires 0 <= i < buckets => MakeBucket(values, min, size, buckets, i))
  }

  function TotalCount(bs: seq<DistributionBucket>): nat
  {
    if |bs| == 0 then 0 else TotalCount(bs[..|bs| - 1]) + bs[|bs| - 1].count
  }

  /** The counts of the first `m` buckets, with the edges fixed. */
  function Tally(values: seq<real>, min: real, size: real, buckets: int, m: nat): nat
  {
    if m == 0 then 0
    else
      Tally(values, min, size, buckets, m - 1)
      + CountInBucket(values, BucketEdge(min, size, m - 1), BucketEdge(min, size, m), m - 1 == buckets - 1)
  }

  /** How many of the first `m` buckets hold `v`. */
  function Hits(v: real, min: real, size: real, buckets: int, m: nat): nat
  {
    if m == 0 then 0
    else
      Hits(v, min, size, buckets, m - 1)
      + if InBucket(v, BucketEdge(min, size, m - 1), BucketEdge(min, size, m), m - 1 == buckets - 1) then 1 else 0
  }

  lemma EdgeStep(min: real, size: real, i: int)
    requires size >= 0.0
    ensures BucketEdge(min, size, i + 1) == BucketEdge(min, size, i) + size
    ensures BucketEdge(min, size, i) <= BucketEdge(min, size, i + 1)
  {
    assert size * (i + 1) as real == size * i as real + size;
  }

  /**
   * Below the last bucket, the buckets holding `v` telescope: `v` is in one
   * of the first `m` exactly when it is at or above the first edge and below
   * the `m`-th.
   */
  lemma {:induction false} HitsBelowLast(v: real, min: real, size: real, buckets: int, m: nat)
    requires size >= 0.0 && m <= buckets - 1 && v >= min
    ensures Hits(v, min, size, buckets, m) == if v < BucketEdge(min, size, m) then 1 else 0
  {
    if m == 0 {
      assert BucketEdge(min, size, 0) == min;
    } else {
      HitsBelowLast(v, min, size, buckets, m - 1);
      EdgeStep(min, size, m - 1);
    }
  }

  /** A value between the minimum and the maximum is in exactly one bucket. */
  lemma ExactlyOneBucket(v: real, min: real, max: real, buckets: int)
    requires buckets >= 1 && min <= v <= max
    ensures Hits(v, min, (max - min) / buckets as real, buckets, buckets) == 1
  {
    var size := (max - min) / buckets as real;
    assert size * buckets as real == max - min;
    assert BucketEdge(min, size, buckets) == max;
    assert size >= 0.0;
    HitsBelowLast(v, min, size, buckets, buckets - 1);
    EdgeStep(min, size, buckets - 1);
  }

  /** Counting a list bucket by bucket is its first value's hits plus the rest's count. */
  lemma {:induction false} TallyCons(values: seq<real>, min: real, size: real, buckets: int, m: nat)
    requires |values| > 0
    ensures Tally(values, min, size, buckets, m)
      == Hits(values[0], min, size, buckets, m) + Tally(values[1..], min, size, buckets, m)
  {
    if m > 0 {
      TallyCons(values, min, size, buckets, m - 1);
    }
  }

  lemma {:induction false} TallyOfNothing(min: real, size: real, buckets: int, m: nat)
    ensures Tally([], min, size, buckets, m) == 0
  {
    if m > 0 {
      TallyOfNothing(min, size, buckets, m - 1);
    }
  }

  lemma {:induction false} TallyAll(values: seq<real>, min: real, max: real, buckets: int)
    requires buckets >= 1
    requires forall i :: 0 <= i < |values| ==> min <= values[i] <= max
    ensures Tally(values, min, (max - min) / buckets as real, buckets, buckets) == |values|
    decreases |values|
  {
    if |values| > 0 {
      var size := (max - min) / buckets as real;
      TallyCons(values, min, size, buckets, buckets);
      assert min <= values[0] <= max;
      ExactlyOneBucket(values[0], min, max, buckets);
      assert Hits(values[0], min, size, buckets, buckets) == 1;
      assert forall i :: 0 <= i < |values[1..]| ==> values[1..][i] == values[i + 1];
      TallyAll(values[1..], min, max, buckets);
      assert Tally(values[1..], min, size, buckets, buckets) == |values| - 1;
    } else {
      TallyOfNothing(min, (max - min) / buckets as real, buckets, buckets);
    }
  }

  lemma {:induction false} TotalCountIsTally(values: seq<real>, buckets: int, m: nat)
    requires |values| > 0 && buckets >= 1 && m <= buckets
    ensures TotalCount(Distribution(values, buckets)[..m])
      == Tally(values, MinOf(values), (MaxOf(values) - MinOf(values)) / buckets as real, buckets, m)
  {
    if m > 0 {
      var d := Distribution(values, buckets);
      assert d[..m][..m - 1] == d[..m - 1];
      TotalCountIsTally(values, buckets, m - 1);
    }
  }

  /** Every value lands in exactly one bucket, so the counts add up to the number of values. */
  lemma DistributionCountsEveryValue(values: seq<real>, buckets: int)
    requires |values| > 0 && buckets >= 1
    ensures TotalCount(Distribution(values, buckets)) == |values|
  {
    var min := MinOf(values);
    var max := MaxOf(values);
    forall i | 0 <= i < |values| ensures min <= values[i] <= max {
      MinOfIsLower(values, i);
      MaxOfIsUpper(values, i);
    }
    TallyAll(values, min, max, buckets);
    TotalCountIsTally(values, buckets, buckets);
    assert Distribution(values, buckets)[..buckets] == Distribution(values, buckets);
  }

  // ------------------------------------------------------------ summary

  /** The result built from the simulations' outcomes (lines 65-99), given at least one simulation. */
  function Summary(st: Settings, finals: seq<real>, drawdowns: seq<real>, ruins: nat,
                   curves: seq<seq<real>>, sampleKey: nat -> int): MonteCarloResult
    requires st.simCount >= 1 && |finals| == st.simCount && |drawdowns| == st.simCount
  {
    var sortedFinals := SortAsc(finals, Id);
    var sortedDrawdowns := SortAsc(drawdowns, Id);
    MonteCarloResult(
      true, None, st.simCount, st.tradesPerSim, st.initialBalance,
      Percentile(sortedFinals, 50), Percentile(sortedFinals, 5), Percentile(sortedFinals, 25),
      Percentile(sortedFinals, 75), Percentile(sortedFinals, 95),
      Mean(sortedFinals), MinOf(sortedFinals), MaxOf(sortedFinals),
      Percent(CountWhere(sortedFinals, b => b > st.initialBalance), st.simCount),
      Percent(ruins, st.simCount),
      Mean(sortedDrawdowns), Percentile(sortedDrawdowns, 95),
      SampleCurves(curves, sampleKey),
      Distribution(sortedFinals, HistogramBuckets))
  }

  /** The worst case, the five percentiles, the best case in that order, with the average between the extremes. */
  lemma SummaryReturnsOrdered(st: Settings, finals: seq<real>, drawdowns: seq<real>, ruins: nat,
                              curves: seq<seq<real>>, sampleKey: nat -> int)
    requires st.simCount >= 1 && |finals| == st.simCount && |drawdowns| == st.simCount
    ensures var r := Summary(st, finals, drawdowns, ruins, curves, sampleKey);
      r.worstCase <= r.percentile5Return <= r.percentile25Return <= r.medianReturn
      && r.medianReturn <= r.percentile75Return <= r.percentile95Return <= r.bestCase
      && r.worstCase <= r.averageReturn <= r.bestCase
  {
    var s := SortAsc(finals, Id);
    PercentileMonotone(s, 5, 25);
    PercentileMonotone(s, 25, 50);
    PercentileMonotone(s, 50, 75);
    PercentileMonotone(s, 75, 95);
    forall i | 0 <= i < |s| ensures MinOf(s) <= s[i] <= MaxOf(s) {
      MinOfIsLower(s, i);
      MaxOfIsUpper(s, i);
    }
    MeanBounds(s, MinOf(s), MaxOf(s));
  }

  lemma {:induction false} CountWhereNone<T>(s: seq<T>, p: T -> bool)
    requires forall i :: 0 <= i < |s| ==> !p(s[i])
    ensures CountWhere(s, p) == 0
    decreases |s|
  {
    if |s| > 0 {
      assert forall i :: 0 <= i < |s[1..]| ==> s[1..][i] == s[i + 1];
      CountWhereNone(s[1..], p);
    }
  }

  lemma {:induction false} CountWhereAll<T>(s: seq<T>, p: T -> bool)
    requires forall i :: 0 <= i < |s| ==> p(s[i])
    ensures CountWhere(s, p) == |s|
    decreases |s|
  {
    if |s| > 0 {
      assert forall i :: 0 <= i < |s[1..]| ==> s[1..][i] == s[i + 1];
      CountWhereAll(s[1..], p);
    }
  }

  /**
   * The probabilities are percentages; profit counts only a final balance
   * strictly above the initial one, so no run above it gives 0 and every
   * run above it gives 100.
   */
  lemma SummaryProbabilities(st: Settings, finals: seq<real>, drawdowns: seq<real>, ruins: nat,
                             curves: seq<seq<real>>, sampleKey: nat -> int)
    requires st.simCount >= 1 && |finals| == st.simCount && |drawdowns| == st.simCount
    ensures var r := Summary(st, finals, drawdowns, ruins, curves, sampleKey);
      0.0 <= r.probabilityOfProfit <= 100.0
      && (ruins <= st.simCount ==> 0.0 <= r.probabilityOfRuin <= 100.0)
      && ((forall i :: 0 <= i < |finals| ==> finals[i] <= st.initialBalance) ==> r.probabilityOfProfit == 0.0)
      && ((forall i :: 0 <= i < |finals| ==> finals[i] > st.initialBalance) ==> r.probabilityOfProfit == 100.0)
  {
    var s := SortAsc(finals, Id);
    var above := (b: real) => b > st.initialBalance;
    forall i | 0 <= i < |s| ensures s[i] in finals {
      SortAscElements(finals, Id, s[i]);
    }
    if forall i :: 0 <= i < |finals| ==> finals[i] <= st.initialBalance {
      CountWhereNone(s, above);
    }
    if forall i :: 0 <= i < |finals| ==> finals[i] > st.initialBalance {
      CountWhereAll(s, above);
    }
  }

  /** With no negative drawdown, the average and the 95th percentile of the drawdowns are not negative. */
  lemma SummaryDrawdowns(st: Settings, finals: seq<real>, drawdowns: seq<real>, ruins: nat,
                         curves: seq<seq<real>>, sampleKey: nat -> int)
    requires st.simCount >= 1 && |finals| == st.simCount && |drawdowns| == st.simCount
    requires forall i :: 0 <= i < |drawdowns| ==> drawdowns[i] >= 0.0
    ensures var r := Summary(st, finals, drawdowns, ruins, curves, sampleKey);
      r.averageMaxDrawdown >= 0.0 && r.percentile95MaxDrawdown >= 0.0
  {
    var s := SortAsc(drawdowns, Id);
    forall i | 0 <= i < |s| ensures 0.0 <= s[i] <= MaxOf(s) {
      SortAscElements(drawdowns, Id, s[i]);
      MaxOfIsUpper(s, i);
    }
    MeanBounds(s, 0.0, MaxOf(s));
  }

  /** Ten buckets whose counts add up to the number of simulations, and at most twenty sampled curves. */
  lemma SummaryHistogramAndSample(st: Settings, finals: seq<real>, drawdowns: seq<real>, ruins: nat,
                                  curves: seq<seq<real>>, sampleKey: nat -> int)
    requires st.simCount >= 1 && |finals| == st.simCount && |drawdowns| == st.simCount
    ensures var r := Summary(st, finals, drawdowns, ruins, curves, sampleKey);
      |r.returnDistribution| == HistogramBuckets && TotalCount(r.returnDistribution) == st.simCount
      && |r.sampleEquityCurves| == (if |curves| < SampleSize then |curves| else SampleSize)
  {
    DistributionCountsEveryValue(SortAsc(finals, Id), HistogramBuckets);
  }

  /** The facts above together, for outcomes with at most one ruin per run and no negative drawdown. */
  lemma SummaryFacts(st: Settings, finals: seq<real>, drawdowns: seq<real>, ruins: nat,
                     curves: seq<seq<real>>, sampleKey: nat -> int)
    requires st.simCount >= 1 && |finals| == st.simCount && |drawdowns| == st.simCount && ruins <= st.simCount
    requires forall i :: 0 <= i < |drawdowns| ==> drawdowns[i] >= 0.0
    ensures var r := Summary(st, finals, drawdowns, ruins, curves, sampleKey);
      r.success && r.simulationCount == st.simCount
      && 0.0 <= r.probabilityOfRuin <= 100.0 && 0.0 <= r.probabilityOfProfit <= 100.0
      && r.averageMaxDrawdown >= 0.0 && r.percentile95MaxDrawdown >= 0.0
      && TotalCount(r.returnDistribution) == st.simCount
      && r.worstCase <= r.medianReturn <= r.bestCase
  {
    SummaryReturnsOrdered(st, finals, drawdowns, ruins, curves, sampleKey);
    SummaryProbabilities(st, finals, drawdowns, ruins, curves, sampleKey);
    SummaryDrawdowns(st, finals, drawdowns, ruins, curves, sampleKey);
    SummaryHistogramAndSample(st, finals, drawdowns, ruins, curves, sampleKey);
  }

  // ------------------------------------------------------------ the run

  /** What `RunSimulation` answers, or the exception it throws. */
  function Simulation(backtest: BacktestResult, request: Option<MonteCarloRequest>,
                      pick: (nat, nat) -> nat, sampleKey: nat -> int): (r: Result<MonteCarloResult>)
    requires InInt32(backtest.totalTrades) && (request.Some? ==> InInt32(request.value.tradesPerSimulation))
    requires PicksWithin(pick, |backtest.trades|) || |backtest.trades| == 0
  {
    SimulationOf(SettingsOf(backtest, request), PnlsOf(backtest.trades), pick, sampleKey)
  }

  /** `Simulation` once the settings and the pnls are read. */
  function SimulationOf(st: Settings, pnls: seq<real>, pick: (nat, nat) -> nat, sampleKey: nat -> int): (r: Result<MonteCarloResult>)
    requires InInt32(st.tradesPerSim) && (PicksWithin(pick, |pnls|) || |pnls| == 0)
  {
    CurveArraySize(st.tradesPerSim);
    if |pnls| == 0 then Success(NoTradesResult)
    // with no simulation, CalculatePercentile reads index 0 of an empty list
    else if st.simCount <= 0 then Failure(IndexOutOfRange)
    else if Wrap32(st.tradesPerSim + 1) < 0 then Failure(ArithmeticOverflow)
    else if Wrap32(st.tradesPerSim + 1) == 0 then Failure(ArrayIndexOutOfRange)
    else
      Success(PlanSummary(st, Plan(pnls, pick, st.tradesPerSim, st.initialBalance, st.ruinThreshold), sampleKey))
  }

  /** The summary of `simCount` paths drawn from `plan`. */
  function PlanSummary(st: Settings, plan: Plan, sampleKey: nat -> int): MonteCarloResult
    requires plan.Valid() && st.simCount >= 1
  {
    Summary(st, Finals(plan, st.simCount), MaxDrawdowns(plan, st.simCount), Ruins(plan, st.simCount),
      Curves(plan, st.simCount), sampleKey)
  }

  /** The curve array has `tradesPerSim + 1` slots: -1 trades leaves no slot for the first point, fewer (or `int.MaxValue`) overflow. */
  lemma CurveArraySize(tradesPerSim: int)
    requires InInt32(tradesPerSim)
    ensures Wrap32(tradesPerSim + 1) == 0 <==> tradesPerSim == -1
    ensures Wrap32(tradesPerSim + 1) < 0 <==> tradesPerSim < -1 || tradesPerSim == Int32Max
    ensures Wrap32(tradesPerSim + 1) > 0 ==> tradesPerSim >= 0
  {
    if tradesPerSim == Int32Max {
      assert Wrap32(tradesPerSim + 1) == Int32Min;
    } else {
      assert InInt32(tradesPerSim + 1);
    }
  }

  /**
   * A successful run is ruined at most once per simulation, so the
   * probability of ruin is a percentage; the drawdown figures are not
   * negative; and the histogram counts every simulation once.
   */
  lemma SimulationFacts(backtest: BacktestResult, request: Option<MonteCarloRequest>,
                        pick: (nat, nat) -> nat, sampleKey: nat -> int)
    requires InInt32(backtest.totalTrades) && (request.Some? ==> InInt32(request.value.tradesPerSimulation))
    requires PicksWithin(pick, |backtest.trades|) || |backtest.trades| == 0
    ensures var r := Simulation(backtest, request, pick, sampleKey);
      r.Success? && r.value.success ==>
        0.0 <= r.value.probabilityOfRuin <= 100.0 && 0.0 <= r.value.probabilityOfProfit <= 100.0
        && r.value.averageMaxDrawdown >= 0.0 && r.value.percentile95MaxDrawdown >= 0.0
        && TotalCount(r.value.returnDistribution) == r.value.simulationCount
        && r.value.worstCase <= r.value.medianReturn <= r.value.bestCase
  {
    SimulationOfFacts(SettingsOf(backtest, request), PnlsOf(backtest.trades), pick, sampleKey);
  }

  lemma SimulationOfFacts(st: Settings, pnls: seq<real>, pick: (nat, nat) -> nat, sampleKey: nat -> int)
    requires InInt32(st.tradesPerSim) && (PicksWithin(pick, |pnls|) || |pnls| == 0)
    ensures var r := SimulationOf(st, pnls, pick, sampleKey);
      r.Success? && r.value.success ==>
        0.0 <= r.value.probabilityOfRuin <= 100.0 && 0.0 <= r.value.probabilityOfProfit <= 100.0
        && r.value.averageMaxDrawdown >= 0.0 && r.value.percentile95MaxDrawdown >= 0.0
        && TotalCount(r.value.returnDistribution) == r.value.simulationCount
        && r.value.worstCase <= r.value.medianReturn <= r.value.bestCase
  {
    CurveArraySize(st.tradesPerSim);
    if |pnls| > 0 && st.simCount > 0 && Wrap32(st.tradesPerSim + 1) > 0 {
      PlanSummaryFacts(st, Plan(pnls, pick, st.tradesPerSim, st.initialBalance, st.ruinThreshold), sampleKey);
    }
  }

  /** `SummaryFacts` for the paths of a plan, whose drawdowns are never negative. */
  lemma PlanSummaryFacts(st: Settings, plan: Plan, sampleKey: nat -> int)
    requires plan.Valid() && st.simCount >= 1
    ensures var r := PlanSummary(st, plan, sampleKey);
      0.0 <= r.probabilityOfRuin <= 100.0 && 0.0 <= r.probabilityOfProfit <= 100.0
      && r.averageMaxDrawdown >= 0.0 && r.percentile95MaxDrawdown >= 0.0
      && TotalCount(r.returnDistribution) == r.simulationCount
      && r.worstCase <= r.medianReturn <= r.bestCase
  {
    MaxDrawdownsNonNegative(plan, st.simCount);
    SummaryFacts(st, Finals(plan, st.simCount), MaxDrawdowns(plan, st.simCount), Ruins(plan, st.simCount),
      Curves(plan, st.simCount), sampleKey);
  }

  /** The outer loop of `RunSimulation`: `simCount` paths, their curves, final balances, drawdowns in percent, and ruins. */
  method RunPaths(plan: Plan, simCount: nat)
    returns (equityCurves: seq<seq<real>>, finalBalances: seq<real>, maxDrawdowns: seq<real>, ruinCount: nat)
    requires plan.Valid()
    ensures equityCurves == Curves(plan, simCount) && finalBalances == Finals(plan, simCount)
    ensures maxDrawdowns == MaxDrawdowns(plan, simCount) && ruinCount == Ruins(plan, simCount)
  {
    equityCurves := [];
    finalBalances := [];
    maxDrawdowns := [];
    ruinCount := 0;
    var sim := 0;
    while sim < simCount
      invariant 0 <= sim <= simCount
      invariant PathsSoFar(plan, sim, equityCurves, finalBalances, maxDrawdowns, ruinCount)
    {
      var curve, balance, maxDD, ruined := RunPath(plan, sim);
      PathsStep(plan, sim, equityCurves, finalBalances, maxDrawdowns, ruinCount);
      if ruined {
        ruinCount := ruinCount + 1;
      }
      equityCurves := equityCurves + [curve];
      finalBalances := finalBalances + [balance];
      maxDrawdowns := maxDrawdowns + [AsPercent(maxDD)];
      sim := sim + 1;
    }
  }

  /** The loop variables of `RunPaths` after `n` simulations. */
  ghost predicate PathsSoFar(plan: Plan, n: nat, curves: seq<seq<real>>, finals: seq<real>, drawdowns: seq<real>, ruins: nat)
    requires plan.Valid()
  {
    curves == Curves(plan, n) && finals == Finals(plan, n) && drawdowns == MaxDrawdowns(plan, n) && ruins == Ruins(plan, n)
  }

  lemma PathsStep(plan: Plan, n: nat, curves: seq<seq<real>>, finals: seq<real>, drawdowns: seq<real>, ruins: nat)
    requires plan.Valid() && PathsSoFar(plan, n, curves, finals, drawdowns, ruins)
    ensures var w := WalkAfter(plan, n, plan.tradesPerSim);
      PathsSoFar(plan, n + 1, curves + [CurveOf(plan, n)], finals + [w.balance],
        drawdowns + [AsPercent(w.maxDrawdown)], ruins + if w.ruined then 1 else 0)
  {
  }

  /**
   * `RunSimulation`: without trades it answers unsuccessfully; otherwise it
   * runs `simCount` paths and summarises them, or throws as `Simulation` says.
   */
  method RunSimulation(backtest: BacktestResult, request: Option<MonteCarloRequest>,
                       pick: (nat, nat) -> nat, sampleKey: nat -> int) returns (r: Result<MonteCarloResult>)
    requires InInt32(backtest.totalTrades) && (request.Some? ==> InInt32(request.value.tradesPerSimulation))
    requires PicksWithin(pick, |backtest.trades|) || |backtest.trades| == 0
    ensures r == Simulation(backtest, request, pick, sampleKey)
  {
    var st := SettingsOf(backtest, request);
    var tradePnls := PnlsOf(backtest.trades);
    if |tradePnls| == 0 {
      return Success(NoTradesResult);
    }
    if st.simCount <= 0 {
      return Failure(IndexOutOfRange);
    }
    CurveArraySize(st.tradesPerSim);
    if Wrap32(st.tradesPerSim + 1) < 0 {
      return Failure(ArithmeticOverflow);
    }
    if Wrap32(st.tradesPerSim + 1) == 0 {
      return Failure(ArrayIndexOutOfRange);
    }
    var plan := Plan(tradePnls, pick, st.tradesPerSim, st.initialBalance, st.ruinThreshold);
    var summary := SummarisePaths(st, plan, sampleKey);
    r := Success(summary);
  }

  /** The loops of `RunSimulation` over the paths, then the statistics over them. */
  method SummarisePaths(st: Settings, plan: Plan, sampleKey: nat -> int) returns (summary: MonteCarloResult)
    requires plan.Valid() && st.simCount >= 1
    ensures summary == PlanSummary(st, plan, sampleKey)
  {
    var equityCurves, finalBalances, maxDrawdowns, ruinCount := RunPaths(plan, st.simCount);
    summary := Summary(st, finalBalances, maxDrawdowns, ruinCount, equityCurves, sampleKey);
  }
}
