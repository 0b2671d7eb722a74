/**
 * RSI and Stochastic RSI of `TechnicalIndicators`.
 *
 * The RSI is modelled exactly as the indicator code builds it: the first
 * value comes from the plain average of the first `period` gains and losses
 * and is placed at index `period + 1`; the Wilder updates then start from
 * gain index `period + 1`, so the output has one entry per price when there
 * are at least `period + 2` prices, and one entry more than there are prices
 * when there are exactly `period + 1`.
 */
module IndicatorsRsi {
  import opened Common
  import opened Indicators

  // ---------------------------------------------------------------- RSI

  /** Upward price moves: `max(p[i+1] - p[i], 0)`. */
  function Gains(prices: seq<real>): (r: seq<real>)
    requires |prices| >= 1
    ensures |r| == |prices| - 1
    ensures forall i :: 0 <= i < |r| ==> r[i] >= 0.0
  {
    seq(|prices| - 1, i requires 0 <= i < |prices| - 1 =>
      if prices[i + 1] - prices[i] > 0.0 then prices[i + 1] - prices[i] else 0.0)
  }

  /** Downward price moves: `max(p[i] - p[i+1], 0)`. */
  function Losses(prices: seq<real>): (r: seq<real>)
    requires |prices| >= 1
    ensures |r| == |prices| - 1
    ensures forall i :: 0 <= i < |r| ==> r[i] >= 0.0
  {
    seq(|prices| - 1, i requires 0 <= i < |prices| - 1 =>
      if prices[i + 1] - prices[i] < 0.0 then prices[i] - prices[i + 1] else 0.0)
  }

  /** Every move is either a gain or a loss, never both. */
  lemma GainOrLoss(prices: seq<real>, i: int)
    requires 1 <= |prices| && 0 <= i < |prices| - 1
    ensures Gains(prices)[i] - Losses(prices)[i] == prices[i + 1] - prices[i]
    ensures Gains(prices)[i] == 0.0 || Losses(prices)[i] == 0.0
  {
  }

  /**
   * The smoothed average after `k` updates: `k = 0` is the mean of the first
   * `period` values, update `k` folds in value `period + k`.
   */
  function WilderAverage(xs: seq<real>, period: int, k: nat): real
    requires period >= 1 && period <= |xs|
    requires k > 0 ==> period + k < |xs|
    decreases k
  {
    if k == 0 then Mean(xs[..period])
    else WilderUpdate(WilderAverage(xs, period, k - 1), xs[period + k], period)
  }

  /** One Wilder smoothing step: `(average * (period - 1) + x) / period`. */
  function WilderUpdate(average: real, x: real, period: int): real
    requires period >= 1
  {
    (average * (period - 1) as real + x) / period as real
  }

  /** Values within `[lo, hi]` keep the smoothed average within it. */
  lemma {:induction false} WilderAverageBounds(xs: seq<real>, period: int, k: nat, lo: real, hi: real)
    requires period >= 1 && period <= |xs|
    requires k > 0 ==> period + k < |xs|
    requires forall i :: 0 <= i < |xs| ==> lo <= xs[i] <= hi
    ensures lo <= WilderAverage(xs, period, k) <= hi
    decreases k
  {
    if k == 0 {
      var w := xs[..period];
      assert forall i :: 0 <= i < |w| ==> w[i] == xs[i];
      MeanBounds(w, lo, hi);
    } else {
      WilderAverageBounds(xs, period, k - 1, lo, hi);
      WilderStepBounds(WilderAverage(xs, period, k - 1), xs[period + k], period, lo, hi);
    }
  }

  /** One Wilder update averages two values within `[lo, hi]`, so it stays within it. */
  lemma WilderStepBounds(a: real, x: real, period: int, lo: real, hi: real)
    requires period >= 1 && lo <= a <= hi && lo <= x <= hi
    ensures lo <= WilderUpdate(a, x, period) <= hi
  {
    var p := period as real;
    assert (period - 1) as real == p - 1.0;
    var v := a * (p - 1.0) + x;
    assert v - lo * p == (a - lo) * (p - 1.0) + (x - lo);
    assert hi * p - v == (hi - a) * (p - 1.0) + (hi - x);
    MulNonNegative(a - lo, p - 1.0);
    MulNonNegative(hi - a, p - 1.0);
    assert lo * p <= v <= hi * p;
    assert v / p >= lo by { assert v >= lo * p; }
    assert v / p <= hi by { assert v <= hi * p; }
  }

  lemma WilderAverageNonNegative(xs: seq<real>, period: int, k: nat)
    requires period >= 1 && period <= |xs|
    requires k > 0 ==> period + k < |xs|
    requires forall i :: 0 <= i < |xs| ==> xs[i] >= 0.0
    ensures WilderAverage(xs, period, k) >= 0.0
  {
    var hi := MaxOf(xs);
    forall i | 0 <= i < |xs| ensures 0.0 <= xs[i] <= hi {
      MaxOfIsUpper(xs, i);
    }
    WilderAverageBounds(xs, period, k, 0.0, hi);
  }

  /**
   * `100 - 100 / (1 + rs)` with `rs = avgGain / avgLoss`, or `rs = 100` when
   * there were no losses.
   */
  function RsiFromAverages(avgGain: real, avgLoss: real): (r: real)
    requires avgGain >= 0.0 && avgLoss >= 0.0
    ensures 0.0 <= r < 100.0
    ensures avgLoss == 0.0 ==> r == 100.0 - 100.0 / 101.0
    ensures avgGain == 0.0 && avgLoss > 0.0 ==> r == 0.0
  {
    var rs := if avgLoss == 0.0 then 100.0 else avgGain / avgLoss;
    assert rs >= 0.0;
    100.0 - 100.0 / (1.0 + rs)
  }

  /** The RSI after `k` Wilder updates. */
  function RsiValue(prices: seq<real>, period: int, k: nat): (r: real)
    requires period >= 1 && |prices| > period
    requires k > 0 ==> period + k < |prices| - 1
  {
    WilderAverageNonNegative(Gains(prices), period, k);
    WilderAverageNonNegative(Losses(prices), period, k);
    RsiFromAverages(WilderAverage(Gains(prices), period, k), WilderAverage(Losses(prices), period, k))
  }

  /** The number of Wilder updates the indicator loop performs. */
  function RsiUpdates(prices: seq<real>, period: int): nat
    requires period >= 1
  {
    if |prices| - 1 > period + 1 then |prices| - period - 2 else 0
  }

  /** `CalculateRsi` as written. */
  function Rsi(prices: seq<real>, period: int): (r: seq<Option<real>>)
    requires period >= 1
  {
    if |prices| <= period then seq(|prices|, i => None)
    else
      seq(period + 1, i => None)
      + seq(RsiUpdates(prices, period) + 1, k requires 0 <= k <= RsiUpdates(prices, period) =>
          Some(RsiValue(prices, period, k)))
  }

  /** The first loop of `CalculateRsi`: the gain and loss of every price move. */
  method PriceMoves(prices: seq<real>) returns (gains: seq<real>, losses: seq<real>)
    requires |prices| >= 1
    ensures gains == Gains(prices) && losses == Losses(prices)
  {
    gains := [];
    losses := [];
    for i := 1 to |prices|
      invariant |gains| == |losses| == i - 1
      invariant forall k :: 0 <= k < i - 1 ==> gains[k] == Gains(prices)[k] && losses[k] == Losses(prices)[k]
    {
      var diff := prices[i] - prices[i - 1];
      gains := gains + [if diff > 0.0 then diff else 0.0];
      losses := losses + [if diff < 0.0 then Abs(diff) else 0.0];
    }
  }

  method CalculateRsi(prices: seq<real>, period: int) returns (result: seq<Option<real>>)
    requires period >= 1
    ensures result == Rsi(prices, period)
  {
    result := [];
    if |prices| <= period {
      for i := 0 to |prices|
        invariant result == seq(i, k => None)
      {
        result := result + [None];
      }
      return;
    }

    var gains, losses := PriceMoves(prices);

    for i := 0 to period + 1
      invariant result == seq(i, k => None)
    {
      result := result + [None];
    }

    var values := RsiValues(prices, period, gains, losses);
    result := result + values;
    RsiFromEntries(prices, period, result);
  }

  /** The smoothing loop of `CalculateRsi`: the RSI after the seed averages and after each later move. */
  method RsiValues(prices: seq<real>, period: int, gains: seq<real>, losses: seq<real>) returns (values: seq<Option<real>>)
    requires period >= 1 && |prices| > period
    requires gains == Gains(prices) && losses == Losses(prices)
    ensures |values| == RsiUpdates(prices, period) + 1
    ensures forall k :: 0 <= k < |values| ==> values[k] == Some(RsiValue(prices, period, k))
  {
    var avgGain := Mean(gains[..period]);
    var avgLoss := Mean(losses[..period]);
    WilderAverageNonNegative(gains, period, 0);
    WilderAverageNonNegative(losses, period, 0);
    values := [Some(RsiFromAverages(avgGain, avgLoss))];

    var i := period + 1;
    while i < |gains|
      invariant period + 1 <= i <= |gains| || (i == period + 1 && |gains| == period)
      invariant |values| == i - period
      invariant forall k :: 0 <= k < |values| ==> values[k] == Some(RsiValue(prices, period, k))
      invariant avgGain == WilderAverage(gains, period, i - period - 1)
      invariant avgLoss == WilderAverage(losses, period, i - period - 1)
    {
      RsiValueNext(prices, period, i - period - 1, avgGain, avgLoss);
      avgGain := WilderUpdate(avgGain, gains[i], period);
      avgLoss := WilderUpdate(avgLoss, losses[i], period);
      values := values + [Some(RsiFromAverages(avgGain, avgLoss))];
      i := i + 1;
    }
  }

  /** One Wilder update of both averages gives the next RSI value. */
  lemma RsiValueNext(prices: seq<real>, period: int, t: nat, avgGain: real, avgLoss: real)
    requires period >= 1 && period + t + 1 < |prices| - 1
    requires avgGain == WilderAverage(Gains(prices), period, t) && avgLoss == WilderAverage(Losses(prices), period, t)
    ensures var gain := WilderUpdate(avgGain, Gains(prices)[period + t + 1], period);
      var loss := WilderUpdate(avgLoss, Losses(prices)[period + t + 1], period);
      gain == WilderAverage(Gains(prices), period, t + 1) && loss == WilderAverage(Losses(prices), period, t + 1) &&
      gain >= 0.0 && loss >= 0.0 && RsiFromAverages(gain, loss) == RsiValue(prices, period, t + 1)
  {
    WilderAverageNonNegative(Gains(prices), period, t + 1);
    WilderAverageNonNegative(Losses(prices), period, t + 1);
  }

  /** A list with the warm-up nulls and the RSI value of every later index is `Rsi`. */
  lemma RsiFromEntries(prices: seq<real>, period: int, r: seq<Option<real>>)
    requires period >= 1 && |prices| > period
    requires |r| == period + 2 + RsiUpdates(prices, period)
    requires forall k :: 0 <= k < period + 1 ==> r[k] == None
    requires forall k :: period + 1 <= k < |r| ==> r[k] == Some(RsiValue(prices, period, k - period - 1))
    ensures r == Rsi(prices, period)
  {
    var R := Rsi(prices, period);
    assert |R| == |r|;
    forall k | 0 <= k < |r| ensures r[k] == R[k] {
      if k >= period + 1 {
        RsiEntry(prices, period, k);
      }
    }
  }

  /** Output length: one entry per price, except one extra for exactly `period + 1` prices. */
  lemma RsiLength(prices: seq<real>, period: int)
    requires period >= 1
    ensures |prices| != period + 1 ==> |Rsi(prices, period)| == |prices|
    ensures |prices| == period + 1 ==> |Rsi(prices, period)| == |prices| + 1
  {
  }

  /** Exactly the first `period + 1` entries are null (all of them when there are too few prices). */
  lemma RsiDefinedIff(prices: seq<real>, period: int, i: int)
    requires period >= 1 && 0 <= i < |Rsi(prices, period)|
    ensures Rsi(prices, period)[i].Some? <==> (|prices| > period && i > period)
  {
  }

  /** Past index `period + 1`, entry `i` is the RSI after `i - period - 1` updates and uses prices up to `i`. */
  lemma RsiEntry(prices: seq<real>, period: int, i: int)
    requires period >= 1 && period + 1 <= i < |Rsi(prices, period)| && |prices| > period
    ensures Rsi(prices, period)[i] == Some(RsiValue(prices, period, i - period - 1))
  {
  }

  /** Every RSI value lies in `[0, 100)`. */
  lemma RsiRange(prices: seq<real>, period: int)
    requires period >= 1
    ensures DefinedWithin(Rsi(prices, period), 0.0, 100.0)
    ensures forall i :: 0 <= i < |Rsi(prices, period)| && Rsi(prices, period)[i].Some? ==>
              Rsi(prices, period)[i].value < 100.0
  {
  }

  /** A series that never falls has no losses. */
  lemma RisingSeriesLosses(prices: seq<real>)
    requires |prices| >= 1
    requires forall k :: 0 <= k < |prices| - 1 ==> prices[k] <= prices[k + 1]
    ensures forall j :: 0 <= j < |Losses(prices)| ==> Losses(prices)[j] == 0.0
  {
  }

  /** Without losses, the RSI after any number of updates is `100 - 100/101`. */
  lemma RsiValueWithoutLosses(prices: seq<real>, period: int, k: nat)
    requires period >= 1 && |prices| > period
    requires k > 0 ==> period + k < |prices| - 1
    requires forall j :: 0 <= j < |Losses(prices)| ==> Losses(prices)[j] == 0.0
    ensures RsiValue(prices, period, k) == 100.0 - 100.0 / 101.0
  {
    var losses := Losses(prices);
    WilderAverageBounds(losses, period, k, 0.0, 0.0);
    var gains := Gains(prices);
    WilderAverageNonNegative(gains, period, k);
    assert RsiValue(prices, period, k) == RsiFromAverages(WilderAverage(gains, period, k), WilderAverage(losses, period, k));
  }

  /** A series that never falls has no losses, so every RSI value is `100 - 100/101`. */
  lemma RsiOfRisingSeries(prices: seq<real>, period: int, i: int)
    requires period >= 1
    requires forall k :: 0 <= k < |prices| - 1 ==> prices[k] <= prices[k + 1]
    requires 0 <= i < |Rsi(prices, period)| && Rsi(prices, period)[i].Some?
    ensures Rsi(prices, period)[i].value == 100.0 - 100.0 / 101.0
  {
    RsiDefinedIff(prices, period, i);
    RsiEntry(prices, period, i);
    RisingSeriesLosses(prices);
    RsiValueWithoutLosses(prices, period, i - period - 1);
  }

  // ------------------------------------------------------ Stochastic RSI

  /** The raw stochastic of the RSI at index `i` over the last `stochPeriod` RSI values. */
  function StochKAt(rsi: seq<Option<real>>, stochPeriod: int, i: int): Option<real>
    requires stochPeriod >= 1 && 0 <= i < |rsi|
  {
    if i < stochPeriod - 1 || rsi[i].None? then None
    else
      var window := Somes(rsi[i - stochPeriod + 1 .. i + 1]);
      if |window| < stochPeriod then None
      else
        var highest := MaxOf(window);
        var lowest := MinOf(window);
        if highest == lowest then Some(50.0)
        else Some((rsi[i].value - lowest) / (highest - lowest) * 100.0)
  }

  function StochK(rsi: seq<Option<real>>, stochPeriod: int): (r: seq<Option<real>>)
    requires stochPeriod >= 1
    ensures |r| == |rsi|
  {
    seq(|rsi|, i requires 0 <= i < |rsi| => StochKAt(rsi, stochPeriod, i))
  }

  /**
   * Puts the smoothed values back at the positions of the non-null marks:
   * the `k`-th non-null mark receives `smoothed[k]`.
   */
  function Realign(marks: seq<Option<real>>, smoothed: seq<Option<real>>): (r: seq<Option<real>>)
    ensures |r| == |marks|
  {
    seq(|marks|, i requires 0 <= i < |marks| => RealignAt(marks, smoothed, i))
  }

  function RealignAt(marks: seq<Option<real>>, smoothed: seq<Option<real>>, i: int): Option<real>
    requires 0 <= i < |marks|
  {
    if marks[i].None? then None
    else if |Somes(marks[..i])| < |smoothed| then smoothed[|Somes(marks[..i])|]
    else None
  }

  /** `CalculateStochasticRsi`: smoothed %K and its SMA %D, aligned with the RSI list. */
  function StochasticRsi(prices: seq<real>, rsiPeriod: int, stochPeriod: int, smoothK: int, smoothD: int)
    : (r: (seq<Option<real>>, seq<Option<real>>))
    requires rsiPeriod >= 1 && stochPeriod >= 1 && smoothK >= 1 && smoothD >= 1
    ensures |r.0| == |r.1| == |Rsi(prices, rsiPeriod)|
  {
    var k := StochK(Rsi(prices, rsiPeriod), stochPeriod);
    var alignedK := Realign(k, Sma(Somes(k), smoothK));
    (alignedK, Realign(alignedK, Sma(Somes(alignedK), smoothD)))
  }

  lemma SomesPrefixStep(s: seq<Option<real>>, i: int)
    requires 0 <= i < |s|
    ensures Somes(s[..i + 1]) == Somes(s[..i]) + (if s[i].Some? then [s[i].value] else [])
  {
    assert s[..i + 1][..i] == s[..i];
  }

  /** The alignment loop with a running index into the smoothed list. */
  method AlignSmoothed(marks: seq<Option<real>>, smoothed: seq<Option<real>>) returns (aligned: seq<Option<real>>)
    ensures aligned == Realign(marks, smoothed)
  {
    aligned := [];
    var index := 0;
    for i := 0 to |marks|
      invariant |aligned| == i
      invariant index == |Somes(marks[..i])|
      invariant forall k :: 0 <= k < i ==> aligned[k] == RealignAt(marks, smoothed, k)
    {
      SomesPrefixStep(marks, i);
      if marks[i].None? {
        aligned := aligned + [None];
      } else {
        aligned := aligned + [if index < |smoothed| then smoothed[index] else None];
        index := index + 1;
      }
    }
  }

  /** The first loop of `CalculateStochasticRsi`: the raw stochastic of every RSI entry. */
  method RawStochK(rsiValues: seq<Option<real>>, stochPeriod: int) returns (kValues: seq<Option<real>>)
    requires stochPeriod >= 1
    ensures kValues == StochK(rsiValues, stochPeriod)
  {
    kValues := [];
    for i := 0 to |rsiValues|
      invariant |kValues| == i
      invariant forall j :: 0 <= j < i ==> kValues[j] == StochKAt(rsiValues, stochPeriod, j)
    {
      if i < stochPeriod - 1 || rsiValues[i].None? {
        kValues := kValues + [None];
      } else {
        var periodRsi := Somes(rsiValues[i - stochPeriod + 1 .. i + 1]);
        if |periodRsi| < stochPeriod {
          kValues := kValues + [None];
        } else {
          var highestRsi := MaxOf(periodRsi);
          var lowestRsi := MinOf(periodRsi);
          var currentRsi := rsiValues[i].value;
          if highestRsi == lowestRsi {
            kValues := kValues + [Some(50.0)];
          } else {
            kValues := kValues + [Some((currentRsi - lowestRsi) / (highestRsi - lowestRsi) * 100.0)];
          }
        }
      }
    }
  }

  method CalculateStochasticRsi(prices: seq<real>, rsiPeriod: int, stochPeriod: int, smoothK: int, smoothD: int)
    returns (k: seq<Option<real>>, d: seq<Option<real>>)
    requires rsiPeriod >= 1 && stochPeriod >= 1 && smoothK >= 1 && smoothD >= 1
    ensures (k, d) == StochasticRsi(prices, rsiPeriod, stochPeriod, smoothK, smoothD)
  {
    var rsiValues := CalculateRsi(prices, rsiPeriod);
    var kValues := RawStochK(rsiValues, stochPeriod);
    var smoothedK := CalculateSma(Somes(kValues), smoothK);
    k := AlignSmoothed(kValues, smoothedK);
    var dSma := CalculateSma(Somes(k), smoothD);
    d := AlignSmoothed(k, dSma);
  }

  /** A value that lies between the window's extremes maps into `[0, 100]`. */
  lemma StochScaleRange(cur: real, lo: real, hi: real)
    requires lo <= cur <= hi && lo < hi
    ensures 0.0 <= (cur - lo) / (hi - lo) * 100.0 <= 100.0
  {
    assert (cur - lo) / (hi - lo) <= 1.0;
  }

  /** The current RSI belongs to its own window, which is fully defined when %K is. */
  lemma StochWindowHasCurrent(rsi: seq<Option<real>>, stochPeriod: int, i: int)
    requires stochPeriod >= 1 && stochPeriod - 1 <= i < |rsi| && rsi[i].Some?
    requires |Somes(rsi[i - stochPeriod + 1 .. i + 1])| >= stochPeriod
    ensures MinOf(Somes(rsi[i - stochPeriod + 1 .. i + 1])) <= rsi[i].value
    ensures rsi[i].value <= MaxOf(Somes(rsi[i - stochPeriod + 1 .. i + 1]))
  {
    var w := rsi[i - stochPeriod + 1 .. i + 1];
    var vs := Somes(w);
    SomesCountAll(w);
    SomesAllPresent(w);
    assert w[stochPeriod - 1] == rsi[i];
    MinOfIsLower(vs, stochPeriod - 1);
    MaxOfIsUpper(vs, stochPeriod - 1);
  }

  /** `Somes` keeps every entry exactly when every entry is present. */
  lemma {:induction false} SomesCountAll(s: seq<Option<real>>)
    requires |Somes(s)| >= |s|
    ensures forall i :: 0 <= i < |s| ==> s[i].Some?
    decreases |s|
  {
    if |s| > 0 {
      var front := s[..|s| - 1];
      assert |Somes(front)| <= |front|;
      SomesCountAll(front);
      assert forall i :: 0 <= i < |front| ==> s[i] == front[i];
    }
  }

  /** Every raw %K value lies in `[0, 100]`. */
  lemma StochKRange(rsi: seq<Option<real>>, stochPeriod: int)
    requires stochPeriod >= 1
    ensures DefinedWithin(StochK(rsi, stochPeriod), 0.0, 100.0)
  {
    forall i | 0 <= i < |rsi| && StochK(rsi, stochPeriod)[i].Some?
      ensures 0.0 <= StochK(rsi, stochPeriod)[i].value <= 100.0
    {
      var w := Somes(rsi[i - stochPeriod + 1 .. i + 1]);
      if MaxOf(w) != MinOf(w) {
        StochWindowHasCurrent(rsi, stochPeriod, i);
        StochScaleRange(rsi[i].value, MinOf(w), MaxOf(w));
      }
    }
  }

  /** %K is 0 at the lowest RSI of a non-flat window and 100 at the highest. */
  lemma StochKExtremes(rsi: seq<Option<real>>, stochPeriod: int, i: int)
    requires stochPeriod >= 1 && 0 <= i < |rsi|
    requires StochK(rsi, stochPeriod)[i].Some? && i >= stochPeriod - 1
    requires MaxOf(Somes(rsi[i - stochPeriod + 1 .. i + 1])) != MinOf(Somes(rsi[i - stochPeriod + 1 .. i + 1]))
    ensures rsi[i].value == MinOf(Somes(rsi[i - stochPeriod + 1 .. i + 1])) ==> StochK(rsi, stochPeriod)[i] == Some(0.0)
    ensures rsi[i].value == MaxOf(Somes(rsi[i - stochPeriod + 1 .. i + 1])) ==> StochK(rsi, stochPeriod)[i] == Some(100.0)
  {
    var w := Somes(rsi[i - stochPeriod + 1 .. i + 1]);
    assert StochK(rsi, stochPeriod)[i] == Some((rsi[i].value - MinOf(w)) / (MaxOf(w) - MinOf(w)) * 100.0);
    StochScaleEnds(MinOf(w), MaxOf(w));
  }

  lemma StochScaleEnds(lo: real, hi: real)
    requires lo != hi
    ensures (lo - lo) / (hi - lo) * 100.0 == 0.0
    ensures (hi - lo) / (hi - lo) * 100.0 == 100.0
  {
  }

  /** Values within `[lo, hi]` stay within it through smoothing and realignment. */
  lemma RealignSmaBounds(marks: seq<Option<real>>, period: int, lo: real, hi: real)
    requires period >= 1
    requires DefinedWithin(marks, lo, hi)
    ensures DefinedWithin(Realign(marks, Sma(Somes(marks), period)), lo, hi)
  {
    var vs := Somes(marks);
    forall k | 0 <= k < |vs| ensures lo <= vs[k] <= hi {
      SomesFrom(marks, k);
    }
    SmaBounds(vs, period, lo, hi);
  }

  /** Smoothed %K and %D both stay within `[0, 100]`. */
  lemma StochasticRsiRange(prices: seq<real>, rsiPeriod: int, stochPeriod: int, smoothK: int, smoothD: int)
    requires rsiPeriod >= 1 && stochPeriod >= 1 && smoothK >= 1 && smoothD >= 1
    ensures DefinedWithin(StochasticRsi(prices, rsiPeriod, stochPeriod, smoothK, smoothD).0, 0.0, 100.0)
    ensures DefinedWithin(StochasticRsi(prices, rsiPeriod, stochPeriod, smoothK, smoothD).1, 0.0, 100.0)
  {
    var rsi := Rsi(prices, rsiPeriod);
    var k := StochK(rsi, stochPeriod);
    StochKRange(rsi, stochPeriod);
    RealignSmaBounds(k, smoothK, 0.0, 100.0);
    var alignedK := Realign(k, Sma(Somes(k), smoothK));
    RealignSmaBounds(alignedK, smoothD, 0.0, 100.0);
  }
}
