/**
 * Moving averages of `TechnicalIndicators`: the simple moving average and the
 * exponential moving average, each as a specification function, a loop that
 * computes it the way the indicator code does, and the properties the charts
 * and strategies rely on (length, warm-up nulls, values stay within the
 * range of the prices they average, a constant series averages to itself).
 */
module Indicators {
  import opened Common

  // ---------------------------------------------------------------- SMA

  /** The SMA value at index `i`: null during the warm-up, else the mean of the last `period` prices. */
  function SmaAt(prices: seq<real>, period: int, i: int): Option<real>
    requires period >= 1 && 0 <= i < |prices|
  {
    if i < period - 1 then None
    else Some(Sum(prices[i - period + 1 .. i + 1]) / period as real)
  }

  /** `CalculateSma`: one entry per price. */
  function Sma(prices: seq<real>, period: int): (r: seq<Option<real>>)
    requires period >= 1
    ensures |r| == |prices|
  {
    seq(|prices|, i requires 0 <= i < |prices| => SmaAt(prices, period, i))
  }

  /** The loop version: for each index, sum the window backwards and divide. */
  method CalculateSma(prices: seq<real>, period: int) returns (result: seq<Option<real>>)
    requires period >= 1
    ensures result == Sma(prices, period)
  {
    result := [];
    for i := 0 to |prices|
      invariant |result| == i
      invariant forall k :: 0 <= k < i ==> result[k] == SmaAt(prices, period, k)
    {
      if i < period - 1 {
        result := result + [None];
      } else {
        var sum := 0.0;
        for j := 0 to period
          invariant sum == Sum(prices[i - j + 1 .. i + 1])
        {
          SumExtendFront(prices, i - j, i + 1);
          sum := sum + prices[i - j];
        }
        result := result + [Some(sum / period as real)];
      }
    }
  }

  lemma SumExtendFront(s: seq<real>, lo: int, hi: int)
    requires 0 <= lo < hi <= |s|
    ensures Sum(s[lo..hi]) == s[lo] + Sum(s[lo + 1..hi])
  {
    assert s[lo..hi][1..] == s[lo + 1..hi];
  }

  /** Warm-up: exactly the first `period - 1` entries are null. */
  lemma SmaDefinedIff(prices: seq<real>, period: int, i: int)
    requires period >= 1 && 0 <= i < |prices|
    ensures Sma(prices, period)[i].Some? <==> i >= period - 1
  {
  }

  /** Each SMA value lies between the lowest and highest price of its window. */
  lemma SmaWithinWindow(prices: seq<real>, period: int, i: int, lo: real, hi: real)
    requires period >= 1 && period - 1 <= i < |prices|
    requires forall k :: i - period + 1 <= k <= i ==> lo <= prices[k] <= hi
    ensures lo <= Sma(prices, period)[i].value <= hi
  {
    var w := prices[i - period + 1 .. i + 1];
    assert forall k :: 0 <= k < |w| ==> w[k] == prices[i - period + 1 + k];
    MeanBounds(w, lo, hi);
  }

  /** Prices all within `[lo, hi]` give SMA values within `[lo, hi]`. */
  lemma SmaBounds(prices: seq<real>, period: int, lo: real, hi: real)
    requires period >= 1
    requires forall k :: 0 <= k < |prices| ==> lo <= prices[k] <= hi
    ensures forall i :: 0 <= i < |prices| && Sma(prices, period)[i].Some? ==>
              lo <= Sma(prices, period)[i].value <= hi
  {
    forall i | 0 <= i < |prices| && Sma(prices, period)[i].Some?
      ensures lo <= Sma(prices, period)[i].value <= hi
    {
      SmaWithinWindow(prices, period, i, lo, hi);
    }
  }

  /** A one-period SMA is the price series itself. */
  lemma SmaPeriodOne(prices: seq<real>, i: int)
    requires 0 <= i < |prices|
    ensures Sma(prices, 1)[i] == Some(prices[i])
  {
    assert prices[i .. i + 1] == [prices[i]];
    assert Sum([prices[i]]) == prices[i] + Sum([prices[i]][1..]);
  }

  // ---------------------------------------------------------------- EMA

  /** The smoothing factor `2 / (period + 1)`. */
  function EmaMultiplier(period: int): (k: real)
    requires period >= 1
    ensures 0.0 < k <= 1.0
  {
    2.0 / (period + 1) as real
  }

  /**
   * The EMA value at index `i >= period - 1`: the first is the SMA of the
   * first `period` prices, each later one moves the previous value toward
   * the price by the multiplier.
   */
  function EmaValue(prices: seq<real>, period: int, i: int): real
    requires period >= 1 && period - 1 <= i < |prices|
    decreases i
  {
    if i == period - 1 then Sum(prices[..period]) / period as real
    else
      var prev := EmaValue(prices, period, i - 1);
      (prices[i] - prev) * EmaMultiplier(period) + prev
  }

  /** `CalculateEma`: null during the warm-up, then the running EMA. */
  function Ema(prices: seq<real>, period: int): (r: seq<Option<real>>)
    requires period >= 1
    ensures |r| == |prices|
  {
    seq(|prices|, i requires 0 <= i < |prices| =>
      if i < period - 1 then None else Some(EmaValue(prices, period, i)))
  }

  /** The loop version: seed with the SMA of the first `period` prices, then update from the last entry. */
  method CalculateEma(prices: seq<real>, period: int) returns (result: seq<Option<real>>)
    requires period >= 1
    ensures result == Ema(prices, period)
  {
    result := [];
    var multiplier := 2.0 / (period + 1) as real;
    for i := 0 to |prices|
      invariant |result| == i
      invariant forall k :: 0 <= k < i ==> result[k] == Ema(prices, period)[k]
    {
      if i < period - 1 {
        result := result + [None];
      } else if i == period - 1 {
        var sum := 0.0;
        for j := 0 to period
          invariant sum == Sum(prices[..j])
        {
          SumSnoc(prices[..j], prices[j]);
          assert prices[..j + 1] == prices[..j] + [prices[j]];
          sum := sum + prices[j];
        }
        assert prices[..period] == prices[..i + 1];
        result := result + [Some(sum / period as real)];
      } else {
        var prevEma := result[|result| - 1];
        if prevEma.Some? {
          var ema := (prices[i] - prevEma.value) * multiplier + prevEma.value;
          assert EmaValue(prices, period, i) == ema;
          result := result + [Some(ema)];
        } else {
          // The previous entry is always defined past the warm-up.
          assert false;
        }
      }
    }
  }

  /** A convex step: moving `e` toward `p` by a factor in `(0, 1]` stays between them. */
  lemma EmaStepBounds(p: real, e: real, k: real, lo: real, hi: real)
    requires 0.0 < k <= 1.0
    requires lo <= p <= hi && lo <= e <= hi
    ensures lo <= (p - e) * k + e <= hi
  {
    var v := (p - e) * k + e;
    assert v - lo == k * (p - lo) + (1.0 - k) * (e - lo);
    assert hi - v == k * (hi - p) + (1.0 - k) * (hi - e);
    MulNonNegative(k, p - lo);
    MulNonNegative(1.0 - k, e - lo);
    MulNonNegative(k, hi - p);
    MulNonNegative(1.0 - k, hi - e);
  }

  /** Every EMA value stays within the range of the prices. */
  lemma {:induction false} EmaValueBounds(prices: seq<real>, period: int, i: int, lo: real, hi: real)
    requires period >= 1 && period - 1 <= i < |prices|
    requires forall k :: 0 <= k < |prices| ==> lo <= prices[k] <= hi
    ensures lo <= EmaValue(prices, period, i) <= hi
    decreases i
  {
    if i == period - 1 {
      var w := prices[..period];
      assert forall k :: 0 <= k < |w| ==> w[k] == prices[k];
      MeanBounds(w, lo, hi);
    } else {
      var prev := EmaValue(prices, period, i - 1);
      EmaValueBounds(prices, period, i - 1, lo, hi);
      EmaStepBounds(prices[i], prev, EmaMultiplier(period), lo, hi);
      assert EmaValue(prices, period, i) == (prices[i] - prev) * EmaMultiplier(period) + prev;
    }
  }

  lemma EmaBounds(prices: seq<real>, period: int, lo: real, hi: real)
    requires period >= 1
    requires forall k :: 0 <= k < |prices| ==> lo <= prices[k] <= hi
    ensures forall i :: 0 <= i < |prices| && Ema(prices, period)[i].Some? ==>
              lo <= Ema(prices, period)[i].value <= hi
  {
    forall i | 0 <= i < |prices| && Ema(prices, period)[i].Some?
      ensures lo <= Ema(prices, period)[i].value <= hi
    {
      EmaValueBounds(prices, period, i, lo, hi);
    }
  }

  /** A constant price series has that constant as every defined EMA value. */
  lemma EmaOfConstant(prices: seq<real>, period: int, c: real, i: int)
    requires period >= 1 && period - 1 <= i < |prices|
    requires forall k :: 0 <= k < |prices| ==> prices[k] == c
    ensures Ema(prices, period)[i] == Some(c)
  {
    EmaValueBounds(prices, period, i, c, c);
  }

  /** The EMA's first defined value equals the SMA at the same index. */
  lemma EmaSeedIsSma(prices: seq<real>, period: int)
    requires period >= 1 && period <= |prices|
    ensures Ema(prices, period)[period - 1] == Sma(prices, period)[period - 1]
  {
    assert prices[..period] == prices[period - 1 - period + 1 .. period - 1 + 1];
  }
}
