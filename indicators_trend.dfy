/**
 * MACD and EMA-cross detection of `TechnicalIndicators`.
 *
 * `CalculateMacd` builds its MACD line twice and keeps only the second; the
 * first pass matters only because it looks up the first non-null MACD value,
 * which throws when there is none. The model computes the line once and
 * returns that exception as a `Failure`.
 */
module IndicatorsTrend {
  import opened Common
  import opened Indicators
  import opened IndicatorsRsi

  // ---------------------------------------------------------------- MACD

  datatype Macd = Macd(macdLine: seq<Option<real>>, signalLine: seq<Option<real>>, histogram: seq<Option<real>>)

  /** Fast EMA minus slow EMA wherever both are defined. */
  function MacdLine(prices: seq<real>, fastPeriod: int, slowPeriod: int): (r: seq<Option<real>>)
    requires fastPeriod >= 1 && slowPeriod >= 1
    ensures |r| == |prices|
  {
    var fast := Ema(prices, fastPeriod);
    var slow := Ema(prices, slowPeriod);
    seq(|prices|, i requires 0 <= i < |prices| =>
      if fast[i].Some? && slow[i].Some? then Some(fast[i].value - slow[i].value) else None)
  }

  /** MACD minus signal wherever the signal is defined. */
  function Histogram(macdLine: seq<Option<real>>, signalLine: seq<Option<real>>): (r: seq<Option<real>>)
    requires |signalLine| == |macdLine|
    ensures |r| == |macdLine|
  {
    seq(|macdLine|, i requires 0 <= i < |macdLine| => Difference(macdLine[i], signalLine[i]))
  }

  function Difference(a: Option<real>, b: Option<real>): Option<real>
  {
    if a.Some? && b.Some? then Some(a.value - b.value) else None
  }


  /**
   * `CalculateMacd`: the signal line is the EMA of the non-null MACD values,
   * put back at the MACD line's non-null positions.
   */
  function CalculateMacdSpec(prices: seq<real>, fastPeriod: int, slowPeriod: int, signalPeriod: int): Result<Macd>
    requires fastPeriod >= 1 && slowPeriod >= 1 && signalPeriod >= 1
  {
    var line := MacdLine(prices, fastPeriod, slowPeriod);
    if forall i :: 0 <= i < |line| ==> line[i].None? then Failure(NoMatchingElement)
    else
      var signal := Realign(line, Ema(Somes(line), signalPeriod));
      Success(Macd(line, signal, Histogram(line, signal)))
  }

  /** The MACD pass of `CalculateMacd`: the line and, in order, its non-null values. */
  method ComputeMacdLine(prices: seq<real>, fastPeriod: int, slowPeriod: int)
    returns (macdLine: seq<Option<real>>, macdValues: seq<real>)
    requires fastPeriod >= 1 && slowPeriod >= 1
    ensures macdLine == MacdLine(prices, fastPeriod, slowPeriod)
    ensures macdValues == Somes(macdLine)
  {
    var fastEma := CalculateEma(prices, fastPeriod);
    var slowEma := CalculateEma(prices, slowPeriod);
    macdLine := [];
    macdValues := [];
    for i := 0 to |prices|
      invariant |macdLine| == i
      invariant forall k :: 0 <= k < i ==> macdLine[k] == MacdLine(prices, fastPeriod, slowPeriod)[k]
      invariant macdValues == Somes(macdLine)
    {
      if fastEma[i].Some? && slowEma[i].Some? {
        var value := fastEma[i].value - slowEma[i].value;
        SomesSnoc(macdLine, Some(value));
        macdLine := macdLine + [Some(value)];
        macdValues := macdValues + [value];
      } else {
        SomesSnoc(macdLine, None);
        macdLine := macdLine + [None];
      }
    }
  }

  /** The re-alignment pass: the k-th non-null MACD entry gets signal value k, and the histogram. */
  method AlignSignal(macdLine: seq<Option<real>>, signalEma: seq<Option<real>>)
    returns (signalLine: seq<Option<real>>, histogram: seq<Option<real>>)
    requires |signalEma| == |Somes(macdLine)|
    ensures signalLine == Realign(macdLine, signalEma)
    ensures histogram == Histogram(macdLine, signalLine)
  {
    signalLine := [];
    histogram := [];
    var signalCounter := 0;
    for i := 0 to |macdLine|
      invariant |signalLine| == |histogram| == i
      invariant signalCounter == |Somes(macdLine[..i])|
      invariant forall k :: 0 <= k < i ==> signalLine[k] == RealignAt(macdLine, signalEma, k)
      invariant forall k :: 0 <= k < i ==> histogram[k] == Difference(macdLine[k], signalLine[k])
    {
      SomesPrefixStep(macdLine, i);
      var sigVal: Option<real> := None;
      var diff: Option<real> := None;
      if macdLine[i].Some? {
        SomesIndex(macdLine, i);
        if signalCounter < |signalEma| {
          sigVal := signalEma[signalCounter];
          if sigVal.Some? {
            diff := Some(macdLine[i].value - sigVal.value);
          }
          signalCounter := signalCounter + 1;
        } else {
          // Every non-null MACD entry has a signal entry.
          assert false;
        }
      }
      assert sigVal == RealignAt(macdLine, signalEma, i) && diff == Difference(macdLine[i], sigVal);
      signalLine := signalLine + [sigVal];
      histogram := histogram + [diff];
    }
  }

  method CalculateMacd(prices: seq<real>, fastPeriod: int, slowPeriod: int, signalPeriod: int) returns (r: Result<Macd>)
    requires fastPeriod >= 1 && slowPeriod >= 1 && signalPeriod >= 1
    ensures r == CalculateMacdSpec(prices, fastPeriod, slowPeriod, signalPeriod)
  {
    var macdLine, macdValues := ComputeMacdLine(prices, fastPeriod, slowPeriod);

    // `macdLine.First(x => x != null)` throws when every entry is null.
    var start := 0;
    while start < |macdLine| && macdLine[start].None?
      invariant 0 <= start <= |macdLine|
      invariant forall k :: 0 <= k < start ==> macdLine[k].None?
    {
      start := start + 1;
    }
    if start == |macdLine| {
      return Failure(NoMatchingElement);
    }

    var signalEma := CalculateEma(macdValues, signalPeriod);
    var signalLine, histogram := AlignSignal(macdLine, signalEma);
    r := Success(Macd(macdLine, signalLine, histogram));
  }

  /** The MACD line is defined exactly from index `max(fast, slow) - 1` on. */
  lemma MacdLineDefinedIff(prices: seq<real>, fastPeriod: int, slowPeriod: int, i: int)
    requires fastPeriod >= 1 && slowPeriod >= 1 && 0 <= i < |prices|
    ensures MacdLine(prices, fastPeriod, slowPeriod)[i].Some? <==> i >= MaxInt(fastPeriod, slowPeriod) - 1
    ensures MacdLine(prices, fastPeriod, slowPeriod)[i].Some? ==>
              MacdLine(prices, fastPeriod, slowPeriod)[i].value ==
              EmaValue(prices, fastPeriod, i) - EmaValue(prices, slowPeriod, i)
  {
  }

  /** `CalculateMacd` throws exactly when there are fewer prices than the longer EMA period. */
  lemma MacdFailsIff(prices: seq<real>, fastPeriod: int, slowPeriod: int, signalPeriod: int)
    requires fastPeriod >= 1 && slowPeriod >= 1 && signalPeriod >= 1
    ensures CalculateMacdSpec(prices, fastPeriod, slowPeriod, signalPeriod).Failure? <==>
              |prices| < MaxInt(fastPeriod, slowPeriod)
  {
    var line := MacdLine(prices, fastPeriod, slowPeriod);
    if |prices| >= MaxInt(fastPeriod, slowPeriod) {
      MacdLineDefinedIff(prices, fastPeriod, slowPeriod, |prices| - 1);
      assert line[|prices| - 1].Some?;
    } else {
      forall i | 0 <= i < |line| ensures line[i].None? {
        MacdLineDefinedIff(prices, fastPeriod, slowPeriod, i);
      }
    }
  }

  /** All three lines have one entry per price, and the histogram is MACD minus signal. */
  lemma MacdShape(prices: seq<real>, fastPeriod: int, slowPeriod: int, signalPeriod: int, i: int)
    requires fastPeriod >= 1 && slowPeriod >= 1 && signalPeriod >= 1
    requires CalculateMacdSpec(prices, fastPeriod, slowPeriod, signalPeriod).Success?
    requires 0 <= i < |prices|
    ensures var m := CalculateMacdSpec(prices, fastPeriod, slowPeriod, signalPeriod).value;
      |m.macdLine| == |m.signalLine| == |m.histogram| == |prices| &&
      (m.signalLine[i].Some? ==> m.macdLine[i].Some?) &&
      (m.histogram[i].Some? <==> m.signalLine[i].Some?) &&
      (m.histogram[i].Some? ==> m.histogram[i].value == m.macdLine[i].value - m.signalLine[i].value)
  {
  }

  /**
   * The signal value at index `i` is the EMA of the MACD values from the
   * first defined one up to `i`: it is defined from `max(fast, slow) + signal - 2` on.
   */
  lemma SignalDefinedIff(prices: seq<real>, fastPeriod: int, slowPeriod: int, signalPeriod: int, i: int)
    requires fastPeriod >= 1 && slowPeriod >= 1 && signalPeriod >= 1
    requires CalculateMacdSpec(prices, fastPeriod, slowPeriod, signalPeriod).Success?
    requires 0 <= i < |prices|
    ensures CalculateMacdSpec(prices, fastPeriod, slowPeriod, signalPeriod).value.signalLine[i].Some? <==>
              i >= MaxInt(fastPeriod, slowPeriod) + signalPeriod - 2
  {
    var line := MacdLine(prices, fastPeriod, slowPeriod);
    var start := MaxInt(fastPeriod, slowPeriod) - 1;
    MacdLineDefinedIff(prices, fastPeriod, slowPeriod, i);
    if i >= start {
      var front := line[..i];
      NonesThenSomes(line, start, i);
      assert |Somes(front)| == i - start;
      SomesIndex(line, i);
    }
  }

  /** With nulls before `start` and values from `start` until `i`, the first `i` entries hold `i - start` values. */
  lemma {:induction false} NonesThenSomes(line: seq<Option<real>>, start: int, i: int)
    requires 0 <= start <= i <= |line|
    requires forall k :: 0 <= k < |line| ==> (line[k].Some? <==> k >= start)
    ensures |Somes(line[..i])| == i - start
    decreases i
  {
    if i > start {
      NonesThenSomes(line, start, i - 1);
      SomesPrefixStep(line, i - 1);
    } else {
      NoSomes(line[..i]);
    }
  }

  lemma {:induction false} NoSomes(s: seq<Option<real>>)
    requires forall k :: 0 <= k < |s| ==> s[k].None?
    ensures Somes(s) == []
    decreases |s|
  {
    if |s| > 0 {
      NoSomes(s[..|s| - 1]);
    }
  }

  // ---------------------------------------------------------- EMA cross

  datatype EmaCross = EmaCross(isGoldenCross: bool, isDeathCross: bool, fastEma: Option<real>, slowEma: Option<real>)

  /** `DetectEmaCross`: compares the last two values of a fast and a slow EMA. */
  function DetectEmaCross(prices: seq<real>, fastPeriod: int, slowPeriod: int): (r: EmaCross)
    requires fastPeriod >= 1 && slowPeriod >= 1
    ensures !(r.isGoldenCross && r.isDeathCross)
    ensures r.fastEma == LastOrNull(Ema(prices, fastPeriod))
    ensures r.slowEma == LastOrNull(Ema(prices, slowPeriod))
  {
    var fast := Ema(prices, fastPeriod);
    var slow := Ema(prices, slowPeriod);
    var lastFast := LastOrNull(fast);
    var lastSlow := LastOrNull(slow);
    var prevFast := FromEnd(fast, 1);
    var prevSlow := FromEnd(slow, 1);
    if lastFast.None? || lastSlow.None? || prevFast.None? || prevSlow.None? then
      EmaCross(false, false, lastFast, lastSlow)
    else
      EmaCross(prevFast.value < prevSlow.value && lastFast.value > lastSlow.value,
               prevFast.value > prevSlow.value && lastFast.value < lastSlow.value,
               lastFast, lastSlow)
  }

  /**
   * A golden cross is the fast EMA moving from below the slow EMA at the
   * previous price to above it at the last; it needs one price more than the
   * longer period.
   */
  lemma GoldenCrossMeaning(prices: seq<real>, fastPeriod: int, slowPeriod: int)
    requires fastPeriod >= 1 && slowPeriod >= 1
    ensures DetectEmaCross(prices, fastPeriod, slowPeriod).isGoldenCross <==>
              (|prices| >= MaxInt(fastPeriod, slowPeriod) + 1 &&
               EmaValue(prices, fastPeriod, |prices| - 2) < EmaValue(prices, slowPeriod, |prices| - 2) &&
               EmaValue(prices, fastPeriod, |prices| - 1) > EmaValue(prices, slowPeriod, |prices| - 1))
    ensures DetectEmaCross(prices, fastPeriod, slowPeriod).isDeathCross <==>
              (|prices| >= MaxInt(fastPeriod, slowPeriod) + 1 &&
               EmaValue(prices, fastPeriod, |prices| - 2) > EmaValue(prices, slowPeriod, |prices| - 2) &&
               EmaValue(prices, fastPeriod, |prices| - 1) < EmaValue(prices, slowPeriod, |prices| - 1))
  {
    var n := |prices|;
    var fast, slow := Ema(prices, fastPeriod), Ema(prices, slowPeriod);
    if n >= MaxInt(fastPeriod, slowPeriod) + 1 {
      assert fast[n - 1] == Some(EmaValue(prices, fastPeriod, n - 1));
      assert fast[n - 2] == Some(EmaValue(prices, fastPeriod, n - 2));
      assert slow[n - 1] == Some(EmaValue(prices, slowPeriod, n - 1));
      assert slow[n - 2] == Some(EmaValue(prices, slowPeriod, n - 2));
    } else if n >= 2 {
      assert fast[n - 2].None? || slow[n - 2].None?;
    }
  }
}
