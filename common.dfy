/**
 * Shared vocabulary of the trading core: optional values, outcomes that
 * stand for a thrown exception, candles, trade actions, the strategy result
 * record, and the small numeric helpers (sums, minima, maxima, clamping,
 * number parsing) that the indicators and strategies are built from.
 *
 * Decimal arithmetic of the source is modelled by `real`: there is no
 * rounding and no overflow in the model.
 */
module Common {

  /** A nullable value (`decimal?` in the source). */
  datatype Option<T> = None | Some(value: T)

  /** The outcome of an operation that may throw: `Failure` carries the exception text. */
  datatype Result<T> = Success(value: T) | Failure(error: string)

  /** The message of the `InvalidOperationException` that `Last()` and `Min()` throw on an empty sequence. */
  const NoElements := "Sequence contains no elements"

  /** The message of the `InvalidOperationException` that `First(predicate)` throws when nothing matches. */
  const NoMatchingElement := "Sequence contains no matching element"

  /** The message of the `OverflowException` of a decimal-to-int cast out of range. */
  const CastOverflow := "Value was either too large or too small for an Int32."

  /** The message of the `DivideByZeroException` of a decimal division by zero. */
  const DivideByZero := "Attempted to divide by zero."

  /** The message of the `ArgumentOutOfRangeException` of a list index outside the list. */
  const IndexOutOfRange := "Index was out of range. Must be non-negative and less than the size of the collection."

  /** The message of the `IndexOutOfRangeException` of an array index outside the array. */
  const ArrayIndexOutOfRange := "Index was outside the bounds of the array."

  /** The message of the `OverflowException` of an array created with a negative size. */
  const ArithmeticOverflow := "Arithmetic operation resulted in an overflow."

  /** One OHLCV bar; `openTime` is a timestamp in milliseconds. */
  datatype Candle = Candle(openTime: int, open: real, high: real, low: real, close: real, volume: real)

  /** `TradeAction.None`, `Buy`, `Sell` of the strategy interface. */
  datatype TradeAction = NoTrade | Buy | Sell

  /**
   * The record a strategy fills: action, target and stop prices, a
   * description, the optional amount (used by DCA), and the indicator values
   * exposed to the chart. The `Price` and `Time` that a few strategies also
   * fill in are not carried.
   */
  datatype StrategyResult = StrategyResult(
    action: TradeAction,
    targetPrice: real,
    stopPrice: real,
    description: string,
    amount: real,
    indicators: map<string, real>)

  /** `new StrategyResult()`: no action, zero prices, empty description. */
  function DefaultResult(): (r: StrategyResult)
    ensures r.action == NoTrade && r.targetPrice == 0.0 && r.stopPrice == 0.0
    ensures r.description == "" && r.indicators == map[]
  {
    StrategyResult(NoTrade, 0.0, 0.0, "", 0.0, map[])
  }

  /** A result that carries only an action and a description. */
  function Describe(action: TradeAction, description: string): (r: StrategyResult)
    ensures r.action == action && r.description == description
    ensures r.targetPrice == 0.0 && r.stopPrice == 0.0 && r.indicators == map[]
  {
    StrategyResult(action, 0.0, 0.0, description, 0.0, map[])
  }

  /** A result with an action, target and stop price and a description. */
  function Signal(action: TradeAction, target: real, stop: real, description: string): (r: StrategyResult)
    ensures r.action == action && r.targetPrice == target && r.stopPrice == stop
    ensures r.description == description && r.indicators == map[]
  {
    StrategyResult(action, target, stop, description, 0.0, map[])
  }

  function Closes(candles: seq<Candle>): (r: seq<real>)
    ensures |r| == |candles|
    ensures forall i :: 0 <= i < |candles| ==> r[i] == candles[i].close
  {
    seq(|candles|, i requires 0 <= i < |candles| => candles[i].close)
  }

  function Volumes(candles: seq<Candle>): (r: seq<real>)
    ensures |r| == |candles|
    ensures forall i :: 0 <= i < |candles| ==> r[i] == candles[i].volume
  {
    seq(|candles|, i requires 0 <= i < |candles| => candles[i].volume)
  }

  function Highs(candles: seq<Candle>): (r: seq<real>)
    ensures |r| == |candles|
    ensures forall i :: 0 <= i < |candles| ==> r[i] == candles[i].high
  {
    seq(|candles|, i requires 0 <= i < |candles| => candles[i].high)
  }

  function Lows(candles: seq<Candle>): (r: seq<real>)
    ensures |r| == |candles|
    ensures forall i :: 0 <= i < |candles| ==> r[i] == candles[i].low
  {
    seq(|candles|, i requires 0 <= i < |candles| => candles[i].low)
  }

  /** `list.LastOrDefault()` on a list of nullable values: null for an empty list. */
  function LastOrNull(s: seq<Option<real>>): (r: Option<real>)
    ensures |s| == 0 ==> r == None
    ensures |s| > 0 ==> r == s[|s| - 1]
  {
    if |s| == 0 then None else s[|s| - 1]
  }

  /** LINQ `TakeLast(count)`: the last `count` elements, all of them when there are fewer, none for `count <= 0`. */
  function TakeLast<T>(s: seq<T>, count: int): (r: seq<T>)
    ensures count <= 0 ==> r == []
    ensures 0 <= count <= |s| ==> r == s[|s| - count..]
    ensures count > |s| ==> r == s
  {
    if count <= 0 then [] else if count >= |s| then s else s[|s| - count..]
  }

  /** Every defined entry lies within `[lo, hi]`. */
  predicate DefinedWithin(s: seq<Option<real>>, lo: real, hi: real)
  {
    forall i :: 0 <= i < |s| && s[i].Some? ==> lo <= s[i].value <= hi
  }

  /** The entry `back` places before the last one, or null when there is none. */
  function FromEnd(s: seq<Option<real>>, back: nat): (r: Option<real>)
    ensures back < |s| ==> r == s[|s| - 1 - back]
    ensures back >= |s| ==> r == None
  {
    if back < |s| then s[|s| - 1 - back] else None
  }

  function Abs(x: real): (r: real)
    ensures r >= 0.0 && (r == x || r == -x)
  {
    if x < 0.0 then -x else x
  }

  function Max2(a: real, b: real): (r: real)
    ensures r >= a && r >= b && (r == a || r == b)
  {
    if a >= b then a else b
  }

  function Min2(a: real, b: real): (r: real)
    ensures r <= a && r <= b && (r == a || r == b)
  {
    if a <= b then a else b
  }

  /*
   * Integer twins of `Max2`, `Min2` and `Clamp`: periods, counts and indices
   * are `int` in the source and `real` does not convert back to `int`
   * without a floor, so both kinds are kept.
   */
  function MaxInt(a: int, b: int): (r: int)
    ensures r >= a && r >= b && (r == a || r == b)
  {
    if a >= b then a else b
  }

  function MinInt(a: int, b: int): (r: int)
    ensures r <= a && r <= b && (r == a || r == b)
  {
    if a <= b then a else b
  }

  /** `Math.Clamp(x, lo, hi)` on decimals. */
  function Clamp(x: real, lo: real, hi: real): (r: real)
    requires lo <= hi
    ensures lo <= r <= hi
    ensures lo <= x <= hi ==> r == x
    ensures x < lo ==> r == lo
    ensures x > hi ==> r == hi
  {
    if x < lo then lo else if x > hi then hi else x
  }

  /** `Math.Clamp(x, lo, hi)` on integers. */
  function ClampInt(x: int, lo: int, hi: int): (r: int)
    requires lo <= hi
    ensures lo <= r <= hi
    ensures lo <= x <= hi ==> r == x
    ensures x < lo ==> r == lo
    ensures x > hi ==> r == hi
  {
    if x < lo then lo else if x > hi then hi else x
  }

  /** A cast `(int)x` of a decimal: truncation toward zero. */
  function Truncate(x: real): (r: int)
    ensures x >= 0.0 ==> r as real <= x < r as real + 1.0
    ensures x < 0.0 ==> r as real - 1.0 < x <= r as real
  {
    if x >= 0.0 then x.Floor else -((-x).Floor)
  }

  lemma MulNonNegative(a: real, b: real)
    requires a >= 0.0 && b >= 0.0
    ensures a * b >= 0.0
  {
  }

  /**
   * The product of two positive numbers, named: positive. Taking the square
   * of `a` as `ProductWitness(a, a)` keeps the solver from rewriting
   * `0 < a * a` into `a != 0` and then losing the link to the square.
   */
  lemma ProductWitness(a: real, b: real) returns (e: real)
    requires 0.0 < a && 0.0 < b
    ensures 0.0 < e && e == a * b
  {
    e := a * b;
  }

  /** Dividing by a non-zero number and multiplying back gives the number. */
  lemma DivTimes(x: real, y: real)
    requires y != 0.0
    ensures x / y * y == x
  {
    assert y * (x / y) == x;
  }

  lemma MulAdd(c: real, a: real, b: real)
    ensures c * (a + b) == c * a + c * b
  {
  }

  /** Comparing a quotient with a bound is comparing the dividend with the bound times the divisor. */
  lemma DivCompare(a: real, d: real, t: real)
    requires d > 0.0
    ensures a / d <= t <==> a <= t * d
    ensures a / d < t <==> a < t * d
  {
    var q := a / d;
    assert q * d == a;
    if q <= t {
      assert q * d <= t * d;
    } else {
      assert q * d > t * d;
    }
    if q < t {
      assert q * d < t * d;
    } else {
      assert q * d >= t * d;
    }
  }

  /** Multiplying by a positive factor keeps the order. */
  lemma MulMonotone(a: real, b: real, c: real)
    requires c > 0.0
    ensures a <= b ==> a * c <= b * c
    ensures a < b ==> a * c < b * c
  {
    if a <= b {
      MulNonNegative(b - a, c);
    }
    if a < b {
      assert (b - a) * c > 0.0;
    }
  }

  /** A quotient `x = d / step` that lies in `[k, k + 1)` puts `d` between `k` and `k + 1` steps. */
  lemma StepBracket(x: real, step: real, d: real, k: int)
    requires step > 0.0 && x * step == d && k as real <= x < k as real + 1.0
    ensures k as real * step <= d
    ensures d < (k as real + 1.0) * step
  {
    var hi := k as real + 1.0;
    MulMonotone(k as real, x, step);
    MulMonotone(x, hi, step);
    assert x < hi;
    assert x * step < hi * step;
    assert d < hi * step;
  }

  /** `Math.Round` to a whole number on a decimal: to the nearest, ties to the even neighbour. */
  function RoundHalfEven(y: real): (n: int)
    ensures y - 0.5 <= n as real <= y + 0.5
    ensures y - y.Floor as real == 0.5 ==> n % 2 == 0
    ensures y == y.Floor as real ==> n == y.Floor
  {
    var f := y.Floor;
    var frac := y - f as real;
    if frac < 0.5 then f else if frac > 0.5 then f + 1 else if f % 2 == 0 then f else f + 1
  }

  /** `Math.Round(x, 2)`: the nearest cent, ties to the even cent. */
  function Round2(x: real): (r: real)
    ensures x - 0.005 <= r <= x + 0.005
  {
    RoundHalfEven(x * 100.0) as real / 100.0
  }

  /** A value already in whole cents rounds to itself; so rounding twice is rounding once. */
  lemma Round2Idempotent(x: real)
    ensures Round2(Round2(x)) == Round2(x)
  {
    var n := RoundHalfEven(x * 100.0);
    assert Round2(x) * 100.0 == n as real;
    assert (n as real).Floor == n;
  }

  /** Sum of a sequence, from the front. */
  function Sum(s: seq<real>): real
  {
    if |s| == 0 then 0.0 else s[0] + Sum(s[1..])
  }

  lemma {:induction false} SumAppend(a: seq<real>, b: seq<real>)
    ensures Sum(a + b) == Sum(a) + Sum(b)
    decreases |a|
  {
    if |a| == 0 {
      assert a + b == b;
    } else {
      assert (a + b)[1..] == a[1..] + b;
      SumAppend(a[1..], b);
    }
  }

  lemma SumSnoc(s: seq<real>, x: real)
    ensures Sum(s + [x]) == Sum(s) + x
  {
    SumAppend(s, [x]);
    assert Sum([x]) == x + Sum([x][1..]);
  }

  /** Every element within `[lo, hi]` bounds the sum by `|s| * lo` and `|s| * hi`. */
  lemma {:induction false} SumBounds(s: seq<real>, lo: real, hi: real)
    requires forall i :: 0 <= i < |s| ==> lo <= s[i] <= hi
    ensures |s| as real * lo <= Sum(s) <= |s| as real * hi
    decreases |s|
  {
    if |s| > 0 {
      assert forall i :: 0 <= i < |s[1..]| ==> s[1..][i] == s[i + 1];
      SumBounds(s[1..], lo, hi);
      var n := |s[1..]| as real;
      assert |s| as real * lo == lo + n * lo;
      assert |s| as real * hi == hi + n * hi;
    }
  }

  lemma SumNonNegative(s: seq<real>)
    requires forall i :: 0 <= i < |s| ==> s[i] >= 0.0
    ensures Sum(s) >= 0.0
  {
    var hi := if |s| == 0 then 0.0 else MaxOf(s);
    forall i | 0 <= i < |s| ensures 0.0 <= s[i] <= hi {
      MaxOfIsUpper(s, i);
    }
    SumBounds(s, 0.0, hi);
  }

  /** The mean of a non-empty sequence (LINQ `Average`, which throws on an empty list). */
  function Mean(s: seq<real>): real
    requires |s| > 0
  {
    Sum(s) / |s| as real
  }

  lemma MeanBounds(s: seq<real>, lo: real, hi: real)
    requires |s| > 0
    requires forall i :: 0 <= i < |s| ==> lo <= s[i] <= hi
    ensures lo <= Mean(s) <= hi
  {
    SumBounds(s, lo, hi);
    var n := |s| as real;
    assert n * lo <= Sum(s) <= n * hi;
    assert Sum(s) / n >= lo by { assert Sum(s) >= lo * n; }
    assert Sum(s) / n <= hi by { assert Sum(s) <= hi * n; }
  }

  /** LINQ `Max` of a non-empty sequence. */
  function MaxOf(s: seq<real>): real
    requires |s| > 0
  {
    if |s| == 1 then s[0] else Max2(s[0], MaxOf(s[1..]))
  }

  /** LINQ `Min` of a non-empty sequence. */
  function MinOf(s: seq<real>): real
    requires |s| > 0
  {
    if |s| == 1 then s[0] else Min2(s[0], MinOf(s[1..]))
  }

  lemma {:induction false} MaxOfIsUpper(s: seq<real>, i: int)
    requires 0 <= i < |s|
    ensures s[i] <= MaxOf(s)
    decreases |s|
  {
    if |s| > 1 && i > 0 {
      assert s[1..][i - 1] == s[i];
      MaxOfIsUpper(s[1..], i - 1);
    }
  }

  lemma {:induction false} MinOfIsLower(s: seq<real>, i: int)
    requires 0 <= i < |s|
    ensures MinOf(s) <= s[i]
    decreases |s|
  {
    if |s| > 1 && i > 0 {
      assert s[1..][i - 1] == s[i];
      MinOfIsLower(s[1..], i - 1);
    }
  }

  lemma {:induction false} MaxOfIsElement(s: seq<real>)
    requires |s| > 0
    ensures exists i :: 0 <= i < |s| && s[i] == MaxOf(s)
    decreases |s|
  {
    if |s| > 1 {
      MaxOfIsElement(s[1..]);
      var j :| 0 <= j < |s[1..]| && s[1..][j] == MaxOf(s[1..]);
      assert s[j + 1] == s[1..][j];
      if MaxOf(s) != s[0] {
        assert s[j + 1] == MaxOf(s);
      }
    } else {
      assert s[0] == MaxOf(s);
    }
  }

  lemma {:induction false} MinOfIsElement(s: seq<real>)
    requires |s| > 0
    ensures exists i :: 0 <= i < |s| && s[i] == MinOf(s)
    decreases |s|
  {
    if |s| > 1 {
      MinOfIsElement(s[1..]);
      var j :| 0 <= j < |s[1..]| && s[1..][j] == MinOf(s[1..]);
      assert s[j + 1] == s[1..][j];
      if MinOf(s) != s[0] {
        assert s[j + 1] == MinOf(s);
      }
    } else {
      assert s[0] == MinOf(s);
    }
  }

  /** The minimum is the greatest lower bound: any common lower bound is below it. */
  lemma {:induction false} MinOfGreatest(s: seq<real>, lo: real)
    requires |s| > 0
    requires forall i :: 0 <= i < |s| ==> lo <= s[i]
    ensures lo <= MinOf(s)
  {
    MinOfIsElement(s);
  }

  lemma {:induction false} MaxOfLeast(s: seq<real>, hi: real)
    requires |s| > 0
    requires forall i :: 0 <= i < |s| ==> s[i] <= hi
    ensures MaxOf(s) <= hi
  {
    MaxOfIsElement(s);
  }

  /** The non-null values of a sequence of nullable values, in order. */
  function Somes(s: seq<Option<real>>): (r: seq<real>)
    ensures |r| <= |s|
  {
    if |s| == 0 then []
    else Somes(s[..|s| - 1]) + (if s[|s| - 1].Some? then [s[|s| - 1].value] else [])
  }

  lemma {:induction false} SomesAllPresent(s: seq<Option<real>>)
    requires forall i :: 0 <= i < |s| ==> s[i].Some?
    ensures |Somes(s)| == |s|
    ensures forall i :: 0 <= i < |s| ==> Somes(s)[i] == s[i].value
    decreases |s|
  {
    if |s| > 0 {
      SomesAllPresent(s[..|s| - 1]);
    }
  }

  /** Every value kept by `Somes` is a value of an entry of the input. */
  lemma {:induction false} SomesFrom(s: seq<Option<real>>, k: int)
    requires 0 <= k < |Somes(s)|
    ensures exists i :: 0 <= i < |s| && s[i] == Some(Somes(s)[k])
    decreases |s|
  {
    var front := s[..|s| - 1];
    if k < |Somes(front)| {
      SomesFrom(front, k);
      var i :| 0 <= i < |front| && front[i] == Some(Somes(front)[k]);
      assert s[i] == front[i];
    } else {
      assert s[|s| - 1] == Some(Somes(s)[k]);
    }
  }

  /** The number of non-null entries among the first `i`, which is where entry `i` lands in `Somes`. */
  lemma {:induction false} SomesIndex(s: seq<Option<real>>, i: int)
    requires 0 <= i < |s| && s[i].Some?
    ensures |Somes(s[..i])| < |Somes(s)|
    ensures Somes(s)[|Somes(s[..i])|] == s[i].value
    decreases |s|
  {
    if i == |s| - 1 {
      assert s[..|s| - 1] == s[..i];
    } else {
      var front := s[..|s| - 1];
      assert front[..i] == s[..i];
      assert front[i] == s[i];
      SomesIndex(front, i);
    }
  }

  lemma {:induction false} SomesSnoc(s: seq<Option<real>>, x: Option<real>)
    ensures Somes(s + [x]) == Somes(s) + (if x.Some? then [x.value] else [])
  {
    assert (s + [x])[..|s + [x]| - 1] == s;
  }

  // ---- Number parsing (`int.TryParse` / `decimal.TryParse`, default styles, invariant culture) ----

  predicate IsDigit(c: char)
  {
    '0' <= c <= '9'
  }

  function DigitValue(c: char): nat
    requires IsDigit(c)
  {
    (c as int) - ('0' as int)
  }

  function DigitChar(d: nat): (c: char)
    requires d < 10
    ensures IsDigit(c) && DigitValue(c) == d
  {
    (('0' as int) + d) as char
  }

  predicate AllDigits(s: string)
  {
    forall i :: 0 <= i < |s| ==> IsDigit(s[i])
  }

  /** The value of a string of decimal digits, most significant first. */
  function DigitsValue(s: string): nat
    requires AllDigits(s)
  {
    if |s| == 0 then 0 else DigitsValue(s[..|s| - 1]) * 10 + DigitValue(s[|s| - 1])
  }

  /** The decimal digits of a natural number, most significant first, without leading zeros. */
  function NatToString(n: nat): (s: string)
    ensures |s| > 0 && AllDigits(s)
  {
    if n < 10 then [DigitChar(n)] else NatToString(n / 10) + [DigitChar(n % 10)]
  }

  /** `n.ToString()` on an integer. */
  function IntToString(n: int): (s: string)
    ensures |s| > 0
  {
    if n < 0 then "-" + NatToString(-n) else NatToString(n)
  }

  /** Timestamps are whole minutes; a `DateTime.Date` is the minute a day starts at. */
  const MinutesPerDay: int := 1440

  const Int32Min: int := -2147483648
  const Int32Max: int := 2147483647

  /** A value that a C# `int` can hold. */
  predicate InInt32(n: int)
  {
    Int32Min <= n <= Int32Max
  }

  /** Unchecked C# `int` arithmetic: the result reduced into the 32-bit range. */
  function Wrap32(n: int): (r: int)
    ensures InInt32(r)
    ensures InInt32(n) ==> r == n
    ensures (r - n) % 0x1_0000_0000 == 0
  {
    (n - Int32Min) % 0x1_0000_0000 + Int32Min
  }

  /**
   * The white space the number parser skips around a number: the space and
   * the control characters from tab to carriage return. This is the parser's
   * own set, narrower than `char.IsWhiteSpace`.
   */
  predicate IsNumberWhite(c: char)
  {
    c == ' ' || '\t' <= c <= '\r'
  }

  predicate AllNumberWhite(s: string)
  {
    forall i :: 0 <= i < |s| ==> IsNumberWhite(s[i])
  }

  predicate IsSign(c: char)
  {
    c == '-' || c == '+'
  }

  /** The index of the first character at or after `i` that is not number white space. */
  function SkipWhite(s: string, i: nat): (j: nat)
    requires i <= |s|
    ensures i <= j <= |s|
    ensures forall k :: i <= k < j ==> IsNumberWhite(s[k])
    ensures j < |s| ==> !IsNumberWhite(s[j])
    decreases |s| - i
  {
    if i < |s| && IsNumberWhite(s[i]) then SkipWhite(s, i + 1) else i
  }

  /** The index of the first character at or after `i` that is not a digit. */
  function DigitsEnd(s: string, i: nat): (j: nat)
    requires i <= |s|
    ensures i <= j <= |s|
    ensures forall k :: i <= k < j ==> IsDigit(s[k])
    ensures j < |s| ==> !IsDigit(s[j])
    decreases |s| - i
  {
    if i < |s| && IsDigit(s[i]) then DigitsEnd(s, i + 1) else i
  }

  /** Nothing but NUL characters from `i` on: the parser accepts those at the very end. */
  predicate NulsFrom(s: string, i: nat)
    requires i <= |s|
  {
    forall k :: i <= k < |s| ==> s[k] == '\0'
  }

  /**
   * `int.TryParse` with the default `NumberStyles.Integer`: white space, an
   * optional sign, one or more digits, white space, and trailing NULs; the
   * value must fit in 32 bits.
   */
  function ParseInt(s: string): (r: Option<int>)
    ensures r.Some? ==> InInt32(r.value)
    ensures r.Some? ==> exists k :: 0 <= k < |s| && IsDigit(s[k])
    ensures AllDigits(s) && |s| > 0 && r.Some? ==> r.value == DigitsValue(s)
  {
    var i := SkipWhite(s, 0);
    var start := if i < |s| && IsSign(s[i]) then i + 1 else i;
    var end := DigitsEnd(s, start);
    if end == start || !NulsFrom(s, SkipWhite(s, end)) then None
    else
      var m := DigitsValue(s[start..end]) as int;
      var v := if i < |s| && s[i] == '-' then -m else m;
      if InInt32(v) then
        assert IsDigit(s[start]);
        assert AllDigits(s) && |s| > 0 ==> start == 0 && end == |s| && s[start..end] == s by {
          if AllDigits(s) && |s| > 0 {
            assert IsDigit(s[0]);
          }
        }
        Some(v)
      else None
  }

  lemma {:induction false} NatToStringValue(n: nat)
    ensures DigitsValue(NatToString(n)) == n
  {
    if n >= 10 {
      var s := NatToString(n);
      assert s[..|s| - 1] == NatToString(n / 10);
      NatToStringValue(n / 10);
    }
  }

  /** Over a stretch of white space that ends the string or is followed by something else, skipping stops right after it. */
  lemma {:induction false} SkipWhiteOver(s: string, i: nat, j: nat)
    requires i <= j <= |s|
    requires forall k :: i <= k < j ==> IsNumberWhite(s[k])
    requires j < |s| ==> !IsNumberWhite(s[j])
    ensures SkipWhite(s, i) == j
    decreases j - i
  {
    if i < j {
      SkipWhiteOver(s, i + 1, j);
    }
  }

  /** Over a stretch of digits followed by the end or by something else, the digits end right after it. */
  lemma {:induction false} DigitsEndOver(s: string, i: nat, j: nat)
    requires i <= j <= |s|
    requires forall k :: i <= k < j ==> IsDigit(s[k])
    requires j < |s| ==> !IsDigit(s[j])
    ensures DigitsEnd(s, i) == j
    decreases j - i
  {
    if i < j {
      DigitsEndOver(s, i + 1, j);
    }
  }

  /** The text of an integer, `-` and the digits of its magnitude. */
  lemma {:induction false} IntToStringShape(n: int)
    ensures n < 0 ==> IntToString(n) == "-" + NatToString(-n)
    ensures n >= 0 ==> IntToString(n) == NatToString(n)
    ensures IsDigit(IntToString(n)[0]) || IntToString(n)[0] == '-'
  {
    if n < 0 {
      assert IntToString(n)[0] == '-';
    } else {
      assert IsDigit(NatToString(n)[0]);
    }
  }

  /** The text of an integer is its sign followed by the digits of its magnitude. */
  lemma {:induction false} IntToStringParts(n: int, front: string, back: string)
    ensures front + IntToString(n) + back ==
      front + (if n < 0 then "-" else "") + NatToString(if n < 0 then -n else n) + back
  {
    IntToStringShape(n);
  }

  /** What `ParseInt` makes of a text once its white space, sign and digits are located. */
  lemma {:induction false} ParseIntAt(s: string, i: nat, start: nat, end: nat, negative: bool, digits: string)
    requires i <= |s| && SkipWhite(s, 0) == i
    requires start == if i < |s| && IsSign(s[i]) then i + 1 else i
    requires negative <==> start > i && s[i] == '-'
    requires start < end <= |s| && DigitsEnd(s, start) == end
    requires SkipWhite(s, end) == |s|
    requires s[start..end] == digits
    ensures AllDigits(digits)
    ensures ParseInt(s) ==
      var m := DigitsValue(digits) as int;
      var v := if negative then -m else m;
      if InInt32(v) then Some(v) else None
  {
  }

  /** White space in front of something else is skipped up to that thing. */
  lemma {:induction false} SkipWhiteFront(front: string, rest: string)
    requires AllNumberWhite(front)
    requires |rest| > 0 && !IsNumberWhite(rest[0])
    ensures SkipWhite(front + rest, 0) == |front|
  {
    var s := front + rest;
    forall k | 0 <= k < |front|
      ensures IsNumberWhite(s[k])
    {
      assert s[k] == front[k];
    }
    assert s[|front|] == rest[0];
    SkipWhiteOver(s, 0, |front|);
  }

  /** Digits followed by the end or by a non-digit end right after them. */
  lemma {:induction false} DigitsEndMid(pre: string, digits: string, back: string)
    requires AllDigits(digits)
    requires |back| > 0 ==> !IsDigit(back[0])
    ensures DigitsEnd(pre + digits + back, |pre|) == |pre| + |digits|
  {
    var s := pre + digits + back;
    forall k | |pre| <= k < |pre| + |digits|
      ensures IsDigit(s[k])
    {
      assert s[k] == digits[k - |pre|];
    }
    assert |back| > 0 ==> s[|pre| + |digits|] == back[0];
    DigitsEndOver(s, |pre|, |pre| + |digits|);
  }

  /** Trailing white space is skipped to the end. */
  lemma {:induction false} SkipWhiteBack(pre: string, back: string)
    requires AllNumberWhite(back)
    ensures SkipWhite(pre + back, |pre|) == |pre + back|
  {
    var s := pre + back;
    forall k | |pre| <= k < |s|
      ensures IsNumberWhite(s[k])
    {
      assert s[k] == back[k - |pre|];
    }
    SkipWhiteOver(s, |pre|, |s|);
  }

  /** Where white space, an optional minus and digits put the sign and the digits. */
  lemma {:induction false} SignedFront(front: string, sign: string, digits: string, back: string)
    requires AllNumberWhite(front)
    requires sign == "" || sign == "-"
    requires AllDigits(digits) && |digits| > 0
    ensures var s := front + sign + digits + back;
      SkipWhite(s, 0) == |front| && |front| < |s| &&
      (IsSign(s[|front|]) <==> sign == "-") && (sign == "-" ==> s[|front|] == '-') &&
      s[|front| + |sign|..|front| + |sign| + |digits|] == digits
  {
    var s := front + sign + digits + back;
    var rest := sign + digits + back;
    assert s == front + rest;
    assert rest[0] == if sign == "-" then '-' else digits[0];
    SkipWhiteFront(front, rest);
    assert s[|front|] == rest[0];
    assert s[|front| + |sign|..|front| + |sign| + |digits|] == digits;
  }

  /**
   * White space, an optional minus, digits and white space parse as the
   * signed value of the digits when it fits in 32 bits: the leading and
   * trailing white space that `NumberStyles.Integer` allows is skipped.
   */
  lemma {:induction false} ParseIntParts(front: string, sign: string, digits: string, back: string)
    requires AllNumberWhite(front) && AllNumberWhite(back)
    requires sign == "" || sign == "-"
    requires AllDigits(digits) && |digits| > 0
    ensures ParseInt(front + sign + digits + back) ==
      var m := DigitsValue(digits) as int;
      var v := if sign == "-" then -m else m;
      if InInt32(v) then Some(v) else None
  {
    var s := front + sign + digits + back;
    SignedFront(front, sign, digits, back);
    var i := |front|;
    var start := i + |sign|;
    var end := start + |digits|;
    DigitsEndMid(front + sign, digits, back);
    SkipWhiteBack(front + sign + digits, back);
    ParseIntAt(s, i, start, end, sign == "-", digits);
  }

  /**
   * An integer written out and padded with white space on either side parses
   * back as the same integer.
   */
  lemma {:induction false} ParseIntPadded(n: int, front: string, back: string)
    requires InInt32(n)
    requires AllNumberWhite(front) && AllNumberWhite(back)
    ensures ParseInt(front + IntToString(n) + back) == Some(n)
  {
    var digits := NatToString(if n < 0 then -n else n);
    var sign := if n < 0 then "-" else "";
    IntToStringParts(n, front, back);
    ParseIntParts(front, sign, digits, back);
    NatToStringValue(if n < 0 then -n else n);
  }

  /** Formatting an integer and parsing it back gives the same integer. */
  lemma ParseIntRoundTrip(n: int)
    requires InInt32(n)
    ensures ParseInt(IntToString(n)) == Some(n)
  {
    ParseIntPadded(n, "", "");
    assert "" + IntToString(n) + "" == IntToString(n);
  }

  /**
   * The end of the number part of `NumberStyles.Number` from `i`: digits, at
   * most one decimal point anywhere, and group separators after a digit and
   * before the point. `digits` and `point` say whether a digit and the point
   * have been seen.
   */
  function NumberEnd(s: string, i: nat, digits: bool, point: bool): (j: nat)
    requires i <= |s|
    ensures i <= j <= |s|
    decreases |s| - i
  {
    if i == |s| then i
    else if IsDigit(s[i]) then NumberEnd(s, i + 1, true, point)
    else if s[i] == '.' && !point then NumberEnd(s, i + 1, digits, true)
    else if s[i] == ',' && digits && !point then NumberEnd(s, i + 1, digits, point)
    else i
  }

  /**
   * After the number part: white space, and one sign when none came before
   * the number. The end of that stretch and the sign it held, if any.
   */
  function TrailEnd(s: string, i: nat, signed: bool): (r: (nat, Option<char>))
    requires i <= |s|
    ensures i <= r.0 <= |s|
    ensures r.1.Some? ==> !signed && IsSign(r.1.value)
    decreases |s| - i
  {
    if i < |s| && IsNumberWhite(s[i]) then TrailEnd(s, i + 1, signed)
    else if i < |s| && IsSign(s[i]) && !signed then (TrailEnd(s, i + 1, true).0, Some(s[i]))
    else (i, None)
  }

  /** The digits of a string in order, everything else left out. */
  function DigitsOf(s: string): (d: string)
    ensures AllDigits(d) && |d| <= |s|
  {
    if |s| == 0 then []
    else DigitsOf(s[..|s| - 1]) + (if IsDigit(s[|s| - 1]) then [s[|s| - 1]] else [])
  }

  /** Where the first decimal point is, if there is one. */
  function PointIndex(s: string): (r: Option<nat>)
    ensures r.Some? ==> r.value < |s| && s[r.value] == '.' && forall k :: 0 <= k < r.value ==> s[k] != '.'
    ensures r.None? ==> forall k :: 0 <= k < |s| ==> s[k] != '.'
  {
    if |s| == 0 then None
    else if s[0] == '.' then Some(0)
    else
      var r := PointIndex(s[1..]);
      if r.None? then None else Some(r.value + 1)
  }

  function Pow10(k: nat): (r: real)
    ensures r >= 1.0
  {
    if k == 0 then 1.0 else 10.0 * Pow10(k - 1)
  }

  /** The value of a number part: the digits before the point plus those after it scaled down. */
  function BodyValue(body: string): real
  {
    var p := PointIndex(body);
    if p.None? then DigitsValue(DigitsOf(body)) as real
    else
      var whole := DigitsOf(body[..p.value]);
      var frac := DigitsOf(body[p.value + 1..]);
      DigitsValue(whole) as real + DigitsValue(frac) as real / Pow10(|frac|)
  }

  /**
   * `decimal.TryParse` with the default `NumberStyles.Number`: white space,
   * an optional sign, a number part with at least one digit, then white space
   * holding at most one sign (only when none came first), and trailing NULs.
   */
  function ParseDecimal(s: string): (r: Option<real>)
    ensures r.Some? ==> exists k :: 0 <= k < |s| && IsDigit(s[k])
  {
    var i := SkipWhite(s, 0);
    var lead := i < |s| && IsSign(s[i]);
    var start := if lead then i + 1 else i;
    var end := NumberEnd(s, start, false, false);
    var body := s[start..end];
    if |DigitsOf(body)| == 0 then None
    else
      var trail := TrailEnd(s, end, lead);
      if !NulsFrom(s, trail.0) then None
      else
        var negative := (lead && s[i] == '-') || trail.1 == Some('-');
        var v := BodyValue(body);
        DigitsOfHasDigit(body);
        var k :| 0 <= k < |body| && IsDigit(body[k]);
        assert s[start + k] == body[k];
        Some(if negative then -v else v)
  }

  lemma {:induction false} DigitsOfHasDigit(s: string)
    ensures |DigitsOf(s)| > 0 ==> exists k :: 0 <= k < |s| && IsDigit(s[k])
  {
    if |s| > 0 && |DigitsOf(s)| > 0 {
      if !IsDigit(s[|s| - 1]) {
        DigitsOfHasDigit(s[..|s| - 1]);
        var k :| 0 <= k < |s| - 1 && IsDigit(s[..|s| - 1][k]);
        assert IsDigit(s[k]);
      }
    }
  }

  lemma {:induction false} DigitsOfAppend(a: string, b: string)
    ensures DigitsOf(a + b) == DigitsOf(a) + DigitsOf(b)
    decreases |b|
  {
    if |b| == 0 {
      assert a + b == a;
    } else {
      assert (a + b)[..|a + b| - 1] == a + b[..|b| - 1];
      DigitsOfAppend(a, b[..|b| - 1]);
    }
  }

  /** A string of digits is its own digits. */
  lemma {:induction false} DigitsOfDigits(s: string)
    requires AllDigits(s)
    ensures DigitsOf(s) == s
  {
    if |s| > 0 {
      DigitsOfDigits(s[..|s| - 1]);
    }
  }

  /** A stretch of digits carries the number part on, with a digit now seen. */
  lemma {:induction false} NumberEndDigits(s: string, i: nat, j: nat, digits: bool, point: bool)
    requires i <= j <= |s|
    requires forall k :: i <= k < j ==> IsDigit(s[k])
    ensures NumberEnd(s, i, digits, point) == NumberEnd(s, j, digits || i < j, point)
    decreases j - i
  {
    if i < j {
      NumberEndDigits(s, i + 1, j, true, point);
    }
  }

  /** Digits followed by the end or by something that is no digit, point or separator make the whole number part. */
  lemma {:induction false} NumberEndMid(pre: string, digits: string, back: string)
    requires AllDigits(digits) && |digits| > 0
    requires |back| > 0 ==> !IsDigit(back[0]) && back[0] != '.' && back[0] != ','
    ensures NumberEnd(pre + digits + back, |pre|, false, false) == |pre| + |digits|
  {
    var s := pre + digits + back;
    forall k | |pre| <= k < |pre| + |digits|
      ensures IsDigit(s[k])
    {
      assert s[k] == digits[k - |pre|];
    }
    assert |back| > 0 ==> s[|pre| + |digits|] == back[0];
    NumberEndDigits(s, |pre|, |pre| + |digits|, false, false);
  }

  /** Digits, a point and digits make one number part. */
  lemma {:induction false} NumberEndPoint(whole: string, frac: string)
    requires AllDigits(whole) && AllDigits(frac)
    ensures NumberEnd(whole + "." + frac, 0, false, false) == |whole| + 1 + |frac|
  {
    var s := whole + "." + frac;
    var p := |whole|;
    forall k | 0 <= k < p
      ensures IsDigit(s[k])
    {
      assert s[k] == whole[k];
    }
    forall k | p + 1 <= k < |s|
      ensures IsDigit(s[k])
    {
      assert s[k] == frac[k - p - 1];
    }
    assert s[p] == '.';
    NumberEndDigits(s, 0, p, false, false);
    NumberEndDigits(s, p + 1, |s|, p > 0, true);
  }

  /** Digits, a separator and digits make one number part. */
  lemma {:induction false} NumberEndGrouped(high: string, low: string)
    requires AllDigits(high) && AllDigits(low) && |high| > 0
    ensures NumberEnd(high + "," + low, 0, false, false) == |high| + 1 + |low|
  {
    var s := high + "," + low;
    var p := |high|;
    forall k | 0 <= k < p
      ensures IsDigit(s[k])
    {
      assert s[k] == high[k];
    }
    forall k | p + 1 <= k < |s|
      ensures IsDigit(s[k])
    {
      assert s[k] == low[k - p - 1];
    }
    assert s[p] == ',';
    NumberEndDigits(s, 0, p, false, false);
    NumberEndDigits(s, p + 1, |s|, true, false);
  }

  /** Trailing white space ends the trailing part at the end of the string, with no sign. */
  lemma {:induction false} TrailEndWhite(s: string, i: nat, signed: bool)
    requires i <= |s|
    requires forall k :: i <= k < |s| ==> IsNumberWhite(s[k])
    ensures TrailEnd(s, i, signed) == (|s|, None)
    decreases |s| - i
  {
    if i < |s| {
      TrailEndWhite(s, i + 1, signed);
    }
  }

  lemma {:induction false} TrailEndBack(pre: string, back: string, signed: bool)
    requires AllNumberWhite(back)
    ensures TrailEnd(pre + back, |pre|, signed) == (|pre + back|, None)
  {
    var s := pre + back;
    forall k | |pre| <= k < |s|
      ensures IsNumberWhite(s[k])
    {
      assert s[k] == back[k - |pre|];
    }
    TrailEndWhite(s, |pre|, signed);
  }

  /** The first point of a string is found where it is. */
  lemma {:induction false} PointIndexAt(s: string, p: nat)
    requires p < |s| && s[p] == '.'
    requires forall k :: 0 <= k < p ==> s[k] != '.'
    ensures PointIndex(s) == Some(p)
    decreases p
  {
    if p > 0 {
      PointIndexAt(s[1..], p - 1);
    }
  }

  lemma {:induction false} PointIndexNone(s: string)
    requires forall k :: 0 <= k < |s| ==> s[k] != '.'
    ensures PointIndex(s) == None
  {
    if |s| > 0 {
      PointIndexNone(s[1..]);
    }
  }

  lemma {:induction false} DigitsOfSingle(c: char)
    requires !IsDigit(c)
    ensures DigitsOf([c]) == []
  {
    assert [c][..0] == [];
  }

  /** A string of digits has no point, so its value is that of its digits. */
  lemma {:induction false} BodyValueDigits(d: string)
    requires AllDigits(d)
    ensures |DigitsOf(d)| == |d|
    ensures BodyValue(d) == DigitsValue(d) as real
  {
    DigitsOfDigits(d);
    PointIndexNone(d);
  }

  lemma {:induction false} BodyValuePoint(whole: string, frac: string)
    requires AllDigits(whole) && AllDigits(frac)
    ensures |DigitsOf(whole + "." + frac)| == |whole| + |frac|
    ensures BodyValue(whole + "." + frac) == DigitsValue(whole) as real + DigitsValue(frac) as real / Pow10(|frac|)
  {
    var s := whole + "." + frac;
    var p := |whole|;
    DigitsOfDigits(whole);
    DigitsOfDigits(frac);
    DigitsOfAppend(whole + ".", frac);
    DigitsOfAppend(whole, ".");
    DigitsOfSingle('.');
    assert DigitsOf(s) == whole + frac by {
      assert whole + [] == whole;
    }
    forall k | 0 <= k < p
      ensures s[k] != '.'
    {
      assert s[k] == whole[k];
    }
    PointIndexAt(s, p);
    assert s[..p] == whole;
    assert s[p + 1..] == frac;
  }

  lemma {:induction false} BodyValueGrouped(high: string, low: string)
    requires AllDigits(high) && AllDigits(low)
    ensures |DigitsOf(high + "," + low)| == |high| + |low|
    ensures BodyValue(high + "," + low) == DigitsValue(high + low) as real
  {
    var s := high + "," + low;
    var p := |high|;
    DigitsOfDigits(high);
    DigitsOfDigits(low);
    DigitsOfAppend(high + ",", low);
    DigitsOfAppend(high, ",");
    DigitsOfSingle(',');
    assert DigitsOf(s) == high + low by {
      assert high + [] == high;
    }
    forall k | 0 <= k < |s|
      ensures s[k] != '.'
    {
      if k < p {
        assert s[k] == high[k];
      } else if k > p {
        assert s[k] == low[k - p - 1];
      }
    }
    PointIndexNone(s);
  }

  /** What `ParseDecimal` makes of a text once its parts are located. */
  lemma {:induction false} ParseDecimalAt(s: string, i: nat, start: nat, end: nat, trail: (nat, Option<char>), negative: bool, body: string, value: real)
    requires i <= |s| && SkipWhite(s, 0) == i
    requires start == if i < |s| && IsSign(s[i]) then i + 1 else i
    requires NumberEnd(s, start, false, false) == end
    requires s[start..end] == body && |DigitsOf(body)| > 0
    requires TrailEnd(s, end, start > i) == trail && trail.0 == |s|
    requires negative <==> (start > i && s[i] == '-') || trail.1 == Some('-')
    requires BodyValue(body) == value
    ensures ParseDecimal(s) == Some(if negative then -value else value)
  {
  }

  /**
   * White space, an optional minus, digits and white space parse as the
   * signed value of the digits.
   */
  lemma {:induction false} ParseDecimalParts(front: string, sign: string, digits: string, back: string)
    requires AllNumberWhite(front) && AllNumberWhite(back)
    requires sign == "" || sign == "-"
    requires AllDigits(digits) && |digits| > 0
    ensures ParseDecimal(front + sign + digits + back) ==
      Some(if sign == "-" then -(DigitsValue(digits) as real) else DigitsValue(digits) as real)
  {
    var s := front + sign + digits + back;
    var i := |front|;
    var start := i + |sign|;
    var end := start + |digits|;
    assert SkipWhite(s, 0) == i && i < |s| && start == (if IsSign(s[i]) then i + 1 else i) &&
      (sign == "-" <==> start > i && s[i] == '-') && s[start..end] == digits by {
      SignedFront(front, sign, digits, back);
    }
    assert NumberEnd(s, start, false, false) == end by {
      NumberEndMid(front + sign, digits, back);
    }
    assert TrailEnd(s, end, start > i) == (|s|, None) by {
      TrailEndBack(front + sign + digits, back, sign == "-");
    }
    assert |DigitsOf(digits)| > 0 && BodyValue(digits) == DigitsValue(digits) as real by {
      BodyValueDigits(digits);
    }
    ParseDecimalAt(s, i, start, end, (|s|, None), sign == "-", digits, DigitsValue(digits) as real);
  }

  /**
   * An integer written out and padded with white space parses as the same
   * decimal.
   */
  lemma {:induction false} ParseDecimalPadded(n: int, front: string, back: string)
    requires AllNumberWhite(front) && AllNumberWhite(back)
    ensures ParseDecimal(front + IntToString(n) + back) == Some(n as real)
  {
    var digits := NatToString(if n < 0 then -n else n);
    var sign := if n < 0 then "-" else "";
    IntToStringParts(n, front, back);
    ParseDecimalParts(front, sign, digits, back);
    NatToStringValue(if n < 0 then -n else n);
  }

  /** An integer written out parses as the same decimal. */
  lemma ParseDecimalOfInt(n: int)
    ensures ParseDecimal(IntToString(n)) == Some(n as real)
  {
    ParseDecimalPadded(n, "", "");
    assert "" + IntToString(n) + "" == IntToString(n);
  }

  /** A text that is one number part from its first character to its last parses as that part's value. */
  lemma {:induction false} ParseDecimalWhole(s: string, value: real)
    requires |s| > 0 && !IsSign(s[0]) && !IsNumberWhite(s[0])
    requires NumberEnd(s, 0, false, false) == |s|
    requires |DigitsOf(s)| > 0 && BodyValue(s) == value
    ensures ParseDecimal(s) == Some(value)
  {
    assert SkipWhite(s, 0) == 0;
    assert s[0..|s|] == s;
    assert TrailEnd(s, |s|, false) == (|s|, None);
    ParseDecimalAt(s, 0, 0, |s|, (|s|, None), false, s, value);
  }

  /**
   * Digits, a point and digits, with a digit on at least one side, parse as
   * the whole part plus the fraction: "5." and ".5" are numbers.
   */
  lemma {:induction false} ParseDecimalPoint(whole: string, frac: string)
    requires AllDigits(whole) && AllDigits(frac) && |whole| + |frac| > 0
    ensures ParseDecimal(whole + "." + frac) == Some(DigitsValue(whole) as real + DigitsValue(frac) as real / Pow10(|frac|))
  {
    var s := whole + "." + frac;
    assert !IsSign(s[0]) && !IsNumberWhite(s[0]) by {
      if |whole| > 0 {
        assert s[0] == whole[0] && IsDigit(whole[0]);
      } else {
        assert s[0] == '.';
      }
    }
    NumberEndPoint(whole, frac);
    BodyValuePoint(whole, frac);
    ParseDecimalWhole(s, DigitsValue(whole) as real + DigitsValue(frac) as real / Pow10(|frac|));
  }

  /** A group separator after a digit is passed over: "1,000" is a thousand. */
  lemma {:induction false} ParseDecimalGrouped(high: string, low: string)
    requires AllDigits(high) && AllDigits(low) && |high| > 0
    ensures ParseDecimal(high + "," + low) == Some(DigitsValue(high + low) as real)
  {
    var s := high + "," + low;
    assert !IsSign(s[0]) && !IsNumberWhite(s[0]) by {
      assert s[0] == high[0] && IsDigit(high[0]);
    }
    NumberEndGrouped(high, low);
    BodyValueGrouped(high, low);
    ParseDecimalWhole(s, DigitsValue(high + low) as real);
  }

  /** A sign may follow the number instead of leading it: "5-" is minus five. */
  lemma {:induction false} ParseDecimalTrailingSign(digits: string, sign: char)
    requires AllDigits(digits) && |digits| > 0 && IsSign(sign)
    ensures ParseDecimal(digits + [sign]) == Some(if sign == '-' then -(DigitsValue(digits) as real) else DigitsValue(digits) as real)
  {
    var s := digits + [sign];
    var p := |digits|;
    assert s[0] == digits[0];
    SkipWhiteFront("", s);
    assert "" + s == s;
    NumberEndMid("", digits, [sign]);
    assert "" + digits + [sign] == s;
    assert s[0..p] == digits;
    assert s[p] == sign;
    TrailEndWhite(s, p + 1, true);
    assert TrailEnd(s, p, false) == (|s|, Some(sign));
    BodyValueDigits(digits);
    ParseDecimalAt(s, 0, 0, p, (|s|, Some(sign)), sign == '-', digits, DigitsValue(digits) as real);
  }
}
