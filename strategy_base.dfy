/**
 * What every strategy shares: the guards of `BaseStrategy` (an empty candle
 * list never reaches the strategy's own analysis, and an exception inside it
 * becomes a no-trade result or a zero score), the parameter map that
 * `SetParameters` replaces and `GetParameter` reads, the way the stand-alone
 * strategies read their settings with `int.TryParse`/`decimal.TryParse`
 * (a missing or unparsable value keeps the current setting) or with
 * `int.Parse`/`decimal.Parse` (an unparsable value throws), and the
 * crossing and profit vocabulary of the decision rules.
 */
module StrategyBase {
  import opened Common

  const InvalidDataMessage := "Yetersiz veya geçersiz veri."
  const ErrorPrefix := "Hata: "

  /** `ValidateCandles`: the analysis needs at least one candle. */
  predicate ValidateCandles(candles: seq<Candle>)
  {
    |candles| > 0
  }

  /**
   * `BaseStrategy.Analyze` around the outcome of `OnAnalyze` (a `Failure`
   * stands for the exception it threw, with its message).
   */
  function GuardAnalyze(candles: seq<Candle>, outcome: Result<StrategyResult>): (r: StrategyResult)
    ensures !ValidateCandles(candles) ==> r == Describe(NoTrade, InvalidDataMessage)
    ensures ValidateCandles(candles) && outcome.Success? ==> r == outcome.value
    ensures ValidateCandles(candles) && outcome.Failure? ==> r == Describe(NoTrade, ErrorPrefix + outcome.error)
    ensures r.action != NoTrade ==> ValidateCandles(candles) && outcome == Success(r)
  {
    if !ValidateCandles(candles) then Describe(NoTrade, InvalidDataMessage)
    else if outcome.Failure? then Describe(NoTrade, ErrorPrefix + outcome.error)
    else outcome.value
  }

  /** `BaseStrategy.CalculateSignalScore` around the outcome of `OnCalculateSignalScore`. */
  function GuardScore(candles: seq<Candle>, outcome: Result<real>): (r: real)
    ensures !ValidateCandles(candles) || outcome.Failure? ==> r == 0.0
    ensures ValidateCandles(candles) && outcome.Success? ==> r == outcome.value
  {
    if !ValidateCandles(candles) || outcome.Failure? then 0.0 else outcome.value
  }

  /** The parameter store of a `BaseStrategy`. */
  class BaseStrategy {
    var parameters: map<string, string>

    constructor()
      ensures parameters == map[]
    {
      parameters := map[];
    }

    /** `SetParameters` replaces the whole map; nothing of the previous one survives. */
    method SetParameters(newParameters: map<string, string>)
      modifies this
      ensures parameters == newParameters
    {
      parameters := newParameters;
    }

    /**
     * `GetParameter<T>`: the converted value of the key, or the default when
     * the key is missing or `Convert.ChangeType` fails (`convert` gives None).
     */
    function GetParameter<T>(key: string, defaultValue: T, convert: string -> Option<T>): (r: T)
      reads this
      ensures key !in parameters ==> r == defaultValue
      ensures key in parameters && convert(parameters[key]).None? ==> r == defaultValue
      ensures key in parameters && convert(parameters[key]).Some? ==> r == convert(parameters[key]).value
    {
      ParameterOf(parameters, key, defaultValue, convert)
    }
  }

  /** The lookup of `GetParameter` on a given map. */
  function ParameterOf<T>(parameters: map<string, string>, key: string, defaultValue: T, convert: string -> Option<T>): (r: T)
    ensures key !in parameters ==> r == defaultValue
    ensures key in parameters && convert(parameters[key]).None? ==> r == defaultValue
    ensures key in parameters && convert(parameters[key]).Some? ==> r == convert(parameters[key]).value
  {
    if key in parameters && convert(parameters[key]).Some? then convert(parameters[key]).value else defaultValue
  }

  /** `Convert.ChangeType(value, typeof(string))` never fails. */
  function AsString(s: string): Option<string>
  {
    Some(s)
  }

  /** A string parameter is the stored text itself, or the default when missing. */
  lemma StringParameter(parameters: map<string, string>, key: string, defaultValue: string)
    ensures ParameterOf(parameters, key, defaultValue, AsString) ==
      (if key in parameters then parameters[key] else defaultValue)
  {
  }

  /** `if (p.TryGetValue(key, out v) && int.TryParse(v, out x)) field = x`: the new value of the field. */
  function IntSetting(parameters: map<string, string>, key: string, current: int): (r: int)
    ensures key in parameters && ParseInt(parameters[key]).Some? ==> r == ParseInt(parameters[key]).value
    ensures key !in parameters || ParseInt(parameters[key]).None? ==> r == current
  {
    if key in parameters && ParseInt(parameters[key]).Some? then ParseInt(parameters[key]).value else current
  }

  /** The same with `decimal.TryParse`. */
  function DecimalSetting(parameters: map<string, string>, key: string, current: real): (r: real)
    ensures key in parameters && ParseDecimal(parameters[key]).Some? ==> r == ParseDecimal(parameters[key]).value
    ensures key !in parameters || ParseDecimal(parameters[key]).None? ==> r == current
  {
    if key in parameters && ParseDecimal(parameters[key]).Some? then ParseDecimal(parameters[key]).value else current
  }

  /** The setting a well-formed integer text gives: the integer itself. */
  lemma IntSettingOfNumber(parameters: map<string, string>, key: string, current: int, n: int)
    requires InInt32(n) && key in parameters && parameters[key] == IntToString(n)
    ensures IntSetting(parameters, key, current) == n
  {
    ParseIntRoundTrip(n);
  }

  /** `FormatException` text of `int.Parse`/`decimal.Parse` on a malformed value. */
  const FormatError := "The input string was not in a correct format."

  /**
   * `if (p.TryGetValue(key, out v)) field = int.Parse(v)`: the new value, or
   * the exception when the stored text is not a number.
   */
  function IntParseSetting(parameters: map<string, string>, key: string, current: int): (r: Result<int>)
    ensures key !in parameters ==> r == Success(current)
    ensures key in parameters ==> (r.Success? <==> ParseInt(parameters[key]).Some?)
    ensures key in parameters && r.Success? ==> r.value == ParseInt(parameters[key]).value
  {
    if key !in parameters then Success(current)
    else if ParseInt(parameters[key]).Some? then Success(ParseInt(parameters[key]).value)
    else Failure(FormatError)
  }

  /** The same with `decimal.Parse`. */
  function DecimalParseSetting(parameters: map<string, string>, key: string, current: real): (r: Result<real>)
    ensures key !in parameters ==> r == Success(current)
    ensures key in parameters ==> (r.Success? <==> ParseDecimal(parameters[key]).Some?)
    ensures key in parameters && r.Success? ==> r.value == ParseDecimal(parameters[key]).value
  {
    if key !in parameters then Success(current)
    else if ParseDecimal(parameters[key]).Some? then Success(ParseDecimal(parameters[key]).value)
    else Failure(FormatError)
  }

  // ------------------------------------------------ decision vocabulary

  /** A series crossing above a line: at or below it before, strictly above it now. */
  predicate CrossedAbove(prev: real, prevLine: real, cur: real, line: real)
  {
    prev <= prevLine && cur > line
  }

  /** A series crossing below a line: at or above it before, strictly below it now. */
  predicate CrossedBelow(prev: real, prevLine: real, cur: real, line: real)
  {
    prev >= prevLine && cur < line
  }

  /** The two crossings exclude each other, whatever the previous values. */
  lemma CrossingsExclusive(prev: real, prevLine: real, cur: real, line: real)
    ensures !(CrossedAbove(prev, prevLine, cur, line) && CrossedBelow(prev, prevLine, cur, line))
  {
  }

  /** Profit in percent of a position entered at `entry`: `(price - entry) / entry * 100`. */
  function PnlPercent(price: real, entry: real): (r: real)
    requires entry > 0.0
    ensures r >= 0.0 <==> price >= entry
  {
    (price - entry) / entry * 100.0
  }

  /** A profit threshold in percent is a price threshold: `pnl >= t` exactly when `price >= entry * (1 + t/100)`. */
  lemma PnlThreshold(price: real, entry: real, t: real)
    requires entry > 0.0
    ensures PnlPercent(price, entry) >= t <==> price >= entry * (1.0 + t / 100.0)
    ensures PnlPercent(price, entry) <= t <==> price <= entry * (1.0 + t / 100.0)
  {
    var p := PnlPercent(price, entry);
    assert p * entry == (price - entry) * 100.0;
    if p >= t {
      assert p * entry >= t * entry;
    }
    if price >= entry * (1.0 + t / 100.0) {
      assert (price - entry) * 100.0 >= entry * t;
      assert p * entry >= t * entry;
    }
    if p <= t {
      assert p * entry <= t * entry;
    }
    if price <= entry * (1.0 + t / 100.0) {
      assert (price - entry) * 100.0 <= entry * t;
      assert p * entry <= t * entry;
    }
  }

  // ------------------------------------------------ scanning back over a series

  /** A price series seen as an indicator series that is defined everywhere. */
  function Lift(xs: seq<real>): (r: seq<Option<real>>)
    ensures |r| == |xs|
    ensures forall i :: 0 <= i < |xs| ==> r[i] == Some(xs[i])
  {
    seq(|xs|, i requires 0 <= i < |xs| => Some(xs[i]))
  }

  /**
   * Series `a` crosses above series `b` at index `i`: both are defined at
   * `i - 1` and `i`, `a` was at or below `b` before and is strictly above now.
   */
  predicate UpCrossAt(a: seq<Option<real>>, b: seq<Option<real>>, i: int)
    requires |a| == |b| && 0 <= i < |a|
  {
    i >= 1 && a[i - 1].Some? && a[i].Some? && b[i - 1].Some? && b[i].Some? &&
    CrossedAbove(a[i - 1].value, b[i - 1].value, a[i].value, b[i].value)
  }

  /** An upward crossing at one of the last `window` indices. */
  predicate RecentUpCross(a: seq<Option<real>>, b: seq<Option<real>>, window: int)
    requires |a| == |b|
  {
    exists i :: |a| - window <= i < |a| && 0 <= i && UpCrossAt(a, b, i)
  }

  /**
   * The loop `for (i = 0; i < window; i++)` over the last indices, skipping
   * an index without a predecessor or with an undefined value, and stopping
   * at the first upward crossing.
   */
  method FindRecentUpCross(a: seq<Option<real>>, b: seq<Option<real>>, window: int) returns (found: bool)
    requires |a| == |b|
    ensures found <==> RecentUpCross(a, b, window)
  {
    found := false;
    var k := 0;
    while k < window
      invariant k <= window || k == 0
      invariant forall i :: |a| - k <= i < |a| && 0 <= i ==> !UpCrossAt(a, b, i)
    {
      var current := |a| - 1 - k;
      if current >= 1 && UpCrossAt(a, b, current) {
        found := true;
        return;
      }
      k := k + 1;
    }
  }

  /**
   * The number of consecutive candles, going back from index `i` no further
   * than `lo`, whose close is at or above a defined indicator value.
   */
  function RunAbove(closes: seq<real>, values: seq<Option<real>>, lo: int, i: int): (r: nat)
    requires |closes| == |values| && lo >= 0 && i < |closes|
    ensures i >= lo ==> r <= i - lo + 1
    ensures i < lo ==> r == 0
    ensures forall j :: i - r < j <= i ==> values[j].Some? && closes[j] >= values[j].value
    ensures i - r >= lo ==> values[i - r].None? || closes[i - r] < values[i - r].value
    decreases i + 1 - lo
  {
    if i < lo || values[i].None? || closes[i] < values[i].value then 0
    else 1 + RunAbove(closes, values, lo, i - 1)
  }

  /** The scan of `RunAbove` stopped at a candle that closed below a defined value. */
  predicate BreakoutFound(closes: seq<real>, values: seq<Option<real>>, lo: int, i: int)
    requires |closes| == |values| && lo >= 0 && i < |closes|
  {
    var k := RunAbove(closes, values, lo, i);
    i - k >= lo && values[i - k].Some?
  }

  /**
   * The backward scan `for (i = Count - 2; i >= lo; i--)`: stop at an
   * undefined value, stop and report a breakout at a close below the value,
   * count the candle otherwise.
   */
  method CountSinceBreakout(closes: seq<real>, values: seq<Option<real>>, lo: int) returns (count: nat, found: bool)
    requires |closes| == |values| && lo >= 0
    ensures count == RunAbove(closes, values, lo, |closes| - 2)
    ensures found <==> BreakoutFound(closes, values, lo, |closes| - 2)
  {
    count := 0;
    found := false;
    var i := |closes| - 2;
    while i >= lo
      invariant i <= |closes| - 2 && i == |closes| - 2 - count
      invariant RunAbove(closes, values, lo, |closes| - 2) == count + RunAbove(closes, values, lo, i)
      decreases i + 1 - lo
    {
      if values[i].None? {
        return;
      }
      if closes[i] < values[i].value {
        found := true;
        return;
      }
      count := count + 1;
      i := i - 1;
    }
  }
}
