/**
 * `YahooFinanceService`: candles for symbols that Binance does not list,
 * read from the Yahoo Finance chart endpoint. Yahoo has no 4-hour
 * interval, so 4-hour candles are built from groups of four hourly ones.
 *
 * The HTTP request and the JSON parsing are the oracle `fetch`, which
 * answers a URL with the parsed chart (or with the reason there is none);
 * a JSON `null` in a series is `None`. Candle times are the Unix seconds
 * Yahoo sends.
 */
module YahooFinanceServices {
  import opened Common
  import opened Listing

  // ------------------------------------------------------------ request

  /** The Yahoo interval fetched for a requested interval: "4h" and anything unknown are fetched hourly. */
  function YahooInterval(interval: string): (r: string)
    ensures r == "15m" || r == "1h" || r == "1d"
    ensures r == interval <==> interval == "15m" || interval == "1h" || interval == "1d"
  {
    match interval
    case "15m" => "15m"
    case "1h" => "1h"
    case "4h" => "1h"
    case "1d" => "1d"
    case _ => "1h"
  }

  /** A year of daily candles, or 60 days of intraday ones. */
  function YahooRange(interval: string): (r: string)
    ensures r == "1y" <==> interval == "1d"
    ensures r == "1y" || r == "60d"
  {
    if interval == "1d" then "1y" else "60d"
  }

  const ChartEndpoint := "https://query1.finance.yahoo.com/v8/finance/chart/"

  function ChartUrl(symbol: string, interval: string): string
  {
    ChartEndpoint + symbol + "?interval=" + YahooInterval(interval) + "&range=" + YahooRange(interval)
  }

  /** What the endpoint gave back, once parsed. */
  datatype ChartResponse =
    | NotSuccessful
      /** `chart`, `result` or `timestamp` missing, `result` null or empty. */
    | NoChart
      /** The JSON could not be parsed or an expected property was missing. */
    | Malformed
    | Chart(timestamps: seq<int>, opens: seq<Option<real>>, highs: seq<Option<real>>, lows: seq<Option<real>>,
            closes: seq<Option<real>>, volumes: Option<seq<Option<real>>>)

  /** A JSON `null` is read as 0. */
  function ZeroIfNull(s: seq<Option<real>>): (r: seq<real>)
    ensures |r| == |s|
    ensures forall i :: 0 <= i < |s| ==> r[i] == (if s[i].Some? then s[i].value else 0.0)
  {
    seq(|s|, i requires 0 <= i < |s| => if s[i].Some? then s[i].value else 0.0)
  }

  /** `Enumerable.Repeat(0m, n)`. */
  function Zeros(n: nat): (r: seq<real>)
    ensures |r| == n && forall i :: 0 <= i < n ==> r[i] == 0.0
  {
    seq(n, i => 0.0)
  }

  // ------------------------------------------------------------ candles

  /** The rows read: the loop stops at the end of the timestamps, the opens or the closes. */
  function RowCount(timestamps: seq<int>, opens: seq<real>, closes: seq<real>): (n: nat)
    ensures n <= |timestamps| && n <= |opens| && n <= |closes|
    ensures n == |timestamps| || n == |opens| || n == |closes|
  {
    if |timestamps| <= |opens| && |timestamps| <= |closes| then |timestamps|
    else if |opens| <= |closes| then |opens| else |closes|
  }

  /** A row with a zero open or close is skipped. */
  predicate Skipped(opens: seq<real>, closes: seq<real>, i: int)
    requires 0 <= i < |opens| && 0 <= i < |closes|
  {
    opens[i] == 0.0 || closes[i] == 0.0
  }

  /**
   * The candles of the first `k` rows; `None` when a kept row has no high,
   * low or volume, where the list indexer throws and the service answers
   * with no candles.
   */
  function CandlesUpTo(timestamps: seq<int>, opens: seq<real>, highs: seq<real>, lows: seq<real>,
                       closes: seq<real>, volumes: seq<real>, k: nat): Option<seq<Candle>>
    requires k <= RowCount(timestamps, opens, closes)
  {
    if k == 0 then Some([])
    else
      var before := CandlesUpTo(timestamps, opens, highs, lows, closes, volumes, k - 1);
      var i := k - 1;
      if before.None? then None
      else if Skipped(opens, closes, i) then before
      else if i >= |highs| || i >= |lows| || i >= |volumes| then None
      else Some(before.value + [Candle(timestamps[i], opens[i], highs[i], lows[i], closes[i], volumes[i])])
  }

  /** The candle-building loop of `GetKlinesAsync`. */
  method BuildCandles(timestamps: seq<int>, opens: seq<real>, highs: seq<real>, lows: seq<real>,
                      closes: seq<real>, volumes: seq<real>) returns (r: Option<seq<Candle>>)
    ensures r == CandlesUpTo(timestamps, opens, highs, lows, closes, volumes, RowCount(timestamps, opens, closes))
  {
    var n := RowCount(timestamps, opens, closes);
    var candles: seq<Candle> := [];
    var i := 0;
    while i < |timestamps|
      invariant 0 <= i <= n
      invariant CandlesUpTo(timestamps, opens, highs, lows, closes, volumes, i) == Some(candles)
      decreases |timestamps| - i
    {
      if i >= |opens| || i >= |closes| {
        break;
      }
      if opens[i] == 0.0 || closes[i] == 0.0 {
        i := i + 1;
        continue;
      }
      if i >= |highs| || i >= |lows| || i >= |volumes| {
        MissingValueFails(timestamps, opens, highs, lows, closes, volumes, n, i);
        return None;
      }
      candles := candles + [Candle(timestamps[i], opens[i], highs[i], lows[i], closes[i], volumes[i])];
      i := i + 1;
    }
    r := Some(candles);
  }

  /** The rows of the first `k` that are kept. */
  function KeptRows(opens: seq<real>, closes: seq<real>, k: nat): (r: seq<nat>)
    requires k <= |opens| && k <= |closes|
    ensures forall j :: 0 <= j < |r| ==> r[j] < k && !Skipped(opens, closes, r[j])
  {
    if k == 0 then []
    else if Skipped(opens, closes, k - 1) then KeptRows(opens, closes, k - 1)
    else KeptRows(opens, closes, k - 1) + [k - 1]
  }

  /**
   * When the highs, lows and volumes cover every kept row, the candles are
   * the kept rows in order, each taking its values from its own row; no
   * candle has a zero open or close.
   */
  lemma {:induction false} CandlesAreKeptRows(timestamps: seq<int>, opens: seq<real>, highs: seq<real>, lows: seq<real>,
                                              closes: seq<real>, volumes: seq<real>, k: nat)
    requires k <= RowCount(timestamps, opens, closes)
    requires k <= |highs| && k <= |lows| && k <= |volumes|
    ensures var r := CandlesUpTo(timestamps, opens, highs, lows, closes, volumes, k);
      var rows := KeptRows(opens, closes, k);
      r.Some? && |r.value| == |rows| &&
      forall j :: 0 <= j < |rows| ==>
        r.value[j] == Candle(timestamps[rows[j]], opens[rows[j]], highs[rows[j]], lows[rows[j]], closes[rows[j]], volumes[rows[j]]) &&
        r.value[j].open != 0.0 && r.value[j].close != 0.0
  {
    if k > 0 {
      CandlesAreKeptRows(timestamps, opens, highs, lows, closes, volumes, k - 1);
    }
  }

  /** A kept row with no high, low or volume yields no candles at all. */
  lemma {:induction false} MissingValueFails(timestamps: seq<int>, opens: seq<real>, highs: seq<real>, lows: seq<real>,
                                             closes: seq<real>, volumes: seq<real>, k: nat, i: nat)
    requires k <= RowCount(timestamps, opens, closes)
    requires i < k && !Skipped(opens, closes, i) && (i >= |highs| || i >= |lows| || i >= |volumes|)
    ensures CandlesUpTo(timestamps, opens, highs, lows, closes, volumes, k).None?
    decreases k
  {
    if i < k - 1 {
      MissingValueFails(timestamps, opens, highs, lows, closes, volumes, k - 1, i);
    }
  }

  // ------------------------------------------------------------ aggregation

  /** `Max(x => x.High)` of a non-empty run. */
  function HighestHigh(s: seq<Candle>): real
    requires |s| > 0
  {
    if |s| == 1 then s[0].high else Max2(s[0].high, HighestHigh(s[1..]))
  }

  /** `Min(x => x.Low)` of a non-empty run. */
  function LowestLow(s: seq<Candle>): real
    requires |s| > 0
  {
    if |s| == 1 then s[0].low else Min2(s[0].low, LowestLow(s[1..]))
  }

  /** The volumes of the candles, added up. */
  function TotalVolume(s: seq<Candle>): real
  {
    if |s| == 0 then 0.0 else s[0].volume + TotalVolume(s[1..])
  }

  lemma {:induction false} TotalVolumeAppend(a: seq<Candle>, b: seq<Candle>)
    ensures TotalVolume(a + b) == TotalVolume(a) + TotalVolume(b)
    decreases |a|
  {
    if |a| == 0 {
      assert a + b == b;
    } else {
      assert (a + b)[1..] == a[1..] + b;
      TotalVolumeAppend(a[1..], b);
    }
  }

  /** One candle spanning a non-empty run of candles. */
  function Merge(subset: seq<Candle>): (r: Candle)
    requires |subset| > 0
    ensures r.openTime == subset[0].openTime && r.open == subset[0].open
    ensures r.close == subset[|subset| - 1].close
    ensures r.volume == TotalVolume(subset)
  {
    Candle(subset[0].openTime, subset[0].open, HighestHigh(subset), LowestLow(subset),
           subset[|subset| - 1].close, TotalVolume(subset))
  }

  /** The merged high is the highest of the highs and the merged low the lowest of the lows. */
  lemma {:induction false} MergeRange(subset: seq<Candle>)
    requires |subset| > 0
    ensures forall i :: 0 <= i < |subset| ==> Merge(subset).low <= subset[i].low && subset[i].high <= Merge(subset).high
    ensures exists i :: 0 <= i < |subset| && Merge(subset).high == subset[i].high
    ensures exists i :: 0 <= i < |subset| && Merge(subset).low == subset[i].low
    decreases |subset|
  {
    if |subset| > 1 {
      var tail := subset[1..];
      MergeRange(tail);
      assert forall i :: 1 <= i < |subset| ==> subset[i] == tail[i - 1];
      var h :| 0 <= h < |tail| && Merge(tail).high == tail[h].high;
      var l :| 0 <= l < |tail| && Merge(tail).low == tail[l].low;
      if Merge(subset).high != subset[0].high {
        assert Merge(subset).high == subset[h + 1].high;
      }
      if Merge(subset).low != subset[0].low {
        assert Merge(subset).low == subset[l + 1].low;
      }
    } else {
      assert Merge(subset).high == subset[0].high;
      assert Merge(subset).low == subset[0].low;
    }
  }

  /** `Skip(i).Take(chunk)` for every `i` stepping by `chunk`, each run merged into one candle. */
  function AggregateOf(candles: seq<Candle>, chunk: int): seq<Candle>
    requires chunk > 0
    decreases |candles|
  {
    if |candles| == 0 then []
    else
      var m := if chunk < |candles| then chunk else |candles|;
      [Merge(candles[..m])] + AggregateOf(candles[m..], chunk)
  }

  /** `AggregateCandles`: the runs are taken with `Skip`/`Take` while the index stays inside the list. */
  method AggregateCandles(candles: seq<Candle>, chunk: int) returns (aggregated: seq<Candle>)
    requires chunk > 0
    ensures aggregated == AggregateOf(candles, chunk)
  {
    aggregated := [];
    var i := 0;
    while i < |candles|
      invariant 0 <= i
      invariant aggregated + AggregateOf(Skip(candles, i), chunk) == AggregateOf(candles, chunk)
      decreases |candles| - i
    {
      var subset := Take(Skip(candles, i), chunk);
      AggregateStep(candles, i, chunk);
      var merged := Merge(subset);
      ghost var later := AggregateOf(Skip(candles, i + chunk), chunk);
      assert (aggregated + [merged]) + later == aggregated + ([merged] + later);
      aggregated := aggregated + [merged];
      i := i + chunk;
    }
  }

  /** One step of the loop: the run at `i` is merged and the rest starts `chunk` further on. */
  lemma AggregateStep(candles: seq<Candle>, i: int, chunk: int)
    requires chunk > 0 && 0 <= i < |candles|
    ensures |Take(Skip(candles, i), chunk)| > 0
    ensures AggregateOf(Skip(candles, i), chunk) ==
            [Merge(Take(Skip(candles, i), chunk))] + AggregateOf(Skip(candles, i + chunk), chunk)
  {
    var rest := candles[i..];
    var m := if chunk < |rest| then chunk else |rest|;
    assert Skip(candles, i) == rest;
    assert rest[m..] == Skip(candles, i + chunk);
  }

  /** ⌈n / chunk⌉ candles come out of n: the fewest runs of `chunk` that cover them all. */
  lemma AggregateCount(candles: seq<Candle>, chunk: int)
    requires chunk > 0
    ensures var r := |AggregateOf(candles, chunk)|;
      (|candles| == 0 <==> r == 0) && (r > 0 ==> (r - 1) * chunk < |candles| <= r * chunk)
  {
    AggregateRuns(candles, chunk);
    var r := |AggregateOf(candles, chunk)|;
    if r > 0 {
      OffsetIsProduct(r - 1, chunk);
      OffsetIsProduct(r, chunk);
    }
  }

  /** The count of runs, with the products written as repeated additions. */
  lemma {:induction false} AggregateRuns(candles: seq<Candle>, chunk: nat)
    requires chunk > 0
    ensures var r := |AggregateOf(candles, chunk)|;
      (|candles| == 0 <==> r == 0) && (r > 0 ==> Offset(r - 1, chunk) < |candles| <= Offset(r, chunk))
    decreases |candles|
  {
    if |candles| > 0 {
      var m := if chunk < |candles| then chunk else |candles|;
      AggregateUnfold(candles, chunk);
      AggregateRuns(candles[m..], chunk);
      var r' := |AggregateOf(candles[m..], chunk)|;
      if r' > 0 {
        OffsetShift(r' - 1, chunk);
        OffsetShift(r', chunk);
      }
    }
  }

  /** One more run in front moves every offset by `chunk`. */
  lemma {:induction false} OffsetShift(j: nat, chunk: nat)
    ensures Offset(j + 1, chunk) == Offset(j, chunk) + chunk
  {
  }

  /** Aggregation keeps the total volume. */
  lemma {:induction false} AggregateKeepsVolume(candles: seq<Candle>, chunk: int)
    requires chunk > 0
    ensures TotalVolume(AggregateOf(candles, chunk)) == TotalVolume(candles)
    decreases |candles|
  {
    if |candles| > 0 {
      var m := if chunk < |candles| then chunk else |candles|;
      var first := Merge(candles[..m]);
      AggregateKeepsVolume(candles[m..], chunk);
      TotalVolumeAppend([first], AggregateOf(candles[m..], chunk));
      assert candles == candles[..m] + candles[m..];
      TotalVolumeAppend(candles[..m], candles[m..]);
      assert TotalVolume([first]) == first.volume;
    }
  }

  /**
   * The `j`-th aggregated candle merges the candles from `j * chunk` up to
   * the next multiple of `chunk` (or the end): it opens with the first of
   * them and closes with the last.
   */
  lemma AggregateRun(candles: seq<Candle>, chunk: int, j: nat)
    requires chunk > 0 && j * chunk < |candles|
    ensures var stop := if (j + 1) * chunk < |candles| then (j + 1) * chunk else |candles|;
      j < |AggregateOf(candles, chunk)| &&
      AggregateOf(candles, chunk)[j] == Merge(candles[j * chunk..stop])
  {
    OffsetIsProduct(j, chunk);
    OffsetIsProduct(j + 1, chunk);
    AggregateRunAt(candles, chunk, j);
  }

  /** `j` runs of `chunk`, added up one run at a time. */
  function Offset(j: nat, chunk: nat): nat
  {
    if j == 0 then 0 else Offset(j - 1, chunk) + chunk
  }

  lemma {:induction false} OffsetIsProduct(j: nat, chunk: nat)
    ensures Offset(j, chunk) == j * chunk
  {
    if j > 0 {
      OffsetIsProduct(j - 1, chunk);
      assert (j - 1) * chunk + chunk == j * chunk;
    }
  }

  lemma {:induction false} AggregateRunAt(candles: seq<Candle>, chunk: nat, j: nat)
    requires chunk > 0 && Offset(j, chunk) < |candles|
    ensures var start := Offset(j, chunk);
      var stop := if start + chunk < |candles| then start + chunk else |candles|;
      j < |AggregateOf(candles, chunk)| &&
      AggregateOf(candles, chunk)[j] == Merge(candles[start..stop])
    decreases j
  {
    var m := if chunk < |candles| then chunk else |candles|;
    var rest := candles[m..];
    AggregateUnfold(candles, chunk);
    if j > 0 {
      AggregateRunAt(rest, chunk, j - 1);
      ShiftedRun(candles, chunk, j);
    } else {
      assert candles[0..m] == candles[..m];
    }
  }

  /** The first run, then the runs of what is left. */
  lemma AggregateUnfold(candles: seq<Candle>, chunk: nat)
    requires chunk > 0 && |candles| > 0
    ensures var m := if chunk < |candles| then chunk else |candles|;
      AggregateOf(candles, chunk) == [Merge(candles[..m])] + AggregateOf(candles[m..], chunk)
  {
  }

  /** Run `j` of a list is run `j - 1` of the list without its first run. */
  lemma ShiftedRun(candles: seq<Candle>, chunk: nat, j: nat)
    requires chunk > 0 && j > 0 && Offset(j, chunk) < |candles|
    ensures chunk < |candles| && Offset(j - 1, chunk) == Offset(j, chunk) - chunk
    ensures var start := Offset(j, chunk);
      var stop := if start + chunk < |candles| then start + chunk else |candles|;
      var rest := candles[chunk..];
      var stop' := if Offset(j - 1, chunk) + chunk < |rest| then Offset(j - 1, chunk) + chunk else |rest|;
      rest[Offset(j - 1, chunk)..stop'] == candles[start..stop]
  {
  }

  /** Runs of one candle change nothing. */
  lemma {:induction false} AggregateByOne(candles: seq<Candle>)
    ensures AggregateOf(candles, 1) == candles
    decreases |candles|
  {
    if |candles| > 0 {
      AggregateByOne(candles[1..]);
      var c := candles[0];
      assert TotalVolume([c]) == c.volume;
      assert candles == [c] + candles[1..];
    }
  }

  // ------------------------------------------------------------ endpoint

  /** The candles a chart yields: the null values read as 0, and zero volumes when there is no volume series. */
  function ChartCandles(response: ChartResponse): Option<seq<Candle>>
    requires response.Chart?
  {
    var opens, closes := ZeroIfNull(response.opens), ZeroIfNull(response.closes);
    var volumes := if response.volumes.Some? then ZeroIfNull(response.volumes.value) else Zeros(|response.timestamps|);
    CandlesUpTo(response.timestamps, opens, ZeroIfNull(response.highs), ZeroIfNull(response.lows), closes, volumes,
                RowCount(response.timestamps, opens, closes))
  }

  /**
   * `GetKlinesAsync`: no candles when the request fails, the chart is
   * missing or a value is out of range; otherwise the chart's candles,
   * merged four by four for "4h".
   */
  method GetKlines(symbol: string, interval: string, fetch: string -> ChartResponse) returns (r: seq<Candle>)
    ensures var response := fetch(ChartUrl(symbol, interval));
      (!response.Chart? ==> r == []) &&
      (response.Chart? && ChartCandles(response).None? ==> r == []) &&
      (response.Chart? && ChartCandles(response).Some? ==>
        r == if interval == "4h" then AggregateOf(ChartCandles(response).value, 4) else ChartCandles(response).value)
  {
    var response := fetch(ChartUrl(symbol, interval));
    if !response.Chart? {
      return [];
    }
    var opens, closes := ZeroIfNull(response.opens), ZeroIfNull(response.closes);
    var volumes := if response.volumes.Some? then ZeroIfNull(response.volumes.value) else Zeros(|response.timestamps|);
    var candles := BuildCandles(response.timestamps, opens, ZeroIfNull(response.highs), ZeroIfNull(response.lows), closes, volumes);
    if candles.None? {
      return [];
    }
    if interval == "4h" {
      r := AggregateCandles(candles.value, 4);
    } else {
      r := candles.value;
    }
  }
}
