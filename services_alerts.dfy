/**
 * `AlertService`: the user's price, indicator and market-movement alarms.
 *
 * The alarm table is a class whose rows the service updates in place. The
 * clock is a parameter `now` in minutes. The exchange is an oracle: `price`
 * gives the last price of a symbol (or none when the request fails), and
 * `fetch` gives the candles of a symbol on an interval (or none when the
 * request fails). The notification service is modelled by the list of
 * notifications a run sends. Message texts with formatted numbers are
 * represented by the kind of alarm they announce.
 */
module AlertServices {
  import opened Common
  import opened Listing
  import opened Intervals
  import opened IndicatorsRsi
  import opened IndicatorsTrend

  datatype AlertType = PriceAlert | TechnicalAlert | MarketMovementAlert

  datatype AlertCondition = Above | Below | CrossOver | CrossUnder | InsideChannel | OutsideChannel

  /** The `UserAlert` entity. Ids are the GUIDs, as naturals; times are minutes. */
  datatype UserAlert = UserAlert(
    id: nat,
    userId: string,
    symbol: string,
    kind: AlertType,
    targetValue: real,
    condition: AlertCondition,
    indicatorName: Option<string>,
    timeframe: Option<string>,
    parameters: Option<string>,
    isEnabled: bool,
    lastTriggeredAt: Option<int>,
    cooldownMinutes: int,
    createdAt: int,
    updatedAt: Option<int>)

  /** The cooldown a new alarm gets. */
  const DefaultCooldownMinutes := 60

  /** What a notification announces; the texts themselves are formatted strings. */
  datatype AlertMessage =
    | PriceReached
    | RsiReached
    | GoldenCrossAlarm
    | DeathCrossAlarm
    | VolumeSpikeAlarm
    | SuddenMove(rising: bool)

  datatype Notification = Notification(userId: string, message: AlertMessage)

  /** `AlertDto`: the alarm as sent to the client. Only creation fills in the parameters. */
  datatype AlertDto = AlertDto(
    id: nat,
    symbol: string,
    kind: AlertType,
    targetValue: real,
    condition: AlertCondition,
    indicatorName: Option<string>,
    timeframe: Option<string>,
    parameters: Option<string>,
    isEnabled: bool,
    lastTriggeredAt: Option<int>,
    createdAt: int)

  function ToDto(a: UserAlert, withParameters: bool): (d: AlertDto)
    ensures d.id == a.id && d.symbol == a.symbol && d.targetValue == a.targetValue && d.isEnabled == a.isEnabled
    ensures d.parameters == (if withParameters then a.parameters else None)
  {
    AlertDto(a.id, a.symbol, a.kind, a.targetValue, a.condition, a.indicatorName, a.timeframe,
             if withParameters then a.parameters else None, a.isEnabled, a.lastTriggeredAt, a.createdAt)
  }

  // ------------------------------------------------------------ conditions

  /**
   * `CheckPriceCondition` and `CheckCondition` (the two are the same switch):
   * above and below compare strictly; crossing and channel conditions never
   * hold for a single value.
   */
  function CheckCondition(current: real, target: real, condition: AlertCondition): (r: bool)
  {
    match condition
    case Above => current > target
    case Below => current < target
    case _ => false
  }

  /** Both comparisons are strict, only above and below can hold, and never both at once. */
  lemma ConditionStrict(current: real, target: real, condition: AlertCondition)
    ensures CheckCondition(current, target, condition) ==> current != target
    ensures CheckCondition(current, target, condition) ==> condition == Above || condition == Below
    ensures !(CheckCondition(current, target, Above) && CheckCondition(current, target, Below))
    ensures CheckCondition(current, target, Above) <==> current > target
    ensures CheckCondition(current, target, Below) <==> current < target
  {
  }

  /** Once an above alarm holds at a price it holds at every higher price, and dually for below. */
  lemma ConditionMonotone(current: real, higher: real, target: real)
    requires current <= higher
    ensures CheckCondition(current, target, Above) ==> CheckCondition(higher, target, Above)
    ensures CheckCondition(higher, target, Below) ==> CheckCondition(current, target, Below)
  {
  }

  /** `GetInterval`: the four codes the alarm screen offers; anything else is one hour. */
  function GetInterval(timeframe: string): (k: KlineInterval)
  {
    if timeframe == "15m" then FifteenMinutes
    else if timeframe == "1h" then OneHour
    else if timeframe == "4h" then FourHour
    else if timeframe == "1d" then OneDay
    else OneHour
  }

  /** The known codes map to the interval with that code; any other code maps to one hour. */
  lemma GetIntervalCode(timeframe: string)
    ensures timeframe in ["15m", "1h", "4h", "1d"] ==> Code(GetInterval(timeframe)) == timeframe
    ensures timeframe !in ["15m", "1h", "4h", "1d"] ==> GetInterval(timeframe) == OneHour
  {
  }

  /** `alert.Timeframe ?? "1h"`: the key the candles of an alarm are fetched and cached under. */
  function TimeframeKey(a: UserAlert): (k: string)
    ensures a.timeframe.None? ==> k == "1h"
    ensures a.timeframe.Some? ==> k == a.timeframe.value
  {
    match a.timeframe
    case None => "1h"
    case Some(t) => t
  }

  /** The period `CheckTechnicalCondition` passes to the RSI. */
  const AlertRsiPeriod := 14

  /**
   * `CheckTechnicalCondition`, on the closes of the candles. RSI compares the
   * last RSI value with the target; MACD is computed (and throws on too few
   * prices) but never triggers; EMA_CROSS reports a golden cross of the 50
   * and 200 EMAs for a cross-over alarm and a death cross for a cross-under
   * alarm; any other indicator never triggers. A thrown exception is a
   * failure; otherwise the result is the message of a triggered alarm.
   */
  function CheckTechnicalCondition(a: UserAlert, candles: seq<Candle>): (r: Result<Option<AlertMessage>>)
    ensures r.Failure? ==> a.indicatorName == Some("MACD")
  {
    var prices := Closes(candles);
    if a.indicatorName == Some("RSI") then
      var last := LastOrNull(Rsi(prices, AlertRsiPeriod));
      if last.None? then Success(None)
      else if CheckCondition(last.value, a.targetValue, a.condition) then Success(Some(RsiReached))
      else Success(None)
    else if a.indicatorName == Some("MACD") then
      match CalculateMacdSpec(prices, 12, 26, 9)
      case Failure(e) => Failure(e)
      case Success(_) => Success(None)
    else if a.indicatorName == Some("EMA_CROSS") then
      var cross := DetectEmaCross(prices, 50, 200);
      if a.condition == CrossOver && cross.isGoldenCross then Success(Some(GoldenCrossAlarm))
      else if a.condition == CrossUnder && cross.isDeathCross then Success(Some(DeathCrossAlarm))
      else Success(None)
    else Success(None)
  }

  /** A MACD alarm never fires, and an EMA cross alarm fires exactly on the cross its condition names. */
  lemma TechnicalTriggers(a: UserAlert, candles: seq<Candle>)
    ensures a.indicatorName == Some("MACD") ==> !(CheckTechnicalCondition(a, candles).Success? && CheckTechnicalCondition(a, candles).value.Some?)
    ensures a.indicatorName !in {Some("RSI"), Some("MACD"), Some("EMA_CROSS")} ==> CheckTechnicalCondition(a, candles) == Success(None)
    ensures a.indicatorName == Some("EMA_CROSS") ==>
      (CheckTechnicalCondition(a, candles) == Success(Some(GoldenCrossAlarm)) <==>
         a.condition == CrossOver && DetectEmaCross(Closes(candles), 50, 200).isGoldenCross)
    ensures a.indicatorName == Some("EMA_CROSS") ==>
      (CheckTechnicalCondition(a, candles) == Success(Some(DeathCrossAlarm)) <==>
         a.condition == CrossUnder && DetectEmaCross(Closes(candles), 50, 200).isDeathCross)
  {
  }

  /** The number of earlier volumes a volume spike is measured against. */
  const SpikeWindow := 20

  /** The average volume of the 20 candles before the last one. */
  function PriorAverageVolume(candles: seq<Candle>): real
    requires |candles| >= SpikeWindow + 1
  {
    Mean(TakeLast(Volumes(candles[..|candles| - 1]), SpikeWindow))
  }

  /** The change of the last candle from its open to its close, in percent. */
  function ChangePercent(c: Candle): real
    requires c.open != 0.0
  {
    (c.close - c.open) / c.open * 100.0
  }

  /**
   * `CheckMarketMovementCondition`. Fewer than two candles never trigger.
   * VOLUME_SPIKE needs 20 candles before the last one and fires when the
   * last volume exceeds their average by more than the target percent.
   * PRICE_CHANGE fires when the last candle moved at least the target
   * percent from open to close in either direction; an open of zero makes
   * the decimal division throw.
   */
  function CheckMarketMovementCondition(a: UserAlert, candles: seq<Candle>): (r: Result<Option<AlertMessage>>)
    ensures |candles| < 2 ==> r == Success(None)
    ensures a.indicatorName !in {Some("VOLUME_SPIKE"), Some("PRICE_CHANGE")} ==> r == Success(None)
    ensures r.Failure? ==> r.error == DivideByZero && candles[|candles| - 1].open == 0.0
  {
    if |candles| < 2 then Success(None)
    else
      var last := candles[|candles| - 1];
      if a.indicatorName == Some("VOLUME_SPIKE") then
        var volumes := Volumes(candles[..|candles| - 1]);
        if |volumes| < SpikeWindow then Success(None)
        else
          var avgVolume := PriorAverageVolume(candles);
          var threshold := avgVolume * (a.targetValue / 100.0);
          if last.volume > avgVolume + threshold then Success(Some(VolumeSpikeAlarm)) else Success(None)
      else if a.indicatorName == Some("PRICE_CHANGE") then
        if last.open == 0.0 then Failure(DivideByZero)
        else
          var change := ChangePercent(last);
          if Abs(change) >= a.targetValue then Success(Some(SuddenMove(change > 0.0))) else Success(None)
      else Success(None)
  }

  /**
   * A volume spike alarm fires exactly when there are 21 candles or more and
   * the last volume exceeds the prior 20-candle average times (1 + target/100).
   */
  lemma VolumeSpikeIff(a: UserAlert, candles: seq<Candle>)
    requires a.indicatorName == Some("VOLUME_SPIKE")
    ensures CheckMarketMovementCondition(a, candles).Success?
    ensures CheckMarketMovementCondition(a, candles) == Success(Some(VolumeSpikeAlarm)) <==>
      |candles| >= SpikeWindow + 1 &&
      candles[|candles| - 1].volume > PriorAverageVolume(candles) * (1.0 + a.targetValue / 100.0)
    ensures CheckMarketMovementCondition(a, candles).value.Some? ==>
      CheckMarketMovementCondition(a, candles) == Success(Some(VolumeSpikeAlarm))
  {
    if |candles| >= SpikeWindow + 1 {
      var avg := PriorAverageVolume(candles);
      assert avg + avg * (a.targetValue / 100.0) == avg * (1.0 + a.targetValue / 100.0);
    }
  }

  /**
   * A price change alarm with a non-zero open fires exactly when the
   * absolute move reaches the target; for a positive open it reports a rise
   * exactly when the candle closed above its open.
   */
  lemma PriceChangeIff(a: UserAlert, candles: seq<Candle>)
    requires a.indicatorName == Some("PRICE_CHANGE")
    requires |candles| >= 2 && candles[|candles| - 1].open != 0.0
    ensures var last := candles[|candles| - 1];
      CheckMarketMovementCondition(a, candles).Success? &&
      (CheckMarketMovementCondition(a, candles).value.Some? <==> Abs(ChangePercent(last)) >= a.targetValue) &&
      (CheckMarketMovementCondition(a, candles).value.Some? ==>
         CheckMarketMovementCondition(a, candles).value.value == SuddenMove(ChangePercent(last) > 0.0))
    ensures var last := candles[|candles| - 1];
      last.open > 0.0 ==> (ChangePercent(last) > 0.0 <==> last.close > last.open)
  {
    var last := candles[|candles| - 1];
    if last.open > 0.0 {
      DivSign(last.close - last.open, last.open);
    }
  }

  lemma DivSign(x: real, d: real)
    requires d > 0.0
    ensures x / d * 100.0 > 0.0 <==> x > 0.0
  {
    if x > 0.0 {
      assert x / d > 0.0;
    } else {
      assert x / d <= 0.0;
    }
  }

  // ------------------------------------------------------------ one alarm in a run

  /** The last trigger plus the cooldown is still ahead of `now`. */
  predicate CoolingDown(a: UserAlert, now: int)
  {
    a.lastTriggeredAt.Some? && a.lastTriggeredAt.value + a.cooldownMinutes > now
  }

  /**
   * The check of one alarm whose symbol's price was read. Price alarms
   * compare that price; technical and market-movement alarms read the
   * candles cached under their timeframe key, which exist when the fetch on
   * `GetInterval(key)` succeeded; without them the alarm does not trigger.
   */
  function Evaluate(a: UserAlert, currentPrice: real, fetch: (string, KlineInterval) -> Option<seq<Candle>>): (r: Result<Option<AlertMessage>>)
    ensures a.kind == PriceAlert ==>
      (r == Success(Some(PriceReached)) <==> CheckCondition(currentPrice, a.targetValue, a.condition))
    ensures a.kind == PriceAlert ==> r.Success? && (r.value.Some? ==> r.value.value == PriceReached)
  {
    if a.kind == PriceAlert then
      if CheckCondition(currentPrice, a.targetValue, a.condition) then Success(Some(PriceReached)) else Success(None)
    else
      match fetch(a.symbol, GetInterval(TimeframeKey(a)))
      case None => Success(None)
      case Some(candles) =>
        if a.kind == TechnicalAlert then CheckTechnicalCondition(a, candles)
        else CheckMarketMovementCondition(a, candles)
  }

  /**
   * What one alarm sends in a run: nothing when it is disabled, when its
   * symbol's price could not be read, while it is cooling down, or when
   * its check throws or does not trigger; otherwise its message.
   */
  function Outcome(a: UserAlert, now: int, price: string -> Option<real>, fetch: (string, KlineInterval) -> Option<seq<Candle>>): (r: Option<AlertMessage>)
    ensures r.Some? ==> a.isEnabled && price(a.symbol).Some? && !CoolingDown(a, now)
    ensures r.Some? ==> Evaluate(a, price(a.symbol).value, fetch) == Success(r)
  {
    if !a.isEnabled || price(a.symbol).None? || CoolingDown(a, now) then None
    else
      match Evaluate(a, price(a.symbol).value, fetch)
      case Success(Some(m)) => Some(m)
      case _ => None
  }

  /** The row after a decision: an alarm that fires records `now` as its last trigger. */
  function Stamped(a: UserAlert, now: int, m: Option<AlertMessage>): (b: UserAlert)
    ensures m.Some? ==> b == a.(lastTriggeredAt := Some(now))
    ensures m.None? ==> b == a
  {
    if m.Some? then a.(lastTriggeredAt := Some(now)) else a
  }

  /** The row after a run. */
  function Processed(a: UserAlert, now: int, price: string -> Option<real>, fetch: (string, KlineInterval) -> Option<seq<Candle>>): (b: UserAlert)
  {
    Stamped(a, now, Outcome(a, now, price, fetch))
  }

  /**
   * The cooldown works: an alarm that fired at `now` with a positive
   * cooldown stays silent in every run before `now + cooldown`, whatever
   * the market does, and its row does not change in those runs.
   */
  lemma NoRepeatWithinCooldown(a: UserAlert, now: int, later: int,
                               price: string -> Option<real>, fetch: (string, KlineInterval) -> Option<seq<Candle>>,
                               price2: string -> Option<real>, fetch2: (string, KlineInterval) -> Option<seq<Candle>>)
    requires Outcome(a, now, price, fetch).Some?
    requires now <= later < now + a.cooldownMinutes
    ensures Outcome(Processed(a, now, price, fetch), later, price2, fetch2).None?
    ensures Processed(Processed(a, now, price, fetch), later, price2, fetch2) == Processed(a, now, price, fetch)
  {
  }

  /** A disabled alarm, or one still cooling down, is left exactly as it was. */
  lemma SilentAlarmsUnchanged(a: UserAlert, now: int, price: string -> Option<real>, fetch: (string, KlineInterval) -> Option<seq<Candle>>)
    requires !a.isEnabled || CoolingDown(a, now)
    ensures Processed(a, now, price, fetch) == a
  {
  }

  /** The decisions of one run, alarm by alarm. */
  function Fires(now: int, price: string -> Option<real>, fetch: (string, KlineInterval) -> Option<seq<Candle>>): UserAlert -> Option<AlertMessage>
  {
    (a: UserAlert) => Outcome(a, now, price, fetch)
  }

  // ------------------------------------------------------------ the run loop

  /*
   * The run loop is stated over any decision function `verdict`; the
   * service's run passes `Fires(now, price, fetch)`. Only enabled alarms
   * are loaded, so a disabled alarm never fires.
   */

  class AlertTable {
    var alerts: seq<UserAlert>

    constructor(alerts: seq<UserAlert>)
      ensures this.alerts == alerts
    {
      this.alerts := alerts;
    }
  }

  /** The decision for an alarm the run loads: disabled alarms are not loaded. */
  function Decision(a: UserAlert, verdict: UserAlert -> Option<AlertMessage>): (m: Option<AlertMessage>)
    ensures m.Some? ==> a.isEnabled
  {
    if a.isEnabled then verdict(a) else None
  }

  /** The notifications of the alarms of symbol `k`, in table order. */
  function FiredIn(alerts: seq<UserAlert>, k: string, verdict: UserAlert -> Option<AlertMessage>): (r: seq<Notification>)
    ensures |r| <= |alerts|
    decreases |alerts|
  {
    if |alerts| == 0 then []
    else
      var a := alerts[|alerts| - 1];
      var init := FiredIn(alerts[..|alerts| - 1], k, verdict);
      if a.symbol == k && Decision(a, verdict).Some? then
        init + [Notification(a.userId, Decision(a, verdict).value)]
      else init
  }

  /** The notifications of the groups `ks`, group after group. */
  function FiredInGroups(alerts: seq<UserAlert>, ks: seq<string>, verdict: UserAlert -> Option<AlertMessage>): seq<Notification>
  {
    if |ks| == 0 then []
    else FiredInGroups(alerts, ks[..|ks| - 1], verdict) + FiredIn(alerts, ks[|ks| - 1], verdict)
  }

  /** Only the rows of symbol `k` decide what group `k` sends. */
  lemma {:induction false} FiredInFrame(a: seq<UserAlert>, b: seq<UserAlert>, k: string, verdict: UserAlert -> Option<AlertMessage>)
    requires |a| == |b|
    requires forall i :: 0 <= i < |a| ==> a[i].symbol == b[i].symbol
    requires forall i :: 0 <= i < |a| && a[i].symbol == k ==> a[i] == b[i]
    ensures FiredIn(a, k, verdict) == FiredIn(b, k, verdict)
    decreases |a|
  {
    if |a| > 0 {
      FiredInFrame(a[..|a| - 1], b[..|b| - 1], k, verdict);
    }
  }

  /** Notification `n` is what alarm `a`, of symbol `k`, sends. */
  predicate SentBy(a: UserAlert, k: string, verdict: UserAlert -> Option<AlertMessage>, n: Notification)
  {
    a.symbol == k && a.userId == n.userId && Decision(a, verdict) == Some(n.message)
  }

  /** Every notification of group `k` comes from an alarm of symbol `k` that fired with that message, to its owner. */
  lemma {:induction false} FiredInSound(alerts: seq<UserAlert>, k: string, verdict: UserAlert -> Option<AlertMessage>)
    ensures forall n :: n in FiredIn(alerts, k, verdict) ==> exists a :: a in alerts && SentBy(a, k, verdict, n)
    decreases |alerts|
  {
    if |alerts| > 0 {
      var init := alerts[..|alerts| - 1];
      var a := alerts[|alerts| - 1];
      FiredInSound(init, k, verdict);
      forall n | n in FiredIn(alerts, k, verdict) ensures exists b :: b in alerts && SentBy(b, k, verdict, n) {
        if n in FiredIn(init, k, verdict) {
          var b :| b in init && SentBy(b, k, verdict, n);
          assert b in alerts;
        } else {
          assert SentBy(a, k, verdict, n);
        }
      }
    }
  }

  /**
   * The alarms of symbol `k` in one pass of the run loop: each alarm of the
   * group is checked in table order and, when it fires, notified and
   * stamped with `now`.
   */
  method ProcessGroup(db: AlertTable, k: string, now: int, verdict: UserAlert -> Option<AlertMessage>)
    returns (sent: seq<Notification>)
    modifies db
    ensures |db.alerts| == |old(db.alerts)|
    ensures forall i :: 0 <= i < |db.alerts| ==>
      db.alerts[i] == if old(db.alerts[i]).symbol == k then Stamped(old(db.alerts[i]), now, Decision(old(db.alerts[i]), verdict)) else old(db.alerts[i])
    ensures sent == FiredIn(old(db.alerts), k, verdict)
  {
    var start := db.alerts;
    sent := [];
    var i := 0;
    while i < |db.alerts|
      invariant 0 <= i <= |db.alerts| == |start|
      invariant forall j :: 0 <= j < |start| ==>
        db.alerts[j] == if j < i && start[j].symbol == k then Stamped(start[j], now, Decision(start[j], verdict)) else start[j]
      invariant sent == FiredIn(start[..i], k, verdict)
    {
      var a := db.alerts[i];
      assert start[..i + 1][..i] == start[..i];
      if a.isEnabled && a.symbol == k {
        var m := verdict(a);
        if m.Some? {
          sent := sent + [Notification(a.userId, m.value)];
          db.alerts := db.alerts[i := a.(lastTriggeredAt := Some(now))];
        }
      }
      i := i + 1;
    }
    assert start[..i] == start;
  }

  predicate IsEnabled(a: UserAlert)
  {
    a.isEnabled
  }

  function Symbol(a: UserAlert): string
  {
    a.symbol
  }

  /** The symbols that have an enabled alarm, in order of first occurrence: the groups of a run. */
  function RunGroups(alerts: seq<UserAlert>): (ks: seq<string>)
    ensures Distinct(ks)
    ensures forall i :: 0 <= i < |alerts| && alerts[i].isEnabled ==> alerts[i].symbol in ks
  {
    var enabled := Filter(alerts, IsEnabled);
    assert forall i :: 0 <= i < |alerts| && alerts[i].isEnabled ==> alerts[i] in enabled;
    GroupKeys(enabled, Symbol)
  }

  /** The rows after the groups `done` were processed, and only those. */
  ghost predicate GroupsDone(cur: seq<UserAlert>, start: seq<UserAlert>, done: seq<string>, now: int, verdict: UserAlert -> Option<AlertMessage>)
  {
    |cur| == |start| &&
    forall i :: 0 <= i < |start| ==>
      cur[i] == if start[i].symbol in done then Stamped(start[i], now, Decision(start[i], verdict)) else start[i]
  }

  /** Processing one more group `k` moves `k` into the processed groups; what it sends does not depend on earlier groups. */
  lemma GroupsDoneStep(cur: seq<UserAlert>, next: seq<UserAlert>, start: seq<UserAlert>, done: seq<string>, k: string, now: int,
                       verdict: UserAlert -> Option<AlertMessage>)
    requires GroupsDone(cur, start, done, now, verdict) && k !in done
    requires |next| == |cur|
    requires forall i :: 0 <= i < |cur| ==>
      next[i] == if cur[i].symbol == k then Stamped(cur[i], now, Decision(cur[i], verdict)) else cur[i]
    ensures GroupsDone(next, start, done + [k], now, verdict)
    ensures FiredIn(cur, k, verdict) == FiredIn(start, k, verdict)
  {
    FiredInFrame(cur, start, k, verdict);
  }

  /** Row by row, `cur` is `start` after one run with decisions `verdict`. */
  predicate AllStamped(cur: seq<UserAlert>, start: seq<UserAlert>, now: int, verdict: UserAlert -> Option<AlertMessage>)
  {
    |cur| == |start| && forall i :: 0 <= i < |cur| ==> cur[i] == Stamped(start[i], now, Decision(start[i], verdict))
  }

  /** Once every group of an enabled alarm is processed, every row is processed. */
  lemma GroupsDoneAll(cur: seq<UserAlert>, start: seq<UserAlert>, ks: seq<string>, now: int, verdict: UserAlert -> Option<AlertMessage>)
    requires GroupsDone(cur, start, ks, now, verdict)
    requires forall i :: 0 <= i < |start| && start[i].isEnabled ==> start[i].symbol in ks
    ensures AllStamped(cur, start, now, verdict)
  {
  }

  /** One pass of the run loop: group `ks[j]`, given that the groups before it are done. */
  method ProcessNextGroup(db: AlertTable, ghost start: seq<UserAlert>, ks: seq<string>, j: nat, now: int,
                          verdict: UserAlert -> Option<AlertMessage>)
    returns (group: seq<Notification>)
    requires j < |ks| && Distinct(ks)
    requires GroupsDone(db.alerts, start, ks[..j], now, verdict)
    modifies db
    ensures GroupsDone(db.alerts, start, ks[..j + 1], now, verdict)
    ensures group == FiredIn(start, ks[j], verdict)
  {
    ghost var before := db.alerts;
    assert ks[j] !in ks[..j];
    group := ProcessGroup(db, ks[j], now, verdict);
    GroupsDoneStep(before, db.alerts, start, ks[..j], ks[j], now, verdict);
    assert ks[..j + 1] == ks[..j] + [ks[j]];
  }

  lemma WholePrefix<T>(s: seq<T>)
    ensures s[..|s|] == s
  {
  }

  /** The loop of a run: the groups `ks` of the enabled alarms in turn, each alarm checked once. */
  method RunGroupsLoop(db: AlertTable, ks: seq<string>, now: int, verdict: UserAlert -> Option<AlertMessage>) returns (sent: seq<Notification>)
    requires Distinct(ks)
    requires forall i :: 0 <= i < |db.alerts| && db.alerts[i].isEnabled ==> db.alerts[i].symbol in ks
    modifies db
    ensures AllStamped(db.alerts, old(db.alerts), now, verdict)
    ensures sent == FiredInGroups(old(db.alerts), ks, verdict)
  {
    var start := db.alerts;
    sent := [];
    var j := 0;
    while j < |ks|
      invariant 0 <= j <= |ks|
      invariant GroupsDone(db.alerts, start, ks[..j], now, verdict)
      invariant sent == FiredInGroups(start, ks[..j], verdict)
    {
      var group := ProcessNextGroup(db, start, ks, j, now, verdict);
      sent := sent + group;
      assert ks[..j + 1][..j] == ks[..j];
      j := j + 1;
    }
    WholePrefix(ks);
    GroupsDoneAll(db.alerts, start, ks, now, verdict);
  }

  /**
   * `ProcessAlertsAsync`: every enabled alarm is checked once, its symbol's
   * group at a time, and each one that fires is notified and stamped with
   * `now`. Every other row is left as it was.
   */
  method ProcessAlerts(db: AlertTable, now: int, price: string -> Option<real>, fetch: (string, KlineInterval) -> Option<seq<Candle>>)
    returns (sent: seq<Notification>)
    modifies db
    ensures |db.alerts| == |old(db.alerts)|
    ensures forall i :: 0 <= i < |db.alerts| ==> db.alerts[i] == Processed(old(db.alerts[i]), now, price, fetch)
    ensures sent == FiredInGroups(old(db.alerts), RunGroups(old(db.alerts)), Fires(now, price, fetch))
  {
    var ks := RunGroups(db.alerts);
    sent := RunGroupsLoop(db, ks, now, Fires(now, price, fetch));
  }

  // ------------------------------------------------------------ editing

  /** The first row with id `alertId` that belongs to `userId`. */
  function FindOwned(alerts: seq<UserAlert>, alertId: nat, userId: string): (r: Option<nat>)
    ensures r.Some? ==> r.value < |alerts| && alerts[r.value].id == alertId && alerts[r.value].userId == userId
    ensures r.Some? ==> forall k :: 0 <= k < r.value ==> !(alerts[k].id == alertId && alerts[k].userId == userId)
    ensures r.None? ==> forall k :: 0 <= k < |alerts| ==> !(alerts[k].id == alertId && alerts[k].userId == userId)
  {
    if |alerts| == 0 then None
    else if alerts[0].id == alertId && alerts[0].userId == userId then Some(0)
    else match FindOwned(alerts[1..], alertId, userId)
      case None => None
      case Some(k) => Some(k + 1)
  }

  /**
   * `UpdateAlertAsync`: only an alarm with that id owned by that user is
   * changed, and only its target, its enabled flag, its cooldown and its
   * update time. Otherwise nothing changes and the answer is null.
   */
  method UpdateAlert(db: AlertTable, userId: string, alertId: nat, targetValue: real, isEnabled: bool, cooldownMinutes: int, now: int)
    returns (r: Option<AlertDto>)
    modifies db
    ensures FindOwned(old(db.alerts), alertId, userId).None? ==> r.None? && db.alerts == old(db.alerts)
    ensures FindOwned(old(db.alerts), alertId, userId).Some? ==>
      var k := FindOwned(old(db.alerts), alertId, userId).value;
      db.alerts == old(db.alerts)[k := old(db.alerts)[k].(targetValue := targetValue, isEnabled := isEnabled,
                                                          cooldownMinutes := cooldownMinutes, updatedAt := Some(now))]
      && r == Some(ToDto(db.alerts[k], false))
    ensures |db.alerts| == |old(db.alerts)|
    ensures forall i :: 0 <= i < |db.alerts| && old(db.alerts)[i].userId != userId ==> db.alerts[i] == old(db.alerts)[i]
  {
    var found := FindOwned(db.alerts, alertId, userId);
    if found.None? {
      return None;
    }
    var k := found.value;
    var a := db.alerts[k].(targetValue := targetValue, isEnabled := isEnabled, cooldownMinutes := cooldownMinutes, updatedAt := Some(now));
    db.alerts := db.alerts[k := a];
    r := Some(ToDto(a, false));
  }

  /**
   * `DeleteAlertAsync`: removes the alarm with that id owned by that user and
   * answers true; without one nothing changes and the answer is false.
   */
  method DeleteAlert(db: AlertTable, userId: string, alertId: nat) returns (deleted: bool)
    modifies db
    ensures deleted <==> FindOwned(old(db.alerts), alertId, userId).Some?
    ensures !deleted ==> db.alerts == old(db.alerts)
    ensures deleted ==> var k := FindOwned(old(db.alerts), alertId, userId).value;
      db.alerts == old(db.alerts)[..k] + old(db.alerts)[k + 1..]
    ensures forall a :: a in old(db.alerts) && a.userId != userId ==> a in db.alerts
  {
    var found := FindOwned(db.alerts, alertId, userId);
    if found.None? {
      return false;
    }
    var k := found.value;
    ghost var before := db.alerts;
    db.alerts := db.alerts[..k] + db.alerts[k + 1..];
    forall a | a in before && a.userId != userId ensures a in db.alerts {
      var i :| 0 <= i < |before| && before[i] == a;
      if i < k {
        assert db.alerts[i] == a;
      } else {
        assert i != k;
        assert db.alerts[i - 1] == a;
      }
    }
    deleted := true;
  }

  /** `CreateAlertAsync`: a new enabled alarm with the default cooldown, never triggered. */
  method CreateAlert(db: AlertTable, userId: string, id: nat, symbol: string, kind: AlertType, targetValue: real,
                     condition: AlertCondition, indicatorName: Option<string>, timeframe: Option<string>,
                     parameters: Option<string>, now: int)
    returns (d: AlertDto)
    modifies db
    ensures db.alerts == old(db.alerts) + [UserAlert(id, userId, symbol, kind, targetValue, condition, indicatorName,
                                                      timeframe, parameters, true, None, DefaultCooldownMinutes, now, None)]
    ensures d == ToDto(db.alerts[|db.alerts| - 1], true)
  {
    var a := UserAlert(id, userId, symbol, kind, targetValue, condition, indicatorName, timeframe, parameters,
                       true, None, DefaultCooldownMinutes, now, None);
    db.alerts := db.alerts + [a];
    d := ToDto(a, true);
  }

  function CreatedAt(a: UserAlert): real
  {
    a.createdAt as real
  }

  /** Rows belonging to `userId`. */
  function OwnedBy(userId: string): UserAlert -> bool
  {
    (a: UserAlert) => a.userId == userId
  }

  function AlertDtos(s: seq<UserAlert>): (r: seq<AlertDto>)
    ensures |r| == |s| && forall j :: 0 <= j < |s| ==> r[j] == ToDto(s[j], false)
  {
    seq(|s|, j requires 0 <= j < |s| => ToDto(s[j], false))
  }

  /** `GetUserAlertsAsync`: the user's alarms, newest first, as DTOs without parameters. */
  function UserAlerts(alerts: seq<UserAlert>, userId: string): (r: seq<AlertDto>)
    ensures |r| == CountWhere(alerts, OwnedBy(userId))
    ensures forall j :: 0 <= j < |r| ==> exists a :: a in alerts && a.userId == userId && r[j] == ToDto(a, false)
    ensures forall j, k :: 0 <= j < k < |r| ==> r[j].createdAt >= r[k].createdAt
  {
    UserAlertsOwn(alerts, userId);
    UserAlertsNewestFirst(alerts, userId);
    AlertDtos(SortDesc(Filter(alerts, OwnedBy(userId)), CreatedAt))
  }

  lemma UserAlertsOwn(alerts: seq<UserAlert>, userId: string)
    ensures var r := AlertDtos(SortDesc(Filter(alerts, OwnedBy(userId)), CreatedAt));
      forall j :: 0 <= j < |r| ==> exists a :: a in alerts && a.userId == userId && r[j] == ToDto(a, false)
  {
    var owned := Filter(alerts, OwnedBy(userId));
    var ordered := SortDesc(owned, CreatedAt);
    forall j | 0 <= j < |ordered| ensures ordered[j] in alerts && ordered[j].userId == userId {
      SortDescElements(owned, CreatedAt, ordered[j]);
    }
  }

  lemma UserAlertsNewestFirst(alerts: seq<UserAlert>, userId: string)
    ensures var r := AlertDtos(SortDesc(Filter(alerts, OwnedBy(userId)), CreatedAt));
      |r| == CountWhere(alerts, OwnedBy(userId)) &&
      forall j, k :: 0 <= j < k < |r| ==> r[j].createdAt >= r[k].createdAt
  {
    var ordered := SortDesc(Filter(alerts, OwnedBy(userId)), CreatedAt);
    CountWhereIsFilterLength(alerts, OwnedBy(userId));
    forall j, k | 0 <= j < k < |ordered| ensures ToDto(ordered[j], false).createdAt >= ToDto(ordered[k], false).createdAt {
      assert CreatedAt(ordered[j]) >= CreatedAt(ordered[k]);
    }
  }
}
