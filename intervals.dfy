/**
 * The exchange's candle intervals and the short codes ("1m", "4h", "1d")
 * the clients send for them. Each service maps codes to intervals with its
 * own table and its own fallback; those tables live with the services.
 */
module Intervals {

  datatype KlineInterval =
    | OneMinute | ThreeMinutes | FiveMinutes | FifteenMinutes | ThirtyMinutes
    | OneHour | TwoHour | FourHour | SixHour | EightHour | TwelveHour
    | OneDay | OneWeek

  /** The code a client uses for each interval. */
  function Code(k: KlineInterval): (c: string)
  {
    match k
    case OneMinute => "1m"
    case ThreeMinutes => "3m"
    case FiveMinutes => "5m"
    case FifteenMinutes => "15m"
    case ThirtyMinutes => "30m"
    case OneHour => "1h"
    case TwoHour => "2h"
    case FourHour => "4h"
    case SixHour => "6h"
    case EightHour => "8h"
    case TwelveHour => "12h"
    case OneDay => "1d"
    case OneWeek => "1w"
  }

  /** The length of one candle, in minutes. */
  function Minutes(k: KlineInterval): (m: nat)
    ensures m > 0
  {
    match k
    case OneMinute => 1
    case ThreeMinutes => 3
    case FiveMinutes => 5
    case FifteenMinutes => 15
    case ThirtyMinutes => 30
    case OneHour => 60
    case TwoHour => 120
    case FourHour => 240
    case SixHour => 360
    case EightHour => 480
    case TwelveHour => 720
    case OneDay => 1440
    case OneWeek => 10080
  }

  /** Different intervals have different codes. */
  lemma CodeInjective(a: KlineInterval, b: KlineInterval)
    requires Code(a) == Code(b)
    ensures a == b
  {
  }
}
