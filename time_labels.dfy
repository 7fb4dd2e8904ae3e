/**
 * `formatTime`: how long ago a session was saved, in whole minutes, hours or
 * days. The current time is a parameter instead of the ambient clock.
 */
module TimeLabels {
  import opened JsText

  const MINUTE: int := 60000
  const HOUR: int := 3600000
  const DAY: int := 86400000

  /** The bucket a timestamp falls in, with its whole count of units. */
  datatype Age = JustNow | MinutesAgo(n: nat) | HoursAgo(n: nat) | DaysAgo(n: nat)

  /** The age of `ts` at `now`; each count is the floor of the difference
    * divided by its unit, and every bucket covers the range the label names. */
  function AgeOf(ts: int, now: int): (a: Age)
    ensures a.JustNow? <==> now - ts < MINUTE
    ensures a.MinutesAgo? <==> MINUTE <= now - ts < HOUR
    ensures a.HoursAgo? <==> HOUR <= now - ts < DAY
    ensures a.DaysAgo? <==> DAY <= now - ts
    ensures a.MinutesAgo? ==> 1 <= a.n < 60 && a.n * MINUTE <= now - ts < (a.n + 1) * MINUTE
    ensures a.HoursAgo? ==> 1 <= a.n < 24 && a.n * HOUR <= now - ts < (a.n + 1) * HOUR
    ensures a.DaysAgo? ==> 1 <= a.n && a.n * DAY <= now - ts < (a.n + 1) * DAY
  {
    var diff := now - ts;
    if diff < MINUTE then JustNow
    else if diff < HOUR then MinutesAgo(diff / MINUTE)
    else if diff < DAY then HoursAgo(diff / HOUR)
    else DaysAgo(diff / DAY)
  }

  // "Just now"
  const JUST_NOW: JsString := [74, 117, 115, 116, 32, 110, 111, 119]
  // "m ago"
  const MINUTES_SUFFIX: JsString := [109, 32, 97, 103, 111]
  // "h ago"
  const HOURS_SUFFIX: JsString := [104, 32, 97, 103, 111]
  // "d ago"
  const DAYS_SUFFIX: JsString := [100, 32, 97, 103, 111]

  function Label(a: Age): JsString
  {
    match a
    case JustNow => JUST_NOW
    case MinutesAgo(n) => NatToDecimal(n) + MINUTES_SUFFIX
    case HoursAgo(n) => NatToDecimal(n) + HOURS_SUFFIX
    case DaysAgo(n) => NatToDecimal(n) + DAYS_SUFFIX
  }

  /** `formatTime(ts)` with `now` as the current time: "Just now" exactly for
    * timestamps less than a minute old (future ones included), otherwise a
    * digit run followed by the suffix naming the bucket's unit. */
  function FormatTime(ts: int, now: int): (r: JsString)
    ensures r != []
    ensures r == JUST_NOW <==> now - ts < MINUTE
    ensures MINUTE <= now - ts ==> |r| > |MINUTES_SUFFIX| && IsDigit(r[0])
    ensures MINUTE <= now - ts < HOUR ==> r[|r| - |MINUTES_SUFFIX|..] == MINUTES_SUFFIX
    ensures HOUR <= now - ts < DAY ==> r[|r| - |HOURS_SUFFIX|..] == HOURS_SUFFIX
    ensures DAY <= now - ts ==> r[|r| - |DAYS_SUFFIX|..] == DAYS_SUFFIX
  {
    var a := AgeOf(ts, now);
    assert !a.JustNow? ==> Label(a)[0] == NatToDecimal(a.n)[0];
    Label(a)
  }

  /** Everything before the unit suffix is the count of the bucket, in
    * decimal digits without a leading zero. */
  lemma FormatTimeCount(ts: int, now: int)
    requires MINUTE <= now - ts
    ensures var r := FormatTime(ts, now);
      && AllDigits(r[..|r| - |MINUTES_SUFFIX|]) && r[0] != '0' as int
      && DecimalValue(r[..|r| - |MINUTES_SUFFIX|]) == AgeOf(ts, now).n
  {
    var a := AgeOf(ts, now);
    var d := NatToDecimal(a.n);
    var r := FormatTime(ts, now);
    assert r[..|r| - |MINUTES_SUFFIX|] == d;
    DecimalRoundTrip(a.n);
  }
}
