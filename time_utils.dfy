/** Game duration and relative-time labels.  Durations and timestamps are whole numbers
    (seconds and milliseconds); the current time is a parameter instead of `Date.now()`. */
module TimeUtils {
  import opened Strings

  /** JavaScript's `%`: the remainder takes the sign of the dividend. */
  function JsRem(a: int, b: int): (r: int)
    requires b > 0
    ensures a >= 0 ==> 0 <= r < b
    ensures a < 0 ==> -b < r <= 0
  {
    if a >= 0 then a % b else -((-a) % b)
  }

  /** `Math.floor(d / 60)` and `d % 60`. */
  datatype Duration = Duration(minutes: int, seconds: int)

  function DurationParts(durationInSeconds: int): (d: Duration)
    ensures durationInSeconds >= 0 ==>
      0 <= d.seconds < 60 && 60 * d.minutes + d.seconds == durationInSeconds && d.minutes >= 0
  {
    Duration(durationInSeconds / 60, JsRem(durationInSeconds, 60))
  }

  /** "<minutes>m <seconds>s". */
  function FormatGameDuration(durationInSeconds: int): (text: string)
    ensures durationInSeconds >= 0 ==>
      text == NatToString(durationInSeconds / 60) + "m " + NatToString(durationInSeconds % 60) + "s"
  {
    var d := DurationParts(durationInSeconds);
    IntToString(d.minutes) + "m " + IntToString(d.seconds) + "s"
  }

  /** The label of a non-negative duration determines it: two durations with the same label
      are the same duration. */
  lemma FormatGameDurationInjective(a: int, b: int)
    requires a >= 0 && b >= 0
    requires FormatGameDuration(a) == FormatGameDuration(b)
    ensures a == b
  {
    var da, db := DurationParts(a), DurationParts(b);
    var ma, mb := NatToString(da.minutes), NatToString(db.minutes);
    var sa, sb := NatToString(da.seconds), NatToString(db.seconds);
    var fa := FormatGameDuration(a);
    assert fa == ma + "m " + sa + "s";
    assert FormatGameDuration(b) == mb + "m " + sb + "s";
    // the minutes are the digits before the first 'm'
    MinutesPrefix(ma, sa);
    MinutesPrefix(mb, sb);
    assert fa[..|ma|] == ma;
    assert fa[..|mb|] == mb;
    NatToStringInjective(da.minutes, db.minutes);
    assert fa[|ma| + 2..|fa| - 1] == sa;
    assert fa[|mb| + 2..|fa| - 1] == sb;
    NatToStringInjective(da.seconds, db.seconds);
  }

  lemma MinutesPrefix(m: string, s: string)
    requires AllAsciiDigits(m)
    ensures IndexOf(m + "m " + s + "s", 'm') == |m|
  {
    var f := m + "m " + s + "s";
    assert f[|m|] == 'm';
    assert f[..|m|] == m;
    assert 'm' !in m;
  }

  /** The relative-time label: its band and the count shown in it. */
  datatype TimeAgo = JustNow | MinutesAgo(n: int) | HoursAgo(n: int) | DaysAgo(n: int) | MonthsAgo(n: int)

  /** The band of an age in whole seconds; each band after "Just now" shows a count of at
      least one, and a count below the next band's unit. */
  function TimeAgoOf(diffInSeconds: int): (t: TimeAgo)
    ensures t == JustNow <==> diffInSeconds < 60
    ensures t.MinutesAgo? <==> 60 <= diffInSeconds < 3600
    ensures t.HoursAgo? <==> 3600 <= diffInSeconds < 86400
    ensures t.DaysAgo? <==> 86400 <= diffInSeconds < 2592000
    ensures t.MonthsAgo? <==> 2592000 <= diffInSeconds
    ensures t.MinutesAgo? ==> 1 <= t.n < 60 && t.n == diffInSeconds / 60
    ensures t.HoursAgo? ==> 1 <= t.n < 24 && t.n == diffInSeconds / 3600
    ensures t.DaysAgo? ==> 1 <= t.n < 30 && t.n == diffInSeconds / 86400
    ensures t.MonthsAgo? ==> 1 <= t.n && t.n == diffInSeconds / 2592000
  {
    if diffInSeconds < 60 then JustNow
    else if diffInSeconds < 3600 then MinutesAgo(diffInSeconds / 60)
    else if diffInSeconds < 86400 then HoursAgo(diffInSeconds / 3600)
    else if diffInSeconds < 2592000 then DaysAgo(diffInSeconds / 86400)
    else MonthsAgo(diffInSeconds / 2592000)
  }

  /** The label of a band: "Just now", or the count followed by the band's unit and " ago". */
  function Render(t: TimeAgo): (text: string)
    ensures text == "Just now" <==> t.JustNow?
    ensures !t.JustNow? ==> |text| > 4 && text[|text| - 4..] == " ago"
    ensures !t.JustNow? ==> |text| > |IntToString(t.n)| && text[..|IntToString(t.n)|] == IntToString(t.n)
    ensures t.MinutesAgo? ==> text == IntToString(t.n) + "m ago"
    ensures t.HoursAgo? ==> text == IntToString(t.n) + "h ago"
    ensures t.DaysAgo? ==> text == IntToString(t.n) + "d ago"
    ensures t.MonthsAgo? ==> text == IntToString(t.n) + "mo ago"
  {
    if t.JustNow? then "Just now"
    else
      var unit := match t
        case MinutesAgo(_) => "m"
        case HoursAgo(_) => "h"
        case DaysAgo(_) => "d"
        case _ => "mo";
      var text := IntToString(t.n) + unit + " ago";
      assert text[0] == IntToString(t.n)[0] != 'J';
      text
  }

  /** The age of `timestamp` at `now` (both in milliseconds), in whole seconds rounded down,
      labelled by its band.  A timestamp in the future is "Just now". */
  function FormatTimeAgo(timestamp: int, now: int): (text: string)
    ensures text == "Just now" <==> now - timestamp < 60000
    ensures 60000 <= now - timestamp < 3600000 ==>
              text == IntToString((now - timestamp) / 60000) + "m ago"
    ensures 3600000 <= now - timestamp < 86400000 ==>
              text == IntToString((now - timestamp) / 3600000) + "h ago"
    ensures 86400000 <= now - timestamp < 2592000000 ==>
              text == IntToString((now - timestamp) / 86400000) + "d ago"
    ensures 2592000000 <= now - timestamp ==>
              text == IntToString((now - timestamp) / 2592000000) + "mo ago"
  {
    var t := TimeAgoOf((now - timestamp) / 1000);
    SecondsThenUnit(now - timestamp);
    assert t != JustNow ==> Render(t)[0] != 'J' by {
      if t != JustNow {
        assert Render(t)[0] == IntToString(t.n)[0];
      }
    }
    Render(t)
  }

  /** Rounding milliseconds down to seconds, then seconds down to a unit, is rounding
      milliseconds down to that unit. */
  lemma SecondsThenUnit(ms: int)
    ensures (ms / 1000) / 60 == ms / 60000
    ensures (ms / 1000) / 3600 == ms / 3600000
    ensures (ms / 1000) / 86400 == ms / 86400000
    ensures (ms / 1000) / 2592000 == ms / 2592000000
  {
  }

  /** An older timestamp is never shown in an earlier band. */
  lemma TimeAgoMonotone(a: int, b: int)
    requires a <= b
    ensures Band(TimeAgoOf(a)) <= Band(TimeAgoOf(b))
  {
  }

  function Band(t: TimeAgo): nat {
    match t
    case JustNow => 0
    case MinutesAgo(_) => 1
    case HoursAgo(_) => 2
    case DaysAgo(_) => 3
    case MonthsAgo(_) => 4
  }
}
