/** The relative time the notification list shows beside each entry. */
module NotificationsScreen {
  import opened NotificationTypes

  /** How long ago a notification arrived, in the largest whole unit the
      list uses. */
  datatype Age = JustNow | MinutesAgo(n: nat) | HoursAgo(n: nat) | DaysAgo(n: nat)

  /** The age shown for a notification `diff` milliseconds old: whole
      minutes below an hour, whole hours below a day, whole days beyond;
      anything under a minute, a timestamp in the future included, is "just
      now". */
  function AgeOf(diff: int): (r: Age)
    ensures r.JustNow? <==> diff < MinuteMs
    ensures r.MinutesAgo? <==> MinuteMs <= diff < HourMs
    ensures r.HoursAgo? <==> HourMs <= diff < DayMs
    ensures r.DaysAgo? <==> DayMs <= diff
    ensures r.MinutesAgo? ==> 1 <= r.n < 60 && r.n * MinuteMs <= diff < (r.n + 1) * MinuteMs
    ensures r.HoursAgo? ==> 1 <= r.n < 24 && r.n * HourMs <= diff < (r.n + 1) * HourMs
    ensures r.DaysAgo? ==> 1 <= r.n && r.n * DayMs <= diff < (r.n + 1) * DayMs
  {
    var minutes := diff / MinuteMs;
    var hours := diff / HourMs;
    var days := diff / DayMs;
    if minutes < 1 then JustNow
    else if minutes < 60 then MinutesAgo(minutes)
    else if hours < 24 then HoursAgo(hours)
    else DaysAgo(days)
  }

  /** The start of the span an age stands for, in milliseconds. */
  function AgeStartMs(a: Age): int
  {
    match a
    case JustNow => 0
    case MinutesAgo(n) => n * MinuteMs
    case HoursAgo(n) => n * HourMs
    case DaysAgo(n) => n * DayMs
  }

  lemma MulMonotone(a: nat, b: nat, unit: nat)
    requires a <= b
    ensures a * unit <= b * unit
  {
  }

  /** Where the start of the span an age stands for lies: within the span of
      its unit, and never after the age itself. */
  lemma AgeStartBounds(d: int)
    ensures AgeOf(d).JustNow? ==> AgeStartMs(AgeOf(d)) == 0
    ensures AgeOf(d).MinutesAgo? ==> AgeStartMs(AgeOf(d)) <= d < HourMs
    ensures AgeOf(d).HoursAgo? ==> HourMs <= AgeStartMs(AgeOf(d)) <= d < DayMs
    ensures AgeOf(d).DaysAgo? ==> DayMs <= AgeStartMs(AgeOf(d)) <= d
  {
    var a := AgeOf(d);
    if a.HoursAgo? {
      MulMonotone(1, a.n, HourMs);
    } else if a.DaysAgo? {
      MulMonotone(1, a.n, DayMs);
    }
  }

  /** Of two ages measured in the same unit, the older has the larger count. */
  lemma CountMonotone(a: nat, b: nat, unit: nat, d1: int, d2: int)
    requires d1 <= d2 && a * unit <= d1 && d2 < (b + 1) * unit
    ensures a * unit <= b * unit
  {
    if b < a {
      MulMonotone(b + 1, a, unit);
    } else {
      MulMonotone(a, b, unit);
    }
  }

  /** An older notification never shows a younger age. */
  lemma AgeOfMonotone(d1: int, d2: int)
    requires d1 <= d2
    ensures AgeStartMs(AgeOf(d1)) <= AgeStartMs(AgeOf(d2))
  {
    var a1, a2 := AgeOf(d1), AgeOf(d2);
    AgeStartBounds(d1);
    AgeStartBounds(d2);
    if a1.MinutesAgo? && a2.MinutesAgo? {
      CountMonotone(a1.n, a2.n, MinuteMs, d1, d2);
    } else if a1.HoursAgo? && a2.HoursAgo? {
      CountMonotone(a1.n, a2.n, HourMs, d1, d2);
    } else if a1.DaysAgo? && a2.DaysAgo? {
      CountMonotone(a1.n, a2.n, DayMs, d1, d2);
    }
  }

  /** The character of a decimal digit. */
  function DigitChar(d: nat): (c: char)
    requires d < 10
    ensures '0' <= c <= '9' && c as int - '0' as int == d
  {
    ('0' as int + d) as char
  }

  predicate IsDigits(s: string)
  {
    forall i :: 0 <= i < |s| ==> '0' <= s[i] <= '9'
  }

  /** `String(n)` for a whole number: its decimal digits without leading
      zeros. */
  function Decimal(n: nat): (s: string)
    ensures 1 <= |s| && IsDigits(s)
    ensures s[0] == '0' ==> n == 0
  {
    if n < 10 then [DigitChar(n)]
    else Decimal(n / 10) + [DigitChar(n % 10)]
  }

  /** The number a string of decimal digits denotes. */
  function DecimalValue(s: string): nat
    requires IsDigits(s)
  {
    if s == [] then 0
    else DecimalValue(s[..|s| - 1]) * 10 + (s[|s| - 1] as int - '0' as int)
  }

  /** Reading back the digits of a number gives the number. */
  lemma {:induction false} DecimalRoundTrip(n: nat)
    ensures DecimalValue(Decimal(n)) == n
  {
    if n >= 10 {
      var s := Decimal(n);
      assert s[..|s| - 1] == Decimal(n / 10);
      DecimalRoundTrip(n / 10);
    }
  }

  /** The digits of `n` followed by a unit letter: the letter is last and
      the digits before it read back as `n`. */
  lemma DecimalThen(n: nat, unit: char)
    ensures var s := Decimal(n) + [unit];
      s[|s| - 1] == unit && s[..|s| - 1] == Decimal(n) && DecimalValue(s[..|s| - 1]) == n
  {
    var s := Decimal(n) + [unit];
    assert s[..|s| - 1] == Decimal(n);
    DecimalRoundTrip(n);
  }

  /** The text of an age: "Ahora", or the count followed by m, h or d. */
  function Label(a: Age): (s: string)
    ensures 2 <= |s|
    ensures a.JustNow? <==> s == "Ahora"
    ensures !a.JustNow? ==> IsDigits(s[..|s| - 1]) && DecimalValue(s[..|s| - 1]) == a.n
    ensures a.MinutesAgo? ==> s[|s| - 1] == 'm'
    ensures a.HoursAgo? ==> s[|s| - 1] == 'h'
    ensures a.DaysAgo? ==> s[|s| - 1] == 'd'
  {
    match a
    case JustNow => "Ahora"
    case MinutesAgo(n) => DecimalThen(n, 'm'); Decimal(n) + "m"
    case HoursAgo(n) => DecimalThen(n, 'h'); Decimal(n) + "h"
    case DaysAgo(n) => DecimalThen(n, 'd'); Decimal(n) + "d"
  }

  /** Different ages never read the same. */
  lemma LabelInjective(a: Age, b: Age)
    requires Label(a) == Label(b)
    ensures a == b
  {
  }

  /** `formatTime`: the label for a notification stamped `timestamp` as
      seen at time `now`. */
  function FormatTime(now: int, timestamp: int): (s: string)
    ensures s == "Ahora" <==> now - timestamp < MinuteMs
  {
    Label(AgeOf(now - timestamp))
  }

  /** A span of `unit` milliseconds holds one whole count only. */
  lemma UnitCountUnique(a: nat, b: nat, unit: nat, d: int)
    requires a * unit <= d < (a + 1) * unit && b * unit <= d < (b + 1) * unit
    ensures a == b
  {
    if a < b {
      MulMonotone(a + 1, b, unit);
    } else if b < a {
      MulMonotone(b + 1, a, unit);
    }
  }

  /** Between one minute and one hour, the label is the whole number of
      minutes followed by "m". */
  lemma FormatTimeMinutes(now: int, timestamp: int, m: nat)
    requires 1 <= m < 60 && m * MinuteMs <= now - timestamp < (m + 1) * MinuteMs
    ensures FormatTime(now, timestamp) == Decimal(m) + "m"
  {
    var r := AgeOf(now - timestamp);
    UnitCountUnique(r.n, m, MinuteMs, now - timestamp);
  }

  /** Between one hour and one day, the label is the whole number of hours
      followed by "h". */
  lemma FormatTimeHours(now: int, timestamp: int, h: nat)
    requires 1 <= h < 24 && h * HourMs <= now - timestamp < (h + 1) * HourMs
    ensures FormatTime(now, timestamp) == Decimal(h) + "h"
  {
    var r := AgeOf(now - timestamp);
    UnitCountUnique(r.n, h, HourMs, now - timestamp);
  }

  /** From one day on, the label is the whole number of days followed by
      "d". */
  lemma FormatTimeDays(now: int, timestamp: int, days: nat)
    requires 1 <= days && days * DayMs <= now - timestamp < (days + 1) * DayMs
    ensures FormatTime(now, timestamp) == Decimal(days) + "d"
  {
    var r := AgeOf(now - timestamp);
    UnitCountUnique(r.n, days, DayMs, now - timestamp);
  }
}
