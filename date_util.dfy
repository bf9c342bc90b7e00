/** The date helpers of src/utils/date.ts, over integer milliseconds.
    The clock (`Date.now()`, `new Date()`) is the parameter `nowMs`; the
    date being described is `thenMs` (a parsed `Date` as its epoch time). */
module DateUtil {
  import opened Common

  /** `Math.floor(a / d)` for a positive divisor. Dafny's `/` is Euclidean,
      which coincides with flooring when the divisor is positive. */
  function FloorDiv(a: int, d: int): (q: int)
    requires d > 0
    ensures q * d <= a < q * d + d
  {
    a / d
  }

  /** JavaScript's `a % d`: the remainder takes the sign of the dividend. */
  function JsRem(a: int, d: int): (r: int)
    requires d > 0
    ensures a >= 0 ==> 0 <= r < d
    ensures a < 0 ==> -d < r <= 0
    ensures a >= 0 ==> a == (a / d) * d + r
    ensures a < 0 ==> a == -((-a) / d) * d + r
  {
    if a >= 0 then a % d else -((-a) % d)
  }

  /** What getTimeAgo prints, before `${}` rendering. */
  datatype TimeAgoLabel = JustNow | MinutesAgo(n: int) | HoursAgo(n: int) | DaysAgo(n: int) | LocaleDate
  {
    /** The printed text; `localeDate` is what `toLocaleDateString()` gives. */
    function Text(localeDate: string): string
    {
      match this
      case JustNow => "just now"
      case MinutesAgo(n) => Signed(n) + "m ago"
      case HoursAgo(n) => Signed(n) + "h ago"
      case DaysAgo(n) => Signed(n) + "d ago"
      case LocaleDate => localeDate
    }
  }

  /** getTimeAgo: elapsed whole seconds are bucketed at one minute, one hour,
      one day and one week. Under a minute (including dates in the future)
      reads "just now"; from a week on, the locale date is shown. */
  function TimeAgo(nowMs: int, thenMs: int): (r: TimeAgoLabel)
    ensures r.JustNow? <==> nowMs - thenMs < 60000
    ensures r.MinutesAgo? ==> 1 <= r.n <= 59 && 60000 <= nowMs - thenMs < 3600000
    ensures r.HoursAgo? ==> 1 <= r.n <= 23 && 3600000 <= nowMs - thenMs < 86400000
    ensures r.DaysAgo? ==> 1 <= r.n <= 6 && 86400000 <= nowMs - thenMs < 604800000
    ensures r.LocaleDate? <==> nowMs - thenMs >= 604800000
  {
    var seconds := FloorDiv(nowMs - thenMs, 1000);
    if seconds < 60 then JustNow
    else if seconds < 3600 then MinutesAgo(FloorDiv(seconds, 60))
    else if seconds < 86400 then HoursAgo(FloorDiv(seconds, 3600))
    else if seconds < 604800 then DaysAgo(FloorDiv(seconds, 86400))
    else LocaleDate
  }

  /** The count shown is the number of whole units elapsed. */
  lemma TimeAgoCountsWholeUnits(nowMs: int, thenMs: int)
    ensures TimeAgo(nowMs, thenMs).MinutesAgo? ==> TimeAgo(nowMs, thenMs).n == (nowMs - thenMs) / 60000
    ensures TimeAgo(nowMs, thenMs).HoursAgo? ==> TimeAgo(nowMs, thenMs).n == (nowMs - thenMs) / 3600000
    ensures TimeAgo(nowMs, thenMs).DaysAgo? ==> TimeAgo(nowMs, thenMs).n == (nowMs - thenMs) / 86400000
  {
    var e := nowMs - thenMs;
    var seconds := FloorDiv(e, 1000);
    assert seconds * 1000 <= e < seconds * 1000 + 1000;
    assert (seconds / 60) * 60000 <= e < (seconds / 60) * 60000 + 60000;
    assert (seconds / 3600) * 3600000 <= e < (seconds / 3600) * 3600000 + 3600000;
    assert (seconds / 86400) * 86400000 <= e < (seconds / 86400) * 86400000 + 86400000;
  }

  /** What formatScheduledTime prints, before `${}` rendering. */
  datatype ScheduledLabel = StartingSoon | InDays(days: int, hours: int) | InHours(hours: int, minutes: int) | InMinutes(minutes: int)
  {
    function Text(): string
    {
      match this
      case StartingSoon => "Starting soon"
      case InDays(d, h) => "in " + Signed(d) + "d " + Signed(h) + "h"
      case InHours(h, m) => "in " + Signed(h) + "h " + Signed(m) + "m"
      case InMinutes(m) => "in " + Signed(m) + "m"
    }
  }

  /** `${n}` for an integer. */
  function Signed(n: int): string
  {
    if n >= 0 then Decimal(n) else "-" + Decimal(-n)
  }

  /** formatScheduledTime (the date.ts version, with its `diff <= 0` guard).
      Days come with the hours left over (hours % 24, so 0..23), hours with the
      minutes left over (0..59); anything under a minute is "Starting soon". */
  function FormatScheduledTime(scheduledMs: int, nowMs: int): (r: ScheduledLabel)
    ensures r.StartingSoon? <==> scheduledMs - nowMs < 60000
    ensures r.InDays? ==> r.days >= 1 && 0 <= r.hours <= 23
    ensures r.InHours? ==> 1 <= r.hours <= 23 && 0 <= r.minutes <= 59
    ensures r.InMinutes? ==> 1 <= r.minutes <= 59
  {
    var diff := scheduledMs - nowMs;
    if diff <= 0 then StartingSoon
    else
      var minutes := FloorDiv(diff, 60000);
      var hours := FloorDiv(minutes, 60);
      var days := FloorDiv(hours, 24);
      if days > 0 then InDays(days, JsRem(hours, 24))
      else if hours > 0 then InHours(hours, JsRem(minutes, 60))
      else if minutes > 0 then InMinutes(minutes)
      else StartingSoon
  }

  /** A scheduled time at least a day away shows its whole days and the
      remaining whole hours, which together never exceed the time left. */
  lemma ScheduledDaysAndHours(scheduledMs: int, nowMs: int)
    requires FormatScheduledTime(scheduledMs, nowMs).InDays?
    ensures var r := FormatScheduledTime(scheduledMs, nowMs);
      (r.days * 24 + r.hours) * 3600000 <= scheduledMs - nowMs < (r.days * 24 + r.hours + 1) * 3600000
  {
    var diff := scheduledMs - nowMs;
    var minutes := diff / 60000;
    var hours := minutes / 60;
    assert minutes * 60000 <= diff < minutes * 60000 + 60000;
    assert hours * 3600000 <= diff < hours * 3600000 + 3600000;
    assert hours == (hours / 24) * 24 + hours % 24;
  }

  /** Under a day away, the hours and leftover minutes shown, or the
      minutes alone, are the whole minutes remaining: never more than the
      time left, and less than one minute short of it. */
  lemma ScheduledHoursAndMinutes(scheduledMs: int, nowMs: int)
    ensures var r := FormatScheduledTime(scheduledMs, nowMs);
      r.InHours? ==> (r.hours * 60 + r.minutes) * 60000 <= scheduledMs - nowMs < (r.hours * 60 + r.minutes + 1) * 60000
    ensures var r := FormatScheduledTime(scheduledMs, nowMs);
      r.InMinutes? ==> r.minutes * 60000 <= scheduledMs - nowMs < (r.minutes + 1) * 60000
  {
    var diff := scheduledMs - nowMs;
    if diff > 0 {
      var minutes := diff / 60000;
      assert minutes * 60000 <= diff < minutes * 60000 + 60000;
      assert minutes == (minutes / 60) * 60 + minutes % 60;
    }
  }

  /** isPast: strictly before now. */
  predicate IsPast(thenMs: int, nowMs: int)
    ensures thenMs == nowMs ==> !IsPast(thenMs, nowMs)
    ensures IsPast(thenMs, nowMs) ==> forall hours: real :: !IsWithinHours(thenMs, nowMs, hours)
  {
    thenMs < nowMs
  }

  /** isWithinHours: strictly in the future and no more than `hours` hours
      away. `hours` is any JavaScript number, so a fraction of an hour is a
      window too; the product is taken exactly. */
  predicate IsWithinHours(thenMs: int, nowMs: int, hours: real)
    ensures IsWithinHours(thenMs, nowMs, hours) ==> thenMs > nowMs && hours > 0.0
  {
    var diff := thenMs - nowMs;
    diff > 0 && diff as real <= hours * 60.0 * 60.0 * 1000.0
  }

  /** A time within the next hours is in the future, hence not past, and the
      window is non-empty only for a positive number of hours. */
  lemma WithinHoursIsFuture(thenMs: int, nowMs: int, hours: real)
    requires IsWithinHours(thenMs, nowMs, hours)
    ensures 0 < thenMs - nowMs && (thenMs - nowMs) as real <= hours * 3600000.0
    ensures !IsPast(thenMs, nowMs)
    ensures hours > 0.0
  {
  }

  /** A fractional window counts: ten minutes ahead is within half an hour,
      and no time is within a window of zero or fewer hours. */
  lemma FractionalWindow(nowMs: int, hours: real)
    ensures IsWithinHours(nowMs + 600000, nowMs, 0.5)
    ensures hours <= 0.0 ==> forall thenMs: int :: !IsWithinHours(thenMs, nowMs, hours)
  {
  }
}
