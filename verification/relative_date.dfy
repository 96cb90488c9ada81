/**
 * Relative date labels of lib/helpers/date.ts.  Instants are integer milliseconds since
 * the epoch; the clock reading `now` is a parameter.  Calendar and locale work
 * (`getFullYear`, `toLocaleDateString`, `toLocaleTimeString`) is left opaque as the
 * functions of a `Locale` value.
 */
module RelativeDate {
  import Decimal

  const HourInMs := 1000 * 60 * 60
  const HoursInDay := 24
  const HoursInTwoDays := 48
  const DaysInWeek := 7

  /** The locale-dependent pieces the source delegates to the runtime. */
  datatype Locale = Locale(
    yearOf: int -> int,               // Date.getFullYear in the local time zone
    dateString: (int, bool) -> string, // toLocaleDateString "en-US", short month and day, year when asked
    timeString: int -> string)         // toLocaleTimeString "en-US", hour and 2-digit minute, 12-hour clock

  /** Whole hours elapsed from `dateMs` to `nowMs`, rounded down (negative for a future date). */
  function HoursDifference(dateMs: int, nowMs: int): (hours: int)
    ensures hours * HourInMs <= nowMs - dateMs < (hours + 1) * HourInMs
  {
    (nowMs - dateMs) / HourInMs
  }

  /** Whole days in an hour count, rounded down. */
  function DaysDifference(hours: int): (days: int)
    ensures days * HoursInDay <= hours < (days + 1) * HoursInDay
  {
    hours / HoursInDay
  }

  /** The kind of label chosen for an elapsed hour count. */
  datatype Bucket =
    | JustNow
    | HoursAgo(hours: int)
    | Yesterday
    | DaysAgo(days: int)
    | AbsoluteDate(withYear: bool)

  /** The decision of `getRelativeDateString`, separated from rendering. */
  function Classify(diffInHours: int, dateYear: int, nowYear: int): (b: Bucket)
    ensures b.HoursAgo? ==> 1 <= b.hours < HoursInDay && b.hours == diffInHours
    ensures b.DaysAgo? ==> 2 <= b.days < DaysInWeek
    ensures b.AbsoluteDate? ==> (b.withYear <==> dateYear != nowYear)
  {
    if diffInHours < 1 then JustNow
    else if diffInHours < HoursInDay then HoursAgo(diffInHours)
    else if diffInHours < HoursInTwoDays then Yesterday
    else
      var diffInDays := DaysDifference(diffInHours);
      if diffInDays < DaysInWeek then DaysAgo(diffInDays)
      else AbsoluteDate(dateYear != nowYear)
  }

  function Render(b: Bucket, dateMs: int, loc: Locale): string {
    match b
    case JustNow => "just now"
    case HoursAgo(h) => Decimal.IntToString(h) + "h ago"
    case Yesterday => "yesterday"
    case DaysAgo(d) => Decimal.IntToString(d) + "d ago"
    case AbsoluteDate(withYear) => loc.dateString(dateMs, withYear)
  }

  /** The label for an elapsed hour count, stated on the hour count alone (a week is 168 hours). */
  function RelativeDateString(diffInHours: int, dateMs: int, nowMs: int, loc: Locale): (s: string)
    ensures diffInHours < 1 ==> s == "just now"
    ensures 1 <= diffInHours < 24 ==> s == Decimal.IntToString(diffInHours) + "h ago"
    ensures 24 <= diffInHours < 48 ==> s == "yesterday"
    ensures 48 <= diffInHours < 168 ==> s == Decimal.IntToString(diffInHours / 24) + "d ago"
    ensures 168 <= diffInHours ==> s == loc.dateString(dateMs, loc.yearOf(dateMs) != loc.yearOf(nowMs))
  {
    Render(Classify(diffInHours, loc.yearOf(dateMs), loc.yearOf(nowMs)), dateMs, loc)
  }

  function AppendTimeIfRequested(result: string, dateMs: int, includeTime: bool, loc: Locale): (r: string)
    ensures !includeTime ==> r == result
    ensures includeTime ==> r == result + " (" + loc.timeString(dateMs) + ")"
  {
    if !includeTime then result else result + " (" + loc.timeString(dateMs) + ")"
  }

  function FormatRelativeDate(dateMs: int, nowMs: int, includeTime: bool, loc: Locale): (r: string)
    ensures var bucketText := RelativeDateString(HoursDifference(dateMs, nowMs), dateMs, nowMs, loc);
      |bucketText| <= |r| && r[..|bucketText|] == bucketText
  {
    AppendTimeIfRequested(RelativeDateString(HoursDifference(dateMs, nowMs), dateMs, nowMs, loc), dateMs, includeTime, loc)
  }

  /** Order of the buckets from most to least recent. */
  function Rank(b: Bucket): nat {
    match b
    case JustNow => 0
    case HoursAgo(_) => 1
    case Yesterday => 2
    case DaysAgo(_) => 3
    case AbsoluteDate(_) => 4
  }

  /**
   * The buckets stated directly on the elapsed milliseconds: under an hour (or in the
   * future), under a day, under two days, under a week, and a week or more.
   */
  lemma {:induction false} BucketByElapsedMs(dateMs: int, nowMs: int, dateYear: int, nowYear: int)
    ensures var elapsed, b := nowMs - dateMs, Classify(HoursDifference(dateMs, nowMs), dateYear, nowYear);
      && (b == JustNow <==> elapsed < HourInMs)
      && (b.HoursAgo? <==> HourInMs <= elapsed < 24 * HourInMs)
      && (b.HoursAgo? ==> b.hours == elapsed / HourInMs)
      && (b == Yesterday <==> 24 * HourInMs <= elapsed < 48 * HourInMs)
      && (b.DaysAgo? <==> 48 * HourInMs <= elapsed < 168 * HourInMs)
      && (b.DaysAgo? ==> b.days == elapsed / (24 * HourInMs))
      && (b.AbsoluteDate? <==> 168 * HourInMs <= elapsed)
  {
    var elapsed := nowMs - dateMs;
    var hours := HoursDifference(dateMs, nowMs);
    var days := DaysDifference(hours);
    // a whole number of days of hours is the same as a whole number of days of milliseconds
    assert days * (24 * HourInMs) <= elapsed < (days + 1) * (24 * HourInMs);
  }

  /** An older date never gets a more recent kind of label. */
  lemma {:induction false} ClassifyMonotonic(dateYear: int, nowYear: int, h1: int, h2: int)
    requires h1 <= h2
    ensures Rank(Classify(h1, dateYear, nowYear)) <= Rank(Classify(h2, dateYear, nowYear))
  {
  }

  /** Without `includeTime` the result is the bucket label; with it, the time follows in parentheses. */
  lemma FormatWithTime(dateMs: int, nowMs: int, loc: Locale)
    ensures var bucketText := RelativeDateString(HoursDifference(dateMs, nowMs), dateMs, nowMs, loc);
      && FormatRelativeDate(dateMs, nowMs, false, loc) == bucketText
      && FormatRelativeDate(dateMs, nowMs, true, loc) == bucketText + " (" + loc.timeString(dateMs) + ")"
  {
  }

  /** Ninety minutes ago reads "1h ago"; fifty hours ago reads "2d ago". */
  lemma Examples(nowMs: int, loc: Locale)
    ensures FormatRelativeDate(nowMs - 90 * 60 * 1000, nowMs, false, loc) == "1h ago"
    ensures FormatRelativeDate(nowMs - 50 * HourInMs, nowMs, false, loc) == "2d ago"
    ensures FormatRelativeDate(nowMs + 5 * HourInMs, nowMs, false, loc) == "just now"
  {
  }
}
