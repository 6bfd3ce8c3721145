/**
 * dateUtils.ts: `formatDate` and `getRelativeTime`.
 *
 * `new Date(s).getTime()` is given as `parse`, which yields `None` for the
 * NaN of an unparsable string and the instant in milliseconds otherwise;
 * `Intl.DateTimeFormat` is given as `format`; the clock reading is `nowMs`.
 */
module DateUtils {
  import opened Wrappers
  import opened Text

  const InvalidDate := "Invalid date"

  /** `formatDate`: the invalid-date guard, then the locale rendering. */
  function FormatDate(dateString: string, parse: string -> Option<int>, format: int -> string): (r: string)
    ensures parse(dateString).None? ==> r == InvalidDate
    ensures parse(dateString).Some? ==> r == format(parse(dateString).value)
  {
    match parse(dateString)
    case None => InvalidDate
    case Some(ms) => format(ms)
  }

  const SecondsPerMinute := 60
  const SecondsPerHour := 3600
  const SecondsPerDay := 86400
  const SecondsPerWeek := 604800

  /** The bucket a difference falls into, with the count shown. */
  datatype Bucket = Seconds(n: int) | Minutes(n: int) | Hours(n: int) | Days(n: int) | OlderThanAWeek

  /** The chain of floors in `getRelativeTime`, on the difference in
      milliseconds (Dafny's `/` by a positive divisor is `Math.floor`). */
  function BucketOf(diffMs: int): Bucket {
    var seconds := diffMs / 1000;
    if seconds < 60 then Seconds(seconds)
    else
      var minutes := seconds / 60;
      if minutes < 60 then Minutes(minutes)
      else
        var hours := minutes / 60;
        if hours < 24 then Hours(hours)
        else
          var days := hours / 24;
          if days < 7 then Days(days) else OlderThanAWeek
  }

  /** The nested floors are the direct quotients of the whole seconds, and
      the thresholds are one minute, one hour, one day and one week. */
  lemma BucketByDirectDivision(diffMs: int)
    ensures var s := diffMs / 1000; var b := BucketOf(diffMs);
      (b.Seconds? <==> s < SecondsPerMinute) && (b.Seconds? ==> b.n == s) &&
      (b.Minutes? <==> SecondsPerMinute <= s < SecondsPerHour) && (b.Minutes? ==> b.n == s / SecondsPerMinute) &&
      (b.Hours? <==> SecondsPerHour <= s < SecondsPerDay) && (b.Hours? ==> b.n == s / SecondsPerHour) &&
      (b.Days? <==> SecondsPerDay <= s < SecondsPerWeek) && (b.Days? ==> b.n == s / SecondsPerDay) &&
      (b.OlderThanAWeek? <==> SecondsPerWeek <= s)
  {
    var s := diffMs / 1000;
    if s >= 60 {
      HoursFromSeconds(s);
      DaysFromSeconds(s);
    }
  }

  /** Minutes of minutes are hours. */
  lemma HoursFromSeconds(s: int)
    ensures s / 60 / 60 == s / 3600
  {
    var m, h := s / 60, s / 60 / 60;
    assert s == 60 * m + s % 60;
    assert m == 60 * h + m % 60;
    assert s == 3600 * h + (60 * (m % 60) + s % 60);
  }

  /** Hours of hours of a day are days. */
  lemma DaysFromSeconds(s: int)
    ensures s / 3600 / 24 == s / 86400
  {
    var h, d := s / 3600, s / 3600 / 24;
    assert s == 3600 * h + s % 3600;
    assert h == 24 * d + h % 24;
    assert s == 86400 * d + (3600 * (h % 24) + s % 3600);
  }

  /** "n unit ago" or "n units ago". */
  function Ago(n: int, unit: string): (r: string)
    ensures |r| == |IntToString(n)| + 1 + |unit| + (if n == 1 then 0 else 1) + 4
  {
    IntToString(n) + " " + unit + (if n == 1 then "" else "s") + " ago"
  }

  /** The unit is singular exactly when the count is one. */
  lemma AgoSingularIff(n: int, unit: string)
    ensures Ago(n, unit) == IntToString(n) + " " + unit + " ago" <==> n == 1
    ensures Ago(n, unit) == IntToString(n) + " " + unit + "s ago" <==> n != 1
  {
  }

  /** The text for a bucket; the seconds bucket always says "seconds". */
  function Describe(b: Bucket, formatted: string): string {
    match b
    case Seconds(n) => IntToString(n) + " seconds ago"
    case Minutes(n) => Ago(n, "minute")
    case Hours(n) => Ago(n, "hour")
    case Days(n) => Ago(n, "day")
    case OlderThanAWeek => formatted
  }

  /** `getRelativeTime`. */
  function RelativeTime(dateString: string, parse: string -> Option<int>, format: int -> string, nowMs: int): (r: string)
    ensures parse(dateString).None? ==> r == InvalidDate
    ensures parse(dateString).Some? ==>
      var b := BucketOf(nowMs - parse(dateString).value);
      r == Describe(b, FormatDate(dateString, parse, format))
  {
    match parse(dateString)
    case None => InvalidDate
    case Some(ms) => Describe(BucketOf(nowMs - ms), FormatDate(dateString, parse, format))
  }

  /** More than a week ago the relative time is the formatted date, and
      within a week it is the count of the largest whole unit. */
  lemma RelativeTimeBuckets(dateString: string, parse: string -> Option<int>, format: int -> string, nowMs: int)
    requires parse(dateString).Some?
    ensures var s := (nowMs - parse(dateString).value) / 1000;
      var r := RelativeTime(dateString, parse, format, nowMs);
      (s < SecondsPerMinute ==> r == IntToString(s) + " seconds ago") &&
      (SecondsPerMinute <= s < SecondsPerHour ==> r == Ago(s / SecondsPerMinute, "minute")) &&
      (SecondsPerHour <= s < SecondsPerDay ==> r == Ago(s / SecondsPerHour, "hour")) &&
      (SecondsPerDay <= s < SecondsPerWeek ==> r == Ago(s / SecondsPerDay, "day")) &&
      (SecondsPerWeek <= s ==> r == FormatDate(dateString, parse, format))
  {
    BucketByDirectDivision(nowMs - parse(dateString).value);
  }
}
