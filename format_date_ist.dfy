/**
 * Date display in Indian Standard Time (client/lib/formatDateIST.ts). Instants are
 * epoch milliseconds. `parse` stands for `new Date(s).getTime()` (`None` for NaN),
 * and `localize` for `toLocaleDateString("en-IN", ...)` applied to an instant in the
 * given format; both are parameters because the model does not re-implement the
 * date parser or the locale data.
 */
module FormatDateIST {
  import opened Wrappers
  import opened Text
  import opened Arith

  /** `string | Date`; a `Date` may hold an invalid time. */
  datatype DateArg = FromString(text: string) | FromDate(time: Option<int>)

  datatype Format = DateTime | DateOnly

  const HourMs: int := 3600000
  const DayMs: int := 86400000

  /** `IST_OFFSET * 60 * 60 * 1000` with `IST_OFFSET` = 5.5: five and a half hours. */
  const IstOffsetMs: int := 11 * HourMs / 2

  lemma IstOffsetIsFiveThirty()
    ensures IstOffsetMs == 19800000 && IstOffsetMs == 5 * HourMs + 30 * 60000
  {
  }

  function TimeOf(arg: DateArg, parse: string -> Option<int>): Option<int> {
    match arg
    case FromString(s) => parse(s)
    case FromDate(t) => t
  }

  /** `formatDateIST`: an invalid input string comes back as it was, an invalid `Date` as "Invalid date". */
  function FormatIST(arg: DateArg, format: Format, parse: string -> Option<int>, localize: (int, Format) -> string): (r: string)
    ensures TimeOf(arg, parse).None? && arg.FromString? ==> r == arg.text
    ensures TimeOf(arg, parse).None? && arg.FromDate? ==> r == "Invalid date"
    ensures TimeOf(arg, parse).Some? ==> r == localize(TimeOf(arg, parse).value + IstOffsetMs, format)
  {
    match TimeOf(arg, parse)
    case None => if arg.FromString? then arg.text else "Invalid date"
    case Some(t) => localize(t + IstOffsetMs, format)
  }

  /** A string and a `Date` for the same valid instant format the same. */
  lemma StringAndDateAgree(s: string, format: Format, parse: string -> Option<int>, localize: (int, Format) -> string)
    requires parse(s).Some?
    ensures FormatIST(FromString(s), format, parse, localize) == FormatIST(FromDate(parse(s)), format, parse, localize)
  {
  }

  /** `formatActivityLogDate`: the date and time in IST, with the same fallbacks as `formatDateIST`. */
  function FormatActivityLogDate(arg: DateArg, parse: string -> Option<int>, localize: (int, Format) -> string): (r: string)
    ensures TimeOf(arg, parse).None? ==> r == (if arg.FromString? then arg.text else "Invalid date")
    ensures TimeOf(arg, parse).Some? ==> r == localize(TimeOf(arg, parse).value + IstOffsetMs, DateTime)
  {
    FormatIST(arg, DateTime, parse, localize)
  }

  /** `formatDateOnlyIST`: the calendar date in IST, with the same fallbacks as `formatDateIST`. */
  function FormatDateOnly(arg: DateArg, parse: string -> Option<int>, localize: (int, Format) -> string): (r: string)
    ensures TimeOf(arg, parse).None? ==> r == (if arg.FromString? then arg.text else "Invalid date")
    ensures TimeOf(arg, parse).Some? ==> r == localize(TimeOf(arg, parse).value + IstOffsetMs, DateOnly)
  {
    FormatIST(arg, DateOnly, parse, localize)
  }

  /**
   * The shift moves an instant to the next calendar day exactly when its UTC time
   * of day is 18:30 or later; 22:00 UTC is 03:30 of the next day.
   */
  lemma {:induction false} IstCalendarDay(t: int)
    ensures (t + IstOffsetMs) / DayMs == t / DayMs + (if t % DayMs >= DayMs - IstOffsetMs then 1 else 0)
    ensures (t + IstOffsetMs) % DayMs == (t % DayMs + IstOffsetMs) % DayMs
  {
    var q, r := t / DayMs, t % DayMs;
    assert t + IstOffsetMs == q * DayMs + (r + IstOffsetMs);
    if r >= DayMs - IstOffsetMs {
      DivUnique(t + IstOffsetMs, DayMs, q + 1, r + IstOffsetMs - DayMs);
    } else {
      DivUnique(t + IstOffsetMs, DayMs, q, r + IstOffsetMs);
    }
  }

  lemma TenPmUtcIsNextDay(t: int)
    requires t % DayMs == 22 * HourMs
    ensures (t + IstOffsetMs) / DayMs == t / DayMs + 1
    ensures (t + IstOffsetMs) % DayMs == 3 * HourMs + 30 * 60000
  {
    IstCalendarDay(t);
  }

  /** `count unit(s) ago`: the "s" only when the count exceeds one. */
  function Ago(count: nat, unit: string): string {
    NatToString(count) + " " + unit + (if count > 1 then "s" else "") + " ago"
  }

  /** `formatRelativeTime` at the instant `now`. */
  function RelativeTime(arg: DateArg, now: int, parse: string -> Option<int>, localize: (int, Format) -> string): string {
    match TimeOf(arg, parse)
    case None => "Invalid date"
    case Some(t) =>
      var diffSecs := (now - t) / 1000;
      var diffMins := diffSecs / 60;
      var diffHours := diffMins / 60;
      var diffDays := diffHours / 24;
      if diffSecs < 60 then "just now"
      else if diffMins < 60 then Ago(diffMins, "minute")
      else if diffHours < 24 then Ago(diffHours, "hour")
      else if diffDays < 7 then Ago(diffDays, "day")
      else FormatIST(arg, DateOnly, parse, localize)
  }

  /** The chained floors are floors of the elapsed milliseconds by one minute, hour and day. */
  lemma ChainedFloors(diffMs: int)
    ensures diffMs / 1000 / 60 == diffMs / 60000
    ensures diffMs / 1000 / 60 / 60 == diffMs / HourMs
    ensures diffMs / 1000 / 60 / 60 / 24 == diffMs / DayMs
  {
    NestedDiv(diffMs, 1000, 60);
    NestedDiv(diffMs, 60000, 60);
    NestedDiv(diffMs, HourMs, 24);
  }

  /**
   * The buckets by elapsed time `d = now - t`: under a minute (a future instant
   * included) is "just now", then whole minutes under an hour, whole hours under a
   * day, whole days under a week, and the date format from seven days on.
   */
  lemma {:induction false} RelativeBuckets(arg: DateArg, now: int, parse: string -> Option<int>, localize: (int, Format) -> string)
    requires TimeOf(arg, parse).Some?
    ensures var d, r := now - TimeOf(arg, parse).value, RelativeTime(arg, now, parse, localize);
      (d < 60000 ==> r == "just now")
      && (60000 <= d < HourMs ==> r == Ago(d / 60000, "minute"))
      && (HourMs <= d < DayMs ==> r == Ago(d / HourMs, "hour"))
      && (DayMs <= d < 7 * DayMs ==> r == Ago(d / DayMs, "day"))
      && (d >= 7 * DayMs ==> r == FormatIST(arg, DateOnly, parse, localize))
  {
    var d := now - TimeOf(arg, parse).value;
    ChainedFloors(d);
    DivUnique(d, 1000, d / 1000, d % 1000);
    DivUnique(d, 60000, d / 60000, d % 60000);
    DivUnique(d, HourMs, d / HourMs, d % HourMs);
    DivUnique(d, DayMs, d / DayMs, d % DayMs);
  }

  /** Invalid input gives "Invalid date", even for a string (unlike `formatDateIST`). */
  lemma RelativeInvalid(s: string, now: int, parse: string -> Option<int>, localize: (int, Format) -> string)
    requires parse(s).None?
    ensures RelativeTime(FromString(s), now, parse, localize) == "Invalid date"
    ensures FormatIST(FromString(s), DateOnly, parse, localize) == s
  {
  }

  /** One hour ago reads "1 hour ago", ninety minutes ago too, two hours ago "2 hours ago". */
  lemma HoursExamples(t: int, parse: string -> Option<int>, localize: (int, Format) -> string)
    ensures RelativeTime(FromDate(Some(t)), t + HourMs, parse, localize) == "1 hour ago"
    ensures RelativeTime(FromDate(Some(t)), t + 90 * 60000, parse, localize) == "1 hour ago"
    ensures RelativeTime(FromDate(Some(t)), t + 2 * HourMs, parse, localize) == "2 hours ago"
  {
    var arg := FromDate(Some(t));
    assert Ago(1, "hour") == "1 hour ago" && Ago(2, "hour") == "2 hours ago";
    assert RelativeTime(arg, t + HourMs, parse, localize) == Ago(1, "hour") by {
      RelativeBuckets(arg, t + HourMs, parse, localize);
    }
    assert RelativeTime(arg, t + 90 * 60000, parse, localize) == Ago(1, "hour") by {
      RelativeBuckets(arg, t + 90 * 60000, parse, localize);
    }
    assert RelativeTime(arg, t + 2 * HourMs, parse, localize) == Ago(2, "hour") by {
      RelativeBuckets(arg, t + 2 * HourMs, parse, localize);
    }
  }
}
