/** The date helpers: the relative-time label of a past date and the
    "is it today" test. The clock, the parsing done by the `Date`
    constructor and the locale's date format are inputs. */
module DateHelpers {
  import opened Wrappers
  import opened Numbers
  import opened Calendar

  /** Milliseconds in a day. */
  const MsPerDay: int := 1000 * 60 * 60 * 24

  /** `Math.floor((now - date) / day)`: whole days from `dateMs` to `nowMs`,
      rounded down (so negative for a date in the future). */
  function DayDifference(dateMs: int, nowMs: int): (d: int)
    ensures d * MsPerDay <= nowMs - dateMs < (d + 1) * MsPerDay
  {
    (nowMs - dateMs) / MsPerDay
  }

  const DaysAgo := " dni temu"
  const WeeksAgo := " tygodni temu"
  const MonthsAgo := " miesi\U{0119}cy temu"

  /** `getRelativeTime(dateString)`. `dateMs` is the time the text parses to
      (`None` for an Invalid Date), `nowMs` the clock, and `localeDate` what
      `formatDatePL(dateString)` shows. */
  function GetRelativeTime(dateString: string, dateMs: Option<int>, nowMs: int, localeDate: string): string {
    if dateString == "" then ""
    else if dateMs.None? then localeDate
    else
      var days := DayDifference(dateMs.value, nowMs);
      if days == 0 then "dzisiaj"
      else if days == 1 then "wczoraj"
      else if days < 7 then IntToString(days) + DaysAgo
      else if days < 30 then IntToString(days / 7) + WeeksAgo
      else if days < 365 then IntToString(days / 30) + MonthsAgo
      else localeDate
  }

  /** The label of each day difference, with the count it shows read back
      from its text: the days themselves below a week, whole weeks (1 to 4)
      below 30 days, whole 30-day months (1 to 12) below a year, and the
      formatted date from a year on. A date in the future (a negative
      difference) is labelled with its negative day count. */
  lemma RelativeTimeBuckets(dateString: string, dateMs: int, nowMs: int, localeDate: string)
    requires dateString != ""
    ensures var days := DayDifference(dateMs, nowMs);
      var r := GetRelativeTime(dateString, Some(dateMs), nowMs, localeDate);
      && (days == 0 ==> r == "dzisiaj")
      && (days == 1 ==> r == "wczoraj")
      && (days < 7 && days != 0 && days != 1 ==>
            r == IntToString(days) + DaysAgo && ParseFloat(r) == Finite(days as real))
      && (7 <= days < 30 ==>
            r == IntToString(days / 7) + WeeksAgo && ParseFloat(r) == Finite((days / 7) as real)
            && 1 <= days / 7 <= 4 && (days / 7) * 7 <= days < (days / 7 + 1) * 7)
      && (30 <= days < 365 ==>
            r == IntToString(days / 30) + MonthsAgo && ParseFloat(r) == Finite((days / 30) as real)
            && 1 <= days / 30 <= 12 && (days / 30) * 30 <= days < (days / 30 + 1) * 30)
      && (365 <= days ==> r == localeDate)
  {
    var days := DayDifference(dateMs, nowMs);
    if days < 7 && days != 0 && days != 1 {
      ParseIntThenText(days, DaysAgo);
    } else if 7 <= days < 30 {
      ParseIntThenText(days / 7, WeeksAgo);
    } else if 30 <= days < 365 {
      ParseIntThenText(days / 30, MonthsAgo);
    }
  }

  /** An empty text has no label, and one that does not parse as a date
      shows the formatted date. */
  lemma RelativeTimeWithoutDate(dateString: string, nowMs: int, localeDate: string)
    ensures GetRelativeTime("", None, nowMs, localeDate) == ""
    ensures dateString != "" ==> GetRelativeTime(dateString, None, nowMs, localeDate) == localeDate
  {
  }

  /** `isToday(dateString)`: `date` is the local calendar day the text parses
      to (`None` for an Invalid Date) and `today` the clock's local day. */
  function IsToday(dateString: string, date: Option<Date>, today: Date): (r: bool)
    ensures r <==> dateString != "" && date == Some(today)
  {
    dateString != "" && date.Some?
    && date.value.day == today.day && date.value.month == today.month && date.value.year == today.year
  }
}
