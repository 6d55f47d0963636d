/** Calendar arithmetic of the budget service: the local calendar day, the
    length of its month (`new Date(year, monthIndex + 1, 0).getDate()`), the
    day before it, and the `YYYY-MM-DD` text the service keys its rows by
    (`formatLocalDate`, and reading it back as `new Date(date + 'T00:00:00')`
    does). */
module Calendar {
  import opened Wrappers
  import opened Numbers

  /** A calendar day; `month` is 1-based (JavaScript's `getMonth() + 1`). */
  datatype Date = Date(year: nat, month: nat, day: nat)

  predicate IsLeapYear(y: nat) {
    (y % 4 == 0 && y % 100 != 0) || y % 400 == 0
  }

  /** Days in a month of the proleptic Gregorian calendar. */
  function DaysInMonth(y: nat, m: nat): (n: nat)
    requires 1 <= m <= 12
    ensures 28 <= n <= 31
    ensures m == 2 ==> (n == 29 <==> IsLeapYear(y))
  {
    if m == 2 then (if IsLeapYear(y) then 29 else 28)
    else if m == 4 || m == 6 || m == 9 || m == 11 then 30
    else 31
  }

  predicate IsValidDate(d: Date) {
    1 <= d.month <= 12 && 1 <= d.day <= DaysInMonth(d.year, d.month)
  }

  function DaysInMonthOf(d: Date): nat
    requires IsValidDate(d)
  {
    DaysInMonth(d.year, d.month)
  }

  /** Days left in the month counting `d` itself. */
  function RemainingDaysInclToday(d: Date): (n: int)
    requires IsValidDate(d)
    ensures 1 <= n <= DaysInMonthOf(d)
    ensures n == 1 <==> d.day == DaysInMonthOf(d)
  {
    DaysInMonthOf(d) - d.day + 1
  }

  /** The previous day within the same month; none on the first of the month. */
  function Yesterday(d: Date): (y: Option<Date>)
    requires IsValidDate(d)
    ensures y.None? <==> d.day == 1
    ensures y.Some? ==> IsValidDate(y.value) && y.value != d
    ensures y.Some? ==> y.value.year == d.year && y.value.month == d.month && y.value.day + 1 == d.day
  {
    if d.day > 1 then Some(Date(d.year, d.month, d.day - 1)) else None
  }

  /** The first day of `d`'s month. */
  function FirstDayOfMonth(d: Date): (f: Date)
    requires IsValidDate(d)
    ensures IsValidDate(f) && f.day == 1
  {
    Date(d.year, d.month, 1)
  }

  /** `d` lies between the first of `today`'s month and `today`, both included. */
  predicate InMonthToDate(d: Date, today: Date) {
    d.year == today.year && d.month == today.month && 1 <= d.day <= today.day
  }

  /** `n.toString().padStart(2, '0')` */
  function Pad2(n: nat): string {
    if n < 10 then "0" + NatToDecimal(n) else NatToDecimal(n)
  }

  /** `formatLocalDate`: `${year}-${MM}-${DD}`. */
  function FormatLocalDate(d: Date): string {
    NatToDecimal(d.year) + "-" + Pad2(d.month) + "-" + Pad2(d.day)
  }

  /** Reads a `YYYY-MM-DD` text back as a valid calendar day; anything else
      (wrong shape, month or day out of range) is an invalid date. */
  function ParseLocalDate(s: string): (r: Option<Date>)
    ensures r.Some? ==> IsValidDate(r.value)
  {
    if |s| == 10 && s[4] == '-' && s[7] == '-'
       && AllDigits(s[..4]) && AllDigits(s[5..7]) && AllDigits(s[8..])
    then
      var d := Date(DecimalValue(s[..4]), DecimalValue(s[5..7]), DecimalValue(s[8..]));
      if IsValidDate(d) then Some(d) else None
    else None
  }

  lemma Pad2Digits(n: nat)
    requires 1 <= n <= 31
    ensures |Pad2(n)| == 2 && AllDigits(Pad2(n)) && DecimalValue(Pad2(n)) == n
  {
    DecimalRoundTrip(n);
    var d := NatToDecimal(n);
    if n < 10 {
      assert |d| == 1;
      var p := "0" + d;
      assert p[..1] == "0";
      assert DecimalValue(p[..1]) == 0;
    } else {
      assert 1 <= n / 10 <= 3;
      assert |NatToDecimal(n / 10)| == 1;
    }
  }

  /** Reading back the text `formatLocalDate` writes gives the same day, for
      every valid day of a four-digit year. */
  lemma ParseFormatRoundTrip(d: Date)
    requires IsValidDate(d) && 1000 <= d.year <= 9999
    ensures ParseLocalDate(FormatLocalDate(d)) == Some(d)
  {
    var y, m, dd := NatToDecimal(d.year), Pad2(d.month), Pad2(d.day);
    FourDigits(d.year);
    DecimalRoundTrip(d.year);
    Pad2Digits(d.month);
    Pad2Digits(d.day);
    var s := FormatLocalDate(d);
    assert s == y + "-" + m + "-" + dd;
    assert s[..4] == y;
    assert s[5..7] == m;
    assert s[8..] == dd;
  }

  /** Two valid four-digit-year days with the same text are the same day:
      the row key is unambiguous. */
  lemma FormatInjective(d1: Date, d2: Date)
    requires IsValidDate(d1) && 1000 <= d1.year <= 9999
    requires IsValidDate(d2) && 1000 <= d2.year <= 9999
    requires FormatLocalDate(d1) == FormatLocalDate(d2)
    ensures d1 == d2
  {
    ParseFormatRoundTrip(d1);
    ParseFormatRoundTrip(d2);
  }
}
