/** The part of Python's `datetime` the calendar uses: `strptime` with the
    formats "%Y-%m-%d" and "%H:%M", the validity of a calendar date, and the
    proleptic Gregorian day number (`date.toordinal`) on which date
    arithmetic and comparison rest. */
module DateTime {
  import opened Values
  import opened Text

  datatype Date = Date(year: int, month: int, day: int)
  datatype Time = Time(hour: int, minute: int)

  predicate IsLeap(y: int)
  {
    y % 4 == 0 && (y % 100 != 0 || y % 400 == 0)
  }

  function DaysInMonth(y: int, m: int): int
    requires 1 <= m <= 12
  {
    if m == 2 then (if IsLeap(y) then 29 else 28)
    else if m == 4 || m == 6 || m == 9 || m == 11 then 30
    else 31
  }

  /** A date `datetime.date` can represent: years 1 to 9999, a real month,
      and a day that exists in that month. */
  ghost predicate ValidDate(d: Date)
  {
    1 <= d.year <= 9999 && 1 <= d.month <= 12 && 1 <= d.day <= DaysInMonth(d.year, d.month)
  }

  predicate IsNonZeroDigit(c: char) { '1' <= c <= '9' }

  /** A numeric field of strptime's regular expressions: two digits whose
      value lies in lo..hi, or one digit no smaller than lo. Month ("1[0-2]|0[1-9]|[1-9]"),
      hour ("2[0-3]|[0-1]\d|\d") and minute ("[0-5]\d|\d") are all of this shape. */
  function NumberField(s: string, lo: nat, hi: nat): (r: Option<int>)
    requires lo <= 1 && 9 < hi < 100
    ensures r.Some? ==> lo <= r.value <= hi
  {
    if |s| == 2 && IsDigit(s[0]) && IsDigit(s[1]) then
      var v := 10 * DigitValue(s[0]) + DigitValue(s[1]);
      if lo <= v <= hi then Some(v) else None
    else if |s| == 1 && IsDigit(s[0]) && lo <= DigitValue(s[0]) then Some(DigitValue(s[0]))
    else None
  }

  /** The day field "3[01]|[12]\d|0[1-9]|[1-9]| [1-9]": a month's field
      shape, plus a single digit after a space. */
  function DayField(s: string): (r: Option<int>)
    ensures r.Some? ==> 1 <= r.value <= 31
  {
    if |s| == 2 && s[0] == ' ' && IsNonZeroDigit(s[1]) then Some(DigitValue(s[1]))
    else NumberField(s, 1, 31)
  }

  /** The value of a four-digit year field. */
  function YearValue(s: string): (y: int)
    requires |s| == 4 && AllDigits(s)
    ensures 0 <= y <= 9999
  {
    1000 * DigitValue(s[0]) + 100 * DigitValue(s[1]) + 10 * DigitValue(s[2]) + DigitValue(s[3])
  }

  /** The date the matched fields denote, if it exists in the calendar. */
  function DateOf(y: int, month: Option<int>, day: Option<int>): (r: Option<Date>)
    requires 0 <= y <= 9999
    requires month.Some? ==> 1 <= month.value <= 12
    ensures r.Some? ==> ValidDate(r.value)
  {
    match (month, day)
    case (Some(m), Some(d)) =>
      if 1 <= y && 1 <= d <= DaysInMonth(y, m) then Some(Date(y, m, d)) else None
    case _ => None
  }

  /** `datetime.strptime(s, "%Y-%m-%d")`: None where it raises ValueError.
      The whole string must match (four-digit year, one- or two-digit month
      and day) and the date must exist in the calendar. */
  function ParseDate(s: string): (r: Option<Date>)
    ensures r.Some? ==> ValidDate(r.value)
  {
    if |s| < 5 || !AllDigits(s[..4]) || s[4] != '-' then None
    else
      var rest := s[5..];
      match IndexOf(rest, '-')
      case None => None
      case Some(k) => DateOf(YearValue(s[..4]), NumberField(rest[..k], 1, 12), DayField(rest[k + 1..]))
  }

  /** How ParseDate reads a string laid out as year, dash, month, dash, day. */
  lemma DateShape(s: string, ys: string, ms: string, ds: string)
    requires |ys| == 4 && AllDigits(ys) && s == ys + "-" + ms + "-" + ds
    requires forall k :: 0 <= k < |ms| ==> ms[k] != '-'
    ensures ParseDate(s) == DateOf(YearValue(ys), NumberField(ms, 1, 12), DayField(ds))
  {
    assert s[..4] == ys;
    var rest := s[5..];
    assert rest == ms + "-" + ds;
    IndexOfAt(rest, '-', |ms|);
    assert rest[..|ms|] == ms && rest[|ms| + 1..] == ds;
  }

  /** `datetime.strptime(s, "%H:%M")`: None where it raises ValueError. */
  function ParseTime(s: string): (r: Option<Time>)
    ensures r.Some? ==> 0 <= r.value.hour <= 23 && 0 <= r.value.minute <= 59
  {
    match IndexOf(s, ':')
    case None => None
    case Some(k) =>
      match (NumberField(s[..k], 0, 23), NumberField(s[k + 1..], 0, 59))
      case (Some(h), Some(m)) => Some(Time(h, m))
      case _ => None
  }

  /** How ParseTime reads a string laid out as hour, colon, minute. */
  lemma TimeShape(s: string, hs: string, ms: string)
    requires s == hs + ":" + ms && forall k :: 0 <= k < |hs| ==> hs[k] != ':'
    ensures ParseTime(s) == match (NumberField(hs, 0, 23), NumberField(ms, 0, 59))
                            case (Some(h), Some(m)) => Some(Time(h, m))
                            case _ => None
  {
    IndexOfAt(s, ':', |hs|);
    assert s[..|hs|] == hs && s[|hs| + 1..] == ms;
  }

  function Pad2(n: nat): (s: string)
    requires n < 100
    ensures |s| == 2 && AllDigits(s) && 10 * DigitValue(s[0]) + DigitValue(s[1]) == n
  {
    [DigitChar(n / 10), DigitChar(n % 10)]
  }

  function Pad4(n: nat): (s: string)
    requires n < 10000
    ensures |s| == 4 && AllDigits(s) && YearValue(s) == n
  {
    Pad2(n / 100) + Pad2(n % 100)
  }

  /** `date.isoformat()`: "YYYY-MM-DD" with zero padding. */
  function FormatDate(d: Date): string
    requires ValidDate(d)
  {
    Pad4(d.year) + "-" + Pad2(d.month) + "-" + Pad2(d.day)
  }

  /** `time.strftime("%H:%M")`. */
  function FormatTime(t: Time): string
    requires 0 <= t.hour <= 23 && 0 <= t.minute <= 59
  {
    Pad2(t.hour) + ":" + Pad2(t.minute)
  }

  /** A zero-padded field reads as its own value when in range. */
  lemma PaddedField(n: nat, lo: nat, hi: nat)
    requires n < 100 && lo <= 1 && 9 < hi < 100
    ensures NumberField(Pad2(n), lo, hi) == if lo <= n <= hi then Some(n) else None
  {
  }

  /** A date written with a four-digit year and two-digit month and day is
      accepted exactly when that date exists, and then denotes it: year 0,
      month 13, April 31 and February 29 of a common year are refused. */
  lemma ParsePaddedDate(y: nat, m: nat, d: nat)
    requires y < 10000 && m < 100 && d < 100
    ensures var r := ParseDate(Pad4(y) + "-" + Pad2(m) + "-" + Pad2(d));
      (r.Some? <==> ValidDate(Date(y, m, d))) && (r.Some? ==> r.value == Date(y, m, d))
  {
    var ms := Pad2(m);
    DateShape(Pad4(y) + "-" + ms + "-" + Pad2(d), Pad4(y), ms, Pad2(d));
    PaddedField(m, 1, 12);
    PaddedField(d, 1, 31);
  }

  /** Every representable date is accepted in its ISO spelling, with its own value. */
  lemma ParseFormatDate(d: Date)
    requires ValidDate(d)
    ensures ParseDate(FormatDate(d)) == Some(d)
  {
    ParsePaddedDate(d.year, d.month, d.day);
  }

  /** February 29 is accepted exactly in leap years. */
  lemma LeapDay(y: nat)
    requires 1 <= y <= 9999
    ensures ParseDate(Pad4(y) + "-" + Pad2(2) + "-" + Pad2(29)).Some? <==> IsLeap(y)
  {
    ParsePaddedDate(y, 2, 29);
  }

  /** Month and day may be written with a single digit. */
  lemma ShortFields(y: nat, m: nat, d: nat)
    requires ValidDate(Date(y, m, d)) && m <= 9 && d <= 9
    ensures ParseDate(Pad4(y) + "-" + [DigitChar(m)] + "-" + [DigitChar(d)]) == Some(Date(y, m, d))
  {
    var ms := [DigitChar(m)];
    DateShape(Pad4(y) + "-" + ms + "-" + [DigitChar(d)], Pad4(y), ms, [DigitChar(d)]);
  }

  /** The day may also be a single digit after a space. */
  lemma SpacePaddedDay(y: nat, m: nat, d: nat)
    requires ValidDate(Date(y, m, d)) && d <= 9
    ensures ParseDate(Pad4(y) + "-" + Pad2(m) + "-" + (" " + [DigitChar(d)])) == Some(Date(y, m, d))
  {
    var ms := Pad2(m);
    DateShape(Pad4(y) + "-" + ms + "-" + (" " + [DigitChar(d)]), Pad4(y), ms, " " + [DigitChar(d)]);
    PaddedField(m, 1, 12);
  }

  /** A time written with two-digit hour and minute is accepted exactly when
      both are in range: hour 24 and minute 60 are refused. */
  lemma ParsePaddedTime(h: nat, m: nat)
    requires h < 100 && m < 100
    ensures var r := ParseTime(Pad2(h) + ":" + Pad2(m));
      (r.Some? <==> h <= 23 && m <= 59) && (r.Some? ==> r.value == Time(h, m))
  {
    TimeShape(Pad2(h) + ":" + Pad2(m), Pad2(h), Pad2(m));
    PaddedField(h, 0, 23);
    PaddedField(m, 0, 59);
  }

  lemma ParseFormatTime(t: Time)
    requires 0 <= t.hour <= 23 && 0 <= t.minute <= 59
    ensures ParseTime(FormatTime(t)) == Some(t)
  {
    ParsePaddedTime(t.hour, t.minute);
  }

  /** The hour may be written with a single digit. */
  lemma ShortHour(h: nat, m: nat)
    requires h <= 9 && m <= 59
    ensures ParseTime([DigitChar(h)] + ":" + Pad2(m)) == Some(Time(h, m))
  {
    TimeShape([DigitChar(h)] + ":" + Pad2(m), [DigitChar(h)], Pad2(m));
    PaddedField(m, 0, 59);
  }

  /** `_days_before_year`: days in the years before y. */
  function DaysBeforeYear(y: int): int
    requires y >= 1
  {
    var p := y - 1;
    p * 365 + p / 4 - p / 100 + p / 400
  }

  /** `_days_before_month`: days in the months of year y before month m. */
  function DaysBeforeMonth(y: int, m: int): (r: int)
    requires 1 <= m <= 12
  {
    var common :=
      if m == 1 then 0 else if m == 2 then 31 else if m == 3 then 59 else if m == 4 then 90
      else if m == 5 then 120 else if m == 6 then 151 else if m == 7 then 181 else if m == 8 then 212
      else if m == 9 then 243 else if m == 10 then 273 else if m == 11 then 304 else 334;
    common + (if m > 2 && IsLeap(y) then 1 else 0)
  }

  /** `date.toordinal()`: January 1 of year 1 is day 1. */
  function Ordinal(d: Date): int
    requires 1 <= d.year && 1 <= d.month <= 12
  {
    DaysBeforeYear(d.year) + DaysBeforeMonth(d.year, d.month) + d.day
  }

  /** The day number of `date.max`, 9999-12-31. */
  const MaxOrdinal: int := 3652059

  function DaysInYear(y: int): int
  {
    if IsLeap(y) then 366 else 365
  }

  lemma YearStep(y: int)
    requires y >= 1
    ensures DaysBeforeYear(y + 1) == DaysBeforeYear(y) + DaysInYear(y)
  {
    var p := y - 1;
    DivStep(p, 4);
    DivStep(p, 100);
    DivStep(p, 400);
  }

  /** Counting one more number adds a multiple of d exactly when that
      number is one. */
  lemma DivStep(p: int, d: int)
    requires p >= 0 && d > 0
    ensures (p + 1) / d == p / d + (if (p + 1) % d == 0 then 1 else 0)
  {
    var q, r := p / d, p % d;
    assert p == q * d + r && 0 <= r < d;
    if r == d - 1 {
      assert p + 1 == (q + 1) * d;
      DivExact(p + 1, q + 1, 0, d);
    } else {
      assert p + 1 == q * d + (r + 1);
      DivExact(p + 1, q, r + 1, d);
    }
  }

  /** Division is determined by quotient and remainder. */
  lemma DivExact(n: int, q: int, r: int, d: int)
    requires d > 0 && 0 <= r < d && n == q * d + r
    ensures n / d == q && n % d == r
  {
    var q2, r2 := n / d, n % d;
    assert (q - q2) * d == r2 - r;
    if q > q2 {
      MulAtLeast(q - q2, d);
    } else if q < q2 {
      MulAtLeast(q2 - q, d);
    }
  }

  lemma MulAtLeast(k: int, d: int)
    requires k >= 1 && d > 0
    ensures k * d >= d
  {
    assert k * d == (k - 1) * d + d;
  }

  /** Each month starts where the previous one ends, and December ends the year. */
  lemma MonthStep(y: int, m: int)
    requires 1 <= m <= 12
    ensures 0 <= DaysBeforeMonth(y, m)
    ensures m < 12 ==> DaysBeforeMonth(y, m + 1) == DaysBeforeMonth(y, m) + DaysInMonth(y, m)
    ensures m == 12 ==> DaysBeforeMonth(y, m) + DaysInMonth(y, m) == DaysInYear(y)
  {
  }

  lemma {:induction false} MonthsIncrease(y: int, m1: int, m2: int)
    requires 1 <= m1 < m2 <= 12
    ensures DaysBeforeMonth(y, m1) + DaysInMonth(y, m1) <= DaysBeforeMonth(y, m2)
    decreases m2
  {
    MonthStep(y, m2 - 1);
    if m1 < m2 - 1 {
      MonthsIncrease(y, m1, m2 - 1);
    }
  }

  lemma {:induction false} MonthsFitInYear(y: int, m: int)
    requires 1 <= m <= 12
    ensures DaysBeforeMonth(y, m) + DaysInMonth(y, m) <= DaysInYear(y)
  {
    MonthStep(y, 12);
    if m < 12 {
      MonthsIncrease(y, m, 12);
    }
  }

  lemma {:induction false} YearsIncrease(y1: int, y2: int)
    requires 1 <= y1 < y2
    ensures DaysBeforeYear(y1) + DaysInYear(y1) <= DaysBeforeYear(y2)
    decreases y2
  {
    YearStep(y2 - 1);
    if y1 < y2 - 1 {
      YearsIncrease(y1, y2 - 1);
    }
  }

  /** Python compares dates field by field. */
  predicate DateBefore(a: Date, b: Date)
  {
    a.year < b.year || (a.year == b.year && (a.month < b.month || (a.month == b.month && a.day < b.day)))
  }

  lemma OrdinalBefore(a: Date, b: Date)
    requires ValidDate(a) && ValidDate(b) && DateBefore(a, b)
    ensures Ordinal(a) < Ordinal(b)
  {
    MonthsFitInYear(a.year, a.month);
    MonthStep(b.year, b.month);
    if a.year < b.year {
      YearsIncrease(a.year, b.year);
    } else if a.month < b.month {
      MonthsIncrease(a.year, a.month, b.month);
    }
  }

  /** The day number orders valid dates exactly as Python's date comparison
      does, so `today <= d <= today + timedelta(n)` is a test on day numbers. */
  lemma OrdinalOrder(a: Date, b: Date)
    requires ValidDate(a) && ValidDate(b)
    ensures DateBefore(a, b) <==> Ordinal(a) < Ordinal(b)
    ensures a == b <==> Ordinal(a) == Ordinal(b)
  {
    if DateBefore(a, b) {
      OrdinalBefore(a, b);
    } else if DateBefore(b, a) {
      OrdinalBefore(b, a);
    }
  }

  lemma MaxOrdinalIsLastDay()
    ensures Ordinal(Date(9999, 12, 31)) == MaxOrdinal
  {
  }
}
