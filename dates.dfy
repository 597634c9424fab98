/**
 * Calendar dates as pandas handles them in the dashboard: a proleptic
 * Gregorian civil date, its day number (days since 1970-01-01, the epoch of
 * pandas timestamps), weekdays, the calendar-day difference of two dates
 * (`(fim - inicio).days`) and the business-day count of `pd.bdate_range`.
 * Time of day is not modelled: every date is at day precision.
 */
module Dates {
  import opened Wrappers
  import opened Numerals

  datatype CivilDate = CivilDate(year: int, month: int, day: int)

  predicate IsLeapYear(y: int) {
    y % 4 == 0 && (y % 100 != 0 || y % 400 == 0)
  }

  function DaysInMonth(y: int, m: int): int {
    if m == 2 then (if IsLeapYear(y) then 29 else 28)
    else if m == 4 || m == 6 || m == 9 || m == 11 then 30
    else 31
  }

  /**
   * A real calendar day. Years are four-digit, which covers the whole range
   * of pandas timestamps (1677 to 2262) and makes `%Y` exactly four digits.
   */
  predicate ValidCivil(d: CivilDate) {
    1000 <= d.year <= 9999 && 1 <= d.month <= 12 && 1 <= d.day <= DaysInMonth(d.year, d.month)
  }

  type Date = d: CivilDate | ValidCivil(d) witness CivilDate(1970, 1, 1)

  /**
   * Days from 1 March of year 0 to 1 March of year y, for y >= 0: the
   * calendar is counted from March so that a leap day ends its year.
   */
  function DaysToMarch(y: int): int
    requires y >= 0
  {
    var era := y / 400;
    var yoe := y % 400;
    era * 146097 + yoe * 365 + yoe / 4 - yoe / 100
  }

  /** Days from 1 March to day `d` of month `m`, in a year that starts in March. */
  function DaysFromMarch(m: int, d: int): int {
    var mp := if m > 2 then m - 3 else m + 9;
    (153 * mp + 2) / 5 + d - 1
  }

  /** Days since 1970-01-01 (negative before it). */
  function Ordinal(d: Date): int {
    var y := if d.month <= 2 then d.year - 1 else d.year;
    DaysToMarch(y) + DaysFromMarch(d.month, d.day) - 719468
  }

  /** The calendar day after `d`. */
  function NextDay(d: Date): Date
    requires d != CivilDate(9999, 12, 31)
  {
    if d.day < DaysInMonth(d.year, d.month) then CivilDate(d.year, d.month, d.day + 1)
    else if d.month < 12 then CivilDate(d.year, d.month + 1, 1)
    else CivilDate(d.year + 1, 1, 1)
  }

  /** Day of the week of a day number: 0 is Monday, 6 is Sunday (1970-01-01 was a Thursday). */
  function Weekday(n: int): (w: int)
    ensures 0 <= w < 7
  {
    (n + 3) % 7
  }

  predicate IsBusinessDay(n: int) {
    Weekday(n) < 5
  }

  /** The number of Monday-to-Friday days in the inclusive range [lo, hi]; 0 when lo > hi. */
  function WeekdaysIn(lo: int, hi: int): nat
    decreases hi - lo + 1
  {
    if hi < lo then 0 else WeekdaysIn(lo, hi - 1) + (if IsBusinessDay(hi) then 1 else 0)
  }

  /**
   * Business-day steps from day number lo to day number hi: the business
   * days of the inclusive range minus one. It is -1 when lo > hi, and also
   * when lo == hi falls on a weekend.
   */
  function BusinessSteps(lo: int, hi: int): (r: int)
    ensures r >= -1
    ensures lo > hi ==> r == -1
    ensures lo == hi ==> r == (if IsBusinessDay(lo) then 0 else -1)
  {
    assert lo == hi ==> WeekdaysIn(lo, hi - 1) == 0;
    WeekdaysIn(lo, hi) - 1
  }

  /** `pd.bdate_range(start=a, end=b).shape[0] - 1`. */
  function BusinessDayCount(a: Date, b: Date): int {
    BusinessSteps(Ordinal(a), Ordinal(b))
  }

  /** `(b - a).days`: whole calendar days from a to b, negative when b is earlier. */
  function DayDifference(a: Date, b: Date): int {
    Ordinal(b) - Ordinal(a)
  }

  /** Chronological order of two dates, as pandas compares timestamps. */
  predicate NotAfter(a: Date, b: Date) {
    Ordinal(a) <= Ordinal(b)
  }

  // ---------------------------------------------------------------------
  // Cells of a date column

  /**
   * What a date column can hold: nothing (NaN, None, NaT), a string together
   * with what `pd.to_datetime(..., errors='coerce')` makes of it (parsing
   * itself is not modelled), or a timestamp.
   */
  datatype DateCell =
    | Blank
    | Text(text: string, parsed: Option<Date>)
    | Stamp(date: Date)

  /** The strings the date formatters treat as no date before trying to parse: '' and 'N/A'. */
  predicate IsBlankText(c: DateCell) {
    c.Text? && (c.text == "" || c.text == "N/A")
  }

  /** `pd.to_datetime(cell, errors='coerce')`, with NaT as None; the empty string is NaT. */
  function ToDatetime(c: DateCell): (r: Option<Date>)
    ensures c.Blank? ==> r.None?
    ensures c.Stamp? ==> r == Some(c.date)
  {
    match c
    case Blank => None
    case Text(t, p) => if t == "" then None else p
    case Stamp(d) => Some(d)
  }

  /** A cell after its column has been overwritten by `pd.to_datetime(..., errors='coerce')`. */
  function Normalized(c: DateCell): (r: DateCell)
    ensures r.Blank? || r.Stamp?
    ensures ToDatetime(r) == ToDatetime(c)
  {
    match ToDatetime(c)
    case None => Blank
    case Some(d) => Stamp(d)
  }

  /**
   * `calcular_dias_uteis`: None when either date is missing or does not
   * parse, otherwise the business-day count.
   */
  function BusinessDaysBetween(a: DateCell, b: DateCell): (r: Option<int>)
    ensures r.Some? <==> ToDatetime(a).Some? && ToDatetime(b).Some?
    ensures r.Some? ==> r.value == BusinessDayCount(ToDatetime(a).value, ToDatetime(b).value)
  {
    match (ToDatetime(a), ToDatetime(b))
    case (Some(x), Some(y)) => Some(BusinessDayCount(x, y))
    case _ => None
  }

  /** `calcular_dias_corridos`: None when either date is missing or does not parse. */
  function CalendarDaysBetween(a: DateCell, b: DateCell): (r: Option<int>)
    ensures r.Some? <==> ToDatetime(a).Some? && ToDatetime(b).Some?
    ensures r.Some? ==> r.value == Ordinal(ToDatetime(b).value) - Ordinal(ToDatetime(a).value)
  {
    match (ToDatetime(a), ToDatetime(b))
    case (Some(x), Some(y)) => Some(DayDifference(x, y))
    case _ => None
  }

  // ---------------------------------------------------------------------
  // Formatting with strftime('%d<sep>%m<sep>%Y')

  function FormatDate(d: Date, sep: char): string {
    ZeroPad(d.day as nat, 2) + [sep] + ZeroPad(d.month as nat, 2) + [sep] + ZeroPad(d.year as nat, 4)
  }

  /** Reads a `DD<sep>MM<sep>YYYY` string back into its civil fields. */
  function ParseDate(s: string, sep: char): Option<CivilDate> {
    if |s| == 10 && s[2] == sep && s[5] == sep
       && AllDigits(s[0..2]) && AllDigits(s[3..5]) && AllDigits(s[6..10])
    then Some(CivilDate(DigitsValue(s[6..10]), DigitsValue(s[3..5]), DigitsValue(s[0..2])))
    else None
  }

  // ---------------------------------------------------------------------
  // Lemmas

  /** A formatted date is ten characters long and reads back as the same date. */
  lemma FormatDateReadsBack(d: Date, sep: char)
    requires !IsDigit(sep)
    ensures |FormatDate(d, sep)| == 10
    ensures ParseDate(FormatDate(d, sep), sep) == Some(d)
  {
    var dd, mm, yyyy := ZeroPad(d.day as nat, 2), ZeroPad(d.month as nat, 2), ZeroPad(d.year as nat, 4);
    ZeroPadReadsBack(d.day as nat, 2);
    ZeroPadReadsBack(d.month as nat, 2);
    ZeroPadReadsBack(d.year as nat, 4);
    var s := FormatDate(d, sep);
    assert s == dd + [sep] + mm + [sep] + yyyy;
    assert s[0..2] == dd && s[3..5] == mm && s[6..10] == yyyy;
  }

  /** Day numbers advance by exactly one from each day to the next, so they count calendar days. */
  lemma OrdinalNextDay(d: Date)
    requires d != CivilDate(9999, 12, 31)
    ensures Ordinal(NextDay(d)) == Ordinal(d) + 1
  {
    var e := NextDay(d);
    if d.day < DaysInMonth(d.year, d.month) {
      assert e == CivilDate(d.year, d.month, d.day + 1);
      assert DaysFromMarch(e.month, e.day) == DaysFromMarch(d.month, d.day) + 1;
    } else if d.month == 2 {
      assert e == CivilDate(d.year, 3, 1);
      MarchYearLength(d.year);
      assert DaysFromMarch(2, d.day) == 336 + d.day;
      assert DaysFromMarch(3, 1) == 0;
    } else if d.month < 12 {
      assert e == CivilDate(d.year, d.month + 1, 1);
      MonthLength(d.month);
    } else {
      assert e == CivilDate(d.year + 1, 1, 1);
      MonthLength(12);
    }
  }

  /** Outside February, the months of a March-based year follow each other without gaps. */
  lemma MonthLength(m: int)
    requires 1 <= m <= 12 && m != 2
    ensures m != 12 ==> DaysFromMarch(m + 1, 1) == DaysFromMarch(m, DaysInMonth(2000, m)) + 1
    ensures m == 12 ==> DaysFromMarch(1, 1) == DaysFromMarch(12, 31) + 1
  {
  }

  /** The year from 1 March of y-1 to 1 March of y has 366 days exactly when y is a leap year. */
  lemma MarchYearLength(y: int)
    requires 1 <= y
    ensures DaysToMarch(y) - DaysToMarch(y - 1) == (if IsLeapYear(y) then 366 else 365)
  {
    var q, r := y / 400, y % 400;
    LeapByRemainder(y);
    if r == 0 {
      assert (y - 1) / 400 == q - 1 && (y - 1) % 400 == 399;
      assert DaysToMarch(y) == q * 146097;
      assert DaysToMarch(y - 1) == (q - 1) * 146097 + 399 * 365 + 99 - 3;
    } else {
      assert (y - 1) / 400 == q && (y - 1) % 400 == r - 1;
      assert DaysToMarch(y) - DaysToMarch(y - 1) == 365 + (r / 4 - (r - 1) / 4) - (r / 100 - (r - 1) / 100);
      assert r / 4 - (r - 1) / 4 == (if r % 4 == 0 then 1 else 0);
      assert r / 100 - (r - 1) / 100 == (if r % 100 == 0 then 1 else 0);
    }
  }

  /** The leap rule repeats every 400 years. */
  lemma LeapByRemainder(y: int)
    requires 0 <= y
    ensures IsLeapYear(y) == IsLeapYear(y % 400)
  {
    var q, r := y / 400, y % 400;
    assert y == 400 * q + r;
    ShiftMod(4, 100 * q, r);
    ShiftMod(100, 4 * q, r);
  }

  /**
   * Adding a multiple of m leaves the remainder modulo m as it is: both
   * remainders lie in [0, m) and differ by a multiple of m.
   */
  lemma ShiftMod(m: int, k: int, r: int)
    requires m == 4 || m == 100
    ensures (m * k + r) % m == r % m
  {
    var x := m * k + r;
    var a, b, c, d := x / m, x % m, r / m, r % m;
    assert x == m * a + b && 0 <= b < m;
    assert r == m * c + d && 0 <= d < m;
    var n := k + c - a;
    assert m * n == b - d;
  }

  // ---------------------------------------------------------------------
  // Business days

  lemma WeekdayShift(n: int, k: int)
    ensures Weekday(n + k) == (Weekday(n) + k) % 7
  {
  }

  lemma {:induction false} WeekdaysAtMostDays(lo: int, hi: int)
    requires lo <= hi + 1
    ensures WeekdaysIn(lo, hi) <= hi - lo + 1
    decreases hi - lo + 1
  {
    if lo <= hi {
      WeekdaysAtMostDays(lo, hi - 1);
    }
  }

  /** Counting a range in two consecutive pieces. */
  lemma {:induction false} WeekdaysSplit(lo: int, mid: int, hi: int)
    requires lo - 1 <= mid <= hi
    ensures WeekdaysIn(lo, hi) == WeekdaysIn(lo, mid) + WeekdaysIn(mid + 1, hi)
    decreases hi - mid
  {
    if mid < hi {
      WeekdaysSplit(lo, mid, hi - 1);
    }
  }

  function Mark(n: int): nat {
    if IsBusinessDay(n) then 1 else 0
  }

  lemma WeekdaysExtend(lo: int, hi: int)
    requires lo <= hi + 1
    ensures WeekdaysIn(lo, hi + 1) == WeekdaysIn(lo, hi) + Mark(hi + 1)
  {
  }

  /** Any seven consecutive days hold exactly five business days. */
  lemma FullWeek(lo: int)
    ensures WeekdaysIn(lo, lo + 6) == 5
  {
    assert WeekdaysIn(lo, lo - 1) == 0;
    WeekdaysExtend(lo, lo - 1); WeekdaysExtend(lo, lo); WeekdaysExtend(lo, lo + 1);
    WeekdaysExtend(lo, lo + 2); WeekdaysExtend(lo, lo + 3); WeekdaysExtend(lo, lo + 4);
    WeekdaysExtend(lo, lo + 5);
    var w := Weekday(lo);
    WeekdayShift(lo, 1); WeekdayShift(lo, 2); WeekdayShift(lo, 3);
    WeekdayShift(lo, 4); WeekdayShift(lo, 5); WeekdayShift(lo, 6);
    assert 0 <= w < 7;
    if w == 0 { } else if w == 1 { } else if w == 2 { } else if w == 3 { }
    else if w == 4 { } else if w == 5 { } else { }
  }

  /** Extending a range by a week adds exactly five business-day steps. */
  lemma WeekLater(lo: int, hi: int)
    requires lo <= hi + 1
    ensures BusinessSteps(lo, hi + 7) == BusinessSteps(lo, hi) + 5
  {
    WeekdaysSplit(lo, hi, hi + 7);
    FullWeek(hi + 1);
  }

  /** From a date on or before another, the business-day steps never exceed the calendar days. */
  lemma BusinessNotAfterCalendar(lo: int, hi: int)
    requires lo <= hi
    ensures BusinessSteps(lo, hi) <= hi - lo
  {
    WeekdaysAtMostDays(lo, hi);
  }

  /** The bound above fails when the range is reversed by two days or more: the count stays at -1. */
  lemma ReversedRangeExceedsCalendar(lo: int)
    ensures BusinessSteps(lo, lo - 2) == -1 > (lo - 2) - lo
  {
  }

  /** From a Friday to the following Monday is one business-day step. */
  lemma FridayToMonday(fri: int)
    requires Weekday(fri) == 4
    ensures BusinessSteps(fri, fri + 3) == 1
  {
    assert WeekdaysIn(fri, fri - 1) == 0;
    WeekdaysExtend(fri, fri - 1); WeekdaysExtend(fri, fri);
    WeekdaysExtend(fri, fri + 1); WeekdaysExtend(fri, fri + 2);
    WeekdayShift(fri, 1); WeekdayShift(fri, 2); WeekdayShift(fri, 3);
  }

  /** 19 January 2024 was a Friday, and the business-day count to Monday 22 January is 1. */
  lemma FridayToMondayExample()
    ensures Weekday(Ordinal(CivilDate(2024, 1, 19))) == 4
    ensures BusinessDayCount(CivilDate(2024, 1, 19), CivilDate(2024, 1, 22)) == 1
  {
    FridayToMonday(Ordinal(CivilDate(2024, 1, 19)));
  }
}
