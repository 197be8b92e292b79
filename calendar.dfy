/** Civil dates as Python's `datetime` counts them: the proleptic Gregorian
    calendar from year 1, the day ordinal of `date.toordinal()` and the
    weekday of `date.weekday()` (Monday is 0). */
module Calendar {

  datatype Date = Date(year: int, month: int, day: int)

  /** A moment as far as the core looks at it: date, hour and minute. */
  datatype Timestamp = Timestamp(date: Date, hour: int, minute: int)

  const MinDate := Date(1, 1, 1)

  predicate IsLeapYear(y: int) {
    y % 4 == 0 && (y % 100 != 0 || y % 400 == 0)
  }

  function DaysInMonth(y: int, m: int): (n: int)
    requires 1 <= m <= 12
    ensures 28 <= n <= 31
  {
    if m == 2 then (if IsLeapYear(y) then 29 else 28)
    else if m == 4 || m == 6 || m == 9 || m == 11 then 30
    else 31
  }

  /** The range `datetime.date` accepts. */
  predicate ValidDate(d: Date) {
    1 <= d.year <= 9999 && 1 <= d.month <= 12 && 1 <= d.day <= DaysInMonth(d.year, d.month)
  }

  predicate ValidTimestamp(t: Timestamp) {
    ValidDate(t.date) && 0 <= t.hour < 24 && 0 <= t.minute < 60
  }

  /** Days in the years before `y` (CPython's `_days_before_year`). */
  function DaysBeforeYear(y: int): int {
    var p := y - 1;
    p * 365 + p / 4 - p / 100 + p / 400
  }

  /** Days in the months of year `y` before month `m` (CPython's `_days_before_month`). */
  function DaysBeforeMonth(y: int, m: int): int
    requires 1 <= m <= 12
  {
    var table := [0, 31, 59, 90, 120, 151, 181, 212, 243, 273, 304, 334];
    table[m - 1] + (if m > 2 && IsLeapYear(y) then 1 else 0)
  }

  /** `date.toordinal()`: 0001-01-01 is day 1. */
  function Ordinal(d: Date): int
    requires ValidDate(d)
  {
    DaysBeforeYear(d.year) + DaysBeforeMonth(d.year, d.month) + d.day
  }

  /** `date.weekday()`: Monday is 0, Sunday is 6. */
  function Weekday(d: Date): (w: int)
    requires ValidDate(d)
    ensures 0 <= w < 7
  {
    (Ordinal(d) + 6) % 7
  }

  /** The calendar day before `d`, what `d - timedelta(days=1)` yields. */
  function PrevDay(d: Date): Date
    requires ValidDate(d) && d != MinDate
  {
    if d.day > 1 then Date(d.year, d.month, d.day - 1)
    else if d.month > 1 then Date(d.year, d.month - 1, DaysInMonth(d.year, d.month - 1))
    else Date(d.year - 1, 12, 31)
  }

  /** The ordinal of one month's first day follows the previous month's last. */
  lemma MonthStep(y: int, m: int)
    requires 2 <= m <= 12
    ensures DaysBeforeMonth(y, m) == DaysBeforeMonth(y, m - 1) + DaysInMonth(y, m - 1)
  {
  }

  /** A year's first day follows the previous year's 31 December. */
  lemma YearStep(y: int)
    requires 2 <= y
    ensures DaysBeforeYear(y) == DaysBeforeYear(y - 1) + DaysBeforeMonth(y - 1, 12) + 31
  {
    var p := y - 1;
    DivStep4(p);
    DivStep100(p);
    DivStep400(p);
    assert DaysBeforeMonth(y - 1, 12) == 334 + (if IsLeapYear(p) then 1 else 0);
  }

  /** Stepping up by one raises each quotient exactly at its multiples. */
  lemma DivStep4(p: int)
    ensures p / 4 - (p - 1) / 4 == (if p % 4 == 0 then 1 else 0)
  {
  }

  lemma DivStep100(p: int)
    ensures p / 100 - (p - 1) / 100 == (if p % 100 == 0 then 1 else 0)
  {
  }

  lemma DivStep400(p: int)
    ensures p / 400 - (p - 1) / 400 == (if p % 400 == 0 then 1 else 0)
  {
  }

  /** The day before is a real date exactly one day earlier. */
  lemma PrevDayIsOneDayEarlier(d: Date)
    requires ValidDate(d) && d != MinDate
    ensures ValidDate(PrevDay(d))
    ensures Ordinal(PrevDay(d)) == Ordinal(d) - 1
  {
    if d.day == 1 {
      if d.month > 1 {
        var p := Date(d.year, d.month - 1, DaysInMonth(d.year, d.month - 1));
        assert PrevDay(d) == p;
        MonthStep(d.year, d.month);
        assert Ordinal(p) == DaysBeforeYear(d.year) + DaysBeforeMonth(d.year, d.month);
      } else {
        PrevYearEnd(d.year);
      }
    }
  }

  /** 31 December of the year before `y` is the day before 1 January of `y`. */
  lemma PrevYearEnd(y: int)
    requires 2 <= y <= 9999
    ensures ValidDate(Date(y - 1, 12, 31)) && ValidDate(Date(y, 1, 1))
    ensures Ordinal(Date(y - 1, 12, 31)) == Ordinal(Date(y, 1, 1)) - 1
  {
    YearStep(y);
    assert Ordinal(Date(y, 1, 1)) == DaysBeforeYear(y) + 1;
  }

  /** So the weekday of the day before is the previous weekday. */
  lemma PrevDayWeekday(d: Date)
    requires ValidDate(d) && d != MinDate
    ensures ValidDate(PrevDay(d))
    ensures Weekday(PrevDay(d)) == (Weekday(d) + 6) % 7
  {
    PrevDayIsOneDayEarlier(d);
    WeekdayStep(Ordinal(d));
  }

  lemma WeekdayStep(o: int)
    ensures (o - 1 + 6) % 7 == ((o + 6) % 7 + 6) % 7
  {
    var q := (o + 6) / 7;
    var r := (o + 6) % 7;
    assert o + 6 == 7 * q + r;
    if r == 0 {
      assert o + 5 == 7 * (q - 1) + 6;
    } else {
      assert o + 5 == 7 * q + (r - 1);
    }
  }

  /** The weekday rule agrees with the calendar: 1 January 2024 was a Monday. */
  lemma WeekdayExample()
    ensures Weekday(Date(2024, 1, 1)) == 0
  {
  }
}
