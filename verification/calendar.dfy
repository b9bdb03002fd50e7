/** The proleptic Gregorian calendar and wall-clock times, as `chrono` keeps them. */
module Calendar {
  import opened Options

  datatype Date = Date(year: int, month: int, day: int)

  predicate IsLeap(y: int) {
    y % 4 == 0 && (y % 100 != 0 || y % 400 == 0)
  }

  function DaysInMonth(y: int, m: int): int {
    if m == 2 then (if IsLeap(y) then 29 else 28)
    else if m == 4 || m == 6 || m == 9 || m == 11 then 30
    else 31
  }

  predicate ValidDate(d: Date) {
    1 <= d.month <= 12 && 1 <= d.day <= DaysInMonth(d.year, d.month)
  }

  /** `NaiveDate::from_ymd_opt`. */
  function FromYmd(y: int, m: int, d: int): Option<Date> {
    if ValidDate(Date(y, m, d)) then Some(Date(y, m, d)) else None
  }

  /** `NaiveDate::pred_opt`: the day before. */
  function Pred(d: Date): Date {
    if d.day > 1 then d.(day := d.day - 1)
    else if d.month > 1 then Date(d.year, d.month - 1, DaysInMonth(d.year, d.month - 1))
    else Date(d.year - 1, 12, 31)
  }

  predicate DateBefore(a: Date, b: Date) {
    || a.year < b.year
    || (a.year == b.year && (a.month < b.month || (a.month == b.month && a.day < b.day)))
  }

  /** Days before 1 January of year `y`, counted from 1 January of year 1. */
  function DaysBeforeYear(y: int): int {
    365 * (y - 1) + (y - 1) / 4 - (y - 1) / 100 + (y - 1) / 400
  }

  function YearDays(y: int): int {
    if IsLeap(y) then 366 else 365
  }

  function DaysBeforeMonth(y: int, m: int): int
    decreases m
  {
    if m <= 1 then 0 else DaysBeforeMonth(y, m - 1) + DaysInMonth(y, m - 1)
  }

  /** `num_days_from_ce`: 1 January of year 1 is day 1. */
  function DayNumber(d: Date): int {
    DaysBeforeYear(d.year) + DaysBeforeMonth(d.year, d.month) + d.day
  }

  /** `weekday().num_days_from_sunday()`: day 1 of the count is a Monday. */
  function WeekdayFromSunday(d: Date): int {
    DayNumber(d) % 7
  }

  lemma YearLength(y: int)
    ensures DaysBeforeYear(y + 1) == DaysBeforeYear(y) + YearDays(y)
  {
    NextMultiple(y, 4);
    NextMultiple(y, 100);
    NextMultiple(y, 400);
    assert y % 100 == 0 ==> y % 4 == 0;
    assert y % 400 == 0 ==> y % 100 == 0;
  }

  lemma NextMultiple(y: int, n: int)
    requires n > 0
    ensures y / n - (y - 1) / n == if y % n == 0 then 1 else 0
  {
    var q, r := y / n, y % n;
    assert y == q * n + r;
    if r == 0 {
      DivIs(y - 1, n, q - 1, n - 1);
    } else {
      DivIs(y - 1, n, q, r - 1);
    }
  }

  lemma DivIs(y: int, n: int, q: int, r: int)
    requires 0 <= r < n && y == q * n + r
    ensures y / n == q
  {
    var d := y / n - q;
    assert y == (y / n) * n + y % n;
    assert d * n == r - y % n;
    if d >= 1 { AtLeast(d, n); } else if d <= -1 { AtLeast(-d, n); }
  }

  lemma AtLeast(d: int, n: int)
    requires d >= 1 && n > 0
    ensures d * n >= n
  {
  }

  lemma {:induction false} YearsGrow(a: int, b: int)
    requires a <= b
    ensures DaysBeforeYear(a) + 365 * (b - a) <= DaysBeforeYear(b)
    decreases b - a
  {
    if a < b {
      YearsGrow(a, b - 1);
      YearLength(b - 1);
    }
  }

  lemma YearEnd(y: int)
    ensures DaysBeforeMonth(y, 12) + 31 == YearDays(y)
  {
  }

  lemma {:induction false} MonthsGrow(y: int, a: int, b: int)
    requires 1 <= a < b
    ensures DaysBeforeMonth(y, a) + DaysInMonth(y, a) <= DaysBeforeMonth(y, b)
    decreases b
  {
    if a < b - 1 {
      MonthsGrow(y, a, b - 1);
    }
  }

  /** The day count never skips and never repeats: the day before has the number before. */
  lemma PredIsPreviousDay(d: Date)
    requires ValidDate(d)
    ensures ValidDate(Pred(d)) && DayNumber(Pred(d)) == DayNumber(d) - 1
    ensures WeekdayFromSunday(d) == (WeekdayFromSunday(Pred(d)) + 1) % 7
  {
    if d.day == 1 && d.month == 1 {
      YearEnd(d.year - 1);
      YearLength(d.year - 1);
      hide DaysBeforeYear, YearDays;
    } else {
      hide DaysBeforeYear;
    }
  }

  lemma {:induction false} DaysBeforeMonthNat(y: int, m: int)
    ensures 0 <= DaysBeforeMonth(y, m)
    decreases m
  {
    if m > 1 { DaysBeforeMonthNat(y, m - 1); }
  }

  lemma DayOfYearBound(d: Date)
    requires ValidDate(d)
    ensures 1 <= DaysBeforeMonth(d.year, d.month) + d.day <= YearDays(d.year)
  {
    DaysBeforeMonthNat(d.year, d.month);
    YearEnd(d.year);
    if d.month < 12 { MonthsGrow(d.year, d.month, 12); }
  }

  lemma DayNumberGrows(a: Date, b: Date)
    requires ValidDate(a) && ValidDate(b) && DateBefore(a, b)
    ensures DayNumber(a) < DayNumber(b)
  {
    if a.year < b.year {
      DayOfYearBound(a);
      DayOfYearBound(b);
      YearLength(a.year);
      YearsGrow(a.year + 1, b.year);
    } else if a.month < b.month {
      MonthsGrow(a.year, a.month, b.month);
    }
  }

  /** A wall-clock time in the configured zone, to the nanosecond. */
  datatype LocalTime = LocalTime(date: Date, hour: int, minute: int, second: int, nano: int)

  predicate ValidTime(t: LocalTime) {
    && ValidDate(t.date)
    && 0 <= t.hour < 24 && 0 <= t.minute < 60 && 0 <= t.second < 60
    && 0 <= t.nano < 1_000_000_000
  }

  /** Chronological order, read off the fields from the year down. */
  predicate Before(a: LocalTime, b: LocalTime) {
    if a.date != b.date then DateBefore(a.date, b.date)
    else if a.hour != b.hour then a.hour < b.hour
    else if a.minute != b.minute then a.minute < b.minute
    else if a.second != b.second then a.second < b.second
    else a.nano < b.nano
  }

  /** Nanoseconds on the UTC time line of a local time, `offset` minutes east of UTC. */
  function UtcNanos(t: LocalTime, offset: int): int {
    ((((DayNumber(t.date) * 24 + t.hour) * 60 + t.minute - offset) * 60) + t.second) * 1_000_000_000 + t.nano
  }

  lemma BeforeIsEarlier(a: LocalTime, b: LocalTime, offset: int)
    requires ValidTime(a) && ValidTime(b) && Before(a, b)
    ensures UtcNanos(a, offset) < UtcNanos(b, offset)
  {
    if a.date != b.date {
      DayNumberGrows(a.date, b.date);
    }
  }

  /** Field order and the UTC time line agree, whatever the offset. */
  lemma OrderIsChronological(a: LocalTime, b: LocalTime, offset: int)
    requires ValidTime(a) && ValidTime(b)
    ensures Before(a, b) <==> UtcNanos(a, offset) < UtcNanos(b, offset)
    ensures a == b <==> UtcNanos(a, offset) == UtcNanos(b, offset)
  {
    if Before(a, b) {
      BeforeIsEarlier(a, b, offset);
    } else if a != b {
      assert Before(b, a);
      BeforeIsEarlier(b, a, offset);
    }
  }

  /** When the months of a year begin: their first days, counted from 1 January. */
  lemma {:induction false} MonthsBegin(y: int, m: int)
    requires 1 <= m <= 12
    ensures DayNumber(Date(y, m, 1)) - DayNumber(Date(y, 1, 1)) ==
      [0, 31, 59, 90, 120, 151, 181, 212, 243, 273, 304, 334][m - 1]
      + if m >= 3 && y % 4 == 0 && (y % 100 != 0 || y % 400 == 0) then 1 else 0
  {
    hide DaysBeforeYear;
    if m > 1 { MonthsBegin(y, m - 1); }
  }

  /** A year has 365 days, and one more when it is a multiple of 4 but not of 100, or of 400. */
  lemma YearsBegin(y: int)
    ensures DayNumber(Date(y + 1, 1, 1)) - DayNumber(Date(y, 1, 1)) ==
      if y % 4 == 0 && (y % 100 != 0 || y % 400 == 0) then 366 else 365
  {
    YearLength(y);
    hide DaysBeforeYear;
  }

  /** The dates there are: the days of each month, numbered in order from its first. */
  lemma DaysOfMonth(y: int, m: int, d: int)
    ensures ValidDate(Date(y, m, d)) <==>
      1 <= m <= 12 && 1 <= d <= [31, if y % 4 == 0 && (y % 100 != 0 || y % 400 == 0) then 29 else 28,
                                 31, 30, 31, 30, 31, 31, 30, 31, 30, 31][m - 1]
    ensures DayNumber(Date(y, m, d)) == DayNumber(Date(y, m, 1)) + d - 1
    ensures FromYmd(y, m, d) == if ValidDate(Date(y, m, d)) then Some(Date(y, m, d)) else None
  {
    hide DaysBeforeYear;
  }

  /** The time line: 86400 seconds from a time of day to the same on the next day, `offset` minutes ahead of UTC. */
  lemma TimeLine(t: LocalTime, offset: int)
    requires ValidTime(t)
    ensures UtcNanos(t, offset) - UtcNanos(t.(date := Pred(t.date)), offset) == 86_400_000_000_000
    ensures UtcNanos(t, offset) - UtcNanos(LocalTime(t.date, 0, 0, 0, 0), offset) ==
      t.nano + 1_000_000_000 * t.second + 60_000_000_000 * t.minute + 3_600_000_000_000 * t.hour
    ensures UtcNanos(t, offset) == UtcNanos(t, 0) - 60_000_000_000 * offset
  {
    PredIsPreviousDay(t.date);
    hide DayNumber, Pred;
  }

  /** Fixed points of the day count: 1970-01-01 was day 719163, a Thursday. */
  lemma Anchors()
    ensures DayNumber(Date(1970, 1, 1)) == 719163 && WeekdayFromSunday(Date(1970, 1, 1)) == 4
    ensures WeekdayFromSunday(Date(2026, 5, 23)) == 6
  {
  }
}
