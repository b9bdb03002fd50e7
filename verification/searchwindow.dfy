/** How far ahead the next-fire search has to look. */
module SearchWindow {
  import opened Options
  import opened Calendar
  import opened NextFire

  /** No answer from the search, although the schedule does fire at some time. */
  ghost predicate GivesUpWrongly(s: Schedule, now: LocalTime) {
    IsNextFire(s, now, None) && exists u :: Fires(s, u)
  }

  /** Some 29 February still lies ahead, from its first second on, in the years searched. */
  predicate LeapDayAhead(now: LocalTime) {
    var y := now.date.year;
    || IsLeap(y + 1) || IsLeap(y + 2) || IsLeap(y + 3) || IsLeap(y + 4)
    || (IsLeap(y) && Before(now, LocalTime(Date(y, 2, 29), 0, 0, 0, 0)))
  }

  function LeapYearAhead(now: LocalTime): (y: int)
    requires LeapDayAhead(now)
    ensures IsLeap(y) && now.date.year <= y <= now.date.year + 4
    ensures y == now.date.year ==> Before(now, LocalTime(Date(y, 2, 29), 0, 0, 0, 0))
  {
    var y := now.date.year;
    if IsLeap(y + 1) then y + 1
    else if IsLeap(y + 2) then y + 2
    else if IsLeap(y + 3) then y + 3
    else if IsLeap(y + 4) then y + 4
    else y
  }

  /** Every weekday occurs among the first seven days of a month. */
  lemma WeekdayInFirstWeek(y: int, m: int, w: int) returns (d: Date)
    requires 1 <= m <= 12 && 0 <= w < 7
    ensures ValidDate(d) && d.year == y && d.month == m && d.day <= 7 && WeekdayFromSunday(d) == w
  {
    var first := DayNumber(Date(y, m, 1));
    var shift := ShiftTo(first, w);
    d := Date(y, m, 1 + shift);
    hide DaysBeforeYear, DaysBeforeMonth;
    assert DayNumber(d) == first + shift;
  }

  lemma ShiftTo(first: int, w: int) returns (shift: int)
    requires 0 <= w < 7
    ensures 0 <= shift < 7 && (first + shift) % 7 == w
  {
    shift := (w - first % 7) % 7;
    assert first == 7 * (first / 7) + first % 7;
  }

  /** A schedule that fires at all fires on a day of the searched years that is wholly ahead. */
  lemma DayAhead(s: Schedule, u: LocalTime, now: LocalTime) returns (d: Date)
    requires s.Valid() && Fires(s, u) && ValidTime(now) && LeapDayAhead(now)
    ensures ValidDate(d) && d.month in s.months && DayMatches(s, d)
    ensures now.date.year <= d.year <= now.date.year + 4
    ensures d.year == now.date.year ==> Before(now, LocalTime(d, 0, 0, 0, 0))
  {
    if |s.daysOfWeek| < 7 && (u.date.day !in s.daysOfMonth || |s.daysOfMonth| >= 31) {
      d := WeekdayInFirstWeek(now.date.year + 1, u.date.month, WeekdayFromSunday(u.date));
    } else {
      d := SameDayAhead(u.date, now);
    }
  }

  lemma SameDayAhead(u: Date, now: LocalTime) returns (d: Date)
    requires ValidDate(u) && ValidTime(now) && LeapDayAhead(now)
    ensures ValidDate(d) && d.month == u.month && d.day == u.day
    ensures now.date.year <= d.year <= now.date.year + 4
    ensures d.year == now.date.year ==> Before(now, LocalTime(d, 0, 0, 0, 0))
  {
    d := Date(if u.month == 2 && u.day == 29 then LeapYearAhead(now) else now.date.year + 1, u.month, u.day);
  }

  lemma EnoughWithLeapDay(s: Schedule, u: LocalTime, now: LocalTime)
    requires s.Valid() && Fires(s, u) && ValidTime(now) && LeapDayAhead(now)
    ensures !IsNextFire(s, now, None)
  {
    var d := DayAhead(s, u, now);
    var v := LocalTime(d, u.hour, u.minute, u.second, 0);
    assert Upcoming(s, now, v);
  }

  /** "0 0 0 29 2 * *": midnight on 29 February. */
  const LEAP_DAY_MIDNIGHT: Schedule := Schedule([0], [0], [0], [29], [2], [1, 2, 3, 4, 5, 6, 7])

  lemma LeapDayMissed(now: LocalTime)
    requires ValidTime(now) && !LeapDayAhead(now)
    ensures LEAP_DAY_MIDNIGHT.Valid() && GivesUpWrongly(LEAP_DAY_MIDNIGHT, now)
  {
    forall u | Upcoming(LEAP_DAY_MIDNIGHT, now, u)
      ensures u.date.year >= now.date.year + SEARCHED_YEARS
    {
      assert u.date.month == 2 && u.date.day == 29 && IsLeap(u.date.year);
      assert u == LocalTime(Date(u.date.year, 2, 29), 0, 0, 0, 0);
    }
    assert Fires(LEAP_DAY_MIDNIGHT, LocalTime(Date(2024, 2, 29), 0, 0, 0, 0));
  }

  /** Five calendar years are enough for every schedule exactly when a 29 February lies ahead in them. */
  lemma FiveYearsAreEnough(now: LocalTime)
    requires ValidTime(now)
    ensures LeapDayAhead(now) <==> forall s: Schedule | s.Valid() :: !GivesUpWrongly(s, now)
  {
    if LeapDayAhead(now) {
      forall s: Schedule | s.Valid()
        ensures !GivesUpWrongly(s, now)
      {
        if GivesUpWrongly(s, now) {
          var u :| Fires(s, u);
          EnoughWithLeapDay(s, u, now);
        }
      }
    } else {
      LeapDayMissed(now);
    }
  }

  predicate SkipsLeapDay(y: int) {
    y % 100 == 0 && y % 400 != 0
  }

  /** Away from the centuries that skip their leap day the search never gives up wrongly. */
  lemma EnoughAwayFromSkippedCenturies(s: Schedule, now: LocalTime)
    requires s.Valid() && ValidTime(now)
    requires forall y :: now.date.year <= y <= now.date.year + 4 ==> !SkipsLeapDay(y)
    ensures !GivesUpWrongly(s, now)
  {
    LeapYearInFour(now.date.year);
    FiveYearsAreEnough(now);
  }

  lemma LeapYearInFour(y: int)
    requires forall x :: y <= x <= y + 4 ==> !SkipsLeapDay(x)
    ensures exists x :: y < x <= y + 4 && IsLeap(x)
  {
    var x := if y % 4 == 0 then y + 4 else y + 4 - y % 4;
    assert !SkipsLeapDay(x) && x % 4 == 0;
    assert IsLeap(x);
  }

  /** Around 2100 it does: on 1 March 2096 the next 29 February is in 2104. */
  lemma GivesUpBefore2100()
    ensures GivesUpWrongly(LEAP_DAY_MIDNIGHT, LocalTime(Date(2096, 3, 1), 0, 0, 0, 0))
  {
    LeapDayMissed(LocalTime(Date(2096, 3, 1), 0, 0, 0, 0));
  }

  // ---- one schedule at one time ----

  /** By its fields, the schedule names 29 February and no other day. */
  predicate OnlyLeapDays(s: Schedule) {
    && s.seconds != [] && s.minutes != [] && s.hours != []
    && s.months == [2] && 29 in s.daysOfMonth && (forall d :: d in s.daysOfMonth ==> d >= 29)
    && (s.daysOfWeek == [] || |s.daysOfWeek| >= 7)
  }

  function LastOf(ordinals: seq<int>): int
    requires ordinals != []
  {
    ordinals[|ordinals| - 1]
  }

  function LastOnLeapDay(s: Schedule, y: int): LocalTime
    requires OnlyLeapDays(s)
  {
    LocalTime(Date(y, 2, 29), LastOf(s.hours), LastOf(s.minutes), LastOf(s.seconds), 0)
  }

  /** No year searched has a 29 February, but possibly the first, with its last fire behind. */
  predicate LeapDaysBehind(s: Schedule, now: LocalTime)
    requires OnlyLeapDays(s)
  {
    var y := now.date.year;
    && !IsLeap(y + 1) && !IsLeap(y + 2) && !IsLeap(y + 3) && !IsLeap(y + 4)
    && (IsLeap(y) ==> !Before(now, LastOnLeapDay(s, y)))
  }

  lemma FiresOnALeapDay(s: Schedule, u: LocalTime)
    requires s.Valid() && OnlyLeapDays(s)
    ensures Fires(s, u) ==> u.date.month == 2 && u.date.day == 29 && IsLeap(u.date.year)
    ensures Fires(s, u) ==> !Before(LastOnLeapDay(s, u.date.year), u)
    ensures IsLeap(u.date.year) ==> Fires(s, LastOnLeapDay(s, u.date.year))
  {
    hide DayNumber;
    Few(s.daysOfMonth);
    assert LastOf(s.hours) in s.hours && LastOf(s.minutes) in s.minutes && LastOf(s.seconds) in s.seconds;
  }

  lemma Few(days: seq<int>)
    requires Ascending(days, 1, 31) && forall d :: d in days ==> d >= 29
    ensures |days| < 31
  {
    if |days| >= 31 {
      assert days[0] in days;
      LongTail(days, 3);
    }
  }

  lemma {:induction false} LongTail(days: seq<int>, k: nat)
    requires Ascending(days, 1, 31) && k < |days|
    ensures days[k] >= days[0] + k
  {
    if k > 0 { LongTail(days, k - 1); }
  }

  lemma OnlyLeapDaysBehind(s: Schedule, now: LocalTime)
    requires s.Valid() && ValidTime(now) && OnlyLeapDays(s) && LeapDaysBehind(s, now)
    ensures GivesUpWrongly(s, now)
  {
    hide DayMatches, Fires, OnlyLeapDays;
    forall u | Upcoming(s, now, u) ensures u.date.year >= now.date.year + SEARCHED_YEARS {
      FiresOnALeapDay(s, u);
    }
    FiresOnALeapDay(s, LocalTime(Date(2024, 1, 1), 0, 0, 0, 0));
    assert IsLeap(2024);
  }

  /** A day of the next years that the schedule names is found. */
  lemma FoundOn(s: Schedule, u: LocalTime, now: LocalTime, d: Date)
    requires ValidTime(now) && Fires(s, u) && ValidDate(d) && d.month in s.months && DayMatches(s, d)
    requires now.date.year < d.year <= now.date.year + 4
    ensures !IsNextFire(s, now, None)
  {
    hide DayMatches;
    assert Upcoming(s, now, LocalTime(d, u.hour, u.minute, u.second, 0));
  }

  lemma WeekdaysAreFound(s: Schedule, u: LocalTime, now: LocalTime)
    requires s.Valid() && ValidTime(now) && Fires(s, u) && s.daysOfWeek != [] && |s.daysOfWeek| < 7
    ensures !IsNextFire(s, now, None)
  {
    hide DayNumber;
    var w := s.daysOfWeek[0];
    assert w in s.daysOfWeek;
    var d := WeekdayInFirstWeek(now.date.year + 1, u.date.month, w - 1);
    FoundOn(s, u, now, d);
  }

  /** A day that every year has is found. */
  lemma YearlyDayIsFound(s: Schedule, u: LocalTime, now: LocalTime, m: int, day: int)
    requires s.Valid() && ValidTime(now) && Fires(s, u) && m in s.months && (s.daysOfWeek == [] || |s.daysOfWeek| >= 7)
    requires day in s.daysOfMonth && (m != 2 || day != 29) && ValidDate(Date(2024, m, day))
    ensures !IsNextFire(s, now, None)
  {
    hide DayNumber;
    FoundOn(s, u, now, Date(now.date.year + 1, m, day));
  }

  lemma OpenMonthIsFound(s: Schedule, u: LocalTime, now: LocalTime)
    requires s.Valid() && ValidTime(now) && Fires(s, u) && |s.daysOfMonth| >= 31 && |s.daysOfWeek| >= 7
    ensures !IsNextFire(s, now, None)
  {
    hide DayNumber;
    FoundOn(s, u, now, Date(now.date.year + 1, u.date.month, 1));
  }

  lemma OtherwiseFound(s: Schedule, u: LocalTime, now: LocalTime)
    requires s.Valid() && ValidTime(now) && Fires(s, u) && IsNextFire(s, now, None)
    ensures OnlyLeapDays(s)
  {
    hide IsNextFire, DayNumber;
    if s.daysOfWeek != [] && |s.daysOfWeek| < 7 { WeekdaysAreFound(s, u, now); }
    if |s.daysOfMonth| >= 31 && |s.daysOfWeek| >= 7 { OpenMonthIsFound(s, u, now); }
    assert u.date.day in s.daysOfMonth;
    hide DayMatches;
    if u.date.month != 2 || u.date.day != 29 { YearlyDayIsFound(s, u, now, u.date.month, u.date.day); }
    forall m | m in s.months ensures m == 2 {
      if m != 2 { YearlyDayIsFound(s, u, now, m, 29); }
    }
    forall d | d in s.daysOfMonth ensures d >= 29 {
      if d < 29 { YearlyDayIsFound(s, u, now, 2, d); }
    }
    OnlyMonth(s.months);
  }

  lemma OnlyMonth(months: seq<int>)
    requires Ascending(months, 1, 12) && 2 in months && forall m :: m in months ==> m == 2
    ensures months == [2]
  {
    assert months[0] in months && months[|months| - 1] in months;
  }

  lemma FoundOnALeapDay(s: Schedule, now: LocalTime)
    requires s.Valid() && ValidTime(now) && OnlyLeapDays(s) && !LeapDaysBehind(s, now)
    ensures !IsNextFire(s, now, None)
  {
    hide DayMatches, DayNumber, OnlyLeapDays;
    var y := now.date.year;
    var leap := if IsLeap(y + 1) then y + 1 else if IsLeap(y + 2) then y + 2 else if IsLeap(y + 3) then y + 3
                else if IsLeap(y + 4) then y + 4 else y;
    FiresOnALeapDay(s, LastOnLeapDay(s, leap));
    assert Upcoming(s, now, LastOnLeapDay(s, leap));
  }

  /**
   * For each schedule at each time, the search gives up wrongly exactly when the schedule names 29 February
   * alone and no year searched has one with a fire still to come.
   */
  lemma GivesUpWronglyIff(s: Schedule, now: LocalTime)
    requires s.Valid() && ValidTime(now)
    ensures GivesUpWrongly(s, now) <==> OnlyLeapDays(s) && LeapDaysBehind(s, now)
  {
    hide OnlyLeapDays, LeapDaysBehind, IsNextFire, Fires;
    if GivesUpWrongly(s, now) {
      var u :| Fires(s, u);
      OtherwiseFound(s, u, now);
      if !LeapDaysBehind(s, now) { FoundOnALeapDay(s, now); }
    }
    if OnlyLeapDays(s) && LeapDaysBehind(s, now) { OnlyLeapDaysBehind(s, now); }
  }
}
