/** The calendar search of the cron scheduler: the next local instant a schedule fires at. */
module NextFire {
  import opened Options
  import opened Calendar

  /** A field of a parsed schedule: its ordinals, iterated in ascending order. */
  ghost predicate Ascending(s: seq<int>, lo: int, hi: int) {
    && (forall i :: 0 <= i < |s| ==> lo <= s[i] <= hi)
    && (forall i, j :: 0 <= i < j < |s| ==> s[i] < s[j])
  }

  /** A parsed schedule without its year field, which the search never reads.
      Days of the week count from 1 = Sunday. */
  datatype Schedule = Schedule(
    seconds: seq<int>, minutes: seq<int>, hours: seq<int>,
    daysOfMonth: seq<int>, months: seq<int>, daysOfWeek: seq<int>)
  {
    ghost predicate Valid() {
      && Ascending(seconds, 0, 59) && Ascending(minutes, 0, 59) && Ascending(hours, 0, 23)
      && Ascending(daysOfMonth, 1, 31) && Ascending(months, 1, 12) && Ascending(daysOfWeek, 1, 7)
    }
  }

  /** Day-of-month and day-of-week are alternatives when both are restricted. */
  predicate DayMatches(s: Schedule, d: Date) {
    var domRestricted := |s.daysOfMonth| < 31;
    var dowRestricted := |s.daysOfWeek| < 7;
    var domOk := d.day in s.daysOfMonth;
    var dowOk := WeekdayFromSunday(d) + 1 in s.daysOfWeek;
    if domRestricted && dowRestricted then domOk || dowOk
    else if domRestricted then domOk
    else if dowRestricted then dowOk
    else true
  }

  /** A whole second the schedule names. */
  ghost predicate Fires(s: Schedule, t: LocalTime) {
    && ValidTime(t) && t.nano == 0
    && t.date.month in s.months && DayMatches(s, t.date)
    && t.hour in s.hours && t.minute in s.minutes && t.second in s.seconds
  }

  /** A firing instant still to come. */
  ghost predicate Upcoming(s: Schedule, now: LocalTime, t: LocalTime) {
    Fires(s, t) && Before(now, t)
  }

  /** Years searched: the current one and four more. */
  const SEARCHED_YEARS: int := 5

  /** What the search promises: the least upcoming instant, or the absence of any in the years searched. */
  ghost predicate IsNextFire(s: Schedule, now: LocalTime, next: Option<LocalTime>) {
    match next
    case Some(t) =>
      && Upcoming(s, now, t) && t.date.year < now.date.year + SEARCHED_YEARS
      && forall u :: Upcoming(s, now, u) ==> !Before(u, t)
    case None =>
      forall u :: Upcoming(s, now, u) ==> u.date.year >= now.date.year + SEARCHED_YEARS
  }

  /** The spans of time the nested loops cover, from the outside in. */
  datatype Span = OfYear(y: int) | OfMonth(y: int, m: int) | OfDay(d: Date) | OfHour(d: Date,
      h: int) | OfMinute(d: Date, h: int, min: int)

  predicate Within(t: LocalTime, span: Span) {
    match span
    case OfYear(y) => t.date.year == y
    case OfMonth(y, m) => t.date.year == y && t.date.month == m
    case OfDay(d) => t.date == d
    case OfHour(d, h) => t.date == d && t.hour == h
    case OfMinute(d, h, min) => t.date == d && t.hour == h && t.minute == min
  }

  /** The least upcoming instant of a span, or the absence of any. */
  ghost predicate LeastWithin(s: Schedule, now: LocalTime, span: Span, r: Option<LocalTime>) {
    match r
    case Some(t) => Upcoming(s, now, t) && Within(t, span) && forall u :: Upcoming(s, now, u) && Within(u, span) ==>
      !Before(u, t)
    case None => forall u :: Upcoming(s, now, u) ==> !Within(u, span)
  }

  method FireInMinute(s: Schedule, now: LocalTime, date: Date, hour: int, minute: int) returns (r: Option<LocalTime>)
    requires s.Valid() && ValidTime(now) && ValidDate(date) && date.month in s.months && DayMatches(s, date)
    requires hour in s.hours && minute in s.minutes
    ensures LeastWithin(s, now, OfMinute(date, hour, minute), r)
  {
    for k := 0 to |s.seconds|
      invariant forall u :: Upcoming(s, now, u) && Within(u, OfMinute(date, hour, minute)) ==>
        u.second !in s.seconds[..k]
    {
      var t := LocalTime(date, hour, minute, s.seconds[k], 0);
      if Before(now, t) {
        return Some(t);
      }
    }
    return None;
  }

  method FireOnDay(s: Schedule, now: LocalTime, date: Date, today: bool) returns (r: Option<LocalTime>)
    requires s.Valid() && ValidTime(now) && ValidDate(date) && date.month in s.months && DayMatches(s, date)
    requires today <==> date == now.date
    ensures LeastWithin(s, now, OfDay(date), r)
  {
    var firstHour := if today then now.hour else 0;
    for hour := firstHour to 24
      invariant forall u :: Upcoming(s, now, u) && Within(u, OfDay(date)) ==> u.hour >= hour
    {
      if hour !in s.hours { continue; }
      var firstMin := if today && hour == now.hour then now.minute else 0;
      for minute := firstMin to 60
        invariant forall u :: Upcoming(s, now, u) && Within(u, OfHour(date, hour)) ==> u.minute >= minute
      {
        if minute !in s.minutes { continue; }
        r := FireInMinute(s, now, date, hour, minute);
        if r.Some? { return; }
      }
    }
    return None;
  }

  method FireInMonth(s: Schedule, now: LocalTime, year: int, month: int,
      isFirstYear: bool) returns (r: Option<LocalTime>)
    requires s.Valid() && ValidTime(now) && month in s.months
    requires isFirstYear <==> year == now.date.year
    requires isFirstYear ==> month >= now.date.month
    ensures LeastWithin(s, now, OfMonth(year, month), r)
  {
    hide DayMatches, Pred;
    LastDay(year, month);
    FirstDay(s, now, year, month, isFirstYear);
    var firstDay := if isFirstYear && month == now.date.month then now.date.day else 1;
    var nextMonth := FromYmd(if month == 12 then year + 1 else year, if month == 12 then 1 else month + 1, 1);
    var lastDay := Pred(nextMonth.value).day;
    for day := firstDay to lastDay + 1
      invariant forall u :: Upcoming(s, now, u) && Within(u, OfMonth(year, month)) ==> u.date.day >= day
    {
      var date := FromYmd(year, month, day).value;
      if !DayMatches(s, date) { continue; }
      r := FireOnDay(s, now, date, isFirstYear && month == now.date.month && day == now.date.day);
      if r.Some? { return; }
    }
    return None;
  }

  /** The day before the first of the next month is the last of this one. */
  lemma LastDay(year: int, month: int)
    requires 1 <= month <= 12
    ensures var next := FromYmd(if month == 12 then year + 1 else year, if month == 12 then 1 else month + 1, 1);
      next.Some? && Pred(next.value).day == DaysInMonth(year, month)
  {
  }

  lemma FirstDay(s: Schedule, now: LocalTime, year: int, month: int, isFirstYear: bool)
    requires isFirstYear <==> year == now.date.year
    requires isFirstYear ==> month >= now.date.month
    ensures forall u :: Upcoming(s, now, u) && Within(u, OfMonth(year, month)) ==>
      u.date.day >= if isFirstYear && month == now.date.month then now.date.day else 1
  {
    hide DayMatches;
  }

  method FireInYear(s: Schedule, now: LocalTime, year: int) returns (r: Option<LocalTime>)
    requires s.Valid() && ValidTime(now) && year >= now.date.year
    ensures LeastWithin(s, now, OfYear(year), r)
  {
    var isFirstYear := year == now.date.year;
    for j := 0 to |s.months|
      invariant forall u :: Upcoming(s, now, u) && Within(u, OfYear(year)) ==> u.date.month !in s.months[..j]
    {
      var month := s.months[j];
      assert s.months[..j + 1] == s.months[..j] + [month];
      if isFirstYear && month < now.date.month { continue; }
      r := FireInMonth(s, now, year, month, isFirstYear);
      if r.Some? {
        EarlierMonthsPassed(s, j);
        return;
      }
    }
    return None;
  }

  lemma EarlierMonthsPassed(s: Schedule, j: nat)
    requires s.Valid() && j < |s.months|
    ensures forall m :: m in s.months && m < s.months[j] ==> m in s.months[..j]
  {
  }

  /** The five-level search of the scheduler; the levels are methods of their own. */
  method NextLocalFire(s: Schedule, now: LocalTime) returns (next: Option<LocalTime>)
    requires s.Valid() && ValidTime(now)
    ensures IsNextFire(s, now, next)
  {
    var year := now.date.year;
    for n := 0 to SEARCHED_YEARS
      invariant year == now.date.year + n
      invariant forall u :: Upcoming(s, now, u) ==> u.date.year >= year
    {
      next := FireInYear(s, now, year);
      if next.Some? { return; }
      year := year + 1;
    }
    return None;
  }

  /** The promise determines the answer. */
  lemma NextFireIsUnique(s: Schedule, now: LocalTime, a: Option<LocalTime>, b: Option<LocalTime>)
    requires IsNextFire(s, now, a) && IsNextFire(s, now, b)
    ensures a == b
  {
  }
}
