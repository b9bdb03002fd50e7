/** The converted day-of-week field, in the hands of the calendar search. */
module CronDays {
  import opened Options
  import opened Calendar
  import opened NextFire
  import opened Dow

  lemma {:induction false} AscendingBounds(s: seq<int>, lo: int, hi: int, i: nat)
    requires Ascending(s, lo, hi) && i < |s|
    ensures lo + i <= s[i] <= hi - (|s| - 1 - i)
    decreases i
  {
    if i > 0 { AscendingBounds(s, lo, hi, i - 1); }
    AscendingFromTop(s, lo, hi, i);
  }

  lemma {:induction false} AscendingFromTop(s: seq<int>, lo: int, hi: int, i: nat)
    requires Ascending(s, lo, hi) && i < |s|
    ensures s[i] <= hi - (|s| - 1 - i)
    decreases |s| - i
  {
    if i + 1 < |s| { AscendingFromTop(s, lo, hi, i + 1); }
  }

  /** As many ordinals as the range has values: the field leaves the range unrestricted. */
  lemma FullField(s: seq<int>, lo: int, hi: int)
    requires Ascending(s, lo, hi) && |s| >= hi - lo + 1
    ensures forall d :: lo <= d <= hi ==> d in s
  {
    forall d | lo <= d <= hi
      ensures d in s
    {
      AscendingBounds(s, lo, hi, d - lo);
      assert s[d - lo] == d;
    }
  }

  /**
   * The rule of standard cron, for days of the month and weekdays with Sunday as 0: alternatives when both are
   * restricted.
   */
  predicate StandardDay(daysOfMonth: seq<int>, weekdays: set<int>, d: Date) {
    var domOpen := forall n :: 1 <= n <= 31 ==> n in daysOfMonth;
    var dowOpen := forall n :: 0 <= n <= 6 ==> n in weekdays;
    var dom, dow := d.day in daysOfMonth, WeekdayFromSunday(d) in weekdays;
    if domOpen then dow else if dowOpen then dom else dom || dow
  }

  /** A field is unrestricted when it names its whole range, which the search reads off the number of its ordinals. */
  lemma FullIff(s: seq<int>, lo: int, hi: int)
    requires Ascending(s, lo, hi) && lo <= hi
    ensures |s| >= hi - lo + 1 <==> forall d :: lo <= d <= hi ==> d in s
  {
    if |s| >= hi - lo + 1 { FullField(s, lo, hi); }
    if forall d :: lo <= d <= hi ==> d in s { AllPresent(s, lo, hi); }
  }

  lemma {:induction false} AllPresent(s: seq<int>, lo: int, hi: int)
    requires Ascending(s, lo, hi) && lo <= hi + 1 && forall d :: lo <= d <= hi ==> d in s
    ensures |s| == hi - lo + 1
    decreases hi - lo
  {
    if lo <= hi {
      assert lo in s;
      assert s[0] == lo;
      forall d | lo + 1 <= d <= hi ensures d in s[1..] {
        assert d in s;
        var j :| 0 <= j < |s| && s[j] == d;
        assert s[1..][j - 1] == d;
      }
      AllPresent(s[1..], lo + 1, hi);
    } else if s != [] {
      assert false;
    }
  }

  /**
   * A schedule whose day-of-week field is the converted one passes exactly the days that standard cron names
   * by the original field, whatever its days of the month.
   */
  lemma FiresOnStandardDays(s: Schedule, field: string, d: Date)
    requires s.Valid() && ValidDate(d)
    requires NoSpace(field) && ',' !in AtSlash(field).1 && FieldDays(field, 0).Some?
    requires FieldDays(RemapDow(field), 1) == Some(set w | w in s.daysOfWeek)
    ensures DayMatches(s, d) <==> StandardDay(s.daysOfMonth, FieldDays(field, 0).value, d)
  {
    hide RemapDow, FieldDays, DayNumber;
    ConversionPreservesDays(field);
    var days := FieldDays(field, 0).value;
    FullIff(s.daysOfMonth, 1, 31);
    FullIff(s.daysOfWeek, 1, 7);
    forall w: int ensures w + 1 in s.daysOfWeek <==> w in days {
      assert w + 1 in s.daysOfWeek <==> w + 1 in Shift(days);
    }
    WholeWeek(s.daysOfWeek, days);
  }

  lemma WholeWeek(ordinals: seq<int>, days: set<int>)
    requires forall w :: w in days <==> w + 1 in ordinals
    ensures (forall n :: 0 <= n <= 6 ==> n in days) <==> forall n :: 1 <= n <= 7 ==> n in ordinals
  {
    if forall n :: 0 <= n <= 6 ==> n in days {
      forall n | 1 <= n <= 7 ensures n in ordinals { assert n - 1 in days; }
    }
  }
}
