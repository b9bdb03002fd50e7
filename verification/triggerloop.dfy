/** The trigger loop of a cron job: compute the next instant, sleep the whole seconds up to it, fire. */
module TriggerLoop {
  import opened Options
  import opened Calendar
  import opened NextFire

  /** Times are nanoseconds on the UTC time line. */
  const SECOND: int := 1_000_000_000

  /** The instants of a schedule, in a zone `offset` minutes east of UTC. */
  ghost function Instants(s: Schedule, offset: int): iset<int> {
    iset t | Fires(s, t) :: UtcNanos(t, offset)
  }

  ghost predicate IsNext(instants: iset<int>, now: int, next: int) {
    next in instants && next > now && forall m :: m in instants && m > now ==> next <= m
  }

  ghost predicate WholeSecond(n: int) {
    n % SECOND == 0
  }

  lemma InstantsAreWholeSeconds(s: Schedule, offset: int)
    ensures forall n :: n in Instants(s, offset) ==> WholeSecond(n)
  {
  }

  /** What the calendar search returns is the least instant after now, on the time line. */
  lemma SearchIsNext(s: Schedule, now: LocalTime, t: LocalTime, offset: int)
    requires ValidTime(now) && IsNextFire(s, now, Some(t))
    ensures IsNext(Instants(s, offset), UtcNanos(now, offset), UtcNanos(t, offset))
  {
    hide UtcNanos, DayMatches, DayNumber;
    OrderIsChronological(now, t, offset);
    forall m | m in Instants(s, offset) && m > UtcNanos(now, offset)
      ensures UtcNanos(t, offset) <= m
    {
      var u :| Fires(s, u) && UtcNanos(u, offset) == m;
      OrderIsChronological(now, u, offset);
      assert Upcoming(s, now, u);
      OrderIsChronological(u, t, offset);
    }
  }

  /** `Duration::num_seconds`, which drops the fraction towards zero. */
  function NumSeconds(d: int): int {
    if d >= 0 then d / SECOND else -((-d) / SECOND)
  }

  datatype Firing = Firing(instant: int, at: int)

  /** The clock when the loop comes round, and what it has fired so far. */
  datatype Loop = Loop(clock: int, fired: seq<Firing>)

  /** One time round: the clock read for the search, its answer, the clock read for the delay, the wake-up. */
  datatype Round = Round(now: int, next: int, check: int, wake: int)

  predicate Fired(r: Round) {
    NumSeconds(r.next - r.check) > 0
  }

  function SleepUntil(r: Round): int {
    r.check + (if Fired(r) then NumSeconds(r.next - r.check) * SECOND else SECOND)
  }

  /** Reading the clock and sleeping may both take longer than asked. */
  ghost predicate Allowed(instants: iset<int>, l: Loop, r: Round) {
    l.clock <= r.now <= r.check && IsNext(instants, r.now, r.next) && SleepUntil(r) <= r.wake
  }

  function Advance(l: Loop, r: Round): Loop {
    Loop(r.wake, if Fired(r) then l.fired + [Firing(r.next, r.wake)] else l.fired)
  }

  function Run(start: int, rounds: seq<Round>): Loop {
    if rounds == [] then Loop(start, []) else Advance(Run(start, rounds[..|rounds| - 1]), rounds[|rounds| - 1])
  }

  ghost predicate AllowedRun(instants: iset<int>, start: int, rounds: seq<Round>) {
    rounds != [] ==>
      && AllowedRun(instants, start, rounds[..|rounds| - 1])
      && Allowed(instants, Run(start, rounds[..|rounds| - 1]), rounds[|rounds| - 1])
  }

  lemma NumSecondsBounds(d: int)
    ensures d >= 0 ==> NumSeconds(d) * SECOND <= d < (NumSeconds(d) + 1) * SECOND
    ensures d < 0 ==> (NumSeconds(d) - 1) * SECOND < d <= NumSeconds(d) * SECOND
    ensures NumSeconds(d) > 0 <==> d >= SECOND
  {
  }

  /** In every run, whatever the delays: instants fire in order, none twice, none a second or more early. */
  lemma {:induction false} NeverTwiceNeverEarly(instants: iset<int>, start: int, rounds: seq<Round>)
    requires AllowedRun(instants, start, rounds)
    ensures var l := Run(start, rounds);
      && start <= l.clock
      && (forall i, j :: 0 <= i < j < |l.fired| ==> l.fired[i].instant < l.fired[j].instant)
      && (forall i :: 0 <= i < |l.fired| ==> l.fired[i].instant in instants && start < l.fired[i].instant)
      && (forall i :: 0 <= i < |l.fired| ==> l.fired[i].instant - SECOND < l.fired[i].at <= l.clock)
  {
    if rounds != [] {
      var r := rounds[|rounds| - 1];
      NeverTwiceNeverEarly(instants, start, rounds[..|rounds| - 1]);
      NumSecondsBounds(r.next - r.check);
    }
  }

  // ---- exact sleeps ----

  predicate Exact(l: Loop, r: Round) {
    r.now == r.check == l.clock && r.wake == SleepUntil(r)
  }

  ghost predicate ExactRun(instants: iset<int>, start: int, rounds: seq<Round>) {
    rounds != [] ==>
      && ExactRun(instants, start, rounds[..|rounds| - 1])
      && Allowed(instants, Run(start, rounds[..|rounds| - 1]), rounds[|rounds| - 1])
      && Exact(Run(start, rounds[..|rounds| - 1]), rounds[|rounds| - 1])
  }

  ghost predicate HasFired(l: Loop, n: int) {
    exists f :: f in l.fired && f.instant == n
  }

  /** An instant a second or more after the start, which the loop has had its chance at. */
  ghost predicate Due(instants: iset<int>, start: int, l: Loop, n: int) {
    n in instants && start + SECOND <= n < l.clock + SECOND
  }

  /** The instant a second before is scheduled too, and the loop runs off the whole second. */
  ghost predicate Crowded(instants: iset<int>, start: int, n: int) {
    !WholeSecond(start) && n - SECOND in instants
  }

  lemma AdvanceFired(l: Loop, r: Round, n: int)
    ensures HasFired(Advance(l, r), n) <==> HasFired(l, n) || (Fired(r) && n == r.next)
  {
  }

  /** A round that sleeps out the last second has nothing new to fire. */
  lemma SkippingRound(instants: iset<int>, l: Loop, r: Round, start: int, n: int)
    requires forall m :: m in instants ==> WholeSecond(m)
    requires (l.clock - start) % SECOND == 0 && Allowed(instants, l, r) && Exact(l, r) && !Fired(r)
    requires n in instants && l.clock + SECOND <= n < r.wake + SECOND
    ensures Crowded(instants, start, n)
  {
  }

  /** A round that fires has exactly its own instant to fire. */
  lemma FiringRound(instants: iset<int>, l: Loop, r: Round, start: int, n: int)
    requires forall m :: m in instants ==> WholeSecond(m)
    requires (l.clock - start) % SECOND == 0 && Allowed(instants, l, r) && Exact(l, r) && Fired(r)
    ensures n in instants && l.clock + SECOND <= n < r.wake + SECOND <==> n == r.next
    ensures !Crowded(instants, start, r.next)
  {
  }

  /** With exact sleeps the loop fires every due instant but the crowded ones, and nothing else. */
  lemma {:induction false} ExactRunFires(instants: iset<int>, start: int, rounds: seq<Round>)
    requires ExactRun(instants, start, rounds) && forall m :: m in instants ==> WholeSecond(m)
    ensures (Run(start, rounds).clock - start) % SECOND == 0 && start <= Run(start, rounds).clock
    ensures forall n :: HasFired(Run(start, rounds), n) <==>
      Due(instants, start, Run(start, rounds), n) && !Crowded(instants, start, n)
  {
    if rounds != [] {
      var l, r := Run(start, rounds[..|rounds| - 1]), rounds[|rounds| - 1];
      ExactRunFires(instants, start, rounds[..|rounds| - 1]);
      forall n
        ensures HasFired(Advance(l, r), n) <==> Due(instants, start, Advance(l, r), n) && !Crowded(instants, start, n)
      {
        AdvanceFired(l, r, n);
        NumSecondsBounds(r.next - r.check);
        if Fired(r) {
          FiringRound(instants, l, r, start, n);
        } else if n in instants && l.clock + SECOND <= n < r.wake + SECOND {
          SkippingRound(instants, l, r, start, n);
        }
      }
    }
  }

  lemma {:induction false} ExactRunsAreRuns(instants: iset<int>, start: int, rounds: seq<Round>)
    requires ExactRun(instants, start, rounds)
    ensures AllowedRun(instants, start, rounds)
  {
    if rounds != [] { ExactRunsAreRuns(instants, start, rounds[..|rounds| - 1]); }
  }

  /** Every round takes a second or more, so every instant comes within reach of a long enough run. */
  lemma {:induction false} EveryRoundTakesASecond(instants: iset<int>, start: int, rounds: seq<Round>)
    requires AllowedRun(instants, start, rounds)
    ensures start + |rounds| * SECOND <= Run(start, rounds).clock
  {
    if rounds != [] { EveryRoundTakesASecond(instants, start, rounds[..|rounds| - 1]); }
  }

  /**
   * No due instant is missed exactly when the loop starts on a whole second or no due instant has a scheduled
   * instant one second before it; and what fires, fires once.
   */
  lemma EveryDueInstantFiresOnce(instants: iset<int>, start: int, rounds: seq<Round>)
    requires ExactRun(instants, start, rounds) && forall m :: m in instants ==> WholeSecond(m)
    ensures var l := Run(start, rounds);
      && ((forall n :: Due(instants, start, l, n) ==> HasFired(l, n))
          <==> WholeSecond(start) || forall n :: Due(instants, start, l, n) ==> n - SECOND !in instants)
      && forall i, j :: 0 <= i < j < |l.fired| ==> l.fired[i].instant != l.fired[j].instant
  {
    ExactRunFires(instants, start, rounds);
    ExactRunsAreRuns(instants, start, rounds);
    NeverTwiceNeverEarly(instants, start, rounds);
  }

  ghost function EverySecond(): iset<int> {
    iset n: int | WholeSecond(n)
  }

  /** An every-second schedule, started off the whole second, never fires. */
  lemma EverySecondNeverFires(start: int, rounds: seq<Round>)
    requires !WholeSecond(start) && ExactRun(EverySecond(), start, rounds)
    ensures Run(start, rounds).fired == []
  {
    var everySecond := EverySecond();
    ExactRunFires(everySecond, start, rounds);
    var l := Run(start, rounds);
    if l.fired != [] {
      var n := l.fired[0].instant;
      assert l.fired[0] in l.fired;
      assert HasFired(l, n);
    }
  }
}
