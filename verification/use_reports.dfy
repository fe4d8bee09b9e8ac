/**
 * The reports hook of the second variant (src/hooks/useReports.ts): the
 * activity summary (counts, focus and break minutes, completed tasks and the
 * current day streak) and the focus time bucketed by day, week, month and
 * year. Minutes are fractional in the source; here sums are kept in whole
 * seconds and divided by 60 with rounding only where the source rounds.
 * Calendar keys come from the caller as functions of a session's timestamp.
 */
module UseReports {
  import opened Numbers
  import opened Seqs
  import opened Tally
  import opened PomodoroTypesB

  /** A completed work session. */
  predicate IsFocus(s: Session) {
    s.sessionType == Work && s.completed
  }

  /** A completed break. */
  predicate IsBreak(s: Session) {
    s.sessionType != Work && s.completed
  }

  predicate IsCompleted(s: Session) {
    s.completed
  }

  function DurationOf(s: Session): int {
    s.duration
  }

  predicate IsDone(t: Task) {
    t.status == Completed
  }

  /** The seconds of the sessions satisfying `p`. */
  function SecondsWhere(sessions: seq<Session>, p: Session -> bool): int {
    SumAll(Filter(sessions, p), DurationOf)
  }

  /**
   * Every completed session is either work or a break, so focus and break
   * time add up to the time of all completed sessions.
   */
  lemma {:induction false} FocusPlusBreak(sessions: seq<Session>)
    ensures SecondsWhere(sessions, IsFocus) + SecondsWhere(sessions, IsBreak) == SecondsWhere(sessions, IsCompleted)
  {
    if sessions != [] {
      var front, last := sessions[..|sessions| - 1], sessions[|sessions| - 1];
      FocusPlusBreak(front);
      SumAllSnoc(Filter(front, IsFocus), last);
      SumAllSnoc(Filter(front, IsBreak), last);
      SumAllSnoc(Filter(front, IsCompleted), last);
    }
  }

  lemma SumAllSnoc(s: seq<Session>, x: Session)
    ensures SumAll(s + [x], DurationOf) == SumAll(s, DurationOf) + x.duration
  {
    assert (s + [x])[..|s + [x]| - 1] == s;
  }

  /** The activity summary with the streak the loop computes. */
  function Summary(sessions: seq<Session>, tasks: seq<Task>, streak: int): (r: ActivitySummary)
    ensures r.totalSessions == |sessions|
    ensures r.completedSessions == |Filter(sessions, IsCompleted)| <= r.totalSessions
    ensures r.tasksCompleted == |Filter(tasks, IsDone)| <= |tasks|
    ensures var focus := SecondsWhere(sessions, IsFocus);
      2 * r.totalFocusTime * 60 - 60 <= 2 * focus < 2 * r.totalFocusTime * 60 + 60
    ensures var rest := SecondsWhere(sessions, IsBreak);
      2 * r.totalBreakTime * 60 - 60 <= 2 * rest < 2 * r.totalBreakTime * 60 + 60
    ensures r.currentStreak == streak
  {
    ActivitySummary(
      |sessions|,
      Count(sessions, IsCompleted),
      RoundDiv(SecondsWhere(sessions, IsFocus), 60),
      RoundDiv(SecondsWhere(sessions, IsBreak), 60),
      Count(tasks, IsDone),
      streak)
  }

  /** The days (numbered, one apart) holding a completed work session; `dayOf` maps a timestamp to its day. */
  function FocusDays(sessions: seq<Session>, dayOf: int -> int): (r: set<int>)
    ensures forall s :: s in sessions && IsFocus(s) ==> dayOf(s.timestamp) in r
    ensures forall d :: d in r ==> exists s :: s in sessions && IsFocus(s) && dayOf(s.timestamp) == d
  {
    set s | s in sessions && IsFocus(s) :: dayOf(s.timestamp)
  }

  /** Every one of the `n` days ending with `today` is in `days`. */
  ghost predicate Covered(days: set<int>, today: int, n: int) {
    forall d :: today - n < d <= today ==> d in days
  }

  /**
   * The streak loop: counts back from today while the day holds a focus
   * session. The result covers exactly the run of days ending today: the day
   * before the run is missing; it is 0 when today is missing, and never more
   * than the number of days.
   */
  method CurrentStreak(days: set<int>, today: int) returns (streak: nat)
    ensures Covered(days, today, streak) && today - streak !in days
    ensures today !in days ==> streak == 0
    ensures streak <= |days|
  {
    streak := 0;
    var check := today;
    ghost var seen: set<int> := {};
    while check in days
      invariant check == today - streak
      invariant Covered(days, today, streak)
      invariant seen <= days && |seen| == streak
      invariant forall d :: d in seen ==> d > check
      decreases |days| - |seen|
    {
      assert check !in seen;
      seen := seen + {check};
      streak := streak + 1;
      check := check - 1;
      SubsetCard(seen, days);
    }
    SubsetCard(seen, days);
  }

  /** A subset is no larger than its superset. */
  lemma {:induction false} SubsetCard<T>(a: set<T>, b: set<T>)
    requires a <= b
    ensures |a| <= |b|
  {
    if a != {} {
      var x :| x in a;
      SubsetCard(a - {x}, b - {x});
    }
  }

  /** The streak is determined by the days: only one length satisfies the loop's postcondition. */
  lemma StreakUnique(days: set<int>, today: int, n: nat, m: nat)
    requires Covered(days, today, n) && today - n !in days
    requires Covered(days, today, m) && today - m !in days
    ensures n == m
  {
  }

  /**
   * `activitySummary`: the counts and rounded minutes, and the streak over the
   * days of the completed work sessions, `today` being today's day number.
   */
  method ComputeActivitySummary(sessions: seq<Session>, tasks: seq<Task>, today: int, dayOf: int -> int)
    returns (r: ActivitySummary)
    ensures r == Summary(sessions, tasks, r.currentStreak)
    ensures var days := FocusDays(sessions, dayOf);
      && r.currentStreak >= 0
      && Covered(days, today, r.currentStreak) && today - r.currentStreak !in days
      && r.currentStreak <= |days|
  {
    var streak := CurrentStreak(FocusDays(sessions, dayOf), today);
    r := Summary(sessions, tasks, streak);
  }

  /** Functions from a timestamp to its day, week (starting Monday), month and year key. */
  datatype Calendar = Calendar(day: int -> string, week: int -> string, month: int -> string, year: int -> string)

  /** The key a session's timestamp has under `key`. */
  function At(key: int -> string): Session -> string {
    (s: Session) => key(s.timestamp)
  }

  /** FocusHours, each bucket a dictionary in insertion order holding seconds. */
  datatype FocusHours = FocusHours(daily: seq<(string, int)>, weekly: seq<(string, int)>,
                                   monthly: seq<(string, int)>, yearly: seq<(string, int)>)

  /**
   * `focusHours`: each completed work session adds its time to one key of
   * each of the four buckets, so each bucket is the tally of the work
   * sessions by that key, and all four hold the same total, the sum of all
   * focus time.
   */
  method FocusBuckets(sessions: seq<Session>, c: Calendar) returns (h: FocusHours)
    ensures var work := Filter(sessions, IsFocus);
      && h.daily == TallyOf(work, At(c.day), DurationOf)
      && h.weekly == TallyOf(work, At(c.week), DurationOf)
      && h.monthly == TallyOf(work, At(c.month), DurationOf)
      && h.yearly == TallyOf(work, At(c.year), DurationOf)
    ensures Total(h.daily) == Total(h.weekly) == Total(h.monthly) == Total(h.yearly) == SecondsWhere(sessions, IsFocus)
  {
    var work := Filter(sessions, IsFocus);
    var daily, weekly, monthly, yearly := [], [], [], [];
    for i := 0 to |work|
      invariant daily == TallyOf(work[..i], At(c.day), DurationOf)
      invariant weekly == TallyOf(work[..i], At(c.week), DurationOf)
      invariant monthly == TallyOf(work[..i], At(c.month), DurationOf)
      invariant yearly == TallyOf(work[..i], At(c.year), DurationOf)
    {
      var s := work[i];
      PrefixSnoc(work, i);
      TallyOfSnoc(work[..i], s, At(c.day), DurationOf);
      TallyOfSnoc(work[..i], s, At(c.week), DurationOf);
      TallyOfSnoc(work[..i], s, At(c.month), DurationOf);
      TallyOfSnoc(work[..i], s, At(c.year), DurationOf);
      daily := Add(daily, c.day(s.timestamp), s.duration);
      weekly := Add(weekly, c.week(s.timestamp), s.duration);
      monthly := Add(monthly, c.month(s.timestamp), s.duration);
      yearly := Add(yearly, c.year(s.timestamp), s.duration);
    }
    assert work[..|work|] == work;
    h := FocusHours(daily, weekly, monthly, yearly);
    BucketTotal(sessions, c.day);
    BucketTotal(sessions, c.week);
    BucketTotal(sessions, c.month);
    BucketTotal(sessions, c.year);
  }

  /** Whatever the calendar key, a bucket holds all of the focus time. */
  lemma BucketTotal(sessions: seq<Session>, key: int -> string)
    ensures Total(TallyOf(Filter(sessions, IsFocus), At(key), DurationOf)) == SecondsWhere(sessions, IsFocus)
  {
    TotalTallyOf(Filter(sessions, IsFocus), At(key), DurationOf);
  }

  /** The four periods a getter reads. */
  datatype Span = Today | ThisWeek | ThisMonth | ThisYear

  /** The bucket a period reads. */
  function Bucket(h: FocusHours, span: Span): seq<(string, int)> {
    match span
    case Today => h.daily
    case ThisWeek => h.weekly
    case ThisMonth => h.monthly
    case ThisYear => h.yearly
  }

  /** The key of the period containing `now`. */
  function PeriodKey(c: Calendar, span: Span, now: int): string {
    match span
    case Today => c.day(now)
    case ThisWeek => c.week(now)
    case ThisMonth => c.month(now)
    case ThisYear => c.year(now)
  }

  /** `get*FocusHours`: the bucket of the period containing `now`, in rounded minutes; 0 when it is absent. */
  function FocusFor(h: FocusHours, c: Calendar, span: Span, now: int): (r: int)
    ensures var seconds := Lookup(Bucket(h, span), PeriodKey(c, span, now));
      2 * r * 60 - 60 <= 2 * seconds < 2 * r * 60 + 60
    ensures PeriodKey(c, span, now) !in Keys(Bucket(h, span)) ==> r == 0
  {
    var bucket, key := Bucket(h, span), PeriodKey(c, span, now);
    assert key !in Keys(bucket) ==> Lookup(bucket, key) == 0 by {
      if key !in Keys(bucket) { LookupAbsent(bucket, key); }
    }
    RoundDiv(Lookup(bucket, key), 60)
  }
}
