/**
 * The aggregations of the report page (src/pages/Reports.tsx): the sessions
 * of the chosen period, its pomodoros (the working set), the headline
 * statistics, and the working set counted by day, by project and by task.
 * Date keys and their collation order come from the caller; hours and the
 * average are exact fractions.
 */
module ReportsPage {
  import opened Wrappers
  import opened Seqs
  import opened Sorting
  import opened Tally
  import Grouping
  import opened PomodoroTypes
  import opened PomodoroUtils

  /** `pomodoroSessions`: the period's sessions of type 'pomodoro', in order. */
  function WorkingSet(all: seq<Session>, period: Period, starts: PeriodStarts): (r: seq<Session>)
    ensures forall s :: s in r <==> s in all && s.completedAt >= Cutoff(period, starts) && s.sessionType == "pomodoro"
    ensures |r| <= |all|
  {
    Filter(GetSessionsForPeriod(all, period, starts), IsPomodoro)
  }

  predicate IsCompletedTask(t: Task) {
    t.completed
  }

  /** The headline statistics; `avgSessionDuration` is in seconds. */
  datatype Stats = Stats(focusHours: real, totalSessions: nat, avgSessionDuration: real, completedTasks: nat)

  /**
   * `stats`: the focus hours of the period, the size of the working set, the
   * mean duration of its sessions (0 when it is empty) and the completed
   * tasks.
   */
  function ComputeStats(all: seq<Session>, period: Period, starts: PeriodStarts, tasks: seq<Task>): (r: Stats)
    ensures var w := WorkingSet(all, period, starts);
      && r.totalSessions == |w|
      && r.avgSessionDuration == Mean(TotalDuration(w), |w|)
    ensures r.completedTasks == |Filter(tasks, IsCompletedTask)|
    ensures r.focusHours * 3600.0 == FocusSeconds(GetSessionsForPeriod(all, period, starts)) as real
  {
    var sessions := GetSessionsForPeriod(all, period, starts);
    var w := Filter(sessions, IsPomodoro);
    var avg := Mean(TotalDuration(w), |w|);
    Stats(CalculateFocusHours(sessions), |w|, avg, Count(tasks, IsCompletedTask))
  }

  /** `total / n`, or 0 for no sessions. */
  function Mean(total: int, n: nat): (r: real)
    ensures n == 0 ==> r == 0.0
    ensures n > 0 ==> r * n as real == total as real
  {
    if n > 0 then total as real / n as real else 0.0
  }

  /**
   * The focus hours count the working set and nothing else: they are the
   * working set's total duration in hours.
   */
  lemma FocusHoursOfWorkingSet(all: seq<Session>, period: Period, starts: PeriodStarts, tasks: seq<Task>)
    ensures ComputeStats(all, period, starts, tasks).focusHours * 3600.0 == TotalDuration(WorkingSet(all, period, starts)) as real
  {
    var sessions := GetSessionsForPeriod(all, period, starts);
    assert FocusSeconds(sessions) == TotalDuration(Filter(sessions, IsPomodoro));
  }

  /** One bar of the daily chart. */
  datatype DateEntry = DateEntry(date: string, sessions: nat, hours: real)

  /** `Object.entries(grouped).map(...)`: each day with its session count and focus hours. */
  function DateEntries(g: seq<(string, seq<Session>)>): (r: seq<DateEntry>)
    ensures |r| == |g|
    ensures forall i :: 0 <= i < |g| ==> r[i] == DateEntry(g[i].0, |g[i].1|, CalculateFocusHours(g[i].1))
  {
    if g == [] then []
    else [DateEntry(g[0].0, |g[0].1|, CalculateFocusHours(g[0].1))] + DateEntries(g[1..])
  }

  /** The sessions counted by a list of bars. */
  function SessionCount(r: seq<DateEntry>): nat {
    if r == [] then 0 else r[0].sessions + SessionCount(r[1..])
  }

  lemma {:induction false} SessionCountAppend(a: seq<DateEntry>, b: seq<DateEntry>)
    ensures SessionCount(a + b) == SessionCount(a) + SessionCount(b)
  {
    if a != [] {
      assert (a + b)[1..] == a[1..] + b;
      SessionCountAppend(a[1..], b);
    } else {
      assert a + b == b;
    }
  }

  /** Reordering the bars does not change how many sessions they count. */
  lemma {:induction false} SessionCountPermutation(a: seq<DateEntry>, b: seq<DateEntry>)
    requires multiset(a) == multiset(b)
    ensures SessionCount(a) == SessionCount(b)
  {
    if a == [] {
      assert |b| == |multiset(b)| == 0;
    } else {
      assert a[0] in multiset(b);
      var i :| 0 <= i < |b| && b[i] == a[0];
      RemoveFirst(a, b, i);
      SessionCountPermutation(a[1..], b[..i] + b[i + 1..]);
      SessionCountRemove(b, i);
    }
  }

  /** Taking the same element out of two permutations of each other leaves permutations. */
  lemma RemoveFirst<T>(a: seq<T>, b: seq<T>, i: int)
    requires multiset(a) == multiset(b) && a != [] && 0 <= i < |b| && b[i] == a[0]
    ensures multiset(a[1..]) == multiset(b[..i] + b[i + 1..])
  {
    assert a == [a[0]] + a[1..];
    assert b == b[..i] + [b[i]] + b[i + 1..];
    assert multiset(b) == multiset(b[..i]) + multiset{b[i]} + multiset(b[i + 1..]);
    assert multiset(a) == multiset{a[0]} + multiset(a[1..]);
    assert multiset(b[..i] + b[i + 1..]) == multiset(b[..i]) + multiset(b[i + 1..]);
    assert multiset(a[1..]) == multiset(a) - multiset{a[0]};
    assert multiset(b[..i] + b[i + 1..]) == multiset(b) - multiset{b[i]};
  }

  /** The count of the bars is the count of bar `i` plus that of the others. */
  lemma SessionCountRemove(b: seq<DateEntry>, i: int)
    requires 0 <= i < |b|
    ensures SessionCount(b) == SessionCount(b[..i] + b[i + 1..]) + b[i].sessions
  {
    assert b == b[..i] + [b[i]] + b[i + 1..];
    SessionCountAppend(b[..i] + [b[i]], b[i + 1..]);
    SessionCountAppend(b[..i], [b[i]]);
    SessionCountAppend(b[..i], b[i + 1..]);
  }

  lemma {:induction false} SessionCountOfEntries(g: seq<(string, seq<Session>)>)
    ensures SessionCount(DateEntries(g)) == Grouping.Size(g)
  {
    if g != [] {
      SessionCountOfEntries(g[1..]);
    }
  }

  /** The collation order of date keys, as a rank (`localeCompare` on ISO dates). */
  function ByDate(rank: string -> int): DateEntry -> (int, int) {
    (e: DateEntry) => (rank(e.date), 0)
  }

  /**
   * `sessionsByDate`: the working set grouped by completion day, one bar per
   * day with its count and hours, ordered by the collation of the date keys.
   */
  method SessionsByDate(pomodoro: seq<Session>, dayOf: int -> string, rank: string -> int) returns (r: seq<DateEntry>)
    ensures multiset(r) == multiset(DateEntries(Grouping.Group(pomodoro, DayKey(dayOf))))
    ensures SortedBy(r, ByDate(rank))
    ensures SessionCount(r) == |pomodoro|
  {
    var grouped := GroupSessionsByDate(pomodoro, dayOf);
    var entries := DateEntries(grouped);
    r := SortBy(entries, ByDate(rank));
    SessionCountPermutation(r, entries);
    SessionCountOfEntries(grouped);
    Grouping.GroupSize(pomodoro, DayKey(dayOf));
  }

  /**
   * The bars before sorting: one per distinct day of the working set, each
   * counting exactly the sessions completed that day.
   */
  lemma DateEntriesMeaning(pomodoro: seq<Session>, dayOf: int -> string, i: int)
    requires 0 <= i < |DateEntries(Grouping.Group(pomodoro, DayKey(dayOf)))|
    ensures var e := DateEntries(Grouping.Group(pomodoro, DayKey(dayOf)))[i];
      && e.sessions == |Filter(pomodoro, CompletedOn(dayOf, e.date))|
      && e.sessions > 0
  {
    var g := Grouping.Group(pomodoro, DayKey(dayOf));
    var day := g[i].0;
    GroupSessionsByDateSpec(pomodoro, dayOf, day);
    Grouping.GroupKeys(pomodoro, DayKey(dayOf));
    ListOfAt(g, i);
    assert day in Grouping.KeySet(g);
    var s :| s in pomodoro && dayOf(s.completedAt) == day;
    assert s in Filter(pomodoro, CompletedOn(dayOf, day));
  }

  /** In a grouping with distinct keys, the list of a key is the one stored beside it. */
  lemma {:induction false} ListOfAt(g: seq<(string, seq<Session>)>, i: int)
    requires 0 <= i < |g| && Grouping.DistinctKeys(g)
    ensures Grouping.ListOf(g, g[i].0) == g[i].1
  {
    if i > 0 {
      assert Grouping.DistinctKeys(g[1..]) by {
        forall a, b | 0 <= a < b < |g[1..]| ensures g[1..][a].0 != g[1..][b].0 {
          assert g[1..][a] == g[a + 1] && g[1..][b] == g[b + 1];
        }
      }
      ListOfAt(g[1..], i - 1);
    }
  }

  function ProjectRef(s: Session): Option<string> {
    s.projectNaddr
  }

  function TaskRef(s: Session): Option<string> {
    s.taskNaddr
  }

  /** Whether a session carries a (non-empty) reference. */
  function HasRef(ref: Session -> Option<string>): Session -> bool {
    (s: Session) => Truthy(ref(s))
  }

  /** The reference a session is counted under; '' for none, which is never counted. */
  function RefKey(ref: Session -> Option<string>): Session -> string {
    (s: Session) => if Truthy(ref(s)) then ref(s).value else ""
  }

  /** The session refers to `n`. */
  function RefersTo(ref: Session -> Option<string>, n: string): Session -> bool {
    (s: Session) => Truthy(ref(s)) && ref(s).value == n
  }

  function One(s: Session): int {
    1
  }

  /**
   * The `forEach` filling `projectMap` (or `taskMap`): one more under the
   * reference of each session that has one, in first-seen order.
   */
  method CountBy(pomodoro: seq<Session>, ref: Session -> Option<string>) returns (m: seq<(string, int)>)
    ensures m == TallyOf(Filter(pomodoro, HasRef(ref)), RefKey(ref), One)
  {
    m := [];
    for i := 0 to |pomodoro|
      invariant m == TallyOf(Filter(pomodoro[..i], HasRef(ref)), RefKey(ref), One)
    {
      var session := pomodoro[i];
      FilterPrefix(pomodoro, i, HasRef(ref));
      if Truthy(ref(session)) {
        TallyOfSnoc(Filter(pomodoro[..i], HasRef(ref)), session, RefKey(ref), One);
        m := Add(m, ref(session).value, 1);
      }
    }
    assert pomodoro[..|pomodoro|] == pomodoro;
  }

  /** `SumWhere` with unit weights counts. */
  lemma {:induction false} SumWhereOne(s: seq<Session>, key: Session -> string, k: string)
    ensures SumWhere(s, key, One, k) == |Filter(s, Grouping.KeyIs(key, k))|
  {
    if s != [] {
      SumWhereOne(s[..|s| - 1], key, k);
    }
  }

  /**
   * Each reference's count is the number of sessions of the working set that
   * refer to it; sessions without a reference are skipped, so the empty
   * reference counts nothing.
   */
  lemma CountByMeaning(pomodoro: seq<Session>, ref: Session -> Option<string>, n: string)
    ensures Lookup(TallyOf(Filter(pomodoro, HasRef(ref)), RefKey(ref), One), n) == |Filter(pomodoro, RefersTo(ref, n))|
  {
    var with := Filter(pomodoro, HasRef(ref));
    var t := TallyOf(with, RefKey(ref), One);
    if n == "" {
      assert n !in Keys(t);
      LookupAbsent(t, n);
      FilterNone(pomodoro, RefersTo(ref, n));
    } else {
      LookupTallyOf(with, RefKey(ref), One, n);
      SumWhereOne(with, RefKey(ref), n);
      FilterExt(with, Grouping.KeyIs(RefKey(ref), n), RefersTo(ref, n));
      FilterFilter(pomodoro, HasRef(ref), RefersTo(ref, n));
    }
  }

  /** `projects.find((p) => p.naddr === naddr)`. */
  function FindProject(projects: seq<Project>, naddr: string): (r: Option<Project>)
    ensures r.Some? ==> r.value in projects && r.value.naddr == naddr
    ensures r.None? <==> forall p :: p in projects ==> p.naddr != naddr
  {
    if projects == [] then None
    else if projects[0].naddr == naddr then Some(projects[0])
    else FindProject(projects[1..], naddr)
  }

  /** `tasks.find((t) => t.naddr === naddr)`. */
  function FindTask(tasks: seq<Task>, naddr: string): (r: Option<Task>)
    ensures r.Some? ==> r.value in tasks && r.value.naddr == naddr
    ensures r.None? <==> forall t :: t in tasks ==> t.naddr != naddr
  {
    if tasks == [] then None
    else if tasks[0].naddr == naddr then Some(tasks[0])
    else FindTask(tasks[1..], naddr)
  }

  /** One slice of the project chart. */
  datatype ProjectEntry = ProjectEntry(name: string, count: int, color: string)

  /** One row of the task chart. */
  datatype TaskEntry = TaskEntry(name: string, count: int)

  const FirstChartColor := "#dc2626"

  /** The slice for one reference: the project's name and colour, or 'Unknown' and the first chart colour. */
  function ProjectEntryOf(projects: seq<Project>, entry: (string, int)): (r: ProjectEntry)
    ensures r.count == entry.1
    ensures FindProject(projects, entry.0).None? ==> r.name == "Unknown" && r.color == FirstChartColor
    ensures FindProject(projects, entry.0).Some? ==>
      r.name == FindProject(projects, entry.0).value.name
      && r.color == FindProject(projects, entry.0).value.color.GetOr(FirstChartColor)
  {
    var p := FindProject(projects, entry.0);
    if p.Some? then ProjectEntry(p.value.name, entry.1, p.value.color.GetOr(FirstChartColor))
    else ProjectEntry("Unknown", entry.1, FirstChartColor)
  }

  function TaskEntryOf(tasks: seq<Task>, entry: (string, int)): (r: TaskEntry)
    ensures r.count == entry.1
    ensures FindTask(tasks, entry.0).None? ==> r.name == "Unknown"
    ensures FindTask(tasks, entry.0).Some? ==> r.name == FindTask(tasks, entry.0).value.title
  {
    var t := FindTask(tasks, entry.0);
    TaskEntry(if t.Some? then t.value.title else "Unknown", entry.1)
  }

  function ProjectEntries(m: seq<(string, int)>, projects: seq<Project>): (r: seq<ProjectEntry>)
    ensures |r| == |m|
    ensures forall i :: 0 <= i < |m| ==> r[i] == ProjectEntryOf(projects, m[i])
  {
    if m == [] then [] else [ProjectEntryOf(projects, m[0])] + ProjectEntries(m[1..], projects)
  }

  function TaskEntries(m: seq<(string, int)>, tasks: seq<Task>): (r: seq<TaskEntry>)
    ensures |r| == |m|
    ensures forall i :: 0 <= i < |m| ==> r[i] == TaskEntryOf(tasks, m[i])
  {
    if m == [] then [] else [TaskEntryOf(tasks, m[0])] + TaskEntries(m[1..], tasks)
  }

  /** Every referenced project's slice, in first-seen order, before sorting. */
  function ProjectRows(pomodoro: seq<Session>, projects: seq<Project>): seq<ProjectEntry> {
    ProjectEntries(TallyOf(Filter(pomodoro, HasRef(ProjectRef)), RefKey(ProjectRef), One), projects)
  }

  /** Every referenced task's row, in first-seen order, before sorting and cutting. */
  function TaskRows(pomodoro: seq<Session>, tasks: seq<Task>): seq<TaskEntry> {
    TaskEntries(TallyOf(Filter(pomodoro, HasRef(TaskRef)), RefKey(TaskRef), One), tasks)
  }

  /** `(a, b) => b.count - a.count`: larger counts first. */
  function ProjectByCount(e: ProjectEntry): (int, int) {
    (-e.count, 0)
  }

  function TaskByCount(e: TaskEntry): (int, int) {
    (-e.count, 0)
  }

  /** The slices of one count. */
  function ProjectCountIs(c: int): ProjectEntry -> bool {
    (e: ProjectEntry) => e.count == c
  }

  /** The rows of one count. */
  function TaskCountIs(c: int): TaskEntry -> bool {
    (e: TaskEntry) => e.count == c
  }

  /**
   * `sessionsByProject`: one slice per project referenced by the working set,
   * named after the project (or 'Unknown'), in non-increasing order of count;
   * slices of equal count keep the order in which their projects were first seen.
   */
  method SessionsByProject(pomodoro: seq<Session>, projects: seq<Project>) returns (r: seq<ProjectEntry>)
    ensures multiset(r) == multiset(ProjectRows(pomodoro, projects))
    ensures forall i, j :: 0 <= i < j < |r| ==> r[i].count >= r[j].count
    ensures forall c :: Filter(r, ProjectCountIs(c)) == Filter(ProjectRows(pomodoro, projects), ProjectCountIs(c))
  {
    var m := CountBy(pomodoro, ProjectRef);
    var rows := ProjectEntries(m, projects);
    r := SortBy(rows, ProjectByCount);
    assert forall i, j :: 0 <= i < j < |r| ==> KeyLe(ProjectByCount(r[i]), ProjectByCount(r[j]));
    forall c ensures Filter(r, ProjectCountIs(c)) == Filter(rows, ProjectCountIs(c)) {
      ProjectCountOneKey(c);
      SortByStable(rows, ProjectByCount, ProjectCountIs(c));
    }
  }

  /**
   * `sessionsByTask`: the same per task, titled after the task, cut to the
   * ten largest counts: every row left out counts no more than any row kept.
   */
  method SessionsByTask(pomodoro: seq<Session>, tasks: seq<Task>) returns (r: seq<TaskEntry>)
    ensures |r| == if |TaskRows(pomodoro, tasks)| < 10 then |TaskRows(pomodoro, tasks)| else 10
    ensures multiset(r) <= multiset(TaskRows(pomodoro, tasks))
    ensures forall i, j :: 0 <= i < j < |r| ==> r[i].count >= r[j].count
    ensures forall e :: e in multiset(TaskRows(pomodoro, tasks)) - multiset(r) ==> forall k :: k in r ==> e.count <= k.count
    ensures forall c :: Filter(r, TaskCountIs(c)) <= Filter(TaskRows(pomodoro, tasks), TaskCountIs(c))
  {
    var m := CountBy(pomodoro, TaskRef);
    r := TopTen(TaskEntries(m, tasks));
  }

  /**
   * `.sort((a, b) => b.count - a.count).slice(0, 10)`: among rows of equal
   * count, the sort keeps their order, so the rows kept of each count are the
   * first ones of that count in `all`.
   */
  method TopTen(all: seq<TaskEntry>) returns (r: seq<TaskEntry>)
    ensures |r| == if |all| < 10 then |all| else 10
    ensures multiset(r) <= multiset(all)
    ensures forall i, j :: 0 <= i < j < |r| ==> r[i].count >= r[j].count
    ensures forall e :: e in multiset(all) - multiset(r) ==> forall k :: k in r ==> e.count <= k.count
    ensures forall c :: Filter(r, TaskCountIs(c)) <= Filter(all, TaskCountIs(c))
  {
    var sorted := SortBy(all, TaskByCount);
    var n := if |sorted| < 10 then |sorted| else 10;
    r := sorted[..n];
    TopOfSorted(all, sorted, r, n);
    forall c ensures Filter(r, TaskCountIs(c)) <= Filter(all, TaskCountIs(c)) {
      TaskCountOneKey(c);
      SortedPrefixStable(all, TaskByCount, TaskCountIs(c), n);
    }
  }

  lemma ProjectCountOneKey(c: int)
    ensures OneKey(ProjectCountIs(c), ProjectByCount)
  {
  }

  lemma TaskCountOneKey(c: int)
    ensures OneKey(TaskCountIs(c), TaskByCount)
  {
  }

  /** A prefix of the rows sorted by count keeps the largest counts, in order. */
  lemma TopOfSorted(all: seq<TaskEntry>, sorted: seq<TaskEntry>, top: seq<TaskEntry>, n: int)
    requires multiset(sorted) == multiset(all)
    requires SortedBy(sorted, TaskByCount) && 0 <= n <= |sorted| && top == sorted[..n]
    ensures multiset(top) <= multiset(all)
    ensures forall i, j :: 0 <= i < j < |top| ==> top[i].count >= top[j].count
    ensures forall e :: e in multiset(all) - multiset(top) ==> forall k :: k in top ==> e.count <= k.count
  {
    assert sorted == top + sorted[n..];
    assert multiset(sorted) == multiset(top) + multiset(sorted[n..]);
    forall i, j | 0 <= i < j < |top| ensures top[i].count >= top[j].count {
      assert KeyLe(TaskByCount(sorted[i]), TaskByCount(sorted[j]));
    }
    forall e | e in multiset(all) - multiset(top) ensures forall k :: k in top ==> e.count <= k.count {
      assert e in sorted[n..];
      TopBeatsRest(sorted, n, e);
    }
  }

  /** Every row of the prefix counts at least as much as a row after it. */
  lemma TopBeatsRest(sorted: seq<TaskEntry>, n: int, e: TaskEntry)
    requires SortedBy(sorted, TaskByCount) && 0 <= n <= |sorted| && e in sorted[n..]
    ensures forall k :: k in sorted[..n] ==> e.count <= k.count
  {
    var a :| n <= a < |sorted| && sorted[a] == e;
    forall k | k in sorted[..n] ensures e.count <= k.count {
      var b :| 0 <= b < n && sorted[b] == k;
      assert KeyLe(TaskByCount(sorted[b]), TaskByCount(sorted[a]));
    }
  }
}
