/**
 * The task query (src/hooks/useTasks.ts): kind 30100 by the user, optionally
 * one project; the events that decode, without the completed ones unless the
 * caller asks for them, in ascending order and then by creation time. Events
 * that share a d tag are not merged: every one that decodes is listed.
 */
module UseTasks {
  import opened Wrappers
  import opened Nostr
  import opened Seqs
  import opened Sorting
  import opened PomodoroTypes
  import opened PomodoroUtils

  /** UseTasksOptions; an absent `includeCompleted` is false. */
  datatype TaskQueryOptions = TaskQueryOptions(projectNaddr: Option<string>, includeCompleted: bool)

  /** The filter: kind 30100 by the user, and the project when it is truthy. */
  function TaskFilter(pubkey: string, o: TaskQueryOptions): (f: ReqFilter)
    ensures f.kinds == [TaskKind] && f.authors == [pubkey]
    ensures f.limit.None? && f.since.None? && f.until.None?
    ensures f.tagConditions == if Truthy(o.projectNaddr) then [("project", [o.projectNaddr.value])] else []
  {
    ReqFilter([TaskKind], [pubkey], None, None, None,
      if Truthy(o.projectNaddr) then [("project", [o.projectNaddr.value])] else [])
  }

  /** An event satisfies the filter exactly when it is a task event by the user, of the project when one is given. */
  lemma TaskFilterMatches(pubkey: string, o: TaskQueryOptions, e: Event)
    ensures Matches(TaskFilter(pubkey, o), e) <==>
      && e.kind == TaskKind && e.pubkey == pubkey
      && (Truthy(o.projectNaddr) ==>
            exists t :: t in e.tags && |t| >= 2 && t[0] == "project" && t[1] == o.projectNaddr.value)
  {
    if Truthy(o.projectNaddr) {
      assert TaskFilter(pubkey, o).tagConditions[0] == ("project", [o.projectNaddr.value]);
    }
  }

  /** The comparator `(a, b) => a.order !== b.order ? (a.order ?? 999999) - (b.order ?? 999999) : a.createdAt - b.createdAt`. */
  function CompareTasks(a: Task, b: Task): int {
    if a.order != b.order then a.order.GetOr(999999) - b.order.GetOr(999999)
    else a.createdAt - b.createdAt
  }

  /** The sort key: order (999999 when absent), then creation time. */
  function TaskKey(t: Task): (int, int) {
    (t.order.GetOr(999999), t.createdAt)
  }

  /**
   * On tasks that carry an order, as decoded tasks always do, the comparator
   * puts `a` before `b` (or ties them) exactly when `a`'s key is not greater.
   */
  lemma CompareTasksAgrees(a: Task, b: Task)
    requires a.order.Some? && b.order.Some?
    ensures CompareTasks(a, b) <= 0 <==> KeyLe(TaskKey(a), TaskKey(b))
    ensures CompareTasks(a, b) == 0 <==> TaskKey(a) == TaskKey(b)
  {
  }

  predicate Open(t: Task) {
    !t.completed
  }

  /** The tasks kept before sorting: the decoded ones, without completed tasks unless they are asked for. */
  function Retained(events: seq<Event>, includeCompleted: bool): seq<Task> {
    var tasks := Decoded(events, ParseTask);
    if includeCompleted then tasks else Filter(tasks, Open)
  }

  /**
   * `queryFn`: nothing without a user; otherwise the retained tasks, each as
   * often as its event was returned, ordered so that the comparator never
   * puts a later task before an earlier one.
   */
  function QueryTasks(user: Option<string>, o: TaskQueryOptions, events: seq<Event>): (r: seq<Task>)
    ensures user.None? ==> r == []
    ensures user.Some? ==> multiset(r) == multiset(Retained(events, o.includeCompleted))
    ensures forall i, j :: 0 <= i < j < |r| ==> CompareTasks(r[i], r[j]) <= 0
  {
    if user.None? then []
    else
      var kept := Retained(events, o.includeCompleted);
      var r := SortBy(kept, TaskKey);
      forall i, j | 0 <= i < j < |r| ensures CompareTasks(r[i], r[j]) <= 0 {
        assert r[i] in multiset(kept) && r[j] in multiset(kept);
        assert r[i] in Decoded(events, ParseTask) && r[j] in Decoded(events, ParseTask);
        CompareTasksAgrees(r[i], r[j]);
      }
      r
  }

  /**
   * A task is listed exactly when the user is signed in, some returned event
   * decodes to it, and it is open or completed tasks were asked for.
   */
  lemma QueryTasksMembers(user: Option<string>, o: TaskQueryOptions, events: seq<Event>, t: Task)
    ensures t in QueryTasks(user, o, events) <==>
      && user.Some? && (o.includeCompleted || !t.completed)
      && exists e :: e in events && ParseTask(e) == Some(t)
  {
    var r := QueryTasks(user, o, events);
    if user.Some? {
      var kept := Retained(events, o.includeCompleted);
      assert t in r <==> t in multiset(r);
      assert t in kept <==> t in multiset(kept);
    }
  }

  /**
   * Two returned events that share a d tag but differ are both listed: the
   * query does not keep only the latest version of an addressable event.
   */
  lemma QueryTasksKeepsVersions(pubkey: string, o: TaskQueryOptions, events: seq<Event>, e1: Event, e2: Event)
    requires e1 in events && e2 in events && e1 != e2
    requires ParseTask(e1).Some? && ParseTask(e2).Some?
    requires GetTagValue(e1.tags, "d") == GetTagValue(e2.tags, "d")
    requires o.includeCompleted
    ensures ParseTask(e1).value in QueryTasks(Some(pubkey), o, events)
    ensures ParseTask(e2).value in QueryTasks(Some(pubkey), o, events)
    ensures ParseTask(e1).value != ParseTask(e2).value
  {
    QueryTasksMembers(Some(pubkey), o, events, ParseTask(e1).value);
    QueryTasksMembers(Some(pubkey), o, events, ParseTask(e2).value);
  }
}
