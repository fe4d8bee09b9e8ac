/**
 * The session query (src/hooks/useSessions.ts): the subscription filter built
 * from the caller's options, and the post-processing of what the relay
 * returns — decode every event, drop the ones that do not decode, newest
 * completion first. The relay's answer is an input sequence of events.
 */
module UseSessions {
  import opened Wrappers
  import opened Nostr
  import opened Seqs
  import opened Sorting
  import opened PomodoroTypes
  import opened PomodoroUtils

  /** UseSessionsOptions: every field optional. */
  datatype SessionQueryOptions = SessionQueryOptions(
    limit: Option<int>,
    since: Option<int>,
    until: Option<int>,
    taskNaddr: Option<string>,
    projectNaddr: Option<string>)

  /** A number is truthy in JavaScript when it is present and not 0. */
  predicate NumTruthy(n: Option<int>) {
    n.Some? && n.value != 0
  }

  /** A tag `[name, v, ...]` is among `tags`. */
  ghost predicate HasTagValue(tags: seq<Tag>, name: string, v: string) {
    exists t :: t in tags && |t| >= 2 && t[0] == name && t[1] == v
  }

  /** The `#<name>: [v]` condition, present only when `v` is truthy. */
  function TagCondition(name: string, v: Option<string>): seq<(string, seq<string>)> {
    if Truthy(v) then [(name, [v.value])] else []
  }

  /**
   * The filter: kind 3100 by the user, at most `limit` (100 by default)
   * events, and a time window and task/project conditions only for the
   * options that are truthy.
   */
  function SessionFilter(pubkey: string, o: SessionQueryOptions): (f: ReqFilter)
    ensures f.kinds == [SessionKind] && f.authors == [pubkey]
    ensures f.limit == Some(if o.limit.Some? then o.limit.value else 100)
    ensures f.since.Some? <==> NumTruthy(o.since)
    ensures f.until.Some? <==> NumTruthy(o.until)
    ensures f.since.Some? ==> f.since == o.since
    ensures f.until.Some? ==> f.until == o.until
    ensures |f.tagConditions| == (if Truthy(o.taskNaddr) then 1 else 0) + (if Truthy(o.projectNaddr) then 1 else 0)
  {
    ReqFilter(
      [SessionKind],
      [pubkey],
      Some(o.limit.GetOr(100)),
      if NumTruthy(o.since) then o.since else None,
      if NumTruthy(o.until) then o.until else None,
      TagCondition("task", o.taskNaddr) + TagCondition("project", o.projectNaddr))
  }

  /**
   * An event satisfies the filter exactly when it is a session event by the
   * user, inside the window the truthy bounds give, and tagged with the task
   * and the project when those options are truthy.
   */
  lemma SessionFilterMatches(pubkey: string, o: SessionQueryOptions, e: Event)
    ensures Matches(SessionFilter(pubkey, o), e) <==>
      && e.kind == SessionKind && e.pubkey == pubkey
      && (NumTruthy(o.since) ==> o.since.value <= e.createdAt)
      && (NumTruthy(o.until) ==> e.createdAt <= o.until.value)
      && (Truthy(o.taskNaddr) ==> HasTagValue(e.tags, "task", o.taskNaddr.value))
      && (Truthy(o.projectNaddr) ==> HasTagValue(e.tags, "project", o.projectNaddr.value))
  {
    var f := SessionFilter(pubkey, o);
    var task, project := TagCondition("task", o.taskNaddr), TagCondition("project", o.projectNaddr);
    assert f.tagConditions == task + project;
    forall c | c in f.tagConditions
      ensures (Truthy(o.taskNaddr) && c == ("task", [o.taskNaddr.value]))
        || (Truthy(o.projectNaddr) && c == ("project", [o.projectNaddr.value]))
    {
      assert c in task || c in project;
    }
    if Truthy(o.taskNaddr) {
      assert f.tagConditions[0] == ("task", [o.taskNaddr.value]);
    }
    if Truthy(o.projectNaddr) {
      assert f.tagConditions[|f.tagConditions| - 1] == ("project", [o.projectNaddr.value]);
    }
  }

  /** Newer completions sort first: `(a, b) => b.completedAt - a.completedAt`. */
  function NewestFirst(s: Session): (int, int) {
    (-s.completedAt, 0)
  }

  /**
   * `queryFn`: nothing without a user; otherwise the events that decode, as
   * sessions, each exactly as often as it was returned, newest completion first.
   */
  function QuerySessions(user: Option<string>, events: seq<Event>): (r: seq<Session>)
    ensures user.None? ==> r == []
    ensures user.Some? ==> multiset(r) == multiset(Decoded(events, ParseSession))
    ensures forall i, j :: 0 <= i < j < |r| ==> r[i].completedAt >= r[j].completedAt
  {
    if user.None? then []
    else
      var r := SortBy(Decoded(events, ParseSession), NewestFirst);
      assert forall i, j :: 0 <= i < j < |r| ==> KeyLe(NewestFirst(r[i]), NewestFirst(r[j]));
      r
  }

  /**
   * A session is in the result exactly when the user is signed in and some
   * returned event decodes to it; the result is as long as the number of
   * events that decode, so nothing is merged or dropped beyond the failures.
   */
  lemma QuerySessionsMembers(user: Option<string>, events: seq<Event>, s: Session)
    ensures s in QuerySessions(user, events) <==>
      user.Some? && exists e :: e in events && ParseSession(e) == Some(s)
    ensures user.Some? ==> |QuerySessions(user, events)| == |Filter(events, Decodes(ParseSession))|
  {
    var r := QuerySessions(user, events);
    if user.Some? {
      assert s in r <==> s in multiset(r);
      assert s in Decoded(events, ParseSession) <==> s in multiset(Decoded(events, ParseSession));
      assert |r| == |multiset(r)|;
      DecodedCount(events, ParseSession);
    }
  }

  /**
   * When the relay honours the filter, every session in the result was
   * signed by the user and, for truthy bounds, was published inside the window.
   */
  lemma QuerySessionsOfUser(pubkey: string, o: SessionQueryOptions, events: seq<Event>)
    requires forall e :: e in events ==> Matches(SessionFilter(pubkey, o), e)
    ensures forall s :: s in QuerySessions(Some(pubkey), events) ==>
      && s.author == pubkey
      && (NumTruthy(o.since) ==> o.since.value <= s.event.createdAt)
      && (NumTruthy(o.until) ==> s.event.createdAt <= o.until.value)
  {
    forall s | s in QuerySessions(Some(pubkey), events)
      ensures s.author == pubkey
      ensures NumTruthy(o.since) ==> o.since.value <= s.event.createdAt
      ensures NumTruthy(o.until) ==> s.event.createdAt <= o.until.value
    {
      QuerySessionsMembers(Some(pubkey), events, s);
      var e :| e in events && ParseSession(e) == Some(s);
      SessionFilterMatches(pubkey, o, e);
    }
  }
}
