/**
 * The project query (src/hooks/useProjects.ts): kind 30101 by the user; the
 * events that decode, in ascending order and then by creation time. Events
 * that share a d tag are not merged.
 */
module UseProjects {
  import opened Wrappers
  import opened Nostr
  import opened Seqs
  import opened Sorting
  import opened PomodoroTypes
  import opened PomodoroUtils

  /** The filter: kind 30101 by the user, nothing else. */
  function ProjectFilter(pubkey: string): (f: ReqFilter)
    ensures f.kinds == [ProjectKind] && f.authors == [pubkey]
    ensures f.limit.None? && f.since.None? && f.until.None? && f.tagConditions == []
  {
    ReqFilter([ProjectKind], [pubkey], None, None, None, [])
  }

  /** An event satisfies the filter exactly when it is a project event by the user. */
  lemma ProjectFilterMatches(pubkey: string, e: Event)
    ensures Matches(ProjectFilter(pubkey), e) <==> e.kind == ProjectKind && e.pubkey == pubkey
  {
  }

  /** The comparator, the same as the task query's. */
  function CompareProjects(a: Project, b: Project): int {
    if a.order != b.order then a.order.GetOr(999999) - b.order.GetOr(999999)
    else a.createdAt - b.createdAt
  }

  function ProjectKey(p: Project): (int, int) {
    (p.order.GetOr(999999), p.createdAt)
  }

  /** On projects that carry an order the comparator agrees with the key order. */
  lemma CompareProjectsAgrees(a: Project, b: Project)
    requires a.order.Some? && b.order.Some?
    ensures CompareProjects(a, b) <= 0 <==> KeyLe(ProjectKey(a), ProjectKey(b))
    ensures CompareProjects(a, b) == 0 <==> ProjectKey(a) == ProjectKey(b)
  {
  }

  /**
   * `queryFn`: nothing without a user; otherwise every project that decodes,
   * as often as its event was returned, ordered so that the comparator never
   * puts a later project before an earlier one.
   */
  function QueryProjects(user: Option<string>, events: seq<Event>): (r: seq<Project>)
    ensures user.None? ==> r == []
    ensures user.Some? ==> multiset(r) == multiset(Decoded(events, ParseProject))
    ensures forall i, j :: 0 <= i < j < |r| ==> CompareProjects(r[i], r[j]) <= 0
  {
    if user.None? then []
    else
      var decoded := Decoded(events, ParseProject);
      var r := SortBy(decoded, ProjectKey);
      forall i, j | 0 <= i < j < |r| ensures CompareProjects(r[i], r[j]) <= 0 {
        assert r[i] in multiset(decoded) && r[j] in multiset(decoded);
        assert r[i] in decoded && r[j] in decoded;
        CompareProjectsAgrees(r[i], r[j]);
      }
      r
  }

  /** A project is listed exactly when the user is signed in and some returned event decodes to it. */
  lemma QueryProjectsMembers(user: Option<string>, events: seq<Event>, p: Project)
    ensures p in QueryProjects(user, events) <==>
      user.Some? && exists e :: e in events && ParseProject(e) == Some(p)
    ensures user.Some? ==> |QueryProjects(user, events)| == |Filter(events, Decodes(ParseProject))|
  {
    var r := QueryProjects(user, events);
    if user.Some? {
      var decoded := Decoded(events, ParseProject);
      assert p in r <==> p in multiset(r);
      assert p in decoded <==> p in multiset(decoded);
      assert |r| == |multiset(r)|;
      DecodedCount(events, ParseProject);
    }
  }
}
