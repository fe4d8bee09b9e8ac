/**
 * The parts of the Nostr protocol (NIP-01) the core relies on: signed events
 * with a kind, an ordered list of string tags and a content string; unsigned
 * event templates, as the builders return them; the first-tag lookup the codec
 * uses; and the subscription filters the query hooks send.
 */
module Nostr {
  import opened Wrappers

  /** A tag: a name followed by values, `["title", "Write report"]`. */
  type Tag = seq<string>

  /** A signed event as a relay returns it. */
  datatype Event = Event(
    id: string,
    pubkey: string,
    createdAt: int,
    kind: int,
    tags: seq<Tag>,
    content: string)

  /** What a builder returns and `publish` signs. */
  datatype EventTemplate = EventTemplate(kind: int, content: string, tags: seq<Tag>)

  /** The event a signer makes of a template; id, author and time are the signer's. */
  function Sign(t: EventTemplate, id: string, pubkey: string, createdAt: int): (e: Event)
    ensures e.kind == t.kind && e.tags == t.tags && e.content == t.content
    ensures e.pubkey == pubkey && e.id == id && e.createdAt == createdAt
  {
    Event(id, pubkey, createdAt, t.kind, t.tags, t.content)
  }

  predicate Named(t: Tag, name: string) {
    |t| >= 1 && t[0] == name
  }

  /** Tag `i` is the first tag called `name`. */
  ghost predicate FirstNamedAt(tags: seq<Tag>, name: string, i: int) {
    0 <= i < |tags| && Named(tags[i], name) && forall j :: 0 <= j < i ==> !Named(tags[j], name)
  }

  /**
   * `tags.find(([n]) => n === name)?.[1]`: the value of the FIRST tag called
   * `name`; None when there is no such tag or that tag has no value.
   */
  function GetTagValue(tags: seq<Tag>, name: string): Option<string> {
    if tags == [] then None
    else if Named(tags[0], name) then (if |tags[0]| >= 2 then Some(tags[0][1]) else None)
    else GetTagValue(tags[1..], name)
  }

  /** Some tag is called `name`. */
  predicate HasTag(tags: seq<Tag>, name: string) {
    exists t :: t in tags && Named(t, name)
  }

  /** The lookup answers with the first tag of that name, whatever follows it. */
  lemma {:induction false} GetTagValueFirst(tags: seq<Tag>, name: string, i: int)
    requires FirstNamedAt(tags, name, i)
    ensures GetTagValue(tags, name) == if |tags[i]| >= 2 then Some(tags[i][1]) else None
  {
    if i > 0 {
      assert !Named(tags[0], name);
      assert FirstNamedAt(tags[1..], name, i - 1);
      GetTagValueFirst(tags[1..], name, i - 1);
    }
  }

  /** Without a tag of that name the lookup finds nothing. */
  lemma {:induction false} GetTagValueAbsent(tags: seq<Tag>, name: string)
    requires !HasTag(tags, name)
    ensures GetTagValue(tags, name) == None
  {
    if tags != [] {
      assert tags[0] in tags;
      assert !HasTag(tags[1..], name) by {
        forall t | t in tags[1..] ensures !Named(t, name) {
          assert t in tags;
        }
      }
      GetTagValueAbsent(tags[1..], name);
    }
  }

  /** A tag `[name, v]` that no earlier tag shares a name with gives `v`. */
  lemma GetTagValueAt(tags: seq<Tag>, name: string, i: int, v: string)
    requires 0 <= i < |tags| && tags[i] == [name, v]
    requires forall j :: 0 <= j < i ==> !Named(tags[j], name)
    ensures GetTagValue(tags, name) == Some(v)
  {
    GetTagValueFirst(tags, name, i);
  }

  /** Looking a name up in `a + b` reads `a` when `a` has such a tag and `b` otherwise. */
  lemma {:induction false} GetTagValueAppend(a: seq<Tag>, b: seq<Tag>, name: string)
    ensures GetTagValue(a + b, name) == if HasTag(a, name) then GetTagValue(a, name) else GetTagValue(b, name)
  {
    if a == [] {
      assert a + b == b;
    } else if !Named(a[0], name) {
      assert (a + b)[1..] == a[1..] + b;
      assert HasTag(a, name) <==> HasTag(a[1..], name) by {
        if HasTag(a, name) {
          var t :| t in a && Named(t, name);
          assert t != a[0];
          assert t in a[1..];
        }
      }
      GetTagValueAppend(a[1..], b, name);
    } else {
      assert a[0] in a;
    }
  }

  /**
   * A subscription filter (section "Communication between clients and relays"
   * of NIP-01): kinds, authors, an optional time window, an optional result
   * cap and tag conditions `#<name>: [values]`.
   */
  datatype ReqFilter = ReqFilter(
    kinds: seq<int>,
    authors: seq<string>,
    limit: Option<int>,
    since: Option<int>,
    until: Option<int>,
    tagConditions: seq<(string, seq<string>)>)

  /** Whether an event satisfies a filter's conditions (the limit caps a result, it does not select events). */
  ghost predicate Matches(f: ReqFilter, e: Event) {
    && e.kind in f.kinds
    && e.pubkey in f.authors
    && (f.since.Some? ==> f.since.value <= e.createdAt)
    && (f.until.Some? ==> e.createdAt <= f.until.value)
    && forall c :: c in f.tagConditions ==>
         exists t :: t in e.tags && |t| >= 2 && t[0] == c.0 && t[1] in c.1
  }
}
