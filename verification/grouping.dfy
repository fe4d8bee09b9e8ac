/**
 * A JavaScript object used to collect values into lists by a string key
 * (`if (!grouped[k]) grouped[k] = []; grouped[k].push(x)`), kept as its
 * entries in insertion order.
 */
module Grouping {
  import opened Seqs

  /** Appending `x` to the list filed under `k`; a new key opens a list at the end. */
  function PushTo<T, K(==)>(g: seq<(K, seq<T>)>, k: K, x: T): (r: seq<(K, seq<T>)>)
    ensures |r| == if KeyIndex(g, k) < |g| then |g| else |g| + 1
  {
    if g == [] then [(k, [x])]
    else if g[0].0 == k then [(k, g[0].1 + [x])] + g[1..]
    else [g[0]] + PushTo(g[1..], k, x)
  }

  /** Where `k` is filed, or `|g|` when it is not. */
  function KeyIndex<T, K(==)>(g: seq<(K, seq<T>)>, k: K): (i: nat)
    ensures i <= |g|
    ensures i < |g| ==> g[i].0 == k
    ensures forall j :: 0 <= j < i ==> g[j].0 != k
  {
    if g == [] then 0 else if g[0].0 == k then 0 else 1 + KeyIndex(g[1..], k)
  }

  /** The list filed under `k`, or the empty list. */
  function ListOf<T, K(==)>(g: seq<(K, seq<T>)>, k: K): seq<T> {
    if g == [] then [] else if g[0].0 == k then g[0].1 else ListOf(g[1..], k)
  }

  /** The grouping of a whole sequence: every element pushed in turn. */
  function Group<T, K(==)>(s: seq<T>, key: T -> K): seq<(K, seq<T>)> {
    if s == [] then [] else PushTo(Group(s[..|s| - 1], key), key(s[|s| - 1]), s[|s| - 1])
  }

  ghost predicate DistinctKeys<T, K>(g: seq<(K, seq<T>)>) {
    forall i, j :: 0 <= i < j < |g| ==> g[i].0 != g[j].0
  }

  /** Pushing at the index where the key is found, or opening a new list at the end. */
  lemma {:induction false} PushToAt<T, K>(g: seq<(K, seq<T>)>, k: K, x: T)
    ensures var i := KeyIndex(g, k);
      PushTo(g, k, x) == if i < |g| then g[i := (k, g[i].1 + [x])] else g + [(k, [x])]
  {
    if g != [] && g[0].0 != k {
      PushToAt(g[1..], k, x);
      var i := KeyIndex(g, k);
      if i < |g| {
        assert [g[0]] + g[1..][i - 1 := (k, g[i].1 + [x])] == g[i := (k, g[i].1 + [x])];
      } else {
        assert [g[0]] + (g[1..] + [(k, [x])]) == g + [(k, [x])];
      }
    }
  }

  /** Pushing changes only the list of `k`, which gains `x` at its end. */
  lemma {:induction false} ListOfPushTo<T, K>(g: seq<(K, seq<T>)>, k: K, x: T, q: K)
    ensures ListOf(PushTo(g, k, x), q) == if q == k then ListOf(g, q) + [x] else ListOf(g, q)
  {
    if g != [] && g[0].0 != k {
      ListOfPushTo(g[1..], k, x, q);
    }
  }

  ghost function KeySet<T, K>(g: seq<(K, seq<T>)>): set<K> {
    set i | 0 <= i < |g| :: g[i].0
  }

  /** Pushing keeps keys distinct and adds `k` to them. */
  lemma PushToKeepsDistinct<T, K>(g: seq<(K, seq<T>)>, k: K, x: T)
    requires DistinctKeys(g)
    ensures DistinctKeys(PushTo(g, k, x))
    ensures KeySet(PushTo(g, k, x)) == KeySet(g) + {k}
  {
    PushToAt(g, k, x);
    var i := KeyIndex(g, k);
    var r := PushTo(g, k, x);
    if i == |g| {
      forall a, b | 0 <= a < b < |r| ensures r[a].0 != r[b].0 {
        if b == |g| {
          assert r[a] == g[a];
        } else {
          assert r[a] == g[a] && r[b] == g[b];
        }
      }
      forall q | q in KeySet(r) ensures q in KeySet(g) + {k} {
        var j :| 0 <= j < |r| && r[j].0 == q;
        if j < |g| {
          assert g[j].0 == q;
        }
      }
      forall q | q in KeySet(g) ensures q in KeySet(r) {
        var j :| 0 <= j < |g| && g[j].0 == q;
        assert r[j].0 == q;
      }
      assert r[|g|].0 == k;
    } else {
      forall q | q in KeySet(g) ensures q in KeySet(r) {
        var j :| 0 <= j < |g| && g[j].0 == q;
        assert r[j].0 == q;
      }
      forall q | q in KeySet(r) ensures q in KeySet(g) {
        var j :| 0 <= j < |r| && r[j].0 == q;
        assert g[j].0 == q;
      }
    }
  }

  /** Whether an element has key `q`. */
  function KeyIs<T, K(==)>(key: T -> K, q: K): T -> bool {
    x => key(x) == q
  }

  /**
   * The grouping of `s` files under each key exactly the elements with that
   * key, in their original order.
   */
  lemma {:induction false} GroupLists<T(!new), K(!new)>(s: seq<T>, key: T -> K, q: K)
    ensures ListOf(Group(s, key), q) == Filter(s, KeyIs(key, q))
  {
    if s != [] {
      var front := s[..|s| - 1];
      GroupLists(front, key, q);
      ListOfPushTo(Group(front, key), key(s[|s| - 1]), s[|s| - 1], q);
    }
  }

  /** The keys of the grouping are pairwise distinct, and they are exactly the keys that occur. */
  lemma {:induction false} GroupKeys<T(!new), K(!new)>(s: seq<T>, key: T -> K)
    ensures DistinctKeys(Group(s, key))
    ensures KeySet(Group(s, key)) == set x | x in s :: key(x)
  {
    if s != [] {
      var front := s[..|s| - 1];
      var last := s[|s| - 1];
      GroupKeys(front, key);
      PushToKeepsDistinct(Group(front, key), key(last), last);
      assert s == front + [last];
      assert (set x | x in s :: key(x)) == (set x | x in front :: key(x)) + {key(last)};
    }
  }

  /** How many elements the lists hold together. */
  function Size<T, K>(g: seq<(K, seq<T>)>): nat {
    if g == [] then 0 else |g[0].1| + Size(g[1..])
  }

  lemma {:induction false} SizePushTo<T, K>(g: seq<(K, seq<T>)>, k: K, x: T)
    ensures Size(PushTo(g, k, x)) == Size(g) + 1
  {
    if g != [] && g[0].0 != k {
      SizePushTo(g[1..], k, x);
      assert PushTo(g, k, x)[1..] == PushTo(g[1..], k, x);
    } else if g != [] {
      assert PushTo(g, k, x)[1..] == g[1..];
    }
  }

  /** Every element is filed exactly once. */
  lemma {:induction false} GroupSize<T, K>(s: seq<T>, key: T -> K)
    ensures Size(Group(s, key)) == |s|
  {
    if s != [] {
      GroupSize(s[..|s| - 1], key);
      SizePushTo(Group(s[..|s| - 1], key), key(s[|s| - 1]), s[|s| - 1]);
    }
  }
}
