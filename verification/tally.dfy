/**
 * A JavaScript `Map` (or a plain object used as a dictionary) from keys to
 * numbers, kept as its entries in insertion order. That is the order in which
 * `Map.prototype.entries` lists them; `Object.entries` lists integer-like keys
 * (a year such as "2024") first, in ascending order, and only the remaining
 * keys in insertion order. The order of the object buckets is not relied on.
 */
module Tally {

  ghost predicate DistinctKeys<K>(t: seq<(K, int)>) {
    forall i, j :: 0 <= i < j < |t| ==> t[i].0 != t[j].0
  }

  ghost function Keys<K>(t: seq<(K, int)>): set<K> {
    set i | 0 <= i < |t| :: t[i].0
  }

  lemma KeysCons<K>(e: (K, int), t: seq<(K, int)>)
    ensures Keys([e] + t) == {e.0} + Keys(t)
  {
    var u := [e] + t;
    assert u[0] == e;
    forall x | x in Keys(u) ensures x in {e.0} + Keys(t) {
      var i :| 0 <= i < |u| && u[i].0 == x;
      if i > 0 { assert t[i - 1] == u[i]; }
    }
    forall x | x in Keys(t) ensures x in Keys(u) {
      var i :| 0 <= i < |t| && t[i].0 == x;
      assert u[i + 1] == t[i];
    }
  }

  /** `m.get(k) ?? 0`. */
  function Lookup<K(==)>(t: seq<(K, int)>, k: K): int {
    if t == [] then 0 else if t[0].0 == k then t[0].1 else Lookup(t[1..], k)
  }

  /** A key that was never added reads as 0. */
  lemma {:induction false} LookupAbsent<K>(t: seq<(K, int)>, k: K)
    requires k !in Keys(t)
    ensures Lookup(t, k) == 0
  {
    if t != [] {
      KeysCons(t[0], t[1..]);
      assert t == [t[0]] + t[1..];
      LookupAbsent(t[1..], k);
    }
  }

  /** The sum of all values. */
  function Total<K>(t: seq<(K, int)>): int {
    if t == [] then 0 else t[0].1 + Total(t[1..])
  }

  /** `m.set(k, (m.get(k) ?? 0) + v)`: an existing key keeps its place, a new key goes last. */
  function Add<K(==)>(t: seq<(K, int)>, k: K, v: int): (r: seq<(K, int)>)
    ensures Keys(r) == Keys(t) + {k}
    ensures Total(r) == Total(t) + v
    ensures k !in Keys(t) ==> r == t + [(k, v)]
  {
    if t == [] then
      assert [(k, v)] == [(k, v)] + t && Keys(t) == {};
      KeysCons((k, v), t);
      [(k, v)]
    else
      KeysCons(t[0], t[1..]);
      assert t == [t[0]] + t[1..];
      if t[0].0 == k then
        KeysCons((k, t[0].1 + v), t[1..]);
        [(k, t[0].1 + v)] + t[1..]
      else
        var rest := Add(t[1..], k, v);
        KeysCons(t[0], rest);
        [t[0]] + rest
  }

  /** Adding never files one key twice. */
  lemma {:induction false} AddKeepsKeysDistinct<K>(t: seq<(K, int)>, k: K, v: int)
    requires DistinctKeys(t)
    ensures DistinctKeys(Add(t, k, v))
  {
    if t != [] && t[0].0 != k {
      var tail := t[1..];
      assert DistinctKeys(tail) by {
        forall a, b | 0 <= a < b < |tail| ensures tail[a].0 != tail[b].0 {
          assert tail[a] == t[a + 1] && tail[b] == t[b + 1];
        }
      }
      AddKeepsKeysDistinct(tail, k, v);
      var rest := Add(tail, k, v);
      assert t[0].0 !in Keys(tail) by {
        forall m | 0 <= m < |tail| ensures tail[m].0 != t[0].0 {
          assert tail[m] == t[m + 1];
        }
      }
      assert t[0].0 !in Keys(rest);
      var r := [t[0]] + rest;
      assert r == Add(t, k, v);
      forall a, b | 0 <= a < b < |r| ensures r[a].0 != r[b].0 {
        assert r[b] == rest[b - 1];
        assert rest[b - 1].0 in Keys(rest);
        if a > 0 {
          assert r[a] == rest[a - 1];
        }
      }
    }
  }

  /** Adding under `k` changes the entry of `k` and no other. */
  lemma {:induction false} LookupAdd<K>(t: seq<(K, int)>, k: K, v: int, k': K)
    ensures Lookup(Add(t, k, v), k') == Lookup(t, k') + (if k' == k then v else 0)
  {
    if t != [] && t[0].0 != k {
      LookupAdd(t[1..], k, v, k');
    }
  }

  /** The tally a `forEach` builds by adding `weight(x)` under `key(x)` for each `x` in turn. */
  function TallyOf<T, K(==)>(s: seq<T>, key: T -> K, weight: T -> int): (r: seq<(K, int)>)
    ensures DistinctKeys(r)
    ensures Keys(r) == set x | x in s :: key(x)
  {
    if s == [] then []
    else
      var front := s[..|s| - 1];
      assert s == front + [s[|s| - 1]];
      AddKeepsKeysDistinct(TallyOf(front, key, weight), key(s[|s| - 1]), weight(s[|s| - 1]));
      Add(TallyOf(front, key, weight), key(s[|s| - 1]), weight(s[|s| - 1]))
  }

  /** One more element adds its weight under its key. */
  lemma TallyOfSnoc<T, K>(s: seq<T>, x: T, key: T -> K, weight: T -> int)
    ensures TallyOf(s + [x], key, weight) == Add(TallyOf(s, key, weight), key(x), weight(x))
  {
    assert (s + [x])[..|s|] == s;
  }

  /** The sum of `weight(x)` over the `x` in `s` with `key(x) == k`. */
  function SumWhere<T, K(==)>(s: seq<T>, key: T -> K, weight: T -> int, k: K): int {
    if s == [] then 0
    else SumWhere(s[..|s| - 1], key, weight, k) + (if key(s[|s| - 1]) == k then weight(s[|s| - 1]) else 0)
  }

  /** The sum of `weight(x)` over all of `s`. */
  function SumAll<T>(s: seq<T>, weight: T -> int): int {
    if s == [] then 0 else SumAll(s[..|s| - 1], weight) + weight(s[|s| - 1])
  }

  /** Each key's entry is the sum of the weights filed under it. */
  lemma {:induction false} LookupTallyOf<T, K>(s: seq<T>, key: T -> K, weight: T -> int, k: K)
    ensures Lookup(TallyOf(s, key, weight), k) == SumWhere(s, key, weight, k)
  {
    if s != [] {
      LookupTallyOf(s[..|s| - 1], key, weight, k);
      LookupAdd(TallyOf(s[..|s| - 1], key, weight), key(s[|s| - 1]), weight(s[|s| - 1]), k);
    }
  }

  /** Every weight is filed under exactly one key, so the entries add up to the sum of all weights. */
  lemma {:induction false} TotalTallyOf<T, K>(s: seq<T>, key: T -> K, weight: T -> int)
    ensures Total(TallyOf(s, key, weight)) == SumAll(s, weight)
  {
    if s != [] {
      TotalTallyOf(s[..|s| - 1], key, weight);
    }
  }
}
