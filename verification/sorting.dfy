/**
 * `Array.prototype.sort` with a comparator that compares an integer key and,
 * on a tie, a second integer key (the comparators in the query hooks and the
 * report page all have this shape). The sort is modelled as an insertion sort,
 * which is stable, as JavaScript's sort is: SortByStable states it.
 */
module Sorting {
  import opened Seqs

  /** Lexicographic order on pairs of integers. */
  predicate KeyLe(a: (int, int), b: (int, int)) {
    a.0 < b.0 || (a.0 == b.0 && a.1 <= b.1)
  }

  predicate SortedBy<T>(s: seq<T>, key: T -> (int, int)) {
    forall i, j :: 0 <= i < j < |s| ==> KeyLe(key(s[i]), key(s[j]))
  }

  /** Places `x` after every element whose key is not greater than its own. */
  function Insert<T>(s: seq<T>, x: T, key: T -> (int, int)): (r: seq<T>)
    requires SortedBy(s, key)
    ensures SortedBy(r, key)
    ensures multiset(r) == multiset(s) + multiset{x}
    ensures |r| == |s| + 1
  {
    if s == [] then [x]
    else if KeyLe(key(s[|s| - 1]), key(x)) then s + [x]
    else
      var last := s[|s| - 1];
      var front := Insert(s[..|s| - 1], x, key);
      assert s == s[..|s| - 1] + [last];
      assert forall y :: y in front ==> KeyLe(key(y), key(last)) by {
        forall y | y in front ensures KeyLe(key(y), key(last)) {
          assert y in multiset(front);
          assert y in multiset(s[..|s| - 1]) || y == x;
        }
      }
      front + [last]
  }

  /** The input reordered so that keys never decrease. */
  function SortBy<T>(s: seq<T>, key: T -> (int, int)): (r: seq<T>)
    ensures SortedBy(r, key)
    ensures multiset(r) == multiset(s)
    ensures |r| == |s|
  {
    if s == [] then []
    else
      assert s == s[..|s| - 1] + [s[|s| - 1]];
      Insert(SortBy(s[..|s| - 1], key), s[|s| - 1], key)
  }

  /** Every element selected by `p` has the same key. */
  ghost predicate OneKey<T(!new)>(p: T -> bool, key: T -> (int, int)) {
    forall x, y :: p(x) && p(y) ==> key(x) == key(y)
  }

  /** Insertion puts `x` after every element of its own key. */
  lemma {:induction false} InsertStable<T(!new)>(s: seq<T>, x: T, key: T -> (int, int), p: T -> bool)
    requires SortedBy(s, key) && OneKey(p, key)
    ensures Filter(Insert(s, x, key), p) == if p(x) then Filter(s, p) + [x] else Filter(s, p)
  {
    if s == [] {
      FilterSnoc([], x, p);
    } else if KeyLe(key(s[|s| - 1]), key(x)) {
      FilterSnoc(s, x, p);
    } else {
      var front, last := s[..|s| - 1], s[|s| - 1];
      assert s == front + [last];
      InsertStable(front, x, key, p);
      FilterSnoc(Insert(front, x, key), last, p);
      FilterSnoc(front, last, p);
      assert !(p(x) && p(last));
    }
  }

  /**
   * The sort is stable: the elements of any one key (or of any selection of
   * elements sharing a key) come out in their input order.
   */
  lemma {:induction false} SortByStable<T(!new)>(s: seq<T>, key: T -> (int, int), p: T -> bool)
    requires OneKey(p, key)
    ensures Filter(SortBy(s, key), p) == Filter(s, p)
  {
    if s != [] {
      var front, last := s[..|s| - 1], s[|s| - 1];
      assert s == front + [last];
      SortByStable(front, key, p);
      InsertStable(SortBy(front, key), last, key, p);
      FilterSnoc(front, last, p);
    }
  }

  /** A prefix of the sorted sequence holds the first elements of each key of the input, in order. */
  lemma SortedPrefixStable<T(!new)>(s: seq<T>, key: T -> (int, int), p: T -> bool, n: int)
    requires OneKey(p, key) && 0 <= n <= |s|
    ensures Filter(SortBy(s, key)[..n], p) <= Filter(s, p)
  {
    FilterOfPrefix(SortBy(s, key), n, p);
    SortByStable(s, key, p);
  }
}
