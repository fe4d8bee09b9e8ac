/** `Array.prototype.filter`, `map` followed by a non-null filter, and counting, on sequences. */
module Seqs {
  import opened Wrappers

  /** `s.filter(p)`: the elements satisfying `p`, in their original order. */
  function Filter<T(!new)>(s: seq<T>, p: T -> bool): (r: seq<T>)
    ensures |r| <= |s|
    ensures forall x :: x in r <==> x in s && p(x)
    ensures multiset(r) <= multiset(s)
  {
    if s == [] then []
    else
      var front := Filter(s[..|s| - 1], p);
      assert s == s[..|s| - 1] + [s[|s| - 1]];
      if p(s[|s| - 1]) then front + [s[|s| - 1]] else front
  }

  /** Filtering distributes over concatenation. */
  lemma {:induction false} FilterAppend<T(!new)>(a: seq<T>, b: seq<T>, p: T -> bool)
    ensures Filter(a + b, p) == Filter(a, p) + Filter(b, p)
  {
    if b != [] {
      assert (a + b)[..|a + b| - 1] == a + b[..|b| - 1];
      FilterAppend(a, b[..|b| - 1], p);
    } else {
      assert a + b == a;
    }
  }

  /** A prefix one longer is the prefix followed by the next element. */
  lemma PrefixSnoc<T>(s: seq<T>, i: int)
    requires 0 <= i < |s|
    ensures s[..i + 1] == s[..i] + [s[i]]
  {
  }

  /** Extending a prefix by one element extends its filtering by that element when it passes. */
  lemma FilterPrefix<T(!new)>(s: seq<T>, i: int, p: T -> bool)
    requires 0 <= i < |s|
    ensures Filter(s[..i + 1], p) == if p(s[i]) then Filter(s[..i], p) + [s[i]] else Filter(s[..i], p)
  {
    assert s[..i + 1][..i] == s[..i];
  }

  /** Filtering a sequence extended by one element extends the result by it when it passes. */
  lemma FilterSnoc<T(!new)>(s: seq<T>, x: T, p: T -> bool)
    ensures Filter(s + [x], p) == if p(x) then Filter(s, p) + [x] else Filter(s, p)
  {
    assert (s + [x])[..|s + [x]| - 1] == s;
  }

  /** A sequence is a prefix of itself followed by anything. */
  lemma PrefixOfAppend<T>(a: seq<T>, b: seq<T>)
    ensures a <= a + b
  {
  }

  /** Filtering a prefix gives a prefix of the filtered sequence. */
  lemma FilterOfPrefix<T(!new)>(s: seq<T>, n: int, p: T -> bool)
    requires 0 <= n <= |s|
    ensures Filter(s[..n], p) <= Filter(s, p)
  {
    var top, rest := s[..n], s[n..];
    assert s == top + rest;
    FilterAppend(top, rest, p);
    PrefixOfAppend(Filter(top, p), Filter(rest, p));
  }

  /** Nothing passes a filter that no element satisfies. */
  lemma {:induction false} FilterNone<T(!new)>(s: seq<T>, p: T -> bool)
    requires forall x :: x in s ==> !p(x)
    ensures Filter(s, p) == []
  {
    if s != [] {
      FilterNone(s[..|s| - 1], p);
    }
  }

  /** Predicates that agree everywhere select the same elements. */
  lemma {:induction false} FilterExt<T(!new)>(s: seq<T>, p: T -> bool, q: T -> bool)
    requires forall x :: p(x) == q(x)
    ensures Filter(s, p) == Filter(s, q)
  {
    if s != [] {
      FilterExt(s[..|s| - 1], p, q);
    }
  }

  /** Filtering by `p` first changes nothing when `q` already implies `p`. */
  lemma {:induction false} FilterFilter<T(!new)>(s: seq<T>, p: T -> bool, q: T -> bool)
    requires forall x :: q(x) ==> p(x)
    ensures Filter(Filter(s, p), q) == Filter(s, q)
  {
    if s != [] {
      var front := s[..|s| - 1];
      var last := s[|s| - 1];
      FilterFilter(front, p, q);
      if p(last) {
        var fp := Filter(front, p);
        assert Filter(s, p) == fp + [last];
        assert (fp + [last])[..|fp + [last]| - 1] == fp;
      }
    }
  }

  /** `s.map(f).filter(x => x !== null)`: the successful results, in order. */
  function Decoded<A(!new), B(!new)>(s: seq<A>, f: A -> Option<B>): (r: seq<B>)
    ensures |r| <= |s|
    ensures forall b :: b in r <==> exists a :: a in s && f(a) == Some(b)
  {
    if s == [] then []
    else
      var front := Decoded(s[..|s| - 1], f);
      var last := s[|s| - 1];
      assert s == s[..|s| - 1] + [last];
      assert forall a :: a in s <==> a in s[..|s| - 1] || a == last;
      if f(last).Some? then front + [f(last).value] else front
  }

  /** Decoding distributes over concatenation. */
  lemma {:induction false} DecodedAppend<A(!new), B(!new)>(a: seq<A>, b: seq<A>, f: A -> Option<B>)
    ensures Decoded(a + b, f) == Decoded(a, f) + Decoded(b, f)
  {
    if b != [] {
      assert (a + b)[..|a + b| - 1] == a + b[..|b| - 1];
      DecodedAppend(a, b[..|b| - 1], f);
    } else {
      assert a + b == a;
    }
  }

  /** Whether `f` succeeds on an element. */
  function Decodes<A, B>(f: A -> Option<B>): A -> bool {
    a => f(a).Some?
  }

  /** As many results as elements that decode: failures are the only thing dropped. */
  lemma {:induction false} DecodedCount<A(!new), B(!new)>(s: seq<A>, f: A -> Option<B>)
    ensures |Decoded(s, f)| == |Filter(s, Decodes(f))|
  {
    if s != [] {
      DecodedCount(s[..|s| - 1], f);
    }
  }

  /** `s.filter(p).length`. */
  function Count<T(!new)>(s: seq<T>, p: T -> bool): (n: nat)
    ensures n <= |s|
    ensures n == |Filter(s, p)|
  {
    |Filter(s, p)|
  }
}
