/** The two string operations the core uses: `toLowerCase()` and `replace(c, d)` with a one-character pattern. */
module Text {

  /** `c.toLowerCase()` for ASCII letters; every other character is left as it is. */
  function LowerChar(c: char): (r: char)
    ensures 'A' <= c <= 'Z' ==> r as int == c as int + 32
    ensures !('A' <= c <= 'Z') ==> r == c
    ensures !('A' <= r <= 'Z')
  {
    if 'A' <= c <= 'Z' then (c as int + 32) as char else c
  }

  /** `s.toLowerCase()`, character by character. */
  function ToLower(s: string): (r: string)
    ensures |r| == |s|
    ensures forall i :: 0 <= i < |s| ==> r[i] == LowerChar(s[i])
  {
    if s == [] then [] else [LowerChar(s[0])] + ToLower(s[1..])
  }

  /** `s.replace(from, to)` with one-character strings: only the FIRST occurrence is replaced. */
  function ReplaceFirst(s: string, from: char, to: char): string {
    if s == [] then []
    else if s[0] == from then [to] + s[1..]
    else [s[0]] + ReplaceFirst(s[1..], from, to)
  }

  /** The replacement happens exactly at the first occurrence of `from`, and nowhere else. */
  lemma {:induction false} ReplaceFirstAt(s: string, from: char, to: char, i: nat)
    requires i < |s| && s[i] == from && from !in s[..i]
    ensures ReplaceFirst(s, from, to) == s[..i] + [to] + s[i + 1..]
  {
    if i > 0 {
      assert s[0] != from by {
        assert s[..i][0] == s[0];
      }
      var t := s[1..];
      var u, w := t[..i - 1], s[..i];
      assert from !in u by {
        forall k | 0 <= k < |u| ensures u[k] != from {
          assert u[k] == w[k + 1];
        }
      }
      ReplaceFirstAt(t, from, to, i - 1);
      assert w == [s[0]] + u;
      assert t[i..] == s[i + 1..];
    }
  }

  /** Without an occurrence of `from` nothing is replaced. */
  lemma {:induction false} ReplaceFirstAbsent(s: string, from: char, to: char)
    requires from !in s
    ensures ReplaceFirst(s, from, to) == s
  {
    if s != [] {
      assert from !in s[1..];
      ReplaceFirstAbsent(s[1..], from, to);
    }
  }
}
