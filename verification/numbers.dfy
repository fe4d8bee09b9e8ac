/**
 * JavaScript number text and arithmetic, on unbounded integers:
 * `Number.prototype.toString()`, `parseInt(s, 10)`, the `%` operator
 * (remainder truncated toward zero), `Math.round(x / d)` and
 * `String.prototype.padStart(2, '0')`.
 */
module Numbers {
  import opened Wrappers

  predicate IsDigit(c: char) {
    '0' <= c <= '9'
  }

  predicate AllDigits(s: string) {
    forall i :: 0 <= i < |s| ==> IsDigit(s[i])
  }

  function DigitChar(d: nat): (c: char)
    requires d < 10
    ensures IsDigit(c)
  {
    "0123456789"[d]
  }

  function DigitValue(c: char): (d: nat)
    requires IsDigit(c)
    ensures d < 10
  {
    (c as int) - ('0' as int)
  }

  /** Decimal text of a natural number, most significant digit first. */
  function NatToString(n: nat): (s: string)
    ensures |s| >= 1 && AllDigits(s)
    ensures n < 10 <==> |s| == 1
  {
    if n < 10 then [DigitChar(n)] else NatToString(n / 10) + [DigitChar(n % 10)]
  }

  /** `n.toString()` for an integer `n`. */
  function IntToString(n: int): (s: string)
    ensures |s| >= 1
    ensures n >= 0 <==> AllDigits(s)
  {
    if n < 0 then
      var s := "-" + NatToString(-n);
      assert !IsDigit(s[0]);
      s
    else NatToString(n)
  }

  /** The value of a string of digits, read most significant digit first. */
  function DigitsValue(s: string): nat
    requires AllDigits(s)
  {
    if s == [] then 0 else DigitsValue(s[..|s| - 1]) * 10 + DigitValue(s[|s| - 1])
  }

  /** The longest prefix of `s` made of digits. */
  function LeadingDigits(s: string): (p: string)
    ensures AllDigits(p) && |p| <= |s| && p == s[..|p|]
    ensures |p| < |s| ==> !IsDigit(s[|p|])
  {
    if s != [] && IsDigit(s[0]) then [s[0]] + LeadingDigits(s[1..]) else []
  }

  /**
   * `parseInt(s, 10)` on decimal text: an optional '-' followed by the longest
   * run of digits; None where JavaScript gives NaN (no digits at all).
   */
  function ParseInt(s: string): Option<int>
  {
    var negative := |s| > 0 && s[0] == '-';
    var digits := LeadingDigits(if negative then s[1..] else s);
    if digits == [] then None
    else Some(if negative then -(DigitsValue(digits) as int) else DigitsValue(digits))
  }

  /** The number a numeric tag holds, with NaN read as 0. */
  function ParseNumber(s: string): int {
    ParseInt(s).GetOr(0)
  }

  lemma {:induction false} LeadingDigitsOfDigits(s: string)
    requires AllDigits(s)
    ensures LeadingDigits(s) == s
  {
    if s != [] {
      LeadingDigitsOfDigits(s[1..]);
    }
  }

  lemma {:induction false} DigitsValueOfNatToString(n: nat)
    ensures DigitsValue(NatToString(n)) == n
  {
    var s := NatToString(n);
    if n >= 10 {
      DigitsValueOfNatToString(n / 10);
      assert s[..|s| - 1] == NatToString(n / 10);
    }
  }

  /** Reading back what `toString` wrote gives the same integer. */
  lemma ParseIntToString(n: int)
    ensures ParseInt(IntToString(n)) == Some(n)
  {
    var m: nat := if n < 0 then -n else n;
    var digits := NatToString(m);
    LeadingDigitsOfDigits(digits);
    DigitsValueOfNatToString(m);
    var s := IntToString(n);
    if n < 0 {
      assert s == "-" + digits;
      assert s[1..] == digits;
      assert |s| > 0 && s[0] == '-';
    } else {
      assert s == digits;
      assert IsDigit(s[0]);
    }
  }

  lemma ParseNumberToString(n: int)
    ensures ParseNumber(IntToString(n)) == n
  {
    ParseIntToString(n);
  }

  /** Digits end where the first non-digit starts. */
  lemma {:induction false} LeadingDigitsPrefix(a: string, b: string)
    requires AllDigits(a) && (b == [] || !IsDigit(b[0]))
    ensures LeadingDigits(a + b) == a
  {
    if a != [] {
      assert (a + b)[1..] == a[1..] + b;
      LeadingDigitsPrefix(a[1..], b);
    } else {
      assert a + b == b;
    }
  }

  /** `parseInt` reads a run of digits up to the first non-digit. */
  lemma ParseIntPrefix(a: string, b: string)
    requires a != [] && AllDigits(a) && (b == [] || !IsDigit(b[0]))
    ensures ParseInt(a + b) == Some(DigitsValue(a) as int)
  {
    LeadingDigitsPrefix(a, b);
    assert (a + b)[0] == a[0];
  }

  /** A leading zero does not change the value of a digit string. */
  lemma {:induction false} DigitsValueLeadingZero(s: string)
    requires AllDigits(s)
    ensures AllDigits("0" + s) && DigitsValue("0" + s) == DigitsValue(s)
  {
    var z := "0" + s;
    if s != [] {
      assert z[..|z| - 1] == "0" + s[..|s| - 1];
      DigitsValueLeadingZero(s[..|s| - 1]);
    }
  }

  /** A number padded to two digits reads back as itself. */
  lemma PaddedDigitsValue(n: nat)
    ensures AllDigits(PadStart2(NatToString(n)))
    ensures DigitsValue(PadStart2(NatToString(n))) == n
  {
    var s := NatToString(n);
    DigitsValueOfNatToString(n);
    if |s| == 1 {
      DigitsValueLeadingZero(s);
    }
  }

  /** JavaScript's `a % b`: None (NaN) when `b` is 0, otherwise the remainder truncated toward zero. */
  function JsRem(a: int, b: int): (r: Option<int>)
    ensures b == 0 <==> r == None
    ensures r.Some? ==> exists q :: a == q * b + r.value
    ensures r.Some? ==> (a >= 0 ==> 0 <= r.value < Abs(b)) && (a < 0 ==> -(Abs(b) as int) < r.value <= 0)
  {
    if b == 0 then None
    else
      var q := Abs(a) / Abs(b);
      var m := Abs(a) % Abs(b);
      var qs := if (a < 0) == (b < 0) then q else -q;
      assert a == qs * b + (if a < 0 then -m else m) by { QuotientSign(a, b, q, m); }
      Some(if a < 0 then -m else m)
  }

  lemma QuotientSign(a: int, b: int, q: int, m: int)
    requires b != 0 && Abs(a) == q * Abs(b) + m
    ensures a == (if (a < 0) == (b < 0) then q else -q) * b + (if a < 0 then -m else m)
  {
    if a < 0 && b < 0 {
      assert -a == q * -b + m;
    } else if a < 0 {
      assert -a == q * b + m;
    } else if b < 0 {
      assert a == q * -b + m;
    }
  }

  function Abs(x: int): nat {
    if x < 0 then -x else x
  }

  lemma JsRemAgrees(a: nat, b: int)
    requires b > 0
    ensures JsRem(a, b) == Some(a % b)
  {
  }

  /** `Math.round(x / d)`: the nearest integer, halves rounded up. */
  function RoundDiv(x: int, d: int): (r: int)
    requires d > 0
    ensures 2 * r * d - d <= 2 * x < 2 * r * d + d
  {
    (2 * x + d) / (2 * d)
  }

  /** `s.padStart(2, '0')`. */
  function PadStart2(s: string): (r: string)
    ensures |r| == if |s| < 2 then 2 else |s|
    ensures r[|r| - |s|..] == s
    ensures forall i :: 0 <= i < |r| - |s| ==> r[i] == '0'
  {
    if |s| == 0 then "00" else if |s| == 1 then "0" + s else s
  }
}
