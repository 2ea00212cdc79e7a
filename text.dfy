/** String helpers with the meaning JavaScript gives them: substring search
    (`String.prototype.includes`), number-to-string conversion, `padStart`
    and the code-unit order that `Array.prototype.sort` uses by default. */
module Text {

  /** `s.includes(pat)`: `pat` occurs in `s` at some position. */
  predicate Contains(s: string, pat: string)
    decreases |s|
  {
    |pat| <= |s| && (s[..|pat|] == pat || (|s| > 0 && Contains(s[1..], pat)))
  }

  /** Text added after a message never hides a pattern that already occurs in it. */
  lemma {:induction false} ContainsAppend(s: string, t: string, pat: string)
    requires Contains(s, pat)
    ensures Contains(s + t, pat)
    decreases |s|
  {
    if s[..|pat|] == pat {
      assert (s + t)[..|pat|] == pat;
    } else {
      ContainsAppend(s[1..], t, pat);
      assert (s + t)[1..] == s[1..] + t;
    }
  }

  /** Text added before a message never hides a pattern that already occurs in it. */
  lemma {:induction false} ContainsPrepend(p: string, s: string, pat: string)
    requires Contains(s, pat)
    ensures Contains(p + s, pat)
    decreases |p|
  {
    if p == [] {
      assert p + s == s;
    } else {
      ContainsPrepend(p[1..], s, pat);
      assert (p + s)[1..] == p[1..] + s;
    }
  }

  predicate IsDigit(c: char) {
    '0' <= c <= '9'
  }

  function DigitChar(d: nat): (c: char)
    requires d < 10
    ensures IsDigit(c)
  {
    "0123456789"[d]
  }

  /** `String(n)` for a non-negative integer: its decimal digits, no leading zeros. */
  function NatToString(n: nat): string
    decreases n
  {
    if n < 10 then [DigitChar(n)] else NatToString(n / 10) + [DigitChar(n % 10)]
  }

  /** `String(i)` for any integer. */
  function IntToString(i: int): string {
    if i < 0 then "-" + NatToString(-i) else NatToString(i)
  }

  /** `s.padStart(2, '0')`. */
  function PadStart2(s: string): string {
    if |s| == 0 then "00" else if |s| == 1 then "0" + s else s
  }

  /** Every number from 1 to 99, zero-padded to two places, is exactly two digits. */
  lemma TwoDigits(n: nat)
    requires 1 <= n <= 99
    ensures |PadStart2(NatToString(n))| == 2
    ensures forall k :: 0 <= k < 2 ==> IsDigit(PadStart2(NatToString(n))[k])
  {
    if n >= 10 {
      assert NatToString(n / 10) == [DigitChar(n / 10)];
    }
  }

  /** `a < b` on strings in JavaScript: lexicographic order on characters,
      a proper prefix coming first. */
  predicate LexLess(a: string, b: string)
    decreases |a|
  {
    |b| > 0 && (|a| == 0 || a[0] < b[0] || (a[0] == b[0] && LexLess(a[1..], b[1..])))
  }

  lemma {:induction false} LexLessIrreflexive(a: string)
    ensures !LexLess(a, a)
    decreases |a|
  {
    if |a| > 0 {
      LexLessIrreflexive(a[1..]);
    }
  }

  lemma {:induction false} LexLessTransitive(a: string, b: string, c: string)
    requires LexLess(a, b) && LexLess(b, c)
    ensures LexLess(a, c)
    decreases |a|
  {
    if |a| > 0 && a[0] == b[0] && b[0] == c[0] {
      LexLessTransitive(a[1..], b[1..], c[1..]);
    }
  }

  /** Any two different strings are ordered one way or the other. */
  lemma {:induction false} LexLessTotal(a: string, b: string)
    requires a != b
    ensures LexLess(a, b) || LexLess(b, a)
    decreases |a|
  {
    if |a| > 0 && |b| > 0 && a[0] == b[0] {
      assert a == [a[0]] + a[1..] && b == [b[0]] + b[1..];
      LexLessTotal(a[1..], b[1..]);
    }
  }
}
