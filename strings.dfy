/** String helpers the client relies on: PHP's rtrim/ltrim for one character, and decimal rendering. */
module Strings {

  /** `Repeat(c, n)` is the string of `n` copies of `c`. */
  function Repeat(c: char, n: nat): (r: string)
    ensures |r| == n
    ensures forall i | 0 <= i < n :: r[i] == c
  {
    seq(n, _ => c)
  }

  /** PHP `rtrim($s, $c)` with a one-character mask: drops every trailing `c`. */
  function RTrim(s: string, c: char): (r: string)
    ensures |r| <= |s| && r == s[..|r|]
    ensures r == [] || r[|r| - 1] != c
    ensures forall i | |r| <= i < |s| :: s[i] == c
    decreases |s|
  {
    if |s| > 0 && s[|s| - 1] == c then RTrim(s[..|s| - 1], c) else s
  }

  /** PHP `ltrim($s, $c)` with a one-character mask: drops every leading `c`. */
  function LTrim(s: string, c: char): (r: string)
    ensures |r| <= |s| && r == s[|s| - |r|..]
    ensures r == [] || r[0] != c
    ensures forall i | 0 <= i < |s| - |r| :: s[i] == c
    decreases |s|
  {
    if |s| > 0 && s[0] == c then LTrim(s[1..], c) else s
  }

  /** Trimming a prefix that does not end in `c` leaves that prefix alone. */
  lemma {:induction false} RTrimKeepsPrefix(p: string, m: string, c: char)
    requires p == [] || p[|p| - 1] != c
    ensures RTrim(p + m, c) == p + RTrim(m, c)
    decreases |m|
  {
    if |m| > 0 && m[|m| - 1] == c {
      assert (p + m)[..|p + m| - 1] == p + m[..|m| - 1];
      RTrimKeepsPrefix(p, m[..|m| - 1], c);
    } else if m == [] {
      assert p + m == p;
    }
  }

  /** Any number of trailing `c` are dropped alike. */
  lemma {:induction false} RTrimIgnoresTrailing(s: string, c: char, n: nat)
    ensures RTrim(s + Repeat(c, n), c) == RTrim(s, c)
  {
    if n > 0 {
      var t := s + Repeat(c, n);
      assert t[|t| - 1] == c;
      assert t[..|t| - 1] == s + Repeat(c, n - 1);
      assert RTrim(t, c) == RTrim(t[..|t| - 1], c);
      RTrimIgnoresTrailing(s, c, n - 1);
    } else {
      assert s + Repeat(c, n) == s;
    }
  }

  /** Any number of leading `c` are dropped alike. */
  lemma {:induction false} LTrimIgnoresLeading(s: string, c: char, n: nat)
    ensures LTrim(Repeat(c, n) + s, c) == LTrim(s, c)
  {
    if n > 0 {
      var t := Repeat(c, n) + s;
      assert t[0] == c;
      assert t[1..] == Repeat(c, n - 1) + s;
      assert LTrim(t, c) == LTrim(t[1..], c);
      LTrimIgnoresLeading(s, c, n - 1);
    } else {
      assert Repeat(c, n) + s == s;
    }
  }

  /** The decimal digit for `d`. */
  function Digit(d: nat): (ch: char)
    requires d < 10
    ensures '0' <= ch <= '9'
  {
    "0123456789"[d]
  }

  predicate IsDigits(s: string) {
    forall i | 0 <= i < |s| :: '0' <= s[i] <= '9'
  }

  /** The number a string of decimal digits denotes (the inverse of NatToString). */
  function DecimalValue(s: string): nat
    requires IsDigits(s)
  {
    if s == [] then 0 else DecimalValue(s[..|s| - 1]) * 10 + (s[|s| - 1] - '0') as nat
  }

  /** PHP's rendering of a non-negative integer in a string: decimal, no leading zero. */
  function NatToString(n: nat): (r: string)
    ensures |r| > 0 && IsDigits(r)
    ensures r[0] == '0' ==> n == 0 && r == "0"
    ensures DecimalValue(r) == n
  {
    if n < 10 then [Digit(n)]
    else
      var prefix := NatToString(n / 10);
      var r := prefix + [Digit(n % 10)];
      assert r[..|r| - 1] == prefix;
      r
  }

  /** Different numbers render differently. */
  lemma NatToStringInjective(a: nat, b: nat)
    requires NatToString(a) == NatToString(b)
    ensures a == b
  {
  }
}
