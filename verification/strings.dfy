/**
 * String helpers shared by the whole model: the JavaScript string
 * operations the application relies on (`startsWith`, `endsWith`,
 * `includes`, `toLowerCase`, `trim`, `padStart`, number-to-string and the
 * `||` fallback on possibly-missing strings), written out over `seq<char>`.
 */
module Strings {
  import opened Wrappers

  predicate StartsWith(s: string, prefix: string) {
    |prefix| <= |s| && s[..|prefix|] == prefix
  }

  predicate EndsWith(s: string, suffix: string) {
    |suffix| <= |s| && s[|s| - |suffix|..] == suffix
  }

  /** `sub` occurs in `s` starting at index `i`. */
  predicate OccursAt(s: string, sub: string, i: int) {
    0 <= i <= |s| - |sub| && s[i..i + |sub|] == sub
  }

  /** `s.includes(sub)`: `sub` occurs as a contiguous slice of `s`. */
  predicate Contains(s: string, sub: string) {
    exists i | 0 <= i <= |s| - |sub| :: OccursAt(s, sub, i)
  }

  lemma ContainsEmpty(s: string)
    ensures Contains(s, [])
  {
    assert OccursAt(s, [], 0);
  }

  lemma ContainsSelf(s: string)
    ensures Contains(s, s)
  {
    assert OccursAt(s, s, 0);
  }

  /** JavaScript truthiness of a possibly-missing string: present and non-empty. */
  predicate Truthy(s: Option<string>) {
    s.Some? && s.value != []
  }

  /** `s || fallback` for a possibly-missing string. */
  function OrElse(s: Option<string>, fallback: string): (r: string)
    ensures Truthy(s) ==> r == s.value
    ensures !Truthy(s) ==> r == fallback
  {
    if Truthy(s) then s.value else fallback
  }

  // ---------------------------------------------------------------------
  // Lower-casing (ASCII only; every other character is left alone)

  function LowerChar(c: char): char {
    if 'A' <= c <= 'Z' then (c as int + 32) as char else c
  }

  function Lower(s: string): (r: string)
    ensures |r| == |s|
    ensures forall i :: 0 <= i < |s| ==> r[i] == LowerChar(s[i])
  {
    seq(|s|, i requires 0 <= i < |s| => LowerChar(s[i]))
  }

  predicate IsLowerInvariant(s: string) {
    forall i :: 0 <= i < |s| ==> LowerChar(s[i]) == s[i]
  }

  /** A needle that lower-casing leaves alone is still found after lower-casing the haystack. */
  lemma LowerKeepsContains(s: string, sub: string)
    requires IsLowerInvariant(sub)
    requires Contains(s, sub)
    ensures Contains(Lower(s), sub)
  {
    var i :| 0 <= i <= |s| - |sub| && OccursAt(s, sub, i);
    var l := Lower(s);
    assert l[i..i + |sub|] == sub;
    assert OccursAt(Lower(s), sub, i);
  }

  // ---------------------------------------------------------------------
  // String.prototype.trim: ECMAScript WhiteSpace and LineTerminator code points

  predicate IsJsWhitespace(c: char) {
    || c == '\U{9}' || c == '\U{A}' || c == '\U{B}' || c == '\U{C}' || c == '\U{D}'
    || c == '\U{20}' || c == '\U{A0}' || c == '\U{1680}'
    || ('\U{2000}' <= c <= '\U{200A}')
    || c == '\U{2028}' || c == '\U{2029}' || c == '\U{202F}' || c == '\U{205F}'
    || c == '\U{3000}' || c == '\U{FEFF}'
  }

  /** Every character is whitespace, so `s.trim()` is empty (falsy). */
  predicate IsBlank(s: string) {
    forall i :: 0 <= i < |s| ==> IsJsWhitespace(s[i])
  }

  function TrimStart(s: string): (r: string)
    ensures |r| <= |s| && r == s[|s| - |r|..]
    ensures forall i :: 0 <= i < |s| - |r| ==> IsJsWhitespace(s[i])
    ensures r == [] || !IsJsWhitespace(r[0])
  {
    if |s| > 0 && IsJsWhitespace(s[0]) then TrimStart(s[1..]) else s
  }

  function TrimEnd(s: string): (r: string)
    ensures |r| <= |s| && r == s[..|r|]
    ensures forall i :: |r| <= i < |s| ==> IsJsWhitespace(s[i])
    ensures r == [] || !IsJsWhitespace(r[|r| - 1])
  {
    if |s| > 0 && IsJsWhitespace(s[|s| - 1]) then TrimEnd(s[..|s| - 1]) else s
  }

  /** `s.trim()`: a slice of `s` with no whitespace at either end; empty exactly for blank input. */
  function Trim(s: string): (r: string)
    ensures OccursAt(s, r, |s| - |TrimStart(s)|)
    // what is cut off on either side is white space
    ensures IsBlank(s[..|s| - |TrimStart(s)|]) && IsBlank(s[|s| - |TrimStart(s)| + |r|..])
    ensures r == [] <==> IsBlank(s)
    ensures r != [] ==> !IsJsWhitespace(r[0]) && !IsJsWhitespace(r[|r| - 1])
  {
    var a := TrimStart(s);
    var r := TrimEnd(a);
    TrimFacts(s, a, r);
    r
  }

  lemma TrimFacts(s: string, a: string, r: string)
    requires a == TrimStart(s) && r == TrimEnd(a)
    ensures OccursAt(s, r, |s| - |a|)
    ensures IsBlank(s[..|s| - |a|]) && IsBlank(s[|s| - |a| + |r|..])
    ensures r == [] <==> IsBlank(s)
    ensures r != [] ==> !IsJsWhitespace(r[0]) && !IsJsWhitespace(r[|r| - 1])
  {
    TrimSlice(s, a, r);
    TrimTail(s, a, r);
    if r == [] {
      TrimEndEmpty(a);
    } else {
      assert r[0] == s[|s| - |a|];
    }
  }

  /** Trimming both ends leaves the slice of `s` that starts after the leading white space. */
  lemma TrimSlice(s: string, a: string, r: string)
    requires |a| <= |s| && |r| <= |a| && a == s[|s| - |a|..] && r == a[..|r|]
    ensures OccursAt(s, r, |s| - |a|)
  {
    var k := |s| - |a|;
    assert s[k..k + |r|] == a[..|r|];
  }

  /** The part `TrimEnd` cuts off `a` is the end of `s`, so it is white space there too. */
  lemma TrimTail(s: string, a: string, r: string)
    requires |a| <= |s| && a == s[|s| - |a|..]
    requires |r| <= |a| && forall i :: |r| <= i < |a| ==> IsJsWhitespace(a[i])
    ensures IsBlank(s[|s| - |a| + |r|..])
  {
    var k := |s| - |a|;
    assert s[k + |r|..] == a[|r|..];
  }

  /** Trimming the end of a string that starts with a non-blank character leaves it non-empty. */
  lemma TrimEndEmpty(a: string)
    requires a == [] || !IsJsWhitespace(a[0])
    ensures TrimEnd(a) == [] ==> a == []
  {
  }

  // ---------------------------------------------------------------------
  // Decimal rendering (Number.prototype.toString for non-negative integers)

  predicate IsDigit(c: char) {
    '0' <= c <= '9'
  }

  predicate AllDigits(s: string) {
    forall i :: 0 <= i < |s| ==> IsDigit(s[i])
  }

  function DigitChar(d: nat): (c: char)
    requires d < 10
    ensures IsDigit(c) && c as int - '0' as int == d
  {
    ('0' as int + d) as char
  }

  /** The value of a string of decimal digits (the empty string reads as 0). */
  function DigitsValue(s: string): nat
    requires AllDigits(s)
  {
    if s == [] then 0 else 10 * DigitsValue(s[..|s| - 1]) + (s[|s| - 1] as int - '0' as int)
  }

  function NatToString(n: nat): (r: string)
    ensures AllDigits(r)
    ensures 1 <= |r|
    ensures |r| == 1 <==> n < 10
    ensures |r| == 2 <==> 10 <= n < 100
    ensures r[0] == '0' ==> n == 0
    decreases n
  {
    if n < 10 then [DigitChar(n)] else NatToString(n / 10) + [DigitChar(n % 10)]
  }

  /** Reading the rendered digits back gives the number: rendering is injective. */
  lemma {:induction false} NatToStringRoundTrip(n: nat)
    ensures DigitsValue(NatToString(n)) == n
    decreases n
  {
    if n >= 10 {
      var r := NatToString(n);
      assert r[..|r| - 1] == NatToString(n / 10);
      NatToStringRoundTrip(n / 10);
    }
  }

  /** `s.padStart(2, '0')`. */
  function PadStart2(s: string): (r: string)
    ensures |s| >= 2 ==> r == s
    ensures |s| < 2 ==> |r| == 2 && r[2 - |s|..] == s
    ensures forall i :: 0 <= i < |r| - |s| ==> r[i] == '0'
  {
    if |s| >= 2 then s else seq(2 - |s|, _ => '0') + s
  }

  /** Leading zeros do not change the value of a digit string. */
  lemma {:induction false} LeadingZeros(z: nat, s: string)
    requires AllDigits(s)
    ensures AllDigits(seq(z, _ => '0') + s)
    ensures DigitsValue(seq(z, _ => '0') + s) == DigitsValue(s)
    decreases z + |s|
  {
    var t := seq(z, _ => '0') + s;
    if s == [] {
      if z > 0 {
        assert t[..|t| - 1] == seq(z - 1, _ => '0') + [];
        LeadingZeros(z - 1, []);
      }
    } else {
      assert t[..|t| - 1] == seq(z, _ => '0') + s[..|s| - 1];
      LeadingZeros(z, s[..|s| - 1]);
    }
  }
}
