/**
 * Character and string helpers shared by the pricing modules: ASCII case
 * mapping (`toLowerCase`, `toUpperCase`), substring search (`includes`),
 * decimal digits, the whitespace class of `\s` and `indexOf` on string arrays.
 */
module Ascii {

  predicate IsUpper(c: char) { 'A' <= c <= 'Z' }

  predicate IsLower(c: char) { 'a' <= c <= 'z' }

  predicate IsDigit(c: char) { '0' <= c <= '9' }

  /** The ASCII part of the regular-expression class `\s`. */
  predicate IsSpace(c: char) { c == ' ' || c == '\t' || c == '\n' || c == '\r' || c == '\U{B}' || c == '\U{C}' }

  function ToLowerChar(c: char): (r: char)
    ensures !IsUpper(r)
    ensures IsUpper(c) ==> IsLower(r) && r as int == c as int + 32
    ensures !IsUpper(c) ==> r == c
  {
    if IsUpper(c) then (c as int + 32) as char else c
  }

  function ToUpperChar(c: char): (r: char)
    ensures !IsLower(r)
    ensures IsLower(c) ==> IsUpper(r) && r as int + 32 == c as int
    ensures !IsLower(c) ==> r == c
  {
    if IsLower(c) then (c as int - 32) as char else c
  }

  /** `s.toLowerCase()`, restricted to the ASCII letters. */
  function Lower(s: string): (r: string)
    ensures |r| == |s|
    ensures forall i :: 0 <= i < |s| ==> r[i] == ToLowerChar(s[i])
  {
    seq(|s|, i requires 0 <= i < |s| => ToLowerChar(s[i]))
  }

  /** `s.toUpperCase()`, restricted to the ASCII letters. */
  function Upper(s: string): (r: string)
    ensures |r| == |s|
    ensures forall i :: 0 <= i < |s| ==> r[i] == ToUpperChar(s[i])
  {
    seq(|s|, i requires 0 <= i < |s| => ToUpperChar(s[i]))
  }

  predicate IsLowerCase(s: string)
  {
    forall i :: 0 <= i < |s| ==> !IsUpper(s[i])
  }

  lemma LowerIsLowerCase(s: string)
    ensures IsLowerCase(Lower(s))
  {
  }

  /** Lower-casing a lower-case string changes nothing. */
  lemma {:induction false} LowerOfLowerCase(s: string)
    requires IsLowerCase(s)
    ensures Lower(s) == s
  {
    assert forall i :: 0 <= i < |s| ==> Lower(s)[i] == s[i];
  }

  lemma LowerIdempotent(s: string)
    ensures Lower(Lower(s)) == Lower(s)
  {
    LowerIsLowerCase(s);
    LowerOfLowerCase(Lower(s));
  }

  lemma LowerAppend(a: string, b: string)
    ensures Lower(a + b) == Lower(a) + Lower(b)
  {
    assert forall i :: 0 <= i < |a + b| ==> Lower(a + b)[i] == (Lower(a) + Lower(b))[i];
  }

  /** `t` occurs in `s` starting at position `i`. */
  predicate OccursAt(s: string, t: string, i: int)
  {
    0 <= i && i + |t| <= |s| && s[i..i + |t|] == t
  }

  /** `s.includes(t)`: `t` occurs in `s` at some position. */
  predicate Contains(s: string, t: string)
  {
    exists i | 0 <= i <= |s| - |t| :: OccursAt(s, t, i)
  }

  /** An occurrence at a known position gives `Contains`. */
  lemma ContainsAt(s: string, t: string, i: nat)
    requires i + |t| <= |s| && s[i..i + |t|] == t
    ensures Contains(s, t)
  {
    assert OccursAt(s, t, i);
  }

  /** Every string contains itself wherever it is embedded. */
  lemma ContainsInfix(a: string, t: string, b: string)
    ensures Contains(a + t + b, t)
  {
    var s := a + t + b;
    assert s[|a|..|a| + |t|] == t;
    ContainsAt(s, t, |a|);
  }

  /**
   * A string cannot contain a pattern holding a character the string lacks;
   * this is how the model decides the negative `includes` tests on literals.
   */
  lemma {:induction false} MissingCharNotContained(s: string, t: string, c: char)
    requires c in t && c !in s
    ensures !Contains(s, t)
  {
    var k :| 0 <= k < |t| && t[k] == c;
    forall i | 0 <= i <= |s| - |t|
      ensures !OccursAt(s, t, i)
    {
      assert s[i..i + |t|][k] == s[i + k] != c;
    }
  }

  /** `s.charAt(0).toUpperCase() + s.slice(1).toLowerCase()` (lib/plans.ts capitalizePlanName). */
  function Capitalize(s: string): (r: string)
    ensures |r| == |s|
  {
    if s == [] then "" else Upper(s[..1]) + Lower(s[1..])
  }

  /** Capitalizing keeps the length, is idempotent and keeps the lower-case form. */
  lemma CapitalizeFacts(s: string)
    ensures |Capitalize(s)| == |s|
    ensures Capitalize(Capitalize(s)) == Capitalize(s)
    ensures Lower(Capitalize(s)) == Lower(s)
  {
    if s != [] {
      var c := Capitalize(s);
      assert c[..1] == Upper(s[..1]);
      assert c[1..] == Lower(s[1..]);
      LowerIdempotent(s[1..]);
      assert Upper(c[..1]) == c[..1];
      assert Capitalize(c) == c;
      assert forall i :: 0 <= i < |s| ==> Lower(c)[i] == Lower(s)[i];
    }
  }

  /** `s.replace(/\s+/g, '-')`: every maximal run of whitespace becomes one dash. */
  function Slug(s: string): (r: string)
    decreases |s|
  {
    if s == [] then ""
    else if IsSpace(s[0]) then "-" + Slug(DropSpaces(s[1..]))
    else [s[0]] + Slug(s[1..])
  }

  /** Drops the leading whitespace run. */
  function DropSpaces(s: string): (r: string)
    ensures |r| <= |s|
    ensures r == [] || !IsSpace(r[0])
  {
    if s != [] && IsSpace(s[0]) then DropSpaces(s[1..]) else s
  }

  /** A slug without a dash is its own input: the input had neither whitespace nor dashes. */
  lemma {:induction false} SlugWithoutDash(s: string)
    requires '-' !in Slug(s)
    ensures Slug(s) == s
    decreases |s|
  {
    if s != [] {
      if IsSpace(s[0]) {
        assert false;
      } else {
        assert Slug(s) == [s[0]] + Slug(s[1..]);
        assert '-' !in Slug(s[1..]);
        SlugWithoutDash(s[1..]);
      }
    }
  }

  /** A string without whitespace is its own slug; dashes are kept as they are. */
  lemma {:induction false} SlugOfPlain(s: string)
    requires forall i :: 0 <= i < |s| ==> !IsSpace(s[i])
    ensures Slug(s) == s
    decreases |s|
  {
    if s != [] {
      SlugOfPlain(s[1..]);
    }
  }

  /** `xs.indexOf(x)` on an array of strings. */
  function IndexOf(xs: seq<string>, x: string): (i: int)
    ensures -1 <= i < |xs|
    ensures i == -1 <==> x !in xs
    ensures i >= 0 ==> xs[i] == x && forall k :: 0 <= k < i ==> xs[k] != x
  {
    if xs == [] then -1
    else if xs[0] == x then 0
    else
      var j := IndexOf(xs[1..], x);
      if j == -1 then -1 else j + 1
  }

  /** The number a string of decimal digits denotes. */
  function DigitsValue(s: string): nat
    requires forall i :: 0 <= i < |s| ==> IsDigit(s[i])
  {
    if s == [] then 0
    else
      assert IsDigit(s[|s| - 1]);
      DigitsValue(s[..|s| - 1]) * 10 + (s[|s| - 1] as int - '0' as int)
  }

  /** `String(n)` for non-negative integers: the decimal digits of `n`, without leading zeros. */
  function NatToString(n: nat): (r: string)
    ensures |r| > 0
    ensures forall i :: 0 <= i < |r| ==> IsDigit(r[i])
    ensures |r| > 1 ==> r[0] != '0'
    ensures DigitsValue(r) == n
    decreases n
  {
    if n < 10 then
      assert [DigitChar(n)][..0] == [];
      [DigitChar(n)]
    else
      var init := NatToString(n / 10);
      var r := init + [DigitChar(n % 10)];
      assert r[..|r| - 1] == init;
      r
  }

  function DigitChar(d: nat): (c: char)
    requires d < 10
    ensures IsDigit(c)
    ensures c as int - '0' as int == d
  {
    ('0' as int + d) as char
  }

  /** Decimal strings are canonical: two numbers have the same digits only when they are equal. */
  lemma NatToStringInjective(m: nat, n: nat)
    requires NatToString(m) == NatToString(n)
    ensures m == n
  {
    assert DigitsValue(NatToString(m)) == m;
  }

  /** `String(n)` for integers: a minus sign before the digits of a negative number. */
  function IntToString(n: int): (r: string)
    ensures |r| > 0
    ensures n >= 0 <==> IsDigit(r[0])
    ensures n >= 0 ==> r == NatToString(n) && DigitsValue(r) == n
    ensures n < 0 ==> r[0] == '-' && r[1..] == NatToString(-n) && DigitsValue(r[1..]) == -n
  {
    if n < 0 then "-" + NatToString(-n) else NatToString(n)
  }
}
