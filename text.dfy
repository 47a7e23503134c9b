/** The string operations the recipe pages rely on: `toLowerCase`, `includes`,
    and the decimal rendering of a non-negative integer in a template literal. */
module Text {

  predicate IsUpper(c: char) {
    'A' <= c <= 'Z'
  }

  predicate IsDigit(c: char) {
    '0' <= c <= '9'
  }

  /** Lower-casing of one character, restricted to ASCII letters: an upper-case letter
      becomes its lower-case partner, every other character stays. */
  function ToLower(c: char): (d: char)
    ensures !IsUpper(d)
    ensures IsUpper(c) ==> 'a' <= d <= 'z'
    ensures IsUpper(c) ==> d as int - 'a' as int == c as int - 'A' as int
    ensures !IsUpper(c) ==> d == c
  {
    if IsUpper(c) then (c as int + 32) as char else c
  }

  /** `s.toLowerCase()`: the character map applied at every position. */
  function Lower(s: string): (r: string)
    ensures |r| == |s|
    ensures forall i :: 0 <= i < |r| ==> !IsUpper(r[i])
    ensures (forall i :: 0 <= i < |s| ==> !IsUpper(s[i])) ==> r == s
  {
    seq(|s|, i requires 0 <= i < |s| => ToLower(s[i]))
  }

  /** Two strings that differ at most in the case of their letters. */
  predicate SameIgnoringCase(a: string, b: string) {
    |a| == |b| && forall i :: 0 <= i < |a| ==> ToLower(a[i]) == ToLower(b[i])
  }

  lemma SameIgnoringCaseIff(a: string, b: string)
    ensures SameIgnoringCase(a, b) <==> Lower(a) == Lower(b)
  {
    if SameIgnoringCase(a, b) {
      assert forall i :: 0 <= i < |a| ==> Lower(a)[i] == Lower(b)[i];
    }
    if Lower(a) == Lower(b) {
      assert forall i :: 0 <= i < |a| ==> Lower(a)[i] == ToLower(a[i]);
    }
  }

  /** `s.includes(t)`: `t` occurs in `s` as a contiguous block. */
  predicate Contains(s: string, t: string)
    ensures Contains(s, t) ==> |t| <= |s|
  {
    exists i :: 0 <= i <= |s| - |t| && t <= s[i..]
  }

  /** The empty string occurs in every string. */
  lemma ContainsEmpty(s: string)
    ensures Contains(s, "")
  {
    assert "" <= s[0..];
  }

  function DigitChar(d: nat): (c: char)
    requires d < 10
    ensures IsDigit(c)
  {
    ('0' as int + d) as char
  }

  function DigitValue(c: char): (d: nat)
    requires IsDigit(c)
    ensures d < 10 && DigitChar(d) == c
  {
    c as int - '0' as int
  }

  /** The template-literal rendering `${n}` of a non-negative integer below 10^21:
      its decimal digits, most significant first, without leading zeros. */
  function Decimal(n: nat): (r: string)
    ensures 1 <= |r|
    ensures forall i :: 0 <= i < |r| ==> IsDigit(r[i])
    ensures |r| > 1 ==> r[0] != '0'
  {
    if n < 10 then [DigitChar(n)] else Decimal(n / 10) + [DigitChar(n % 10)]
  }

  /** The number a string of decimal digits denotes (the inverse of Decimal). */
  function DecimalValue(s: string): nat
    requires forall i :: 0 <= i < |s| ==> IsDigit(s[i])
  {
    if s == [] then 0 else DecimalValue(s[..|s| - 1]) * 10 + DigitValue(s[|s| - 1])
  }

  lemma {:induction false} DecimalRoundTrip(n: nat)
    ensures DecimalValue(Decimal(n)) == n
  {
    var r := Decimal(n);
    if n >= 10 {
      DecimalRoundTrip(n / 10);
      assert r[..|r| - 1] == Decimal(n / 10);
      assert DigitValue(r[|r| - 1]) == n % 10;
    }
  }

  /** Different numbers have different renderings. */
  lemma DecimalInjective(m: nat, n: nat)
    requires Decimal(m) == Decimal(n)
    ensures m == n
  {
    DecimalRoundTrip(m);
    DecimalRoundTrip(n);
  }
}
