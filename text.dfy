/**
 * The Kotlin string primitives the screen controllers rely on: `isEmpty`,
 * `isBlank`, `contains(…, ignoreCase = true)`, `String.compareTo` (the order
 * behind `sortedBy { it.name }`) and `Long.toString` (the number inside a
 * generated content URI).
 */
module Text {

  datatype Option<+T> = None | Some(value: T)

  /** Kotlin `Char.isWhitespace()` on the JVM: `Character.isWhitespace(c) || Character.isSpaceChar(c)`. */
  predicate IsWhitespace(c: char) {
    || c == '\t' || c == '\n' || c == '\U{000B}' || c == '\U{000C}' || c == '\r'
    || ('\U{001C}' <= c <= '\U{001F}')
    || c == ' ' || c == '\U{00A0}' || c == '\U{1680}'
    || ('\U{2000}' <= c <= '\U{200A}')
    || c == '\U{2028}' || c == '\U{2029}' || c == '\U{202F}' || c == '\U{205F}' || c == '\U{3000}'
  }

  /** Kotlin `isBlank()`: empty, or whitespace only. */
  predicate IsBlank(s: string) {
    forall i :: 0 <= i < |s| ==> IsWhitespace(s[i])
  }

  /** Kotlin `Char.uppercaseChar()`, restricted to the ASCII letters. */
  function UpperCase(c: char): (u: char)
    ensures 'a' <= c <= 'z' ==> 'A' <= u <= 'Z' && u as int == c as int - 32
  {
    if 'a' <= c <= 'z' then (c as int - 32) as char else c
  }

  /** Kotlin `Char.lowercaseChar()`, restricted to the ASCII letters. */
  function LowerCase(c: char): (l: char)
    ensures 'A' <= c <= 'Z' ==> 'a' <= l <= 'z' && l as int == c as int + 32
  {
    if 'A' <= c <= 'Z' then (c as int + 32) as char else c
  }

  /** Kotlin `Char.equals(other, ignoreCase = true)`. */
  predicate CharEqualsIgnoreCase(a: char, b: char) {
    a == b || UpperCase(a) == UpperCase(b) || LowerCase(UpperCase(a)) == LowerCase(UpperCase(b))
  }

  /** `q` occurs in `s` at offset `i`, character by character ignoring case. */
  predicate RegionMatches(s: string, i: int, q: string) {
    0 <= i && i + |q| <= |s| && forall j :: 0 <= j < |q| ==> CharEqualsIgnoreCase(s[i + j], q[j])
  }

  /** Kotlin `s.contains(q, ignoreCase = true)`: tries every offset from the left. */
  function ContainsIgnoreCase(s: string, q: string): (r: bool)
    ensures r <==> exists i :: RegionMatches(s, i, q)
    decreases |s|
  {
    if |s| < |q| then
      false
    else if RegionMatches(s, 0, q) then
      true
    else
      var rest := ContainsIgnoreCase(s[1..], q);
      assert forall i :: RegionMatches(s[1..], i, q) ==> RegionMatches(s, i + 1, q);
      assert forall i :: 1 <= i && RegionMatches(s, i, q) ==> RegionMatches(s[1..], i - 1, q);
      rest
  }

  lemma ContainsIgnoreCaseExample()
    ensures ContainsIgnoreCase("Mountain View", "mountain")
  {
    assert RegionMatches("Mountain View", 0, "mountain");
  }

  /**
   * Java `String.compareTo`: the difference of the first pair of differing
   * characters, or else the difference of the lengths.
   */
  function CompareTo(a: string, b: string): int
    decreases |a|
  {
    if |a| == 0 || |b| == 0 then |a| - |b|
    else if a[0] != b[0] then a[0] as int - b[0] as int
    else CompareTo(a[1..], b[1..])
  }

  /** `a` sorts strictly before `b` in the natural order of strings. */
  predicate LexLess(a: string, b: string) {
    CompareTo(a, b) < 0
  }

  lemma {:induction false} CompareToZero(a: string, b: string)
    ensures CompareTo(a, b) == 0 <==> a == b
    decreases |a|
  {
    if |a| > 0 && |b| > 0 && a[0] == b[0] {
      CompareToZero(a[1..], b[1..]);
      assert a == [a[0]] + a[1..] && b == [b[0]] + b[1..];
    }
  }

  lemma {:induction false} CompareToAntisymmetric(a: string, b: string)
    ensures CompareTo(b, a) == -CompareTo(a, b)
    decreases |a|
  {
    if |a| > 0 && |b| > 0 && a[0] == b[0] {
      CompareToAntisymmetric(a[1..], b[1..]);
    }
  }

  lemma {:induction false} LexLessTransitive(a: string, b: string, c: string)
    requires LexLess(a, b) && LexLess(b, c)
    ensures LexLess(a, c)
    decreases |a|
  {
    if |a| > 0 && |b| > 0 && |c| > 0 && a[0] == b[0] && b[0] == c[0] {
      LexLessTransitive(a[1..], b[1..], c[1..]);
    }
  }

  /** Strings are totally ordered: exactly one of `a < b`, `a == b`, `b < a`. */
  lemma LexLessTrichotomy(a: string, b: string)
    ensures a == b || LexLess(a, b) || LexLess(b, a)
    ensures !(LexLess(a, b) && LexLess(b, a))
    ensures !LexLess(a, a)
  {
    CompareToZero(a, b);
    CompareToZero(a, a);
    CompareToAntisymmetric(a, b);
  }

  /** The decimal digits of a natural number, most significant first. */
  function NatDigits(n: nat): (s: string)
    ensures |s| > 0 && AllDigits(s)
    decreases n
  {
    if n < 10 then ["0123456789"[n]] else NatDigits(n / 10) + ["0123456789"[n % 10]]
  }

  predicate AllDigits(s: string) {
    forall i :: 0 <= i < |s| ==> '0' <= s[i] <= '9'
  }

  /** Kotlin `Long.toString()`: a minus sign for negative values, then the digits. */
  function DecimalString(n: int): (s: string)
    ensures |s| > 0
    ensures s[0] == '-' <==> n < 0
  {
    if n < 0 then "-" + NatDigits(-n) else NatDigits(n)
  }

  function DigitsValue(s: string): nat
    requires AllDigits(s)
  {
    if |s| == 0 then 0 else DigitsValue(s[..|s| - 1]) * 10 + (s[|s| - 1] as int - '0' as int)
  }

  /** The inverse of DecimalString, on the strings it produces. */
  function ParseDecimal(s: string): int
    requires WellFormedDecimal(s)
  {
    if s[0] == '-' then -(DigitsValue(s[1..]) as int) else DigitsValue(s)
  }

  lemma {:induction false} NatDigitsRoundTrip(n: nat)
    ensures DigitsValue(NatDigits(n)) == n
    decreases n
  {
    if n >= 10 {
      NatDigitsRoundTrip(n / 10);
      var s := NatDigits(n);
      assert s[..|s| - 1] == NatDigits(n / 10);
    }
  }

  /** A string DecimalString produces is one ParseDecimal accepts. */
  predicate WellFormedDecimal(s: string) {
    |s| > 0 && if s[0] == '-' then AllDigits(s[1..]) else AllDigits(s)
  }

  lemma DecimalRoundTrip(n: int)
    ensures WellFormedDecimal(DecimalString(n))
    ensures ParseDecimal(DecimalString(n)) == n
  {
    var s := DecimalString(n);
    if n < 0 {
      var d := NatDigits(-n);
      assert s == "-" + d;
      assert s[1..] == d;
      NatDigitsRoundTrip(-n);
    } else {
      assert s[0] != '-';
      NatDigitsRoundTrip(n);
    }
  }

  /** Two strings `pre + n + suf` built around different numbers differ: a timestamp-based name is unique per timestamp. */
  lemma EmbeddedDecimalInjective(pre: string, suf: string, a: int, b: int)
    requires pre + DecimalString(a) + suf == pre + DecimalString(b) + suf
    ensures a == b
  {
    var x, y := pre + DecimalString(a) + suf, pre + DecimalString(b) + suf;
    assert x[|pre|..|x| - |suf|] == DecimalString(a);
    assert y[|pre|..|y| - |suf|] == DecimalString(b);
    DecimalRoundTrip(a);
    DecimalRoundTrip(b);
  }
}
