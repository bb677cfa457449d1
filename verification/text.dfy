/** The few pieces of the Kotlin standard library whose exact behaviour the
    client relies on: `String.trim()`, decimal rendering of integers and the
    truncating remainder operator `%`.
 */
module Text {

  /** Kotlin's `Char.isWhitespace()`: Java's `Character.isWhitespace` or
      `Character.isSpaceChar` (the separators Zs, Zl and Zp). */
  predicate IsWhitespace(c: char) {
    || ('\U{0009}' <= c <= '\U{000D}')
    || ('\U{001C}' <= c <= '\U{0020}')
    || c == '\U{00A0}' || c == '\U{1680}'
    || ('\U{2000}' <= c <= '\U{200A}')
    || c == '\U{2028}' || c == '\U{2029}' || c == '\U{202F}' || c == '\U{205F}'
    || c == '\U{3000}'
  }

  predicate AllWhitespace(s: string) {
    forall k :: 0 <= k < |s| ==> IsWhitespace(s[k])
  }

  /** Neither end of `s` is whitespace. */
  predicate IsTrimmed(s: string) {
    |s| == 0 || (!IsWhitespace(s[0]) && !IsWhitespace(s[|s| - 1]))
  }

  /** `r` is `s` with the whitespace run before index `i` and the whitespace run
      after `r` removed: the defining property of `s.trim()`. */
  predicate IsTrimOf(s: string, r: string, i: int) {
    && 0 <= i && i + |r| <= |s|
    && r == s[i..i + |r|]
    && (forall k :: 0 <= k < i ==> IsWhitespace(s[k]))
    && (forall k :: i + |r| <= k < |s| ==> IsWhitespace(s[k]))
    && IsTrimmed(r)
  }

  /** Length of the leading whitespace run of `s`. */
  function LeadingWhitespace(s: string): (n: nat)
    ensures n <= |s|
    ensures forall k :: 0 <= k < n ==> IsWhitespace(s[k])
    ensures n < |s| ==> !IsWhitespace(s[n])
  {
    if |s| > 0 && IsWhitespace(s[0]) then
      var n' := LeadingWhitespace(s[1..]);
      assert forall k :: 1 <= k < n' + 1 ==> s[k] == s[1..][k - 1];
      1 + n'
    else 0
  }

  /** Length of `s` once its trailing whitespace run is dropped. */
  function KeptPrefix(s: string): (n: nat)
    ensures n <= |s|
    ensures forall k :: n <= k < |s| ==> IsWhitespace(s[k])
    ensures n > 0 ==> !IsWhitespace(s[n - 1])
  {
    if |s| > 0 && IsWhitespace(s[|s| - 1]) then
      var n' := KeptPrefix(s[..|s| - 1]);
      assert forall k :: n' <= k < |s| - 1 ==> s[k] == s[..|s| - 1][k];
      n'
    else |s|
  }

  /** Kotlin's `String.trim()`. */
  function Trim(s: string): (r: string)
    ensures IsTrimOf(s, r, LeadingWhitespace(s))
  {
    var i := LeadingWhitespace(s);
    var t := s[i..];
    var n := KeptPrefix(t);
    assert forall k :: i + n <= k < |s| ==> s[k] == t[k - i];
    assert t[..n] == s[i..i + n];
    t[..n]
  }

  /** The trim of a string is unique: any two readings of `IsTrimOf` agree. */
  lemma TrimOfIsUnique(s: string, r1: string, i1: int, r2: string, i2: int)
    requires IsTrimOf(s, r1, i1) && IsTrimOf(s, r2, i2)
    ensures r1 == r2 && (|r1| > 0 ==> i1 == i2)
  {
    assert |r1| > 0 ==> r1[0] == s[i1];
    assert |r2| > 0 ==> r2[0] == s[i2];
    assert |r1| > 0 <==> |r2| > 0;
    if |r1| > 0 {
      assert i1 == i2;
      assert r1[|r1| - 1] == s[i1 + |r1| - 1];
      assert r2[|r2| - 1] == s[i2 + |r2| - 1];
      assert |r1| == |r2|;
    }
  }

  /** Trimming twice is trimming once. */
  lemma TrimIdempotent(s: string)
    ensures Trim(Trim(s)) == Trim(s)
  {
    var r := Trim(s);
    assert IsTrimOf(r, r, 0) by {
      assert r[0..|r|] == r;
    }
    TrimOfIsUnique(r, Trim(r), LeadingWhitespace(r), r, 0);
  }

  /** A string trims to nothing exactly when it is all whitespace. */
  lemma TrimEmptyIff(s: string)
    ensures Trim(s) == [] <==> AllWhitespace(s)
  {
    if |Trim(s)| > 0 {
      assert Trim(s)[0] == s[LeadingWhitespace(s)];
    }
  }

  function DigitChar(d: nat): (c: char)
    requires d < 10
    ensures '0' <= c <= '9'
  {
    ['0', '1', '2', '3', '4', '5', '6', '7', '8', '9'][d]
  }

  function DigitValue(c: char): (d: nat)
    requires '0' <= c <= '9'
    ensures d < 10
  {
    (c as int - '0' as int)
  }

  predicate IsDigitString(s: string) {
    forall k :: 0 <= k < |s| ==> '0' <= s[k] <= '9'
  }

  /** Decimal rendering of a natural number, as `Long.toString()` and string
      templates produce it: no sign and no leading zeros. */
  function NatToString(n: nat): (r: string)
    ensures |r| > 0 && IsDigitString(r)
    ensures r[0] == '0' ==> n == 0
    decreases n
  {
    if n < 10 then [DigitChar(n)]
    else NatToString(n / 10) + [DigitChar(n % 10)]
  }

  /** Reads a string of decimal digits back as a number. */
  function ParseDigits(s: string): nat
    requires IsDigitString(s)
  {
    if |s| == 0 then 0
    else 10 * ParseDigits(s[..|s| - 1]) + DigitValue(s[|s| - 1])
  }

  /** The rendering is faithful: reading it back gives the number. */
  lemma {:induction false} NatToStringRoundTrip(n: nat)
    ensures ParseDigits(NatToString(n)) == n
    decreases n
  {
    if n >= 10 {
      var r := NatToString(n);
      assert r[..|r| - 1] == NatToString(n / 10);
      NatToStringRoundTrip(n / 10);
    } else {
      assert DigitValue(DigitChar(n)) == n;
    }
  }

  /** Decimal rendering of any integer, with a leading '-' for negatives. */
  function IntToString(i: int): (r: string)
    ensures |r| > 0
    ensures i >= 0 <==> r[0] != '-'
  {
    if i >= 0 then NatToString(i) else "-" + NatToString(-i)
  }

  /** The truncating remainder of Kotlin, Java and C (`a % b`) for a positive
      divisor: its sign follows the dividend. Dafny's own `%` is Euclidean and
      never negative, so the two agree only on non-negative dividends. */
  function TruncRem(a: int, b: int): (r: int)
    requires b > 0
    ensures a >= 0 ==> 0 <= r < b
    ensures a < 0 ==> -b < r <= 0
    ensures a >= 0 ==> r == a % b
  {
    if a >= 0 then a % b else -((-a) % b)
  }
}
