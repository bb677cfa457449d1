/** Avatar colours picked from a name (ui/theme/Color.kt).

    A name's colour and two-colour gradient are chosen from two tables of
    five entries by the sum of the name's UTF-16 code units. Kotlin sums into
    a 32-bit `Int`, which wraps, and its `%` follows the sign of the dividend.
 */
module Palette {
  import opened Wrappers
  import opened Text

  /** An ARGB colour as the 32-bit literal the code writes. */
  datatype Color = Color(argb: int)

  const Pantone184: Color := Color(0xFFDF6B7C)
  const Pantone185: Color := Color(0xFFD93740)
  const Pantone163: Color := Color(0xFFEBA677)
  const Pantone164: Color := Color(0xFFE68A48)
  const Pantone346: Color := Color(0xFF87C597)
  const Pantone347: Color := Color(0xFF00A351)
  const Pantone305: Color := Color(0xFF73C6DC)
  const Pantone306: Color := Color(0xFF00B3DB)
  const Pantone245: Color := Color(0xFFC987B5)
  const Pantone246: Color := Color(0xFFB04590)

  /** `colors`. */
  const Colors: seq<Color> := [Pantone184, Pantone163, Pantone346, Pantone305, Pantone245]

  /** `colorGradients`: each entry starts with the matching entry of `Colors`. */
  const Gradients: seq<seq<Color>> := [
    [Pantone184, Pantone185],
    [Pantone163, Pantone164],
    [Pantone346, Pantone347],
    [Pantone305, Pantone306],
    [Pantone245, Pantone246]]

  // ------------------------------------------------------- char-code sums

  /** The sum of the UTF-16 code units (`Char.code`) a character occupies in a
      Kotlin string: one unit below U+10000, a surrogate pair above. */
  function UnitSum(c: char): (n: nat)
    ensures c as int < 0x10000 ==> n == c as int
    ensures c as int >= 0x10000 ==> 0xD800 + 0xDC00 <= n <= 0xDBFF + 0xDFFF
  {
    if c as int < 0x10000 then c as int
    else
      var v := c as int - 0x10000;
      (0xD800 + v / 0x400) + (0xDC00 + v % 0x400)
  }

  /** `sumOf { it.code }` over unbounded integers. */
  function CodeSum(s: string): nat
    decreases |s|
  {
    if |s| == 0 then 0 else UnitSum(s[0]) + CodeSum(s[1..])
  }

  lemma {:induction false} CodeSumConcat(a: string, b: string)
    ensures CodeSum(a + b) == CodeSum(a) + CodeSum(b)
    decreases |a|
  {
    if |a| > 0 {
      assert (a + b)[0] == a[0] && (a + b)[1..] == a[1..] + b;
      CodeSumConcat(a[1..], b);
    } else {
      assert a + b == b;
    }
  }

  /** The sum depends only on which characters occur how often. */
  lemma {:induction false} CodeSumPermutation(s: string, t: string)
    requires multiset(s) == multiset(t)
    ensures CodeSum(s) == CodeSum(t)
    decreases |s|
  {
    if |s| > 0 {
      assert s[0] in multiset(t);
      var i :| 0 <= i < |t| && t[i] == s[0];
      var rest := t[..i] + t[i + 1..];
      assert t == t[..i] + [t[i]] + t[i + 1..];
      assert s == [s[0]] + s[1..];
      assert multiset(t) == multiset(t[..i]) + multiset{t[i]} + multiset(t[i + 1..]);
      assert multiset(rest) == multiset(t[..i]) + multiset(t[i + 1..]);
      assert multiset(s) == multiset{s[0]} + multiset(s[1..]);
      assert multiset{s[0]} + multiset(s[1..]) == multiset{s[0]} + multiset(rest);
      assert forall x :: multiset(s[1..])[x] == multiset(rest)[x] by {
        forall x ensures multiset(s[1..])[x] == multiset(rest)[x] {
          assert (multiset{s[0]} + multiset(s[1..]))[x] == (multiset{s[0]} + multiset(rest))[x];
        }
      }
      assert multiset(s[1..]) == multiset(rest);
      CodeSumPermutation(s[1..], rest);
      CodeSumConcat(t[..i] + [t[i]], t[i + 1..]);
      CodeSumConcat(t[..i], [t[i]]);
      CodeSumConcat(t[..i], t[i + 1..]);
    } else {
      assert |t| == |multiset(t)|;
    }
  }

  /** Kotlin `Int` wrap-around: the value congruent modulo 2^32 in
      [-2^31, 2^31). */
  function WrapInt32(x: int): (r: int)
    ensures -0x8000_0000 <= r < 0x8000_0000
    ensures (r - x) % 0x1_0000_0000 == 0
    ensures -0x8000_0000 <= x < 0x8000_0000 ==> r == x
  {
    (x + 0x8000_0000) % 0x1_0000_0000 - 0x8000_0000
  }

  /** The `Int` the code computes for a name. */
  function KotlinSum(s: string): (r: int)
    ensures CodeSum(s) < 0x8000_0000 ==> r == CodeSum(s)
  {
    WrapInt32(CodeSum(s))
  }

  // ---------------------------------------------------- index, as written

  /** The table index as written, `sum % colors.size`; `None` stands for the
      `ArrayIndexOutOfBoundsException` a negative remainder raises. */
  function ColorIndexAsWritten(s: string): (r: Option<nat>)
    ensures r.Some? ==> r.value < |Colors|
    ensures r.Some? <==> TruncRem(KotlinSum(s), |Colors|) >= 0
    ensures KotlinSum(s) >= 0 ==> r == Some(KotlinSum(s) % |Colors|)
  {
    var i := TruncRem(KotlinSum(s), |Colors|);
    if i >= 0 then Some(i) else None
  }

  /** `toColor()` as written. */
  function ToColorAsWritten(s: string): (r: Option<Color>)
    ensures r.Some? <==> ColorIndexAsWritten(s).Some?
    ensures r.Some? ==> r.value == Colors[ColorIndexAsWritten(s).value]
  {
    match ColorIndexAsWritten(s)
    case None => None
    case Some(i) => Some(Colors[i])
  }

  /** `toGradient()` as written: the same index, into the gradient table. */
  function ToGradientAsWritten(s: string): (r: Option<seq<Color>>)
    ensures r.Some? <==> ColorIndexAsWritten(s).Some?
    ensures r.Some? ==> r.value == Gradients[ColorIndexAsWritten(s).value]
  {
    match ColorIndexAsWritten(s)
    case None => None
    case Some(i) => Some(Gradients[i])
  }

  /** The repetition of one character, to build long names. */
  function Repeat(c: char, n: nat): (r: string)
    ensures |r| == n
    decreases n
  {
    if n == 0 then [] else [c] + Repeat(c, n - 1)
  }

  lemma {:induction false} RepeatSum(c: char, n: nat)
    ensures CodeSum(Repeat(c, n)) == n * UnitSum(c)
    decreases n
  {
    if n > 0 {
      assert Repeat(c, n)[1..] == Repeat(c, n - 1);
      RepeatSum(c, n - 1);
    }
  }

  /** A name of 32770 replacement characters (U+FFFD) sums past `Int.MAX_VALUE`;
      the wrapped sum is negative and so is its remainder, and both `toColor`
      and `toGradient` index their tables at -1. */
  lemma OverflowingNameCrashes()
    ensures ToColorAsWritten(Repeat('\U{FFFD}', 32770)).None?
    ensures ToGradientAsWritten(Repeat('\U{FFFD}', 32770)).None?
  {
    var s := Repeat('\U{FFFD}', 32770);
    RepeatSum('\U{FFFD}', 32770);
    assert CodeSum(s) == 2147516410;
    assert KotlinSum(s) == -2147450886;
    assert TruncRem(KotlinSum(s), |Colors|) == -1;
  }

  // ---------------------------------------------------- index, corrected

  /** The index with a floor remainder (`sum.mod(colors.size)`, the form the
      code uses for its hue elsewhere): always in range. */
  function ColorIndex(s: string): (i: nat)
    ensures i < |Colors| && i < |Gradients|
    ensures ColorIndexAsWritten(s).Some? ==> i == ColorIndexAsWritten(s).value
    ensures (i - KotlinSum(s)) % |Colors| == 0
  {
    KotlinSum(s) % |Colors|
  }

  /** `toColor()`. */
  function ToColor(s: string): (c: Color)
    ensures c in Colors
    ensures c == Colors[ColorIndex(s)]
  {
    Colors[ColorIndex(s)]
  }

  /** `toGradient()`. */
  function ToGradient(s: string): (g: seq<Color>)
    ensures g in Gradients && |g| == 2
    ensures g == Gradients[ColorIndex(s)]
  {
    Gradients[ColorIndex(s)]
  }

  /** Whenever the code does not crash it picks the same colour and gradient
      as the corrected index, in particular for every name whose sum fits in
      `Int`. */
  lemma AgreesWithoutOverflow(s: string)
    ensures ToColorAsWritten(s).Some? ==> ToColorAsWritten(s).value == ToColor(s)
    ensures ToGradientAsWritten(s).Some? ==> ToGradientAsWritten(s).value == ToGradient(s)
    ensures CodeSum(s) < 0x8000_0000 ==> ToColorAsWritten(s) == Some(ToColor(s))
    ensures CodeSum(s) < 0x8000_0000 ==> ToGradientAsWritten(s) == Some(ToGradient(s))
  {
  }

  /** A name's gradient starts with the name's colour. */
  lemma GradientStartsWithColor(s: string)
    ensures ToGradient(s)[0] == ToColor(s)
  {
    var i := ColorIndex(s);
    assert i == 0 || i == 1 || i == 2 || i == 3 || i == 4;
  }

  /** Rearranging a name's characters keeps its colour and gradient. */
  lemma PermutationKeepsColor(s: string, t: string)
    requires multiset(s) == multiset(t)
    ensures ToColor(s) == ToColor(t) && ToGradient(s) == ToGradient(t)
  {
    CodeSumPermutation(s, t);
  }

  /** The empty name gets the first colour and the first gradient. */
  lemma EmptyNameColors()
    ensures ToColor("") == Pantone184
    ensures ToGradient("") == [Pantone184, Pantone185]
  {
  }
}
