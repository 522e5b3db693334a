/**
 * The JavaScript string built-ins the core relies on, over `string` = `seq<char>`:
 * `indexOf`, `includes`, `startsWith`, `replace` with a string pattern, `substring`,
 * `trim`, `toLowerCase` and `toUpperCase` (ASCII letters only), `parseInt` with radix 10, and the decimal
 * and hexadecimal renderings of numbers.
 */
module JsStrings {
  import opened Wrappers

  // ---------------------------------------------------------------------------
  // Searching

  /** `p` occurs in `s` at index `k`. */
  predicate OccursAt(s: string, p: string, k: int) {
    0 <= k && k + |p| <= |s| && s[k..k + |p|] == p
  }

  /** `s.indexOf(p, from)` once `from` has been clamped into `0..|s|`. */
  function IndexFrom(s: string, p: string, k: nat): (r: int)
    requires k <= |s|
    decreases |s| - k
    ensures r == -1 || (k <= r && OccursAt(s, p, r))
    ensures r == -1 ==> forall j :: k <= j <= |s| ==> !OccursAt(s, p, j)
    ensures r != -1 ==> forall j :: k <= j < r ==> !OccursAt(s, p, j)
  {
    if k + |p| > |s| then -1
    else if s[k..k + |p|] == p then k
    else if k == |s| then -1
    else IndexFrom(s, p, k + 1)
  }

  /** `s.indexOf(p, from)`: the first occurrence at or after `from` (clamped), or -1. */
  function IndexOfFrom(s: string, p: string, from: int): (r: int)
    ensures r == -1 || (Clamp(from, |s|) <= r && OccursAt(s, p, r))
    ensures r == -1 ==> forall j :: from <= j ==> !OccursAt(s, p, j)
    ensures r != -1 ==> forall j :: from <= j < r ==> !OccursAt(s, p, j)
  {
    IndexFrom(s, p, Clamp(from, |s|))
  }

  /** `s.indexOf(p)`. */
  function IndexOf(s: string, p: string): (r: int)
    ensures r == -1 || OccursAt(s, p, r)
    ensures r == -1 <==> forall j :: !OccursAt(s, p, j)
    ensures r != -1 ==> forall j :: j < r ==> !OccursAt(s, p, j)
  {
    IndexOfFrom(s, p, 0)
  }

  /** `s.includes(p)`. */
  predicate Contains(s: string, p: string) {
    IndexOf(s, p) != -1
  }

  /** `s.startsWith(p)`. */
  predicate StartsWith(s: string, p: string) {
    |p| <= |s| && s[..|p|] == p
  }

  // ---------------------------------------------------------------------------
  // Replacing the first occurrence of a string pattern

  /**
   * The replacement text that `String.prototype.replace` inserts for a string pattern
   * (GetSubstitution with no capture groups): `$$`, `$&`, `` $` `` and `$'` are special,
   * every other character is copied.
   */
  function Substitution(t: string, matched: string, before: string, after: string): string
    decreases |t|
  {
    if |t| == 0 then ""
    else if t[0] == '$' && |t| >= 2 && t[1] == '$' then "$" + Substitution(t[2..], matched, before, after)
    else if t[0] == '$' && |t| >= 2 && t[1] == '&' then matched + Substitution(t[2..], matched, before, after)
    else if t[0] == '$' && |t| >= 2 && t[1] == '`' then before + Substitution(t[2..], matched, before, after)
    else if t[0] == '$' && |t| >= 2 && t[1] == '\'' then after + Substitution(t[2..], matched, before, after)
    else [t[0]] + Substitution(t[1..], matched, before, after)
  }

  lemma {:induction false} SubstitutionPlain(t: string, matched: string, before: string, after: string)
    requires '$' !in t
    ensures Substitution(t, matched, before, after) == t
  {
    if |t| > 0 {
      SubstitutionPlain(t[1..], matched, before, after);
      assert t == [t[0]] + t[1..];
    }
  }

  /** `s.replace(p, t)` with a string pattern `p`: only the first occurrence is replaced. */
  function ReplaceFirst(s: string, p: string, t: string): (r: string)
    ensures IndexOf(s, p) == -1 ==> r == s
    ensures IndexOf(s, p) != -1 && '$' !in t ==>
      r == s[..IndexOf(s, p)] + t + s[IndexOf(s, p) + |p|..]
  {
    var k := IndexOf(s, p);
    if k == -1 then s
    else
      var r := s[..k] + Substitution(t, p, s[..k], s[k + |p|..]) + s[k + |p|..];
      if '$' !in t then SubstitutionPlain(t, p, s[..k], s[k + |p|..]); r else r
  }

  // ---------------------------------------------------------------------------
  // substring, trim, toLowerCase

  function Clamp(i: int, len: nat): (r: nat)
    ensures r <= len
    ensures 0 <= i <= len ==> r == i
  {
    if i < 0 then 0 else if i > len then len else i
  }

  /** `s.substring(a, b)`: both ends clamped into `0..|s|`, swapped when `a > b`. */
  function Substring(s: string, a: int, b: int): (r: string)
    ensures 0 <= a <= b <= |s| ==> r == s[a..b]
    ensures |r| <= |s|
  {
    var i, j := Clamp(a, |s|), Clamp(b, |s|);
    if i <= j then s[i..j] else s[j..i]
  }

  /** `s.substring(a)`. */
  function SubstringFrom(s: string, a: int): (r: string)
    ensures 0 <= a <= |s| ==> r == s[a..]
    ensures a >= |s| ==> r == ""
  {
    s[Clamp(a, |s|)..]
  }

  /** The WhiteSpace and LineTerminator code points of ECMAScript, which `trim` and `\s` use. */
  predicate IsWhiteSpace(c: char) {
    c == '\t' || c == '\n' || c == '\U{000B}' || c == '\U{000C}' || c == '\r' || c == ' '
    || c == '\U{00A0}' || c == '\U{1680}' || ('\U{2000}' <= c <= '\U{200A}')
    || c == '\U{2028}' || c == '\U{2029}' || c == '\U{202F}' || c == '\U{205F}'
    || c == '\U{3000}' || c == '\U{FEFF}'
  }

  function TrimStart(s: string): (r: string)
    ensures |r| <= |s| && r == s[|s| - |r|..]
    ensures |r| > 0 ==> !IsWhiteSpace(r[0])
    ensures forall i :: 0 <= i < |s| - |r| ==> IsWhiteSpace(s[i])
  {
    if |s| > 0 && IsWhiteSpace(s[0]) then TrimStart(s[1..]) else s
  }

  function TrimEnd(s: string): (r: string)
    ensures |r| <= |s| && r == s[..|r|]
    ensures |r| > 0 ==> !IsWhiteSpace(r[|r| - 1])
    ensures forall i :: |r| <= i < |s| ==> IsWhiteSpace(s[i])
  {
    if |s| > 0 && IsWhiteSpace(s[|s| - 1]) then TrimEnd(s[..|s| - 1]) else s
  }

  /** `s.trim()`. */
  function Trim(s: string): (r: string) {
    TrimEnd(TrimStart(s))
  }

  lemma {:induction false} TrimEmptyIffBlank(s: string)
    ensures |Trim(s)| == 0 <==> forall i :: 0 <= i < |s| ==> IsWhiteSpace(s[i])
  {
    var t := TrimStart(s);
    if |Trim(s)| != 0 {
      var k := |s| - |t|;
      assert !IsWhiteSpace(t[0]) && s[k] == t[0];
    }
  }

  function LowerChar(c: char): char {
    if 'A' <= c <= 'Z' then (c as int + 32) as char else c
  }

  /** `s.toLowerCase()` on the ASCII letters. */
  function ToLower(s: string): (r: string)
    ensures |r| == |s|
    ensures forall i :: 0 <= i < |s| ==> r[i] == LowerChar(s[i])
  {
    seq(|s|, i requires 0 <= i < |s| => LowerChar(s[i]))
  }

  function UpperChar(c: char): char {
    if 'a' <= c <= 'z' then (c as int - 32) as char else c
  }

  /** `s.toUpperCase()` on the ASCII letters. */
  function ToUpper(s: string): (r: string)
    ensures |r| == |s|
    ensures forall i :: 0 <= i < |s| ==> r[i] == UpperChar(s[i])
  {
    seq(|s|, i requires 0 <= i < |s| => UpperChar(s[i]))
  }

  // ---------------------------------------------------------------------------
  // Decimal and hexadecimal numerals

  predicate IsDigit(c: char) { '0' <= c <= '9' }

  function DigitChar(d: nat): (c: char)
    requires d < 10
    ensures IsDigit(c)
  {
    ('0' as int + d) as char
  }

  function DigitValue(c: char): nat
    requires IsDigit(c)
  {
    c as int - '0' as int
  }

  /** The value of a string of decimal digits. */
  function DigitsValue(s: string): nat
    requires forall i :: 0 <= i < |s| ==> IsDigit(s[i])
  {
    if |s| == 0 then 0 else DigitsValue(s[..|s| - 1]) * 10 + DigitValue(s[|s| - 1])
  }

  /** `String(n)` for a natural number: its decimal numeral without leading zeros. */
  function NatText(n: nat): (r: string)
    ensures |r| > 0
    ensures forall i :: 0 <= i < |r| ==> IsDigit(r[i])
    decreases n
  {
    if n < 10 then [DigitChar(n)] else NatText(n / 10) + [DigitChar(n % 10)]
  }

  lemma {:induction false} NatTextValue(n: nat)
    ensures DigitsValue(NatText(n)) == n
    decreases n
  {
    if n >= 10 {
      NatTextValue(n / 10);
      var s := NatText(n);
      assert s[..|s| - 1] == NatText(n / 10);
    }
  }

  /** `String(n)` for an integer. */
  function IntText(n: int): string {
    if n < 0 then "-" + NatText(-n) else NatText(n)
  }

  /** The first `k` decimal digits of a fraction in `[0, 1)`, stopping early once it is exhausted. */
  function FractionDigits(f: real, k: nat): (r: string)
    requires 0.0 <= f < 1.0
    ensures |r| <= k && forall i :: 0 <= i < |r| ==> IsDigit(r[i])
    decreases k
  {
    if k == 0 || f == 0.0 then ""
    else
      var d := (f * 10.0).Floor;
      [DigitChar(d)] + FractionDigits(f * 10.0 - d as real, k - 1)
  }

  /**
   * `String(v)` for a number, in the layouts of `Number::toString`: a sign, then plain decimal
   * notation from 1e-6 up to 1e21 and exponent notation outside that range. Integral values are
   * written as their numeral, other values with at most twenty fractional digits.
   */
  function NumberText(v: real): string {
    if v < 0.0 then "-" + MagnitudeText(-v) else MagnitudeText(v)
  }

  /** 1e21, from which on `String` writes a number in exponent notation. */
  const ExponentFrom: real := 1000000000000000000000.0

  /** 1e-6, below which `String` writes a non-zero number in exponent notation. */
  const ExponentBelow: real := 0.000001

  /** `String(m)` for a non-negative number. */
  function MagnitudeText(m: real): string
    requires m >= 0.0
  {
    if m >= ExponentFrom then LargeText(m)
    else if 0.0 < m < ExponentBelow then SmallText(m)
    else if m == m.Floor as real then NatText(m.Floor)
    else NatText(m.Floor) + "." + FractionDigits(m - m.Floor as real, 20)
  }

  /** A run of significant digits as `Number::toString` lays it out before the exponent: `d` or `d.ddd`. */
  function Significand(digits: string): string
    requires |digits| > 0
  {
    if |digits| == 1 then digits else [digits[0]] + "." + digits[1..]
  }

  /** `digits` without its trailing zeros. */
  function WithoutTrailingZeros(digits: string): (r: string)
    ensures |r| <= |digits| && r == digits[..|r|]
    ensures |r| > 0 ==> r[|r| - 1] != '0'
    ensures forall i :: |r| <= i < |digits| ==> digits[i] == '0'
  {
    if |digits| == 0 || digits[|digits| - 1] != '0' then digits
    else WithoutTrailingZeros(digits[..|digits| - 1])
  }

  /** `String(m)` for `m >= 1e21`: the significant digits of its integral part and a positive exponent. */
  function LargeText(m: real): string
    requires m >= ExponentFrom
  {
    var digits := NatText(m.Floor);
    LeadingDigitNotZero(m.Floor);
    Significand(WithoutTrailingZeros(digits)) + "e+" + NatText(|digits| - 1)
  }

  /** `String(m)` for `0 < m < 1e-6`: the significant digits of `m` and a negative exponent. */
  function SmallText(m: real): string
    requires 0.0 < m < ExponentBelow
  {
    var s := Scaled(m);
    Significand([DigitChar(s.Floor)] + FractionDigits(s - s.Floor as real, 20)) + "e-" + NatText(Lead(m))
  }

  /** How often a positive number below 10 is multiplied by ten before it reaches 1. */
  function Lead(m: real): nat
    requires 0.0 < m < 10.0
    decreases if m < 1.0 then (1.0 / m).Floor else 0
  {
    if m >= 1.0 then 0
    else
      LeadDecreases(m);
      1 + Lead(m * 10.0)
  }

  /** A positive number below 10 with its point moved `Lead(m)` places right: its significand, in `[1, 10)`. */
  function Scaled(m: real): (r: real)
    requires 0.0 < m < 10.0
    ensures 1.0 <= r < 10.0
    decreases if m < 1.0 then (1.0 / m).Floor else 0
  {
    if m >= 1.0 then m
    else
      LeadDecreases(m);
      Scaled(m * 10.0)
  }

  lemma {:induction false} LeadDecreases(m: real)
    requires 0.0 < m < 1.0
    ensures 0 <= (1.0 / (m * 10.0)).Floor < (1.0 / m).Floor
  {
    var x := 1.0 / m;
    assert x * m == 1.0;
    assert x > 1.0;
    assert 1.0 / (m * 10.0) == x / 10.0;
  }

  /** `s` with its point moved `e` places left. */
  function Shifted(s: real, e: nat): real {
    if e == 0 then s else Shifted(s, e - 1) / 10.0
  }

  /** A significand in `[1, 10)` moved `e` places left has exponent `e` and gives the significand back. */
  lemma {:induction false} LeadOfShifted(s: real, e: nat)
    requires 1.0 <= s < 10.0
    ensures 0.0 < Shifted(s, e) < 10.0
    ensures Lead(Shifted(s, e)) == e && Scaled(Shifted(s, e)) == s
    ensures e > 0 ==> Shifted(s, e) < 1.0
    decreases e
  {
    if e > 0 {
      LeadOfShifted(s, e - 1);
      var m := Shifted(s, e);
      assert m * 10.0 == Shifted(s, e - 1);
      LeadDecreases(m);
    }
  }

  /** Moving the point further left makes a positive number smaller. */
  lemma {:induction false} ShiftedShrinks(s: real, e: nat, f: nat)
    requires s > 0.0 && e <= f
    ensures 0.0 < Shifted(s, f) <= Shifted(s, e)
    decreases f, f - e
  {
    if f > e {
      ShiftedShrinks(s, e, f - 1);
    } else if e > 0 {
      ShiftedShrinks(s, e - 1, e - 1);
    }
  }

  /** Ten to the power `e`, as an integer. */
  function IntPow10(e: nat): (r: nat)
    ensures r >= 1
  {
    if e == 0 then 1 else 10 * IntPow10(e - 1)
  }

  /** `e` zeros. */
  function Zeros(e: nat): (r: string)
    ensures |r| == e && forall i :: 0 <= i < e ==> r[i] == '0'
  {
    if e == 0 then "" else Zeros(e - 1) + "0"
  }

  /** Multiplying a positive number by ten appends a zero to its numeral. */
  lemma {:induction false} NatTextTimesTen(p: nat)
    requires p > 0
    ensures NatText(p * 10) == NatText(p) + "0"
  {
    assert (p * 10) / 10 == p && (p * 10) % 10 == 0;
  }

  lemma {:induction false} TimesNextPow10(n: nat, e: nat)
    requires e > 0
    ensures n * IntPow10(e) == (n * IntPow10(e - 1)) * 10
  {
    var q := IntPow10(e - 1);
    assert IntPow10(e) == 10 * q;
    assert n * (10 * q) == (n * q) * 10;
  }

  /** Multiplying a positive number by `10^e` appends `e` zeros to its numeral. */
  lemma {:induction false} NatTextShift(n: nat, e: nat)
    requires n > 0
    ensures NatText(n * IntPow10(e)) == NatText(n) + Zeros(e)
    decreases e
  {
    if e > 0 {
      NatTextShift(n, e - 1);
      var p := n * IntPow10(e - 1);
      TimesNextPow10(n, e);
      NatTextTimesTen(p);
      assert NatText(n) + Zeros(e) == (NatText(n) + Zeros(e - 1)) + "0";
    }
  }

  lemma {:induction false} IntPow10Grows(e: nat, f: nat)
    requires e <= f
    ensures IntPow10(e) <= IntPow10(f)
    decreases f
  {
    if f > e {
      IntPow10Grows(e, f - 1);
    }
  }

  /** `10^21` is where exponent notation starts. */
  lemma {:induction false} IntPow10TwentyOne()
    ensures IntPow10(21) as real == ExponentFrom
  {
    assert IntPow10(3) == 1000;
    assert IntPow10(6) == 1000 * IntPow10(3);
    assert IntPow10(9) == 1000 * IntPow10(6);
    assert IntPow10(12) == 1000 * IntPow10(9);
    assert IntPow10(15) == 1000 * IntPow10(12);
    assert IntPow10(18) == 1000 * IntPow10(15);
    assert IntPow10(21) == 1000 * IntPow10(18);
  }

  /** A digit followed by zeros only keeps just that digit when its trailing zeros go. */
  lemma {:induction false} DigitThenZeros(c: char, e: nat)
    requires c != '0'
    ensures WithoutTrailingZeros([c] + Zeros(e)) == [c]
  {
    var digits := [c] + Zeros(e);
    var r := WithoutTrailingZeros(digits);
    assert digits[0] != '0';
    assert forall i :: 1 <= i < |digits| ==> digits[i] == '0';
    assert |r| >= 1;
    assert |r| <= 1;
  }

  /** A number whose numeral is one digit and `e` zeros keeps that digit and the exponent `e`. */
  lemma {:induction false} LargeTextOfDigit(n: nat, c: char, e: nat)
    requires n as real >= ExponentFrom && c != '0' && NatText(n) == [c] + Zeros(e)
    ensures LargeText(n as real) == [c] + "e+" + NatText(e)
  {
    var m := n as real;
    assert m.Floor == n;
    DigitThenZeros(c, e);
  }

  /**
   * A digit followed by at least twenty-one zeros is written as that digit with a positive exponent:
   * `String(1e21)` is `"1e+21"`.
   */
  lemma {:induction false} LargeNumberText(d: nat, e: nat)
    requires 1 <= d <= 9 && e >= 21
    ensures NumberText((d * IntPow10(e)) as real) == [DigitChar(d)] + "e+" + NatText(e)
  {
    var n := d * IntPow10(e);
    IntPow10Grows(21, e);
    IntPow10TwentyOne();
    assert n >= IntPow10(e);
    NatTextShift(d, e);
    assert NatText(d) == [DigitChar(d)];
    LargeTextOfDigit(n, DigitChar(d), e);
  }

  /** Seven or more places left of a significand below 10 is below 1e-6. */
  lemma {:induction false} ShiftedBelow(s: real, e: nat)
    requires 1.0 <= s < 10.0 && e >= 7
    ensures 0.0 < Shifted(s, e) < ExponentBelow
  {
    ShiftedShrinks(s, 7, e);
    assert Shifted(s, 1) == s / 10.0;
    assert Shifted(s, 2) == s / 100.0;
    assert Shifted(s, 3) == s / 1000.0;
    assert Shifted(s, 4) == s / 10000.0;
    assert Shifted(s, 5) == s / 100000.0;
    assert Shifted(s, 6) == s / 1000000.0;
    assert Shifted(s, 7) == s / 10000000.0;
  }

  /**
   * A significand `s` in `[1, 10)` moved seven or more places left is written with its digits and a
   * negative exponent: `String(5e-7)` is `"5e-7"`, where plain notation would give `0.0000005`.
   */
  lemma {:induction false} SmallNumberText(s: real, e: nat)
    requires 1.0 <= s < 10.0 && e >= 7
    ensures NumberText(Shifted(s, e)) ==
      Significand([DigitChar(s.Floor)] + FractionDigits(s - s.Floor as real, 20)) + "e-" + NatText(e)
  {
    ShiftedBelow(s, e);
    LeadOfShifted(s, e);
    var m := Shifted(s, e);
    assert NumberText(m) == MagnitudeText(m) == SmallText(m);
    SmallTextOf(m, s, e);
  }

  lemma {:induction false} SmallTextOf(m: real, s: real, e: nat)
    requires 0.0 < m < ExponentBelow && Scaled(m) == s && Lead(m) == e
    ensures SmallText(m) ==
      Significand([DigitChar(s.Floor)] + FractionDigits(s - s.Floor as real, 20)) + "e-" + NatText(e)
  {
  }

  /** `String` uses exponent notation exactly for magnitudes of at least 1e21 and non-zero ones below 1e-6. */
  lemma {:induction false} ExponentNotation(v: real)
    ensures 'e' in NumberText(v) <==>
      v >= ExponentFrom || v <= -ExponentFrom || (v != 0.0 && -ExponentBelow < v < ExponentBelow)
  {
    var m := if v < 0.0 then -v else v;
    if m >= ExponentFrom {
      assert 'e' in MagnitudeText(m) by { LargeHasExponent(m); }
    } else if 0.0 < m < ExponentBelow {
      assert 'e' in MagnitudeText(m) by { SmallHasExponent(m); }
    } else {
      PlainHasNoExponent(m);
    }
  }

  lemma {:induction false} LargeHasExponent(m: real)
    requires m >= ExponentFrom
    ensures 'e' in LargeText(m)
  {
    var digits := NatText(m.Floor);
    LeadingDigitNotZero(m.Floor);
    var sig := Significand(WithoutTrailingZeros(digits));
    assert LargeText(m)[|sig|] == 'e';
  }

  lemma {:induction false} SmallHasExponent(m: real)
    requires 0.0 < m < ExponentBelow
    ensures 'e' in SmallText(m)
  {
    var s := Scaled(m);
    var sig := Significand([DigitChar(s.Floor)] + FractionDigits(s - s.Floor as real, 20));
    assert SmallText(m)[|sig|] == 'e';
  }

  lemma {:induction false} PlainHasNoExponent(m: real)
    requires 0.0 <= m < ExponentFrom && !(0.0 < m < ExponentBelow)
    ensures 'e' !in MagnitudeText(m) && 'e' !in "-" + MagnitudeText(m)
  {
    var a := NatText(m.Floor);
    DigitsHaveNoE(a);
    if m != m.Floor as real {
      var f := FractionDigits(m - m.Floor as real, 20);
      DigitsHaveNoE(f);
      assert MagnitudeText(m) == a + "." + f;
    }
  }

  lemma {:induction false} DigitsHaveNoE(digits: string)
    requires forall i :: 0 <= i < |digits| ==> IsDigit(digits[i])
    ensures 'e' !in digits
  {
  }

  /** The numeral of a positive number does not start with `0`. */
  lemma {:induction false} LeadingDigitNotZero(n: nat)
    requires n > 0
    ensures NatText(n)[0] != '0'
    decreases n
  {
    if n >= 10 {
      LeadingDigitNotZero(n / 10);
    }
  }

  lemma {:induction false} IntegralNumberText(n: int)
    requires -1000000000000000000000 < n < 1000000000000000000000
    ensures NumberText(n as real) == IntText(n)
  {
    if n < 0 {
      assert (-(n as real)).Floor == -n;
    } else {
      assert (n as real).Floor == n;
    }
  }

  predicate IsHexDigit(c: char) {
    IsDigit(c) || 'a' <= c <= 'f' || 'A' <= c <= 'F'
  }

  function HexDigitValue(c: char): (v: nat)
    requires IsHexDigit(c)
    ensures v < 16
  {
    if IsDigit(c) then DigitValue(c)
    else if 'a' <= c <= 'f' then c as int - 'a' as int + 10
    else c as int - 'A' as int + 10
  }

  /** The upper-case hexadecimal digit for `d`, as `toString(16).toUpperCase()` writes it. */
  function HexDigitChar(d: nat): (c: char)
    requires d < 16
    ensures IsHexDigit(c) && HexDigitValue(c) == d
    ensures IsDigit(c) || 'A' <= c <= 'F'
  {
    if d < 10 then DigitChar(d) else ('A' as int + d - 10) as char
  }

  /** `n.toString(16).toUpperCase()`. */
  function HexText(n: nat): (r: string)
    ensures |r| > 0
    ensures forall i :: 0 <= i < |r| ==> IsHexDigit(r[i]) && (IsDigit(r[i]) || 'A' <= r[i] <= 'F')
    ensures n < 16 ==> |r| == 1
    ensures 16 <= n < 256 ==> |r| == 2
    decreases n
  {
    if n < 16 then [HexDigitChar(n)] else HexText(n / 16) + [HexDigitChar(n % 16)]
  }

  /** `s.padStart(2, '0')`. */
  function PadStart2(s: string): (r: string)
    ensures |s| >= 2 ==> r == s
    ensures |s| < 2 ==> |r| == 2 && r[2 - |s|..] == s
  {
    if |s| == 0 then "00" else if |s| == 1 then "0" + s else s
  }

  // ---------------------------------------------------------------------------
  // parseInt with radix 10

  /** The longest prefix of `s` made of decimal digits. */
  function DigitPrefix(s: string): (r: string)
    ensures |r| <= |s| && r == s[..|r|]
    ensures forall i :: 0 <= i < |r| ==> IsDigit(r[i])
    ensures |r| < |s| ==> !IsDigit(s[|r|])
  {
    if |s| > 0 && IsDigit(s[0]) then [s[0]] + DigitPrefix(s[1..]) else ""
  }

  /**
   * `parseInt(s, 10)`: leading white space skipped, an optional sign, then the longest run of
   * digits; `None` stands for `NaN` (no digit after the sign).
   */
  function ParseInt(s: string): (r: Option<int>)
    ensures r.None? <==> |DigitPrefix(SignStripped(TrimStart(s)))| == 0
  {
    var t := TrimStart(s);
    var u := SignStripped(t);
    var digits := DigitPrefix(u);
    if |digits| == 0 then None
    else if |t| > 0 && t[0] == '-' then Some(0 - DigitsValue(digits))
    else Some(DigitsValue(digits))
  }

  function SignStripped(t: string): string {
    if |t| > 0 && (t[0] == '-' || t[0] == '+') then t[1..] else t
  }

  lemma {:induction false} DigitPrefixOfDigits(s: string, rest: string)
    requires forall i :: 0 <= i < |s| ==> IsDigit(s[i])
    requires |rest| == 0 || !IsDigit(rest[0])
    ensures DigitPrefix(s + rest) == s
  {
    if |s| > 0 {
      assert (s + rest)[1..] == s[1..] + rest;
      DigitPrefixOfDigits(s[1..], rest);
      assert s == [s[0]] + s[1..];
    } else {
      assert s + rest == rest;
    }
  }

  /** A text that starts with a digit has no white space or sign to skip. */
  lemma {:induction false} LeadingDigit(s: string)
    requires |s| > 0 && IsDigit(s[0])
    ensures TrimStart(s) == s && SignStripped(s) == s
  {
    DigitNotWhiteSpace(s[0]);
  }

  lemma {:induction false} DigitNotWhiteSpace(c: char)
    requires IsDigit(c)
    ensures !IsWhiteSpace(c) && c != '-' && c != '+'
  {
  }

  lemma {:induction false} NatTextParses(n: nat)
    ensures ParseInt(NatText(n)) == Some(n)
  {
    var s := NatText(n);
    LeadingDigit(s);
    DigitPrefixOfDigits(s, "");
    assert s + "" == s;
    NatTextValue(n);
  }
}
