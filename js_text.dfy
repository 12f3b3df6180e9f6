/**
 * The string and number conversions of JavaScript that the application relies on:
 * `parseInt`, `parseFloat`, `String(n)` for integers, `padStart`, `toLowerCase`,
 * `toUpperCase`, `startsWith` and `includes`.
 */
module JsText {
  import opened Js

  /** The characters `parseInt` and `parseFloat` skip at the start (WhiteSpace and LineTerminator). */
  predicate IsWhiteSpace(c: char)
  {
    c == '\t' || c == '\n' || c == '\U{000B}' || c == '\U{000C}' || c == '\r' || c == ' '
    || c == '\U{00A0}' || c == '\U{1680}' || ('\U{2000}' <= c <= '\U{200A}')
    || c == '\U{2028}' || c == '\U{2029}' || c == '\U{202F}' || c == '\U{205F}'
    || c == '\U{3000}' || c == '\U{FEFF}'
  }

  predicate IsDigit(c: char)
  {
    '0' <= c <= '9'
  }

  predicate AllDigits(s: string)
  {
    forall i :: 0 <= i < |s| ==> IsDigit(s[i])
  }

  function DigitValue(c: char): nat
    requires IsDigit(c)
  {
    c as int - '0' as int
  }

  function DigitChar(d: nat): (c: char)
    requires d < 10
    ensures IsDigit(c) && DigitValue(c) == d
  {
    ('0' as int + d) as char
  }

  /** Drops the leading white space. */
  function TrimStart(s: string): (r: string)
    ensures |r| <= |s| && r == s[|s| - |r|..]
    ensures r != [] ==> !IsWhiteSpace(r[0])
  {
    if s != [] && IsWhiteSpace(s[0]) then TrimStart(s[1..]) else s
  }

  /** The longest prefix of `s` made of decimal digits. */
  function LeadingDigits(s: string): (r: string)
    ensures r <= s && AllDigits(r)
    ensures |r| < |s| ==> !IsDigit(s[|r|])
  {
    if s != [] && IsDigit(s[0]) then [s[0]] + LeadingDigits(s[1..]) else []
  }

  /** The number a string of decimal digits denotes (most significant digit first). */
  function DigitsValue(d: string): nat
    requires AllDigits(d)
  {
    if d == [] then 0 else DigitsValue(d[..|d| - 1]) * 10 + DigitValue(d[|d| - 1])
  }

  /** What follows an optional sign character. */
  function Unsigned(t: string): string
  {
    if t != [] && (t[0] == '-' || t[0] == '+') then t[1..] else t
  }

  predicate Negative(t: string)
  {
    t != [] && t[0] == '-'
  }

  /**
   * `parseInt(s, 10)`: skip white space, take an optional sign and the longest run of
   * decimal digits after it; `None` stands for NaN (no digit at all).
   */
  function ParseIntText(s: string): Option<int>
  {
    var t := TrimStart(s);
    var d := LeadingDigits(Unsigned(t));
    if d == [] then None
    else
      var v: int := DigitsValue(d);
      Some(if Negative(t) then -v else v)
  }

  /**
   * `parseFloat(s)` for decimal notation: skip white space, an optional sign, digits,
   * and an optional fraction `.digits`; `None` stands for NaN.
   */
  function ParseFloatText(s: string): Option<real>
  {
    var t := TrimStart(s);
    match UnsignedDecimal(Unsigned(t))
    case None => None
    case Some(x) => Some(if Negative(t) then -x else x)
  }

  /** The value of the longest prefix `digits`, `digits.digits` or `.digits` of `u`, if any. */
  function UnsignedDecimal(u: string): Option<real>
  {
    var whole := LeadingDigits(u);
    var frac := FractionDigits(u[|whole|..]);
    if whole == [] && frac == [] then None else Some(DecimalValue(whole, frac))
  }

  /** The digits of a fraction `.digits` at the start of `after`, if there is one. */
  function FractionDigits(after: string): (r: string)
    ensures AllDigits(r)
  {
    if after != [] && after[0] == '.' then LeadingDigits(after[1..]) else []
  }

  /** The value of `whole.frac`. */
  function DecimalValue(whole: string, frac: string): real
    requires AllDigits(whole) && AllDigits(frac)
  {
    DigitsValue(whole) as real + FractionValue(frac)
  }

  /** The value of the digits `frac` after a decimal point. */
  function FractionValue(frac: string): real
    requires AllDigits(frac)
  {
    if frac == [] then 0.0 else (DigitValue(frac[0]) as real + FractionValue(frac[1..])) / 10.0
  }

  /** Truncation toward zero, the integer part `parseInt(String(x))` keeps. */
  function TruncateToZero(x: real): int
  {
    if x >= 0.0 then x.Floor else -((-x).Floor)
  }

  /** `Number.isInteger(x)` for a finite number. */
  predicate IsInteger(x: real)
  {
    x == x.Floor as real
  }

  /** `parseInt(v)`: the argument is converted with `String(v)` first. */
  function ParseIntValue(v: Value): Value
  {
    match v
    case Str(s) => (match ParseIntText(s) case Some(n) => Num(n as real) case None => NaN)
    case Num(x) => Num(TruncateToZero(x) as real)
    case _ => NaN
  }

  /** `parseFloat(v)`: a number is returned as it is, other values go through `String(v)`. */
  function ParseFloatValue(v: Value): Value
  {
    match v
    case Str(s) => (match ParseFloatText(s) case Some(x) => Num(x) case None => NaN)
    case Num(x) => Num(x)
    case _ => NaN
  }

  /** `String(n)` for a non-negative integer: its decimal digits without leading zeros. */
  function NatToString(n: nat): (r: string)
    ensures |r| >= 1 && AllDigits(r)
    ensures DigitsValue(r) == n
    ensures n > 0 ==> r[0] != '0'
  {
    if n < 10 then [DigitChar(n)]
    else
      var r := NatToString(n / 10) + [DigitChar(n % 10)];
      assert r[..|r| - 1] == NatToString(n / 10);
      r
  }

  /** `String(n)` for an integer. */
  function IntToString(n: int): string
  {
    if n < 0 then "-" + NatToString(-n) else NatToString(n)
  }

  function Repeat(c: char, n: nat): (r: string)
    ensures |r| == n && forall i :: 0 <= i < n ==> r[i] == c
  {
    seq(n, _ => c)
  }

  /** `s.padStart(width, fill)`: fill on the left up to `width`; a longer `s` is kept whole. */
  function PadStart(s: string, width: nat, fill: char): (r: string)
    ensures |r| == if |s| >= width then |s| else width
    ensures r[|r| - |s|..] == s
    ensures forall i :: 0 <= i < |r| - |s| ==> r[i] == fill
  {
    if |s| >= width then s else Repeat(fill, width - |s|) + s
  }

  function LowerChar(c: char): char
  {
    if 'A' <= c <= 'Z' then (c as int + 32) as char else c
  }

  function UpperChar(c: char): char
  {
    if 'a' <= c <= 'z' then (c as int - 32) as char else c
  }

  /** `s.toLowerCase()` on the letters A to Z. */
  function ToLower(s: string): (r: string)
    ensures |r| == |s|
  {
    seq(|s|, i requires 0 <= i < |s| => LowerChar(s[i]))
  }

  /** `s.toUpperCase()` on the letters a to z. */
  function ToUpper(s: string): (r: string)
    ensures |r| == |s|
  {
    seq(|s|, i requires 0 <= i < |s| => UpperChar(s[i]))
  }

  /** `s.startsWith(p)`. */
  predicate StartsWith(s: string, p: string)
  {
    p <= s
  }

  /** `s.includes(t)`: `t` occurs in `s` as a contiguous substring. */
  predicate Includes(s: string, t: string)
  {
    t <= s || (s != [] && Includes(s[1..], t))
  }

  /** `s.substring(0, n)`. */
  function Take(s: string, n: nat): (r: string)
    ensures |r| == if |s| < n then |s| else n
    ensures r <= s
  {
    if |s| < n then s else s[..n]
  }

  // ---------------------------------------------------------------------------
  // Facts about the conversions.

  lemma {:induction false} LeadingDigitsOfDigits(s: string)
    requires AllDigits(s)
    ensures LeadingDigits(s) == s
  {
    if s != [] {
      LeadingDigitsOfDigits(s[1..]);
      assert [s[0]] + s[1..] == s;
    }
  }

  lemma {:induction false} DigitsValueOfZeros(z: string)
    requires forall i :: 0 <= i < |z| ==> z[i] == '0'
    ensures AllDigits(z) && DigitsValue(z) == 0
  {
    if z != [] {
      DigitsValueOfZeros(z[..|z| - 1]);
    }
  }

  /** Leading zeros do not change the value of a digit string. */
  lemma {:induction false} DigitsValueIgnoresLeadingZeros(z: string, d: string)
    requires forall i :: 0 <= i < |z| ==> z[i] == '0'
    requires AllDigits(d)
    ensures AllDigits(z + d) && DigitsValue(z + d) == DigitsValue(d)
    decreases |d|
  {
    if d == [] {
      assert z + d == z;
      DigitsValueOfZeros(z);
    } else {
      var d' := d[..|d| - 1];
      DigitsValueIgnoresLeadingZeros(z, d');
      assert (z + d)[..|z + d| - 1] == z + d';
    }
  }

  /** `parseInt` reads a non-empty string of digits as the number it denotes. */
  lemma ParseIntOfDigits(p: string)
    requires p != [] && AllDigits(p)
    ensures ParseIntText(p) == Some(DigitsValue(p))
  {
    assert IsDigit(p[0]);
    assert !IsWhiteSpace(p[0]);
    assert TrimStart(p) == p;
    assert Unsigned(p) == p;
    LeadingDigitsOfDigits(p);
  }

  /** `parseInt` reads back `String(n).padStart(width, '0')` as `n`, whatever the width. */
  lemma ParseIntOfPaddedNat(n: nat, width: nat)
    ensures ParseIntText(PadStart(NatToString(n), width, '0')) == Some(n)
  {
    var s := NatToString(n);
    var p := PadStart(s, width, '0');
    var z := p[..|p| - |s|];
    assert p == z + s;
    DigitsValueIgnoresLeadingZeros(z, s);
    ParseIntOfDigits(p);
  }

  /** The same for `String(k)` of an integer that is not negative. */
  lemma ParseIntOfPaddedInt(k: int, width: nat)
    requires k >= 0
    ensures ParseIntText(PadStart(IntToString(k), width, '0')) == Some(k)
  {
    ParseIntOfPaddedNat(k, width);
  }

  /** `parseInt` reads a minus sign followed by digits as the negated number. */
  lemma ParseIntOfNegativeDigits(d: string)
    requires d != [] && AllDigits(d)
    ensures ParseIntText("-" + d) == Some(-(DigitsValue(d) as int))
  {
    var t := "-" + d;
    assert t[0] == '-' && t[1..] == d;
    assert TrimStart(t) == t;
    LeadingDigitsOfDigits(d);
  }

  /** A string that starts with '0' reads as a number that is not negative. */
  lemma ParseIntOfLeadingZero(p: string)
    requires p != [] && p[0] == '0'
    ensures ParseIntText(p).Some? && ParseIntText(p).value >= 0
  {
    assert TrimStart(p) == p;
    assert Unsigned(p) == p;
    assert LeadingDigits(p) != [];
  }

  /** Truncation keeps exactly the whole numbers. */
  lemma TruncateKeeps(x: real)
    ensures TruncateToZero(x) as real == x <==> IsInteger(x)
  {
    if IsInteger(x) {
      if x < 0.0 {
        assert (-x).Floor == -(x.Floor);
      }
    } else if x < 0.0 {
      assert (-x).Floor as real <= -x;
    }
  }

  /** `parseInt('0')` and `parseFloat('0')` are 0. */
  lemma ParseZero()
    ensures ParseIntText("0") == Some(0)
    ensures ParseFloatText("0") == Some(0.0)
  {
    assert DigitsValue("0") == 0;
    ParseIntOfDigits("0");
    ParseFloatOfZero();
  }

  lemma ParseFloatOfZero()
    ensures ParseFloatText("0") == Some(0.0)
  {
    var z := "0";
    assert z[0] == '0';
    assert TrimStart(z) == z by { assert !IsWhiteSpace(z[0]); }
    assert Unsigned(z) == z && !Negative(z);
    assert LeadingDigits(z) == z by { assert LeadingDigits(z[1..]) == []; }
    assert FractionDigits(z[|z|..]) == [];
    assert DigitsValue(z) == 0 by { assert z[..0] == []; }
    assert UnsignedDecimal(z) == Some(0.0);
  }

  /** `parseFloat` reads a non-empty string of digits as the number it denotes. */
  lemma ParseFloatOfDigits(p: string)
    requires p != [] && AllDigits(p)
    ensures ParseFloatText(p) == Some(DigitsValue(p) as real)
  {
    assert TrimStart(p) == p by { assert IsDigit(p[0]) && !IsWhiteSpace(p[0]); }
    assert Unsigned(p) == p && !Negative(p) by { assert IsDigit(p[0]); }
    UnsignedDecimalOfDigits(p);
  }

  lemma UnsignedDecimalOfDigits(p: string)
    requires p != [] && AllDigits(p)
    ensures UnsignedDecimal(p) == Some(DigitsValue(p) as real)
  {
    LeadingDigitsOfDigits(p);
    assert FractionDigits(p[|p|..]) == [];
    assert DecimalValue(p, []) == DigitsValue(p) as real;
  }

  /**
   * `parseInt` of `String(k).padStart(width, '0')` never reads back a number below `k`;
   * for a negative `k` shorter than the width it reads the leading zero as 0.
   */
  lemma ParseIntOfPaddedIntAtLeast(k: int, width: nat)
    ensures ParseIntText(PadStart(IntToString(k), width, '0')).Some?
    ensures ParseIntText(PadStart(IntToString(k), width, '0')).value >= k
  {
    if k >= 0 {
      ParseIntOfPaddedNat(k, width);
    } else {
      var s := IntToString(k);
      if |s| >= width {
        ParseIntOfNegativeDigits(NatToString(-k));
      } else {
        ParseIntOfLeadingZero(PadStart(s, width, '0'));
      }
    }
  }
}
