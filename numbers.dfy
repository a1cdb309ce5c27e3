/**
 * JavaScript's conversions between strings and numbers as the components use them:
 * `parseInt`, `parseFloat`, `Number(...)`, `n.toString()` and `Math.round`.
 * A conversion that JavaScript answers with NaN returns `None` here.
 */
module Numbers {
  import opened Wrappers
  import opened Strings

  predicate AllDigits(s: string) {
    forall i :: 0 <= i < |s| ==> IsDigit(s[i])
  }

  function DigitValue(c: char): nat
    requires IsDigit(c)
  {
    c as int - '0' as int
  }

  /** The value of a string of decimal digits. */
  function DecValue(ds: string): nat
    requires AllDigits(ds)
    decreases |ds|
  {
    if ds == [] then 0 else DecValue(ds[..|ds| - 1]) * 10 + DigitValue(ds[|ds| - 1])
  }

  predicate IsHexDigit(c: char) {
    IsDigit(c) || 'a' <= c <= 'f' || 'A' <= c <= 'F'
  }

  predicate AllHex(s: string) {
    forall i :: 0 <= i < |s| ==> IsHexDigit(s[i])
  }

  function HexDigitValue(c: char): nat
    requires IsHexDigit(c)
  {
    if IsDigit(c) then DigitValue(c)
    else if 'a' <= c <= 'f' then c as int - 'a' as int + 10
    else c as int - 'A' as int + 10
  }

  /** The value of a string of hexadecimal digits. */
  function HexValue(ds: string): nat
    requires AllHex(ds)
    decreases |ds|
  {
    if ds == [] then 0 else HexValue(ds[..|ds| - 1]) * 16 + HexDigitValue(ds[|ds| - 1])
  }

  /** The longest prefix of `s` whose characters all satisfy `p`. */
  function Run(s: string, p: char -> bool): (r: string)
    ensures StartsWith(s, r)
    ensures forall i :: 0 <= i < |r| ==> p(r[i])
    ensures |r| == |s| || !p(s[|r|])
    decreases |s|
  {
    if s != [] && p(s[0]) then [s[0]] + Run(s[1..], p) else []
  }

  lemma {:induction false} RunOfConcat(a: string, b: string, p: char -> bool)
    requires forall i :: 0 <= i < |a| ==> p(a[i])
    requires b == [] || !p(b[0])
    ensures Run(a + b, p) == a
    decreases |a|
  {
    if a != [] {
      assert (a + b)[1..] == a[1..] + b;
      RunOfConcat(a[1..], b, p);
    }
  }

  function DigitChar(d: nat): (c: char)
    requires d < 10
    ensures IsDigit(c) && DigitValue(c) == d
  {
    ('0' as int + d) as char
  }

  /** `n.toString()` for a non-negative integer: its decimal digits, most significant first. */
  function NatToString(n: nat): (r: string)
    ensures |r| >= 1 && AllDigits(r) && DecValue(r) == n
    decreases n
  {
    if n < 10 then [DigitChar(n)]
    else
      var init := NatToString(n / 10);
      var r := init + [DigitChar(n % 10)];
      assert r[..|r| - 1] == init;
      r
  }

  /** `n.toString()` for any integer. */
  function IntToString(n: int): (r: string)
    ensures |r| >= 1
    ensures n < 0 <==> r[0] == '-'
  {
    if n < 0 then "-" + NatToString(-n) else NatToString(n)
  }

  /** Applies a leading '-' to a magnitude that may be NaN. */
  function Signed(negative: bool, magnitude: Option<nat>): Option<int> {
    match magnitude
    case None => None
    case Some(m) => Some(if negative then -(m as int) else m)
  }

  /**
   * The number `parseInt` reads after the sign: a "0x" or "0X" prefix selects hexadecimal,
   * otherwise decimal, and the longest run of digits that follows is read. No digit gives NaN.
   */
  function Magnitude(u: string): Option<nat> {
    if |u| >= 2 && u[0] == '0' && (u[1] == 'x' || u[1] == 'X') then
      var h := Run(u[2..], IsHexDigit);
      if h == [] then None else Some(HexValue(h))
    else
      var d := Run(u, IsDigit);
      if d == [] then None else Some(DecValue(d))
  }

  /** The text after one leading '-' or '+'. */
  function AfterSign(t: string): (u: string)
    ensures |u| <= |t| && u == t[|t| - |u|..]
  {
    if |t| > 0 && (t[0] == '-' || t[0] == '+') then t[1..] else t
  }

  predicate NegativeSign(t: string) {
    |t| > 0 && t[0] == '-'
  }

  /** `parseInt(s)` without a radix: leading whitespace and one sign are skipped before the magnitude. */
  function ParseInt(s: string): Option<int> {
    var t := TrimStart(s);
    Signed(NegativeSign(t), Magnitude(AfterSign(t)))
  }

  /** `parseInt(s) || 0`: NaN becomes 0. */
  function ParseIntOrZero(s: string): int {
    ParseInt(s).GetOr(0)
  }

  lemma MagnitudeNeedsDigit(u: string)
    requires forall i :: 0 <= i < |u| ==> !IsDigit(u[i])
    ensures Magnitude(u).None?
  {
    if u != [] {
      assert !IsDigit(u[0]);
    }
  }

  lemma NoDigitsInSuffix(s: string, u: string)
    requires forall i :: 0 <= i < |s| ==> !IsDigit(s[i])
    requires |u| <= |s| && u == s[|s| - |u|..]
    ensures forall i :: 0 <= i < |u| ==> !IsDigit(u[i])
  {
    assert forall i :: 0 <= i < |u| ==> u[i] == s[|s| - |u| + i];
  }

  /** Text without a digit is NaN to `parseInt`. */
  lemma ParseIntNeedsDigit(s: string)
    requires forall i :: 0 <= i < |s| ==> !IsDigit(s[i])
    ensures ParseInt(s).None?
  {
    var t := TrimStart(s);
    NoDigitsInSuffix(s, t);
    NoDigitsInSuffix(t, AfterSign(t));
    MagnitudeNeedsDigit(AfterSign(t));
  }

  lemma RunOfAllDigits(ds: string)
    requires AllDigits(ds)
    ensures Run(ds, IsDigit) == ds
  {
    AppendEmpty(ds);
    RunOfConcat(ds, [], IsDigit);
  }

  lemma MagnitudeOfDigits(ds: string)
    requires ds != [] && AllDigits(ds)
    ensures Magnitude(ds) == Some(DecValue(ds))
  {
    if |ds| >= 2 {
      assert IsDigit(ds[1]);
    }
    RunOfAllDigits(ds);
  }

  lemma TrimStartOfDigits(ds: string)
    requires ds != [] && AllDigits(ds)
    ensures IsDigit(ds[0]) && TrimStart(ds) == ds
  {
    assert IsDigit(ds[0]);
    TrimStartOfNonWhite(ds);
  }

  lemma NegatedShape(s: string, ds: string)
    requires ds != [] && AllDigits(ds) && s == "-" + ds
    ensures s != [] && s[0] == '-' && s[1..] == ds && TrimStart(s) == s
  {
    assert s[0] == '-';
    TrimStartOfNonWhite(s);
  }

  lemma ParseIntOfUnsignedText(s: string)
    requires s != [] && IsDigit(s[0]) && TrimStart(s) == s
    ensures ParseInt(s) == Signed(false, Magnitude(s))
  {
  }

  lemma ParseIntOfNegatedText(s: string)
    requires s != [] && s[0] == '-' && TrimStart(s) == s
    ensures ParseInt(s) == Signed(true, Magnitude(s[1..]))
  {
  }

  /** A non-empty string of decimal digits is read back as its value. */
  lemma ParseIntOfDigits(ds: string)
    requires ds != [] && AllDigits(ds)
    ensures ParseInt(ds) == Some(DecValue(ds))
  {
    TrimStartOfDigits(ds);
    ParseIntOfUnsignedText(ds);
    MagnitudeOfDigits(ds);
  }

  lemma ParseIntOfNegatedDigits(s: string, ds: string)
    requires ds != [] && AllDigits(ds) && s == "-" + ds
    ensures ParseInt(s) == Some(-(DecValue(ds) as int))
  {
    NegatedShape(s, ds);
    ParseIntOfNegatedText(s);
    MagnitudeOfDigits(ds);
  }

  /** `parseInt` reads back what `toString` writes, for every integer. */
  lemma ParseIntOfIntToString(n: int)
    ensures ParseInt(IntToString(n)) == Some(n)
  {
    if n < 0 {
      ParseIntOfNegatedDigits(IntToString(n), NatToString(-n));
    } else {
      ParseIntOfDigits(NatToString(n));
    }
  }

  /**
   * `Number(s)` restricted to integer literals: surrounding whitespace is ignored, the
   * empty string is 0, a "0x" prefix reads hexadecimal, otherwise an optional sign and
   * decimal digits are required. Anything else is NaN here.
   */
  function NumberOf(s: string): (r: Option<int>)
    ensures Trim(s) == [] ==> r == Some(0)
  {
    var t := Trim(s);
    if t == [] then Some(0)
    else if IsHexLiteral(t) then Some(HexValue(t[2..]))
    else DecimalLiteral(t)
  }

  predicate IsHexLiteral(t: string) {
    |t| > 2 && t[0] == '0' && (t[1] == 'x' || t[1] == 'X') && AllHex(t[2..])
  }

  /** An optionally signed string of decimal digits, NaN otherwise. */
  function DecimalLiteral(t: string): Option<int> {
    var negative := |t| > 0 && t[0] == '-';
    var u := if |t| > 0 && (t[0] == '-' || t[0] == '+') then t[1..] else t;
    if u != [] && AllDigits(u) then Signed(negative, Some(DecValue(u))) else None
  }

  lemma TrimOfDigits(ds: string)
    requires ds != [] && AllDigits(ds)
    ensures Trim(ds) == ds
  {
    assert IsDigit(ds[0]) && IsDigit(ds[|ds| - 1]);
    TrimOfNonWhite(ds);
  }

  lemma TrimOfNegatedDigits(s: string, ds: string)
    requires ds != [] && AllDigits(ds) && s == "-" + ds
    ensures Trim(s) == s
  {
    assert s[|s| - 1] == ds[|ds| - 1];
    TrimOfNonWhite(s);
  }

  lemma NotHexOfDigits(ds: string)
    requires ds != [] && AllDigits(ds)
    ensures !IsHexLiteral(ds)
  {
    if |ds| > 2 {
      assert IsDigit(ds[1]);
    }
  }

  lemma NotHexOfNegated(s: string, ds: string)
    requires s == "-" + ds
    ensures s != [] && !IsHexLiteral(s)
  {
    assert s[0] == '-';
  }

  lemma DecimalLiteralOfDigits(ds: string)
    requires ds != [] && AllDigits(ds)
    ensures DecimalLiteral(ds) == Some(DecValue(ds))
  {
    assert IsDigit(ds[0]);
  }

  lemma DecimalLiteralOfNegated(s: string, ds: string)
    requires ds != [] && AllDigits(ds) && s == "-" + ds
    ensures DecimalLiteral(s) == Some(-(DecValue(ds) as int))
  {
    assert s[0] == '-' && s[1..] == ds;
  }

  /** On text that is its own trim and is no hexadecimal literal, `Number` reads a decimal literal. */
  lemma NumberOfDecimalText(t: string)
    requires t != [] && Trim(t) == t && !IsHexLiteral(t)
    ensures NumberOf(t) == DecimalLiteral(t)
  {
  }

  lemma NumberOfDigits(ds: string)
    requires ds != [] && AllDigits(ds)
    ensures NumberOf(ds) == Some(DecValue(ds))
  {
    TrimOfDigits(ds);
    NotHexOfDigits(ds);
    DecimalLiteralOfDigits(ds);
    NumberOfDecimalText(ds);
  }

  lemma NumberOfNegatedDigits(s: string, ds: string)
    requires ds != [] && AllDigits(ds) && s == "-" + ds
    ensures NumberOf(s) == Some(-(DecValue(ds) as int))
  {
    TrimOfNegatedDigits(s, ds);
    NotHexOfNegated(s, ds);
    DecimalLiteralOfNegated(s, ds);
    NumberOfDecimalText(s);
  }

  /** `Number` reads back what `toString` writes, for every integer. */
  lemma NumberOfIntToString(n: int)
    ensures NumberOf(IntToString(n)) == Some(n)
  {
    if n < 0 {
      NumberOfNegatedDigits(IntToString(n), NatToString(-n));
    } else {
      NumberOfDigits(NatToString(n));
    }
  }

  function Pow10(k: nat): (r: nat)
    ensures r >= 1
  {
    if k == 0 then 1 else 10 * Pow10(k - 1)
  }

  /** The exponent of an `e`/`E` part at the start of `s`, 0 when there is none. */
  function ExponentOf(s: string): int {
    if |s| > 0 && (s[0] == 'e' || s[0] == 'E') then
      var negative := |s| > 1 && s[1] == '-';
      var rest := if |s| > 1 && (s[1] == '-' || s[1] == '+') then s[2..] else s[1..];
      var d := Run(rest, IsDigit);
      if d == [] then 0 else if negative then -(DecValue(d) as int) else DecValue(d)
    else 0
  }

  /** A number read from decimal text: `mantissa` times ten to the power `exponent`. */
  datatype Decimal = Decimal(mantissa: int, exponent: int)

  /** The exact value of a decimal. */
  function DecimalValue(d: Decimal): real {
    if d.exponent >= 0 then d.mantissa as real * Pow10(d.exponent) as real
    else d.mantissa as real / Pow10(-d.exponent) as real
  }

  lemma DecimalOfInt(k: int)
    ensures DecimalValue(Decimal(k, 0)) == k as real
  {
    assert Pow10(0) == 1;
  }

  /** An unsigned decimal at the start of `u`: digits, a fraction and an exponent. */
  function UnsignedDecimal(u: string): Option<Decimal> {
    var whole := Run(u, IsDigit);
    var afterWhole := u[|whole|..];
    var hasPoint := |afterWhole| > 0 && afterWhole[0] == '.';
    var fraction := if hasPoint then Run(afterWhole[1..], IsDigit) else "";
    if whole == [] && fraction == [] then None
    else
      var afterFraction := if hasPoint then afterWhole[1 + |fraction|..] else afterWhole;
      Some(Decimal(DecValue(whole + fraction), ExponentOf(afterFraction) - |fraction|))
  }

  /** Applies a leading '-' to a decimal that may be NaN. */
  function NegateIf(negative: bool, v: Option<Decimal>): Option<Decimal> {
    match v
    case None => None
    case Some(d) => Some(if negative then Decimal(-d.mantissa, d.exponent) else d)
  }

  /**
   * `parseFloat(s)` read as an exact decimal: leading whitespace, a sign, digits, a
   * fraction and an exponent; the first character that does not fit ends the number.
   * No digit before or after the point gives NaN.
   */
  function ParseFloat(s: string): Option<Decimal> {
    var t := TrimStart(s);
    NegateIf(NegativeSign(t), UnsignedDecimal(AfterSign(t)))
  }

  lemma UnsignedDecimalNeedsDigit(u: string)
    requires forall i :: 0 <= i < |u| ==> !IsDigit(u[i])
    ensures UnsignedDecimal(u).None?
  {
    if |u| > 1 {
      assert !IsDigit(u[0]) && !IsDigit(u[1]);
      assert u[1..][0] == u[1];
    } else if |u| == 1 {
      assert !IsDigit(u[0]);
    }
  }

  /** Text without a digit is NaN to `parseFloat`. */
  lemma ParseFloatNeedsDigit(s: string)
    requires forall i :: 0 <= i < |s| ==> !IsDigit(s[i])
    ensures ParseFloat(s).None?
  {
    var t := TrimStart(s);
    NoDigitsInSuffix(s, t);
    NoDigitsInSuffix(t, AfterSign(t));
    UnsignedDecimalNeedsDigit(AfterSign(t));
  }

  /** Text that cannot continue a number after its digits. */
  predicate EndsNumber(rest: string) {
    rest == [] || (!IsDigit(rest[0]) && rest[0] != '.' && rest[0] != 'e' && rest[0] != 'E')
  }

  /** Text that starts with a digit is untouched by `trimStart`. */
  lemma TrimStartOfDigitsThen(s: string, ds: string, rest: string)
    requires ds != [] && AllDigits(ds) && s == ds + rest
    ensures s != [] && IsDigit(s[0]) && TrimStart(s) == s
  {
    assert s[0] == ds[0];
    TrimStartOfNonWhite(s);
  }

  /** Text that starts with a digit carries no sign. */
  lemma ParseFloatOfUnsignedText(s: string)
    requires s != [] && IsDigit(s[0]) && TrimStart(s) == s
    ensures ParseFloat(s) == UnsignedDecimal(s)
  {
  }

  lemma RunOfDigitsThen(s: string, ds: string, rest: string)
    requires AllDigits(ds) && (rest == [] || !IsDigit(rest[0])) && s == ds + rest
    ensures Run(s, IsDigit) == ds && s[|ds|..] == rest
  {
    RunOfConcat(ds, rest, IsDigit);
  }

  lemma EndOfNumber(rest: string)
    requires EndsNumber(rest)
    ensures (rest == [] || !IsDigit(rest[0])) && !(|rest| > 0 && rest[0] == '.') && ExponentOf(rest) == 0
  {
  }

  lemma AppendEmpty(ds: string)
    ensures ds + "" == ds
  {
  }

  lemma UnsignedDecimalOfWhole(s: string, whole: string, rest: string)
    requires whole != [] && AllDigits(whole)
    requires Run(s, IsDigit) == whole && s[|whole|..] == rest
    requires !(|rest| > 0 && rest[0] == '.') && ExponentOf(rest) == 0 && whole + "" == whole
    ensures UnsignedDecimal(s) == Some(Decimal(DecValue(whole), 0))
  {
  }

  lemma UnsignedDecimalOfDigits(s: string, ds: string, rest: string)
    requires ds != [] && AllDigits(ds) && EndsNumber(rest) && s == ds + rest
    ensures UnsignedDecimal(s) == Some(Decimal(DecValue(ds), 0))
  {
    EndOfNumber(rest);
    RunOfDigitsThen(s, ds, rest);
    AppendEmpty(ds);
    UnsignedDecimalOfWhole(s, ds, rest);
  }

  /** Digits followed by text that cannot continue a number are read as their value. */
  lemma ParseFloatOfDigits(s: string, ds: string, rest: string)
    requires ds != [] && AllDigits(ds) && EndsNumber(rest) && s == ds + rest
    ensures ParseFloat(s) == Some(Decimal(DecValue(ds), 0))
  {
    TrimStartOfDigitsThen(s, ds, rest);
    ParseFloatOfUnsignedText(s);
    UnsignedDecimalOfDigits(s, ds, rest);
  }

  /** A decimal integer followed by text that cannot continue a number is read as that integer. */
  lemma ParseFloatOfNat(n: nat, rest: string)
    requires EndsNumber(rest)
    ensures ParseFloat(NatToString(n) + rest) == Some(Decimal(n, 0))
  {
    ParseFloatOfDigits(NatToString(n) + rest, NatToString(n), rest);
  }

  lemma UnsignedDecimalOfParts(s: string, whole: string, tail: string, fraction: string, rest: string)
    requires whole != [] && AllDigits(whole) && AllDigits(fraction)
    requires Run(s, IsDigit) == whole && s[|whole|..] == tail
    requires |tail| > 0 && tail[0] == '.' && Run(tail[1..], IsDigit) == fraction
    requires tail[1 + |fraction|..] == rest && ExponentOf(rest) == 0
    ensures UnsignedDecimal(s) == Some(Decimal(DecValue(whole + fraction), -|fraction|))
  {
  }

  lemma FractionSplit(s: string, whole: string, fraction: string, rest: string)
    requires s == whole + "." + fraction + rest
    ensures s == whole + ("." + fraction + rest)
  {
  }

  lemma FractionRun(tail: string, fraction: string, rest: string)
    requires AllDigits(fraction)
    requires rest == [] || (!IsDigit(rest[0]) && rest[0] != 'e' && rest[0] != 'E')
    requires tail == "." + fraction + rest
    ensures |tail| > 0 && tail[0] == '.' && !IsDigit(tail[0])
    ensures Run(tail[1..], IsDigit) == fraction && tail[1 + |fraction|..] == rest && ExponentOf(rest) == 0
  {
    assert tail[1..] == fraction + rest;
    RunOfConcat(fraction, rest, IsDigit);
    assert tail[1 + |fraction|..] == rest;
  }

  lemma UnsignedDecimalOfFraction(s: string, whole: string, fraction: string, rest: string)
    requires whole != [] && AllDigits(whole) && AllDigits(fraction)
    requires rest == [] || (!IsDigit(rest[0]) && rest[0] != 'e' && rest[0] != 'E')
    requires s == whole + ("." + fraction + rest)
    ensures UnsignedDecimal(s) == Some(Decimal(DecValue(whole + fraction), -|fraction|))
  {
    var tail := "." + fraction + rest;
    FractionRun(tail, fraction, rest);
    RunOfDigitsThen(s, whole, tail);
    UnsignedDecimalOfParts(s, whole, tail, fraction, rest);
  }

  /** "w.f" followed by text that cannot continue the number is read as the digits of `w` and `f` over 10^|f|. */
  lemma ParseFloatOfFraction(s: string, whole: string, fraction: string, rest: string)
    requires whole != [] && AllDigits(whole) && AllDigits(fraction)
    requires rest == [] || (!IsDigit(rest[0]) && rest[0] != 'e' && rest[0] != 'E')
    requires s == whole + "." + fraction + rest
    ensures ParseFloat(s) == Some(Decimal(DecValue(whole + fraction), -|fraction|))
  {
    FractionSplit(s, whole, fraction, rest);
    TrimStartOfDigitsThen(s, whole, "." + fraction + rest);
    ParseFloatOfUnsignedText(s);
    UnsignedDecimalOfFraction(s, whole, fraction, rest);
  }

  /** `Math.round(x)`: the nearest integer, halves rounded up. */
  function Round(x: real): (r: int)
    ensures r as real - 0.5 <= x < r as real + 0.5
  {
    (x + 0.5).Floor
  }
}
