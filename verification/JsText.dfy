/**
 * The text functions of ECMA-262 that the forms rely on: trimming, decimal
 * printing, parseInt, parseFloat and toFixed.
 */
module JsText {
  import opened Wrappers
  import opened Doubles

  // WhiteSpace and LineTerminator, sections 12.2 and 12.3 of ECMA-262.
  predicate IsWhite(c: char) {
    || '\U{0009}' <= c <= '\U{000D}'
    || c == '\U{0020}' || c == '\U{00A0}' || c == '\U{1680}'
    || '\U{2000}' <= c <= '\U{200A}'
    || c == '\U{2028}' || c == '\U{2029}' || c == '\U{202F}' || c == '\U{205F}'
    || c == '\U{3000}' || c == '\U{FEFF}'
  }

  function TrimStart(s: string): string {
    if s != "" && IsWhite(s[0]) then TrimStart(s[1..]) else s
  }

  function TrimEnd(s: string): string {
    if s != "" && IsWhite(s[|s| - 1]) then TrimEnd(s[..|s| - 1]) else s
  }

  function Trim(s: string): string {
    TrimEnd(TrimStart(s))
  }

  predicate IsDigit(c: char) {
    '0' <= c <= '9'
  }

  predicate AllDigits(s: string) {
    forall c :: c in s ==> IsDigit(c)
  }

  function Digit(d: nat): (c: char)
    requires d < 10
    ensures IsDigit(c)
  {
    (48 + d) as char
  }

  // String(n)
  function Print(n: nat): (s: string)
    ensures s != "" && AllDigits(s)
  {
    if n < 10 then [Digit(n)] else Print(n / 10) + [Digit(n % 10)]
  }

  function Value(s: string): nat
    requires AllDigits(s)
  {
    if s == "" then 0
    else
      assert IsDigit(s[|s| - 1]);
      Value(s[..|s| - 1]) * 10 + (s[|s| - 1] as int - 48)
  }

  function PadStart(s: string, width: nat): string
    decreases width - |s|
  {
    if |s| >= width then s else PadStart("0" + s, width)
  }

  /** Reading back a printed number gives the number. */
  lemma {:induction false} ValueOfPrint(n: nat)
    ensures Value(Print(n)) == n
  {
    if n >= 10 {
      ValueOfPrint(n / 10);
      assert Print(n)[..|Print(n)| - 1] == Print(n / 10);
    }
  }

  lemma {:induction false} ValueOfZero(s: string)
    requires AllDigits(s)
    ensures AllDigits("0" + s) && Value("0" + s) == Value(s)
  {
    if s != "" {
      ValueOfZero(s[..|s| - 1]);
      assert ("0" + s)[..|s|] == "0" + s[..|s| - 1];
    }
  }

  lemma {:induction false} ValueOfPad(s: string, width: nat)
    requires AllDigits(s)
    ensures AllDigits(PadStart(s, width)) && Value(PadStart(s, width)) == Value(s)
    ensures |PadStart(s, width)| == if |s| >= width then |s| else width
    decreases width - |s|
  {
    if |s| < width {
      ValueOfZero(s);
      ValueOfPad("0" + s, width);
    }
  }

  // The longest prefix of decimal digits.
  function DigitPrefix(s: string): (p: string)
    ensures p <= s && AllDigits(p)
    ensures |p| < |s| ==> !IsDigit(s[|p|])
  {
    if s != "" && IsDigit(s[0]) then [s[0]] + DigitPrefix(s[1..]) else ""
  }

  lemma {:induction false} DigitPrefixOf(digits: string, rest: string)
    requires AllDigits(digits) && (rest == "" || !IsDigit(rest[0]))
    ensures DigitPrefix(digits + rest) == digits
  {
    if digits == "" {
      assert digits + rest == rest;
    } else {
      assert (digits + rest)[1..] == digits[1..] + rest;
      DigitPrefixOf(digits[1..], rest);
    }
  }

  predicate Negative(s: string) {
    s != "" && s[0] == '-'
  }

  function Unsigned(s: string): string {
    if s != "" && (s[0] == '+' || s[0] == '-') then s[1..] else s
  }

  // Number.parseInt(s, 10), section 19.2.5 of ECMA-262; None is NaN.
  function ParseInt(s: string): Option<int> {
    var t := TrimStart(s);
    var digits := DigitPrefix(Unsigned(t));
    if digits == "" then None
    else Some(if Negative(t) then -(Value(digits) as int) else Value(digits))
  }

  // x * 10^e
  function Shift(x: real, e: int): real
    decreases if e < 0 then -e else e
  {
    if e == 0 then x else if e > 0 then Shift(10.0 * x, e - 1) else Shift(x / 10.0, e + 1)
  }

  // The exponent part of a decimal literal, or 0 where there is none.
  function Exponent(s: string): int {
    if s == "" || (s[0] != 'e' && s[0] != 'E') then 0
    else
      var digits := DigitPrefix(Unsigned(s[1..]));
      if digits == "" then 0 else if Negative(s[1..]) then -(Value(digits) as int) else Value(digits)
  }

  // The unsigned decimal literal that s starts with: digits, digits after the point, exponent.
  datatype Literal = Literal(whole: string, fraction: string, exponent: int) {
    ghost predicate WellFormed() {
      AllDigits(whole) && AllDigits(fraction)
    }
  }

  function ScanLiteral(s: string): (l: Literal)
    ensures l.WellFormed()
  {
    var whole := DigitPrefix(s);
    var rest := s[|whole|..];
    if rest != "" && rest[0] == '.' then
      var fraction := DigitPrefix(rest[1..]);
      Literal(whole, fraction, Exponent(rest[1..][|fraction|..]))
    else Literal(whole, "", Exponent(rest))
  }

  function Magnitude(whole: string, fraction: string, exponent: int): real
    requires AllDigits(whole) && AllDigits(fraction)
  {
    Shift(Value(whole + fraction) as real, exponent - |fraction|)
  }

  // The exact value of the longest decimal literal s starts with.
  function DecimalValue(s: string): Option<real> {
    var t := TrimStart(s);
    var l := ScanLiteral(Unsigned(t));
    if l.whole == "" && l.fraction == "" then None
    else
      var m := Magnitude(l.whole, l.fraction, l.exponent);
      Some(if Negative(t) then -m else m)
  }

  // Number.parseFloat, section 19.2.4 of ECMA-262; None is NaN.
  function ParseFloat(s: string): Option<real> {
    match DecimalValue(s)
    case None => None
    case Some(x) => Some(Nearest(x))
  }

  // n / 100 written with two decimals.
  function WithPoint(n: nat): string {
    var m := PadStart(Print(n), 3);
    ValueOfPad(Print(n), 3);
    m[..|m| - 2] + "." + m[|m| - 2..]
  }

  // x.toFixed(2), section 21.1.3.3 of ECMA-262: the n with n / 100 nearest to
  // x, the larger of two.
  function ToFixed2(x: real): string {
    if x < 0.0 then "-" + WithPoint((-x * 100.0 + 0.5).Floor)
    else WithPoint((x * 100.0 + 0.5).Floor)
  }

  lemma ScanOfParts(whole: string, fraction: string)
    requires AllDigits(whole) && AllDigits(fraction)
    ensures ScanLiteral(whole + "." + fraction) == Literal(whole, fraction, 0)
  {
    var s, rest := whole + "." + fraction, "." + fraction;
    assert s == whole + rest;
    DigitPrefixOf(whole, rest);
    assert s[|whole|..] == rest && rest[1..] == fraction;
    DigitPrefixOf(fraction, "");
    assert fraction + "" == fraction;
    assert fraction[|fraction|..] == "";
  }

  lemma MagnitudeOfTwoDecimals(whole: string, fraction: string)
    requires AllDigits(whole) && AllDigits(fraction) && |fraction| == 2
    ensures Magnitude(whole, fraction, 0) == Value(whole + fraction) as real / 100.0
  {
    var x := Value(whole + fraction) as real;
    assert Shift(x, -2) == Shift(x / 10.0, -1);
  }

  lemma PartsOfWithPoint(n: nat) returns (whole: string, fraction: string)
    ensures whole != "" && |fraction| == 2
    ensures AllDigits(whole) && AllDigits(fraction) && AllDigits(whole + fraction)
    ensures WithPoint(n) == whole + "." + fraction && Value(whole + fraction) == n
  {
    var m := PadStart(Print(n), 3);
    ValueOfPad(Print(n), 3);
    ValueOfPrint(n);
    whole, fraction := m[..|m| - 2], m[|m| - 2..];
    assert whole + fraction == m;
  }

  lemma UnsignedDigits(s: string)
    requires s != "" && IsDigit(s[0])
    ensures Unsigned(TrimStart(s)) == s && !Negative(TrimStart(s))
  {
  }

  lemma DecimalValueOfParts(whole: string, fraction: string, s: string)
    requires whole != "" && AllDigits(whole) && AllDigits(fraction)
    requires s == whole + "." + fraction
    ensures DecimalValue(s) == Some(Magnitude(whole, fraction, 0))
  {
    assert s[0] == whole[0] && whole[0] in whole;
    UnsignedDigits(s);
    ScanOfParts(whole, fraction);
  }

  lemma DecimalValueOfHundredths(whole: string, fraction: string, s: string, n: nat)
    requires whole != "" && AllDigits(whole) && AllDigits(fraction) && |fraction| == 2
    requires s == whole + "." + fraction && AllDigits(whole + fraction) && Value(whole + fraction) == n
    ensures DecimalValue(s) == Some(n as real / 100.0)
  {
    DecimalValueOfParts(whole, fraction, s);
    MagnitudeOfTwoDecimals(whole, fraction);
  }

  /** Text with two decimals denotes exactly the hundredths it was printed from. */
  lemma DecimalValueOfWithPoint(n: nat)
    ensures DecimalValue(WithPoint(n)) == Some(n as real / 100.0)
  {
    var whole, fraction := PartsOfWithPoint(n);
    DecimalValueOfHundredths(whole, fraction, WithPoint(n), n);
  }

  /** parseInt inverts String on naturals. */
  lemma ParseIntOfPrint(n: nat)
    ensures ParseInt(Print(n)) == Some(n)
  {
    var s := Print(n);
    assert IsDigit(s[0]);
    DigitPrefixOf(s, "");
    assert s + "" == s;
    ValueOfPrint(n);
  }

  // ---- The grammar of numbers ------------------------------------------------------------------

  /** The 25 characters that trimming removes. */
  lemma WhiteSpaceIs(c: char)
    ensures IsWhite(c) <==>
            c as int in {0x9, 0xA, 0xB, 0xC, 0xD, 0x20, 0xA0, 0x1680, 0x2000, 0x2001, 0x2002, 0x2003, 0x2004, 0x2005,
                         0x2006, 0x2007, 0x2008, 0x2009, 0x200A, 0x2028, 0x2029, 0x202F, 0x205F, 0x3000, 0xFEFF}
  {
  }

  predicate AllWhite(s: string) {
    forall c :: c in s ==> IsWhite(c)
  }

  lemma {:induction false} TrimStartOf(white: string, s: string)
    requires AllWhite(white) && (s == "" || !IsWhite(s[0]))
    ensures TrimStart(white + s) == s
  {
    if white == "" {
      assert white + s == s;
    } else {
      assert (white + s)[1..] == white[1..] + s && white[0] in white;
      TrimStartOf(white[1..], s);
    }
  }

  lemma {:induction false} TrimEndOf(s: string, white: string)
    requires AllWhite(white) && (s == "" || !IsWhite(s[|s| - 1]))
    ensures TrimEnd(s + white) == s
  {
    if white == "" {
      assert s + white == s;
    } else {
      var n := |white| - 1;
      assert (s + white)[..|s + white| - 1] == s + white[..n] && white[n] in white;
      TrimEndOf(s, white[..n]);
    }
  }

  /** Trimming leaves what stands between white space at both ends. */
  lemma TrimOf(before: string, s: string, after: string)
    requires AllWhite(before) && AllWhite(after)
    requires s != "" && !IsWhite(s[0]) && !IsWhite(s[|s| - 1])
    ensures Trim(before + s + after) == s
  {
    assert before + s + after == before + (s + after);
    TrimStartOf(before, s + after);
    TrimEndOf(s, after);
  }

  predicate IsSign(s: string) {
    s == "" || s == "+" || s == "-"
  }

  // What follows a number does not go on with it: no digit.
  predicate NoDigitFirst(s: string) {
    s == "" || !IsDigit(s[0])
  }

  // Without a sign or a digit in front, it starts with no white space and no sign.
  predicate Bare(sign: string, body: string) {
    sign == "" && body != "" ==> !IsWhite(body[0]) && body[0] != '+' && body[0] != '-'
  }

  lemma SignedText(white: string, sign: string, body: string)
    requires AllWhite(white) && IsSign(sign) && Bare(sign, body)
    ensures var t := TrimStart(white + sign + body);
            t == sign + body && Unsigned(t) == body && (Negative(t) <==> sign == "-")
  {
    assert white + sign + body == white + (sign + body);
    assert sign + body != "" ==> (sign + body)[0] == if sign == "" then body[0] else sign[0];
    TrimStartOf(white, sign + body);
    if sign == "" { assert sign + body == body; } else { assert (sign + body)[1..] == body; }
  }

  /** parseInt reads white space, a sign and digits, and ignores the rest; without a digit it is not a number. */
  lemma ParseIntOfText(white: string, sign: string, body: string, digits: string, rest: string)
    requires AllWhite(white) && IsSign(sign) && AllDigits(digits) && NoDigitFirst(rest)
    requires body == digits + rest && Bare(sign, body)
    ensures ParseInt(white + sign + body) ==
            if digits == "" then None else Some(if sign == "-" then -(Value(digits) as int) else Value(digits))
  {
    SignedText(white, sign, body);
    DigitPrefixOf(digits, rest);
    IntegerRead(white + sign + body, TrimStart(white + sign + body), sign, digits);
  }

  lemma IntegerRead(s: string, t: string, sign: string, digits: string)
    requires t == TrimStart(s) && (Negative(t) <==> sign == "-") && DigitPrefix(Unsigned(t)) == digits
    ensures AllDigits(digits)
    ensures ParseInt(s) ==
            if digits == "" then None else Some(if sign == "-" then -(Value(digits) as int) else Value(digits))
  {
  }

  lemma {:induction false} ShiftTenfold(x: real, e: int)
    ensures Shift(10.0 * x, e) == 10.0 * Shift(x, e)
    decreases if e < 0 then -e else e
  {
    if e > 0 {
      ShiftTenfold(10.0 * x, e - 1);
    } else if e < 0 {
      ShiftTenfold(x / 10.0, e + 1);
      assert 10.0 * x / 10.0 == 10.0 * (x / 10.0);
    }
  }

  /** Shifting by an exponent multiplies by that power of ten. */
  lemma ShiftIsPower(x: real, e: int)
    ensures Shift(x, 0) == x && Shift(x, e + 1) == 10.0 * Shift(x, e)
  {
    if e >= 0 {
      ShiftTenfold(x, e);
    } else {
      ShiftTenfold(x / 10.0, e + 1);
      assert 10.0 * (x / 10.0) == x;
    }
  }

  // An exponent: e or E, a sign, digits.
  datatype ExponentText = ExponentText(e: char, sign: string, digits: string)

  predicate ProperExponent(x: Option<ExponentText>) {
    x.Some? ==>
      && (x.value.e == 'e' || x.value.e == 'E') && IsSign(x.value.sign)
      && x.value.digits != "" && AllDigits(x.value.digits)
  }

  function ExponentOf(x: Option<ExponentText>): string {
    match x
    case None => ""
    case Some(t) => [t.e] + t.sign + t.digits
  }

  function ExponentValue(x: Option<ExponentText>): int
    requires ProperExponent(x)
  {
    match x
    case None => 0
    case Some(t) => if t.sign == "-" then -(Value(t.digits) as int) else Value(t.digits)
  }

  lemma UnsignedOf(sign: string, body: string)
    requires IsSign(sign) && body != "" && IsDigit(body[0])
    ensures Unsigned(sign + body) == body && (Negative(sign + body) <==> sign == "-")
  {
    if sign == "" { assert sign + body == body; } else { assert (sign + body)[1..] == body; }
  }

  lemma ExponentRead(s: string, t: ExponentText, rest: string)
    requires ProperExponent(Some(t)) && NoDigitFirst(rest) && s == [t.e] + (t.sign + (t.digits + rest))
    ensures Exponent(s) == ExponentValue(Some(t))
  {
    var body := t.digits + rest;
    assert s[1..] == t.sign + body;
    assert body[0] == t.digits[0] && t.digits[0] in t.digits;
    UnsignedOf(t.sign, body);
    DigitPrefixOf(t.digits, rest);
  }

  /** The exponent a text starts with; a text that does not start with e or E has none. */
  lemma ExponentIs(s: string, x: Option<ExponentText>, rest: string)
    requires ProperExponent(x) && NoDigitFirst(rest) && s == ExponentOf(x) + rest
    requires x.None? ==> rest == "" || (rest[0] != 'e' && rest[0] != 'E')
    ensures Exponent(s) == ExponentValue(x)
  {
    match x {
      case None => assert s == rest;
      case Some(t) =>
        assert s == [t.e] + (t.sign + (t.digits + rest));
        ExponentRead(s, t, rest);
    }
  }

  lemma LiteralWithPoint(s: string, whole: string, fraction: string, tail: string)
    requires AllDigits(whole) && AllDigits(fraction) && NoDigitFirst(tail)
    requires s == whole + ("." + (fraction + tail))
    ensures ScanLiteral(s) == Literal(whole, fraction, Exponent(tail))
  {
    var more, behind := "." + (fraction + tail), fraction + tail;
    DigitPrefixOf(whole, more);
    assert s[|whole|..] == more && more[1..] == behind;
    DigitPrefixOf(fraction, tail);
    assert behind[|fraction|..] == tail;
  }

  lemma LiteralWithoutPoint(s: string, whole: string, tail: string)
    requires AllDigits(whole) && NoDigitFirst(tail) && (tail != "" ==> tail[0] != '.') && s == whole + tail
    ensures ScanLiteral(s) == Literal(whole, "", Exponent(tail))
  {
    DigitPrefixOf(whole, tail);
    assert s[|whole|..] == tail;
  }

  /**
   * The number a text starts with: white space, a sign, digits, a point with
   * digits, and an exponent, in that order; without a digit there is none.
   */
  lemma DecimalValueWithPoint(white: string, sign: string, body: string, whole: string, fraction: string, tail: string)
    requires AllWhite(white) && IsSign(sign) && AllDigits(whole) && AllDigits(fraction) && NoDigitFirst(tail)
    requires body == whole + ("." + (fraction + tail)) && Bare(sign, body)
    ensures DecimalValue(white + sign + body) ==
            if whole == "" && fraction == "" then None
            else Some(SignedValue(sign, Magnitude(whole, fraction, Exponent(tail))))
  {
    SignedText(white, sign, body);
    LiteralWithPoint(body, whole, fraction, tail);
    ValueOfLiteral(white + sign + body, TrimStart(white + sign + body), sign, Literal(whole, fraction, Exponent(tail)));
  }

  lemma ValueOfLiteral(s: string, t: string, sign: string, l: Literal)
    requires t == TrimStart(s) && (Negative(t) <==> sign == "-") && l.WellFormed() && ScanLiteral(Unsigned(t)) == l
    ensures DecimalValue(s) ==
            if l.whole == "" && l.fraction == "" then None
            else Some(SignedValue(sign, Magnitude(l.whole, l.fraction, l.exponent)))
  {
  }

  /** And without a point. */
  lemma DecimalValueWithoutPoint(white: string, sign: string, body: string, whole: string, tail: string)
    requires AllWhite(white) && IsSign(sign) && AllDigits(whole)
    requires NoDigitFirst(tail) && (tail != "" ==> tail[0] != '.')
    requires body == whole + tail && Bare(sign, body)
    ensures DecimalValue(white + sign + body) ==
            if whole == "" then None else Some(SignedValue(sign, Magnitude(whole, "", Exponent(tail))))
  {
    SignedText(white, sign, body);
    LiteralWithoutPoint(body, whole, tail);
    ValueOfLiteral(white + sign + body, TrimStart(white + sign + body), sign, Literal(whole, "", Exponent(tail)));
  }

  function SignedValue(sign: string, magnitude: real): real {
    if sign == "-" then -magnitude else magnitude
  }

  /** The digits before and after the point are one number, shifted by the exponent less the digits after the point. */
  lemma MagnitudeIs(whole: string, fraction: string, exponent: int)
    requires AllDigits(whole) && AllDigits(fraction) && AllDigits(whole + fraction)
    ensures Magnitude(whole, fraction, exponent) == Shift(Value(whole + fraction) as real, exponent - |fraction|)
  {
  }

  /** toFixed(2) prints the hundredths nearest to the number, halves upward, with a minus where it is negative. */
  lemma ToFixedIsNearest(x: real, n: nat)
    requires x >= 0.0 && n as real - 0.5 <= x * 100.0 < n as real + 0.5
    ensures ToFixed2(x) == WithPoint(n)
    ensures x > 0.0 ==> ToFixed2(-x) == "-" + WithPoint(n)
  {
  }
}
