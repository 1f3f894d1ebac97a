/**
 * encodeURIComponent and decodeURIComponent (section 19.2.6 of ECMA-262) over
 * UTF-8 (section 3 of RFC 3629). A Dafny char is a Unicode scalar value, so
 * the lone surrogates encodeURIComponent rejects do not arise.
 */
module PercentEncoding {
  import opened Wrappers

  // The characters encodeURIComponent leaves alone.
  predicate Unreserved(c: char) {
    || 'a' <= c <= 'z' || 'A' <= c <= 'Z' || '0' <= c <= '9'
    || c == '-' || c == '_' || c == '.' || c == '!' || c == '~'
    || c == '*' || c == '\'' || c == '(' || c == ')'
  }

  /** Section 19.2.6 of ECMA-262: letters, digits and the nine marks - _ . ! ~ * ' ( ). */
  lemma UnreservedIs(c: char)
    ensures Unreserved(c) <==>
            || 0x30 <= c as int <= 0x39 || 0x41 <= c as int <= 0x5A || 0x61 <= c as int <= 0x7A
            || c as int in {0x21, 0x27, 0x28, 0x29, 0x2A, 0x2D, 0x2E, 0x5F, 0x7E}
  {
  }

  predicate IsByte(b: int) {
    0 <= b < 256
  }

  function Utf8(c: char): (bytes: seq<int>)
    ensures 1 <= |bytes| <= 4 && forall b :: b in bytes ==> IsByte(b)
  {
    var v := c as int;
    if v < 0x80 then [v]
    else if v < 0x800 then [0xC0 + v / 0x40, 0x80 + v % 0x40]
    else if v < 0x1_0000 then [0xE0 + v / 0x1000, 0x80 + v / 0x40 % 0x40, 0x80 + v % 0x40]
    else [0xF0 + v / 0x4_0000, 0x80 + v / 0x1000 % 0x40, 0x80 + v / 0x40 % 0x40, 0x80 + v % 0x40]
  }

  function HexDigit(d: int): (c: char)
    requires 0 <= d < 16
    ensures Unreserved(c)
  {
    if d < 10 then (48 + d) as char else (55 + d) as char
  }

  function HexValue(c: char): Option<int> {
    if '0' <= c <= '9' then Some(c as int - 48)
    else if 'A' <= c <= 'F' then Some(c as int - 55)
    else if 'a' <= c <= 'f' then Some(c as int - 87)
    else None
  }

  /** Upper-case digits are written. */
  lemma HexDigitIs(d: int)
    requires 0 <= d < 16
    ensures HexDigit(d) == "0123456789ABCDEF"[d]
  {
  }

  /** Both cases of a hexadecimal digit are read. */
  lemma HexValueIs(c: char, d: int)
    ensures HexValue(c) == Some(d) <==>
            || (0 <= d < 10 && c as int == 0x30 + d)
            || (10 <= d < 16 && (c as int == 0x41 + (d - 10) || c as int == 0x61 + (d - 10)))
  {
  }

  function Escape(b: int): string
    requires IsByte(b)
  {
    ['%', HexDigit(b / 16), HexDigit(b % 16)]
  }

  function EscapeAll(bytes: seq<int>): string
    requires forall b :: b in bytes ==> IsByte(b)
  {
    if bytes == [] then "" else Escape(bytes[0]) + EscapeAll(bytes[1..])
  }

  function EncodeChar(c: char): string {
    if Unreserved(c) then [c] else EscapeAll(Utf8(c))
  }

  // encodeURIComponent
  function Encode(s: string): string {
    if s == "" then "" else EncodeChar(s[0]) + Encode(s[1..])
  }

  // The byte of the escape that s starts with.
  function Octet(s: string): Option<int> {
    if |s| < 3 || s[0] != '%' then None
    else match (HexValue(s[1]), HexValue(s[2]))
      case (Some(h), Some(l)) => Some(16 * h + l)
      case (_, _) => None
  }

  // The bytes of the n escapes that s starts with.
  function Octets(s: string, n: nat): (r: Option<seq<int>>)
    ensures r.Some? ==> |r.value| == n && 3 * n <= |s|
    decreases n
  {
    if n == 0 then Some([])
    else match Octet(s)
      case None => None
      case Some(b) =>
        match Octets(s[3..], n - 1)
        case None => None
        case Some(rest) => Some([b] + rest)
  }

  // How many bytes a character starting with b takes; 0 where none does.
  function Width(b: int): nat {
    if b < 0x80 then 1 else if b < 0xC0 then 0 else if b < 0xE0 then 2
    else if b < 0xF0 then 3 else if b < 0xF8 then 4 else 0
  }

  predicate IsScalar(v: int) {
    0 <= v < 0xD800 || 0xE000 <= v < 0x11_0000
  }

  predicate Continues(b: int) {
    0x80 <= b < 0xC0
  }

  function CodePoint(bytes: seq<int>): int
    requires 1 <= |bytes| <= 4
  {
    match |bytes|
    case 1 => bytes[0]
    case 2 => (bytes[0] - 0xC0) * 0x40 + (bytes[1] - 0x80)
    case 3 => (bytes[0] - 0xE0) * 0x1000 + (bytes[1] - 0x80) * 0x40 + (bytes[2] - 0x80)
    case _ => (bytes[0] - 0xF0) * 0x4_0000 + (bytes[1] - 0x80) * 0x1000 + (bytes[2] - 0x80) * 0x40 + (bytes[3] - 0x80)
  }

  // The least code point that needs this many bytes.
  function Least(width: nat): int {
    match width
    case 1 => 0
    case 2 => 0x80
    case 3 => 0x800
    case _ => 0x1_0000
  }

  predicate WellFormed(bytes: seq<int>) {
    && |bytes| > 0 && Width(bytes[0]) == |bytes|
    && (forall i :: 1 <= i < |bytes| ==> Continues(bytes[i]))
    && Least(|bytes|) <= CodePoint(bytes)
    && IsScalar(CodePoint(bytes))
  }

  // The character that exactly these bytes encode: shortest forms and scalar values only.
  function FromUtf8(bytes: seq<int>): Option<char> {
    if WellFormed(bytes) then Some(CodePoint(bytes) as char) else None
  }

  // decodeURIComponent; None where it throws a URIError.
  function Decode(s: string): Option<string>
    decreases |s|
  {
    if s == "" then Some("")
    else if s[0] != '%' then Prepend(s[0], Decode(s[1..]))
    else match Octet(s)
      case None => None
      case Some(b) =>
        if Width(b) == 0 then None
        else match Octets(s, Width(b))
          case None => None
          case Some(bytes) =>
            match FromUtf8(bytes)
            case None => None
            case Some(c) => Prepend(c, Decode(s[3 * Width(b)..]))
  }

  function Prepend(c: char, rest: Option<string>): Option<string> {
    match rest
    case None => None
    case Some(t) => Some([c] + t)
  }

  // The base-64 digits of a code point.
  lemma Digits64(v: int)
    requires 0 <= v < 0x11_0000
    ensures v == v / 0x40 * 0x40 + v % 0x40
    ensures v == v / 0x1000 * 0x1000 + v / 0x40 % 0x40 * 0x40 + v % 0x40
    ensures v == v / 0x4_0000 * 0x4_0000 + v / 0x1000 % 0x40 * 0x1000 + v / 0x40 % 0x40 * 0x40 + v % 0x40
  {
    assert v / 0x1000 == v / 0x40 / 0x40;
    assert v / 0x4_0000 == v / 0x1000 / 0x40;
  }

  /** UTF-8 decoding inverts encoding. */
  lemma {:induction false} Utf8RoundTrip(c: char)
    ensures WellFormed(Utf8(c)) && FromUtf8(Utf8(c)) == Some(c)
  {
    Digits64(c as int);
    assert CodePoint(Utf8(c)) == c as int;
  }

  lemma SplitDigit(hi: int, lo: int, v: int)
    requires 0 <= lo < 0x40 && v == hi * 0x40 + lo
    ensures v / 0x40 == hi && v % 0x40 == lo
  {
  }

  lemma SplitDigits(a: int, b: int, c: int, d: int, v: int)
    requires 0 <= b < 0x40 && 0 <= c < 0x40 && 0 <= d < 0x40 && v == a * 0x4_0000 + b * 0x1000 + c * 0x40 + d
    ensures v / 0x4_0000 == a && v / 0x1000 % 0x40 == b && v / 0x40 % 0x40 == c && v % 0x40 == d
    ensures v / 0x1000 == a * 0x40 + b
  {
    SplitDigit(a * 0x1000 + b * 0x40 + c, d, v);
    SplitDigit(a * 0x40 + b, c, v / 0x40);
    SplitDigit(a, b, v / 0x1000);
  }

  // The bytes that a code point is made of are its own encoding.
  lemma BytesOfCodePoint(bytes: seq<int>)
    requires WellFormed(bytes) && forall b :: b in bytes ==> IsByte(b)
    ensures Utf8(CodePoint(bytes) as char) == bytes
  {
    var v := CodePoint(bytes);
    assert bytes[0] in bytes;
    match |bytes| {
      case 1 => assert bytes == [bytes[0]];
      case 2 =>
        assert bytes == [bytes[0], bytes[1]];
        SplitDigit(bytes[0] - 0xC0, bytes[1] - 0x80, v);
      case 3 =>
        assert bytes == [bytes[0], bytes[1], bytes[2]];
        SplitDigits(0, bytes[0] - 0xE0, bytes[1] - 0x80, bytes[2] - 0x80, v);
      case _ =>
        assert bytes == [bytes[0], bytes[1], bytes[2], bytes[3]];
        SplitDigits(bytes[0] - 0xF0, bytes[1] - 0x80, bytes[2] - 0x80, bytes[3] - 0x80, v);
    }
  }

  /** Decoding accepts exactly the encodings: no longer forms, no surrogates, nothing beyond the last scalar. */
  lemma Utf8Exact(bytes: seq<int>, c: char)
    requires forall b :: b in bytes ==> IsByte(b)
    ensures FromUtf8(bytes) == Some(c) <==> bytes == Utf8(c)
  {
    if FromUtf8(bytes) == Some(c) { BytesOfCodePoint(bytes); }
    if bytes == Utf8(c) { Utf8RoundTrip(c); }
  }

  lemma OctetOfEscape(b: int, rest: string)
    requires IsByte(b)
    ensures Octet(Escape(b) + rest) == Some(b)
  {
  }

  lemma OctetsStep(s: string, b: int, rest: seq<int>)
    requires Octet(s) == Some(b) && |s| >= 3 && Octets(s[3..], |rest|) == Some(rest)
    ensures Octets(s, |rest| + 1) == Some([b] + rest)
  {
  }

  lemma {:induction false} OctetsOfEscapes(bytes: seq<int>, rest: string)
    requires forall b :: b in bytes ==> IsByte(b)
    ensures |EscapeAll(bytes)| == 3 * |bytes|
    ensures Octets(EscapeAll(bytes) + rest, |bytes|) == Some(bytes)
    ensures bytes != [] ==> Octet(EscapeAll(bytes) + rest) == Some(bytes[0])
  {
    if bytes != [] {
      var tail := EscapeAll(bytes[1..]) + rest;
      OctetOfEscape(bytes[0], tail);
      OctetsOfEscapes(bytes[1..], rest);
      assert EscapeAll(bytes) + rest == Escape(bytes[0]) + tail;
      OctetsStep(Escape(bytes[0]) + tail, bytes[0], bytes[1..]);
      assert [bytes[0]] + bytes[1..] == bytes;
    }
  }

  // Decoding one multi-escape character, given its pieces.
  lemma DecodeStep(s: string, bytes: seq<int>, c: char, rest: string)
    requires bytes != [] && Octet(s) == Some(bytes[0])
    requires Width(bytes[0]) == |bytes| && Octets(s, |bytes|) == Some(bytes)
    requires FromUtf8(bytes) == Some(c) && s[3 * |bytes|..] == rest
    ensures Decode(s) == Prepend(c, Decode(rest))
  {
  }

  lemma DecodeOfEscapes(bytes: seq<int>, c: char, rest: string)
    requires bytes != [] && forall b :: b in bytes ==> IsByte(b)
    requires Width(bytes[0]) == |bytes| && FromUtf8(bytes) == Some(c)
    ensures Decode(EscapeAll(bytes) + rest) == Prepend(c, Decode(rest))
  {
    OctetsOfEscapes(bytes, rest);
    DecodeStep(EscapeAll(bytes) + rest, bytes, c, rest);
  }

  lemma DecodeOfChar(c: char, rest: string)
    ensures Decode(EncodeChar(c) + rest) == Prepend(c, Decode(rest))
  {
    if Unreserved(c) {
      assert ([c] + rest)[1..] == rest;
    } else {
      Utf8RoundTrip(c);
      DecodeOfEscapes(Utf8(c), c, rest);
    }
  }

  /** Percent decoding inverts percent encoding, for every string. */
  lemma {:induction false} DecodeOfEncode(s: string)
    ensures Decode(Encode(s)) == Some(s)
  {
    if s != "" {
      DecodeOfEncode(s[1..]);
      DecodeOfChar(s[0], Encode(s[1..]));
      assert [s[0]] + s[1..] == s;
    }
  }

  // The alphabet of encoded text.
  ghost predicate Plain(s: string) {
    forall c :: c in s ==> Unreserved(c) || c == '%'
  }

  lemma {:induction false} EscapesArePlain(bytes: seq<int>)
    requires forall b :: b in bytes ==> IsByte(b)
    ensures Plain(EscapeAll(bytes))
  {
    if bytes != [] {
      EscapesArePlain(bytes[1..]);
    }
  }

  /** Encoded text holds only unreserved characters and percent signs. */
  lemma {:induction false} EncodeIsPlain(s: string)
    ensures Plain(Encode(s))
  {
    if s != "" {
      EncodeIsPlain(s[1..]);
      if !Unreserved(s[0]) {
        EscapesArePlain(Utf8(s[0]));
      }
    }
  }

  lemma EncodeIsInjective(s: string, t: string)
    requires Encode(s) == Encode(t)
    ensures s == t
  {
    DecodeOfEncode(s);
    DecodeOfEncode(t);
  }
}
