/**
 * encodeURIComponent (ECMAScript 2015, section 18.2.6.5) and, as its partner,
 * decodeURIComponent (section 18.2.6.3).
 *
 * A Dafny `char` is a Unicode scalar value, so the lone-surrogate case in which
 * encodeURIComponent throws a URIError cannot arise here; every other character
 * is encoded as in the standard: unreserved characters are copied, all others
 * become the percent-encoded octets of their UTF-8 form (section 2.1 of RFC 3986),
 * with upper-case hexadecimal digits.
 */
module UriComponent {
  import opened Wrappers

  type Byte = b: int | 0 <= b < 256

  /** uriAlpha, DecimalDigit and uriMark: the characters copied unescaped. */
  predicate IsUnreserved(c: char) {
    ('A' <= c <= 'Z') || ('a' <= c <= 'z') || ('0' <= c <= '9') || c in "-_.!~*'()"
  }

  predicate IsHexDigit(c: char) {
    ('0' <= c <= '9') || ('A' <= c <= 'F') || ('a' <= c <= 'f')
  }

  function HexDigit(d: int): (c: char)
    requires 0 <= d < 16
    ensures IsHexDigit(c)
  {
    if d < 10 then ('0' as int + d) as char else ('A' as int + d - 10) as char
  }

  function HexValue(c: char): (r: Option<int>)
    ensures r.Some? <==> IsHexDigit(c)
    ensures r.Some? ==> 0 <= r.value < 16
  {
    if '0' <= c <= '9' then Some(c as int - '0' as int)
    else if 'A' <= c <= 'F' then Some(c as int - 'A' as int + 10)
    else if 'a' <= c <= 'f' then Some(c as int - 'a' as int + 10)
    else None
  }

  lemma HexValueOfDigit(d: int)
    requires 0 <= d < 16
    ensures HexValue(HexDigit(d)) == Some(d)
  {
  }

  /** The UTF-8 octets of one code point (RFC 3629, section 3). */
  function Utf8(c: char): (bs: seq<Byte>)
    ensures 1 <= |bs| <= 4
  {
    var cp := c as int;
    if cp < 0x80 then [cp]
    else if cp < 0x800 then [0xC0 + cp / 0x40, 0x80 + cp % 0x40]
    else if cp < 0x1_0000 then [0xE0 + cp / 0x1000, 0x80 + (cp / 0x40) % 0x40, 0x80 + cp % 0x40]
    else [0xF0 + cp / 0x4_0000, 0x80 + (cp / 0x1000) % 0x40, 0x80 + (cp / 0x40) % 0x40, 0x80 + cp % 0x40]
  }

  /** The number of octets announced by a leading octet, or 0 for an octet that cannot lead. */
  function Utf8Length(b: Byte): (n: nat)
    ensures n <= 4
  {
    if b < 0x80 then 1
    else if 0xC0 <= b < 0xE0 then 2
    else if 0xE0 <= b < 0xF0 then 3
    else if 0xF0 <= b < 0xF8 then 4
    else 0
  }

  predicate IsContinuation(b: Byte) {
    0x80 <= b < 0xC0
  }

  /** A code point that is a Unicode scalar value, i.e. a Dafny `char`. */
  predicate IsScalar(cp: int) {
    (0 <= cp < 0xD800) || (0xE000 <= cp < 0x11_0000)
  }

  /**
   * The code point encoded by a complete octet sequence, refusing what
   * decodeURIComponent refuses: a bad leading or continuation octet, an
   * over-long form, a surrogate and a value beyond U+10FFFF.
   */
  function Utf8Decode(bs: seq<Byte>): (r: Option<char>)
    requires 1 <= |bs| <= 4
  {
    if Utf8Length(bs[0]) != |bs| then None
    else if exists i :: 1 <= i < |bs| && !IsContinuation(bs[i]) then None
    else
      var cp := CodePoint(bs);
      var least: int := if |bs| == 1 then 0 else if |bs| == 2 then 0x80 else if |bs| == 3 then 0x800 else 0x1_0000;
      if least <= cp && IsScalar(cp) then Some(cp as char) else None
  }

  /** The code point carried by the payload bits of an octet sequence. */
  function CodePoint(bs: seq<Byte>): int
    requires 1 <= |bs| <= 4
  {
    var b := seq(|bs|, i requires 0 <= i < |bs| => bs[i] as int);
    if |b| == 1 then b[0]
    else if |b| == 2 then (b[0] - 0xC0) * 0x40 + (b[1] - 0x80)
    else if |b| == 3 then (b[0] - 0xE0) * 0x1000 + (b[1] - 0x80) * 0x40 + (b[2] - 0x80)
    else (b[0] - 0xF0) * 0x4_0000 + (b[1] - 0x80) * 0x1000 + (b[2] - 0x80) * 0x40 + (b[3] - 0x80)
  }

  lemma {:induction false} Utf8RoundTrip(c: char)
    ensures Utf8Length(Utf8(c)[0]) == |Utf8(c)|
    ensures forall i :: 1 <= i < |Utf8(c)| ==> IsContinuation(Utf8(c)[i])
    ensures Utf8Decode(Utf8(c)) == Some(c)
  {
    var cp := c as int;
    var bs := Utf8(c);
    if cp < 0x80 {
    } else if cp < 0x800 {
      assert CodePoint(bs) == cp;
    } else if cp < 0x1_0000 {
      Split3(cp);
    } else {
      Split4(cp);
    }
  }

  lemma Split3(cp: int)
    requires 0 <= cp
    ensures (cp / 0x1000) * 0x1000 + ((cp / 0x40) % 0x40) * 0x40 + cp % 0x40 == cp
  {
    var q := cp / 0x40;
    assert cp == q * 0x40 + cp % 0x40;
    assert q == (q / 0x40) * 0x40 + q % 0x40;
    assert q / 0x40 == cp / 0x1000;
  }

  lemma Split4(cp: int)
    requires 0 <= cp
    ensures (cp / 0x4_0000) * 0x4_0000 + ((cp / 0x1000) % 0x40) * 0x1000
            + ((cp / 0x40) % 0x40) * 0x40 + cp % 0x40 == cp
  {
    var q := cp / 0x40;
    Split3(q);
    assert q / 0x1000 == cp / 0x4_0000;
    assert (q / 0x40) == cp / 0x1000;
    assert cp == q * 0x40 + cp % 0x40;
  }

  /** One octet as `%` and two upper-case hexadecimal digits. */
  function PercentByte(b: Byte): (s: string)
    ensures |s| == 3 && s[0] == '%' && IsHexDigit(s[1]) && IsHexDigit(s[2])
  {
    ['%', HexDigit(b / 16), HexDigit(b % 16)]
  }

  function PercentBytes(bs: seq<Byte>): (s: string)
    ensures |s| == 3 * |bs|
  {
    if bs == [] then [] else PercentByte(bs[0]) + PercentBytes(bs[1..])
  }

  function EncodeChar(c: char): string {
    if IsUnreserved(c) then [c] else PercentBytes(Utf8(c))
  }

  /** encodeURIComponent restricted to strings of scalar values. */
  function Encode(s: string): string {
    if s == [] then [] else EncodeChar(s[0]) + Encode(s[1..])
  }

  /** What may appear in an encoded string: unreserved characters, `%` and hexadecimal digits. */
  predicate IsEncodedChar(c: char) {
    IsUnreserved(c) || c == '%' || IsHexDigit(c)
  }

  predicate AllEncoded(s: string) {
    forall i :: 0 <= i < |s| ==> IsEncodedChar(s[i])
  }

  lemma AllEncodedConcat(a: string, b: string)
    requires AllEncoded(a) && AllEncoded(b)
    ensures AllEncoded(a + b)
  {
    forall i | 0 <= i < |a + b| ensures IsEncodedChar((a + b)[i]) {
      if i >= |a| { assert (a + b)[i] == b[i - |a|]; }
    }
  }

  lemma {:induction false} PercentBytesChars(bs: seq<Byte>)
    ensures AllEncoded(PercentBytes(bs))
  {
    if bs != [] {
      PercentBytesChars(bs[1..]);
      AllEncodedConcat(PercentByte(bs[0]), PercentBytes(bs[1..]));
    }
  }

  lemma EncodeCharChars(c: char)
    ensures AllEncoded(EncodeChar(c))
  {
    if !IsUnreserved(c) { PercentBytesChars(Utf8(c)); }
  }

  /** Neither `&` nor `=` is an encoded character. */
  lemma NoSeparators(s: string)
    requires AllEncoded(s)
    ensures '&' !in s && '=' !in s
  {
    assert !IsEncodedChar('&') && !IsEncodedChar('=');
  }

  /** The output of Encode uses only unreserved characters, `%` and hex digits, so never `&` or `=`. */
  lemma {:induction false} EncodeChars(s: string)
    ensures AllEncoded(Encode(s))
    ensures '&' !in Encode(s) && '=' !in Encode(s)
  {
    if s != [] {
      EncodeChars(s[1..]);
      EncodeCharChars(s[0]);
      AllEncodedConcat(EncodeChar(s[0]), Encode(s[1..]));
    }
    NoSeparators(Encode(s));
  }

  /** The octet written as `%XY` at position i of s, if there is one. */
  function EscapedByte(s: string, i: nat): (r: Option<Byte>)
  {
    if i + 3 <= |s| && s[i] == '%' && HexValue(s[i + 1]).Some? && HexValue(s[i + 2]).Some?
    then Some(HexValue(s[i + 1]).value * 16 + HexValue(s[i + 2]).value)
    else None
  }

  /** The n octets escaped consecutively from position i of s. */
  function EscapedBytes(s: string, i: nat, n: nat): (r: Option<seq<Byte>>)
    ensures r.Some? ==> |r.value| == n
    decreases n
  {
    if n == 0 then Some([])
    else match EscapedByte(s, i)
      case None => None
      case Some(b) =>
        match EscapedBytes(s, i + 3, n - 1)
        case None => None
        case Some(rest) => Some([b] + rest)
  }

  /**
   * The character written by the escape sequence that starts s, and the
   * number of characters it takes.
   */
  function DecodeEscape(s: string): (r: Option<(char, nat)>)
    ensures r.Some? ==> 3 <= r.value.1 <= |s|
  {
    match EscapedByte(s, 0)
    case None => None
    case Some(lead) =>
      var n := Utf8Length(lead);
      if n == 0 || |s| < 3 * n then None
      else match EscapedBytes(s, 0, n)
        case None => None
        case Some(bs) =>
          match Utf8Decode(bs)
          case None => None
          case Some(c) => Some((c, 3 * n))
  }

  /** decodeURIComponent: None where it throws a URIError. */
  function Decode(s: string): (r: Option<string>)
    decreases |s|
  {
    if s == [] then Some([])
    else if s[0] != '%' then
      match Decode(s[1..])
      case None => None
      case Some(t) => Some([s[0]] + t)
    else
      match DecodeEscape(s)
      case None => None
      case Some(step) =>
        match Decode(s[step.1..])
        case None => None
        case Some(t) => Some([step.0] + t)
  }

  /** `%XY` reads back as the octet it was written from. */
  lemma EscapedByteOf(b: Byte, tail: string)
    ensures EscapedByte(PercentByte(b) + tail, 0) == Some(b)
  {
    var s := PercentByte(b) + tail;
    assert s[0] == '%' && s[1] == HexDigit(b / 16) && s[2] == HexDigit(b % 16);
    HexValueOfDigit(b / 16);
    HexValueOfDigit(b % 16);
  }

  lemma {:induction false} EscapedBytesOf(bs: seq<Byte>, rest: string)
    ensures EscapedBytes(PercentBytes(bs) + rest, 0, |bs|) == Some(bs)
  {
    if bs != [] {
      var s := PercentBytes(bs) + rest;
      var tail := PercentBytes(bs[1..]) + rest;
      assert s == PercentByte(bs[0]) + tail;
      EscapedByteOf(bs[0], tail);
      EscapedBytesOf(bs[1..], rest);
      EscapedBytesShift(PercentByte(bs[0]), tail, 0, |bs| - 1);
      assert bs == [bs[0]] + bs[1..];
    }
  }

  /** Reading escapes past a prefix is reading them in what follows it. */
  lemma {:induction false} EscapedBytesShift(p: string, t: string, i: nat, n: nat)
    ensures EscapedBytes(p + t, |p| + i, n) == EscapedBytes(t, i, n)
    decreases n
  {
    if n > 0 {
      var s := p + t;
      if i + 3 <= |t| {
        assert s[|p| + i] == t[i] && s[|p| + i + 1] == t[i + 1] && s[|p| + i + 2] == t[i + 2];
      }
      assert EscapedByte(s, |p| + i) == EscapedByte(t, i);
      EscapedBytesShift(p, t, i + 3, n - 1);
    }
  }

  lemma DecodeEscapeOf(c: char, rest: string)
    requires !IsUnreserved(c)
    ensures DecodeEscape(PercentBytes(Utf8(c)) + rest) == Some((c, 3 * |Utf8(c)|))
  {
    var bs := Utf8(c);
    var s := PercentBytes(bs) + rest;
    Utf8RoundTrip(c);
    EscapedBytesOf(bs, rest);
    EscapedBytesOf([bs[0]], PercentBytes(bs[1..]) + rest);
    assert PercentBytes(bs) == PercentBytes([bs[0]]) + PercentBytes(bs[1..]);
    assert EscapedByte(s, 0) == Some(bs[0]);
  }

  lemma {:induction false} DecodeEncodeChar(c: char, rest: string)
    ensures Decode(EncodeChar(c) + rest) == match Decode(rest) case None => None case Some(t) => Some([c] + t)
  {
    var s := EncodeChar(c) + rest;
    if IsUnreserved(c) {
      assert s[0] == c && s[1..] == rest;
    } else {
      DecodeEscapeOf(c, rest);
      assert s[0] == '%';
      assert s[3 * |Utf8(c)|..] == rest;
    }
  }

  /** Decoding undoes encoding: decodeURIComponent(encodeURIComponent(s)) == s. */
  lemma {:induction false} DecodeEncode(s: string)
    ensures Decode(Encode(s)) == Some(s)
  {
    if s != [] {
      DecodeEncode(s[1..]);
      DecodeEncodeChar(s[0], Encode(s[1..]));
      assert [s[0]] + s[1..] == s;
    }
  }
}
