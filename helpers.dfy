/**
 * The string helpers of the widget's utility file: building a query string
 * from a parameter object, capitalising a word, and the formatting half of
 * the random four-digit id.
 */
module Helpers {
  import opened Wrappers
  import opened JsText
  import UriComponent

  /**
   * An integral number that String() prints digit for digit: every integer of
   * magnitude at most 2^53 is a double, and its shortest round-trip decimal
   * form is its exact decimal numeral.
   */
  type ExactInt = n: int | -0x20_0000_0000_0000 <= n <= 0x20_0000_0000_0000

  /** A parameter value: a string, a number or a boolean. Numbers are integers of magnitude at most 2^53 here. */
  datatype ParamValue = Str(s: string) | Num(n: ExactInt) | Bool(b: bool)

  /** A parameter object as its (key, value) entries in Object.keys order. */
  type Params = seq<(string, ParamValue)>

  /** String(value) */
  function ValueToString(v: ParamValue): string {
    match v
    case Str(s) => s
    case Num(n) => if n < 0 then "-" + NatToString(-n) else NatToString(n)
    case Bool(b) => if b then "true" else "false"
  }

  /** One `key=value` part of the query string, both sides escaped. */
  function Segment(key: string, value: ParamValue): string {
    UriComponent.Encode(key) + "=" + UriComponent.Encode(ValueToString(value))
  }

  /** The parts of the query string, one per entry, in entry order. */
  function Segments(ps: Params): (parts: seq<string>)
    ensures |parts| == |ps|
  {
    if ps == [] then [] else Segments(ps[..|ps| - 1]) + [Segment(ps[|ps| - 1].0, ps[|ps| - 1].1)]
  }

  /** The entries with every value turned into its string form, as a decoder sees them. */
  function Stringified(ps: Params): (kvs: seq<(string, string)>)
    ensures |kvs| == |ps|
  {
    if ps == [] then [] else Stringified(ps[..|ps| - 1]) + [(ps[|ps| - 1].0, ValueToString(ps[|ps| - 1].1))]
  }

  /** Reading one `key=value` part back: exactly one `=`, and both sides decode. */
  function ParsePair(segment: string): Option<(string, string)> {
    var kv := Split(segment, '=');
    if |kv| != 2 then None
    else match (UriComponent.Decode(kv[0]), UriComponent.Decode(kv[1]))
      case (Some(k), Some(v)) => Some((k, v))
      case _ => None
  }

  function ParsePairs(segments: seq<string>): (r: Option<seq<(string, string)>>)
    ensures r.Some? ==> |r.value| == |segments|
  {
    if segments == [] then Some([])
    else match (ParsePairs(segments[..|segments| - 1]), ParsePair(segments[|segments| - 1]))
      case (Some(prefix), Some(kv)) => Some(prefix + [kv])
      case _ => None
  }

  /** Reading a query string back into its decoded (key, value) pairs. */
  function ParseQuery(query: string): Option<seq<(string, string)>> {
    if query == [] then Some([]) else ParsePairs(Split(query, '&'))
  }

  /**
   * Each part holds no `&` and exactly one `=`, with the escaped key before it
   * and the escaped value after it, and reads back as the key and String(value).
   */
  lemma SegmentShape(key: string, value: ParamValue)
    ensures '&' !in Segment(key, value)
    ensures Split(Segment(key, value), '=') == [UriComponent.Encode(key), UriComponent.Encode(ValueToString(value))]
    ensures ParsePair(Segment(key, value)) == Some((key, ValueToString(value)))
  {
    var ek, ev := UriComponent.Encode(key), UriComponent.Encode(ValueToString(value));
    UriComponent.EncodeChars(key);
    UriComponent.EncodeChars(ValueToString(value));
    assert Segment(key, value) == Join([ek, ev], '=');
    SplitJoin([ek, ev], '=');
    UriComponent.DecodeEncode(key);
    UriComponent.DecodeEncode(ValueToString(value));
  }

  lemma {:induction false} ParseSegments(ps: Params)
    ensures forall i :: 0 <= i < |Segments(ps)| ==> '&' !in Segments(ps)[i]
    ensures ParsePairs(Segments(ps)) == Some(Stringified(ps))
  {
    if ps != [] {
      var init, last := ps[..|ps| - 1], ps[|ps| - 1];
      ParseSegments(init);
      SegmentShape(last.0, last.1);
      var segs := Segments(ps);
      assert segs[..|segs| - 1] == Segments(init);
    }
  }

  /**
   * Decoding the query string gives back every key and String(value), in key
   * order; in particular it has one part per key.
   */
  lemma QueryRoundTrip(ps: Params)
    ensures ParseQuery(Join(Segments(ps), '&')) == Some(Stringified(ps))
    ensures Join(Segments(ps), '&') == [] <==> ps == []
  {
    ParseSegments(ps);
    if ps != [] {
      var segs := Segments(ps);
      SplitJoin(segs, '&');
      SegmentShape(ps[0].0, ps[0].1);
      assert segs[0] == Segment(ps[0].0, ps[0].1) by { SegmentsFirst(ps); }
    }
  }

  lemma {:induction false} SegmentsFirst(ps: Params)
    requires ps != []
    ensures Segments(ps)[0] == Segment(ps[0].0, ps[0].1)
  {
    if |ps| > 1 {
      SegmentsFirst(ps[..|ps| - 1]);
    }
  }

  /**
   * insertParams: escape every key and String(value), push `key=value` for each
   * key in turn, and join the parts with `&`.
   */
  method InsertParams(params: Params) returns (r: string)
    ensures r == Join(Segments(params), '&')
    ensures r == [] <==> params == []
    ensures ParseQuery(r) == Some(Stringified(params))
  {
    var str: seq<string> := [];
    var i := 0;
    while i < |params|
      invariant 0 <= i <= |params|
      invariant str == Segments(params[..i])
    {
      var (key, currentParam) := params[i];
      assert params[..i + 1][..i] == params[..i];
      str := str + [UriComponent.Encode(key) + "=" + UriComponent.Encode(ValueToString(currentParam))];
      i := i + 1;
    }
    assert params[..i] == params;
    r := Join(str, '&');
    QueryRoundTrip(params);
  }

  /** String.prototype.toUpperCase on one character, for the ASCII letters. */
  function ToUpperAscii(c: char): (u: char)
    ensures !('a' <= u <= 'z')
    ensures ('a' <= c <= 'z') == (u != c)
    ensures 'a' <= c <= 'z' ==> u as int == c as int - 32
  {
    if 'a' <= c <= 'z' then (c as int - 32) as char else c
  }

  /**
   * capitalize: "" for a missing or empty string, otherwise the first
   * character upper-cased followed by the rest unchanged.
   */
  function Capitalize(s: Option<string>): (r: string)
    ensures r == [] <==> (s == None || s == Some([]))
    ensures s.Some? ==> |r| == |s.value|
    ensures s.Some? && s.value != [] ==> r[0] == ToUpperAscii(s.value[0]) && r[1..] == s.value[1..]
  {
    if s == None || s.value == [] then [] else [ToUpperAscii(s.value[0])] + s.value[1..]
  }

  /** Capitalising twice is capitalising once. */
  lemma CapitalizeIdempotent(s: Option<string>)
    ensures Capitalize(Some(Capitalize(s))) == Capitalize(s)
  {
  }

  /** randomNumber.toString().padStart(4, '0') */
  function FormatId(n: nat): string {
    PadStart(NatToString(n), 4, '0')
  }

  /**
   * The padded id is decimal digits only, reads back as n, has the digits of
   * n at its end and only '0' in front of them, and is exactly four long for
   * every n up to 9999.
   */
  lemma FormatIdSpec(n: nat)
    ensures AllDigits(FormatId(n)) && DigitsValue(FormatId(n)) == n
    ensures n <= 9999 ==> |FormatId(n)| == 4
    ensures |FormatId(n)| >= 4
    ensures FormatId(n)[|FormatId(n)| - |NatToString(n)|..] == NatToString(n)
    ensures forall i :: 0 <= i < |FormatId(n)| - |NatToString(n)| ==> FormatId(n)[i] == '0'
  {
    var digits := NatToString(n);
    DigitsValueOfNat(n);
    PadStartShape(digits, 4, '0');
    var k := if |digits| >= 4 then 0 else 4 - |digits|;
    DigitsValueLeadingZeros(k, digits);
    assert FormatId(n) == Repeat('0', k) + digits;
    if n <= 9999 {
      ShortNumeral(n);
    }
  }

  /** A number up to 9999 has at most four decimal digits. */
  lemma ShortNumeral(n: nat)
    requires n <= 9999
    ensures |NatToString(n)| <= 4
  {
    assert Pow10(4) == 10000 by {
      assert Pow10(1) == 10 && Pow10(2) == 100 && Pow10(3) == 1000;
    }
    NatToStringLength(n, 4);
  }

  /**
   * generateRandomId with the random number Math.floor(Math.random() * 10000),
   * a whole number from 0 to 9999, as a parameter: a four-digit decimal string
   * reading back as that number.
   */
  function GenerateRandomId(randomNumber: nat): (id: string)
    requires randomNumber <= 9999
    ensures |id| == 4 && AllDigits(id)
    ensures DigitsValue(id) == randomNumber
  {
    FormatIdSpec(randomNumber);
    FormatId(randomNumber)
  }
}
