/**
 * encodeURIComponent and decodeURIComponent of ECMA-262: percent-encoding in
 * the sense of section 2.1 of RFC 3986, applied to the UTF-8 bytes (RFC 3629)
 * of every code point outside the unreserved set A-Z a-z 0-9 - _ . ! ~ * ' ( ).
 * The script only encodes; the decoder is the inverse the language defines and
 * serves here to show that no two texts share an encoding.
 */
module UriComponent {
  import opened Wrappers
  import opened JsText

  type Byte = b: int | 0 <= b < 256

  /** The code points encodeURIComponent leaves as they are. */
  predicate IsUnreserved(c: char) {
    'A' <= c <= 'Z' || 'a' <= c <= 'z' || '0' <= c <= '9'
    || c == '-' || c == '_' || c == '.' || c == '!' || c == '~' || c == '*'
    || c == '\'' || c == '(' || c == ')'
  }

  predicate AllUnreserved(s: string) {
    forall i :: 0 <= i < |s| ==> IsUnreserved(s[i])
  }

  /** The characters an encoding consists of: unreserved ones and '%'. */
  predicate IsEncodedText(s: string) {
    forall i :: 0 <= i < |s| ==> IsUnreserved(s[i]) || s[i] == '%'
  }

  /** An upper-case hexadecimal digit, as the encoder writes it. */
  function HexUpper(d: int): (c: char)
    requires 0 <= d < 16
    ensures IsHexDigit(c) && HexDigitValue(c) == d && IsUnreserved(c)
  {
    if d < 10 then ('0' as int + d) as char else ('A' as int + d - 10) as char
  }

  /**
   * The UTF-8 encoding of a code point (RFC 3629, section 3): one byte below
   * U+0080, two below U+0800, three below U+10000 and four above.
   */
  function Utf8(c: char): (bs: seq<Byte>)
    ensures 1 <= |bs| <= 4
    ensures (|bs| == 1) == (c as int < 0x80)
  {
    var v := c as int;
    if v < 0x80 then [v]
    else if v < 0x800 then [0xC0 + v / 64, 0x80 + v % 64]
    else if v < 0x10000 then
      var t := v % 4096;
      [0xE0 + v / 4096, 0x80 + t / 64, 0x80 + t % 64]
    else
      var t := v % 262144;
      var u := t % 4096;
      [0xF0 + v / 262144, 0x80 + t / 4096, 0x80 + u / 64, 0x80 + u % 64]
  }

  /** "%XY" for one byte. */
  function PercentByte(b: Byte): (e: string)
    ensures |e| == 3 && e[0] == '%' && IsEncodedText(e)
  {
    ['%', HexUpper(b / 16), HexUpper(b % 16)]
  }

  function PercentBytes(bs: seq<Byte>): (e: string)
    ensures |e| == 3 * |bs| && IsEncodedText(e)
  {
    if bs == [] then [] else PercentByte(bs[0]) + PercentBytes(bs[1..])
  }

  /** The encoding of one code point: itself when unreserved, else its escaped UTF-8 bytes. */
  function EncodeChar(c: char): (e: string)
    ensures IsEncodedText(e) && 1 <= |e| <= 12
    ensures IsUnreserved(c) <==> e == [c]
    ensures !IsUnreserved(c) ==> |e| == 3 * |Utf8(c)| && e[0] == '%'
  {
    if IsUnreserved(c) then [c] else PercentBytes(Utf8(c))
  }

  /** encodeURIComponent. */
  function Encode(s: string): (e: string)
    ensures IsEncodedText(e) && |s| <= |e|
    ensures AllUnreserved(s) ==> e == s
  {
    if s == [] then [] else EncodeChar(s[0]) + Encode(s[1..])
  }

  /** The byte "%XY" at position i denotes (either case of hex digit), if there is one. */
  function ReadByte(s: string, i: nat): (r: Option<Byte>)
    ensures r.Some? ==> i + 3 <= |s| && s[i] == '%'
  {
    if i + 3 <= |s| && s[i] == '%' && IsHexDigit(s[i + 1]) && IsHexDigit(s[i + 2]) then
      Some(16 * HexDigitValue(s[i + 1]) + HexDigitValue(s[i + 2]))
    else None
  }

  /** The six payload bits of an escaped continuation byte 10xxxxxx at position i. */
  function ReadTail(s: string, i: nat): (r: Option<int>)
    ensures r.Some? ==> i + 3 <= |s| && 0 <= r.value < 64
  {
    match ReadByte(s, i)
    case None => None
    case Some(b) => if 0x80 <= b < 0xC0 then Some(b - 0x80) else None
  }

  /**
   * The code point an escape sequence at the start of s denotes and the
   * number of characters it takes, or None where decodeURIComponent throws a
   * URIError: a malformed or truncated escape, a stray continuation byte, a
   * lead byte above 0xF7, an overlong form, a surrogate or a value above
   * U+10FFFF. Every error is the same URIError, so the order of the checks
   * does not show.
   */
  function DecodeEscape(s: string): (r: Option<(char, nat)>)
    ensures r.Some? ==> 3 <= r.value.1 <= |s|
  {
    match ReadByte(s, 0)
    case None => None
    case Some(b0) =>
      if b0 < 0x80 then Some((b0 as char, 3))
      else if b0 < 0xC0 || 0xF8 <= b0 then None
      else if b0 < 0xE0 then
        match ReadTail(s, 3)
        case None => None
        case Some(t1) =>
          var v := (b0 - 0xC0) * 64 + t1;
          if v < 0x80 then None else Some((v as char, 6))
      else if b0 < 0xF0 then
        match ReadTail(s, 3)
        case None => None
        case Some(t1) =>
          match ReadTail(s, 6)
          case None => None
          case Some(t2) =>
            var v := (b0 - 0xE0) * 4096 + t1 * 64 + t2;
            if v < 0x800 || (0xD800 <= v < 0xE000) then None else Some((v as char, 9))
      else
        match ReadTail(s, 3)
        case None => None
        case Some(t1) =>
          match ReadTail(s, 6)
          case None => None
          case Some(t2) =>
            match ReadTail(s, 9)
            case None => None
            case Some(t3) =>
              var v := (b0 - 0xF0) * 262144 + t1 * 4096 + t2 * 64 + t3;
              if v < 0x10000 || 0x10FFFF < v then None else Some((v as char, 12))
  }

  /** One decoding step: a literal character or an escape sequence. */
  function DecodeStep(s: string): (r: Option<(char, nat)>)
    requires s != []
    ensures r.Some? ==> 1 <= r.value.1 <= |s|
  {
    if s[0] != '%' then Some((s[0], 1)) else DecodeEscape(s)
  }

  /** decodeURIComponent, None standing for the URIError. */
  function Decode(s: string): (r: Option<string>)
    decreases |s|
  {
    if s == [] then Some([])
    else
      match DecodeStep(s)
      case None => None
      case Some((c, n)) =>
        match Decode(s[n..])
        case None => None
        case Some(t) => Some([c] + t)
  }

  /** Decoding undoes encoding, for every string. */
  lemma {:induction false} DecodeEncode(s: string)
    ensures Decode(Encode(s)) == Some(s)
    decreases |s|
  {
    if s != [] {
      DecodeEncode(s[1..]);
      DecodeCons(s[0], Encode(s[1..]), s[1..]);
      assert [s[0]] + s[1..] == s;
    }
  }

  /** An encoded character in front of decodable text decodes to that character in front. */
  lemma {:induction false} DecodeCons(c: char, rest: string, t: string)
    requires Decode(rest) == Some(t)
    ensures Decode(EncodeChar(c) + rest) == Some([c] + t)
  {
    var e := EncodeChar(c);
    var x := e + rest;
    CharStep(c, rest);
    assert x[|e|..] == rest;
    DecodeFirst(x, c, |e|, t);
  }

  /** One decoding step followed by a successful decoding of the remainder. */
  lemma {:induction false} DecodeFirst(x: string, c: char, n: nat, t: string)
    requires x != [] && DecodeStep(x) == Some((c, n)) && n <= |x| && Decode(x[n..]) == Some(t)
    ensures Decode(x) == Some([c] + t)
  {
  }

  /** Hence encodeURIComponent is injective. */
  lemma {:induction false} EncodeInjective(s: string, t: string)
    requires Encode(s) == Encode(t)
    ensures s == t
  {
    DecodeEncode(s);
    DecodeEncode(t);
  }

  /** The first decoding step over an encoded character reads back that character. */
  lemma {:induction false} CharStep(c: char, rest: string)
    ensures DecodeStep(EncodeChar(c) + rest) == Some((c, |EncodeChar(c)|))
  {
    if !IsUnreserved(c) {
      EscapeRoundTrip(c, EncodeChar(c) + rest);
    }
  }

  lemma {:induction false} EscapeRoundTrip(c: char, s: string)
    requires !IsUnreserved(c)
    requires |EncodeChar(c)| <= |s| && s[..|EncodeChar(c)|] == EncodeChar(c)
    ensures DecodeEscape(s) == Some((c, |EncodeChar(c)|))
  {
    ReadEscapedBytes(Utf8(c), s);
    assert EscapesOf(s, c);
    var v := c as int;
    if v < 0x80 {
      assert Utf8(c) == [v];
      assert ReadByte(s, 0) == Some(v);
    } else if v < 0x800 {
      TwoByteEscape(s, c);
    } else if v < 0x10000 {
      ThreeByteEscape(s, c);
    } else {
      FourByteEscape(s, c);
    }
  }

  /** Text that starts with the escapes of some bytes reads back as those bytes, three characters each. */
  lemma {:induction false} ReadEscapedBytes(bs: seq<Byte>, s: string)
    requires |PercentBytes(bs)| <= |s| && s[..|PercentBytes(bs)|] == PercentBytes(bs)
    ensures forall k :: 0 <= k < |bs| ==> ReadByte(s, 3 * k) == Some(bs[k])
  {
    var e := PercentBytes(bs);
    forall k | 0 <= k < |bs|
      ensures ReadByte(s, 3 * k) == Some(bs[k])
    {
      PercentBytesAt(bs, k);
      assert s[3 * k..3 * k + 3] == e[3 * k..3 * k + 3];
      ReadPercentByte(s, 3 * k, bs[k]);
    }
  }

  /** The escape sequences of a code point's UTF-8 bytes, read at the start of s. */
  predicate EscapesOf(s: string, c: char) {
    forall k :: 0 <= k < |Utf8(c)| ==> ReadByte(s, 3 * k) == Some(Utf8(c)[k])
  }

  lemma {:induction false} TwoByteEscape(s: string, c: char)
    requires 0x80 <= c as int < 0x800
    requires EscapesOf(s, c)
    ensures DecodeEscape(s) == Some((c, 6))
  {
    var v := c as int;
    assert Utf8(c) == [0xC0 + v / 64, 0x80 + v % 64];
    assert ReadByte(s, 3 * 0) == Some(Utf8(c)[0]);
    assert ReadByte(s, 3 * 1) == Some(Utf8(c)[1]);
  }

  lemma {:induction false} ThreeByteEscape(s: string, c: char)
    requires 0x800 <= c as int < 0x10000
    requires EscapesOf(s, c)
    ensures DecodeEscape(s) == Some((c, 9))
  {
    var v := c as int;
    var t := v % 4096;
    assert Utf8(c) == [0xE0 + v / 4096, 0x80 + t / 64, 0x80 + t % 64];
    assert ReadByte(s, 3 * 0) == Some(Utf8(c)[0]);
    assert ReadByte(s, 3 * 1) == Some(Utf8(c)[1]);
    assert ReadByte(s, 3 * 2) == Some(Utf8(c)[2]);
  }

  lemma {:induction false} FourByteEscape(s: string, c: char)
    requires 0x10000 <= c as int
    requires EscapesOf(s, c)
    ensures DecodeEscape(s) == Some((c, 12))
  {
    var v := c as int;
    var t := v % 262144;
    var u := t % 4096;
    assert Utf8(c) == [0xF0 + v / 262144, 0x80 + t / 4096, 0x80 + u / 64, 0x80 + u % 64];
    assert ReadByte(s, 3 * 0) == Some(Utf8(c)[0]);
    assert ReadByte(s, 3 * 1) == Some(Utf8(c)[1]);
    assert ReadByte(s, 3 * 2) == Some(Utf8(c)[2]);
    assert ReadByte(s, 3 * 3) == Some(Utf8(c)[3]);
  }

  /** The k-th escape of PercentBytes(bs) is that of bs[k]. */
  lemma {:induction false} PercentBytesAt(bs: seq<Byte>, k: nat)
    requires k < |bs|
    ensures PercentBytes(bs)[3 * k..3 * k + 3] == PercentByte(bs[k])
    decreases k
  {
    if k > 0 {
      PercentBytesAt(bs[1..], k - 1);
      assert PercentBytes(bs) == PercentByte(bs[0]) + PercentBytes(bs[1..]);
    }
  }

  lemma {:induction false} ReadPercentByte(s: string, i: nat, b: Byte)
    requires i + 3 <= |s| && s[i..i + 3] == PercentByte(b)
    ensures ReadByte(s, i) == Some(b)
  {
    assert s[i] == '%' && s[i + 1] == HexUpper(b / 16) && s[i + 2] == HexUpper(b % 16);
  }
}
