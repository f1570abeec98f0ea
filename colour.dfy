/**
 * The two colour readers of the script: parseRgb, which turns a computed CSS
 * colour (the rgb()/rgba() functional notation, or #rgb / #rrggbb) into three
 * channels, and hexToRgba, which turns a hex colour and an alpha string into
 * an rgba() string. Both are narrow subsets of CSS Color Module Level 3,
 * section 4.2.1, and neither clamps its channels.
 */
module Colour {
  import opened Wrappers
  import opened JsText

  /** A channel as the script holds it: an integer, or NaN where parseInt found no digit. */
  datatype Channel = Int(value: int) | NaN

  datatype Rgb = Rgb(r: Channel, g: Channel, b: Channel)

  /** The number of consecutive decimal digits of s from position i on (\d+ is greedy). */
  function DigitRun(s: string, i: nat): (n: nat)
    requires i <= |s|
    decreases |s| - i
    ensures i + n <= |s| && AllDigits(s[i..i + n])
    ensures i + n < |s| ==> !IsDigit(s[i + n])
  {
    if i < |s| && IsDigit(s[i]) then
      var n := 1 + DigitRun(s, i + 1);
      assert s[i..i + n] == [s[i]] + s[i + 1..i + n];
      n
    else 0
  }

  /** The number of consecutive white-space characters of s from position i on (\s* is greedy). */
  function SpaceRun(s: string, i: nat): (n: nat)
    requires i <= |s|
    decreases |s| - i
    ensures i + n <= |s| && AllSpace(s[i..i + n])
    ensures i + n < |s| ==> !IsSpace(s[i + n])
  {
    if i < |s| && IsSpace(s[i]) then
      var n := 1 + SpaceRun(s, i + 1);
      assert s[i..i + n] == [s[i]] + s[i + 1..i + n];
      n
    else 0
  }

  /** \d+ at position a: the number the digit run denotes and the position after it. */
  function ReadNumber(s: string, a: nat): (r: Option<(nat, nat)>)
    requires a <= |s|
    ensures r.Some? ==> a < r.value.1 <= |s|
  {
    var n := DigitRun(s, a);
    if n == 0 then None else Some((DecimalValue(s[a..a + n]), a + n))
  }

  /** ",\s*" at position e: the position after the comma and the white space that follows it. */
  function SkipSeparator(s: string, e: nat): (r: Option<nat>)
    requires e <= |s|
    ensures r.Some? ==> e < r.value <= |s|
  {
    if e < |s| && s[e] == ',' then Some(e + 1 + SpaceRun(s, e + 1)) else None
  }

  /**
   * The match of /rgba?\((\d+),\s*(\d+),\s*(\d+)/i that starts exactly at i,
   * as the three numbers its groups denote. The quantifiers have only one way
   * to succeed (a digit run cannot stop before a digit, white space cannot
   * stop before white space, and without the optional 'a' the '(' would have
   * to be that 'a'), so no backtracking needs to be modelled.
   */
  function MatchRgbAt(s: string, i: nat): Option<(nat, nat, nat)>
    requires i <= |s|
  {
    if !MatchesAtIgnoringCase(s, i, "rgb") then None
    else
      var open := if i + 3 < |s| && AsciiLower(s[i + 3]) == 'a' then i + 4 else i + 3;
      if open >= |s| || s[open] != '(' then None else Groups(s, open + 1)
  }

  /** (\d+),\s*(\d+),\s*(\d+) from position a. */
  function Groups(s: string, a: nat): Option<(nat, nat, nat)>
    requires a <= |s|
  {
    match ReadNumber(s, a)
    case None => None
    case Some((x, e)) =>
      match SkipSeparator(s, e)
      case None => None
      case Some(b) =>
        match LastGroups(s, b)
        case None => None
        case Some((y, z)) => Some((x, y, z))
  }

  /** (\d+),\s*(\d+) from position b. */
  function LastGroups(s: string, b: nat): Option<(nat, nat)>
    requires b <= |s|
  {
    match ReadNumber(s, b)
    case None => None
    case Some((y, e)) =>
      match SkipSeparator(s, e)
      case None => None
      case Some(c) =>
        match ReadNumber(s, c)
        case None => None
        case Some((z, _)) => Some((y, z))
  }

  /** String.prototype.match: the leftmost match at or after `from`. */
  function FirstRgbMatch(s: string, from: nat): (m: Option<(nat, nat, nat)>)
    requires from <= |s|
    decreases |s| - from
    ensures m.Some? ==> exists i :: from <= i <= |s| && MatchRgbAt(s, i) == m
    ensures m.None? <==> forall i :: from <= i <= |s| ==> MatchRgbAt(s, i).None?
  {
    if MatchRgbAt(s, from).Some? then MatchRgbAt(s, from)
    else if from == |s| then None
    else FirstRgbMatch(s, from + 1)
  }

  /** h.split('').map(c => c + c).join(''): every character written twice. */
  function DoubleEach(h: string): (r: string)
    ensures |r| == 2 * |h|
    ensures forall i :: 0 <= i < |h| ==> r[2 * i] == h[i] && r[2 * i + 1] == h[i]
  {
    if h == [] then [] else [h[0], h[0]] + DoubleEach(h[1..])
  }

  function ToChannel(n: Option<int>): Channel {
    match n
    case Some(v) => Int(v)
    case None => NaN
  }

  /**
   * parseRgb: an empty string gives None; otherwise the leftmost rgb()/rgba()
   * match wins; otherwise a trimmed string that starts with '#' and has three
   * or six characters after it is read two characters per channel with
   * parseInt(…, 16), three characters being doubled first; everything else
   * gives None.
   */
  function ParseRgb(colour: string): (r: Option<Rgb>)
    ensures colour == [] ==> r.None?
    ensures FirstRgbMatch(colour, 0).Some? && colour != [] ==>
      var m := FirstRgbMatch(colour, 0).value;
      r == Some(Rgb(Int(m.0), Int(m.1), Int(m.2)))
  {
    if colour == [] then None
    else
      match FirstRgbMatch(colour, 0)
      case Some((x, y, z)) => Some(Rgb(Int(x), Int(y), Int(z)))
      case None => ParseHashColour(Trim(colour))
  }

  /**
   * The hex fallback of parseRgb on the trimmed colour: '#' and three or six
   * characters, read two characters per channel with parseInt(…, 16) after
   * three characters are doubled; everything else gives None.
   */
  function ParseHashColour(hex: string): (r: Option<Rgb>)
    ensures r.Some? ==> hex != [] && hex[0] == '#' && (|hex| == 4 || |hex| == 7)
  {
    if hex != [] && hex[0] == '#' then
      var h := hex[1..];
      var digits := if |h| == 3 then DoubleEach(h) else h;
      if |digits| == 6 then
        Some(Rgb(ToChannel(ParseIntHex(digits[0..2])), ToChannel(ParseIntHex(digits[2..4])),
                 ToChannel(ParseIntHex(digits[4..6]))))
      else None
    else None
  }

  /** A string with no letter r or R has no rgb()/rgba() match. */
  lemma {:induction false} NoRgbMatchWithoutR(s: string)
    requires forall i :: 0 <= i < |s| ==> AsciiLower(s[i]) != 'r'
    ensures FirstRgbMatch(s, 0).None?
  {
    forall i | 0 <= i <= |s| ensures MatchRgbAt(s, i).None? {
      assert !MatchesAtIgnoringCase(s, i, "rgb") by {
        if i + 3 <= |s| {
          assert AsciiLower(s[i + 0]) != AsciiLower("rgb"[0]);
        }
      }
    }
  }

  lemma {:induction false} HexDigitIsNotR(c: char)
    requires IsHexDigit(c)
    ensures AsciiLower(c) != 'r'
  {
  }

  /** '#' followed by hexadecimal digits: never read as rgb(), never trimmed, so read as hex. */
  lemma {:induction false} HashHexBasics(h: string)
    requires AllHexDigits(h)
    ensures ParseRgb("#" + h) == ParseHashColour("#" + h)
  {
    var s := "#" + h;
    forall i | 0 <= i < |s| ensures AsciiLower(s[i]) != 'r' {
      if i > 0 { assert s[i] == h[i - 1]; HexDigitIsNotR(h[i - 1]); }
    }
    NoRgbMatchWithoutR(s);
    TrimOfUnpadded(s);
  }

  lemma {:induction false} TrimOfUnpadded(s: string)
    requires s != [] && !IsSpace(s[0]) && !IsSpace(s[|s| - 1])
    ensures Trim(s) == s
  {
  }

  /** The byte two hexadecimal digits spell. */
  function Channel2(c: char, d: char): (v: int)
    requires IsHexDigit(c) && IsHexDigit(d)
    ensures 0 <= v < 256
  {
    16 * HexDigitValue(c) + HexDigitValue(d)
  }

  /** #rrggbb of hexadecimal digits: each channel is its pair of digits, and lies in 0..255. */
  lemma {:induction false} LongHexChannels(h: string)
    requires |h| == 6 && AllHexDigits(h)
    ensures ParseRgb("#" + h) ==
      Some(Rgb(Int(Channel2(h[0], h[1])), Int(Channel2(h[2], h[3])), Int(Channel2(h[4], h[5]))))
    ensures 0 <= Channel2(h[0], h[1]) < 256 && 0 <= Channel2(h[2], h[3]) < 256
    ensures 0 <= Channel2(h[4], h[5]) < 256
  {
    HashHexBasics(h);
    HexPairChannel(h, 0);
    HexPairChannel(h, 2);
    HexPairChannel(h, 4);
    var s := "#" + h;
    assert s[0] == '#' && s[1..] == h;
  }

  lemma {:induction false} HexPairChannel(h: string, i: nat)
    requires i + 2 <= |h| && AllHexDigits(h)
    ensures ToChannel(ParseIntHex(h[i..i + 2])) == Int(Channel2(h[i], h[i + 1]))
    ensures 0 <= Channel2(h[i], h[i + 1]) < 256
  {
    assert IsHexDigit(h[i]) && IsHexDigit(h[i + 1]);
    ParseIntHexOfSlice(h, i);
  }

  /** The hex fallback doubles three characters, so #rgb and #rrggbb meet. */
  lemma {:induction false} ShortHashIsLong(h: string)
    requires |h| == 3
    ensures ParseHashColour("#" + h) == ParseHashColour("#" + DoubleEach(h))
  {
    var s, t := "#" + h, "#" + DoubleEach(h);
    assert s[0] == '#' && s[1..] == h;
    assert t[0] == '#' && t[1..] == DoubleEach(h);
  }

  /**
   * #rgb of hexadecimal digits reads the same as #rrggbb: each channel is one
   * digit written twice, 17 times the digit.
   */
  lemma {:induction false} ShortHexIsDoubled(h: string)
    requires |h| == 3 && AllHexDigits(h)
    ensures ParseRgb("#" + h) == ParseRgb("#" + DoubleEach(h))
    ensures ParseRgb("#" + h) ==
      Some(Rgb(Int(17 * HexDigitValue(h[0])), Int(17 * HexDigitValue(h[1])), Int(17 * HexDigitValue(h[2]))))
  {
    ShortReadsAsLong(h);
    DoubledChannels(h);
  }

  lemma {:induction false} ShortReadsAsLong(h: string)
    requires |h| == 3 && AllHexDigits(h)
    ensures ParseRgb("#" + h) == ParseRgb("#" + DoubleEach(h))
  {
    DoubledDigits(h);
    HashHexBasics(h);
    HashHexBasics(DoubleEach(h));
    ShortHashIsLong(h);
  }

  lemma {:induction false} DoubledChannels(h: string)
    requires |h| == 3 && AllHexDigits(h)
    ensures ParseRgb("#" + DoubleEach(h)) ==
      Some(Rgb(Int(17 * HexDigitValue(h[0])), Int(17 * HexDigitValue(h[1])), Int(17 * HexDigitValue(h[2]))))
  {
    DoubledDigits(h);
    LongHexChannels(DoubleEach(h));
  }

  lemma {:induction false} DoubledDigits(h: string)
    requires |h| == 3 && AllHexDigits(h)
    ensures AllHexDigits(DoubleEach(h)) && |DoubleEach(h)| == 6
    ensures Channel2(DoubleEach(h)[0], DoubleEach(h)[1]) == 17 * HexDigitValue(h[0])
    ensures Channel2(DoubleEach(h)[2], DoubleEach(h)[3]) == 17 * HexDigitValue(h[1])
    ensures Channel2(DoubleEach(h)[4], DoubleEach(h)[5]) == 17 * HexDigitValue(h[2])
  {
    var long := DoubleEach(h);
    assert long[0] == h[0] && long[1] == h[0];
    assert long[2 * 1] == h[1] && long[2 * 1 + 1] == h[1];
    assert long[2 * 2] == h[2] && long[2 * 2 + 1] == h[2];
  }

  /** '#' with a run of hexadecimal digits of any length but three or six gives None. */
  lemma {:induction false} OtherHexLengthsFail(h: string)
    requires AllHexDigits(h) && |h| != 3 && |h| != 6
    ensures ParseRgb("#" + h) == None
  {
    HashHexBasics(h);
    assert ("#" + h)[1..] == h;
  }

  /** A string with no rgb()/rgba() match whose trimmed form does not start with '#' gives None. */
  lemma {:induction false} NeitherFormFails(s: string)
    requires FirstRgbMatch(s, 0).None?
    requires Trim(s) == [] || Trim(s)[0] != '#'
    ensures ParseRgb(s) == None
  {
  }

  /** The listing "rgb(" or "rgba(" + x + ", " + y + ", " + z, as template literals print it. */
  function RgbListing(head: string, x: nat, y: nat, z: nat): string {
    head + DecimalString(x) + ", " + DecimalString(y) + ", " + DecimalString(z)
  }

  lemma {:induction false} ReadNumberOf(s: string, a: nat, d: string)
    requires a + |d| <= |s| && s[a..a + |d|] == d && d != [] && AllDigits(d)
    requires a + |d| < |s| ==> !IsDigit(s[a + |d|])
    ensures ReadNumber(s, a) == Some((DecimalValue(d), a + |d|))
  {
    DigitRunOf(s, a, d);
  }

  lemma {:induction false} DigitRunOf(s: string, i: nat, d: string)
    requires i + |d| <= |s| && s[i..i + |d|] == d && AllDigits(d)
    requires i + |d| < |s| ==> !IsDigit(s[i + |d|])
    ensures DigitRun(s, i) == |d|
  {
  }

  lemma {:induction false} SkipSeparatorOf(s: string, e: nat)
    requires e + 2 < |s| && s[e] == ',' && s[e + 1] == ' ' && !IsSpace(s[e + 2])
    ensures SkipSeparator(s, e) == Some(e + 2)
  {
    assert SpaceRun(s, e + 2) == 0;
  }

  /** The opening of a listing: "rgb(" or "rgba(" is matched, and the first group starts after it. */
  lemma {:induction false} ListingHead(s: string, head: string)
    requires head == "rgb(" || head == "rgba("
    requires |head| < |s| && s[..|head|] == head
    ensures MatchesAtIgnoringCase(s, 0, "rgb")
    ensures (if 3 < |s| && AsciiLower(s[3]) == 'a' then 4 else 3) == |head| - 1
    ensures s[|head| - 1] == '('
  {
    assert s[0] == head[0] && s[1] == head[1] && s[2] == head[2] && s[3] == head[3];
    assert |head| == 5 ==> s[4] == head[4];
  }

  /**
   * The channels printed into an rgb()/rgba() listing are read back exactly,
   * whatever follows the last one as long as it is not a digit; nothing is
   * clamped to 0..255.
   */
  lemma {:induction false} ListingReadsBack(head: string, x: nat, y: nat, z: nat, rest: string)
    requires head == "rgb(" || head == "rgba("
    requires rest == [] || !IsDigit(rest[0])
    ensures ParseRgb(RgbListing(head, x, y, z) + rest) == Some(Rgb(Int(x), Int(y), Int(z)))
  {
    var dx, dy, dz := DecimalString(x), DecimalString(y), DecimalString(z);
    var s := RgbListing(head, x, y, z) + rest;
    assert s == head + dx + ", " + dy + ", " + dz + rest;
    LayoutMatches(s, head, dx, dy, dz, rest);
    DecimalRoundTrip(x);
    DecimalRoundTrip(y);
    DecimalRoundTrip(z);
    MatchAtStart(s);
  }

  /** A match at position 0 is the leftmost one, so parseRgb takes it. */
  lemma {:induction false} MatchAtStart(s: string)
    requires MatchRgbAt(s, 0).Some?
    ensures var m := MatchRgbAt(s, 0).value; ParseRgb(s) == Some(Rgb(Int(m.0), Int(m.1), Int(m.2)))
  {
    assert s != [];
  }

  lemma {:induction false} LayoutMatches(s: string, head: string, dx: string, dy: string, dz: string, rest: string)
    requires head == "rgb(" || head == "rgba("
    requires dx != [] && dy != [] && dz != [] && AllDigits(dx) && AllDigits(dy) && AllDigits(dz)
    requires rest == [] || !IsDigit(rest[0])
    requires s == head + dx + ", " + dy + ", " + dz + rest
    ensures MatchRgbAt(s, 0) == Some((DecimalValue(dx), DecimalValue(dy), DecimalValue(dz)))
  {
    ListingLayout(s, head, dx, dy, dz, rest);
    ListingHead(s, head);
    MatchOfPositions(s, |head|, dx, dy, dz);
  }

  /** Where the pieces of a listing sit in it. */
  lemma {:induction false} ListingLayout(s: string, head: string, dx: string, dy: string, dz: string, rest: string)
    requires rest == [] || !IsDigit(rest[0])
    requires s == head + dx + ", " + dy + ", " + dz + rest
    ensures var a, b, c := |head|, |head| + |dx| + 2, |head| + |dx| + |dy| + 4;
      && c + |dz| <= |s| && s[..a] == head
      && s[a..a + |dx|] == dx && s[a + |dx|] == ',' && s[a + |dx| + 1] == ' '
      && s[b..b + |dy|] == dy && s[b + |dy|] == ',' && s[b + |dy| + 1] == ' '
      && s[c..c + |dz|] == dz
      && (c + |dz| < |s| ==> s[c + |dz|] == rest[0])
  {
    var a := |head|;
    var b := a + |dx| + 2;
    var c := b + |dy| + 2;
    assert s[..a] == head;
    assert s[a..a + |dx|] == dx && s[a + |dx|] == ',' && s[a + |dx| + 1] == ' ';
    assert s[b..b + |dy|] == dy && s[b + |dy|] == ',' && s[b + |dy| + 1] == ' ';
    assert s[c..c + |dz|] == dz;
    assert c + |dz| < |s| ==> s[c + |dz|] == rest[0];
  }

  lemma {:induction false} MatchOfPositions(s: string, a: nat, dx: string, dy: string, dz: string)
    requires dx != [] && dy != [] && dz != [] && AllDigits(dx) && AllDigits(dy) && AllDigits(dz)
    requires a + |dx| + |dy| + |dz| + 4 <= |s|
    requires s[a..a + |dx|] == dx && s[a + |dx|] == ',' && s[a + |dx| + 1] == ' '
    requires s[a + |dx| + 2..a + |dx| + 2 + |dy|] == dy
    requires s[a + |dx| + 2 + |dy|] == ',' && s[a + |dx| + 2 + |dy| + 1] == ' '
    requires s[a + |dx| + |dy| + 4..a + |dx| + |dy| + 4 + |dz|] == dz
    requires a + |dx| + |dy| + 4 + |dz| < |s| ==> !IsDigit(s[a + |dx| + |dy| + 4 + |dz|])
    requires 1 <= a && MatchesAtIgnoringCase(s, 0, "rgb") && s[a - 1] == '('
    requires (if 3 < |s| && AsciiLower(s[3]) == 'a' then 4 else 3) == a - 1
    ensures MatchRgbAt(s, 0) == Some((DecimalValue(dx), DecimalValue(dy), DecimalValue(dz)))
  {
    GroupsAt(s, a, a + |dx| + 2, a + |dx| + |dy| + 4, dx, dy, dz);
  }

  /** The three groups of a listing "x, y, z" whose numbers start at a, b and c. */
  lemma {:induction false} GroupsAt(s: string, a: nat, b: nat, c: nat, dx: string, dy: string, dz: string)
    requires dx != [] && dy != [] && dz != [] && AllDigits(dx) && AllDigits(dy) && AllDigits(dz)
    requires a + |dx| + 2 == b && b + |dy| + 2 == c && c + |dz| <= |s|
    requires s[a..a + |dx|] == dx && s[b..b + |dy|] == dy && s[c..c + |dz|] == dz
    requires s[b - 2] == ',' && s[b - 1] == ' ' && s[c - 2] == ',' && s[c - 1] == ' '
    requires c + |dz| < |s| ==> !IsDigit(s[c + |dz|])
    ensures Groups(s, a) == Some((DecimalValue(dx), DecimalValue(dy), DecimalValue(dz)))
  {
    FirstDigit(s, b, dy);
    FirstDigit(s, c, dz);
    GroupAndSeparator(s, a, dx);
    GroupAndSeparator(s, b, dy);
    ReadNumberOf(s, c, dz);
    LastGroupsOf(s, b, DecimalValue(dy), b + |dy|, c, DecimalValue(dz), c + |dz|);
    GroupsOf(s, a, DecimalValue(dx), a + |dx|, b, DecimalValue(dy), DecimalValue(dz));
  }

  lemma {:induction false} FirstDigit(s: string, b: nat, d: string)
    requires b + |d| <= |s| && s[b..b + |d|] == d && d != [] && AllDigits(d)
    ensures IsDigit(s[b])
  {
    assert s[b] == d[0];
  }

  lemma {:induction false} LastGroupsOf(s: string, b: nat, y: nat, e: nat, c: nat, z: nat, f: nat)
    requires b <= |s| && e <= |s| && c <= |s|
    requires ReadNumber(s, b) == Some((y, e)) && SkipSeparator(s, e) == Some(c) && ReadNumber(s, c) == Some((z, f))
    ensures LastGroups(s, b) == Some((y, z))
  {
  }

  lemma {:induction false} GroupsOf(s: string, a: nat, x: nat, e: nat, b: nat, y: nat, z: nat)
    requires a <= |s| && e <= |s| && b <= |s|
    requires ReadNumber(s, a) == Some((x, e)) && SkipSeparator(s, e) == Some(b) && LastGroups(s, b) == Some((y, z))
    ensures Groups(s, a) == Some((x, y, z))
  {
  }

  lemma {:induction false} GroupAndSeparator(s: string, a: nat, d: string)
    requires d != [] && AllDigits(d)
    requires a + |d| + 3 <= |s|
    requires s[a..a + |d|] == d && s[a + |d|] == ',' && s[a + |d| + 1] == ' '
    requires IsDigit(s[a + |d| + 2])
    ensures ReadNumber(s, a) == Some((DecimalValue(d), a + |d|))
    ensures SkipSeparator(s, a + |d|) == Some(a + |d| + 2)
  {
    ReadNumberOf(s, a, d);
    SkipSeparatorOf(s, a + |d|);
  }

  /** ToInt32 of ECMA-262 section 7.1.6: the integer taken modulo 2^32 into the signed range. */
  function ToInt32(v: int): (r: int)
    ensures -2147483648 <= r < 2147483648
    ensures (r - v) % 4294967296 == 0
  {
    var m := v % 4294967296;
    if m >= 2147483648 then m - 4294967296 else m
  }

  /** hex.replace('#', ''): a string pattern removes only the first occurrence. */
  function RemoveFirst(s: string, c: char): (r: string)
    ensures c !in s ==> r == s
    ensures s != [] && s[0] == c ==> r == s[1..]
  {
    if s == [] then []
    else if s[0] == c then s[1..]
    else [s[0]] + RemoveFirst(s[1..], c)
  }

  /** The digits hexToRgba hands to parseInt: three characters are doubled, anything else is kept. */
  function HexToRgbaDigits(hex: string): string {
    var h := RemoveFirst(hex, '#');
    if |h| == 3 then DoubleEach(h) else h
  }

  /** Euclidean division by 256, from a quotient and a remainder. */
  lemma {:induction false} DivMod256(n: int, q: int, r: int)
    requires n == 256 * q + r && 0 <= r < 256
    ensures n / 256 == q && n % 256 == r
  {
  }

  /** Euclidean division by 65536, from a quotient and a remainder. */
  lemma {:induction false} DivMod65536(n: int, q: int, r: int)
    requires n == 65536 * q + r && 0 <= r < 65536
    ensures n / 65536 == q && n % 65536 == r
  {
  }

  /** Adding a multiple of 2^32 leaves the three low bytes alone. */
  lemma {:induction false} LowBytesOfShift(v: int, k: int)
    ensures ((v + 4294967296 * k) / 65536) % 256 == (v / 65536) % 256
    ensures ((v + 4294967296 * k) / 256) % 256 == (v / 256) % 256
    ensures (v + 4294967296 * k) % 256 == v % 256
  {
    var w := v + 4294967296 * k;
    var a, b := v / 65536, v % 65536;
    DivMod65536(v, a, b);
    DivMod65536(w, a + 65536 * k, b);
    var c, e := a / 256, a % 256;
    DivMod256(a, c, e);
    DivMod256(a + 65536 * k, c + 256 * k, e);
    var a2, b2 := v / 256, v % 256;
    DivMod256(v, a2, b2);
    DivMod256(w, a2 + 16777216 * k, b2);
    var c2, e2 := a2 / 256, a2 % 256;
    DivMod256(a2, c2, e2);
    DivMod256(a2 + 16777216 * k, c2 + 65536 * k, e2);
  }

  /** Bits 16-23, 8-15 and 0-7 of a number: (x >> 16) & 255, (x >> 8) & 255 and x & 255. */
  function LowBytes(x: int): (b: (int, int, int))
    ensures 0 <= b.0 < 256 && 0 <= b.1 < 256 && 0 <= b.2 < 256
  {
    ((x / 65536) % 256, (x / 256) % 256, x % 256)
  }

  /** ToInt32 changes a number by a multiple of 2^32, which leaves its three low bytes alone. */
  lemma {:induction false} ByteOfInt32(v: int)
    ensures LowBytes(ToInt32(v)) == LowBytes(v)
  {
    var q, m := v / 4294967296, v % 4294967296;
    assert v == 4294967296 * q + m;
    var k := if m >= 2147483648 then -q - 1 else -q;
    assert ToInt32(v) == v + 4294967296 * k;
    LowBytesOfShift(v, k);
  }

  /**
   * The channels of hexToRgba: the number parseInt reads (0 for NaN, which
   * ToInt32 maps to 0) taken through ToInt32, shifted right by 16, 8 and 0
   * bits and masked with 255. They all lie in 0..255, and they are the
   * corresponding bytes of the number the digits denote, read exactly (the
   * rounding of parseInt's double result is not modelled).
   */
  function HexChannels(hex: string): (rgb: (int, int, int))
    ensures 0 <= rgb.0 < 256 && 0 <= rgb.1 < 256 && 0 <= rgb.2 < 256
    ensures ParseIntHex(HexToRgbaDigits(hex)).None? ==> rgb == (0, 0, 0)
    ensures ParseIntHex(HexToRgbaDigits(hex)).Some? ==>
      rgb == LowBytes(ParseIntHex(HexToRgbaDigits(hex)).value)
  {
    ChannelsOf(ParseIntHex(HexToRgbaDigits(hex)))
  }

  /** The shifts and masks applied to parseInt's result, NaN counting as 0. */
  function ChannelsOf(parsed: Option<int>): (rgb: (int, int, int))
    ensures parsed.None? ==> rgb == (0, 0, 0)
    ensures parsed.Some? ==> rgb == LowBytes(parsed.value)
  {
    match parsed
    case Some(n) =>
      ByteOfInt32(n);
      LowBytes(ToInt32(n))
    case None => LowBytes(0)
  }

  /** hexToRgba(hex, a): `rgba(${r}, ${g}, ${b}, ${a})`. */
  function HexToRgba(hex: string, alpha: string): string {
    var rgb := HexChannels(hex);
    RgbListing("rgba(", rgb.0, rgb.1, rgb.2) + (", " + alpha + ")")
  }

  lemma {:induction false} ByteSplit(p: int, q: int, r: int)
    requires 0 <= p < 256 && 0 <= q < 256 && 0 <= r < 256
    ensures LowBytes(65536 * p + 256 * q + r) == (p, q, r)
  {
    var n := 65536 * p + 256 * q + r;
    DivMod65536(n, p, 256 * q + r);
    DivMod256(p, 0, p);
    DivMod256(n, 256 * p + q, r);
    DivMod256(256 * p + q, p, q);
  }

  /** #rrggbb of hexadecimal digits: hexToRgba's channels are the three digit pairs. */
  lemma {:induction false} HexToRgbaPairs(h: string)
    requires |h| == 6 && AllHexDigits(h)
    ensures HexChannels("#" + h) == (Channel2(h[0], h[1]), Channel2(h[2], h[3]), Channel2(h[4], h[5]))
  {
    var a, b, c := Channel2(h[0], h[1]), Channel2(h[2], h[3]), Channel2(h[4], h[5]);
    SixDigitNumber(h);
    ChannelsFromNumber("#" + h, 65536 * a + 256 * b + c);
    ByteSplit(a, b, c);
  }

  /** Whatever number parseInt reads, the channels are its three low bytes. */
  lemma {:induction false} ChannelsFromNumber(hex: string, n: int)
    requires ParseIntHex(HexToRgbaDigits(hex)) == Some(n)
    ensures HexChannels(hex) == LowBytes(n)
  {
  }

  /** A number made of three bytes yields those bytes as its channels. */
  lemma {:induction false} ChannelsOfBytes(p: int, q: int, r: int)
    requires 0 <= p < 256 && 0 <= q < 256 && 0 <= r < 256
    ensures ChannelsOf(Some(65536 * p + 256 * q + r)) == (p, q, r)
  {
    ByteSplit(p, q, r);
  }

  /** hexToRgba hands the six digits of #rrggbb to parseInt, which reads them pair by pair. */
  lemma {:induction false} SixDigitNumber(h: string)
    requires |h| == 6 && AllHexDigits(h)
    ensures ParseIntHex(HexToRgbaDigits("#" + h)) ==
      Some(65536 * Channel2(h[0], h[1]) + 256 * Channel2(h[2], h[3]) + Channel2(h[4], h[5]))
  {
    HashRemoved(h);
    SixDigitValue(h);
  }

  lemma {:induction false} HashRemoved(h: string)
    requires '#' !in h
    ensures RemoveFirst("#" + h, '#') == h
  {
    assert ("#" + h)[0] == '#' && ("#" + h)[1..] == h;
  }

  lemma {:induction false} SixDigitValue(h: string)
    requires |h| == 6 && AllHexDigits(h)
    ensures ParseIntHex(h) ==
      Some(65536 * Channel2(h[0], h[1]) + 256 * Channel2(h[2], h[3]) + Channel2(h[4], h[5]))
  {
    assert ParseIntHex(h) == Some(HexValue(h));
    HexValueOfSix(h);
    var a, b, c := Channel2(h[0], h[1]), Channel2(h[2], h[3]), Channel2(h[4], h[5]);
    assert a == 16 * HexDigitValue(h[0]) + HexDigitValue(h[1]);
    assert b == 16 * HexDigitValue(h[2]) + HexDigitValue(h[3]);
    assert c == 16 * HexDigitValue(h[4]) + HexDigitValue(h[5]);
  }

  /** hexToRgba reads #rgb exactly as #rrggbb, whatever the three characters are. */
  lemma {:induction false} HexToRgbaShortIsDoubled(h: string, alpha: string)
    requires |h| == 3 && '#' !in h
    ensures HexToRgba("#" + h, alpha) == HexToRgba("#" + DoubleEach(h), alpha)
  {
    var long := DoubleEach(h);
    assert '#' !in long by {
      forall i | 0 <= i < 6 ensures long[i] != '#' {
        assert long[i] == h[i / 2] by { assert i == 2 * (i / 2) || i == 2 * (i / 2) + 1; }
      }
    }
    assert RemoveFirst("#" + h, '#') == h;
    assert RemoveFirst("#" + long, '#') == long;
  }

  /** What hexToRgba prints, parseRgb reads back as the same three channels. */
  lemma {:induction false} HexToRgbaReadsBack(hex: string, alpha: string)
    ensures var rgb := HexChannels(hex);
      ParseRgb(HexToRgba(hex, alpha)) == Some(Rgb(Int(rgb.0), Int(rgb.1), Int(rgb.2)))
  {
    var rgb := HexChannels(hex);
    ListingReadsBack("rgba(", rgb.0, rgb.1, rgb.2, ", " + alpha + ")");
  }

}
