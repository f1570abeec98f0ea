/**
 * The ECMAScript string primitives the script relies on: the WhiteSpace and
 * LineTerminator code points (used by String.prototype.trim, the regular
 * expression class \s and parseInt), ASCII case folding as done by a regular
 * expression with the i flag and without the u flag, decimal digit strings
 * and parseInt with radix 16.
 */
module JsText {
  import opened Wrappers

  /** WhiteSpace or LineTerminator in the sense of ECMA-262 sections 12.2 and 12.3. */
  predicate IsSpace(c: char) {
    c == '\t' || c == '\n' || c == '\U{B}' || c == '\U{C}' || c == '\r' || c == ' '
    || c == '\U{A0}' || c == '\U{1680}' || ('\U{2000}' <= c <= '\U{200A}')
    || c == '\U{2028}' || c == '\U{2029}' || c == '\U{202F}' || c == '\U{205F}'
    || c == '\U{3000}' || c == '\U{FEFF}'
  }

  predicate AllSpace(s: string) {
    forall i :: 0 <= i < |s| ==> IsSpace(s[i])
  }

  /**
   * Drops the leading white space of s. That what is left is a suffix of s
   * is TrimStartIsSuffix, kept apart so that callers ask for it.
   */
  function TrimStart(s: string): (r: string)
    ensures |r| <= |s|
    ensures forall i :: 0 <= i < |s| - |r| ==> IsSpace(s[i])
    ensures r == [] || !IsSpace(r[0])
  {
    if s != [] && IsSpace(s[0]) then TrimStart(s[1..]) else s
  }

  lemma {:induction false} TrimStartIsSuffix(s: string)
    ensures TrimStart(s) == s[|s| - |TrimStart(s)|..]
  {
    if s != [] && IsSpace(s[0]) {
      TrimStartIsSuffix(s[1..]);
      assert s[1..][|s| - 1 - |TrimStart(s)|..] == s[|s| - |TrimStart(s)|..];
    }
  }

  /** Drops the trailing white space of s: what is left is a prefix of s. */
  function TrimEnd(s: string): (r: string)
    ensures |r| <= |s|
    ensures forall i :: 0 <= i < |r| ==> r[i] == s[i]
    ensures forall i :: |r| <= i < |s| ==> IsSpace(s[i])
    ensures r == [] || !IsSpace(r[|r| - 1])
  {
    if s != [] && IsSpace(s[|s| - 1]) then TrimEnd(s[..|s| - 1]) else s
  }

  /**
   * String.prototype.trim: s without its leading and trailing white space;
   * it is empty exactly when s holds nothing but white space.
   */
  function Trim(s: string): (r: string)
    ensures |r| <= |s|
    ensures r == [] <==> AllSpace(s)
    ensures r != [] ==> !IsSpace(r[0]) && !IsSpace(r[|r| - 1])
  {
    var t := TrimStart(s);
    var r := TrimEnd(t);
    assert r == [] ==> t == [];
    assert AllSpace(s) ==> t == [] by {
      if AllSpace(s) && t != [] {
        TrimStartIsSuffix(s);
      }
    }
    assert r != [] ==> r[0] == t[0];
    r
  }

  /**
   * What trim keeps is s itself between its leading and its trailing white
   * space: the slice s[a..b], with only white space before a and after b.
   */
  lemma {:induction false} TrimIsInfix(s: string)
    ensures var a := |s| - |TrimStart(s)|; var b := a + |Trim(s)|;
      a <= b <= |s| && Trim(s) == s[a..b] && AllSpace(s[..a]) && AllSpace(s[b..])
  {
    var t := TrimStart(s);
    var r := TrimEnd(t);
    var a := |s| - |t|;
    var b := a + |r|;
    TrimStartIsSuffix(s);
    assert r == t[..|r|];
    assert t[..|r|] == s[a..b];
    forall i | 0 <= i < |s[b..]| ensures IsSpace(s[b..][i]) {
      assert s[b..][i] == t[|r| + i];
    }
  }

  /** The lower-case form of an ASCII letter; every other character is kept. */
  function AsciiLower(c: char): (r: char)
    ensures 'A' <= c <= 'Z' ==> r as int == c as int + 32
    ensures !('A' <= c <= 'Z') ==> r == c
  {
    if 'A' <= c <= 'Z' then (c as int + 32) as char else c
  }

  /** Whether s holds p at position i, letters compared without regard to ASCII case. */
  predicate MatchesAtIgnoringCase(s: string, i: nat, p: string) {
    i + |p| <= |s| && forall j :: 0 <= j < |p| ==> AsciiLower(s[i + j]) == AsciiLower(p[j])
  }

  /** The first position at or after `from` where s holds p ignoring ASCII case. */
  function FindIgnoringCase(s: string, p: string, from: nat): (r: Option<nat>)
    decreases |s| - from
    ensures r.Some? ==> from <= r.value && MatchesAtIgnoringCase(s, r.value, p)
    ensures r.Some? ==> forall i :: from <= i < r.value ==> !MatchesAtIgnoringCase(s, i, p)
    ensures r.None? ==> forall i :: from <= i ==> !MatchesAtIgnoringCase(s, i, p)
  {
    if from + |p| > |s| then None
    else if MatchesAtIgnoringCase(s, from, p) then Some(from)
    else FindIgnoringCase(s, p, from + 1)
  }

  predicate IsDigit(c: char) {
    '0' <= c <= '9'
  }

  predicate AllDigits(s: string) {
    forall i :: 0 <= i < |s| ==> IsDigit(s[i])
  }

  function DigitValue(c: char): (d: nat)
    requires IsDigit(c)
    ensures d < 10
  {
    c as int - '0' as int
  }

  function DigitChar(d: nat): (c: char)
    requires d < 10
    ensures IsDigit(c) && DigitValue(c) == d
  {
    (d + '0' as int) as char
  }

  /** The number a non-empty run of decimal digits denotes (as Number() reads it). */
  function DecimalValue(ds: string): nat
    requires AllDigits(ds)
  {
    if ds == [] then 0 else DecimalValue(ds[..|ds| - 1]) * 10 + DigitValue(ds[|ds| - 1])
  }

  /** The decimal spelling of n (as a template literal prints a non-negative integer). */
  function DecimalString(n: nat): (s: string)
    ensures s != [] && AllDigits(s)
  {
    if n < 10 then [DigitChar(n)] else DecimalString(n / 10) + [DigitChar(n % 10)]
  }

  lemma {:induction false} DecimalRoundTrip(n: nat)
    ensures DecimalValue(DecimalString(n)) == n
  {
    if n >= 10 {
      var s := DecimalString(n);
      assert s[..|s| - 1] == DecimalString(n / 10);
      DecimalRoundTrip(n / 10);
    }
  }

  predicate IsHexDigit(c: char) {
    '0' <= c <= '9' || 'a' <= c <= 'f' || 'A' <= c <= 'F'
  }

  predicate AllHexDigits(s: string) {
    forall i :: 0 <= i < |s| ==> IsHexDigit(s[i])
  }

  function HexDigitValue(c: char): (d: nat)
    requires IsHexDigit(c)
    ensures d < 16
  {
    if '0' <= c <= '9' then c as int - '0' as int
    else if 'a' <= c <= 'f' then c as int - 'a' as int + 10
    else c as int - 'A' as int + 10
  }

  /** The number a run of hexadecimal digits denotes. */
  function HexValue(ds: string): nat
    requires AllHexDigits(ds)
  {
    if ds == [] then 0 else HexValue(ds[..|ds| - 1]) * 16 + HexDigitValue(ds[|ds| - 1])
  }

  /** The length of the run of hexadecimal digits that s starts with. */
  function HexPrefixLength(s: string): (n: nat)
    ensures n <= |s|
    ensures AllHexDigits(s[..n])
    ensures n < |s| ==> !IsHexDigit(s[n])
  {
    if s != [] && IsHexDigit(s[0]) then
      var m := HexPrefixLength(s[1..]);
      assert s[..1 + m] == [s[0]] + s[1..][..m];
      1 + m
    else 0
  }

  /**
   * parseInt(s, 16) of ECMA-262 section 19.2.5: leading white space is
   * skipped, one sign is read, a "0x"/"0X" prefix is skipped, and the longest
   * run of hexadecimal digits that follows is the value; None stands for NaN,
   * which is the result when that run is empty.
   */
  function ParseIntHex(s: string): (r: Option<int>)
    ensures AllHexDigits(s) && |s| == 2 ==>
      r == Some(16 * HexDigitValue(s[0]) + HexDigitValue(s[1]))
    ensures AllHexDigits(s) && s != [] ==> r == Some(HexValue(s))
  {
    var t := TrimStart(s);
    var negative := t != [] && t[0] == '-';
    var u := if t != [] && (t[0] == '-' || t[0] == '+') then t[1..] else t;
    var v := if |u| >= 2 && u[0] == '0' && (u[1] == 'x' || u[1] == 'X') then u[2..] else u;
    var n := HexPrefixLength(v);
    var value: int := HexValue(v[..n]);
    var r: Option<int> := if n == 0 then None else Some(if negative then -value else value);
    assert AllHexDigits(s) && s != [] ==> v[..n] == s by {
      if AllHexDigits(s) && s != [] {
        HexDigitsUntouched(s);
      }
    }
    assert AllHexDigits(s) && |s| == 2 ==> HexValue(s) == 16 * HexDigitValue(s[0]) + HexDigitValue(s[1]) by {
      if AllHexDigits(s) && |s| == 2 {
        HexValueOfTwo(s);
      }
    }
    r
  }

  lemma ParseIntHexOfPair(s: string)
    requires |s| == 2 && IsHexDigit(s[0]) && IsHexDigit(s[1])
    ensures ParseIntHex(s) == Some(16 * HexDigitValue(s[0]) + HexDigitValue(s[1]))
  {
    assert AllHexDigits(s);
  }

  /** Two hexadecimal digits taken out of a longer string. */
  lemma {:induction false} ParseIntHexOfSlice(h: string, i: nat)
    requires i + 2 <= |h| && IsHexDigit(h[i]) && IsHexDigit(h[i + 1])
    ensures ParseIntHex(h[i..i + 2]) == Some(16 * HexDigitValue(h[i]) + HexDigitValue(h[i + 1]))
  {
    var p := h[i..i + 2];
    assert p[0] == h[i] && p[1] == h[i + 1];
    ParseIntHexOfPair(p);
  }

  /** A nonempty run of hexadecimal digits has no space to trim and is read whole. */
  lemma {:induction false} HexDigitsUntouched(s: string)
    requires AllHexDigits(s) && s != []
    ensures TrimStart(s) == s && HexPrefixLength(s) == |s|
  {
    assert !IsSpace(s[0]);
    HexPrefixOfHexDigits(s);
  }

  lemma {:induction false} HexValueOfTwo(s: string)
    requires |s| == 2 && AllHexDigits(s)
    ensures HexValue(s) == 16 * HexDigitValue(s[0]) + HexDigitValue(s[1])
  {
    var first := s[..1];
    assert first[..0] == [] && first[0] == s[0];
    assert HexValue(first) == HexDigitValue(s[0]);
  }

  lemma HexPrefixOfHexDigits(s: string)
    requires AllHexDigits(s)
    ensures HexPrefixLength(s) == |s|
  {
  }

  /** A six-digit hexadecimal number, digit by digit. */
  lemma HexValueOfSix(d: string)
    requires |d| == 6 && AllHexDigits(d)
    ensures HexValue(d) == 1048576 * HexDigitValue(d[0]) + 65536 * HexDigitValue(d[1])
      + 4096 * HexDigitValue(d[2]) + 256 * HexDigitValue(d[3]) + 16 * HexDigitValue(d[4])
      + HexDigitValue(d[5])
  {
    var p1, p2, p3, p4, p5 := d[..1], d[..2], d[..3], d[..4], d[..5];
    assert p1[..0] == [] && p1[0] == d[0];
    assert HexValue(p1) == HexDigitValue(d[0]);
    assert p2[..1] == p1 && p2[1] == d[1];
    assert HexValue(p2) == HexValue(p1) * 16 + HexDigitValue(d[1]);
    assert p3[..2] == p2 && p3[2] == d[2];
    assert HexValue(p3) == HexValue(p2) * 16 + HexDigitValue(d[2]);
    assert p4[..3] == p3 && p4[3] == d[3];
    assert HexValue(p4) == HexValue(p3) * 16 + HexDigitValue(d[3]);
    assert p5[..4] == p4 && p5[4] == d[4];
    assert HexValue(p5) == HexValue(p4) * 16 + HexDigitValue(d[4]);
    assert d[..5] == p5;
  }
}
