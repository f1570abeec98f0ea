/**
 * The mobile test the script applies to navigator.userAgent before choosing
 * between a native mail client and a webmail compose window:
 * /Mobi|Android|iPhone|iPad|iPod/i.test(userAgent).
 */
module UserAgent {
  import opened JsText

  /** The alternatives of the pattern, in the order it lists them. */
  const MobileMarkers: seq<string> := ["Mobi", "Android", "iPhone", "iPad", "iPod"]

  /**
   * Whether an alternation of the patterns ps matches somewhere in ua: a
   * regular-expression test without anchors succeeds when some alternative
   * matches at some position.
   */
  function MatchesAny(ua: string, ps: seq<string>): (r: bool)
    ensures r <==> exists k: nat, i: nat :: k < |ps| && MatchesAtIgnoringCase(ua, i, ps[k])
  {
    if ps == [] then false
    else
      var here := FindIgnoringCase(ua, ps[0], 0);
      var r := here.Some? || MatchesAny(ua, ps[1..]);
      if here.Some? then
        assert MatchesAtIgnoringCase(ua, here.value, ps[0]);
        r
      else
        assert forall k: nat :: 0 < k < |ps| ==> ps[k] == ps[1..][k - 1];
        r
  }

  /**
   * /Mobi|Android|iPhone|iPad|iPod/i.test(ua); with the i flag and without
   * the u flag only ASCII letters are folded.
   */
  function IsMobileUserAgent(ua: string): (r: bool)
    ensures r <==> exists k: nat, i: nat :: k < |MobileMarkers| && MatchesAtIgnoringCase(ua, i, MobileMarkers[k])
  {
    MatchesAny(ua, MobileMarkers)
  }

  /** ua with every ASCII letter in lower case. */
  function LowerAll(ua: string): (r: string)
    ensures |r| == |ua| && forall i :: 0 <= i < |ua| ==> r[i] == AsciiLower(ua[i])
  {
    if ua == [] then [] else [AsciiLower(ua[0])] + LowerAll(ua[1..])
  }

  /** The test does not depend on the case of the ASCII letters of the user agent. */
  lemma {:induction false} MobileIgnoresCase(ua: string)
    ensures IsMobileUserAgent(LowerAll(ua)) == IsMobileUserAgent(ua)
  {
    var l := LowerAll(ua);
    forall k: nat, i: nat | k < |MobileMarkers|
      ensures MatchesAtIgnoringCase(l, i, MobileMarkers[k]) <==> MatchesAtIgnoringCase(ua, i, MobileMarkers[k])
    {
      var p := MobileMarkers[k];
      if i + |p| <= |ua| {
        assert forall m :: i <= m < i + |p| ==> AsciiLower(l[m]) == AsciiLower(ua[m]);
      }
    }
  }
}
