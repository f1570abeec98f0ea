/**
 * The mail icons, a.gmail-link (js/script.js:680-724). The recipient of an
 * icon is its data-email attribute, or else its href with a leading
 * "mailto:" (in any letter case) removed; an icon whose recipient is empty
 * is left alone. On a mobile user agent every icon is rewritten once, at
 * load, to a plain mailto link opened in place; on the desktop a plain
 * click opens the Gmail composer for the recipient and falls back to the
 * mailto link when the window could not be opened.
 */
module MailIcon {
  import opened Wrappers
  import opened JsText
  import opened UriComponent
  import opened MailLinks
  import opened UserAgent

  const MailtoScheme: string := "mailto:"

  /**
   * An icon's attributes: data-email (empty when absent, which the script
   * treats alike), href, target and rel.
   */
  datatype Anchor = Anchor(email: string, href: Option<string>, target: Option<string>, rel: Option<string>)

  /** The text with one leading "mailto:", in any ASCII letter case, removed. */
  function StripMailto(s: string): (r: string)
    ensures MatchesAtIgnoringCase(s, 0, MailtoScheme) ==> |r| + |MailtoScheme| == |s| && s[|MailtoScheme|..] == r
    ensures !MatchesAtIgnoringCase(s, 0, MailtoScheme) ==> r == s
  {
    if MatchesAtIgnoringCase(s, 0, MailtoScheme) then s[|MailtoScheme|..] else s
  }

  /** Removing the scheme undoes writing it, in whatever case it was written. */
  lemma {:induction false} StripUndoesScheme(scheme: string, to: string)
    requires |scheme| == |MailtoScheme| && MatchesAtIgnoringCase(scheme, 0, MailtoScheme)
    ensures StripMailto(scheme + to) == to
  {
    assert MatchesAtIgnoringCase(scheme + to, 0, MailtoScheme) by {
      forall j | 0 <= j < |MailtoScheme|
        ensures AsciiLower((scheme + to)[j]) == AsciiLower(MailtoScheme[j])
      {
        assert (scheme + to)[j] == scheme[j];
      }
    }
    assert (scheme + to)[|MailtoScheme|..] == to;
  }

  /** Only a leading scheme is removed: text that does not start with one is kept whole. */
  lemma {:induction false} StripOnlyLeading(s: string)
    requires |s| > 0 && AsciiLower(s[0]) != 'm'
    ensures StripMailto(s) == s
  {
    assert !MatchesAtIgnoringCase(s, 0, MailtoScheme) by {
      assert AsciiLower(MailtoScheme[0]) == 'm';
    }
  }

  /** The recipient the script reads from an icon. */
  function Recipient(a: Anchor): (to: string)
    ensures a.email != "" ==> to == a.email
    ensures a.email == "" && a.href.None? ==> to == ""
    ensures a.email == "" && a.href.Some? ==> to == StripMailto(a.href.value)
  {
    if a.email != "" then a.email
    else StripMailto(if a.href.Some? then a.href.value else "")
  }

  /**
   * The mobile rewrite of one icon: a recipient turns the href into a plain
   * mailto link and drops target and rel; no recipient, no change.
   */
  function RewriteForMobile(a: Anchor): (b: Anchor)
    ensures Recipient(a) == "" ==> b == a
    ensures Recipient(a) != "" ==> b.email == a.email && b.target.None? && b.rel.None?
  {
    var to := Recipient(a);
    if to == "" then a
    else a.(href := Some(MailtoScheme + to), target := None, rel := None)
  }

  /** The rewritten icon still names the same recipient. */
  lemma {:induction false} RewriteKeepsRecipient(a: Anchor)
    ensures Recipient(RewriteForMobile(a)) == Recipient(a)
  {
    var to := Recipient(a);
    if to != "" && a.email == "" {
      StripUndoesScheme(MailtoScheme, to);
    }
  }

  /** Rewriting an icon that was already rewritten changes nothing. */
  lemma {:induction false} RewriteIdempotent(a: Anchor)
    ensures RewriteForMobile(RewriteForMobile(a)) == RewriteForMobile(a)
  {
    RewriteKeepsRecipient(a);
  }

  /**
   * The load-time setup over all icons: on a mobile user agent each icon is
   * rewritten in place; the result says whether desktop click handlers are
   * attached (there are icons and the agent is not mobile).
   */
  method SetupMailIcons(links: array<Anchor>, userAgent: string) returns (attachHandlers: bool)
    modifies links
    ensures attachHandlers <==> links.Length > 0 && !IsMobileUserAgent(userAgent)
    ensures IsMobileUserAgent(userAgent) ==> forall i :: 0 <= i < links.Length ==> links[i] == RewriteForMobile(old(links[i]))
    ensures !IsMobileUserAgent(userAgent) ==> links[..] == old(links[..])
  {
    if links.Length == 0 {
      return false;
    }
    var isMobile := IsMobileUserAgent(userAgent);
    if isMobile {
      ghost var original := links[..];
      for k := 0 to links.Length
        invariant forall i :: 0 <= i < k ==> links[i] == RewriteForMobile(original[i])
        invariant forall i :: k <= i < links.Length ==> links[i] == original[i]
      {
        links[k] := RewriteForMobile(links[k]);
      }
      return false;
    }
    return true;
  }

  /** What the browser is asked to do on a desktop click. */
  datatype Request = OpenWindow(url: string) | GoTo(url: string)

  /**
   * The browser follows the link itself, or the handler cancelled the
   * default and issued these requests.
   */
  datatype Click = FollowLink | Handled(requests: seq<Request>)

  /** The Gmail compose URL for a recipient, with empty subject and body. */
  function ComposeUrl(to: string): string {
    GmailLink(to, "", "")
  }

  /**
   * The desktop click handler. A meta or ctrl click, or a middle click, is
   * left to the browser. Otherwise the default is cancelled; an empty
   * recipient does nothing further, and otherwise the Gmail composer is
   * opened, followed by a mailto navigation when window.open returned null
   * or threw (windowOpened is false).
   */
  function DesktopClick(a: Anchor, metaKey: bool, ctrlKey: bool, button: int, windowOpened: bool): (c: Click)
    ensures c.FollowLink? <==> metaKey || ctrlKey || button == 1
    ensures c.Handled? && Recipient(a) == "" ==> c.requests == []
    ensures c.Handled? && Recipient(a) != "" ==> 1 <= |c.requests| <= 2 && c.requests[0].OpenWindow?
    ensures c.Handled? && Recipient(a) != "" ==> (|c.requests| == 2 <==> !windowOpened)
  {
    if metaKey || ctrlKey || button == 1 then FollowLink
    else
      var to := Recipient(a);
      if to == "" then Handled([])
      else Handled([OpenWindow(ComposeUrl(to))] + if windowOpened then [] else [GoTo(MailtoScheme + to)])
  }

  /**
   * Whatever the click asks for addresses the icon's recipient: the
   * composer's "to" field reads back to it, with an empty subject and
   * body, and the fallback link's address is it.
   */
  lemma {:induction false} DesktopClickAddressesRecipient(a: Anchor, windowOpened: bool)
    requires Recipient(a) != ""
    ensures var c := DesktopClick(a, false, false, 0, windowOpened);
      && c.Handled?
      && Target(c.requests[0].url) == GmailBase
      && Param(c.requests[0].url, "to") == Some(Recipient(a))
      && Param(c.requests[0].url, "su") == Some("")
      && Param(c.requests[0].url, "body") == Some("")
      && (!windowOpened ==> StripMailto(c.requests[1].url) == Recipient(a))
  {
    var to := Recipient(a);
    GmailReadsBack(to, "", "");
    StripUndoesScheme(MailtoScheme, to);
  }

  /** A mobile icon, once rewritten, is a mailto link to the same recipient as the desktop fallback. */
  lemma {:induction false} MobileMatchesFallback(a: Anchor)
    requires Recipient(a) != ""
    ensures RewriteForMobile(a).href == Some(DesktopClick(a, false, false, 0, false).requests[1].url)
  {
  }
}
