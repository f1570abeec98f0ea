/**
 * The contact form's submit handler (setupContactForm, js/script.js:415-605):
 * the trimmed form values are validated in a fixed order, a subject and a body
 * are composed from fixed templates, four links are built, and the handler
 * then walks a fixed sequence of window.open attempts whose outcomes (a
 * window, null, or an exception) come from the browser.
 *
 * The handler is described twice. Submission gives the sequence of actions it
 * takes for given form values, device class and open outcomes; the class
 * ContactForm runs the handler step by step on the status region, the fallback
 * link and the form fields, and its Submit is proved to leave exactly the
 * state that replaying Submission's actions gives.
 */
module Contact {
  import opened Wrappers
  import opened JsText
  import opened UriComponent
  import opened MailLinks
  import opened UserAgent

  // ---------------------------------------------------------------------
  // Reading and validating the form

  /**
   * The values of the form's controls as the page holds them, before
   * trimming. serviceLabel is the text of the selected option of the service
   * select, None when no option is selected.
   */
  datatype Fields = Fields(name: string, phone: string, service: string,
                           serviceLabel: Option<string>, message: string)

  /** The values the handler works with: every one trimmed. */
  datatype Entry = Entry(name: string, phone: string, service: string,
                         serviceLabel: string, message: string)

  /**
   * The handler's reading of the form; without a service select the service
   * and its label are empty.
   */
  function ReadEntry(f: Fields, hasSelect: bool): Entry {
    Entry(Trim(f.name), Trim(f.phone),
          if hasSelect then Trim(f.service) else "",
          if hasSelect && f.serviceLabel.Some? then Trim(f.serviceLabel.value) else "",
          Trim(f.message))
  }

  const NameMissing: string := "Please enter your full name."
  const ServiceMissing: string := "Please select a service."
  const MessageMissing: string := "Please enter your message."

  /** The three checks, in the order the handler makes them; the first failure is the error. */
  function Validate(e: Entry): Option<string> {
    if e.name == [] then Some(NameMissing)
    else if e.service == [] then Some(ServiceMissing)
    else if e.message == [] then Some(MessageMissing)
    else None
  }

  /**
   * Validation of the raw form: a value that is empty or white space only
   * counts as missing, the name is checked first, the service only when the
   * name is present and the message only when both are present.
   */
  function CheckForm(f: Fields, hasSelect: bool): (r: Option<string>)
    ensures r == Some(NameMissing) <==> AllSpace(f.name)
    ensures r == Some(ServiceMissing) <==>
      !AllSpace(f.name) && (!hasSelect || AllSpace(f.service))
    ensures r == Some(MessageMissing) <==>
      !AllSpace(f.name) && hasSelect && !AllSpace(f.service) && AllSpace(f.message)
    ensures r == None <==>
      !AllSpace(f.name) && hasSelect && !AllSpace(f.service) && !AllSpace(f.message)
  {
    Validate(ReadEntry(f, hasSelect))
  }

  // ---------------------------------------------------------------------
  // Composing the message

  function Subject(e: Entry): string {
    "New Message from " + e.name
  }

  /** "Service Interest: <label>\n" when a service is chosen, nothing otherwise. */
  function ServiceLine(e: Entry): string {
    if e.service != [] then "Service Interest: " + e.serviceLabel + "\n" else ""
  }

  /** The phone as the body shows it: "Not provided" in place of an empty one. */
  function PhoneText(phone: string): string {
    if phone != [] then phone else "Not provided"
  }

  /**
   * The fixed wording of the body around the values it quotes: the greeting
   * before the sender's name, the introduction between the name and the
   * message, and the closing between the phone line and the signature.
   */
  datatype Wording = Wording(greeting: string, intro: string, closing: string)

  /** The wording of the site's handler. */
  const SiteWording: Wording := Wording(
    "Hello Mr. Enoch,\n\nMy name is ",
    ". I'm contacting you regarding a potential project opportunity and would like to discuss how your expertise can support our goals.\n\nMessage:\n\n",
    "\n\nI look forward to your response and guidance on the next steps.\n\nBest regards,\n")

  /** The body up to the service line. */
  function BodyHead(w: Wording, e: Entry): string {
    w.greeting + e.name + w.intro + e.message + "\n\n"
  }

  /** The body from the phone line on. */
  function BodyTail(w: Wording, e: Entry): string {
    "Phone: " + PhoneText(e.phone) + w.closing + e.name
  }

  function Body(w: Wording, e: Entry): string {
    BodyHead(w, e) + ServiceLine(e) + BodyTail(w, e)
  }

  /** Whether p occurs in s at position i. */
  predicate OccursAt(p: string, s: string, i: nat) {
    i + |p| <= |s| && s[i..i + |p|] == p
  }

  /** Whether p occurs in s. */
  predicate Occurs(p: string, s: string) {
    exists i: nat :: i <= |s| && OccursAt(p, s, i)
  }

  /** The four links of one submission. */
  datatype Links = Links(mailto: string, gmail: string, outlook: string, yahoo: string)

  /** The links to the recipient `to` (ToAddress on the site) for a body in wording w. */
  function LinksFor(to: string, w: Wording, e: Entry): Links {
    var subject, body := Subject(e), Body(w, e);
    Links(MailtoLink(to, subject, body), GmailLink(to, subject, body),
          OutlookLink(to, subject, body), YahooLink(to, subject, body))
  }

  /** The body names the chosen service on a line of its own. */
  lemma {:induction false} ServiceLineShown(w: Wording, e: Entry)
    requires e.service != []
    ensures Occurs("Service Interest: " + e.serviceLabel + "\n", Body(w, e))
  {
    OccursBetween(BodyHead(w, e), ServiceLine(e), BodyTail(w, e));
  }

  /** p occurs in a + p + c, right after a. */
  lemma {:induction false} OccursBetween(a: string, p: string, c: string)
    ensures OccursAt(p, a + p + c, |a|) && Occurs(p, a + p + c)
  {
    assert (a + p + c)[|a|..|a| + |p|] == p;
    assert OccursAt(p, a + p + c, |a|);
  }

  /**
   * The body without a service is the body with one minus its service line:
   * the service line is the only part that depends on the service.
   */
  lemma {:induction false} ServiceLineOnlyDifference(w: Wording, e: Entry)
    requires e.service != []
    ensures var without := Body(w, e.(service := [])); var k := |BodyHead(w, e)|;
      k <= |without| &&
      Body(w, e) == without[..k] + ("Service Interest: " + e.serviceLabel + "\n") + without[k..]
  {
    var e0 := e.(service := []);
    assert BodyHead(w, e0) == BodyHead(w, e) && BodyTail(w, e0) == BodyTail(w, e) && ServiceLine(e0) == [];
    Insert(BodyHead(w, e), ServiceLine(e), BodyTail(w, e));
  }

  /** Putting p between a and c is inserting p into a + c at |a|. */
  lemma {:induction false} Insert(a: string, p: string, c: string)
    ensures |a| <= |a + c| && a + p + c == (a + c)[..|a|] + p + (a + c)[|a|..]
  {
    assert (a + c)[..|a|] == a && (a + c)[|a|..] == c;
  }

  /** The body carries the phone line, "Not provided" standing in for an empty phone. */
  lemma {:induction false} PhoneLineShown(w: Wording, e: Entry)
    ensures Occurs("Phone: " + (if e.phone == [] then "Not provided" else e.phone), Body(w, e))
  {
    var line := "Phone: " + PhoneText(e.phone);
    var before, after := BodyHead(w, e) + ServiceLine(e), w.closing + e.name;
    assert BodyTail(w, e) == line + after;
    assert Body(w, e) == before + line + after;
    OccursBetween(before, line, after);
    assert PhoneText(e.phone) == (if e.phone == [] then "Not provided" else e.phone);
  }

  /**
   * The mailto link writes to the site owner's address and carries exactly
   * the subject "New Message from <name>" and the composed body.
   */
  lemma {:induction false} MailtoCarriesMessage(to: string, w: Wording, e: Entry)
    requires '?' !in to
    ensures Target(LinksFor(to, w, e).mailto) == "mailto:" + to
    ensures Param(LinksFor(to, w, e).mailto, "subject") == Some("New Message from " + e.name)
    ensures Param(LinksFor(to, w, e).mailto, "body") == Some(Body(w, e))
  {
    MailtoReadsBack(to, Subject(e), Body(w, e));
  }

  /**
   * The webmail links address the site owner and carry the same subject and
   * body: Gmail under "su", Outlook and Yahoo under "subject".
   */
  lemma {:induction false} WebmailCarriesMessage(to: string, w: Wording, e: Entry)
    ensures var l := LinksFor(to, w, e);
      Param(l.gmail, "to") == Some(to)
      && Param(l.gmail, "su") == Some("New Message from " + e.name)
      && Param(l.gmail, "body") == Some(Body(w, e))
      && Param(l.outlook, "to") == Some(to)
      && Param(l.outlook, "subject") == Some("New Message from " + e.name)
      && Param(l.outlook, "body") == Some(Body(w, e))
      && Param(l.yahoo, "to") == Some(to)
      && Param(l.yahoo, "subject") == Some("New Message from " + e.name)
      && Param(l.yahoo, "body") == Some(Body(w, e))
  {
    GmailReadsBack(to, Subject(e), Body(w, e));
    OutlookReadsBack(to, Subject(e), Body(w, e));
    YahooReadsBack(to, Subject(e), Body(w, e));
  }

  // ---------------------------------------------------------------------
  // The delivery decision

  /** What window.open did: returned a window, returned null, or threw. */
  datatype Outcome = Handle | Null | Throws

  /** The outcome each of the four window.open calls would have, in the order they are made. */
  datatype Outcomes = Outcomes(gmail: Outcome, outlook: Outcome, yahoo: Outcome, mailto: Outcome)

  /** The type argument of showFormStatus. */
  datatype Kind = Success | Error

  /** One step of the handler that the page or the user can see. */
  datatype Action =
    | ShowStatus(text: string, kind: Kind)
    | ClearForm
    | Open(url: string)
    | Navigate(url: string)
    | AddFallbackLink(href: string)

  const Opening: string := "Opening your email... Few seconds..."
  const Received: string :=
    "\U{2713} Message received! Your message will be replied to within the next 4 hours. Thank you!"
  const CouldNotOpen: string :=
    "Could not open your email automatically \U{2014} click the link below to compose."

  /** One provider attempt after Gmail: clear the form, announce success, open the link. */
  function Attempt(url: string): seq<Action> {
    [ClearForm, ShowStatus(Received, Success), Open(url)]
  }

  /** The last resort: the error and the fallback link to the mailto URI. */
  function GiveUp(mailto: string): seq<Action> {
    [ShowStatus(CouldNotOpen, Error), AddFallbackLink(mailto)]
  }

  /**
   * The attempts after Gmail, from the i-th on, over the links Outlook, Yahoo,
   * mailto and the outcomes of their opens: an attempt is followed by the
   * next one only when its open throws, and the last one that throws is
   * followed by giving up.
   */
  function ChainFrom(links: seq<string>, outcomes: seq<Outcome>, i: nat, mailto: string): seq<Action>
    requires |links| == |outcomes| && i <= |links|
    decreases |links| - i
  {
    if i == |links| then GiveUp(mailto)
    else Attempt(links[i]) + if outcomes[i] != Throws then [] else ChainFrom(links, outcomes, i + 1, mailto)
  }

  function Fallbacks(l: Links): seq<string> {
    [l.outlook, l.yahoo, l.mailto]
  }

  function FallbackOutcomes(o: Outcomes): seq<Outcome> {
    [o.outlook, o.yahoo, o.mailto]
  }

  /**
   * The desktop path: Gmail first; a window ends it with the form cleared and
   * the success shown, anything else (null or an exception) goes on to the
   * attempts after Gmail.
   */
  function DesktopChain(l: Links, o: Outcomes): seq<Action> {
    [Open(l.gmail)]
    + if o.gmail == Handle then [ClearForm, ShowStatus(Received, Success)]
      else ChainFrom(Fallbacks(l), FallbackOutcomes(o), 0, l.mailto)
  }

  /**
   * Delivery of a submission that passed the checks, with links l: the
   * opening message, then on a mobile device the form cleared and the page
   * sent to the mailto URI, on a desktop the desktop path.
   */
  function Deliver(l: Links, mobile: bool, o: Outcomes): seq<Action> {
    [ShowStatus(Opening, Success)] + if mobile then [ClearForm, Navigate(l.mailto)] else DesktopChain(l, o)
  }

  /**
   * The fixed parts of the page: the recipient and the wording of the body
   * (ToAddress and SiteWording on the site), whether the page has the
   * status region, a place to put the fallback link and the service select,
   * and the values form.reset() restores.
   */
  datatype Page = Page(to: string, wording: Wording, hasStatus: bool, hasContainer: bool, hasSelect: bool, defaults: Fields)

  /** Everything one submit of the form values f does, for the given device class and open outcomes. */
  function Submission(p: Page, f: Fields, mobile: bool, o: Outcomes): seq<Action> {
    var e := ReadEntry(f, p.hasSelect);
    match Validate(e)
    case Some(err) => [ShowStatus(err, Error)]
    case None => Deliver(LinksFor(p.to, p.wording, e), mobile, o)
  }

  /** The links opened with window.open, in order. */
  function Opened(t: seq<Action>): (r: seq<string>)
    ensures |r| <= |t|
  {
    if t == [] then []
    else (if t[0].Open? then [t[0].url] else []) + Opened(t[1..])
  }

  function CountClears(t: seq<Action>): nat {
    if t == [] then 0 else (if t[0].ClearForm? then 1 else 0) + CountClears(t[1..])
  }

  /** Whether the action leaves the page, opens a window or clears the form. */
  predicate Commits(a: Action) {
    a.ClearForm? || a.Open? || a.Navigate?
  }

  lemma {:induction false} OpenedConcat(s: seq<Action>, t: seq<Action>)
    ensures Opened(s + t) == Opened(s) + Opened(t)
    ensures CountClears(s + t) == CountClears(s) + CountClears(t)
    decreases |s|
  {
    if s == [] {
      assert s + t == t;
    } else {
      assert (s + t)[0] == s[0] && (s + t)[1..] == s[1..] + t;
      OpenedConcat(s[1..], t);
    }
  }

  /** The opens of the attempts from i on: one per attempt, up to and including the first that does not throw. */
  function TriesFrom(outcomes: seq<Outcome>, i: nat): (n: nat)
    requires i <= |outcomes|
    decreases |outcomes| - i
  {
    if i == |outcomes| then 0
    else 1 + if outcomes[i] != Throws then 0 else TriesFrom(outcomes, i + 1)
  }

  /** How many links the desktop path opens. */
  function Tries(o: Outcomes): nat {
    if o.gmail == Handle then 1
    else if o.outlook != Throws then 2
    else if o.yahoo != Throws then 3
    else 4
  }

  /** Whether every open from the i-th on throws. */
  predicate AllThrow(outcomes: seq<Outcome>, i: nat) {
    forall j :: i <= j < |outcomes| ==> outcomes[j] == Throws
  }

  /** The attempts from i on open the next links in order, one more for each open that throws. */
  lemma {:induction false} ChainOpens(links: seq<string>, outcomes: seq<Outcome>, i: nat, mailto: string)
    requires |links| == |outcomes| && i <= |links|
    ensures i + TriesFrom(outcomes, i) <= |links|
    ensures Opened(ChainFrom(links, outcomes, i, mailto)) == links[i..i + TriesFrom(outcomes, i)]
    decreases |links| - i
  {
    if i == |links| {
      OpenedGiveUp(mailto);
    } else if outcomes[i] != Throws {
      OpenedLastAttempt(links, outcomes, i, mailto);
    } else {
      OpenedThrowingAttempt(links, outcomes, i, mailto);
      ChainOpens(links, outcomes, i + 1, mailto);
      SliceCons(links, i, TriesFrom(outcomes, i + 1));
    }
  }

  /** An attempt whose open does not throw ends the chain, having opened its link alone. */
  lemma {:induction false} OpenedLastAttempt(links: seq<string>, outcomes: seq<Outcome>, i: nat, mailto: string)
    requires |links| == |outcomes| && i < |links| && outcomes[i] != Throws
    ensures Opened(ChainFrom(links, outcomes, i, mailto)) == [links[i]] && TriesFrom(outcomes, i) == 1
  {
    var att := Attempt(links[i]);
    OpenedAttempt(links[i]);
    OpenedConcat(att, []);
    assert ChainFrom(links, outcomes, i, mailto) == att + [];
  }

  /** An attempt whose open throws opens its link and goes on to the next attempt. */
  lemma {:induction false} OpenedThrowingAttempt(links: seq<string>, outcomes: seq<Outcome>, i: nat, mailto: string)
    requires |links| == |outcomes| && i < |links| && outcomes[i] == Throws
    ensures Opened(ChainFrom(links, outcomes, i, mailto)) == [links[i]] + Opened(ChainFrom(links, outcomes, i + 1, mailto))
    ensures TriesFrom(outcomes, i) == 1 + TriesFrom(outcomes, i + 1)
  {
    var att := Attempt(links[i]);
    OpenedAttempt(links[i]);
    OpenedConcat(att, ChainFrom(links, outcomes, i + 1, mailto));
  }

  lemma {:induction false} OpenedGiveUp(mailto: string)
    ensures Opened(GiveUp(mailto)) == [] && CountClears(GiveUp(mailto)) == 0
  {
    var g := GiveUp(mailto);
    assert g[1..][1..] == [];
    assert Opened(g[1..]) == [] && CountClears(g[1..]) == 0;
  }

  /** A slice that starts at i is links[i] followed by the slice after it. */
  lemma {:induction false} SliceCons<T>(links: seq<T>, i: nat, k: nat)
    requires i + 1 + k <= |links|
    ensures links[i..i + 1 + k] == [links[i]] + links[i + 1..i + 1 + k]
  {
  }

  /** The attempts from i on end by giving up exactly when every one of them throws. */
  lemma {:induction false} ChainGivesUp(links: seq<string>, outcomes: seq<Outcome>, i: nat, mailto: string)
    requires |links| == |outcomes| && i <= |links|
    ensures var c := ChainFrom(links, outcomes, i, mailto);
      |c| >= 2 && (c[|c| - 2..] == GiveUp(mailto) <==> AllThrow(outcomes, i))
    decreases |links| - i
  {
    if i < |links| {
      var att := Attempt(links[i]);
      if outcomes[i] != Throws {
        assert ChainFrom(links, outcomes, i, mailto) == att + [];
        AttemptEndsWithoutGivingUp(links[i], mailto);
      } else {
        var rest := ChainFrom(links, outcomes, i + 1, mailto);
        ChainGivesUp(links, outcomes, i + 1, mailto);
        assert ChainFrom(links, outcomes, i, mailto) == att + rest;
        LastTwoOfConcat(att, rest);
        assert AllThrow(outcomes, i) <==> AllThrow(outcomes, i + 1);
      }
    }
  }

  /** A successful attempt ends with its status and its open, not with giving up. */
  lemma {:induction false} AttemptEndsWithoutGivingUp(url: string, mailto: string)
    ensures var c := Attempt(url) + []; |c| >= 2 && c[|c| - 2..] != GiveUp(mailto)
  {
    var c := Attempt(url) + [];
    assert c[|c| - 2..][0] == ShowStatus(Received, Success);
  }

  lemma {:induction false} LastTwoOfConcat<T>(a: seq<T>, b: seq<T>)
    requires |b| >= 2
    ensures (a + b)[|a + b| - 2..] == b[|b| - 2..]
  {
    assert (a + b)[|a + b| - 2..] == [b[|b| - 2], b[|b| - 1]];
  }

  /** The attempts from i on add the fallback link only when every one of them throws. */
  lemma {:induction false} ChainFallback(links: seq<string>, outcomes: seq<Outcome>, i: nat, mailto: string)
    requires |links| == |outcomes| && i <= |links|
    ensures AddsFallback(ChainFrom(links, outcomes, i, mailto)) <==> AllThrow(outcomes, i)
    decreases |links| - i
  {
    var c := ChainFrom(links, outcomes, i, mailto);
    if i == |links| {
      assert c[1] in c;
    } else {
      var att := Attempt(links[i]);
      assert !AddsFallback(att);
      if outcomes[i] != Throws {
        assert c == att + [];
        assert !AllThrow(outcomes, i);
      } else {
        var rest := ChainFrom(links, outcomes, i + 1, mailto);
        ChainFallback(links, outcomes, i + 1, mailto);
        assert c == att + rest;
        AddsFallbackConcat(att, rest);
        assert AllThrow(outcomes, i) <==> AllThrow(outcomes, i + 1);
      }
    }
  }

  /** Whether the actions include adding a fallback link. */
  predicate AddsFallback(t: seq<Action>) {
    exists a :: a in t && a.AddFallbackLink?
  }

  lemma {:induction false} AddsFallbackConcat(s: seq<Action>, t: seq<Action>)
    ensures AddsFallback(s + t) <==> AddsFallback(s) || AddsFallback(t)
  {
    if AddsFallback(s + t) {
      var a :| a in s + t && a.AddFallbackLink?;
      assert a in s || a in t;
    }
    if AddsFallback(s) {
      var a :| a in s && a.AddFallbackLink?;
      assert a in s + t;
    }
    if AddsFallback(t) {
      var a :| a in t && a.AddFallbackLink?;
      assert a in s + t;
    }
  }

  lemma {:induction false} OpenedAttempt(u: string)
    ensures Opened(Attempt(u)) == [u] && CountClears(Attempt(u)) == 1
  {
    var att := Attempt(u);
    assert att[1..][1..][1..] == [];
    assert Opened(att[1..][1..]) == [u] && CountClears(att[1..][1..]) == 0;
    assert Opened(att[1..]) == [u] && CountClears(att[1..]) == 0;
  }

  /**
   * A failed check shows its error and nothing else happens: the form is not
   * cleared, nothing is opened and the page does not navigate.
   */
  lemma {:induction false} InvalidStops(p: Page, f: Fields, mobile: bool, o: Outcomes)
    requires CheckForm(f, p.hasSelect).Some?
    ensures Submission(p, f, mobile, o) == [ShowStatus(CheckForm(f, p.hasSelect).value, Error)]
    ensures forall a :: a in Submission(p, f, mobile, o) ==> !Commits(a)
  {
    var t := Submission(p, f, mobile, o);
    assert CheckForm(f, p.hasSelect) == Validate(ReadEntry(f, p.hasSelect));
    assert t == [ShowStatus(CheckForm(f, p.hasSelect).value, Error)];
  }

  /**
   * On a mobile device the form is cleared once and the page navigates to
   * the mailto link; no window is opened, so no webmail link is tried.
   */
  lemma {:induction false} MobilePath(l: Links, o: Outcomes)
    ensures var t := Deliver(l, true, o);
      t == [ShowStatus(Opening, Success), ClearForm, Navigate(l.mailto)]
      && Opened(t) == [] && CountClears(t) == 1
  {
    NavigateOnly(l.mailto);
  }

  lemma {:induction false} NavigateOnly(u: string)
    ensures var t := [ShowStatus(Opening, Success), ClearForm, Navigate(u)];
      [ShowStatus(Opening, Success)] + [ClearForm, Navigate(u)] == t
      && Opened(t) == [] && CountClears(t) == 1
  {
    var t := [ShowStatus(Opening, Success), ClearForm, Navigate(u)];
    assert t[1..][1..][1..] == [];
    assert Opened(t[1..][1..]) == [] && CountClears(t[1..][1..]) == 0;
  }

  /** A submission that passes the checks is delivered with the links built from its entry. */
  lemma {:induction false} ValidSubmission(p: Page, f: Fields, mobile: bool, o: Outcomes) returns (l: Links)
    requires CheckForm(f, p.hasSelect).None?
    ensures l == LinksFor(p.to, p.wording, ReadEntry(f, p.hasSelect))
    ensures Submission(p, f, mobile, o) == Deliver(l, mobile, o)
  {
    assert CheckForm(f, p.hasSelect) == Validate(ReadEntry(f, p.hasSelect));
    l := LinksFor(p.to, p.wording, ReadEntry(f, p.hasSelect));
  }

  /**
   * On a desktop the links opened are a prefix of Gmail, Outlook, Yahoo,
   * mailto: Outlook is always tried after Gmail gives no window, Yahoo only
   * when Outlook throws and the mailto link only when Yahoo throws too.
   */
  lemma {:induction false} DesktopOpens(l: Links, o: Outcomes)
    ensures Tries(o) <= 4
    ensures Opened(DesktopChain(l, o)) == [l.gmail, l.outlook, l.yahoo, l.mailto][..Tries(o)]
  {
    var first := [Open(l.gmail)];
    assert Opened(first) == [l.gmail] by { assert first[1..] == []; }
    if o.gmail == Handle {
      var g := [ClearForm, ShowStatus(Received, Success)];
      assert Opened(g) == [] by { assert g[1..][1..] == []; }
      OpenedConcat(first, g);
    } else {
      var c := ChainFrom(Fallbacks(l), FallbackOutcomes(o), 0, l.mailto);
      ChainOpens(Fallbacks(l), FallbackOutcomes(o), 0, l.mailto);
      OpenedConcat(first, c);
      var os := FallbackOutcomes(o);
      assert TriesFrom(os, 0) == Tries(o) - 1 by {
        assert TriesFrom(os, 3) == 0;
        assert TriesFrom(os, 2) == 1;
        assert TriesFrom(os, 1) == if o.yahoo != Throws then 1 else 2;
      }
    }
  }

  /**
   * The error status and the fallback link come only when Gmail gives no
   * window and every later open throws, and they are then the last two
   * actions.
   */
  lemma {:induction false} TerminalFailureOnly(l: Links, o: Outcomes)
    ensures AddsFallback(DesktopChain(l, o)) <==>
      o.gmail != Handle && o.outlook == Throws && o.yahoo == Throws && o.mailto == Throws
    ensures o.gmail != Handle && o.outlook == Throws && o.yahoo == Throws && o.mailto == Throws ==>
      |DesktopChain(l, o)| >= 2 && DesktopChain(l, o)[|DesktopChain(l, o)| - 2..] == GiveUp(l.mailto)
  {
    var d := DesktopChain(l, o);
    var os := FallbackOutcomes(o);
    if o.gmail == Handle {
      assert !AddsFallback(d);
    } else {
      var c := ChainFrom(Fallbacks(l), os, 0, l.mailto);
      ChainGivesUp(Fallbacks(l), os, 0, l.mailto);
      ChainFallback(Fallbacks(l), os, 0, l.mailto);
      assert d == [Open(l.gmail)] + c;
      AddsFallbackConcat([Open(l.gmail)], c);
      assert AllThrow(os, 0) <==> o.outlook == Throws && o.yahoo == Throws && o.mailto == Throws by {
        assert os[0] == o.outlook && os[1] == o.yahoo && os[2] == o.mailto;
      }
      if AllThrow(os, 0) {
        assert d[|d| - 2..] == c[|c| - 2..];
      }
    }
  }

  // ---------------------------------------------------------------------
  // The page state the handler changes

  /** The status region: its text, its kind class (none before the first message) and whether it is displayed. */
  datatype Status = Status(text: string, kind: Option<Kind>, visible: bool)

  /**
   * What the handler can change: the form's controls, the status region, the
   * fallback links under it (the href of each paragraph holding a
   * #fallback-email-link, oldest first), the success auto-hide timers not yet
   * fired, and the opens and navigations asked of the browser, in order.
   */
  datatype View = View(fields: Fields, status: Status, fallbackLinks: seq<string>,
                       pendingHides: nat, requests: seq<Action>)

  /** showFormStatus: nothing without a status region; a success also starts a 4-second hide timer. */
  function ShowIn(p: Page, v: View, text: string, kind: Kind): View {
    if !p.hasStatus then v
    else v.(status := Status(text, Some(kind), true),
            pendingHides := v.pendingHides + if kind == Success then 1 else 0)
  }

  /** addFallbackLink: nothing when a fallback link is already present or there is nowhere to put one. */
  function AddLinkIn(p: Page, v: View, href: string): View {
    if v.fallbackLinks != [] || !p.hasContainer then v
    else v.(fallbackLinks := v.fallbackLinks + [href])
  }

  /** removeFallbackLink: the paragraph of the first fallback link goes, if there is one. */
  function RemoveLinkIn(v: View): View {
    if v.fallbackLinks == [] then v else v.(fallbackLinks := v.fallbackLinks[1..])
  }

  /** clearForm: the controls back to their defaults, the status hidden, the fallback link removed. */
  function ClearIn(p: Page, v: View): View {
    var hidden := if p.hasStatus then v.status.(visible := false) else v.status;
    RemoveLinkIn(v.(fields := p.defaults, status := hidden))
  }

  /** The effect of one action on the page. */
  function Step(p: Page, v: View, a: Action): View {
    match a
    case ShowStatus(text, kind) => ShowIn(p, v, text, kind)
    case ClearForm => ClearIn(p, v)
    case Open(_) => v.(requests := v.requests + [a])
    case Navigate(_) => v.(requests := v.requests + [a])
    case AddFallbackLink(href) => AddLinkIn(p, v, href)
  }

  /** The effect of a sequence of actions, in order. */
  function Run(p: Page, v: View, t: seq<Action>): View
    decreases |t|
  {
    if t == [] then v else Run(p, Step(p, v, t[0]), t[1..])
  }

  /** One success message's timer firing: the status region is hidden, whatever it shows by then. */
  function HideFired(v: View): View
    requires v.pendingHides > 0
  {
    v.(status := v.status.(visible := false), pendingHides := v.pendingHides - 1)
  }

  /** The opens asked for the given URLs, in order. */
  function OpenAll(urls: seq<string>): seq<Action> {
    if urls == [] then [] else [Open(urls[0])] + OpenAll(urls[1..])
  }

  lemma {:induction false} RunConcat(p: Page, v: View, s: seq<Action>, t: seq<Action>)
    ensures Run(p, v, s + t) == Run(p, Run(p, v, s), t)
    decreases |s|
  {
    if s == [] {
      assert s + t == t;
    } else {
      assert (s + t)[0] == s[0] && (s + t)[1..] == s[1..] + t;
      RunConcat(p, Step(p, v, s[0]), s[1..], t);
    }
  }

  lemma {:induction false} RunOne(p: Page, v: View, a: Action)
    ensures Run(p, v, [a]) == Step(p, v, a)
  {
    assert [a][1..] == [];
  }

  /**
   * However the actions go, at most one fallback link is ever shown:
   * addFallbackLink adds none while one is present.
   */
  lemma {:induction false} RunKeepsOneLink(p: Page, v: View, t: seq<Action>)
    requires |v.fallbackLinks| <= 1
    ensures |Run(p, v, t).fallbackLinks| <= 1
    decreases |t|
  {
    if t != [] {
      RunKeepsOneLink(p, Step(p, v, t[0]), t[1..]);
    }
  }

  /** One attempt after Gmail: the form cleared, the fallback link gone, success shown, one open more. */
  lemma {:induction false} AttemptRun(p: Page, v: View, u: string)
    requires |v.fallbackLinks| <= 1
    ensures var w := Run(p, v, Attempt(u));
      w.fields == p.defaults && w.fallbackLinks == []
      && w.status == (if p.hasStatus then Status(Received, Some(Success), true) else v.status)
      && w.pendingHides == v.pendingHides + (if p.hasStatus then 1 else 0)
      && w.requests == v.requests + [Open(u)]
  {
    assert Attempt(u) == [ClearForm] + [ShowStatus(Received, Success)] + [Open(u)];
    RunConcat(p, v, [ClearForm] + [ShowStatus(Received, Success)], [Open(u)]);
    RunConcat(p, v, [ClearForm], [ShowStatus(Received, Success)]);
    RunOne(p, v, ClearForm);
    RunOne(p, ClearIn(p, v), ShowStatus(Received, Success));
    RunOne(p, ShowIn(p, ClearIn(p, v), Received, Success), Open(u));
  }

  /** Giving up: the error shown and the fallback link added when there is a place for it. */
  lemma {:induction false} GiveUpRun(p: Page, v: View, mailto: string)
    requires v.fallbackLinks == []
    ensures var w := Run(p, v, GiveUp(mailto));
      w.fields == v.fields && w.requests == v.requests && w.pendingHides == v.pendingHides
      && w.status == (if p.hasStatus then Status(CouldNotOpen, Some(Error), true) else v.status)
      && w.fallbackLinks == (if p.hasContainer then [mailto] else [])
  {
    assert GiveUp(mailto) == [ShowStatus(CouldNotOpen, Error)] + [AddFallbackLink(mailto)];
    RunConcat(p, v, [ShowStatus(CouldNotOpen, Error)], [AddFallbackLink(mailto)]);
    RunOne(p, v, ShowStatus(CouldNotOpen, Error));
    RunOne(p, ShowIn(p, v, CouldNotOpen, Error), AddFallbackLink(mailto));
  }

  /**
   * The attempts from the i-th on, replayed on the page: the form ends
   * cleared, one open per attempt, one hide timer per success shown, and the
   * error with the fallback link exactly when every open throws.
   */
  lemma {:induction false} ChainRun(p: Page, v: View, links: seq<string>, outcomes: seq<Outcome>, i: nat, mailto: string)
    requires |links| == |outcomes| && i < |links| && |v.fallbackLinks| <= 1
    ensures i + TriesFrom(outcomes, i) <= |links|
    ensures var w := Run(p, v, ChainFrom(links, outcomes, i, mailto));
      w.fields == p.defaults
      && w.requests == v.requests + OpenAll(links[i..i + TriesFrom(outcomes, i)])
      && w.pendingHides == v.pendingHides + (if p.hasStatus then TriesFrom(outcomes, i) else 0)
      && w.status == (if !p.hasStatus then v.status
                      else if AllThrow(outcomes, i) then Status(CouldNotOpen, Some(Error), true)
                      else Status(Received, Some(Success), true))
      && w.fallbackLinks == (if AllThrow(outcomes, i) && p.hasContainer then [mailto] else [])
    decreases |links| - i
  {
    TriesFromBound(outcomes, i);
    ChainStep(p, v, links, outcomes, i, mailto);
    AttemptRun(p, v, links[i]);
    var v1 := Run(p, v, Attempt(links[i]));
    if outcomes[i] != Throws {
      assert links[i..i + TriesFrom(outcomes, i)] == [links[i]] + [];
      OpenAllCons(links[i], []);
    } else {
      var k := TriesFrom(outcomes, i + 1);
      assert AllThrow(outcomes, i) <==> AllThrow(outcomes, i + 1);
      SliceCons(links, i, k);
      OpenAllCons(links[i], links[i + 1..i + 1 + k]);
      if i + 1 == |links| {
        GiveUpRun(p, v1, mailto);
        assert links[i + 1..i + 1 + k] == [];
      } else {
        ChainRun(p, v1, links, outcomes, i + 1, mailto);
      }
    }
  }

  lemma {:induction false} OpenAllCons(u: string, rest: seq<string>)
    ensures OpenAll([u] + rest) == [Open(u)] + OpenAll(rest)
  {
    assert ([u] + rest)[0] == u && ([u] + rest)[1..] == rest;
  }

  /** The attempts from i on stay within the list. */
  lemma {:induction false} TriesFromBound(outcomes: seq<Outcome>, i: nat)
    requires i <= |outcomes|
    ensures i + TriesFrom(outcomes, i) <= |outcomes|
    decreases |outcomes| - i
  {
    if i < |outcomes| && outcomes[i] == Throws {
      TriesFromBound(outcomes, i + 1);
    }
  }

  lemma {:induction false} RunTwo(p: Page, v: View, a: Action, b: Action)
    ensures Run(p, v, [a, b]) == Step(p, Step(p, v, a), b)
  {
    assert [a, b] == [a] + [b];
    RunConcat(p, v, [a], [b]);
    RunOne(p, v, a);
    RunOne(p, Step(p, v, a), b);
  }

  lemma {:induction false} AttemptSteps(p: Page, v: View, u: string)
    ensures Run(p, v, Attempt(u)) == Step(p, ShowIn(p, ClearIn(p, v), Received, Success), Open(u))
  {
    assert Attempt(u) == [ClearForm] + [ShowStatus(Received, Success), Open(u)];
    RunConcat(p, v, [ClearForm], [ShowStatus(Received, Success), Open(u)]);
    RunOne(p, v, ClearForm);
    RunTwo(p, ClearIn(p, v), ShowStatus(Received, Success), Open(u));
  }

  /** One attempt of the chain, replayed: the next attempt follows only when the open throws. */
  lemma {:induction false} ChainStep(p: Page, v: View, links: seq<string>, outcomes: seq<Outcome>, i: nat, mailto: string)
    requires |links| == |outcomes| && i < |links|
    ensures Run(p, v, ChainFrom(links, outcomes, i, mailto)) ==
      if outcomes[i] != Throws then Run(p, v, Attempt(links[i]))
      else Run(p, Run(p, v, Attempt(links[i])), ChainFrom(links, outcomes, i + 1, mailto))
  {
    var att := Attempt(links[i]);
    if outcomes[i] != Throws {
      assert ChainFrom(links, outcomes, i, mailto) == att + [];
      RunConcat(p, v, att, []);
    } else {
      RunConcat(p, v, att, ChainFrom(links, outcomes, i + 1, mailto));
    }
  }

  /** The desktop path, replayed: Gmail's open first, then either the success or the attempts after Gmail. */
  lemma {:induction false} DesktopSteps(p: Page, v: View, l: Links, o: Outcomes)
    ensures Run(p, v, DesktopChain(l, o)) ==
      var v1 := Step(p, v, Open(l.gmail));
      if o.gmail == Handle then Run(p, v1, [ClearForm, ShowStatus(Received, Success)])
      else Run(p, v1, ChainFrom(Fallbacks(l), FallbackOutcomes(o), 0, l.mailto))
  {
    var rest := if o.gmail == Handle then [ClearForm, ShowStatus(Received, Success)]
                else ChainFrom(Fallbacks(l), FallbackOutcomes(o), 0, l.mailto);
    RunConcat(p, v, [Open(l.gmail)], rest);
    RunOne(p, v, Open(l.gmail));
  }

  /**
   * A delivery, replayed: the opening message, then on a mobile device the
   * form cleared and the navigation, on a desktop the desktop path.
   */
  lemma {:induction false} DeliverSteps(p: Page, v: View, l: Links, mobile: bool, o: Outcomes)
    ensures Run(p, v, Deliver(l, mobile, o)) ==
      var v1 := ShowIn(p, v, Opening, Success);
      if mobile then Run(p, v1, [ClearForm, Navigate(l.mailto)]) else Run(p, v1, DesktopChain(l, o))
  {
    var rest := if mobile then [ClearForm, Navigate(l.mailto)] else DesktopChain(l, o);
    RunConcat(p, v, [ShowStatus(Opening, Success)], rest);
    RunOne(p, v, ShowStatus(Opening, Success));
  }

  /** A failed check changes only the status region: the fields, the fallback link and the browser are untouched. */
  lemma {:induction false} InvalidKeepsForm(p: Page, v: View, f: Fields, mobile: bool, o: Outcomes)
    requires CheckForm(f, p.hasSelect).Some?
    ensures var w := Run(p, v, Submission(p, f, mobile, o));
      w == ShowIn(p, v, CheckForm(f, p.hasSelect).value, Error)
      && w.fields == v.fields && w.fallbackLinks == v.fallbackLinks && w.requests == v.requests
  {
    InvalidStops(p, f, mobile, o);
    RunOne(p, v, ShowStatus(CheckForm(f, p.hasSelect).value, Error));
  }

  /**
   * The desktop path, replayed on the page: the form ends cleared, the links
   * opened are the first Tries(o) of Gmail, Outlook, Yahoo, mailto, and the
   * error with the one fallback link (to the mailto URI) appear exactly when
   * Gmail gives no window and every later open throws. Each success shown
   * leaves a hide timer behind.
   */
  lemma {:induction false} DesktopRun(p: Page, v: View, l: Links, o: Outcomes)
    requires |v.fallbackLinks| <= 1
    ensures 1 <= Tries(o) <= 4
    ensures var w := Run(p, v, DesktopChain(l, o));
      var failed := o.gmail != Handle && o.outlook == Throws && o.yahoo == Throws && o.mailto == Throws;
      w.fields == p.defaults
      && w.requests == v.requests + OpenAll([l.gmail, l.outlook, l.yahoo, l.mailto][..Tries(o)])
      && w.status == (if !p.hasStatus then v.status
                      else if failed then Status(CouldNotOpen, Some(Error), true)
                      else Status(Received, Some(Success), true))
      && w.fallbackLinks == (if failed && p.hasContainer then [l.mailto] else [])
      && w.pendingHides == v.pendingHides + (if !p.hasStatus then 0 else if o.gmail == Handle then 1 else Tries(o) - 1)
  {
    var all := [l.gmail, l.outlook, l.yahoo, l.mailto];
    var v1 := Step(p, v, Open(l.gmail));
    DesktopSteps(p, v, l, o);
    assert all[..Tries(o)][0] == l.gmail;
    if o.gmail == Handle {
      RunTwo(p, v1, ClearForm, ShowStatus(Received, Success));
      assert all[..Tries(o)] == [l.gmail];
      assert OpenAll(all[..Tries(o)][1..]) == [];
    } else {
      var os := FallbackOutcomes(o);
      ChainRun(p, v1, Fallbacks(l), os, 0, l.mailto);
      FallbackTries(o);
      FallbackSlice(l, Tries(o));
    }
  }

  /** After Gmail gives no window, the fallbacks make up the rest of the tries. */
  lemma {:induction false} FallbackTries(o: Outcomes)
    requires o.gmail != Handle
    ensures TriesFrom(FallbackOutcomes(o), 0) == Tries(o) - 1
    ensures AllThrow(FallbackOutcomes(o), 0) <==> o.outlook == Throws && o.yahoo == Throws && o.mailto == Throws
  {
    var os := FallbackOutcomes(o);
    assert TriesFrom(os, 3) == 0;
    assert TriesFrom(os, 2) == 1;
    assert TriesFrom(os, 1) == if o.yahoo != Throws then 1 else 2;
    assert os[0] == o.outlook && os[1] == o.yahoo && os[2] == o.mailto;
  }

  /** The links after Gmail among the first k opened are the first k - 1 fallbacks. */
  lemma {:induction false} FallbackSlice(l: Links, k: nat)
    requires 1 <= k <= 4
    ensures [l.gmail, l.outlook, l.yahoo, l.mailto][..k][1..] == Fallbacks(l)[0..k - 1]
  {
    var all := [l.gmail, l.outlook, l.yahoo, l.mailto];
    assert all[1..] == Fallbacks(l);
    assert all[..k][1..] == all[1..][..k - 1];
  }

  /**
   * The terminal failure of a desktop submission: the form is cleared, the
   * error is shown, exactly one fallback link (to the mailto URI) is present,
   * and all four links were opened. The four success messages shown before
   * the error (the opening message and three attempts) left four hide timers
   * behind, so the first of them to fire hides the error: it does not stay.
   */
  lemma {:induction false} TerminalFailure(p: Page, v: View, l: Links, o: Outcomes)
    requires p.hasStatus && p.hasContainer && |v.fallbackLinks| <= 1
    requires o.gmail != Handle && o.outlook == Throws && o.yahoo == Throws && o.mailto == Throws
    ensures var w := Run(p, v, Deliver(l, false, o));
      w.fields == p.defaults
      && w.status == Status(CouldNotOpen, Some(Error), true)
      && w.fallbackLinks == [l.mailto]
      && w.requests == v.requests + [Open(l.gmail), Open(l.outlook), Open(l.yahoo), Open(l.mailto)]
      && w.pendingHides == v.pendingHides + 4
      && !HideFired(w).status.visible
  {
    DeliverSteps(p, v, l, false, o);
    var v1 := ShowIn(p, v, Opening, Success);
    DesktopRun(p, v1, l, o);
    var all := [l.gmail, l.outlook, l.yahoo, l.mailto];
    assert all[..4] == all;
    assert OpenAll(all) == [Open(l.gmail), Open(l.outlook), Open(l.yahoo), Open(l.mailto)] by {
      var t3 := all[1..][1..][1..];
      assert t3 == [l.mailto] && t3[1..] == [];
      assert OpenAll(t3) == [Open(l.mailto)];
      assert OpenAll(all[1..][1..]) == [Open(l.yahoo), Open(l.mailto)];
      assert OpenAll(all[1..]) == [Open(l.outlook), Open(l.yahoo), Open(l.mailto)];
    }
  }

  /**
   * When Gmail gives a window the handler stops there: the form is cleared,
   * the success is shown and only the Gmail link was opened.
   */
  lemma {:induction false} GmailSuccess(p: Page, v: View, l: Links, o: Outcomes)
    requires p.hasStatus && |v.fallbackLinks| <= 1 && o.gmail == Handle
    ensures var w := Run(p, v, Deliver(l, false, o));
      w.fields == p.defaults && w.fallbackLinks == []
      && w.status == Status(Received, Some(Success), true)
      && w.requests == v.requests + [Open(l.gmail)]
      && w.pendingHides == v.pendingHides + 2
  {
    DeliverSteps(p, v, l, false, o);
    var v1 := ShowIn(p, v, Opening, Success);
    DesktopRun(p, v1, l, o);
    assert [l.gmail, l.outlook, l.yahoo, l.mailto][..1] == [l.gmail];
    assert OpenAll([l.gmail]) == [Open(l.gmail)] by { assert [l.gmail][1..] == []; }
  }

  /**
   * On a mobile device the form is cleared, the status hidden, any fallback
   * link removed, and the only request is the navigation to the mailto URI.
   */
  lemma {:induction false} MobileRun(p: Page, v: View, l: Links, o: Outcomes)
    requires |v.fallbackLinks| <= 1
    ensures var w := Run(p, v, Deliver(l, true, o));
      w.fields == p.defaults && w.fallbackLinks == []
      && (p.hasStatus ==> !w.status.visible)
      && w.requests == v.requests + [Navigate(l.mailto)]
  {
    DeliverSteps(p, v, l, true, o);
    RunTwo(p, ShowIn(p, v, Opening, Success), ClearForm, Navigate(l.mailto));
  }

  // ---------------------------------------------------------------------
  // The form, its status region and its fallback link

  /**
   * The contact form with the status region and the fallback link that
   * setupContactForm's closures change. requests holds the window.open calls
   * and the navigation the handler asks of the browser.
   */
  class ContactForm {
    const page: Page
    var fields: Fields
    var status: Status
    var fallbackLinks: seq<string>
    var pendingHides: nat
    var requests: seq<Action>

    ghost function State(): View
      reads this
    {
      View(fields, status, fallbackLinks, pendingHides, requests)
    }

    /** At most one fallback link is present. */
    ghost predicate Valid()
      reads this
    {
      |fallbackLinks| <= 1
    }

    /** The site's form, with its recipient and wording; nothing shown, no link, nothing asked yet. */
    constructor (hasStatus: bool, hasContainer: bool, hasSelect: bool, defaults: Fields)
      ensures page == Page(ToAddress, SiteWording, hasStatus, hasContainer, hasSelect, defaults)
      ensures Valid() && State() == View(defaults, Status("", None, false), [], 0, [])
    {
      page := Page(ToAddress, SiteWording, hasStatus, hasContainer, hasSelect, defaults);
      fields := defaults;
      status := Status("", None, false);
      fallbackLinks := [];
      pendingHides := 0;
      requests := [];
    }

    /** showFormStatus. */
    method ShowFormStatus(text: string, kind: Kind)
      modifies this
      ensures State() == ShowIn(page, old(State()), text, kind)
    {
      if page.hasStatus {
        status := Status(text, Some(kind), true);
        if kind == Success {
          pendingHides := pendingHides + 1;
        }
      }
    }

    /** One of the pending 4-second timers of showFormStatus fires. */
    method HideTimerFires()
      requires pendingHides > 0
      modifies this
      ensures State() == HideFired(old(State()))
    {
      status := status.(visible := false);
      pendingHides := pendingHides - 1;
    }

    /** addFallbackLink. */
    method AddFallbackLink(href: string)
      modifies this
      ensures State() == AddLinkIn(page, old(State()), href)
    {
      if fallbackLinks == [] && page.hasContainer {
        fallbackLinks := fallbackLinks + [href];
      }
    }

    /** removeFallbackLink. */
    method RemoveFallbackLink()
      modifies this
      ensures State() == RemoveLinkIn(old(State()))
    {
      if fallbackLinks != [] {
        fallbackLinks := fallbackLinks[1..];
      }
    }

    /** clearForm. */
    method ClearForm()
      modifies this
      ensures State() == ClearIn(page, old(State()))
    {
      fields := page.defaults;
      if page.hasStatus {
        status := status.(visible := false);
      }
      RemoveFallbackLink();
    }

    /** A window.open call or the assignment to location.href, as asked of the browser. */
    method Request(a: Action)
      requires a.Open? || a.Navigate?
      modifies this
      ensures State() == Step(page, old(State()), a)
    {
      requests := requests + [a];
    }

    /**
     * One of the try blocks after Gmail: clear the form, announce success,
     * open url; thrown tells whether the open threw, so the next block runs.
     */
    method TryProvider(url: string, outcome: Outcome) returns (thrown: bool)
      requires Valid()
      modifies this
      ensures Valid() && fallbackLinks == []
      ensures State() == Run(page, old(State()), Attempt(url))
      ensures thrown <==> outcome == Throws
    {
      AttemptSteps(page, State(), url);
      AttemptRun(page, State(), url);
      ClearForm();
      ShowFormStatus(Received, Success);
      Request(Open(url));
      thrown := outcome == Throws;
    }

    /**
     * The submit handler, for the user agent of the browser and the outcomes
     * its window.open calls would have: the page ends in the state that
     * replaying Submission's actions gives.
     */
    method Submit(userAgent: string, o: Outcomes)
      requires Valid()
      modifies this
      ensures Valid()
      ensures State() == Run(page, old(State()), Submission(page, old(fields), IsMobileUserAgent(userAgent), o))
    {
      ghost var v0 := State();
      var e := ReadEntry(fields, page.hasSelect);
      var err := Validate(e);
      if err.Some? {
        ShowFormStatus(err.value, Error);
        RunOne(page, v0, ShowStatus(err.value, Error));
        return;
      }
      var l := LinksFor(page.to, page.wording, e);
      var mobile := IsMobileUserAgent(userAgent);
      assert CheckForm(v0.fields, page.hasSelect) == err;
      ghost var built := ValidSubmission(page, v0.fields, mobile, o);
      DeliverWith(l, mobile, o);
    }

    /**
     * The handler after the checks have passed, with the links it built: the
     * opening message, then the mobile or the desktop path.
     */
    method DeliverWith(l: Links, mobile: bool, o: Outcomes)
      requires Valid()
      modifies this
      ensures Valid()
      ensures State() == Run(page, old(State()), Deliver(l, mobile, o))
    {
      ghost var v0 := State();
      DeliverSteps(page, v0, l, mobile, o);
      ShowFormStatus(Opening, Success);
      ghost var v1 := State();
      if mobile {
        RunTwo(page, v1, Action.ClearForm, Navigate(l.mailto));
        ClearForm();
        Request(Navigate(l.mailto));
        return;
      }
      DesktopWith(l, o);
    }

    /** The desktop path: Gmail first, then the try blocks for Outlook, Yahoo and mailto. */
    method DesktopWith(l: Links, o: Outcomes)
      requires Valid()
      modifies this
      ensures Valid()
      ensures State() == Run(page, old(State()), DesktopChain(l, o))
    {
      ghost var v1 := State();
      DesktopSteps(page, v1, l, o);
      Request(Open(l.gmail));
      ghost var v2 := State();
      if o.gmail == Handle {
        RunTwo(page, v2, Action.ClearForm, ShowStatus(Received, Success));
        ClearForm();
        ShowFormStatus(Received, Success);
        return;
      }
      ghost var links, outcomes := Fallbacks(l), FallbackOutcomes(o);
      assert links[0] == l.outlook && links[1] == l.yahoo && links[2] == l.mailto;
      assert outcomes[0] == o.outlook && outcomes[1] == o.yahoo && outcomes[2] == o.mailto;
      ChainStep(page, v2, links, outcomes, 0, l.mailto);
      var thrown := TryProvider(l.outlook, o.outlook);
      if !thrown {
        return;
      }
      ChainStep(page, State(), links, outcomes, 1, l.mailto);
      thrown := TryProvider(l.yahoo, o.yahoo);
      if !thrown {
        return;
      }
      ChainStep(page, State(), links, outcomes, 2, l.mailto);
      thrown := TryProvider(l.mailto, o.mailto);
      if !thrown {
        return;
      }
      ghost var v3 := State();
      assert ChainFrom(links, outcomes, 3, l.mailto) == GiveUp(l.mailto);
      RunTwo(page, v3, ShowStatus(CouldNotOpen, Error), Action.AddFallbackLink(l.mailto));
      ShowFormStatus(CouldNotOpen, Error);
      AddFallbackLink(l.mailto);
    }
  }
}
