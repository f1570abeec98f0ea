# Portfolio site script, modelled in Dafny

This project models the behaviour of `js/script.js`, the single script of a
one-page portfolio site. It covers:

- the contact form: validation, composition of the message, the mailto and
  webmail compose links, and the delivery chain across a mobile mail client,
  Gmail, Outlook, Yahoo and a mailto window, ending at a manual fallback
  link; the status message, its hide timers and the fallback link are page
  state (`Contact`, with `UriComponent` and `MailLinks` for the links);
- the theme controller: the initial theme, `applyTheme`, the toggle's
  overlay and its timer phases, and the contrast pass that marks very light
  text on the light theme (`Theme`), with `parseRgb` and `hexToRgba`
  (`Colour`);
- the portfolio carousel's "centred item" search and clamped scrolling
  (`Carousel`);
- the in-page anchor scroll offset and the mobile menu toggle
  (`Navigation`);
- `throttle` and the double-tap guard (`Timing`);
- the mobile user-agent test (`UserAgent`) and the `.gmail-link` mail icons
  (`MailIcon`).

The browser does not appear in the model. What it reports becomes a
parameter:

- the outcome of each `window.open`: a window, null, or an exception;
- computed colours, and the luminance test as a predicate on parsed RGB;
- layout values, `Date.now()` and the user agent.

What the script asks of the browser becomes recorded state or a returned
request: opened URLs, navigations, scroll positions, `preventDefault`.
Stateful parts are classes whose methods are proved against step functions
on a value of the page state; the properties are lemmas about those step
functions.

Where the code and the design notes of the site disagree, the model follows
the code:

- **The fallback chain.** After a blocked Gmail window, the Outlook attempt
  ends the chain unless `window.open` throws. So the manual fallback link
  appears only when Gmail fails and the Outlook, Yahoo and mailto opens all
  throw. A browser that merely returns null does not reach it.
  (`Contact.TerminalFailureOnly`, `Contact.DesktopRun`)
- **`clearForm` runs once per attempt.** On the desktop it runs once per
  provider attempt, up to three times, rather than once per submission.
- **A failed validation resets nothing.** It shows the error and returns.
  A fallback link from an earlier submission stays, and so does the form
  (`Contact.InvalidKeepsForm`).
- **Every success message arms a hide timer, and none is cancelled.** A
  terminal failure therefore leaves four timers pending (the opening message
  and three "received" messages). The first of them hides the error message
  that was meant to persist (`Contact.TerminalFailure`).
- **The initial theme uses `||`.** An empty stored preference gives the dark
  theme, as a missing one does.
- **Start-up does not set `aria-label`.** It sets `aria-pressed` and the icon
  but leaves `aria-label` as the markup has it.
- **The contrast pass always clears.** It removes every existing marker first,
  whatever the theme, and only then returns early on the dark theme.
- **The idle contrast pass uses the start-up theme.** It runs with the theme
  from start-up, even after a toggle has changed the theme
  (`Theme.IdlePassAfterToggle`).

## Model

| member | source | states |
|---|---|---|
| JsText.Trim | js/script.js:444-449 | the trimmed value is empty exactly when the input is all white space, and otherwise starts and ends with non-space |
| JsText.TrimIsInfix | js/script.js:444-449 | the trimmed value is the input itself between its leading and its trailing white space: a slice s[a..b] with only white space before a and after b |
| Contact.CheckForm | js/script.js:444-465 | the name error iff the name is blank; the service error iff the name is present and the service is blank or there is no select; the message error iff both are present and the message is blank; no error iff all three are present |
| Contact.InvalidStops | js/script.js:453-465 | a failed check shows exactly that error and nothing else: no clear, no open, no navigation |
| Contact.InvalidKeepsForm | js/script.js:424-437 | after a failed check the fields, the fallback link and the requests are unchanged; only the status shows the error |
| Contact.ServiceLineShown | js/script.js:471-473 | with a service chosen, the body contains "Service Interest: <label>" on its own line |
| Contact.ServiceLineOnlyDifference | js/script.js:471-473 | the body with a service is the body without one, with the service line inserted after the message |
| Contact.PhoneLineShown | js/script.js:473 | the body contains "Phone: " followed by the phone, or "Not provided" when it is empty |
| Contact.MailtoCarriesMessage | js/script.js:469-477 | the mailto link targets mailto:<recipient> and its subject and body fields decode to "New Message from <name>" and the composed body |
| Contact.WebmailCarriesMessage | js/script.js:481-484 | the Gmail, Outlook and Yahoo links each decode to the recipient, the subject and the body |
| UriComponent.DecodeEncode | js/script.js:477-484 | decoding an encodeURIComponent result gives the original text back |
| UriComponent.EncodeInjective | js/script.js:477-484 | different texts never encode to the same component |
| UriComponent.Encode | js/script.js:477-484 | the encoding holds only unreserved characters and %XX escapes, and leaves unreserved text unchanged |
| MailLinks.MailtoReadsBack | js/script.js:477 | the mailto URI's target is mailto:<to> and its subject and body read back |
| MailLinks.GmailReadsBack | js/script.js:482 | the Gmail link's target is the Gmail base, with view=cm and fs=1, and its to, su and body read back |
| MailLinks.OutlookReadsBack | js/script.js:483 | the Outlook link's target is the Outlook base, with the compose path, and its to, subject and body read back |
| MailLinks.YahooReadsBack | js/script.js:484 | the Yahoo link's target is the Yahoo base, and its to, subject and body read back |
| MailLinks.ToAddressHasNoQuery | js/script.js:476 | the site's recipient holds no '?', so the raw address in the mailto URI is its whole target |
| UserAgent.IsMobileUserAgent | js/script.js:501 | the test holds iff one of Mobi, Android, iPhone, iPad, iPod occurs in the user agent, ASCII case ignored |
| UserAgent.MobileIgnoresCase | js/script.js:501 | lower-casing the user agent does not change the test |
| Contact.MobilePath | js/script.js:498-509 | on a mobile device, the opening message, one clear and a navigation to the mailto URI, with no window opened |
| Contact.ValidSubmission | js/script.js:444-509 | a submission that passes the checks delivers the four links built from the trimmed entry |
| Contact.DesktopOpens | js/script.js:511-570 | the desktop path opens Gmail, Outlook, Yahoo and the mailto URI in that order and stops after the first open that does not throw (Gmail stops on a window) |
| Contact.TerminalFailureOnly | js/script.js:557-570 | the fallback link is added iff Gmail gives no window and the three later opens all throw, and then the path ends with the error and the link |
| Contact.ChainOpens | js/script.js:532-566 | the attempts after Gmail open the next links in order, one more for each open that throws |
| Contact.ChainGivesUp | js/script.js:559-570 | the attempts end with the error and the fallback link iff every remaining open throws |
| Contact.ChainFallback | js/script.js:559-570 | a fallback link is requested somewhere in the attempts iff every remaining open throws |
| Contact.OpenedAttempt | js/script.js:533-540 | one provider attempt clears the form once and opens exactly its link |
| Contact.OpenedConcat | js/script.js:498-570 | the opened links and the clears of two action sequences add up |
| Contact.RunKeepsOneLink | js/script.js:574-576 | whatever happens, the page never holds more than one fallback link |
| Contact.RunConcat | js/script.js:439-571 | running two action sequences one after the other is running their concatenation |
| Contact.AttemptRun | js/script.js:533-540 | after one provider attempt the form holds its defaults, no fallback link remains, the "received" message shows with one more hide timer, and the link was opened |
| Contact.GiveUpRun | js/script.js:565-583 | giving up shows the error, arms no timer, and adds the mailto link when there is a container |
| Contact.ChainRun | js/script.js:532-570 | the page after the attempts: the defaults, the opened links in order, one timer per attempt, and the error with the fallback link exactly when every open threw |
| Contact.DesktopRun | js/script.js:511-604 | the page after the desktop path: form reset, 1 to 4 opens in provider order, the success or (all thrown) the error status, the fallback link only on terminal failure, and the number of hide timers |
| Contact.TerminalFailure | js/script.js:557-570 | on terminal failure the error and one mailto fallback link show after four opens, with four success timers pending; the first of them hides the error |
| Contact.GmailSuccess | js/script.js:514-530 | when Gmail opens, only Gmail is opened, the form is reset, the "received" message shows, and two hide timers are pending |
| Contact.MobileRun | js/script.js:503-509 | on a mobile device the form is reset, the status hidden, no fallback link remains, and the only request is the mailto navigation |
| Contact.ContactForm.constructor | js/script.js:415-422 | the form starts with its default values, a hidden empty status, no fallback link and no timers |
| Contact.ContactForm.ShowFormStatus | js/script.js:424-437 | the status shows the text with its kind when the region exists; a success arms a hide timer |
| Contact.ContactForm.HideTimerFires | js/script.js:432-434 | a pending hide timer hides the status, whatever it then shows |
| Contact.ContactForm.AddFallbackLink | js/script.js:574-583 | the link is added only when none exists and a container does |
| Contact.ContactForm.RemoveFallbackLink | js/script.js:585-591 | the existing fallback link, if any, is removed |
| Contact.ContactForm.ClearForm | js/script.js:593-604 | the fields return to their defaults, the status is hidden and the fallback link removed |
| Contact.ContactForm.Request | js/script.js:507-517 | a window open or navigation is recorded |
| Contact.ContactForm.TryProvider | js/script.js:533-543 | one attempt: clear, show "received", open; reports whether the open threw |
| Contact.ContactForm.Submit | js/script.js:439-571 | the page after a submit equals the step function run over everything that submission does |
| Contact.ContactForm.DeliverWith | js/script.js:498-509 | the page after delivery of a checked submission |
| Contact.ContactForm.DesktopWith | js/script.js:511-570 | the page after the desktop chain |
| Colour.ParseRgb | js/script.js:29-43 | an empty colour gives null; an rgb()/rgba() match gives its three numbers, unclamped |
| Colour.ListingReadsBack | js/script.js:31-32 | "rgb(x, y, z" or "rgba(x, y, z" followed by a non-digit parses to (x, y, z) |
| Colour.ShortReadsAsLong | js/script.js:35-41 | "#abc" parses the same as "#aabbcc" |
| Colour.ShortHexIsDoubled | js/script.js:35-41 | the channels of "#abc" are 17 times each digit |
| Colour.LongHexChannels | js/script.js:38-41 | "#rrggbb" parses to its three hex pairs, each in 0..255 |
| Colour.OtherHexLengthsFail | js/script.js:35-42 | hex digits of any length other than 3 or 6 give null |
| Colour.NeitherFormFails | js/script.js:29-42 | a colour with no rgb match that does not start with '#' after trimming gives null |
| Colour.HexChannels | js/script.js:241-248 | the channels are (n/65536)%256, (n/256)%256 and n%256 of the parsed number, each in 0..255, and 0 when nothing parses |
| Colour.ToInt32 | js/script.js:244-246 | the 32-bit value the shift operators see, congruent to the number modulo 2^32 |
| Colour.ByteOfInt32 | js/script.js:244-246 | the 32-bit conversion does not change the three low bytes |
| Colour.ChannelsFromNumber | js/script.js:241-248 | whatever integer the digits denote, read exactly, the channels are its three low bytes |
| Colour.HexToRgbaPairs | js/script.js:241-248 | for "#rrggbb" the channels are the three hex pairs |
| Colour.HexToRgbaShortIsDoubled | js/script.js:241-248 | a three-digit colour gives the same rgba text as its doubled six-digit form |
| Colour.HexToRgbaReadsBack | js/script.js:241-248 | the rgba text hexToRgba writes parses back to its three channels |
| Theme.NextTheme | js/script.js:120-121 | the next theme is light iff the current one is dark, and dark otherwise |
| Theme.TwoNextRestore | js/script.js:120-121 | two toggles restore the theme exactly when it is dark or light; any other value becomes light |
| Theme.MarkedIffVeryLight | js/script.js:18-63 | an element is marked iff the theme is light, it is one of the checked elements, and its colour parses to channels the luminance test finds very light; nothing is marked on the dark theme |
| Theme.UnreadableNeverMarked | js/script.js:53-55 | a colour that does not parse, or has a NaN channel, is never marked |
| Theme.OneOverlayPerClick | js/script.js:123-147 | a click leaves exactly one overlay, active, white iff the next theme is light, with the transition flag set |
| Theme.ThemeChangesUnderOverlay | js/script.js:146-161 | the theme is applied while the overlay is active, and deactivating and detaching it leave the theme as applied |
| Theme.AppliedLook | js/script.js:98-111 | after applyTheme(t) the root and the storage hold t, aria-pressed is "true" iff t is dark, the icon is the moon iff t is dark, and no element is marked unless t is light |
| Theme.ToggleOutcome | js/script.js:119-163 | on a page with the toggle button, a full toggle chain ends with the next theme applied and stored, no overlay, the flag cleared, the marks recomputed and the button's attributes for the new theme |
| Theme.TwoTogglesRestore | js/script.js:119-163 | on a page with the toggle button, two complete toggles from dark or light restore the theme and the button |
| Theme.IdlePassAfterToggle | js/script.js:165-166 | after a toggle to dark the idle pass still marks with the start-up light theme, judging colours under the dark theme |
| Theme.ThemeController.constructor | js/script.js:113-118 | the root holds the stored theme read at js/script.js:13-15, or dark when it is missing or empty; aria-pressed and the icon match; nothing is stored |
| Theme.ThemeController.AdjustContrast | js/script.js:18-63 | the loop over the checked elements leaves exactly the very light ones marked on the light theme, and none otherwise |
| Theme.ThemeController.ApplyTheme | js/script.js:98-111 | the controller's state after applyTheme |
| Theme.ThemeController.Toggle | js/script.js:119-147 | the click's immediate effect, on a page with the toggle button (the only place the listener exists): overlay created or reused, coloured, flag set, overlay active |
| Theme.ThemeController.ApplyPhase | js/script.js:150-151 | the first timer applies the chosen theme |
| Theme.ThemeController.DeactivatePhase | js/script.js:154-155 | the second timer deactivates the overlay |
| Theme.ThemeController.DetachPhase | js/script.js:157-158 | the third timer removes the overlay |
| Theme.ThemeController.ClearFlagPhase | js/script.js:143 | the 900 ms timer clears the transition flag |
| Theme.ThemeController.ToggleAndWait | js/script.js:119-163 | a click followed by all its timers |
| Theme.ThemeController.IdlePass | js/script.js:165-166 | the idle pass marks with the start-up theme |
| Carousel.DoubledDistance | js/script.js:618-623 | the integer distance used is exactly twice the distance between the centres |
| Carousel.DoubledOrder | js/script.js:618-624 | comparing doubled distances decides as comparing the script's distances |
| Carousel.FirstMinimum | js/script.js:619-626 | 0 for an empty list; otherwise the first position of the least value |
| Carousel.FirstMinimumUnique | js/script.js:619-626 | only one position is the first minimum |
| Carousel.GetCenteredIndex | js/script.js:617-627 | the loop returns 0 for no items and otherwise the first item of least distance to the centre |
| Carousel.TiesGoLeft | js/script.js:624 | an item exactly as near as an earlier one is never the centred one |
| Carousel.ScrollTarget | js/script.js:629-636 | the requested index clamped to [0, len-1]; nothing scrolls when there are no items |
| Carousel.ScrollTargetIdempotent | js/script.js:629-631 | clamping a clamped index changes nothing |
| Carousel.PrevClick | js/script.js:638-641 | the previous button scrolls to the clamped index before the centred item |
| Carousel.NextClick | js/script.js:643-646 | the next button scrolls to the clamped index after the centred item |
| Carousel.ButtonsStep | js/script.js:629-646 | previous moves one item back or stays on the first; next moves one forward or stays on the last |
| Carousel.EmptyCarouselStill | js/script.js:629-646 | with no items neither button scrolls |
| Navigation.ScrollTop | js/script.js:292-297 | the scroll position is never negative; when positive, the section lands exactly the header height (70 without a header), plus 20 on viewports at most 720 wide, below the viewport top |
| Navigation.MobileStopsHigher | js/script.js:294-297 | on a narrow viewport the page stops 20 pixels higher than on a wide one |
| Navigation.ScrollTopFromDocumentPosition | js/script.js:295-297 | the result depends only on the section's position in the document |
| Navigation.ToggleFlips | js/script.js:318-327 | a toggle opens a closed menu and closes an open one, keeping aria-expanded, the active class and the label in step |
| Navigation.TwoTogglesRestore | js/script.js:318-327 | two toggles restore the menu |
| Navigation.ToggleKeepsMismatch | js/script.js:319-322 | the toggle trusts aria-expanded: a button out of step with the menu stays out of step |
| Navigation.CloseResets | js/script.js:330-338 | closing leaves the menu closed, and with a button, coherent |
| Navigation.NavMenu.constructor | js/script.js:315-317 | the menu as the markup delivers it |
| Navigation.NavMenu.ToggleClick | js/script.js:317-327 | the toggle's click handler |
| Navigation.NavMenu.NavClick | js/script.js:330-338 | a click on a link inside the menu closes it |
| Navigation.NavMenu.AnchorClick | js/script.js:285-311 | a "#section" link that selects an element scrolls to ScrollTop and closes an open menu; "#" alone or a missing target changes nothing |
| Timing.SpacedApart | js/script.js:377-383 | calls let through k positions apart are at least k times the wait apart |
| Timing.Throttle.constructor | js/script.js:377-379 | last starts at 0 |
| Timing.Throttle.Call | js/script.js:379-382 | a call goes through iff at least wait has passed since the last call that went through, and the spacing invariant is kept |
| Timing.Cancelled | js/script.js:262-269 | each touchend is cancelled iff it comes within 300 ms of the previous touchend |
| Timing.RapidTapsCancelled | js/script.js:262-269 | in a run of taps each within 300 ms of the one before, every tap after the first is cancelled |
| Timing.CancelledSnoc | js/script.js:262-269 | a new touchend is judged against the last touchend, cancelled or not |
| Timing.DoubleTapGuard.constructor | js/script.js:262 | lastTouchEnd starts at 0 |
| Timing.DoubleTapGuard.TouchEnd | js/script.js:263-269 | preventDefault iff within 300 ms of lastTouchEnd, which then becomes now |
| MailIcon.StripMailto | js/script.js:692 | one leading "mailto:", in any ASCII case, is removed; other text is kept |
| MailIcon.StripUndoesScheme | js/script.js:692 | removing the scheme undoes prefixing it, in any letter case |
| MailIcon.StripOnlyLeading | js/script.js:692 | text that does not start with the scheme is kept whole |
| MailIcon.Recipient | js/script.js:692 | data-email when present, else the href without its scheme, else empty |
| MailIcon.RewriteForMobile | js/script.js:691-697 | an icon with a recipient gets a plain mailto href and loses target and rel; without one it is unchanged |
| MailIcon.RewriteKeepsRecipient | js/script.js:691-697 | the rewritten icon names the same recipient |
| MailIcon.RewriteIdempotent | js/script.js:691-697 | rewriting twice is rewriting once |
| MailIcon.SetupMailIcons | js/script.js:683-703 | on a mobile agent every icon is rewritten in place; otherwise the icons are unchanged and click handlers are attached when there are icons |
| MailIcon.DesktopClick | js/script.js:704-721 | a modified or middle click is left to the browser; otherwise no request for an empty recipient, else the composer, then a mailto fallback iff no window opened |
| MailIcon.DesktopClickAddressesRecipient | js/script.js:708-721 | the composer's to field reads back to the recipient with empty subject and body, and the fallback mailto link names the recipient |
| MailIcon.MobileMatchesFallback | js/script.js:694-720 | the mobile href is the desktop fallback link |

## Left out

- Luminance: the sRGB luminance formula with `Math.pow` is floating point. It is an injected predicate `veryLight` on parsed channels.
- `updateProfileImage` and the start-up profile image swap are left out. They are a presentation timer with no state the rest reads.
- The random background code is left out: `randomInt`, `pick`, `buildRadials`, `applyRandomBackground` and its interval. It uses `Math.random` and trigonometry, and `applyRandomBackground` only removes a style property.
- IntersectionObserver wiring (active nav link, scroll reveal) is left out. It is browser callback plumbing.
- The portfolio-card attribute defaulting and keyboard activation are left out. So are the demo button, the year update, `gesturestart` prevention and console logging.
- `runWhenIdle`'s choice between `requestIdleCallback` and `setTimeout` is left out. The idle pass is a method the caller runs later (`Theme.ThemeController.IdlePass`).
- `openUrl` (js/script.js:487-495) is left out. It is defined and never called.
- `throttle` is defined and never called in the script. Its closure is modelled on its own.
- Timer durations are left out. Only the order of the phases is kept: overlay fade-in, apply, fade-out, removal, and the 900 ms flag removal last.
- Overlapping toggle or submit chains are not modelled. The methods require an idle controller.
- Theme.ThemeController.Toggle: requires no toggle chain in progress. A click during a running chain is not modelled.
- localStorage is a plain field. It is never unavailable, because the script does not guard it.
- `document.querySelector(href)` throwing on an invalid selector is not modelled. `Navigation.NavMenu.AnchorClick` takes whether the target exists.
- Layout values (offsetLeft, offsetWidth, scrollLeft, clientWidth, scrollY, rect.top) are whole pixels in the model. Browsers may report fractional scroll positions.
- Carousel.GetCenteredIndex: compares doubled integer distances. `Carousel.DoubledOrder` proves the same decisions as the script's halved distances for integer layout values.
- `encodeURIComponent` throwing on lone surrogates is not modelled. Dafny characters are Unicode scalar values.
- Colour.HexChannels: reads the digits as an exact integer. The script's parseInt returns a double, so 14 or more hex digits are rounded before ToInt32: "#ffffffffffffffff" gives rgba(0, 0, 0, a) in the script and 255, 255, 255 here. The script's only caller passes six-digit colours from its own palettes (js/script.js:221-234), where both agree.
- Colour.ParseRgb and Colour.HexToRgba: string lengths and `split('')` count UTF-16 code units in the script, but Unicode scalar values here. They differ on colours holding a character outside the Basic Multilingual Plane: for "#a😀" the script sees three units and reads "aa" (170), the model sees two characters and reads "a" (10).
- Contact.Fields: the name, phone and message controls are assumed present. The script reads `.value` of `getElementById` without a check (js/script.js:444-449), which throws when a control is missing; that exception is not modelled.
- The concrete message for the site's wording and recipient is not unfolded. The composition lemmas hold for every wording and recipient, and the class fixes them to the site's.
