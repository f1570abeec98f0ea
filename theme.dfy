/**
 * The theme controller of js/script.js: the start-up choice of theme
 * (lines 13-15, 110-116), applyTheme (98-108), the toggle handler with its
 * overlay and its chain of timers (117-163), and the contrast pass
 * adjustContrastForLightMode (18-63), run by applyTheme and once when the
 * browser is idle (166).
 *
 * The timers of the toggle handler become explicit phases that must follow
 * each other in the order the delays enforce: the click (overlay active,
 * transition flag set), applyTheme at 260 ms, the overlay made inactive at
 * 420 ms, the overlay removed at 840 ms, the transition flag cleared at
 * 900 ms. The look of the page is the value Look; the step functions on it
 * say what each phase does, and the class ThemeController runs the phases on
 * fields and is proved to follow them.
 */
module Theme {
  import opened Wrappers
  import opened Colour

  const Dark: string := "dark"
  const Light: string := "light"

  /** The theme the page starts in: the stored preference, unless it is missing or empty. */
  function InitialTheme(saved: Option<string>): string {
    if saved.Some? && saved.value != [] then saved.value else Dark
  }

  /** The theme a click switches to: light from dark, dark from anything else. */
  function NextTheme(current: string): (next: string)
    ensures next == Light <==> current == Dark
    ensures next == Dark <==> current != Dark
  {
    if current == Dark then Light else Dark
  }

  /** Two clicks bring a theme back exactly when it is dark or light; any other value ends up light. */
  lemma {:induction false} TwoNextRestore(t: string)
    ensures NextTheme(NextTheme(t)) == t <==> t == Dark || t == Light
    ensures t != Dark ==> NextTheme(NextTheme(t)) == Light
  {
  }

  // ---------------------------------------------------------------------
  // The contrast pass

  /**
   * The luminance test "luminance > 0.85" on a computed text colour: the
   * colour must parse and each channel be a number. A NaN channel makes the
   * luminance NaN, and NaN > 0.85 is false, so such a colour is never very
   * light. veryLight stands for the floating-point luminance comparison.
   */
  predicate VeryLightColour(colour: string, veryLight: (int, int, int) -> bool) {
    match ParseRgb(colour)
    case Some(Rgb(Int(r), Int(g), Int(b))) => veryLight(r, g, b)
    case _ => false
  }

  /**
   * What the controller reads and never changes: whether the page has the
   * toggle button and the icon inside it, the elements matching the contrast
   * selectors in document order, their computed text colour while the root
   * shows a given theme, and the luminance test.
   */
  datatype Page = Page(hasToggle: bool, hasIcon: bool, nodes: seq<nat>,
                       colourOf: (nat, string) -> string, veryLight: (int, int, int) -> bool)

  /** The elements the contrast pass for theme t marks while the root shows root. */
  function Marks(p: Page, t: string, root: string): set<nat> {
    if t != Light then {} else set i | i in p.nodes && VeryLightColour(p.colourOf(i, root), p.veryLight)
  }

  /**
   * The markers are exactly the matching elements whose colour is very light,
   * and there are none unless the pass is for the light theme.
   */
  lemma {:induction false} MarkedIffVeryLight(p: Page, t: string, root: string, i: nat)
    ensures i in Marks(p, t, root) <==>
      t == Light && i in p.nodes && VeryLightColour(p.colourOf(i, root), p.veryLight)
    ensures t != Light ==> Marks(p, t, root) == {}
  {
  }

  /** An element whose colour has a NaN channel, or does not parse, is never marked. */
  lemma {:induction false} UnreadableNeverMarked(p: Page, t: string, root: string, i: nat)
    requires ParseRgb(p.colourOf(i, root)).None?
      || ParseRgb(p.colourOf(i, root)).value.r.NaN?
      || ParseRgb(p.colourOf(i, root)).value.g.NaN?
      || ParseRgb(p.colourOf(i, root)).value.b.NaN?
    ensures i !in Marks(p, t, root)
  {
  }

  // ---------------------------------------------------------------------
  // The look of the page and the phases of a toggle

  datatype Icon = Moon | Sun

  /** The overlay element: whether it has the class active, and its background colour. */
  datatype Overlay = Overlay(active: bool, colour: string)

  /**
   * Where a toggle is: none under way, or waiting for the next timer of its
   * chain. FadingIn remembers the theme the click chose.
   */
  datatype Phase = Idle | FadingIn(next: string) | Applied | FadingOut | Detached

  /**
   * What the controller changes: the root's data-theme, the stored preference
   * (localStorage 'theme'), the toggle's aria-pressed, aria-label and
   * icon (None while unset by the script), the overlay elements, the root's
   * theme-transition class, the elements carrying needs-dark-bg, and the phase.
   */
  datatype Look = Look(theme: string, stored: Option<string>, ariaPressed: Option<string>,
                       ariaLabel: Option<string>, icon: Option<Icon>, overlays: seq<Overlay>,
                       transitioning: bool, marked: set<nat>, phase: Phase)

  const WhiteOverlay: string := "rgba(255,255,255,0.94)"
  const BlackOverlay: string := "rgba(0,0,0,0.92)"

  function OverlayColour(next: string): string {
    if next == Light then WhiteOverlay else BlackOverlay
  }

  function PressedText(t: string): string {
    if t == Dark then "true" else "false"
  }

  function IconFor(t: string): Icon {
    if t == Dark then Moon else Sun
  }

  function LabelFor(t: string): string {
    if t == Dark then "Switch to light mode" else "Switch to dark mode"
  }

  /** applyTheme(t): the root, the storage, the toggle's attributes and icon, then the contrast pass. */
  function ApplyIn(p: Page, v: Look, t: string): Look {
    v.(theme := t, stored := Some(t),
       ariaPressed := if p.hasToggle then Some(PressedText(t)) else v.ariaPressed,
       icon := if p.hasToggle && p.hasIcon then Some(IconFor(t)) else v.icon,
       ariaLabel := if p.hasToggle then Some(LabelFor(t)) else v.ariaLabel,
       marked := Marks(p, t, t))
  }

  /**
   * The click: the next theme chosen, the overlay found or created, coloured
   * for the direction and made active, the transition flag set.
   */
  function StartIn(v: Look): Look {
    var next := NextTheme(v.theme);
    var o := Overlay(true, OverlayColour(next));
    v.(overlays := if v.overlays == [] then [o] else [o] + v.overlays[1..],
       transitioning := true, phase := FadingIn(next))
  }

  /** At 260 ms: applyTheme with the theme the click chose. */
  function ApplyPhaseIn(p: Page, v: Look): Look
    requires v.phase.FadingIn?
  {
    ApplyIn(p, v, v.phase.next).(phase := Applied)
  }

  /** At 420 ms: the overlay loses the class active. */
  function DeactivateIn(v: Look): Look
    requires v.overlays != []
  {
    v.(overlays := [v.overlays[0].(active := false)] + v.overlays[1..], phase := FadingOut)
  }

  /** At 840 ms: the overlay is removed from the document. */
  function DetachIn(v: Look): Look
    requires v.overlays != []
  {
    v.(overlays := v.overlays[1..], phase := Detached)
  }

  /** At 900 ms: the transition flag goes. */
  function ClearFlagIn(v: Look): Look {
    v.(transitioning := false, phase := Idle)
  }

  /**
   * The phases fit together: at most one overlay, none and no flag once the
   * chain is over, and while the chain runs the overlay has the colour for
   * the chosen direction and is active until its fade-out.
   */
  ghost predicate Coherent(v: Look) {
    |v.overlays| <= 1
    && match v.phase
       case Idle => !v.transitioning
       case FadingIn(next) =>
         v.transitioning && v.overlays == [Overlay(true, OverlayColour(next))] && next == NextTheme(v.theme)
       case Applied => v.transitioning && |v.overlays| == 1 && v.overlays[0].active
       case FadingOut => v.transitioning && |v.overlays| == 1 && !v.overlays[0].active
       case Detached => v.transitioning && v.overlays == []
  }

  /**
   * A whole toggle, its five phases in order. The click listener exists only
   * when the page has the toggle button.
   */
  function ToggleIn(p: Page, v: Look): Look
    requires p.hasToggle && Coherent(v) && v.phase == Idle
  {
    var s := StartIn(v);
    var a := ApplyPhaseIn(p, s);
    ClearFlagIn(DetachIn(DeactivateIn(a)))
  }

  /**
   * A click leaves exactly one overlay, reusing the one present instead of
   * adding a second, white-ish when the next theme is light and near-black
   * otherwise, and the flag set.
   */
  lemma {:induction false} OneOverlayPerClick(v: Look)
    requires Coherent(v) && v.phase == Idle
    ensures var s := StartIn(v);
      |s.overlays| == 1 && s.overlays[0].active && s.transitioning
      && (s.overlays[0].colour == WhiteOverlay <==> NextTheme(v.theme) == Light)
      && Coherent(s)
  {
  }

  /**
   * The theme changes only in applyTheme, and applyTheme runs while the
   * overlay is active: after it is made active and before it is made inactive.
   */
  lemma {:induction false} ThemeChangesUnderOverlay(p: Page, v: Look)
    requires Coherent(v) && v.phase.FadingIn?
    ensures StartIn(v.(phase := Idle, transitioning := false)).theme == v.theme
    ensures v.overlays[0].active && ApplyPhaseIn(p, v).overlays == v.overlays
    ensures var a := ApplyPhaseIn(p, v);
      Coherent(a)
      && DeactivateIn(a).theme == a.theme && Coherent(DeactivateIn(a))
      && DetachIn(DeactivateIn(a)).theme == a.theme && Coherent(DetachIn(DeactivateIn(a)))
  {
  }

  /**
   * After applyTheme(t) the root and the storage hold t, aria-pressed is
   * "true" exactly for dark, the icon is the moon exactly for dark, and the
   * contrast markers are those of t.
   */
  lemma {:induction false} AppliedLook(p: Page, v: Look, t: string)
    ensures var w := ApplyIn(p, v, t);
      w.theme == t && w.stored == Some(t)
      && (p.hasToggle ==> (w.ariaPressed == Some("true") <==> t == Dark) && w.ariaPressed.Some?)
      && (p.hasToggle && p.hasIcon ==> (w.icon == Some(Moon) <==> t == Dark) && w.icon.Some?)
      && (t != Light ==> w.marked == {})
      && w.overlays == v.overlays && w.transitioning == v.transitioning
  {
  }

  /**
   * A whole toggle switches the root and the stored preference to the next
   * theme and leaves no overlay and no transition flag behind.
   */
  lemma {:induction false} ToggleOutcome(p: Page, v: Look)
    requires p.hasToggle && Coherent(v) && v.phase == Idle
    ensures var w := ToggleIn(p, v);
      var next := NextTheme(v.theme);
      w.theme == next && w.stored == Some(next)
      && w.overlays == [] && !w.transitioning && w.phase == Idle && Coherent(w)
      && w.marked == Marks(p, next, next)
      && w.ariaPressed == Some(PressedText(next)) && w.ariaLabel == Some(LabelFor(next))
  {
    var s := StartIn(v);
    OneOverlayPerClick(v);
    var a := ApplyPhaseIn(p, s);
    assert a.overlays == s.overlays && a.theme == NextTheme(v.theme);
  }

  /**
   * Two toggles from dark or light come back to it: the same root theme and
   * stored preference, the same toggle state, the same markers, no overlay
   * left in the document.
   */
  lemma {:induction false} TwoTogglesRestore(p: Page, v: Look)
    requires p.hasToggle && Coherent(v) && v.phase == Idle && (v.theme == Dark || v.theme == Light)
    ensures var w := ToggleIn(p, v); var u := ToggleIn(p, w);
      u.theme == v.theme && u.stored == Some(v.theme)
      && u.overlays == [] && !u.transitioning && u.phase == Idle
      && u.marked == Marks(p, v.theme, v.theme)
      && u.ariaPressed == Some(PressedText(v.theme)) && u.ariaLabel == Some(LabelFor(v.theme))
  {
    ToggleOutcome(p, v);
    var w := ToggleIn(p, v);
    ToggleOutcome(p, w);
    TwoNextRestore(v.theme);
  }

  // ---------------------------------------------------------------------
  // The controller

  /** The root element, the stored preference, the toggle button, the overlay and the markers. */
  class ThemeController {
    const page: Page
    /** The theme the page started in, which the idle contrast pass uses. */
    const initialTheme: string
    var theme: string
    var stored: Option<string>
    var ariaPressed: Option<string>
    var ariaLabel: Option<string>
    var icon: Option<Icon>
    var overlays: seq<Overlay>
    var transitioning: bool
    var marked: set<nat>
    var phase: Phase

    ghost function State(): Look
      reads this
    {
      Look(theme, stored, ariaPressed, ariaLabel, icon, overlays, transitioning, marked, phase)
    }

    ghost predicate Valid()
      reads this
    {
      Coherent(State())
    }

    /**
     * Start-up: the root gets the stored preference, or dark when it is
     * missing or empty; the storage is not written; the toggle's
     * aria-pressed and icon match, its aria-label is left as the markup has it.
     */
    constructor (p: Page, saved: Option<string>)
      ensures page == p && Valid()
      ensures saved.Some? && saved.value != [] ==> theme == saved.value
      ensures saved.None? || saved.value == [] ==> theme == Dark
      ensures initialTheme == theme && stored == saved
      ensures ariaPressed == (if p.hasToggle then Some(PressedText(theme)) else None)
      ensures icon == (if p.hasToggle && p.hasIcon then Some(IconFor(theme)) else None)
      ensures ariaLabel == None && overlays == [] && !transitioning && marked == {} && phase == Idle
    {
      page := p;
      var t := InitialTheme(saved);
      initialTheme := t;
      theme := t;
      stored := saved;
      ariaPressed := if p.hasToggle then Some(PressedText(t)) else None;
      icon := if p.hasToggle && p.hasIcon then Some(IconFor(t)) else None;
      ariaLabel := None;
      overlays := [];
      transitioning := false;
      marked := {};
      phase := Idle;
    }

    /**
     * adjustContrastForLightMode(t): every marker removed, then, for the
     * light theme only, each matching element checked in document order and
     * marked when its colour under the current root theme is very light.
     */
    method AdjustContrast(t: string)
      modifies this`marked
      ensures marked == Marks(page, t, theme)
    {
      marked := {};
      if t != Light {
        return;
      }
      var nodes := page.nodes;
      var k := 0;
      while k < |nodes|
        invariant 0 <= k <= |nodes|
        invariant marked == set i | i in nodes[..k] && VeryLightColour(page.colourOf(i, theme), page.veryLight)
      {
        var el := nodes[k];
        var rgb := ParseRgb(page.colourOf(el, theme));
        var light := match rgb
          case Some(Rgb(Int(r), Int(g), Int(b))) => page.veryLight(r, g, b)
          case _ => false;
        if light {
          marked := marked + {el};
        }
        assert nodes[..k + 1] == nodes[..k] + [el];
        k := k + 1;
      }
      assert nodes[..k] == nodes;
    }

    /** applyTheme(t). */
    method ApplyTheme(t: string)
      modifies this
      ensures State() == ApplyIn(page, old(State()), t)
    {
      theme := t;
      stored := Some(t);
      if page.hasToggle {
        ariaPressed := Some(PressedText(t));
        if page.hasIcon {
          icon := Some(IconFor(t));
        }
        ariaLabel := Some(LabelFor(t));
      }
      AdjustContrast(t);
    }

    /** The click on the toggle button, when no toggle is under way. */
    method Toggle()
      requires page.hasToggle && Valid() && phase == Idle
      modifies this
      ensures Valid() && State() == StartIn(old(State()))
    {
      var next := NextTheme(theme);
      var o := Overlay(false, "");
      if overlays == [] {
        overlays := [o];
      }
      o := overlays[0].(colour := OverlayColour(next));
      overlays := [o] + overlays[1..];
      transitioning := true;
      overlays := [overlays[0].(active := true)] + overlays[1..];
      phase := FadingIn(next);
    }

    /** The 260 ms timer: applyTheme(next). */
    method ApplyPhase()
      requires Valid() && phase.FadingIn?
      modifies this
      ensures Valid() && State() == ApplyPhaseIn(page, old(State()))
    {
      ApplyTheme(phase.next);
      phase := Applied;
    }

    /** The 160 ms timer after that: the overlay fades out. */
    method DeactivatePhase()
      requires Valid() && phase == Applied
      modifies this
      ensures Valid() && State() == DeactivateIn(old(State()))
    {
      overlays := [overlays[0].(active := false)] + overlays[1..];
      phase := FadingOut;
    }

    /** The 420 ms timer after that: the overlay leaves the document. */
    method DetachPhase()
      requires Valid() && phase == FadingOut
      modifies this
      ensures Valid() && State() == DetachIn(old(State()))
    {
      overlays := overlays[1..];
      phase := Detached;
    }

    /** The 900 ms timer set by the click: the transition flag goes. */
    method ClearFlagPhase()
      requires Valid() && phase == Detached
      modifies this
      ensures Valid() && State() == ClearFlagIn(old(State()))
    {
      transitioning := false;
      phase := Idle;
    }

    /** A whole toggle, its timers firing in order. */
    method ToggleAndWait()
      requires page.hasToggle && Valid() && phase == Idle
      modifies this
      ensures Valid() && State() == ToggleIn(page, old(State()))
    {
      Toggle();
      ApplyPhase();
      DeactivatePhase();
      DetachPhase();
      ClearFlagPhase();
    }

    /**
     * The contrast pass run once the browser is idle: for the theme the page
     * started in, with the colours of whatever theme the root shows by then.
     */
    method IdlePass()
      modifies this`marked
      ensures marked == Marks(page, initialTheme, theme)
    {
      AdjustContrast(initialTheme);
    }
  }

  /**
   * The idle pass uses the start-up theme even when a toggle came first: a
   * page that started light and was toggled to dark before the browser went
   * idle gets the light theme's markers, computed with the dark colours.
   */
  lemma {:induction false} IdlePassAfterToggle(p: Page, v: Look, initial: string)
    requires p.hasToggle && Coherent(v) && v.phase == Idle && v.theme == Light && initial == Light
    ensures var w := ToggleIn(p, v);
      w.theme == Dark && Marks(p, initial, w.theme) ==
        set i | i in p.nodes && VeryLightColour(p.colourOf(i, Dark), p.veryLight)
  {
    ToggleOutcome(p, v);
  }
}
