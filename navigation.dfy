/**
 * In-page navigation (js/script.js:286-338): a click on a "#section" link
 * scrolls so the section sits just below the fixed header, with 20 more
 * pixels on narrow screens, and closes the mobile menu; the hamburger button
 * opens and closes the menu and keeps its aria-expanded, active class and
 * aria-label in step; a click on a link inside the menu closes it.
 */
module Navigation {
  import opened Wrappers

  /** The header height used when the page has no .site-header. */
  const DefaultHeaderHeight: nat := 70
  /** Viewports at most this wide are treated as mobile. */
  const MobileMaxWidth: int := 720
  /** The extra top padding on mobile. */
  const MobilePadding: nat := 20

  /** How far below the top of the viewport a section should come to rest. */
  function HeaderOffset(header: Option<nat>, innerWidth: int): nat {
    (if header.Some? then header.value else DefaultHeaderHeight)
    + (if innerWidth <= MobileMaxWidth then MobilePadding else 0)
  }

  /**
   * The scroll position asked of window.scrollTo for a section whose
   * bounding box starts rectTop pixels below the viewport top while the page
   * is scrolled by scrollY: never negative; after that scroll the section's
   * top sits exactly HeaderOffset below the viewport top, unless the section
   * is too near the top of the page for that, and then the page goes to 0.
   */
  function ScrollTop(scrollY: int, rectTop: int, header: Option<nat>, innerWidth: int): (r: nat)
    ensures r > 0 ==> (scrollY + rectTop) - r == HeaderOffset(header, innerWidth)
    ensures r == 0 ==> scrollY + rectTop <= HeaderOffset(header, innerWidth)
  {
    var top := scrollY + rectTop - HeaderOffset(header, innerWidth);
    if top > 0 then top else 0
  }

  /**
   * On a mobile-width viewport the page stops 20 pixels higher than on a
   * wide one, unless both already stop at the top of the page.
   */
  lemma {:induction false} MobileStopsHigher(scrollY: int, rectTop: int, header: Option<nat>, mobileWidth: int, wideWidth: int)
    requires mobileWidth <= MobileMaxWidth < wideWidth
    requires ScrollTop(scrollY, rectTop, header, mobileWidth) > 0
    ensures ScrollTop(scrollY, rectTop, header, wideWidth)
         == ScrollTop(scrollY, rectTop, header, mobileWidth) + MobilePadding
  {
    assert HeaderOffset(header, wideWidth) + MobilePadding == HeaderOffset(header, mobileWidth);
  }

  /** Where the section ends up does not depend on where the page was scrolled from. */
  lemma {:induction false} ScrollTopFromDocumentPosition(scrollY: int, rectTop: int, shift: int, header: Option<nat>, innerWidth: int)
    ensures ScrollTop(scrollY + shift, rectTop - shift, header, innerWidth) == ScrollTop(scrollY, rectTop, header, innerWidth)
  {
  }

  /** The toggle button's accessible label for a menu that is open or closed. */
  function LabelFor(open: bool): string {
    if open then "Close navigation" else "Open navigation"
  }

  function ExpandedText(open: bool): string {
    if open then "true" else "false"
  }

  /**
   * The observable menu: the nav's "open" class, and the toggle button's
   * aria-expanded text, "active" class and aria-label.
   */
  datatype Menu = Menu(open: bool, expanded: string, active: bool, ariaLabel: string)

  /** The button describes the menu as it is. */
  predicate Coherent(m: Menu) {
    m.expanded == ExpandedText(m.open) && m.active == m.open && m.ariaLabel == LabelFor(m.open)
  }

  /**
   * A click on the toggle button: the new state is read from aria-expanded,
   * while the nav's and the button's classes are flipped independently.
   */
  function ToggleIn(m: Menu): Menu {
    var newState := !(m.expanded == "true");
    Menu(!m.open, ExpandedText(newState), !m.active, LabelFor(newState))
  }

  /** Closing the menu; the button's attributes are reset only when the button exists. */
  function CloseIn(m: Menu, hasToggle: bool): Menu {
    if hasToggle then Menu(false, "false", false, LabelFor(false)) else m.(open := false)
  }

  /** A toggle opens a closed menu and closes an open one, keeping the button in step. */
  lemma {:induction false} ToggleFlips(m: Menu)
    requires Coherent(m)
    ensures Coherent(ToggleIn(m)) && ToggleIn(m).open == !m.open
  {
  }

  /** Two toggles restore the menu and its button. */
  lemma {:induction false} TwoTogglesRestore(m: Menu)
    requires Coherent(m)
    ensures ToggleIn(ToggleIn(m)) == m
  {
  }

  /**
   * The toggle trusts aria-expanded: a button whose aria-expanded disagrees
   * with the nav's class stays out of step through any toggle.
   */
  lemma {:induction false} ToggleKeepsMismatch(m: Menu)
    requires m.open != (m.expanded == "true")
    ensures ToggleIn(m).open != (ToggleIn(m).expanded == "true")
  {
  }

  /** Closing leaves a closed menu, and with a button, a coherent one whatever came before. */
  lemma {:induction false} CloseResets(m: Menu, hasToggle: bool)
    ensures !CloseIn(m, hasToggle).open
    ensures hasToggle ==> Coherent(CloseIn(m, hasToggle))
  {
  }

  /** The page's menu and its toggle button; either may be missing from the markup. */
  class NavMenu {
    const hasNav: bool
    const hasToggle: bool
    var open: bool
    var expanded: string
    var active: bool
    var ariaLabel: string

    ghost function State(): Menu
      reads this
    {
      Menu(open, expanded, active, ariaLabel)
    }

    /** The menu as the markup delivers it; the script sets nothing at load. */
    constructor(hasNav: bool, hasToggle: bool, initial: Menu)
      ensures this.hasNav == hasNav && this.hasToggle == hasToggle
      ensures State() == initial
    {
      this.hasNav := hasNav;
      this.hasToggle := hasToggle;
      open := initial.open;
      expanded := initial.expanded;
      active := initial.active;
      ariaLabel := initial.ariaLabel;
    }

    /** The toggle's click handler, attached only when both elements exist. */
    method ToggleClick()
      requires hasNav && hasToggle
      modifies this
      ensures State() == ToggleIn(old(State()))
    {
      var wasExpanded := expanded == "true";
      var newState := !wasExpanded;
      expanded := ExpandedText(newState);
      open := !open;
      active := !active;
      ariaLabel := LabelFor(newState);
    }

    /** A click inside the nav closes the menu when it landed on a link. */
    method NavClick(targetIsLink: bool)
      requires hasNav
      modifies this
      ensures State() == if targetIsLink then CloseIn(old(State()), hasToggle) else old(State())
    {
      if targetIsLink {
        open := false;
        if hasToggle {
          expanded := "false";
          active := false;
          ariaLabel := LabelFor(false);
        }
      }
    }

    /**
     * A click on an a[href^="#"] link. targetTop is the bounding-box top of
     * the element the href selects, None when it selects nothing. Unless the
     * href is "#" alone or selects nothing, the page scrolls to ScrollTop and
     * an open menu is closed; otherwise the browser's default applies and
     * nothing changes here.
     */
    method AnchorClick(href: string, targetTop: Option<int>, scrollY: int, header: Option<nat>, innerWidth: int)
        returns (scroll: Option<nat>)
      modifies this
      ensures scroll.Some? <==> href != "#" && targetTop.Some?
      ensures scroll.Some? ==> scroll.value == ScrollTop(scrollY, targetTop.value, header, innerWidth)
      ensures State() == if scroll.Some? && hasNav && old(open) then CloseIn(old(State()), hasToggle) else old(State())
    {
      if href != "#" && targetTop.Some? {
        scroll := Some(ScrollTop(scrollY, targetTop.value, header, innerWidth));
        if hasNav && open {
          open := false;
          if hasToggle {
            expanded := "false";
            active := false;
            ariaLabel := LabelFor(false);
          }
        }
      } else {
        scroll := None;
      }
    }
  }
}
