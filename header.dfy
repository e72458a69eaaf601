/**
 * The site header's state: whether the page has scrolled past the shrink threshold,
 * whether the mobile menu is open, and which section's link is marked active. Scroll
 * positions, key presses, clicks and the section observer's reports are inputs.
 */
module Header {
  import opened Counting

  /** Scroll offset, in pixels, past which the header shrinks. */
  const ScrollThreshold: real := 50.0

  /** The ids of the navigation items, in menu order. */
  const NavIds: seq<string> := ["home", "styles", "customize", "benefits", "reviews", "faqs", "contact"]

  /** The section a visible element stands for: its id, or `home` when it has none. */
  function ObservedSection(targetId: string): (section: string)
    ensures section != ""
    ensures targetId != "" ==> section == targetId
    ensures targetId == "" ==> section == "home"
  {
    if targetId != "" then targetId else "home"
  }

  /** For each navigation link in order, whether it carries the active class and `aria-current`. */
  function ActiveLinks(activeSection: string): (flags: seq<bool>)
    ensures |flags| == |NavIds|
  {
    Marks(NavIds, activeSection)
  }

  /**
   * Exactly the link whose id is the active section is marked, so one link is marked
   * when the active section is a navigation item and none otherwise.
   */
  lemma OneActiveLink(activeSection: string)
    ensures forall i :: 0 <= i < |NavIds| ==> (ActiveLinks(activeSection)[i] <==> NavIds[i] == activeSection)
    ensures CountTrue(ActiveLinks(activeSection)) == if activeSection in NavIds then 1 else 0
  {
    assert Distinct(NavIds);
    MarksCount(NavIds, activeSection);
    OccurrencesOfDistinct(NavIds, activeSection);
  }

  /** The mobile-menu backdrop is in the page only while the menu is open. */
  function BackdropRendered(menuOpen: bool): bool {
    menuOpen
  }

  class HeaderState {
    var isScrolled: bool
    var activeSection: string
    var menuOpen: bool

    constructor ()
      ensures !isScrolled && activeSection == "home" && !menuOpen
    {
      isScrolled := false;
      activeSection := "home";
      menuOpen := false;
    }

    /** A scroll event at offset `scrollY`; `wrote` tells whether the flag was written. */
    method OnScroll(scrollY: real) returns (wrote: bool)
      modifies this
      ensures isScrolled == (scrollY > ScrollThreshold)
      ensures wrote <==> old(isScrolled) != isScrolled
      ensures activeSection == old(activeSection) && menuOpen == old(menuOpen)
    {
      var shouldShrink := scrollY > ScrollThreshold;
      wrote := false;
      if shouldShrink != isScrolled {
        isScrolled := shouldShrink;
        wrote := true;
      }
    }

    /** The hamburger button. */
    method ToggleMenu()
      modifies this
      ensures menuOpen == !old(menuOpen)
      ensures isScrolled == old(isScrolled) && activeSection == old(activeSection)
    {
      menuOpen := !menuOpen;
    }

    /** A key press: Escape closes an open menu; anything else changes nothing. */
    method KeyDown(key: string)
      modifies this
      ensures menuOpen == (old(menuOpen) && key != "Escape")
      ensures isScrolled == old(isScrolled) && activeSection == old(activeSection)
    {
      if key == "Escape" && menuOpen {
        menuOpen := false;
      }
    }

    /** A click on the navigation link of `itemId`: the menu closes and that section becomes active. */
    method NavClick(itemId: string)
      modifies this
      ensures !menuOpen && activeSection == itemId
      ensures isScrolled == old(isScrolled)
    {
      if menuOpen {
        menuOpen := false;
      }
      activeSection := itemId;
    }

    /** A click on the backdrop, which exists only while the menu is open. */
    method BackdropClick()
      requires BackdropRendered(menuOpen)
      modifies this
      ensures !menuOpen && !BackdropRendered(menuOpen)
      ensures isScrolled == old(isScrolled) && activeSection == old(activeSection)
    {
      menuOpen := false;
    }

    /** The section observer reports an element intersecting the viewport. */
    method ObserverIntersect(targetId: string)
      modifies this
      ensures activeSection == ObservedSection(targetId)
      ensures isScrolled == old(isScrolled) && menuOpen == old(menuOpen)
    {
      activeSection := if targetId != "" then targetId else "home";
    }
  }
}
