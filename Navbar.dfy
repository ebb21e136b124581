/**
 * The navigation bar (src/components/ui/Navbar.jsx): the scrolled flag, the
 * active-section scan run on every scroll event, the mobile menu flag, the
 * link highlight test and the scroll listener's lifecycle.
 */
module Navbar {
  import opened Wrappers
  import opened Dom

  const ScrollThreshold: real := 50.0
  const ActiveOffset: real := 150.0

  /** The `href` of each navigation entry, in navigation order (src/data/portfolio.js). */
  const Hrefs: seq<string> := ["#home", "#about", "#experience", "#skills", "#projects", "#contact"]

  /** The scroll handler's registration on `window`. */
  const ScrollListener := Listener("scroll", 0)

  /** `s.replace(c, '')` with a one-character pattern: only the first occurrence is removed. */
  function RemoveFirst(s: string, c: char): (r: string)
    ensures c !in s ==> r == s
    ensures c in s ==> |r| == |s| - 1 && multiset(r) + multiset{c} == multiset(s)
    ensures |s| > 0 && s[0] == c ==> r == s[1..]
  {
    if s == [] then []
    else if s[0] == c then
      assert s == [s[0]] + s[1..];
      s[1..]
    else
      assert s == [s[0]] + s[1..];
      [s[0]] + RemoveFirst(s[1..], c)
  }

  /** The section id a link points to: its href without the `#`. */
  function SectionId(href: string): string
  {
    RemoveFirst(href, '#')
  }

  /** `navigation.map(item => item.href.replace('#', ''))`. */
  function Sections(): seq<string>
  {
    seq(|Hrefs|, i requires 0 <= i < |Hrefs| => SectionId(Hrefs[i]))
  }

  const SectionNames: seq<string> := ["home", "about", "experience", "skills", "projects", "contact"]

  /** Each id is its href without the leading `#`. */
  lemma SectionIds()
    ensures Sections() == SectionNames
  {
    forall k | 0 <= k < |Hrefs| ensures SectionId(Hrefs[k]) == SectionNames[k] {
      assert Hrefs[k] == "#" + SectionNames[k];
      assert Hrefs[k][0] == '#' && Hrefs[k][1..] == SectionNames[k];
    }
  }

  /** A section takes part when its element exists (it has a measured top) and that top is at most 150. */
  predicate Qualifies(section: string, tops: map<string, real>)
  {
    section in tops && tops[section] <= ActiveOffset
  }

  /**
   * The section the scan settles on: the last one in navigation order that
   * qualifies, or none.
   */
  function LastQualifying(sections: seq<string>, tops: map<string, real>): (r: Option<nat>)
    ensures r.Some? ==> r.value < |sections|
    decreases |sections|
  {
    if sections == [] then None
    else if Qualifies(sections[|sections| - 1], tops) then Some(|sections| - 1)
    else LastQualifying(sections[..|sections| - 1], tops)
  }

  /**
   * The scan's result qualifies and no later section does; there is none
   * exactly when no section qualifies.
   */
  lemma {:induction false} LastQualifyingIsLast(sections: seq<string>, tops: map<string, real>)
    ensures LastQualifying(sections, tops).Some? ==> Qualifies(sections[LastQualifying(sections, tops).value], tops)
    ensures LastQualifying(sections, tops).Some? ==>
              forall j :: LastQualifying(sections, tops).value < j < |sections| ==> !Qualifies(sections[j], tops)
    ensures LastQualifying(sections, tops).None? <==> forall j :: 0 <= j < |sections| ==> !Qualifies(sections[j], tops)
    decreases |sections|
  {
    if sections != [] && !Qualifies(sections[|sections| - 1], tops) {
      var init := sections[..|sections| - 1];
      LastQualifyingIsLast(init, tops);
      assert forall j :: 0 <= j < |init| ==> init[j] == sections[j];
    }
  }

  /**
   * The loop of `handleScroll` over the reversed section list: the first
   * section (from the end) whose element exists and lies at most 150 px from
   * the top of the viewport; the loop breaks there.
   */
  method FindActive(sections: seq<string>, tops: map<string, real>) returns (found: Option<string>)
    ensures found.None? <==> LastQualifying(sections, tops).None?
    ensures found.Some? ==> found.value == sections[LastQualifying(sections, tops).value]
  {
    LastQualifyingIsLast(sections, tops);
    found := None;
    var i := |sections|;
    while i > 0
      invariant 0 <= i <= |sections|
      invariant forall j :: i <= j < |sections| ==> !Qualifies(sections[j], tops)
    {
      var section := sections[i - 1];
      if section in tops {
        if tops[section] <= ActiveOffset {
          found := Some(section);
          return;
        }
      }
      i := i - 1;
    }
  }

  /** The link for `href` is highlighted exactly when it points at the active section. */
  predicate IsHighlighted(activeSection: string, href: string)
  {
    activeSection == SectionId(href)
  }

  /** The navigation ids are distinct, so at most one link is highlighted at a time. */
  lemma OneHighlight(activeSection: string, i: nat, j: nat)
    requires i < |Hrefs| && j < |Hrefs|
    requires IsHighlighted(activeSection, Hrefs[i]) && IsHighlighted(activeSection, Hrefs[j])
    ensures i == j
  {
    SectionIds();
    assert Sections()[i] == SectionId(Hrefs[i]) && Sections()[j] == SectionId(Hrefs[j]);
    InitialsDiffer();
    assert SectionNames[i][0] == SectionNames[j][0];
    DistinctInitials(i, j);
  }

  lemma DistinctInitials(i: nat, j: nat)
    requires i < 6 && j < 6 && "haespc"[i] == "haespc"[j]
    ensures i == j
  {
  }

  /** The ids start with pairwise different letters. */
  lemma InitialsDiffer()
    ensures forall k :: 0 <= k < |SectionNames| ==> |SectionNames[k]| > 0 && SectionNames[k][0] == "haespc"[k]
  {
  }

  /** The state of one mounted navigation bar, together with the listeners registered on `window`. */
  class NavbarState {
    var isScrolled: bool
    var isMobileMenuOpen: bool
    var activeSection: string
    var windowListeners: seq<Listener>

    /** First render: not scrolled, menu closed, `home` active; the effect then registers the scroll handler. */
    constructor (windowListeners: seq<Listener>)
      requires ScrollListener !in windowListeners
      ensures !isScrolled && !isMobileMenuOpen && activeSection == "home"
      ensures this.windowListeners == AddListener(windowListeners, ScrollListener)
    {
      isScrolled := false;
      isMobileMenuOpen := false;
      activeSection := "home";
      this.windowListeners := AddListener(windowListeners, ScrollListener);
    }

    /**
     * `handleScroll`: `isScrolled` follows `scrollY > 50`; the active section
     * moves to the last qualifying one and stays put when none qualifies. The
     * ids scanned are `SectionNames`, which `SectionIds` shows to be the hrefs
     * with their `#` removed.
     */
    method HandleScroll(scrollY: real, tops: map<string, real>)
      modifies this
      ensures isScrolled <==> scrollY > ScrollThreshold
      ensures LastQualifying(SectionNames, tops).Some? ==>
                activeSection == SectionNames[LastQualifying(SectionNames, tops).value]
      ensures LastQualifying(SectionNames, tops).None? ==> activeSection == old(activeSection)
      ensures isMobileMenuOpen == old(isMobileMenuOpen) && windowListeners == old(windowListeners)
    {
      isScrolled := scrollY > ScrollThreshold;
      var found := FindActive(SectionNames, tops);
      if found.Some? {
        activeSection := found.value;
      }
    }

    /**
     * `handleNavClick(href)`: closes the menu and scrolls to the element the
     * selector finds, if any (returned as the scroll target).
     */
    method HandleNavClick(href: string, present: set<string>) returns (scrollTarget: Option<string>)
      modifies this
      ensures !isMobileMenuOpen
      ensures scrollTarget == (if href in present then Some(href) else None)
      ensures isScrolled == old(isScrolled) && activeSection == old(activeSection)
      ensures windowListeners == old(windowListeners)
    {
      isMobileMenuOpen := false;
      scrollTarget := if href in present then Some(href) else None;
    }

    /** The menu button: `setIsMobileMenuOpen(!isMobileMenuOpen)`. */
    method ToggleMenu()
      modifies this
      ensures isMobileMenuOpen == !old(isMobileMenuOpen)
      ensures isScrolled == old(isScrolled) && activeSection == old(activeSection)
      ensures windowListeners == old(windowListeners)
    {
      isMobileMenuOpen := !isMobileMenuOpen;
    }

    /** A click on the backdrop closes the menu. */
    method CloseMenu()
      modifies this
      ensures !isMobileMenuOpen
      ensures isScrolled == old(isScrolled) && activeSection == old(activeSection)
      ensures windowListeners == old(windowListeners)
    {
      isMobileMenuOpen := false;
    }

    /** The effect's cleanup removes the handler it registered. */
    method Unmount()
      modifies this
      ensures windowListeners == RemoveListener(old(windowListeners), ScrollListener)
      ensures ScrollListener !in windowListeners
    {
      windowListeners := RemoveListener(windowListeners, ScrollListener);
    }
  }

  /** Mounting and then unmounting the bar leaves `window`'s listeners as they were. */
  method MountUnmount(windowListeners: seq<Listener>) returns (after: seq<Listener>)
    requires ScrollListener !in windowListeners
    ensures after == windowListeners
  {
    var bar := new NavbarState(windowListeners);
    bar.Unmount();
    AddThenRemove(windowListeners, ScrollListener);
    after := bar.windowListeners;
  }
}
