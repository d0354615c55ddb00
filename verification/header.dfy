/**
 * The sticky header's navigation state machine: whether the page has scrolled
 * past a threshold, which section is active (scroll-spy), the mobile menu and
 * the body scroll lock it sets, and click-to-scroll navigation.
 */
module Header {
  import opened Wrappers
  import opened Dom
  import Seqs

  datatype NavItem = NavItem(caption: string, sectionId: string)

  /** The navigation menu, in declared order; the scroll-spy scans it in this order. */
  const NavItems: seq<NavItem> := [
    NavItem("Home", "hero"),
    NavItem("Properties", "properties"),
    NavItem("Services", "services"),
    NavItem("About", "about"),
    NavItem("Contact", "contact")
  ]

  function SectionIds(items: seq<NavItem>): (ids: seq<string>)
    ensures |ids| == |items|
    ensures forall i :: 0 <= i < |items| ==> ids[i] == items[i].sectionId
  {
    if items == [] then [] else [items[0].sectionId] + SectionIds(items[1..])
  }

  /** The page counts as scrolled strictly beyond this many pixels. */
  const ScrolledThreshold: int := 20

  /** The scroll-spy probes this far below the top of the viewport. */
  const ProbeOffset: int := 100

  predicate IsScrolledAt(scrollY: int) {
    scrollY > ScrolledThreshold
  }

  /** The strict threshold: 20 pixels is not scrolled, 21 is. */
  lemma ScrolledBoundary()
    ensures !IsScrolledAt(20) && IsScrolledAt(21)
  {
  }

  /** Section `id` is mounted and its half-open range [top, top + height) holds `probe`. */
  predicate CoversProbe(elements: map<string, Element>, id: string, probe: int) {
    id in elements && elements[id].offsetTop <= probe < elements[id].offsetTop + elements[id].offsetHeight
  }

  /** The index of the first item, in menu order, whose section covers the probe. */
  function FirstCovering(items: seq<NavItem>, elements: map<string, Element>, probe: int): Option<nat> {
    Seqs.FindFirst(items, (item: NavItem) => CoversProbe(elements, item.sectionId, probe))
  }

  /**
   * The active section after a scroll-spy pass at `scrollY`: the first item whose
   * section covers `scrollY + 100`, or `previous` when none does.
   */
  function DetectedSection(items: seq<NavItem>, elements: map<string, Element>, scrollY: int, previous: string): string {
    match FirstCovering(items, elements, scrollY + ProbeOffset)
    case Some(k) => items[k].sectionId
    case None => previous
  }

  /**
   * The scroll-spy picks the first covering item in menu order, so overlapping
   * sections resolve by order, not by best fit; with no covering item it keeps
   * the previous value.
   */
  lemma DetectedSectionCharacterized(items: seq<NavItem>, elements: map<string, Element>, scrollY: int, previous: string)
    ensures var probe := scrollY + ProbeOffset;
      var r := DetectedSection(items, elements, scrollY, previous);
      && ((forall j :: 0 <= j < |items| ==> !CoversProbe(elements, items[j].sectionId, probe)) ==> r == previous)
      && (forall k :: (0 <= k < |items| && CoversProbe(elements, items[k].sectionId, probe) &&
                       (forall j :: 0 <= j < k ==> !CoversProbe(elements, items[j].sectionId, probe)))
                      ==> r == items[k].sectionId)
  {
    var probe := scrollY + ProbeOffset;
    var hit := (item: NavItem) => CoversProbe(elements, item.sectionId, probe);
    forall k | 0 <= k < |items| && CoversProbe(elements, items[k].sectionId, probe) &&
            (forall j :: 0 <= j < k ==> !CoversProbe(elements, items[j].sectionId, probe))
      ensures DetectedSection(items, elements, scrollY, previous) == items[k].sectionId
    {
      var found := FirstCovering(items, elements, probe);
      assert hit(items[k]);
      assert found == Some(k);
    }
  }

  /** Detection only ever writes a menu section id; otherwise the old value survives. */
  lemma DetectedIsMenuSection(items: seq<NavItem>, elements: map<string, Element>, scrollY: int, previous: string)
    ensures DetectedSection(items, elements, scrollY, previous) in SectionIds(items) ||
            DetectedSection(items, elements, scrollY, previous) == previous
  {
    var found := FirstCovering(items, elements, scrollY + ProbeOffset);
    if found.Some? {
      assert SectionIds(items)[found.value] == items[found.value].sectionId;
    }
  }

  /** A section whose measured height is zero (or negative) is never chosen by the scroll-spy. */
  lemma EmptySectionNeverDetected(items: seq<NavItem>, elements: map<string, Element>, scrollY: int, k: nat)
    requires k < |items| && items[k].sectionId in elements && elements[items[k].sectionId].offsetHeight <= 0
    ensures FirstCovering(items, elements, scrollY + ProbeOffset) != Some(k)
  {
  }

  /** Three stacked 100-pixel sections: hero [0, 100), properties [100, 200), services [200, 300). */
  function StackedSections(): map<string, Element> {
    map["hero" := Element(0, 100), "properties" := Element(100, 100), "services" := Element(200, 100)]
  }

  /** At scroll 0 the probe (100) lies at the start of the second section, not the end of the first. */
  lemma StackedSectionsAtTop()
    ensures DetectedSection(NavItems, StackedSections(), 0, "hero") == "properties"
  {
    var elements := StackedSections();
    assert !CoversProbe(elements, NavItems[0].sectionId, 100);
    assert CoversProbe(elements, NavItems[1].sectionId, 100);
    DetectedSectionCharacterized(NavItems, elements, 0, "hero");
  }

  /** At scroll 150 the probe (250) lies inside the third section. */
  lemma StackedSectionsMidway()
    ensures DetectedSection(NavItems, StackedSections(), 150, "hero") == "services"
  {
    var elements := StackedSections();
    assert !CoversProbe(elements, NavItems[0].sectionId, 250);
    assert !CoversProbe(elements, NavItems[1].sectionId, 250);
    assert CoversProbe(elements, NavItems[2].sectionId, 250);
    DetectedSectionCharacterized(NavItems, elements, 150, "hero");
  }

  /** Past every mounted section the previous active section is kept, with no fallback to the first. */
  lemma StackedSectionsBeyond()
    ensures DetectedSection(NavItems, StackedSections(), 400, "about") == "about"
  {
    var elements := StackedSections();
    forall j | 0 <= j < |NavItems| ensures !CoversProbe(elements, NavItems[j].sectionId, 500) {
    }
    DetectedSectionCharacterized(NavItems, elements, 400, "about");
  }

  /** The mobile menu's open flag together with the body overflow style it controls. */
  datatype MenuState = MenuState(open: bool, overflow: string)

  /** The body scroll lock that goes with an open or closed menu. */
  function OverflowFor(open: bool): string {
    if open then "hidden" else ""
  }

  predicate LockMatchesMenu(m: MenuState) {
    m.overflow == OverflowFor(m.open)
  }

  /** `toggleMobileMenu`: flip the flag, then lock or unlock page scrolling to match. */
  function Toggle(m: MenuState): MenuState {
    MenuState(!m.open, OverflowFor(!m.open))
  }

  /** A toggle always leaves the lock matching the menu, whatever the style was before. */
  lemma ToggleLocksConsistently(m: MenuState)
    ensures LockMatchesMenu(Toggle(m))
    ensures Toggle(m).open != m.open
  {
  }

  /** Two toggles restore both the flag and the overflow style, when the lock matched the menu. */
  lemma ToggleTwiceRestores(m: MenuState)
    requires LockMatchesMenu(m)
    ensures Toggle(Toggle(m)) == m
  {
  }

  /**
   * Two toggles set the overflow style to match the menu, so a stray style is lost
   * and the round trip holds exactly when the lock matched.
   */
  lemma ToggleTwiceResetsStrayStyle(m: MenuState)
    ensures Toggle(Toggle(m)) == MenuState(m.open, OverflowFor(m.open))
    ensures Toggle(Toggle(m)) == m <==> LockMatchesMenu(m)
  {
  }

  class HeaderComponent {
    var isScrolled: bool
    var isMobileMenuOpen: bool
    var activeSection: string

    constructor ()
      ensures !isScrolled && !isMobileMenuOpen && activeSection == "hero"
    {
      isScrolled := false;
      isMobileMenuOpen := false;
      activeSection := "hero";
    }

    function Menu(page: Page): MenuState
      reads this, page
    {
      MenuState(isMobileMenuOpen, page.bodyOverflow)
    }

    /** `ngOnInit`: one scroll-spy pass. */
    method NgOnInit(page: Page)
      modifies this`activeSection
      ensures activeSection == DetectedSection(NavItems, page.elements, page.scrollY, old(activeSection))
    {
      DetectActiveSection(page);
    }

    /** The window scroll listener: recompute `isScrolled`, then run the scroll-spy. */
    method OnWindowScroll(page: Page)
      modifies this`isScrolled, this`activeSection
      ensures isScrolled == IsScrolledAt(page.scrollY)
      ensures activeSection == DetectedSection(NavItems, page.elements, page.scrollY, old(activeSection))
    {
      isScrolled := page.scrollY > 20;
      DetectActiveSection(page);
    }

    /**
     * Click navigation: when the section exists, scroll to it, mark it active at
     * once (before the animation ends) and close the menu if it is open; when it
     * does not, nothing happens.
     */
    method ScrollToSection(page: Page, sectionId: string)
      modifies this`activeSection, this`isMobileMenuOpen, page`scrolls, page`bodyOverflow
      ensures page.scrolls == old(page.scrolls) + SectionScroll(page.elements, sectionId)
      ensures sectionId !in page.elements ==>
        activeSection == old(activeSection) && Menu(page) == old(Menu(page))
      ensures sectionId in page.elements ==>
        activeSection == sectionId &&
        Menu(page) == (if old(isMobileMenuOpen) then Toggle(old(Menu(page))) else old(Menu(page)))
      ensures sectionId in page.elements && old(LockMatchesMenu(Menu(page))) ==>
        Menu(page) == MenuState(false, "")
    {
      var element := page.GetElementById(sectionId);
      if element.Some? {
        var headerOffset := 80;
        var elementPosition := element.value.offsetTop;
        var offsetPosition := elementPosition - headerOffset;
        page.ScrollTo(offsetPosition);
        activeSection := sectionId;
        if isMobileMenuOpen {
          ToggleMobileMenu(page);
        }
      }
    }

    method ToggleMobileMenu(page: Page)
      modifies this`isMobileMenuOpen, page`bodyOverflow
      ensures Menu(page) == Toggle(old(Menu(page)))
    {
      isMobileMenuOpen := !isMobileMenuOpen;
      if isMobileMenuOpen {
        page.bodyOverflow := "hidden";
      } else {
        page.bodyOverflow := "";
      }
    }

    /** The scroll-spy loop: the first menu item whose section covers `scrollY + 100` wins. */
    method DetectActiveSection(page: Page)
      modifies this`activeSection
      ensures activeSection == DetectedSection(NavItems, page.elements, page.scrollY, old(activeSection))
    {
      var scrollPosition := page.scrollY + 100;
      ghost var elements := page.elements;
      ghost var hit := (item: NavItem) => CoversProbe(elements, item.sectionId, scrollPosition);
      var i := 0;
      while i < |NavItems|
        invariant 0 <= i <= |NavItems|
        invariant activeSection == old(activeSection)
        invariant forall j :: 0 <= j < i ==> !hit(NavItems[j])
      {
        var item := NavItems[i];
        var element := page.GetElementById(item.sectionId);
        if element.Some? {
          var offsetTop := element.value.offsetTop;
          var offsetBottom := offsetTop + element.value.offsetHeight;
          if scrollPosition >= offsetTop && scrollPosition < offsetBottom {
            activeSection := item.sectionId;
            DetectedSectionCharacterized(NavItems, page.elements, page.scrollY, old(activeSection));
            return;
          }
        }
        i := i + 1;
      }
      DetectedSectionCharacterized(NavItems, page.elements, page.scrollY, old(activeSection));
    }

    /** Whether the menu item for `sectionId` is highlighted; reads only. */
    function IsActive(sectionId: string): (r: bool)
      reads this
      ensures r <==> sectionId == activeSection
    {
      activeSection == sectionId
    }
  }

  /** At most one menu item is highlighted at a time, since the menu's section ids are distinct. */
  lemma AtMostOneActive(h: HeaderComponent, i: nat, j: nat)
    requires i < j < |NavItems|
    ensures !(h.IsActive(NavItems[i].sectionId) && h.IsActive(NavItems[j].sectionId))
  {
  }

  /** Clicking a menu item that is mounted highlights exactly that item. */
  method ClickHighlightsItem(h: HeaderComponent, page: Page, k: nat)
    requires k < |NavItems| && NavItems[k].sectionId in page.elements
    modifies h, page
    ensures h.IsActive(NavItems[k].sectionId)
    ensures forall j :: 0 <= j < |NavItems| && j != k ==> !h.IsActive(NavItems[j].sectionId)
  {
    h.ScrollToSection(page, NavItems[k].sectionId);
  }
}
