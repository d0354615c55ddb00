/** The footer's quick links, which scroll to the same sections as the header menu. */
module Footer {
  import opened Dom
  import Header

  datatype QuickLink = QuickLink(caption: string, sectionId: string)

  const QuickLinks: seq<QuickLink> := [
    QuickLink("Home", "hero"),
    QuickLink("Properties", "properties"),
    QuickLink("Services", "services"),
    QuickLink("About Us", "about"),
    QuickLink("Contact", "contact")
  ]

  /** The quick links target the header menu's sections, in the same order. */
  lemma QuickLinksFollowMenu()
    ensures |QuickLinks| == |Header.NavItems|
    ensures forall i :: 0 <= i < |QuickLinks| ==> QuickLinks[i].sectionId == Header.NavItems[i].sectionId
  {
  }

  /**
   * Scroll so that the section's top sits just below the header; a missing
   * section is ignored. Unlike the header, no active section or menu state is kept.
   */
  method ScrollToSection(page: Page, sectionId: string)
    modifies page`scrolls
    ensures page.scrolls == old(page.scrolls) + SectionScroll(page.elements, sectionId)
  {
    page.ScrollToElement(sectionId);
  }
}
