/** The landing hero; its buttons scroll to a section below the sticky header. */
module HeroSection {
  import opened Dom

  /**
   * Scroll so that the section's top sits just below the header; a missing
   * section is ignored. Only the scroll log changes.
   */
  method ScrollToSection(page: Page, sectionId: string)
    modifies page`scrolls
    ensures page.scrolls == old(page.scrolls) + SectionScroll(page.elements, sectionId)
  {
    page.ScrollToElement(sectionId);
  }
}
