/** The "about" section; its call to action scrolls to the contact form. */
module AboutSection {
  import opened Dom

  /** Scroll to the contact section, just below the header; nothing happens when it is missing. */
  method ScrollToContact(page: Page)
    modifies page`scrolls
    ensures page.scrolls == old(page.scrolls) + SectionScroll(page.elements, "contact")
  {
    page.ScrollToElement("contact");
  }

  /** A contact section at 1000, 500 or 1500 pixels is scrolled to 920, 420 or 1420. */
  lemma ContactTargets(h: int)
    ensures SectionScroll(map["contact" := Element(1000, h)], "contact") == [ScrollTo(920, Smooth)]
    ensures SectionScroll(map["contact" := Element(500, h)], "contact") == [ScrollTo(420, Smooth)]
    ensures SectionScroll(map["contact" := Element(1500, h)], "contact") == [ScrollTo(1420, Smooth)]
  {
  }
}
