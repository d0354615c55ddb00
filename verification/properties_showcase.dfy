/** The featured listings section: one card per featured listing, and "contact" buttons that scroll to the form. */
module PropertiesShowcase {
  import opened Dom
  import opened PropertyModel
  import opened PropertyQueries
  import Seqs

  class PropertiesShowcaseSection {
    var properties: seq<Property>
    const propertyService: PropertyService

    constructor (propertyService: PropertyService)
      ensures properties == [] && this.propertyService == propertyService
    {
      this.propertyService := propertyService;
      properties := [];
    }

    /** Load the featured listings. */
    method NgOnInit()
      modifies this`properties
      ensures properties == propertyService.GetFeaturedProperties()
      ensures Seqs.IsSubsequence(properties, propertyService.GetAllProperties())
      ensures forall i :: 0 <= i < |properties| ==> IsFeatured(properties[i])
    {
      properties := propertyService.GetFeaturedProperties();
      forall i | 0 <= i < |properties| ensures IsFeatured(properties[i]) {
        FeaturedAreFeatured(propertyService, i);
      }
    }

    /** A card's contact button: whichever listing it came from, scroll to the contact section. */
    method OnContactProperty(page: Page, propertyId: string)
      modifies page`scrolls
      ensures page.scrolls == old(page.scrolls) + SectionScroll(page.elements, "contact")
    {
      page.ScrollToElement("contact");
    }
  }
}
