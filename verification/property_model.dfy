/** A real estate listing, for sale or for rent. */
module PropertyModel {
  import opened Wrappers

  datatype PropertyType = Sale | Rent

  /**
   * One listing. `imageUrls` and `isFeatured` are optional fields; `propertyType`
   * is the listing's `type` ('sale' or 'rent'). Numbers are whole numbers here.
   */
  datatype Property = Property(
    id: string,
    title: string,
    location: string,
    price: int,
    priceLabel: string,
    currency: string,
    propertyType: PropertyType,
    bedrooms: int,
    bathrooms: int,
    size: int,
    imageUrl: string,
    imageUrls: Option<seq<string>>,
    description: string,
    features: seq<string>,
    isFeatured: Option<bool>)
}
