/** Read-only queries over the stored listings. */
module PropertyQueries {
  import opened Wrappers
  import opened PropertyModel
  import Seqs

  /** A missing `isFeatured` is falsy, so only an explicit `true` features a listing. */
  predicate IsFeatured(p: Property) {
    p.isFeatured == Some(true)
  }

  /** The service owns one list of listings that it never changes. */
  datatype PropertyService = PropertyService(properties: seq<Property>) {

    /** The stored list itself, neither filtered nor reordered. */
    function GetAllProperties(): (r: seq<Property>)
      ensures r == properties
    {
      properties
    }

    /** The featured listings, in stored order, each as often as it is stored. */
    function GetFeaturedProperties(): (r: seq<Property>)
      ensures Seqs.IsSubsequence(r, properties)
      ensures forall p :: multiset(r)[p] == if IsFeatured(p) then multiset(properties)[p] else 0
    {
      Seqs.Filter(properties, IsFeatured)
    }

    /** The first listing with the given id, or nothing when no listing has it. */
    function GetPropertyById(id: string): (r: Option<Property>)
      ensures r.None? <==> forall k :: 0 <= k < |properties| ==> properties[k].id != id
      ensures r.Some? ==> exists k :: 0 <= k < |properties| && properties[k] == r.value && r.value.id == id &&
                                       forall j :: 0 <= j < k ==> properties[j].id != id
    {
      match Seqs.FindFirst(properties, (p: Property) => p.id == id)
      case Some(k) => Some(properties[k])
      case None => None
    }

    /** The listings of one type, in stored order, each as often as it is stored. */
    function GetPropertiesByType(t: PropertyType): (r: seq<Property>)
      ensures Seqs.IsSubsequence(r, properties)
      ensures forall p :: multiset(r)[p] == if p.propertyType == t then multiset(properties)[p] else 0
    {
      Seqs.Filter(properties, (p: Property) => p.propertyType == t)
    }
  }

  /** Every query result that is a list is drawn from the stored list, so it is never longer. */
  lemma QueriesNotLonger(svc: PropertyService, t: PropertyType)
    ensures |svc.GetFeaturedProperties()| <= |svc.GetAllProperties()|
    ensures |svc.GetPropertiesByType(t)| <= |svc.GetAllProperties()|
  {
    Seqs.SubsequenceNotLonger(svc.GetFeaturedProperties(), svc.properties);
    Seqs.SubsequenceNotLonger(svc.GetPropertiesByType(t), svc.properties);
  }

  /** Only featured listings are returned as featured. */
  lemma FeaturedAreFeatured(svc: PropertyService, i: nat)
    requires i < |svc.GetFeaturedProperties()|
    ensures IsFeatured(svc.GetFeaturedProperties()[i])
  {
    Seqs.FilterAllKept(svc.properties, IsFeatured);
  }

  /** Since every listing is either for sale or for rent, the two type queries split the whole list. */
  lemma SaleRentPartition(svc: PropertyService)
    ensures multiset(svc.GetPropertiesByType(Sale)) + multiset(svc.GetPropertiesByType(Rent)) ==
            multiset(svc.GetAllProperties())
    ensures |svc.GetPropertiesByType(Sale)| + |svc.GetPropertiesByType(Rent)| == |svc.GetAllProperties()|
  {
    var sale, rent, all := svc.GetPropertiesByType(Sale), svc.GetPropertiesByType(Rent), svc.properties;
    forall p: Property ensures (multiset(sale) + multiset(rent))[p] == multiset(all)[p] {
      assert multiset(sale)[p] == if p.propertyType == Sale then multiset(all)[p] else 0;
      assert multiset(rent)[p] == if p.propertyType == Rent then multiset(all)[p] else 0;
    }
    assert multiset(sale) + multiset(rent) == multiset(all);
    assert |multiset(sale) + multiset(rent)| == |multiset(all)|;
  }

  /** A lookup by the id of a stored listing always finds a listing, the first one with that id. */
  lemma StoredIdIsFound(svc: PropertyService, k: nat)
    requires k < |svc.properties|
    ensures svc.GetPropertyById(svc.properties[k].id).Some?
    ensures svc.GetPropertyById(svc.properties[k].id).value.id == svc.properties[k].id
  {
  }
}
