/** The featured strip of the home page. */
module FeaturedProducts {
  import opened Lists
  import opened Catalog

  /** The `featured` flag as a test. */
  predicate IsFeatured(p: Product)
  {
    p.featured
  }

  /** The featured catalog products, in catalog order. */
  function AllFeatured(catalog: seq<Product>): (r: seq<Product>)
    ensures forall p :: p in r <==> p in catalog && p.featured
    ensures forall p :: multiset(r)[p] == if p.featured then multiset(catalog)[p] else 0
  {
    FilterCount(catalog, IsFeatured);
    Filter(catalog, IsFeatured)
  }

  /** `featuredProducts`: the first four featured products. */
  function Featured(catalog: seq<Product>): (r: seq<Product>)
    ensures |r| == if |AllFeatured(catalog)| < 4 then |AllFeatured(catalog)| else 4
    ensures r == AllFeatured(catalog)[..|r|]
    ensures forall p :: p in r ==> p in catalog && p.featured
  {
    var f := AllFeatured(catalog);
    var r := if |f| < 4 then f else f[..4];
    assert forall p :: p in r ==> p in f;
    r
  }

  /**
   * A featured product is left out of the strip only when four featured
   * products come before its first place in the catalog.
   */
  lemma FeaturedOmittedOnlyAfterFour(catalog: seq<Product>, p: Product)
    requires p in catalog && p.featured && p !in Featured(catalog)
    ensures |AllFeatured(catalog[..FirstIndex(catalog, p)])| >= 4
  {
    var k := FirstIndex(catalog, p);
    var before := AllFeatured(catalog[..k]);
    FilterSplitAt(catalog, IsFeatured, k);
    assert AllFeatured(catalog)[|before|] == p;
  }
}
