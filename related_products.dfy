/** The "You may also like" strip of a product page. */
module RelatedProducts {
  import opened Lists
  import opened Catalog

  /** Same category as the product shown, and not that product. */
  predicate IsRelated(p: Product, currentId: string, category: string)
  {
    p.category == category && p.id != currentId
  }

  /** The catalog products that qualify, in catalog order. */
  function Qualifying(catalog: seq<Product>, currentId: string, category: string): (r: seq<Product>)
    ensures forall p :: p in r <==> p in catalog && p.category == category && p.id != currentId
  {
    Filter(catalog, (p: Product) => IsRelated(p, currentId, category))
  }

  /** `relatedProducts`: the first four qualifying products. */
  function Related(catalog: seq<Product>, currentId: string, category: string): (r: seq<Product>)
    ensures |r| <= 4
    ensures |r| == if |Qualifying(catalog, currentId, category)| < 4 then |Qualifying(catalog, currentId, category)| else 4
    ensures r == Qualifying(catalog, currentId, category)[..|r|]
    ensures forall p :: p in r ==> p in catalog && p.category == category && p.id != currentId
    ensures r == [] <==> forall i :: 0 <= i < |catalog| ==> !IsRelated(catalog[i], currentId, category)
  {
    var q := Qualifying(catalog, currentId, category);
    var r := if |q| < 4 then q else q[..4];
    assert forall p :: p in r ==> p in q;
    assert r == [] ==> q == [];
    assert q == [] ==> forall i :: 0 <= i < |catalog| ==> catalog[i] !in q;
    assert q != [] ==> q[0] in q;
    r
  }
}
