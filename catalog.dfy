/** The static product catalog every page reads; the core never changes it. */
module Catalog {
  import opened Wrappers
  import opened Lists

  /**
   * One catalog product. `discount` is a percentage and may be absent;
   * `kind` is the product's `type` field ("Veg" or "Non Veg").
   */
  datatype Product = Product(
    id: string,
    title: string,
    price: real,
    discount: Option<real>,
    kind: string,
    category: string,
    featured: bool)

  /** The `category` field of every product, in catalog order. */
  function CategoriesOf(catalog: seq<Product>): (r: seq<string>)
    ensures |r| == |catalog|
  {
    seq(|catalog|, i requires 0 <= i < |catalog| => catalog[i].category)
  }

  /**
   * `["all", ...new Set(catalog.map(p => p.category))]`: the choices of the
   * category filter on the search page and on the admin products page.
   */
  function CategoryOptions(catalog: seq<Product>): (r: seq<string>)
    ensures |r| >= 1 && r[0] == "all"
    ensures r[1..] == Distinct(CategoriesOf(catalog))
    ensures forall c :: c in r[1..] <==> exists i :: 0 <= i < |catalog| && catalog[i].category == c
    ensures NoDuplicates(r[1..])
  {
    var cats := CategoriesOf(catalog);
    assert forall i :: 0 <= i < |catalog| ==> cats[i] == catalog[i].category;
    assert forall c :: c in cats <==> exists i :: 0 <= i < |catalog| && catalog[i].category == c by {
      forall c | c in cats ensures exists i :: 0 <= i < |catalog| && catalog[i].category == c {
        var i :| 0 <= i < |cats| && cats[i] == c;
        assert catalog[i].category == c;
      }
    }
    var r := ["all"] + Distinct(cats);
    assert r[1..] == Distinct(CategoriesOf(catalog));
    r
  }
}
