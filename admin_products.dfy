/** The admin products page: search by title or id, a category filter, and the delete button. */
module AdminProducts {
  import opened Lists
  import opened Text
  import opened Catalog

  /** Title or id contains the query, ignoring case. */
  predicate MatchesSearch(p: Product, query: string)
  {
    ContainsIgnoringCase(p.title, query) || ContainsIgnoringCase(p.id, query)
  }

  /** The row filter: the search, and under a category other than "all" also that exact category. */
  predicate Keeps(p: Product, query: string, category: string)
  {
    if category == "all" then MatchesSearch(p, query)
    else MatchesSearch(p, query) && p.category == category
  }

  /** `filteredProducts`: the matching products in catalog order. */
  function FilteredProducts(catalog: seq<Product>, query: string, category: string): (r: seq<Product>)
    ensures IsSubsequence(r, catalog)
    ensures forall p :: p in r <==> p in catalog && MatchesSearch(p, query) && (category == "all" || p.category == category)
  {
    var keep := (p: Product) => Keeps(p, query, category);
    FilterSubsequence(catalog, keep);
    Filter(catalog, keep)
  }

  /** With an empty query and "all", the table lists the whole catalog in order. */
  lemma EmptySearchShowsAll(catalog: seq<Product>)
    ensures FilteredProducts(catalog, "", "all") == catalog
  {
    forall i | 0 <= i < |catalog| ensures Keeps(catalog[i], "", "all") {
      EmptyQueryMatches(catalog[i].title);
    }
    FilterKeepsAll(catalog, (p: Product) => Keeps(p, "", "all"));
  }

  /** `handleDeleteProduct` only announces the deletion: the catalog it returns is the one it was given. */
  function DeleteProduct(catalog: seq<Product>, id: string): (r: seq<Product>)
    ensures r == catalog
  {
    catalog
  }
}
