/**
 * The menu provider: the catalog, the shopper's search text and selected
 * category, the visible subset of the catalog, and the category strip with
 * a per-category item count headed by a synthetic "All" entry.
 */
module MenuProvider {
  import opened Lists
  import opened Text
  import opened Catalog

  /** One entry of the category strip: its `label` (here `name`), its item count and whether it is selected. */
  datatype CategoryEntry = CategoryEntry(name: string, count: nat, active: bool)

  /** The catalog items of one category, in catalog order. */
  function InCategory(items: seq<Product>, category: string): seq<Product>
  {
    Filter(items, (p: Product) => p.category == category)
  }

  /** The number of catalog items in one category. */
  function CountIn(items: seq<Product>, category: string): nat
  {
    |InCategory(items, category)|
  }

  /** The catalog's categories, each once, in order of first appearance. */
  function Labels(items: seq<Product>): seq<string>
  {
    Distinct(CategoriesOf(items))
  }

  /** The per-category entries, in the order of `labels`. */
  function Entries(items: seq<Product>, labels: seq<string>, selected: string): (r: seq<CategoryEntry>)
    ensures |r| == |labels|
  {
    seq(|labels|, i requires 0 <= i < |labels| =>
      CategoryEntry(labels[i], CountIn(items, labels[i]), labels[i] == selected))
  }

  /** The category strip: "All" with the catalog size, then one entry per category. */
  function CategoryTable(items: seq<Product>, selected: string): (r: seq<CategoryEntry>)
    ensures |r| == |Labels(items)| + 1
  {
    [CategoryEntry("All", |items|, selected == "All")] + Entries(items, Labels(items), selected)
  }

  /** The sum of the counts of a list of entries. */
  function CountSum(entries: seq<CategoryEntry>): nat
    decreases |entries|
  {
    if entries == [] then 0 else entries[0].count + CountSum(entries[1..])
  }

  /**
   * The category strip starts with "All" counting the whole catalog; then
   * come the distinct catalog categories in first-appearance order, each
   * with the number of catalog items in it; an entry is active iff its label
   * is the selected category.
   */
  lemma CategoryTableShape(items: seq<Product>, selected: string)
    ensures CategoryTable(items, selected)[0] == CategoryEntry("All", |items|, selected == "All")
    ensures forall i :: 1 <= i < |CategoryTable(items, selected)| ==>
      && CategoryTable(items, selected)[i].name == Labels(items)[i - 1]
      && CategoryTable(items, selected)[i].count == CountIn(items, Labels(items)[i - 1])
    ensures forall i :: 0 <= i < |CategoryTable(items, selected)| ==>
      (CategoryTable(items, selected)[i].active <==> CategoryTable(items, selected)[i].name == selected)
    ensures forall c :: c in Labels(items) <==> exists i :: 0 <= i < |items| && items[i].category == c
    ensures NoDuplicates(Labels(items))
    ensures forall i, j :: 0 <= i < j < |Labels(items)| ==>
      FirstIndex(CategoriesOf(items), Labels(items)[i]) < FirstIndex(CategoriesOf(items), Labels(items)[j])
  {
    var cats := CategoriesOf(items);
    assert forall i :: 0 <= i < |items| ==> cats[i] == items[i].category;
    forall c | c in cats ensures exists i :: 0 <= i < |items| && items[i].category == c {
      var i :| 0 <= i < |cats| && cats[i] == c;
    }
    DistinctFirstAppearanceOrder(cats);
  }

  /** The counts after "All" add up to the catalog size, the count of "All". */
  lemma CategoryCountsSumToCatalogSize(items: seq<Product>, selected: string)
    ensures CountSum(CategoryTable(items, selected)[1..]) == |items|
  {
    var labels := Labels(items);
    assert CategoryTable(items, selected)[1..] == Entries(items, labels, selected);
    EntriesCountSum(items, labels, selected);
    forall i | 0 <= i < |items| ensures items[i].category in labels {
      assert CategoriesOf(items)[i] == items[i].category;
    }
    SumOfCounts(items, labels);
  }

  /** The sum of counts over some labels, written label by label. */
  function SumOver(items: seq<Product>, labels: seq<string>): nat
    decreases |labels|
  {
    if labels == [] then 0 else CountIn(items, labels[0]) + SumOver(items, labels[1..])
  }

  lemma {:induction false} EntriesCountSum(items: seq<Product>, labels: seq<string>, selected: string)
    ensures CountSum(Entries(items, labels, selected)) == SumOver(items, labels)
    decreases |labels|
  {
    if labels != [] {
      assert Entries(items, labels, selected)[1..] == Entries(items, labels[1..], selected);
      EntriesCountSum(items, labels[1..], selected);
    }
  }

  /** Moving one item in front of the catalog adds one for each label equal to its category. */
  lemma {:induction false} SumOverCons(x: Product, rest: seq<Product>, labels: seq<string>)
    ensures SumOver([x] + rest, labels) == SumOver(rest, labels) + |Filter(labels, (l: string) => l == x.category)|
    decreases |labels|
  {
    if labels != [] {
      SumOverCons(x, rest, labels[1..]);
      assert ([x] + rest)[1..] == rest;
    }
  }

  /** A label list without repetitions holds a label it contains exactly once. */
  lemma {:induction false} OccursOnce(labels: seq<string>, c: string)
    requires NoDuplicates(labels) && c in labels
    ensures |Filter(labels, (l: string) => l == c)| == 1
    decreases |labels|
  {
    if labels[0] == c {
      assert forall i :: 0 <= i < |labels[1..]| ==> labels[1..][i] != c;
      FilterKeepsNone(labels[1..], (l: string) => l == c);
    } else {
      OccursOnce(labels[1..], c);
    }
  }

  /** Summing the per-label counts over labels covering every category, each once, gives the item count. */
  lemma {:induction false} SumOfCounts(items: seq<Product>, labels: seq<string>)
    requires NoDuplicates(labels)
    requires forall i :: 0 <= i < |items| ==> items[i].category in labels
    ensures SumOver(items, labels) == |items|
    decreases |items|
  {
    if items == [] {
      SumOverEmpty(labels);
    } else {
      var x, rest := items[0], items[1..];
      assert items == [x] + rest;
      SumOfCounts(rest, labels);
      SumOverCons(x, rest, labels);
      OccursOnce(labels, x.category);
    }
  }

  lemma {:induction false} SumOverEmpty(labels: seq<string>)
    ensures SumOver([], labels) == 0
    decreases |labels|
  {
    if labels != [] {
      SumOverEmpty(labels[1..]);
    }
  }

  /**
   * The `forEach` of the category-count effect: it fills a `Map` from
   * category to count; a `Map` remembers first-insertion order, kept here
   * as `labels`.
   */
  /**
   * `labels` lists the categories of `items` in first-appearance order, and
   * `counts` maps exactly those categories to their item counts.
   */
  ghost predicate TalliedAs(items: seq<Product>, labels: seq<string>, counts: map<string, nat>)
  {
    && labels == Labels(items)
    && (forall l :: l in counts <==> l in labels)
    && (forall l :: l in counts ==> counts[l] == CountIn(items, l))
  }

  method Tally(items: seq<Product>) returns (labels: seq<string>, counts: map<string, nat>)
    ensures TalliedAs(items, labels, counts)
  {
    labels, counts := [], map[];
    var k := 0;
    assert items[..k] == [];
    while k < |items|
      invariant 0 <= k <= |items|
      invariant TalliedAs(items[..k], labels, counts)
    {
      var c := items[k].category;
      ghost var labels0, counts0 := labels, counts;
      var n := if c in counts then counts[c] else 0;
      if c !in counts {
        labels := labels + [c];
      }
      counts := counts[c := n + 1];
      TallyInvariant(items, k, labels0, counts0, labels, counts);
      k := k + 1;
    }
    assert items[..k] == items;
  }

  /** The category-count effect: the tally read off label by label, with "All" put in front. */
  method BuildCategories(items: seq<Product>, selected: string) returns (table: seq<CategoryEntry>)
    ensures table == CategoryTable(items, selected)
  {
    var labels, counts := Tally(items);
    var entries := seq(|labels|, i requires 0 <= i < |labels| =>
      CategoryEntry(labels[i], counts[labels[i]], labels[i] == selected));
    TableFromCounts(items, labels, counts, selected, entries);
    table := [CategoryEntry("All", |items|, selected == "All")] + entries;
  }

  /** One round of the tally loop keeps its invariant. */
  lemma TallyInvariant(items: seq<Product>, k: nat, labels: seq<string>, counts: map<string, nat>,
                       labels': seq<string>, counts': map<string, nat>)
    requires k < |items|
    requires TalliedAs(items[..k], labels, counts)
    requires labels' == if items[k].category in counts then labels else labels + [items[k].category]
    requires counts' == counts[items[k].category := (if items[k].category in counts then counts[items[k].category] else 0) + 1]
    ensures TalliedAs(items[..k + 1], labels', counts')
  {
    var c := items[k].category;
    TallyLabels(items, k);
    if c !in CategoriesOf(items[..k]) {
      AbsentCountsZero(items[..k], c);
    }
    forall l | l in counts'
      ensures counts'[l] == CountIn(items[..k + 1], l)
    {
      TallyCounts(items, k, l);
    }
  }

  /** Entries read off the finished tally are the specified entries. */
  lemma TableFromCounts(items: seq<Product>, labels: seq<string>, counts: map<string, nat>, selected: string,
                        entries: seq<CategoryEntry>)
    requires TalliedAs(items, labels, counts)
    requires |entries| == |labels|
    requires forall i :: 0 <= i < |labels| ==>
      entries[i] == CategoryEntry(labels[i], counts[labels[i]], labels[i] == selected)
    ensures entries == Entries(items, labels, selected)
  {
  }

  /** What one more catalog item does to the labels of a prefix. */
  lemma TallyLabels(items: seq<Product>, k: nat)
    requires k < |items|
    ensures items[k].category in Labels(items[..k]) <==> items[k].category in CategoriesOf(items[..k])
    ensures Labels(items[..k + 1]) ==
      if items[k].category in CategoriesOf(items[..k]) then Labels(items[..k]) else Labels(items[..k]) + [items[k].category]
  {
    var c := items[k].category;
    assert CategoriesOf(items[..k + 1]) == CategoriesOf(items[..k]) + [c];
    DistinctSnoc(CategoriesOf(items[..k]), c);
  }

  /** A category that does not occur in a prefix has no items in it. */
  lemma AbsentCountsZero(items: seq<Product>, c: string)
    requires c !in CategoriesOf(items)
    ensures CountIn(items, c) == 0
  {
    assert forall i :: 0 <= i < |items| ==> CategoriesOf(items)[i] == items[i].category;
    FilterKeepsNone(items, (p: Product) => p.category == c);
  }

  /** What one more catalog item does to the counts of a prefix. */
  lemma TallyCounts(items: seq<Product>, k: nat, l: string)
    requires k < |items|
    ensures CountIn(items[..k + 1], l) == CountIn(items[..k], l) + (if l == items[k].category then 1 else 0)
  {
    assert items[..k + 1] == items[..k] + [items[k]];
    FilterAppend(items[..k], [items[k]], (p: Product) => p.category == l);
  }

  /** The filter effect's result: first the category, then the case-insensitive title or type search. */
  function VisibleItems(items: seq<Product>, category: string, query: string): seq<Product>
  {
    var byCategory := if category != "All" then InCategory(items, category) else items;
    if query != "" then
      Filter(byCategory, (p: Product) => ContainsIgnoringCase(p.title, query) || ContainsIgnoringCase(p.kind, query))
    else byCategory
  }

  /** Whether one product passes both filters. */
  predicate Shown(p: Product, category: string, query: string)
  {
    && (category == "All" || p.category == category)
    && (query == "" || ContainsIgnoringCase(p.title, query) || ContainsIgnoringCase(p.kind, query))
  }

  /**
   * The visible items are exactly the catalog items of the selected category
   * (any, for "All") whose lower-cased title or type contains the lower-cased
   * query (any, for an empty one), in catalog order.
   */
  lemma VisibleItemsSpec(items: seq<Product>, category: string, query: string)
    ensures VisibleItems(items, category, query) == Filter(items, (p: Product) => Shown(p, category, query))
    ensures forall p :: p in VisibleItems(items, category, query) <==> p in items && Shown(p, category, query)
    ensures IsSubsequence(VisibleItems(items, category, query), items)
  {
    var shown := (p: Product) => Shown(p, category, query);
    var inCat := (p: Product) => p.category == category;
    var matches := (p: Product) => ContainsIgnoringCase(p.title, query) || ContainsIgnoringCase(p.kind, query);
    FilterSubsequence(items, shown);
    if category != "All" && query != "" {
      FilterFilter(items, inCat, matches, shown);
    } else if category != "All" {
      FilterFilter(items, inCat, (p: Product) => true, shown);
      FilterKeepsAll(Filter(items, inCat), (p: Product) => true);
    } else if query != "" {
      FilterFilter(items, (p: Product) => true, matches, shown);
      FilterKeepsAll(items, (p: Product) => true);
    } else {
      FilterKeepsAll(items, shown);
    }
  }

  /** With category "All" and an empty query the whole catalog shows, in order. */
  lemma AllAndEmptyQueryShowsCatalog(items: seq<Product>)
    ensures VisibleItems(items, "All", "") == items
  {
  }

  /**
   * A worked example: the type "Non Veg" contains "veg" once lower-cased, so
   * searching "veg" under "All" shows both the veg salad and the beef burger,
   * while selecting "Burgers" shows the burger alone.
   */
  lemma VegSearchExample(salad: Product, burger: Product)
    requires salad.title == "Veg Salad" && salad.category == "Salads" && salad.kind == "Veg"
    requires burger.title == "Beef Burger" && burger.category == "Burgers" && burger.kind == "Non Veg"
    ensures VisibleItems([salad, burger], "Burgers", "") == [burger]
    ensures VisibleItems([salad, burger], "All", "veg") == [salad, burger]
  {
    var both := [salad, burger];
    assert both[1..] == [burger] && [burger][1..] == [];
    assert InCategory([burger], "Burgers") == [burger];
    assert InCategory(both, "Burgers") == [burger];
    assert Lower("veg") == "veg";
    assert Lower("Veg Salad")[..3] == "veg";
    assert ContainsIgnoringCase(salad.title, "veg");
    var nv := Lower("Non Veg");
    assert nv == "non veg";
    assert nv[4..][..3] == "veg";
    assert Contains(nv[4..], "veg");
    assert Contains(nv[3..], "veg");
    assert Contains(nv[2..], "veg");
    assert Contains(nv[1..], "veg");
    assert ContainsIgnoringCase(burger.kind, "veg");
    var m := (p: Product) => ContainsIgnoringCase(p.title, "veg") || ContainsIgnoringCase(p.kind, "veg");
    assert Filter([burger], m) == [burger];
    assert Filter(both, m) == both;
  }

  /** The menu provider's state. */
  class Menu {
    const items: seq<Product>
    var searchQuery: string
    var selectedCategory: string
    var filteredItems: seq<Product>
    var categories: seq<CategoryEntry>

    /** The state after the first render and its effects: everything shows, "All" is selected. */
    constructor (initialItems: seq<Product>)
      ensures items == initialItems
      ensures searchQuery == "" && selectedCategory == "All"
      ensures filteredItems == initialItems
      ensures categories == CategoryTable(initialItems, "All")
    {
      var table := BuildCategories(initialItems, "All");
      items := initialItems;
      searchQuery := "";
      selectedCategory := "All";
      filteredItems := initialItems;
      categories := table;
    }

    /** The filter effect, run whenever the query or the category changes. */
    method RunFilterEffect()
      modifies this
      ensures filteredItems == VisibleItems(items, selectedCategory, searchQuery)
      ensures searchQuery == old(searchQuery) && selectedCategory == old(selectedCategory)
      ensures categories == old(categories)
    {
      var filtered := items;
      if selectedCategory != "All" {
        filtered := InCategory(filtered, selectedCategory);
      }
      if searchQuery != "" {
        var q := searchQuery;
        filtered := Filter(filtered, (p: Product) => ContainsIgnoringCase(p.title, q) || ContainsIgnoringCase(p.kind, q));
      }
      filteredItems := filtered;
    }

    /** `setSearchQuery(q)`, followed by the filter effect. */
    method SetSearchQuery(q: string)
      modifies this
      ensures searchQuery == q && selectedCategory == old(selectedCategory)
      ensures filteredItems == VisibleItems(items, selectedCategory, q)
      ensures categories == old(categories)
    {
      searchQuery := q;
      RunFilterEffect();
    }

    /** `setSelectedCategory(c)`, followed by both effects. */
    method SetSelectedCategory(c: string)
      modifies this
      ensures selectedCategory == c && searchQuery == old(searchQuery)
      ensures filteredItems == VisibleItems(items, c, searchQuery)
      ensures categories == CategoryTable(items, c)
    {
      selectedCategory := c;
      categories := BuildCategories(items, c);
      RunFilterEffect();
    }
  }
}
