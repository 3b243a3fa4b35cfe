/**
 * The search page: the catalog filtered by the URL query, a category, a
 * type and an effective-price range, then sorted by one of three orders;
 * plus the typed-query search, the filter reset and the active-filter badge.
 */
module SearchPage {
  import opened Wrappers
  import opened Lists
  import opened Text
  import opened Catalog

  /** The page's filter settings: category, type, price range and sort order. */
  datatype Settings = Settings(category: string, kind: string, low: real, high: real, sortBy: string)

  /** The settings the page starts with, and `clearFilters` restores. */
  const Defaults: Settings := Settings("all", "all", 0.0, 50.0, "relevance")

  /** The price after discount; a missing or zero discount leaves the price as it is. */
  function EffectivePrice(p: Product): real
  {
    if p.discount.Some? && p.discount.value != 0.0 then p.price - (p.price * p.discount.value) / 100.0
    else p.price
  }

  /** The discount sort key: a missing discount counts as 0. */
  function DiscountKey(p: Product): real
  {
    if p.discount.Some? then p.discount.value else 0.0
  }

  /** The effective price is the list price when there is no discount, and the discounted price otherwise. */
  lemma EffectivePriceSpec(p: Product)
    ensures p.discount == None ==> EffectivePrice(p) == p.price
    ensures p.discount.Some? ==> EffectivePrice(p) == p.price * (100.0 - p.discount.value) / 100.0
    ensures p.price >= 0.0 && p.discount.Some? && 0.0 <= p.discount.value <= 100.0 ==>
              0.0 <= EffectivePrice(p) <= p.price
  {
    if p.discount.Some? {
      var x, d := p.price, p.discount.value;
      assert x - (x * d) / 100.0 == x * (100.0 - d) / 100.0;
      if x >= 0.0 && 0.0 <= d <= 100.0 {
        MulNonNegative(x, d);
        MulNonNegative(x, 100.0 - d);
      }
    }
  }

  /** The product of two non-negative reals is non-negative. */
  lemma MulNonNegative(a: real, b: real)
    requires a >= 0.0 && b >= 0.0
    ensures a * b >= 0.0
  {
  }

  /** Title, category or type contains the query, ignoring case. */
  predicate MatchesQuery(p: Product, query: string)
  {
    ContainsIgnoringCase(p.title, query) || ContainsIgnoringCase(p.category, query) || ContainsIgnoringCase(p.kind, query)
  }

  /** The effective price lies in the range, both ends included. */
  predicate InPriceRange(p: Product, s: Settings)
  {
    s.low <= EffectivePrice(p) <= s.high
  }

  /** Everything the effect asks of one product. */
  predicate Passes(p: Product, query: string, s: Settings)
  {
    && (query == "" || MatchesQuery(p, query))
    && (s.category == "all" || p.category == s.category)
    && (s.kind == "all" || p.kind == s.kind)
    && InPriceRange(p, s)
  }

  /** The query step's test. */
  function QueryTest(query: string): Product -> bool
  {
    (p: Product) => MatchesQuery(p, query)
  }

  /** The category step's test. */
  function CategoryTest(category: string): Product -> bool
  {
    (p: Product) => p.category == category
  }

  /** The type step's test. */
  function KindTest(kind: string): Product -> bool
  {
    (p: Product) => p.kind == kind
  }

  /** The price step's test. */
  function PriceTest(s: Settings): Product -> bool
  {
    (p: Product) => InPriceRange(p, s)
  }

  /** The query and category steps together. */
  function FirstTwo(query: string, s: Settings): Product -> bool
  {
    (p: Product) => (query == "" || MatchesQuery(p, query)) && (s.category == "all" || p.category == s.category)
  }

  /** The query, category and type steps together. */
  function FirstThree(query: string, s: Settings): Product -> bool
  {
    (p: Product) => FirstTwo(query, s)(p) && (s.kind == "all" || p.kind == s.kind)
  }

  /** Every step together. */
  function PassesTest(query: string, s: Settings): Product -> bool
  {
    (p: Product) => Passes(p, query, s)
  }

  /** The effect's filter chain, step by step: query, category, type, price. */
  function Filtered(catalog: seq<Product>, query: string, s: Settings): seq<Product>
  {
    var byQuery := FilterIf(catalog, query != "", QueryTest(query));
    var byCategory := FilterIf(byQuery, s.category != "all", CategoryTest(s.category));
    var byKind := FilterIf(byCategory, s.kind != "all", KindTest(s.kind));
    Filter(byKind, PriceTest(s))
  }

  /** The query and category steps filter the catalog by both tests at once. */
  lemma FirstTwoSteps(catalog: seq<Product>, query: string, s: Settings)
    ensures FilterIf(FilterIf(catalog, query != "", QueryTest(query)), s.category != "all", CategoryTest(s.category))
         == Filter(catalog, FirstTwo(query, s))
  {
    var q1 := (p: Product) => query == "" || MatchesQuery(p, query);
    var q2 := (p: Product) => s.category == "all" || p.category == s.category;
    FilterIfAsFilter(catalog, query != "", QueryTest(query), q1);
    FilterIfAsFilter(Filter(catalog, q1), s.category != "all", CategoryTest(s.category), q2);
    FilterFilter(catalog, q1, q2, FirstTwo(query, s));
  }

  /** The first three steps filter the catalog by all three tests at once. */
  lemma FirstThreeSteps(catalog: seq<Product>, query: string, s: Settings)
    ensures FilterIf(Filter(catalog, FirstTwo(query, s)), s.kind != "all", KindTest(s.kind))
         == Filter(catalog, FirstThree(query, s))
  {
    var q3 := (p: Product) => s.kind == "all" || p.kind == s.kind;
    FilterIfAsFilter(Filter(catalog, FirstTwo(query, s)), s.kind != "all", KindTest(s.kind), q3);
    FilterFilter(catalog, FirstTwo(query, s), q3, FirstThree(query, s));
  }

  /**
   * The filtered list is exactly the catalog products that pass every
   * active filter, in catalog order: with a query, title, category or type
   * contains it ignoring case; a category or type other than "all" must
   * match exactly; the effective price lies within the range.
   */
  lemma FilteredSpec(catalog: seq<Product>, query: string, s: Settings)
    ensures Filtered(catalog, query, s) == Filter(catalog, PassesTest(query, s))
    ensures forall p :: p in Filtered(catalog, query, s) <==> p in catalog && Passes(p, query, s)
    ensures IsSubsequence(Filtered(catalog, query, s), catalog)
  {
    FirstTwoSteps(catalog, query, s);
    FirstThreeSteps(catalog, query, s);
    FilterFilter(catalog, FirstThree(query, s), PriceTest(s), PassesTest(query, s));
    FilterSubsequence(catalog, PassesTest(query, s));
  }

  // ---------------------------------------------------------------- sorting

  /** `a` may come before `b` in the chosen direction. */
  predicate Ordered(a: real, b: real, descending: bool)
  {
    if descending then a >= b else a <= b
  }

  /** Every earlier element comes no later than every later one under `key`. */
  ghost predicate SortedBy(s: seq<Product>, key: Product -> real, descending: bool)
  {
    forall i, j :: 0 <= i < j < |s| ==> Ordered(key(s[i]), key(s[j]), descending)
  }

  /** Inserts `x` in front of the first element it may precede. */
  function Insert(x: Product, s: seq<Product>, key: Product -> real, descending: bool): (r: seq<Product>)
    ensures multiset(r) == multiset(s) + multiset{x}
    decreases |s|
  {
    if s == [] || Ordered(key(x), key(s[0]), descending) then [x] + s
    else
      assert s == [s[0]] + s[1..];
      [s[0]] + Insert(x, s[1..], key, descending)
  }

  /** Inserting into a sorted list keeps it sorted. */
  lemma {:induction false} InsertSorted(x: Product, s: seq<Product>, key: Product -> real, descending: bool)
    requires SortedBy(s, key, descending)
    ensures SortedBy(Insert(x, s, key, descending), key, descending)
    decreases |s|
  {
    if s == [] || Ordered(key(x), key(s[0]), descending) {
      forall j | 0 <= j < |s| ensures Ordered(key(x), key(s[j]), descending) {
        if j > 0 {
          assert Ordered(key(s[0]), key(s[j]), descending);
        }
      }
      SortedCons(x, s, key, descending);
    } else {
      SortedTail(s, key, descending);
      InsertSorted(x, s[1..], key, descending);
      forall j | 0 <= j < |s[1..]| ensures Ordered(key(s[0]), key(s[1..][j]), descending) {
        assert s[1..][j] == s[j + 1];
      }
      InsertBound(s[0], x, s[1..], key, descending);
      SortedCons(s[0], Insert(x, s[1..], key, descending), key, descending);
    }
  }

  /** The tail of a sorted list is sorted. */
  lemma SortedTail(s: seq<Product>, key: Product -> real, descending: bool)
    requires s != [] && SortedBy(s, key, descending)
    ensures SortedBy(s[1..], key, descending)
  {
    forall i, j | 0 <= i < j < |s[1..]| ensures Ordered(key(s[1..][i]), key(s[1..][j]), descending) {
      assert s[1..][i] == s[i + 1] && s[1..][j] == s[j + 1];
    }
  }

  /** A sorted list stays sorted under a new head that may precede each of its elements. */
  lemma SortedCons(y: Product, t: seq<Product>, key: Product -> real, descending: bool)
    requires SortedBy(t, key, descending)
    requires forall j :: 0 <= j < |t| ==> Ordered(key(y), key(t[j]), descending)
    ensures SortedBy([y] + t, key, descending)
  {
    var r := [y] + t;
    forall i, j | 0 <= i < j < |r| ensures Ordered(key(r[i]), key(r[j]), descending) {
      assert r[j] == t[j - 1];
      if i > 0 {
        assert r[i] == t[i - 1];
      }
    }
  }

  /** A key bound that holds for `x` and for every element of `s` holds for every element after inserting `x`. */
  lemma {:induction false} InsertBound(y: Product, x: Product, s: seq<Product>, key: Product -> real, descending: bool)
    requires !Ordered(key(x), key(y), descending)
    requires forall j :: 0 <= j < |s| ==> Ordered(key(y), key(s[j]), descending)
    ensures forall j :: 0 <= j < |Insert(x, s, key, descending)| ==>
      Ordered(key(y), key(Insert(x, s, key, descending)[j]), descending)
    decreases |s|
  {
    var r := Insert(x, s, key, descending);
    if s == [] || Ordered(key(x), key(s[0]), descending) {
      forall j | 0 <= j < |r| ensures Ordered(key(y), key(r[j]), descending) {
        if j > 0 {
          assert r[j] == s[j - 1];
        }
      }
    } else {
      forall j | 0 <= j < |s[1..]| ensures Ordered(key(y), key(s[1..][j]), descending) {
        assert s[1..][j] == s[j + 1];
      }
      InsertBound(y, x, s[1..], key, descending);
      var t := Insert(x, s[1..], key, descending);
      forall j | 0 <= j < |r| ensures Ordered(key(y), key(r[j]), descending) {
        if j > 0 {
          assert r[j] == t[j - 1];
        }
      }
    }
  }

  /** `Array.prototype.sort` with a comparator on `key`: a sorted permutation. */
  function SortBy(s: seq<Product>, key: Product -> real, descending: bool): (r: seq<Product>)
    ensures multiset(r) == multiset(s)
    ensures SortedBy(r, key, descending)
    decreases |s|
  {
    if s == [] then []
    else
      assert s == [s[0]] + s[1..];
      var t := SortBy(s[1..], key, descending);
      InsertSorted(s[0], t, key, descending);
      Insert(s[0], t, key, descending)
  }

  /** The narrowing half of the filter effect: query, category, type, then price range, each step reassigning the list. */
  method NarrowSteps(catalog: seq<Product>, query: string, s: Settings) returns (filtered: seq<Product>)
    ensures filtered == Filtered(catalog, query, s)
  {
    filtered := catalog;
    if query != "" {
      filtered := Filter(filtered, QueryTest(query));
    }
    if s.category != "all" {
      filtered := Filter(filtered, CategoryTest(s.category));
    }
    if s.kind != "all" {
      filtered := Filter(filtered, KindTest(s.kind));
    }
    filtered := Filter(filtered, PriceTest(s));
  }

  /** Lists with the same multiset of elements have the same members. */
  lemma SameMembers(a: seq<Product>, b: seq<Product>)
    requires multiset(a) == multiset(b)
    ensures forall p :: p in a <==> p in b
  {
    forall p ensures p in a <==> p in b {
      assert p in a <==> p in multiset(a);
      assert p in b <==> p in multiset(b);
    }
  }

  /**
   * The filter effect. It narrows the catalog step by step and then sorts:
   * "price-low" by effective price upward, "price-high" downward, "discount"
   * by discount downward; any other order ("relevance") keeps catalog order.
   */
  method FilterEffect(catalog: seq<Product>, query: string, s: Settings) returns (results: seq<Product>)
    ensures multiset(results) == multiset(Filtered(catalog, query, s))
    ensures forall p :: p in results <==> p in catalog && Passes(p, query, s)
    ensures s.sortBy == "price-low" ==> SortedBy(results, EffectivePrice, false)
    ensures s.sortBy == "price-high" ==> SortedBy(results, EffectivePrice, true)
    ensures s.sortBy == "discount" ==> SortedBy(results, DiscountKey, true)
    ensures s.sortBy != "price-low" && s.sortBy != "price-high" && s.sortBy != "discount" ==>
              results == Filtered(catalog, query, s)
  {
    var filtered := NarrowSteps(catalog, query, s);
    FilteredSpec(catalog, query, s);
    if s.sortBy == "price-low" {
      results := SortBy(filtered, EffectivePrice, false);
    } else if s.sortBy == "price-high" {
      results := SortBy(filtered, EffectivePrice, true);
    } else if s.sortBy == "discount" {
      results := SortBy(filtered, DiscountKey, true);
    } else {
      results := filtered;
    }
    SameMembers(results, filtered);
  }

  /** `handleSearch`: the catalog filtered by the typed query alone; the other settings play no part. */
  function SearchByText(catalog: seq<Product>, typed: string): (r: seq<Product>)
    ensures forall p :: p in r <==> p in catalog && MatchesQuery(p, typed)
    ensures IsSubsequence(r, catalog)
  {
    var keep := (p: Product) => MatchesQuery(p, typed);
    FilterSubsequence(catalog, keep);
    Filter(catalog, keep)
  }

  /** An empty typed query lists the whole catalog. */
  lemma SearchByEmptyTextKeepsAll(catalog: seq<Product>)
    ensures SearchByText(catalog, "") == catalog
  {
    forall i | 0 <= i < |catalog| ensures MatchesQuery(catalog[i], "") {
      EmptyQueryMatches(catalog[i].title);
    }
    FilterKeepsAll(catalog, (p: Product) => MatchesQuery(p, ""));
  }

  /** `clearFilters`: category, type, price range and order back to their defaults. */
  function ClearFilters(s: Settings): (r: Settings)
    ensures r.category == "all" && r.kind == "all" && r.sortBy == "relevance"
    ensures r.low == 0.0 && r.high == 50.0
  {
    Defaults
  }

  /** `activeFiltersCount`: one for each setting away from its default. */
  function ActiveFiltersCount(s: Settings): (n: nat)
    ensures n <= 4
    ensures n == 0 <==> s.category == "all" && s.kind == "all" && s.sortBy == "relevance" && s.low <= 0.0 && s.high >= 50.0
  {
    (if s.category != "all" then 1 else 0) +
    (if s.kind != "all" then 1 else 0) +
    (if s.sortBy != "relevance" then 1 else 0) +
    (if s.low > 0.0 || s.high < 50.0 then 1 else 0)
  }

  /**
   * The badge counts between 0 and 4; it is 0 exactly when category, type
   * and order are at their defaults and the range reaches from 0 to 50; it is
   * 0 after `clearFilters`.
   */
  lemma ActiveFiltersCountSpec(s: Settings)
    ensures ActiveFiltersCount(s) <= 4
    ensures ActiveFiltersCount(s) == 0 <==>
      s.category == "all" && s.kind == "all" && s.sortBy == "relevance" && s.low <= 0.0 && s.high >= 50.0
    ensures ActiveFiltersCount(ClearFilters(s)) == 0
  {
  }
}
