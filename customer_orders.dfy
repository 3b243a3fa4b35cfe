/** The customer's order history page: search by order id or item name, and status tabs. */
module CustomerOrders {
  import opened Lists
  import opened Text

  /** One item of a past order. */
  datatype OrderItem = OrderItem(name: string, quantity: int, price: real)

  /** One past order. */
  datatype Order = Order(id: string, date: string, status: string, items: seq<OrderItem>, total: real)

  /** `items.some(...)`: some item's name contains the query, ignoring case. */
  predicate SomeItemMatches(items: seq<OrderItem>, query: string)
  {
    items != [] && (ContainsIgnoringCase(items[0].name, query) || SomeItemMatches(items[1..], query))
  }

  /** `some` holds exactly when one of the items matches. */
  lemma {:induction false} SomeItemMatchesSpec(items: seq<OrderItem>, query: string)
    ensures SomeItemMatches(items, query) <==>
      exists i :: 0 <= i < |items| && ContainsIgnoringCase(items[i].name, query)
  {
    if items != [] {
      SomeItemMatchesSpec(items[1..], query);
      if SomeItemMatches(items[1..], query) {
        var i :| 0 <= i < |items[1..]| && ContainsIgnoringCase(items[1..][i].name, query);
        assert items[i + 1] == items[1..][i];
      }
      if exists i :: 0 <= i < |items| && ContainsIgnoringCase(items[i].name, query) {
        var i :| 0 <= i < |items| && ContainsIgnoringCase(items[i].name, query);
        if i > 0 {
          assert items[1..][i - 1] == items[i];
        }
      }
    }
  }

  /** Order id or some item name contains the query, ignoring case. */
  predicate MatchesSearch(o: Order, query: string)
  {
    ContainsIgnoringCase(o.id, query) || SomeItemMatches(o.items, query)
  }

  /** The tab rule: "processing" and "delivered" also require that exact status; any other tab is the search alone. */
  predicate Keeps(o: Order, query: string, tab: string)
  {
    if tab == "all" then MatchesSearch(o, query)
    else if tab == "processing" then MatchesSearch(o, query) && o.status == "Processing"
    else if tab == "delivered" then MatchesSearch(o, query) && o.status == "Delivered"
    else MatchesSearch(o, query)
  }

  /** `filteredOrders`: the matching orders of the active tab, in history order. */
  function FilteredOrders(orders: seq<Order>, query: string, tab: string): (r: seq<Order>)
    ensures IsSubsequence(r, orders)
    ensures forall o :: o in r <==>
      (o in orders && MatchesSearch(o, query) &&
       (tab == "processing" ==> o.status == "Processing") &&
       (tab == "delivered" ==> o.status == "Delivered"))
  {
    var keep := (o: Order) => Keeps(o, query, tab);
    FilterSubsequence(orders, keep);
    Filter(orders, keep)
  }

  /** A tab other than "processing" and "delivered" applies the search only. */
  lemma OtherTabsSearchOnly(orders: seq<Order>, query: string, tab: string)
    requires tab != "processing" && tab != "delivered"
    ensures FilteredOrders(orders, query, tab) == Filter(orders, (o: Order) => MatchesSearch(o, query))
  {
    FilterSame(orders, (o: Order) => Keeps(o, query, tab), (o: Order) => MatchesSearch(o, query));
  }

  /**
   * With an empty query the tab alone decides: "processing" lists the
   * processing orders, "delivered" the delivered ones, and any other tab
   * the whole history, each in order.
   */
  lemma EmptySearchShowsTab(orders: seq<Order>, tab: string)
    ensures tab == "processing" ==> FilteredOrders(orders, "", tab) == Filter(orders, (o: Order) => o.status == "Processing")
    ensures tab == "delivered" ==> FilteredOrders(orders, "", tab) == Filter(orders, (o: Order) => o.status == "Delivered")
    ensures tab != "processing" && tab != "delivered" ==> FilteredOrders(orders, "", tab) == orders
  {
    forall o: Order ensures MatchesSearch(o, "") {
      EmptyQueryMatches(o.id);
    }
    if tab == "processing" {
      FilterSame(orders, (o: Order) => Keeps(o, "", tab), (o: Order) => o.status == "Processing");
    } else if tab == "delivered" {
      FilterSame(orders, (o: Order) => Keeps(o, "", tab), (o: Order) => o.status == "Delivered");
    } else {
      FilterKeepsAll(orders, (o: Order) => Keeps(o, "", tab));
    }
  }
}
