/** The admin orders page: search and status filtering, the status dialog and the details totals. */
module AdminOrders {
  import opened Wrappers
  import opened Lists
  import opened Text

  /** One line of an order's details. */
  datatype OrderLine = OrderLine(id: string, name: string, quantity: int, price: real)

  /** One order as the admin table lists it. */
  datatype Order = Order(
    id: string,
    customer: string,
    email: string,
    date: string,
    total: real,
    status: string,
    items: seq<OrderLine>,
    address: string,
    payment: string)

  /** Order id, customer name or e-mail contains the query, ignoring case. */
  predicate MatchesSearch(o: Order, query: string)
  {
    ContainsIgnoringCase(o.id, query) || ContainsIgnoringCase(o.customer, query) || ContainsIgnoringCase(o.email, query)
  }

  /** The row filter: the search, and under any filter other than "all" also the status, both ignoring case. */
  predicate Keeps(o: Order, query: string, statusFilter: string)
  {
    if statusFilter == "all" then MatchesSearch(o, query)
    else MatchesSearch(o, query) && Lower(o.status) == Lower(statusFilter)
  }

  /**
   * `filteredOrders`: the orders the table shows, in their original order,
   * each kept exactly when it matches the search and, unless the filter is
   * "all", has the filtered status up to case.
   */
  function FilteredOrders(orders: seq<Order>, query: string, statusFilter: string): (r: seq<Order>)
    ensures IsSubsequence(r, orders)
    ensures forall o :: o in r <==>
      o in orders && MatchesSearch(o, query) && (statusFilter == "all" || Lower(o.status) == Lower(statusFilter))
  {
    var keep := (o: Order) => Keeps(o, query, statusFilter);
    FilterSubsequence(orders, keep);
    Filter(orders, keep)
  }

  /** With an empty query and the "all" filter every order is shown, in order. */
  lemma EmptySearchShowsAll(orders: seq<Order>)
    ensures FilteredOrders(orders, "", "all") == orders
  {
    forall i | 0 <= i < |orders| ensures Keeps(orders[i], "", "all") {
      EmptyQueryMatches(orders[i].id);
    }
    FilterKeepsAll(orders, (o: Order) => Keeps(o, "", "all"));
  }

  /** The "all" filter is the search alone. */
  lemma AllStatusesIsSearchOnly(orders: seq<Order>, query: string)
    ensures FilteredOrders(orders, query, "all") == Filter(orders, (o: Order) => MatchesSearch(o, query))
  {
    FilterSame(orders, (o: Order) => Keeps(o, query, "all"), (o: Order) => MatchesSearch(o, query));
  }

  /** What the status dialog holds: the selected order and whether the dialog is open. */
  datatype Dialog = Dialog(selected: Option<Order>, open: bool)

  /**
   * `handleUpdateStatus`: without a selection nothing happens; with one the
   * dialog closes. The orders themselves never change, whatever status is picked.
   */
  function UpdateStatus(orders: seq<Order>, d: Dialog, status: string): (r: (seq<Order>, Dialog))
    ensures r.0 == orders
    ensures r.1.selected == d.selected
    ensures d.selected.None? ==> r.1 == d
    ensures d.selected.Some? ==> !r.1.open
  {
    if d.selected.None? then (orders, d) else (orders, d.(open := false))
  }

  /** The tax row of the details table: five per cent of the order total. */
  function TaxRow(total: real): (t: real)
    ensures total >= 0.0 ==> 0.0 <= t <= total
  {
    total * 0.05
  }

  /** The grand total row: the order total times 1.05. */
  function GrandTotalRow(total: real): real
  {
    total * 1.05
  }

  /** The grand total row is the subtotal row plus the tax row. */
  lemma GrandTotalIsSubtotalPlusTax(total: real)
    ensures GrandTotalRow(total) == total + TaxRow(total)
    ensures total >= 0.0 ==> GrandTotalRow(total) >= total
  {
  }
}
