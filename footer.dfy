/** The footer's kitchen-order strip and the dialog that sets an order's status. */
module Footer {
  import opened Wrappers
  import opened Lists

  /** One kitchen order of the strip. */
  datatype KitchenOrder = KitchenOrder(id: string, table: string, items: int, kitchen: string, status: string)

  /** Every order whose id is `id` gets `status`; all other fields, and all other orders, stay. */
  function WithStatus(orders: seq<KitchenOrder>, id: string, status: string): (r: seq<KitchenOrder>)
    ensures |r| == |orders|
    ensures forall i :: 0 <= i < |orders| && orders[i].id == id ==> r[i] == orders[i].(status := status)
    ensures forall i :: 0 <= i < |orders| && orders[i].id != id ==> r[i] == orders[i]
  {
    MapWhere(orders, (o: KitchenOrder) => o.id == id, (o: KitchenOrder) => o.(status := status))
  }

  /** Setting the status twice keeps only the second one. */
  lemma WithStatusTwice(orders: seq<KitchenOrder>, id: string, s1: string, s2: string)
    ensures WithStatus(WithStatus(orders, id, s1), id, s2) == WithStatus(orders, id, s2)
  {
  }

  /** Setting the status an order already has changes nothing. */
  lemma WithSameStatusIsNoOp(orders: seq<KitchenOrder>, id: string, status: string)
    requires forall i :: 0 <= i < |orders| && orders[i].id == id ==> orders[i].status == status
    ensures WithStatus(orders, id, status) == orders
  {
  }

  /** The strip's state: the orders and the order clicked last, if any. */
  class FooterStrip {
    var orders: seq<KitchenOrder>
    var selected: Option<KitchenOrder>

    constructor (initial: seq<KitchenOrder>)
      ensures orders == initial && selected == None
    {
      orders := initial;
      selected := None;
    }

    /** `handleOrderClick`. */
    method HandleOrderClick(o: KitchenOrder)
      modifies this
      ensures orders == old(orders) && selected == Some(o)
    {
      selected := Some(o);
    }

    /** `handleStatusChange`: nothing without a selection; otherwise the selected id's orders get the status. */
    method HandleStatusChange(status: string)
      modifies this
      ensures selected == old(selected)
      ensures selected.None? ==> orders == old(orders)
      ensures selected.Some? ==> orders == WithStatus(old(orders), selected.value.id, status)
    {
      if selected.None? {
        return;
      }
      orders := WithStatus(orders, selected.value.id, status);
    }
  }
}
