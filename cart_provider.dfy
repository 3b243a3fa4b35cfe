/**
 * The cart ledger: the list of line items the shopper has picked, keyed by
 * product id, the totals derived from it, and its copy in local storage
 * under the key "cart-items".
 */
module CartProvider {
  import opened Wrappers
  import opened Lists

  /** What a product card hands to `addToCart`: a cart item without its quantity. */
  datatype Candidate = Candidate(id: string, title: string, price: real, image: string, kind: string)

  /** One line of the cart. `price` is the unit price after discount. */
  datatype CartItem = CartItem(id: string, title: string, price: real, quantity: int, image: string, kind: string)

  /** `{ ...c, quantity: q }`. */
  function LineOf(c: Candidate, q: int): CartItem
  {
    CartItem(c.id, c.title, c.price, q, c.image, c.kind)
  }

  /** The ledger's own invariant: one line per id, and no line with a quantity below 1. */
  predicate WellFormed(items: seq<CartItem>)
  {
    && (forall i, j :: 0 <= i < j < |items| ==> items[i].id != items[j].id)
    && (forall i :: 0 <= i < |items| ==> items[i].quantity >= 1)
  }

  // ---------------------------------------------------------------- storage

  /** Local storage: string values under string keys. */
  type Store = map<string, string>

  const CartKey: string := "cart-items"

  /**
   * The initial cart: outside a browser the empty list; otherwise the parsed
   * "cart-items" value, or the empty list when that value is absent, empty
   * or does not parse (`parse` stands for `JSON.parse`, `None` for a throw).
   */
  function LoadCart(inBrowser: bool, store: Store, parse: string -> Option<seq<CartItem>>): (r: seq<CartItem>)
    ensures (!inBrowser || CartKey !in store || store[CartKey] == "") ==> r == []
    ensures inBrowser && CartKey in store && parse(store[CartKey]) == None ==> r == []
    ensures inBrowser && CartKey in store && store[CartKey] != "" && parse(store[CartKey]).Some? ==>
              r == parse(store[CartKey]).value
  {
    if inBrowser && CartKey in store && store[CartKey] != "" then
      match parse(store[CartKey])
      case Some(xs) => xs
      case None => []
    else []
  }

  /** The effect run after every change: "cart-items" holds the serialised list, other keys stay. */
  function SaveCart(store: Store, items: seq<CartItem>, serialize: seq<CartItem> -> string): (r: Store)
    ensures CartKey in r && r[CartKey] == serialize(items)
    ensures forall k :: k in store && k != CartKey ==> k in r && r[k] == store[k]
  {
    store[CartKey := serialize(items)]
  }

  /** Saving and then loading in a browser gives the same list back, when the encoding round-trips. */
  lemma CartStorageRoundTrip(store: Store, items: seq<CartItem>,
                             serialize: seq<CartItem> -> string, parse: string -> Option<seq<CartItem>>)
    requires serialize(items) != "" && parse(serialize(items)) == Some(items)
    ensures LoadCart(true, SaveCart(store, items, serialize), parse) == items
  {
  }

  // ----------------------------------------------------------------- totals

  /** `price * quantity` of one line. */
  function LineTotal(x: CartItem): real
  {
    x.price * x.quantity as real
  }

  /** `items.reduce((acc, item) => acc + item.price * item.quantity, 0)`. */
  function Subtotal(items: seq<CartItem>): real
    decreases |items|
  {
    if items == [] then 0.0 else LineTotal(items[0]) + Subtotal(items[1..])
  }

  /** Tax is 5% of the subtotal. */
  function Tax(items: seq<CartItem>): real
  {
    Subtotal(items) * 0.05
  }

  /** The amount due: subtotal plus tax. */
  function Total(items: seq<CartItem>): real
  {
    Subtotal(items) + Tax(items)
  }

  /** The total is 105% of the subtotal. */
  lemma TotalIsSubtotalWithTax(items: seq<CartItem>)
    ensures Total(items) == Subtotal(items) * 1.05
    ensures Tax(items) == Total(items) - Subtotal(items)
  {
  }

  /** Appending a line adds its line total. */
  lemma {:induction false} SubtotalAppend(items: seq<CartItem>, x: CartItem)
    ensures Subtotal(items + [x]) == Subtotal(items) + LineTotal(x)
    decreases |items|
  {
    if items == [] {
      assert [x][1..] == [];
    } else {
      assert (items + [x])[1..] == items[1..] + [x];
      SubtotalAppend(items[1..], x);
    }
  }

  /** Replacing one line changes the subtotal by the difference of the two line totals. */
  lemma {:induction false} SubtotalUpdate(items: seq<CartItem>, k: nat, x: CartItem)
    requires k < |items|
    ensures Subtotal(items[k := x]) == Subtotal(items) - LineTotal(items[k]) + LineTotal(x)
    decreases |items|
  {
    if k > 0 {
      assert items[k := x][1..] == items[1..][k - 1 := x];
      SubtotalUpdate(items[1..], k - 1, x);
    } else {
      assert items[k := x][1..] == items[1..];
    }
  }

  /** One more unit of a line adds its price to the line's total. */
  lemma IncrementLineTotal(x: CartItem)
    ensures LineTotal(x.(quantity := x.quantity + 1)) == LineTotal(x) + x.price
  {
    assert (x.quantity + 1) as real == x.quantity as real + 1.0;
    assert x.price * (x.quantity as real + 1.0) == x.price * x.quantity as real + x.price;
  }

  /** Splitting the lines by a predicate splits the subtotal. */
  lemma {:induction false} SubtotalSplit(items: seq<CartItem>, p: CartItem -> bool, q: CartItem -> bool)
    requires forall x :: q(x) == !p(x)
    ensures Subtotal(Filter(items, p)) + Subtotal(Filter(items, q)) == Subtotal(items)
    decreases |items|
  {
    if items != [] {
      SubtotalSplit(items[1..], p, q);
    }
  }

  /** Subtotal of an empty cart, and of any cart with non-negative prices, is non-negative. */
  lemma {:induction false} SubtotalNonNegative(items: seq<CartItem>)
    requires forall i :: 0 <= i < |items| ==> items[i].price >= 0.0 && items[i].quantity >= 1
    ensures Subtotal(items) >= 0.0
    decreases |items|
  {
    if items != [] {
      SubtotalNonNegative(items[1..]);
    }
  }

  // ------------------------------------------------------------- operations

  /** `items.findIndex(i => i.id === id)`: the first line with that id, or -1. */
  function IndexOfId(items: seq<CartItem>, id: string): (k: int)
    ensures -1 <= k < |items|
    ensures 0 <= k ==> items[k].id == id && forall j :: 0 <= j < k ==> items[j].id != id
    ensures k < 0 ==> forall j :: 0 <= j < |items| ==> items[j].id != id
    decreases |items|
  {
    if items == [] then -1
    else if items[0].id == id then 0
    else
      var k := IndexOfId(items[1..], id);
      if k < 0 then -1 else k + 1
  }

  /** The list `addToCart(c)` produces: merge into the first line with that id, else append. */
  function AddedToCart(items: seq<CartItem>, c: Candidate): (r: seq<CartItem>)
    ensures |r| == |items| || r == items + [LineOf(c, 1)]
    ensures exists i :: 0 <= i < |r| && r[i].id == c.id
  {
    var k := IndexOfId(items, c.id);
    if k >= 0 then
      var r := items[k := items[k].(quantity := items[k].quantity + 1)];
      assert r[k].id == c.id;
      r
    else
      var r := items + [LineOf(c, 1)];
      assert r[|items|] == LineOf(c, 1);
      r
  }

  /** The list `removeFromCart(id)` produces: `items.filter(item => item.id !== id)`. */
  function RemovedFromCart(items: seq<CartItem>, id: string): (r: seq<CartItem>)
    ensures forall x :: x in r ==> x.id != id
  {
    Filter(items, (x: CartItem) => x.id != id)
  }

  /** The lines carrying a given id. */
  function LinesWithId(items: seq<CartItem>, id: string): seq<CartItem>
  {
    Filter(items, (x: CartItem) => x.id == id)
  }

  /**
   * The list `updateQuantity(id, q)` produces: a quantity of zero or less
   * removes the id; otherwise every line with that id gets quantity `q`,
   * and no line is added, dropped or reordered.
   */
  function QuantityUpdated(items: seq<CartItem>, id: string, q: int): (r: seq<CartItem>)
    ensures q <= 0 ==> r == RemovedFromCart(items, id)
    ensures q > 0 ==> |r| == |items|
    ensures q > 0 ==> forall i :: 0 <= i < |items| && items[i].id == id ==> r[i] == items[i].(quantity := q)
    ensures q > 0 ==> forall i :: 0 <= i < |items| && items[i].id != id ==> r[i] == items[i]
  {
    if q <= 0 then RemovedFromCart(items, id)
    else MapWhere(items, (x: CartItem) => x.id == id, (x: CartItem) => x.(quantity := q))
  }

  /**
   * Adding an id already in the cart raises the quantity of its first line
   * by exactly one and the subtotal by that line's unit price; the length
   * and every other line stay as they were.
   */
  lemma AddExistingIncrements(items: seq<CartItem>, c: Candidate, j: nat)
    requires j < |items| && items[j].id == c.id
    ensures var k := IndexOfId(items, c.id);
      && 0 <= k <= j
      && |AddedToCart(items, c)| == |items|
      && AddedToCart(items, c)[k] == items[k].(quantity := items[k].quantity + 1)
      && (forall i :: 0 <= i < |items| && i != k ==> AddedToCart(items, c)[i] == items[i])
      && Subtotal(AddedToCart(items, c)) == Subtotal(items) + items[k].price
  {
    var k := IndexOfId(items, c.id);
    assert k >= 0 && k <= j;
    var x := items[k].(quantity := items[k].quantity + 1);
    var r := AddedToCart(items, c);
    assert r == items[k := x];
    assert |r| == |items| && r[k] == x;
    SubtotalUpdate(items, k, x);
    IncrementLineTotal(items[k]);
    assert Subtotal(r) == Subtotal(items) - LineTotal(items[k]) + LineTotal(x);
    assert LineTotal(x) == LineTotal(items[k]) + items[k].price;
    assert forall i :: 0 <= i < |items| && i != k ==> r[i] == items[i];
  }

  /**
   * Adding an id not in the cart appends `{ ...c, quantity: 1 }` after the
   * existing lines, which stay as they were, and adds its price to the subtotal.
   */
  lemma AddNewAppends(items: seq<CartItem>, c: Candidate)
    requires forall i :: 0 <= i < |items| ==> items[i].id != c.id
    ensures AddedToCart(items, c) == items + [LineOf(c, 1)]
    ensures Subtotal(AddedToCart(items, c)) == Subtotal(items) + c.price
  {
    var k := IndexOfId(items, c.id);
    assert k < 0;
    assert AddedToCart(items, c) == items + [LineOf(c, 1)];
    assert LineTotal(LineOf(c, 1)) == c.price;
    SubtotalAppend(items, LineOf(c, 1));
  }

  /** `addToCart` keeps ids unique and quantities at least 1. */
  lemma AddKeepsWellFormed(items: seq<CartItem>, c: Candidate)
    requires WellFormed(items)
    ensures WellFormed(AddedToCart(items, c))
  {
  }

  /**
   * `removeFromCart(id)` keeps exactly the lines with another id, in their
   * order; it is a no-op when the id is absent, and the subtotal drops by
   * what the removed lines came to.
   */
  lemma RemoveKeepsOthers(items: seq<CartItem>, id: string)
    ensures forall x :: x in RemovedFromCart(items, id) <==> x in items && x.id != id
    ensures IsSubsequence(RemovedFromCart(items, id), items)
    ensures (forall i :: 0 <= i < |items| ==> items[i].id != id) ==> RemovedFromCart(items, id) == items
    ensures Subtotal(RemovedFromCart(items, id)) == Subtotal(items) - Subtotal(LinesWithId(items, id))
  {
    FilterSubsequence(items, (x: CartItem) => x.id != id);
    if forall i :: 0 <= i < |items| ==> items[i].id != id {
      FilterKeepsAll(items, (x: CartItem) => x.id != id);
    }
    SubtotalSplit(items, (x: CartItem) => x.id == id, (x: CartItem) => x.id != id);
  }

  /** With unique ids, the lines carrying the id of line `j` are that line alone. */
  lemma {:induction false} UniqueLineWithId(items: seq<CartItem>, j: nat)
    requires WellFormed(items) && j < |items|
    ensures LinesWithId(items, items[j].id) == [items[j]]
    decreases |items|
  {
    var id := items[j].id;
    if j == 0 {
      assert forall i :: 0 <= i < |items[1..]| ==> items[1..][i].id != id;
      FilterKeepsNone(items[1..], (x: CartItem) => x.id == id);
    } else {
      assert WellFormed(items[1..]);
      UniqueLineWithId(items[1..], j - 1);
      assert items[1..][j - 1] == items[j];
    }
  }

  /** In a well-formed cart, removing an id that is present drops the subtotal by that line's total. */
  lemma RemovePresentSubtotal(items: seq<CartItem>, j: nat)
    requires WellFormed(items) && j < |items|
    ensures Subtotal(RemovedFromCart(items, items[j].id)) == Subtotal(items) - LineTotal(items[j])
  {
    RemoveKeepsOthers(items, items[j].id);
    UniqueLineWithId(items, j);
    assert [items[j]][1..] == [];
  }

  /** `updateQuantity` keeps ids unique and quantities at least 1. */
  lemma UpdateKeepsWellFormed(items: seq<CartItem>, id: string, q: int)
    requires WellFormed(items)
    ensures WellFormed(QuantityUpdated(items, id, q))
  {
    if q <= 0 {
      var r := RemovedFromCart(items, id);
      RemoveKeepsOthers(items, id);
      forall i | 0 <= i < |r| ensures r[i] in items {
        assert r[i] in r;
      }
      forall i, j | 0 <= i < j < |r| ensures r[i].id != r[j].id {
        SubsequenceDistinct(r, items, i, j);
      }
    }
  }

  /** Two positions of a subsequence of a list without repeated ids hold different lines. */
  lemma {:induction false} SubsequenceDistinct(r: seq<CartItem>, s: seq<CartItem>, i: nat, j: nat)
    requires IsSubsequence(r, s) && WellFormed(s) && i < j < |r|
    ensures r[i] != r[j]
    decreases |s|
  {
    if r[0] == s[0] && IsSubsequence(r[1..], s[1..]) {
      if i == 0 {
        assert r[j] == r[1..][j - 1];
        SubsequenceMember(r[1..], s[1..], j - 1);
      } else {
        SubsequenceDistinct(r[1..], s[1..], i - 1, j - 1);
      }
    } else {
      SubsequenceDistinct(r, s[1..], i, j);
    }
  }

  /**
   * The worked example: adding a product priced 10 twice to an empty cart
   * gives one line of quantity 2, a subtotal of 20, tax of 1 and a total of 21.
   */
  lemma AddTwiceExample(c: Candidate)
    requires c.price == 10.0
    ensures AddedToCart(AddedToCart([], c), c) == [LineOf(c, 2)]
    ensures Subtotal(AddedToCart(AddedToCart([], c), c)) == 20.0
    ensures Tax(AddedToCart(AddedToCart([], c), c)) == 1.0
    ensures Total(AddedToCart(AddedToCart([], c), c)) == 21.0
  {
    var once := AddedToCart([], c);
    assert once == [LineOf(c, 1)];
    assert IndexOfId(once, c.id) == 0;
    var twice := AddedToCart(once, c);
    assert twice == [LineOf(c, 2)];
    assert twice[1..] == [];
  }

  // ------------------------------------------------------------------ state

  /** The cart provider's state: the current line items. */
  class CartLedger {
    var items: seq<CartItem>

    /** The initial state, read once from local storage. */
    constructor (inBrowser: bool, store: Store, parse: string -> Option<seq<CartItem>>)
      ensures items == LoadCart(inBrowser, store, parse)
    {
      items := LoadCart(inBrowser, store, parse);
    }

    /** `addToCart(c)`. */
    method AddToCart(c: Candidate)
      modifies this
      ensures items == AddedToCart(old(items), c)
      ensures WellFormed(old(items)) ==> WellFormed(items)
    {
      var k := IndexOfId(items, c.id);
      if k >= 0 {
        items := items[k := items[k].(quantity := items[k].quantity + 1)];
      } else {
        items := items + [LineOf(c, 1)];
      }
      if WellFormed(old(items)) {
        AddKeepsWellFormed(old(items), c);
      }
    }

    /** `removeFromCart(id)`. */
    method RemoveFromCart(id: string)
      modifies this
      ensures items == RemovedFromCart(old(items), id)
      ensures forall i :: 0 <= i < |items| ==> items[i].id != id
      ensures WellFormed(old(items)) ==> WellFormed(items)
    {
      items := RemovedFromCart(items, id);
      if WellFormed(old(items)) {
        UpdateKeepsWellFormed(old(items), id, 0);
      }
      assert forall i :: 0 <= i < |items| ==> items[i] in items;
    }

    /** `updateQuantity(id, q)`. */
    method UpdateQuantity(id: string, q: int)
      modifies this
      ensures items == QuantityUpdated(old(items), id, q)
      ensures WellFormed(old(items)) ==> WellFormed(items)
    {
      if q <= 0 {
        items := RemovedFromCart(items, id);
      } else {
        items := MapWhere(items, (x: CartItem) => x.id == id, (x: CartItem) => x.(quantity := q));
      }
      if WellFormed(old(items)) {
        UpdateKeepsWellFormed(old(items), id, q);
      }
    }

    /** `clearCart()`: the empty list, so every total is 0. */
    method ClearCart()
      modifies this
      ensures items == []
      ensures Subtotal(items) == 0.0 && Tax(items) == 0.0 && Total(items) == 0.0
    {
      items := [];
    }
  }
}
