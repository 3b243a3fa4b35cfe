/**
 * The cart panel's checkout flow: placing an order opens the checkout
 * dialog, and checking out with a payment method empties the cart and
 * closes the dialog and the panel.
 */
module Checkout {
  import opened Wrappers
  import opened CartProvider

  /** A chosen payment method that JavaScript counts as present: set and not empty. */
  predicate HasPayment(m: Option<string>)
  {
    m.Some? && m.value != ""
  }

  /** The cart panel's own state, over the shared cart ledger. */
  class CartPanel {
    const cart: CartLedger
    var isCartOpen: bool
    var paymentMethod: Option<string>
    var isCheckoutDialogOpen: bool

    constructor (ledger: CartLedger)
      ensures cart == ledger
      ensures !isCartOpen && paymentMethod == None && !isCheckoutDialogOpen
    {
      cart := ledger;
      isCartOpen := false;
      paymentMethod := None;
      isCheckoutDialogOpen := false;
    }

    /** The panel toggle. */
    method ToggleCart()
      modifies this
      ensures isCartOpen == !old(isCartOpen)
      ensures paymentMethod == old(paymentMethod) && isCheckoutDialogOpen == old(isCheckoutDialogOpen)
    {
      isCartOpen := !isCartOpen;
    }

    /** Picking a payment method in the dialog. */
    method SetPaymentMethod(m: Option<string>)
      modifies this
      ensures paymentMethod == m
      ensures isCartOpen == old(isCartOpen) && isCheckoutDialogOpen == old(isCheckoutDialogOpen)
    {
      paymentMethod := m;
    }

    /** `handlePlaceOrder`: an empty cart changes nothing; otherwise the checkout dialog opens. */
    method HandlePlaceOrder()
      modifies this
      ensures cart.items == old(cart.items)
      ensures |cart.items| == 0 ==> isCheckoutDialogOpen == old(isCheckoutDialogOpen)
      ensures |cart.items| > 0 ==> isCheckoutDialogOpen
      ensures !old(isCheckoutDialogOpen) && isCheckoutDialogOpen ==> |cart.items| > 0
      ensures isCartOpen == old(isCartOpen) && paymentMethod == old(paymentMethod)
    {
      if |cart.items| == 0 {
        return;
      }
      isCheckoutDialogOpen := true;
    }

    /**
     * `handleCheckout`: without a payment method nothing changes; with one
     * the cart is emptied, so every total is 0, the method is forgotten and
     * the dialog and the panel close.
     */
    method HandleCheckout()
      modifies this, cart
      ensures !HasPayment(old(paymentMethod)) ==>
        cart.items == old(cart.items) && paymentMethod == old(paymentMethod) &&
        isCheckoutDialogOpen == old(isCheckoutDialogOpen) && isCartOpen == old(isCartOpen)
      ensures HasPayment(old(paymentMethod)) ==>
        cart.items == [] && Total(cart.items) == 0.0 &&
        paymentMethod == None && !isCheckoutDialogOpen && !isCartOpen
    {
      if !HasPayment(paymentMethod) {
        return;
      }
      cart.ClearCart();
      paymentMethod := None;
      isCheckoutDialogOpen := false;
      isCartOpen := false;
    }
  }
}
