/** src/pages/PaymentRedirectingPage.jsx: after a pause, forward the
    checkout state to the payment page, or go back to the cart when any
    part of it is missing. The 3-second timer and its cleanup are left out;
    `Decide` is what the timer runs. */
module PaymentRedirecting {
  import opened Common
  import opened Entities
  import CartPage

  /** `order && totalAmount && cartItems`, reading absent router state as
      `{}`: an order object and an array are truthy when present (even an
      empty array), a total when it is present and not zero. */
  predicate Complete(state: Option<PaymentState>)
  {
    state.Some? && state.value.order.Some? && TruthyNumber(state.value.totalAmount) && state.value.cartItems.Some?
  }

  /** Where the timer navigates, and with which router state. */
  function Decide(state: Option<PaymentState>): (nav: Navigation)
    ensures nav.to == PaymentRoute <==> Complete(state)
    ensures nav.to == PaymentRoute ==> nav.state == state
    ensures nav.to != PaymentRoute ==> nav == Navigation(CartRoute, None)
  {
    if Complete(state) then
      Navigation(PaymentRoute, Some(PaymentState(state.value.order, state.value.totalAmount, state.value.cartItems)))
    else Navigation(CartRoute, None)
  }

  /** With no router state the page goes back to the cart. */
  lemma AbsentStateReturnsToCart()
    ensures Decide(None) == Navigation(CartRoute, None)
  {
  }

  /** The state the cart page sends is forwarded unchanged exactly when the
      cart total is not zero. The checkout button only exists for a non-empty
      cart, but a cart of zero-priced lines totals zero, so its order, though
      created, is sent back to the cart. */
  lemma {:induction false} CheckoutStateForwarded(o: Order, cart: seq<CartLine>, line: CartLine)
    ensures Decide(Some(PaymentState(Some(o), Some(CartPage.CartTotal(cart)), Some(cart)))).to == PaymentRoute
        <==> CartPage.CartTotal(cart) != 0
    ensures line.price == 0 ==>
      Decide(Some(PaymentState(Some(o), Some(CartPage.CartTotal([line])), Some([line])))) == Navigation(CartRoute, None)
  {
    assert CartPage.CartTotal([line]) == line.price * line.quantity + CartPage.CartTotal([]);
  }
}
