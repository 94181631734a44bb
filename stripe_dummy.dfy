/** src/pages/StripeDummyPage.jsx: the simulated payment form. Paying
    confirms the order with the server and, only once that succeeds, empties
    the cart held by the auth provider and moves to the success page.
    Toasts and the choice of payment-method tab are left out. */
module StripeDummy {
  import opened Common
  import opened Entities
  import AuthContext

  /** `cartItems = []` when the router state does not carry them. */
  function CartItemsOf(state: Option<PaymentState>): (items: seq<CartLine>)
    ensures state.None? || state.value.cartItems.None? ==> items == []
    ensures state.Some? && state.value.cartItems.Some? ==> items == state.value.cartItems.value
  {
    if state.Some? && state.value.cartItems.Some? then state.value.cartItems.value else []
  }

  /** The amount on the pay button in cents: the total when truthy, else 0 (`'0.00'`). */
  function DisplayedAmount(state: Option<PaymentState>): (cents: int)
    ensures state.Some? && TruthyNumber(state.value.totalAmount) ==> cents == state.value.totalAmount.value
    ensures !(state.Some? && TruthyNumber(state.value.totalAmount)) ==> cents == 0
  {
    if state.Some? && TruthyNumber(state.value.totalAmount) then state.value.totalAmount.value else 0
  }

  class PaymentForm {
    var isProcessing: bool
    ghost var navigations: seq<Route>
    ghost var requests: seq<Request>

    constructor ()
      ensures !isProcessing && navigations == [] && requests == []
    {
      isProcessing := false;
      navigations, requests := [], [];
    }

    /** The pay button is disabled while processing. */
    predicate PayDisabled()
      reads this
    {
      isProcessing
    }

    /** `handlePayment` up to its request. Without an order it goes back to
        the cart and stops there (`proceed` is false, nothing is sent and
        processing is untouched); otherwise processing starts and the
        confirmation for the order's id is sent. */
    method BeginPayment(state: Option<PaymentState>) returns (proceed: bool)
      modifies this
      ensures proceed <==> state.Some? && state.value.order.Some?
      ensures !proceed ==>
        navigations == old(navigations) + [CartRoute] && requests == old(requests) &&
        isProcessing == old(isProcessing)
      ensures proceed ==>
        isProcessing && PayDisabled() && navigations == old(navigations) &&
        requests == old(requests) + [ConfirmPayment(state.value.order.value.id)]
    {
      if state.None? || state.value.order.None? {
        navigations := navigations + [CartRoute];
        return false;
      }
      isProcessing := true;
      requests := requests + [ConfirmPayment(state.value.order.value.id)];
      return true;
    }

    /** `handlePayment` after the confirmation of `order`: on success the
        shared cart is emptied and the page moves to the order's success
        page (processing stays on); on failure the cart is untouched,
        processing stops and there is no navigation. */
    method EndPayment(auth: AuthContext.Auth, order: Order, success: bool)
      modifies this, auth`cart
      ensures requests == old(requests)
      ensures success ==>
        auth.cart == [] && isProcessing == old(isProcessing) &&
        navigations == old(navigations) + [PaymentSuccess(order.id)]
      ensures !success ==>
        auth.cart == old(auth.cart) && !isProcessing && navigations == old(navigations)
    {
      if success {
        auth.cart := [];
        navigations := navigations + [PaymentSuccess(order.id)];
      } else {
        isProcessing := false;
      }
    }
  }
}
