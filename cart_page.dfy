/** src/pages/CartPage.jsx: the cart total, the per-line buttons (keyed by
    the line's `id`) and the checkout handler. */
module CartPage {
  import opened Common
  import opened Entities
  import opened CartLines

  /** `cart.reduce((sum, item) => sum + item.price * item.quantity, 0)`, in
      cents; the empty cart totals 0. */
  function CartTotal(cart: seq<CartLine>): (r: int)
    ensures cart == [] ==> r == 0
  {
    if cart == [] then 0 else cart[0].price * cart[0].quantity + CartTotal(cart[1..])
  }

  /** The total of a concatenation is the sum of the totals. */
  lemma {:induction false} CartTotalAppend(a: seq<CartLine>, b: seq<CartLine>)
    ensures CartTotal(a + b) == CartTotal(a) + CartTotal(b)
  {
    if a == [] {
      assert a + b == b;
    } else {
      assert (a + b)[0] == a[0] && (a + b)[1..] == a[1..] + b;
      CartTotalAppend(a[1..], b);
    }
  }

  /** With non-negative prices and quantities the total is non-negative. */
  lemma {:induction false} CartTotalNonNegative(cart: seq<CartLine>)
    requires forall i :: 0 <= i < |cart| ==> cart[i].price >= 0 && cart[i].quantity >= 0
    ensures CartTotal(cart) >= 0
  {
    if cart != [] {
      CartTotalNonNegative(cart[1..]);
    }
  }

  /** Setting the quantity of a product that has no line changes nothing. */
  lemma WithQuantityAbsent(cart: seq<CartLine>, id: int, q: int)
    requires forall i :: 0 <= i < |cart| ==> cart[i].id != id
    ensures WithQuantity(cart, id, q) == cart
  {
  }

  /** Changing the quantity of line k of a cart with one line per id moves
      the total by exactly the change in that line's subtotal. */
  lemma {:induction false} CartTotalWithQuantity(cart: seq<CartLine>, k: nat, q: int)
    requires UniqueIds(cart) && k < |cart|
    ensures CartTotal(WithQuantity(cart, cart[k].id, q)) ==
      CartTotal(cart) - cart[k].price * cart[k].quantity + cart[k].price * q
  {
    var id := cart[k].id;
    var r := WithQuantity(cart, id, q);
    assert r[1..] == WithQuantity(cart[1..], id, q);
    if k == 0 {
      WithQuantityAbsent(cart[1..], id, q);
    } else {
      CartTotalWithQuantity(cart[1..], k - 1, q);
    }
  }

  /** The controls of one line of the cart table. */
  datatype LineControls = LineControls(
    minusDisabled: bool,
    minusRequest: (int, int),   // onUpdateQuantity(id, quantity - 1)
    plusRequest: (int, int),    // onUpdateQuantity(id, quantity + 1)
    removeRequest: int,         // onRemoveFromCart(id)
    lineTotal: int)

  /** An enabled minus button never asks for a quantity below 1, so it never
      turns into a removal; plus asks for one more; all three are keyed by
      `id`; the line total is price times quantity. */
  function Controls(line: CartLine): (c: LineControls)
    ensures c.minusDisabled <==> line.quantity <= 1
    ensures !c.minusDisabled ==> c.minusRequest.1 >= 1
    ensures c.minusRequest == (line.id, line.quantity - 1) && c.plusRequest == (line.id, line.quantity + 1)
    ensures c.removeRequest == line.id
    ensures c.lineTotal == line.price * line.quantity
  {
    LineControls(line.quantity <= 1, (line.id, line.quantity - 1), (line.id, line.quantity + 1),
                 line.id, line.price * line.quantity)
  }

  /** Pressing plus on line k of a cart with one line per id, once the
      update succeeds, raises exactly that line by one and the total by its price. */
  lemma PlusRaisesOneLine(cart: seq<CartLine>, k: nat)
    requires UniqueIds(cart) && k < |cart|
    ensures var (id, q) := Controls(cart[k]).plusRequest;
      var r := WithQuantity(cart, id, q);
      |r| == |cart| && r[k].quantity == cart[k].quantity + 1 &&
      (forall i :: 0 <= i < |cart| && i != k ==> r[i] == cart[i]) &&
      CartTotal(r) == CartTotal(cart) + cart[k].price
  {
    CartTotalWithQuantity(cart, k, cart[k].quantity + 1);
  }

  const CheckoutError: string := "An error occurred during checkout. Please try again."

  /** The checkout state of the cart page. */
  class CheckoutPage {
    var isProcessing: bool
    var error: Option<string>
    ghost var navigations: seq<Navigation>
    ghost var requests: seq<Request>

    constructor ()
      ensures !isProcessing && error == None && navigations == [] && requests == []
    {
      isProcessing, error := false, None;
      navigations, requests := [], [];
    }

    /** The checkout button is disabled while processing. */
    predicate CheckoutDisabled()
      reads this
    {
      isProcessing
    }

    /** `handleCheckout` up to its request: processing starts and the error
        of the previous attempt is cleared. */
    method BeginCheckout()
      modifies this
      ensures isProcessing && error == None && CheckoutDisabled()
      ensures requests == old(requests) + [CheckoutCall] && navigations == old(navigations)
    {
      isProcessing := true;
      error := None;
      requests := requests + [CheckoutCall];
    }

    /** `handleCheckout` after its request: on success go to the redirect
        page with the order, the cart total and the cart (processing stays
        on); on failure show the error, stop processing and stay. */
    method CompleteCheckout(cart: seq<CartLine>, response: Option<Order>)
      modifies this
      ensures requests == old(requests)
      ensures response.Some? ==>
        isProcessing == old(isProcessing) && error == old(error) &&
        navigations == old(navigations) +
          [Navigation(RedirectingToPayment, Some(PaymentState(Some(response.value), Some(CartTotal(cart)), Some(cart))))]
      ensures response.None? ==>
        !isProcessing && error == Some(CheckoutError) && navigations == old(navigations)
    {
      if response.Some? {
        var total := CartTotal(cart);
        navigations := navigations +
          [Navigation(RedirectingToPayment, Some(PaymentState(Some(response.value), Some(total), Some(cart))))];
      } else {
        error := Some(CheckoutError);
        isProcessing := false;
      }
    }
  }
}
