/** Helpers shared by every page model: an optional value standing for a
    JavaScript value that may be `undefined`/`null`, an order-preserving
    filter (`Array.prototype.filter`), the application's routes, and the
    requests the storefront sends to its backend. */
module Common {

  datatype Option<+T> = None | Some(value: T)

  /** `Array.prototype.filter`: the elements satisfying `p`, in their original order. */
  function Keep<T>(s: seq<T>, p: T -> bool): (r: seq<T>)
    ensures |r| <= |s|
  {
    if s == [] then [] else (if p(s[0]) then [s[0]] else []) + Keep(s[1..], p)
  }

  /** Membership in a filtered sequence: exactly the elements of `s` that satisfy `p`. */
  lemma {:induction false} KeepMembers<T>(s: seq<T>, p: T -> bool, x: T)
    ensures x in Keep(s, p) <==> x in s && p(x)
  {
    if s != [] {
      KeepMembers(s[1..], p, x);
      assert s == [s[0]] + s[1..];
    }
  }

  /** Filtering distributes over concatenation, so it keeps the relative order of what it keeps. */
  lemma {:induction false} KeepAppend<T>(a: seq<T>, b: seq<T>, p: T -> bool)
    ensures Keep(a + b, p) == Keep(a, p) + Keep(b, p)
  {
    if a == [] {
      assert a + b == b;
    } else {
      var ab := a + b;
      assert ab[0] == a[0] && ab[1..] == a[1..] + b;
      KeepAppend(a[1..], b, p);
      calc {
        Keep(ab, p);
        (if p(a[0]) then [a[0]] else []) + Keep(a[1..] + b, p);
        (if p(a[0]) then [a[0]] else []) + (Keep(a[1..], p) + Keep(b, p));
      }
    }
  }

  /** Filtering with a predicate every element satisfies changes nothing. */
  lemma {:induction false} KeepAll<T>(s: seq<T>, p: T -> bool)
    requires forall i :: 0 <= i < |s| ==> p(s[i])
    ensures Keep(s, p) == s
  {
    if s != [] {
      KeepAll(s[1..], p);
    }
  }

  /** Filtering with a predicate no element satisfies yields the empty list. */
  lemma {:induction false} KeepNone<T>(s: seq<T>, p: T -> bool)
    requires forall i :: 0 <= i < |s| ==> !p(s[i])
    ensures Keep(s, p) == []
  {
    if s != [] {
      KeepNone(s[1..], p);
    }
  }

  /** Client-side routes the pages navigate to. */
  datatype Route =
    | Home                   // "/"
    | LoginRoute             // "/login"
    | CartRoute              // "/cart"
    | OrdersRoute            // "/orders"
    | AdminList              // "/admin/list"
    | RedirectingToPayment   // "/redirecting-to-payment"
    | PaymentRoute           // "/payment"
    | PaymentSuccess(orderId: int)  // "/payment-success/{orderId}"

  /** The backend calls the modelled handlers issue, as recorded in their request logs. */
  datatype Request =
    | UpsertCart(productId: int, quantity: int, isWishlisted: bool)  // POST /api/cart
    | DeleteCartLine(productId: int)                                 // DELETE /api/cart/{productId}
    | FetchCart                                                      // GET /api/cart and /api/cart/wishlist
    | LoginCall(email: string)                                       // POST /api/auth/login
    | SignupCall(email: string)                                      // POST /api/auth/signup
    | CheckoutCall                                                   // POST /api/checkout
    | ConfirmPayment(orderId: int)                                   // POST /api/payment/confirm/{orderId}
    | FetchOrder(orderKey: string)                                   // GET /api/orders/{orderId}
    | DeleteProduct(productId: int)                                  // DELETE /api/admin/products/{id}

  /** JavaScript truthiness of a number that may be absent: `undefined`, `null` and `0` are falsy. */
  predicate TruthyNumber(v: Option<int>)
  {
    v.Some? && v.value != 0
  }

  /** JavaScript truthiness of a string that may be absent: `undefined`, `null` and `""` are falsy. */
  predicate TruthyString(v: Option<string>)
  {
    v.Some? && v.value != ""
  }
}
