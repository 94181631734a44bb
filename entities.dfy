/** The storefront's value entities. Prices are integer cents: the source's
    floating-point prices are not modelled. */
module Entities {
  import opened Common

  /** A catalogue product as the pages receive it (only the fields the core reads). */
  datatype Product = Product(id: int, name: string, imageUrl: string, price: int)

  /** A cart line as the client keeps it: keyed by `id`, which holds the product id. */
  datatype CartLine = CartLine(id: int, name: string, imageUrl: string, price: int, quantity: int)

  /** A line of `GET /api/cart` or `GET /api/cart/wishlist`, keyed by `productId`. */
  datatype ServerLine = ServerLine(productId: int, name: string, imageUrl: string, price: int, quantity: int)

  /** A wishlist entry: either a product appended by a toggle (no quantity)
      or a formatted server line (with its quantity). */
  datatype WishEntry = WishEntry(id: int, name: string, imageUrl: string, price: int, quantity: Option<int>)

  /** The signed-in user's profile, as persisted under the `user` storage key. */
  datatype User = User(id: int, email: string, name: string, roles: Option<seq<string>>)

  /** An order; `orderDate` is a timestamp (the source parses a date string). */
  datatype OrderItem = OrderItem(productId: int, productName: string, price: int, quantity: int)
  datatype Order = Order(id: int, orderDate: int, status: Option<string>, totalAmount: int, items: seq<OrderItem>)

  datatype Category = Category(id: int, name: string)

  /** `location.state` handed from the cart to the payment pages; an absent
      field (`undefined`) is None. */
  datatype PaymentState = PaymentState(order: Option<Order>, totalAmount: Option<int>, cartItems: Option<seq<CartLine>>)

  /** A navigation with the router state it carries. */
  datatype Navigation = Navigation(to: Route, state: Option<PaymentState>)

  /** The ids of the cart lines, in order. */
  function LineIds(cart: seq<CartLine>): (r: seq<int>)
    ensures |r| == |cart|
    ensures forall i :: 0 <= i < |cart| ==> r[i] == cart[i].id
  {
    if cart == [] then [] else [cart[0].id] + LineIds(cart[1..])
  }

  /** At most one cart line per product id. */
  predicate UniqueIds(cart: seq<CartLine>)
  {
    forall i, j :: 0 <= i < j < |cart| ==> cart[i].id != cart[j].id
  }

  /** The set of ids of the wishlist entries. */
  function WishIds(w: seq<WishEntry>): (r: set<int>)
    ensures forall e :: e in w ==> e.id in r
    ensures forall x :: x in r ==> exists i :: 0 <= i < |w| && w[i].id == x
  {
    set i | 0 <= i < |w| :: w[i].id
  }
}
