/** src/pages/Orders/Orders.jsx: the admin view of all orders, newest first,
    with a coloured badge per status. Toasts are left out. */
module Orders {
  import opened Common
  import opened Entities
  import opened OrderList

  /** Badge colours of `getStatusBadge`. */
  datatype Badge = Green | Yellow | Red | Gray

  /** COMPLETED is green, PENDING yellow, CANCELLED red, anything else gray. */
  function StatusBadge(status: string): (b: Badge)
    ensures b == Green <==> status == "COMPLETED"
    ensures b == Yellow <==> status == "PENDING"
    ensures b == Red <==> status == "CANCELLED"
  {
    if status == "COMPLETED" then Green
    else if status == "PENDING" then Yellow
    else if status == "CANCELLED" then Red
    else Gray
  }

  /** `order.status || 'PENDING'`: a missing or empty status reads as PENDING. */
  function DisplayStatus(status: Option<string>): (s: string)
    ensures TruthyString(status) ==> s == status.value
    ensures !TruthyString(status) ==> s == "PENDING"
    ensures s != ""
  {
    if TruthyString(status) then status.value else "PENDING"
  }

  /** An order without a status is shown, and coloured, exactly as a pending one. */
  lemma MissingStatusIsPending(o: Order)
    requires !TruthyString(o.status)
    ensures StatusBadge(DisplayStatus(o.status)) == Yellow
    ensures DisplayStatus(o.status) == DisplayStatus(Some("PENDING"))
  {
  }

  class AdminOrders {
    var orders: seq<Order>
    var loading: bool

    constructor ()
      ensures orders == [] && loading
    {
      orders, loading := [], true;
    }

    /** `fetchOrders` before its request: loading is on. */
    method BeginFetch()
      modifies this`loading
      ensures loading
    {
      loading := true;
    }

    /** `fetchOrders` after its request: on success the orders are the
        response sorted newest first; loading is off on every path. */
    method EndFetch(response: Option<seq<Order>>)
      modifies this`orders, this`loading
      ensures !loading
      ensures response.Some? ==> orders == SortNewestFirst(response.value)
      ensures response.Some? ==> NewestFirst(orders) && multiset(orders) == multiset(response.value)
      ensures response.None? ==> orders == old(orders)
    {
      if response.Some? {
        SortNewestFirstCorrect(response.value);
        orders := SortNewestFirst(response.value);
      }
      loading := false;
    }
  }
}
