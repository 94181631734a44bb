/** src/pages/OrderHistoryPage.jsx: the signed-in user's
    own orders, newest first, each rendered as a card. */
module OrderHistory {
  import opened Common
  import opened Entities
  import opened OrderList

  /** Subtotal of one item line: unit price times quantity (integer cents). */
  function ItemSubtotal(item: OrderItem): int
  {
    item.price * item.quantity
  }

  /** One rendered item line: name, quantity and subtotal, keyed by product id. */
  datatype ItemRow = ItemRow(productId: int, productName: string, quantity: int, subtotal: int)

  /** One rendered order: `Order #id`, its date, the total and the item lines. */
  datatype OrderCard = OrderCard(id: int, date: int, total: int, items: seq<ItemRow>)

  /** `order.orderItems.map(item => ...)`: one line per item, in order, each
      showing `price * quantity`. */
  function ItemRows(items: seq<OrderItem>): (r: seq<ItemRow>)
    ensures |r| == |items|
    ensures forall i :: 0 <= i < |items| ==>
      r[i] == ItemRow(items[i].productId, items[i].productName, items[i].quantity, ItemSubtotal(items[i]))
  {
    if items == [] then []
    else [ItemRow(items[0].productId, items[0].productName, items[0].quantity, ItemSubtotal(items[0]))] +
         ItemRows(items[1..])
  }

  /** The card of one order: the total shown is the stored `totalAmount`,
      not recomputed from the lines, so it can disagree with the sum of the
      subtotals listed under it; the status is not displayed. */
  function Card(o: Order): (c: OrderCard)
    ensures c.id == o.id && c.date == o.orderDate && c.total == o.totalAmount
    ensures |c.items| == |o.items|
    ensures forall i :: 0 <= i < |o.items| ==> c.items[i].subtotal == o.items[i].price * o.items[i].quantity
  {
    OrderCard(o.id, o.orderDate, o.totalAmount, ItemRows(o.items))
  }

  /** `orders.map(order => ...)`: one card per order, in list order. */
  function Cards(orders: seq<Order>): (r: seq<OrderCard>)
    ensures |r| == |orders|
    ensures forall i :: 0 <= i < |orders| ==> r[i] == Card(orders[i])
  {
    if orders == [] then [] else [Card(orders[0])] + Cards(orders[1..])
  }

  class History {
    var orders: seq<Order>
    var loading: bool

    /** The page starts in its loading state; the fetch does not set it again. */
    constructor ()
      ensures orders == [] && loading
    {
      orders, loading := [], true;
    }

    /** "You have no orders yet" is shown once loading is over and the list is empty. */
    predicate ShowsEmptyState()
      reads this
    {
      !loading && |orders| == 0
    }

    /** The cards on the page. */
    function Rendered(): seq<OrderCard>
      reads this
    {
      Cards(orders)
    }

    /** `fetchOrders`: on success the orders are the response sorted newest
        first, so every card shown is the card of an order of the response;
        loading is off on every path. */
    method FetchOrders(response: Option<seq<Order>>)
      modifies this
      ensures !loading
      ensures response.Some? ==> NewestFirst(orders) && multiset(orders) == multiset(response.value)
      ensures response.Some? ==> forall i :: 0 <= i < |Rendered()| ==>
        exists o :: o in response.value && Rendered()[i] == Card(o)
      ensures response.None? ==> orders == old(orders)
      ensures ShowsEmptyState() <==> |orders| == 0
    {
      if response.Some? {
        SortNewestFirstCorrect(response.value);
        orders := SortNewestFirst(response.value);
        forall i | 0 <= i < |orders|
          ensures orders[i] in response.value
        {
          assert orders[i] in multiset(orders);
        }
      }
      loading := false;
    }
  }
}
