/** src/components/CartItemCard.jsx: a cart line card whose buttons are
    keyed by `item.productId` and gated by `pendingOperations`. The cart
    lines App.jsx builds carry their product id in `id` and have no
    `productId` field, so a card given such a line reads `productId` as
    `undefined` (None here). */
module CartItemCard {
  import opened Common
  import opened Entities

  /** The props the card reads from `item`. */
  datatype CardItem = CardItem(productId: Option<int>, name: string, price: int, quantity: int)

  /** The card's view of an App.jsx cart line: `item.productId` is undefined. */
  function CardItemOf(line: CartLine): (r: CardItem)
    ensures r.productId == None && r.quantity == line.quantity && r.price == line.price
  {
    CardItem(None, line.name, line.price, line.quantity)
  }

  /** `pendingOperations.has(item.productId)` */
  predicate IsPending(item: CardItem, pending: set<Option<int>>)
  {
    item.productId in pending
  }

  /** What a card renders and which callbacks its buttons fire. */
  datatype CardControls = CardControls(
    minusDisabled: bool, minusCall: (Option<int>, int),
    plusDisabled: bool, plusCall: (Option<int>, int),
    removeDisabled: bool, removeCall: Option<int>,
    lineTotal: int)

  /** Minus is disabled iff the quantity is at most 1 or the item is
      pending; plus and remove iff it is pending; every callback is keyed by
      `item.productId`, with quantity -1 for minus and +1 for plus. */
  function Controls(item: CardItem, pending: set<Option<int>>): (c: CardControls)
    ensures c.minusDisabled <==> item.quantity <= 1 || IsPending(item, pending)
    ensures c.plusDisabled <==> IsPending(item, pending)
    ensures c.removeDisabled <==> IsPending(item, pending)
    ensures c.minusCall == (item.productId, item.quantity - 1)
    ensures c.plusCall == (item.productId, item.quantity + 1)
    ensures c.removeCall == item.productId
    ensures c.lineTotal == item.price * item.quantity
  {
    var busy := item.productId in pending;
    CardControls(
      item.quantity <= 1 || busy, (item.productId, item.quantity - 1),
      busy, (item.productId, item.quantity + 1),
      busy, item.productId,
      item.price * item.quantity)
  }

  /** Given an App.jsx cart line, the card's callbacks carry `undefined`
      rather than the line's id, and the line's pending state is looked up
      under `undefined` too. */
  lemma AppLineKeysDiverge(line: CartLine, pending: set<Option<int>>)
    ensures var c := Controls(CardItemOf(line), pending);
      c.plusCall.0 != Some(line.id) && c.minusCall.0 != Some(line.id) && c.removeCall != Some(line.id) &&
      (IsPending(CardItemOf(line), pending) <==> None in pending)
  {
  }
}
