/** The pure line transforms inside the cart and wishlist handlers of
    src/App.jsx: the `prev.map(...)`, `prev.filter(...)`, spread-append and
    `new Set(...)` expressions, and the formatting of server lines. */
module CartLines {
  import opened Common
  import opened Entities

  /** `cart.find(item => item.id === id)`: the first line with that id. */
  function FindLine(cart: seq<CartLine>, id: int): (r: Option<CartLine>)
    ensures r.None? <==> forall i :: 0 <= i < |cart| ==> cart[i].id != id
    ensures r.Some? ==> exists k :: 0 <= k < |cart| && cart[k] == r.value && r.value.id == id &&
                                    forall i :: 0 <= i < k ==> cart[i].id != id
  {
    if cart == [] then None
    else if cart[0].id == id then Some(cart[0])
    else FindLine(cart[1..], id)
  }

  /** The quantity `handleAddToCart` sends: one more than the existing line's, or 1. */
  function AddQuantity(cart: seq<CartLine>, id: int): int
  {
    match FindLine(cart, id)
    case Some(line) => line.quantity + 1
    case None => 1
  }

  /** `{ ...product, quantity: 1 }` */
  function NewLine(p: Product): CartLine
  {
    CartLine(p.id, p.name, p.imageUrl, p.price, 1)
  }

  /** `prev.map(item => item.id === id ? { ...item, quantity: q } : item)` */
  function WithQuantity(cart: seq<CartLine>, id: int, q: int): (r: seq<CartLine>)
    ensures |r| == |cart|
    ensures forall i :: 0 <= i < |cart| ==>
      r[i] == if cart[i].id == id then cart[i].(quantity := q) else cart[i]
  {
    if cart == [] then []
    else [if cart[0].id == id then cart[0].(quantity := q) else cart[0]] + WithQuantity(cart[1..], id, q)
  }

  /** `prev.filter(item => item.id !== id)` */
  function WithoutId(cart: seq<CartLine>, id: int): seq<CartLine>
  {
    Keep(cart, (l: CartLine) => l.id != id)
  }

  /** The new cart after a successful add: bump the existing line(s), or append a fresh line. */
  function AddedCart(cart: seq<CartLine>, p: Product): seq<CartLine>
  {
    if FindLine(cart, p.id).Some? then WithQuantity(cart, p.id, AddQuantity(cart, p.id))
    else cart + [NewLine(p)]
  }

  /** Adding a product that already has a line raises that line's quantity by
      exactly one and leaves the line count, the order of ids and every other
      line unchanged; at most one line per id still holds. */
  lemma AddExisting(cart: seq<CartLine>, p: Product, k: nat)
    requires UniqueIds(cart)
    requires k < |cart| && cart[k].id == p.id
    ensures AddQuantity(cart, p.id) == cart[k].quantity + 1
    ensures var r := AddedCart(cart, p);
      && |r| == |cart|
      && r[k] == cart[k].(quantity := cart[k].quantity + 1)
      && (forall i :: 0 <= i < |cart| && i != k ==> r[i] == cart[i])
      && UniqueIds(r)
  {
    var found := FindLine(cart, p.id);
    assert found.Some?;
    var j :| 0 <= j < |cart| && cart[j] == found.value && found.value.id == p.id &&
             forall i :: 0 <= i < j ==> cart[i].id != p.id;
    assert j == k;
  }

  /** Adding a product with no line appends one line with quantity 1, and
      at most one line per id still holds. */
  lemma AddNew(cart: seq<CartLine>, p: Product)
    requires forall i :: 0 <= i < |cart| ==> cart[i].id != p.id
    ensures AddQuantity(cart, p.id) == 1
    ensures AddedCart(cart, p) == cart + [CartLine(p.id, p.name, p.imageUrl, p.price, 1)]
    ensures UniqueIds(cart) ==> UniqueIds(AddedCart(cart, p))
  {
  }

  /** A successful add keeps at most one line per id. */
  lemma AddKeepsUnique(cart: seq<CartLine>, p: Product)
    requires UniqueIds(cart)
    ensures UniqueIds(AddedCart(cart, p))
  {
    if FindLine(cart, p.id).Some? {
      WithQuantityKeepsIds(cart, p.id, AddQuantity(cart, p.id));
    } else {
      AddNew(cart, p);
    }
  }

  /** Setting a quantity changes only the quantity of the lines with that id:
      the ids, in order, are those of the old cart. */
  lemma {:induction false} WithQuantityKeepsIds(cart: seq<CartLine>, id: int, q: int)
    ensures LineIds(WithQuantity(cart, id, q)) == LineIds(cart)
    ensures UniqueIds(cart) ==> UniqueIds(WithQuantity(cart, id, q))
  {
    var r := WithQuantity(cart, id, q);
    assert forall i :: 0 <= i < |cart| ==> r[i].id == cart[i].id;
  }

  /** Removing by id drops exactly the lines with that id and keeps the rest
      in their original order; at most one line per id still holds. */
  lemma {:induction false} RemoveExact(cart: seq<CartLine>, id: int)
    ensures forall l :: l in WithoutId(cart, id) <==> l in cart && l.id != id
    ensures forall a, b :: WithoutId(a + b, id) == WithoutId(a, id) + WithoutId(b, id)
    ensures UniqueIds(cart) ==> UniqueIds(WithoutId(cart, id))
  {
    var p := (l: CartLine) => l.id != id;
    forall l ensures l in WithoutId(cart, id) <==> l in cart && l.id != id {
      KeepMembers(cart, p, l);
    }
    forall a, b ensures WithoutId(a + b, id) == WithoutId(a, id) + WithoutId(b, id) {
      KeepAppend(a, b, p);
    }
    if UniqueIds(cart) {
      KeepUnique(cart, id);
    }
  }

  lemma {:induction false} KeepUnique(cart: seq<CartLine>, id: int)
    requires UniqueIds(cart)
    ensures UniqueIds(WithoutId(cart, id))
  {
    if cart != [] {
      var rest := WithoutId(cart[1..], id);
      KeepUnique(cart[1..], id);
      forall l | l in rest ensures l.id != cart[0].id {
        KeepMembers(cart[1..], (l: CartLine) => l.id != id, l);
      }
    }
  }

  /** `{ id: item.productId, name, imageUrl, price, quantity }`: server lines re-keyed by `id`. */
  function FormatLines(s: seq<ServerLine>): (r: seq<CartLine>)
    ensures |r| == |s|
    ensures forall i :: 0 <= i < |s| ==>
      r[i] == CartLine(s[i].productId, s[i].name, s[i].imageUrl, s[i].price, s[i].quantity)
  {
    if s == [] then []
    else [CartLine(s[0].productId, s[0].name, s[0].imageUrl, s[0].price, s[0].quantity)] + FormatLines(s[1..])
  }

  /** The same formatting for the wishlist response. */
  function FormatWishlist(s: seq<ServerLine>): (r: seq<WishEntry>)
    ensures |r| == |s|
    ensures forall i :: 0 <= i < |s| ==>
      r[i] == WishEntry(s[i].productId, s[i].name, s[i].imageUrl, s[i].price, Some(s[i].quantity))
  {
    if s == [] then []
    else [WishEntry(s[0].productId, s[0].name, s[0].imageUrl, s[0].price, Some(s[0].quantity))] + FormatWishlist(s[1..])
  }

  /** The product appended to the wishlist by a toggle (no quantity). */
  function ProductEntry(p: Product): WishEntry
  {
    WishEntry(p.id, p.name, p.imageUrl, p.price, None)
  }

  /** `prev.filter(item => item.id !== id)` on the wishlist. */
  function WithoutWish(w: seq<WishEntry>, id: int): seq<WishEntry>
  {
    Keep(w, (e: WishEntry) => e.id != id)
  }

  /** Dropping an id from the wishlist drops exactly that id from its id set. */
  lemma WithoutWishIds(w: seq<WishEntry>, id: int)
    ensures WishIds(WithoutWish(w, id)) == WishIds(w) - {id}
  {
    var p := (e: WishEntry) => e.id != id;
    var r := WithoutWish(w, id);
    forall e ensures e in r <==> e in w && e.id != id {
      KeepMembers(w, p, e);
    }
    forall x | x in WishIds(w) - {id} ensures x in WishIds(r) {
      var i :| 0 <= i < |w| && w[i].id == x;
      assert w[i] in r;
    }
    forall x | x in WishIds(r) ensures x in WishIds(w) - {id} {
      var i :| 0 <= i < |r| && r[i].id == x;
      assert r[i] in r;
    }
  }

  /** Appending an entry adds exactly its id to the id set. */
  lemma AppendWishIds(w: seq<WishEntry>, e: WishEntry)
    ensures WishIds(w + [e]) == WishIds(w) + {e.id}
  {
    var r := w + [e];
    forall x | x in WishIds(r) ensures x in WishIds(w) + {e.id} {
      var i :| 0 <= i < |r| && r[i].id == x;
      if i < |w| { assert w[i] in w; }
    }
  }

  /** The formatted wishlist's id set is the set of product ids of the response. */
  lemma FormatWishlistIds(s: seq<ServerLine>)
    ensures WishIds(FormatWishlist(s)) == set i | 0 <= i < |s| :: s[i].productId
  {
    var r := FormatWishlist(s);
    forall x | x in WishIds(r) ensures exists i :: 0 <= i < |s| && s[i].productId == x {
      var i :| 0 <= i < |r| && r[i].id == x;
    }
  }
}
