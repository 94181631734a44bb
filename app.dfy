/** src/App.jsx: the cart and wishlist handlers of `AppContent` and the
    `fetchUserData` effect. The cart is the auth provider's `cart` state
    (`useAuth().cart`/`setCart`); `wishlist` and `wishlistIds` are this
    component's state. Every handler changes local state only after its
    backend call succeeded; the call's outcome is the parameter `success`
    (or the optional response), and the calls themselves go to the ghost
    log `requests`. */
module App {
  import opened Common
  import opened Entities
  import opened CartLines
  import opened AuthContext

  class AppContent {
    const auth: Auth
    var wishlist: seq<WishEntry>
    var wishlistIds: set<int>
    ghost var requests: seq<Request>

    constructor (auth: Auth)
      ensures this.auth == auth && wishlist == [] && wishlistIds == {} && requests == []
    {
      this.auth := auth;
      wishlist, wishlistIds := [], {};
      requests := [];
    }

    /** `wishlistIds` holds exactly the ids of the entries of `wishlist`. */
    predicate WishlistMirrors()
      reads this
    {
      wishlistIds == WishIds(wishlist)
    }

    /** `updateItem`: refuse when signed out (no request), otherwise post the
        upsert and report whether it succeeded. */
    method UpdateItem(productId: int, quantity: int, isWishlisted: bool, success: bool) returns (ok: bool)
      modifies this`requests
      ensures ok <==> auth.isLoggedIn && success
      ensures requests == old(requests) +
        (if auth.isLoggedIn then [UpsertCart(productId, quantity, isWishlisted)] else [])
    {
      if !auth.isLoggedIn {
        return false;
      }
      requests := requests + [UpsertCart(productId, quantity, isWishlisted)];
      ok := success;
    }

    /** `handleAddToCart`: send the bumped (or initial) quantity with
        `isWishlisted = false`; on success bump the existing line or append
        a line with quantity 1. At most one line per id is preserved. */
    method HandleAddToCart(p: Product, success: bool)
      modifies this`requests, auth`cart
      ensures requests == old(requests) +
        (if auth.isLoggedIn then [UpsertCart(p.id, AddQuantity(old(auth.cart), p.id), false)] else [])
      ensures auth.cart == if auth.isLoggedIn && success then AddedCart(old(auth.cart), p) else old(auth.cart)
      ensures old(UniqueIds(auth.cart)) ==> UniqueIds(auth.cart)
    {
      var existing := FindLine(auth.cart, p.id);
      var newQuantity := if existing.Some? then existing.value.quantity + 1 else 1;
      var ok := UpdateItem(p.id, newQuantity, false, success);
      if ok {
        if UniqueIds(auth.cart) { AddKeepsUnique(auth.cart, p); }
        auth.cart := if existing.Some? then WithQuantity(auth.cart, p.id, newQuantity) else auth.cart + [NewLine(p)];
      }
    }

    /** `handleRemoveFromCart`: always sends the delete (there is no sign-in
        check); if it throws, the cart is unchanged, otherwise exactly the
        lines with that id are dropped. */
    method HandleRemoveFromCart(productId: int, success: bool)
      modifies this`requests, auth`cart
      ensures requests == old(requests) + [DeleteCartLine(productId)]
      ensures auth.cart == if success then WithoutId(old(auth.cart), productId) else old(auth.cart)
      ensures old(UniqueIds(auth.cart)) ==> UniqueIds(auth.cart)
    {
      requests := requests + [DeleteCartLine(productId)];
      if success {
        RemoveExact(auth.cart, productId);
        auth.cart := WithoutId(auth.cart, productId);
      }
    }

    /** `handleUpdateQuantity`: a quantity below 1 becomes a removal (no
        upsert is sent); otherwise, on success, the lines with that id get
        the new quantity. `success` is the outcome of whichever request is sent. */
    method HandleUpdateQuantity(productId: int, newQuantity: int, success: bool)
      modifies this`requests, auth`cart
      ensures newQuantity < 1 ==>
        requests == old(requests) + [DeleteCartLine(productId)] &&
        auth.cart == if success then WithoutId(old(auth.cart), productId) else old(auth.cart)
      ensures newQuantity >= 1 ==>
        requests == old(requests) +
          (if auth.isLoggedIn then [UpsertCart(productId, newQuantity, false)] else []) &&
        auth.cart == if auth.isLoggedIn && success then WithQuantity(old(auth.cart), productId, newQuantity)
                     else old(auth.cart)
      ensures old(UniqueIds(auth.cart)) ==> UniqueIds(auth.cart)
    {
      if newQuantity < 1 {
        HandleRemoveFromCart(productId, success);
        return;
      }
      var ok := UpdateItem(productId, newQuantity, false, success);
      if ok {
        WithQuantityKeepsIds(auth.cart, productId, newQuantity);
        auth.cart := WithQuantity(auth.cart, productId, newQuantity);
      }
    }

    /** `handleToggleWishlist`: send the negated membership flag; on success
        filter the product out of both `wishlist` and `wishlistIds`, or
        append it to both; on failure change nothing. When called with
        `productId == product.id` (as every caller does), `wishlistIds`
        keeps mirroring `wishlist`. */
    method HandleToggleWishlist(productId: int, p: Product, success: bool)
      modifies this`requests, this`wishlist, this`wishlistIds
      ensures requests == old(requests) +
        (if auth.isLoggedIn then [UpsertCart(productId, 1, productId !in old(wishlistIds))] else [])
      ensures !(auth.isLoggedIn && success) ==> wishlist == old(wishlist) && wishlistIds == old(wishlistIds)
      ensures auth.isLoggedIn && success && productId in old(wishlistIds) ==>
        wishlist == WithoutWish(old(wishlist), productId) && wishlistIds == old(wishlistIds) - {productId}
      ensures auth.isLoggedIn && success && productId !in old(wishlistIds) ==>
        wishlist == old(wishlist) + [ProductEntry(p)] && wishlistIds == old(wishlistIds) + {productId}
      ensures old(WishlistMirrors()) && productId == p.id ==> WishlistMirrors()
    {
      var isCurrentlyWishlisted := productId in wishlistIds;
      var ok := UpdateItem(productId, 1, !isCurrentlyWishlisted, success);
      if ok {
        if isCurrentlyWishlisted {
          WithoutWishIds(wishlist, productId);
          wishlist := WithoutWish(wishlist, productId);
          wishlistIds := wishlistIds - {productId};
        } else {
          AppendWishIds(wishlist, ProductEntry(p));
          wishlist := wishlist + [ProductEntry(p)];
          wishlistIds := wishlistIds + {productId};
        }
      }
    }

    /** `fetchUserData`: when signed out, empty the wishlist and its id set
        (the cart is left to `logout`); when signed in, fetch both lists
        together and, only if both succeed, replace the cart and the
        wishlist wholesale with the server lines re-keyed by `id`. */
    method FetchUserData(cartResponse: Option<seq<ServerLine>>, wishlistResponse: Option<seq<ServerLine>>)
      modifies this`requests, this`wishlist, this`wishlistIds, auth`cart
      ensures !auth.isLoggedIn ==>
        wishlist == [] && wishlistIds == {} && auth.cart == old(auth.cart) && requests == old(requests)
      ensures auth.isLoggedIn ==> requests == old(requests) + [FetchCart]
      ensures auth.isLoggedIn && cartResponse.Some? && wishlistResponse.Some? ==>
        auth.cart == FormatLines(cartResponse.value) &&
        wishlist == FormatWishlist(wishlistResponse.value) &&
        wishlistIds == (set i | 0 <= i < |wishlistResponse.value| :: wishlistResponse.value[i].productId)
      ensures auth.isLoggedIn && (cartResponse.None? || wishlistResponse.None?) ==>
        auth.cart == old(auth.cart) && wishlist == old(wishlist) && wishlistIds == old(wishlistIds)
      ensures (auth.isLoggedIn ==> cartResponse.Some? && wishlistResponse.Some?) ==> WishlistMirrors()
      ensures old(WishlistMirrors()) ==> WishlistMirrors()
    {
      if !auth.isLoggedIn {
        wishlist := [];
        wishlistIds := {};
        return;
      }
      requests := requests + [FetchCart];
      if cartResponse.Some? && wishlistResponse.Some? {
        var formattedWishlist := FormatWishlist(wishlistResponse.value);
        FormatWishlistIds(wishlistResponse.value);
        auth.cart := FormatLines(cartResponse.value);
        wishlist := formattedWishlist;
        wishlistIds := set i | 0 <= i < |formattedWishlist| :: formattedWishlist[i].id;
      }
    }
  }
}
