/** src/pages/ProductsPage.jsx: the request parameters built from the page
    state, the wishlist filter applied on the client, the skeleton rule and
    the `Pagination` component. The product list and page data come from
    `fetchPaginatedProducts`, which is outside this model. */
module ProductsPage {
  import opened Common
  import opened Entities
  import opened FilterSidebar

  const PageSize: int := 9

  /** The `params` object; an absent key is None. There is no wishlist key:
      the wishlist filter is never sent to the server. */
  datatype Params = Params(
    page: int,
    size: int,
    sort: string,
    searchTerm: Option<string>,
    categoryId: Option<int>,
    minPrice: int,
    maxPrice: int,
    isNew: Option<bool>,
    onSale: Option<bool>)

  /** `params`: `page` is 0-based; `searchTerm`, `categoryId`, `isNew` and
      `onSale` are spread in only when truthy. */
  function BuildParams(currentPage: int, searchTerm: string, f: Filters): (r: Params)
    ensures r.page == currentPage - 1 && r.size == PageSize
    ensures r.sort == f.sortOrder && r.minPrice == f.minPrice && r.maxPrice == f.maxPrice
    ensures r.searchTerm.Some? <==> searchTerm != ""
    ensures r.searchTerm.Some? ==> r.searchTerm.value == searchTerm
    ensures r.categoryId.Some? <==> TruthyNumber(f.category)
    ensures r.categoryId.Some? ==> r.categoryId == f.category
    ensures r.isNew == (if f.showNew then Some(true) else None)
    ensures r.onSale == (if f.showSale then Some(true) else None)
  {
    Params(
      currentPage - 1,
      PageSize,
      f.sortOrder,
      if searchTerm != "" then Some(searchTerm) else None,
      if TruthyNumber(f.category) then f.category else None,
      f.minPrice,
      f.maxPrice,
      if f.showNew then Some(true) else None,
      if f.showSale then Some(true) else None)
  }

  /** The wishlist toggle does not change the request. */
  lemma WishlistNotSent(currentPage: int, searchTerm: string, f: Filters)
    ensures BuildParams(currentPage, searchTerm, Toggle(f, MyWishlist)) == BuildParams(currentPage, searchTerm, f)
  {
  }

  /** `displayedProducts`: with `showWishlist`, the products whose id is in
      `wishlistIds`, in their original order; otherwise all of them. */
  function DisplayedProducts(products: seq<Product>, showWishlist: bool, wishlistIds: set<int>): seq<Product>
  {
    if showWishlist then Keep(products, (p: Product) => p.id in wishlistIds) else products
  }

  lemma DisplayedProductsExact(products: seq<Product>, showWishlist: bool, wishlistIds: set<int>)
    ensures !showWishlist ==> DisplayedProducts(products, showWishlist, wishlistIds) == products
    ensures showWishlist ==> forall p :: p in DisplayedProducts(products, showWishlist, wishlistIds) <==>
      p in products && p.id in wishlistIds
    ensures showWishlist ==> forall a, b :: a + b == products ==>
      DisplayedProducts(products, true, wishlistIds) ==
      DisplayedProducts(a, true, wishlistIds) + DisplayedProducts(b, true, wishlistIds)
  {
    var pred := (p: Product) => p.id in wishlistIds;
    forall p ensures p in Keep(products, pred) <==> p in products && p.id in wishlistIds {
      KeepMembers(products, pred, p);
    }
    forall a, b | a + b == products
      ensures Keep(products, pred) == Keep(a, pred) + Keep(b, pred)
    {
      KeepAppend(a, b, pred);
    }
  }

  /** `showSkeletons`: skeletons only on the first load, while there is no
      product yet. */
  predicate ShowSkeletons(loading: bool, products: seq<Product>)
  {
    loading && |products| == 0
  }

  /** While skeletons are shown there is nothing to display, whatever the
      wishlist filter: skeletons never stand in for a product. */
  lemma SkeletonsHideNothing(loading: bool, products: seq<Product>, showWishlist: bool, wishlistIds: set<int>)
    requires ShowSkeletons(loading, products)
    ensures DisplayedProducts(products, showWishlist, wishlistIds) == []
  {
  }

  /** `Array.from({ length: n }, (_, i) => i + 1)` */
  function PageNumbers(n: nat): (r: seq<int>)
    ensures |r| == n
    ensures forall i :: 0 <= i < n ==> r[i] == i + 1
  {
    if n == 0 then [] else PageNumbers(n - 1) + [n]
  }

  /** What `Pagination` renders: the page buttons, and for Prev and Next
      whether each is disabled and which page it requests. */
  datatype PaginationView = PaginationView(
    pages: seq<int>,
    prevDisabled: bool, prevTarget: int,
    nextDisabled: bool, nextTarget: int)

  /** `Pagination`: nothing when `totalPages <= 1`. */
  function Pagination(currentPage: int, totalPages: int): (r: Option<PaginationView>)
    ensures r.None? <==> totalPages <= 1
    ensures r.Some? ==> |r.value.pages| == totalPages
    ensures r.Some? ==> forall i :: 0 <= i < totalPages ==> r.value.pages[i] == i + 1
    ensures r.Some? ==> (r.value.prevDisabled <==> currentPage == 1) && r.value.prevTarget == currentPage - 1
    ensures r.Some? ==> (r.value.nextDisabled <==> currentPage == totalPages) && r.value.nextTarget == currentPage + 1
  {
    if totalPages <= 1 then None
    else Some(PaginationView(PageNumbers(totalPages), currentPage == 1, currentPage - 1,
                             currentPage == totalPages, currentPage + 1))
  }

  /** The three bodies of the product area. */
  datatype PageBody =
    | Skeletons
    | Grid(items: seq<Product>, pagination: Option<PaginationView>)
    | EmptyState(wishlistMessage: bool)

  /** The product area: skeletons first, then the grid with its
      `Pagination` when there is something to display, otherwise the empty
      state, worded for the wishlist when that filter is on. */
  function Body(loading: bool, products: seq<Product>, showWishlist: bool, wishlistIds: set<int>,
                currentPage: int, totalPages: int): (b: PageBody)
    ensures b.Skeletons? <==> ShowSkeletons(loading, products)
    ensures b.Grid? <==> !ShowSkeletons(loading, products) && DisplayedProducts(products, showWishlist, wishlistIds) != []
    ensures b.Grid? ==> b.items == DisplayedProducts(products, showWishlist, wishlistIds)
    ensures b.Grid? ==> b.pagination == Pagination(currentPage, totalPages)
    ensures b.EmptyState? ==> b.wishlistMessage == showWishlist
  {
    if ShowSkeletons(loading, products) then Skeletons
    else
      var shown := DisplayedProducts(products, showWishlist, wishlistIds);
      if |shown| > 0 then Grid(shown, Pagination(currentPage, totalPages)) else EmptyState(showWishlist)
  }

  /** When the wishlist filter leaves nothing of the fetched page, the empty
      state replaces the grid, and with it `Pagination`, even when the server
      reports further pages. */
  lemma {:induction false} WishlistCanHidePagination(products: seq<Product>, wishlistIds: set<int>,
                                                     currentPage: int, totalPages: int)
    requires products != []
    requires forall p :: p in products ==> p.id !in wishlistIds
    ensures Body(false, products, true, wishlistIds, currentPage, totalPages) == EmptyState(true)
  {
    var shown := DisplayedProducts(products, true, wishlistIds);
    assert shown != [] ==> shown[0] in shown;
    DisplayedProductsExact(products, true, wishlistIds);
  }

  /** From a page in 1..totalPages, an enabled Prev or Next button requests
      a page that is again in 1..totalPages. `Pagination` is rendered only
      inside the grid (see `Body`). `currentPage` is page state that starts
      at 1 and moves only through the `Pagination` buttons (Prev, Next and
      the page numbers); only `totalPages` comes from
      the server. The range in the `requires` therefore holds until a filter
      change shrinks `totalPages`, since the page is not reset then. */
  lemma EnabledButtonsStayInRange(currentPage: int, totalPages: int)
    requires 1 <= currentPage <= totalPages && totalPages > 1
    ensures var v := Pagination(currentPage, totalPages).value;
      (!v.prevDisabled ==> 1 <= v.prevTarget <= totalPages) &&
      (!v.nextDisabled ==> 1 <= v.nextTarget <= totalPages)
  {
  }
}
