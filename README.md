# Storefront client state, modelled in Dafny

This project models the client-side logic of a React storefront: the
cart and wishlist held by the application shell (`App.jsx`) together with
the session kept by the auth provider (`AuthContext.jsx`), the catalogue
filters and pagination, the cart page and its line cards, the checkout and
payment flow (redirect page, simulated Stripe page, success page with its
countdown), the user's and the admin's order lists, and the admin product
pages (product table with delete dialog, add and edit forms).

Every source file becomes one Dafny module. Components whose state is
updated step by step by handlers become classes whose fields are that
state and whose methods are the handlers; render-time expressions and
pure helpers become functions, with lemmas for the properties the
components promise. Shared definitions live in three modules:

- `Common`: `Option`, an order-preserving filter `Keep` with its lemmas,
  the routes the app navigates to, the backend requests it sends, and
  JavaScript truthiness for numbers and strings.
- `Entities`: products, cart lines, wishlist entries, users, orders,
  categories, and the router state passed through checkout.
- `OrderList`: the newest-first order sort shared by both order pages.

Modelling conventions:

- Money is integer cents. Floating-point arithmetic and `toFixed(2)`
  formatting are not modelled.
- Every backend call is an input to the handler: a `success` flag, or an
  `Option` holding the response. The calls a handler makes, and the
  navigations it triggers, are appended to ghost logs (`requests`,
  `navigations`, `sent`).
- An async handler whose state is observable while its request is in
  flight is split at its `await`. `BeginX` covers the part before the
  request and `EndX` the part after it. For example, a loading flag is set
  in `BeginX` and cleared in `EndX`.
- `localStorage` is the pair of fields `storedToken` / `storedUser` of the
  auth provider. `JSON.parse`, `JSON.stringify`, `parseFloat` and
  `parseInt` are function parameters.

## Model

| member | source | states |
|---|---|---|
| Entities.WishIds | src/App.jsx:94 | the id set contains the id of every entry and nothing else |
| CartLines.FindLine | src/App.jsx:116 | `None` iff no line has the id; otherwise it returns the first line with that id |
| CartLines.WithQuantity | src/App.jsx:127 | same length; each line with the id gets the new quantity, every other line is unchanged |
| CartLines.AddedCart | src/App.jsx:115-119 | no contract of its own: `AddExisting`, `AddNew` and `AddKeepsUnique` state its two cases |
| CartLines.WithoutId | src/App.jsx:133 | no contract of its own: `RemoveExact` states what it drops and keeps |
| CartLines.AddExisting | src/App.jsx:115-119 | adding a product that has a line sends old quantity + 1; only that line changes, by +1; the line count and the other lines are kept; at most one line per id |
| CartLines.AddNew | src/App.jsx:115-119 | adding a product without a line sends 1 and appends exactly one line with quantity 1 |
| CartLines.AddKeepsUnique | src/App.jsx:119 | a successful add keeps at most one line per id |
| CartLines.WithQuantityKeepsIds | src/App.jsx:127 | setting a quantity keeps the ids and their order, and so keeps at most one line per id |
| CartLines.RemoveExact | src/App.jsx:133 | removal drops exactly the lines with the id, keeps the rest in order, and keeps at most one line per id |
| CartLines.KeepUnique | src/App.jsx:133 | filtering a cart with one line per id keeps one line per id |
| CartLines.FormatLines | src/App.jsx:76-82 | each server line becomes a cart line keyed by its `productId`, in order, with the other fields copied |
| CartLines.FormatWishlist | src/App.jsx:84-90 | the same for the wishlist; the entry keeps the server quantity |
| CartLines.WithoutWish | src/App.jsx:141 | no contract of its own: `WithoutWishIds` states its effect on the id set |
| CartLines.WithoutWishIds | src/App.jsx:141-142 | filtering an id out of the wishlist removes exactly that id from its id set |
| CartLines.AppendWishIds | src/App.jsx:145-146 | appending an entry adds exactly its id to the id set |
| CartLines.FormatWishlistIds | src/App.jsx:94 | the id set of the formatted wishlist is the set of product ids in the response |
| App.AppContent.constructor | src/App.jsx:51-52 | the wishlist and its id set start empty |
| App.AppContent.UpdateItem | src/App.jsx:104-113 | signed out: no request and false; signed in: one upsert; true iff it succeeded |
| App.AppContent.HandleAddToCart | src/App.jsx:115-122 | sends the bumped or initial quantity with `isWishlisted = false`; the cart changes only when signed in and the request succeeded; at most one line per id is preserved |
| App.AppContent.HandleRemoveFromCart | src/App.jsx:131-135 | always sends the delete, with no sign-in check; on success it drops exactly that id; on failure the cart is unchanged |
| App.AppContent.HandleUpdateQuantity | src/App.jsx:124-129 | below 1 it becomes a removal and no upsert is sent; otherwise it sends an upsert and, on success, sets the quantity of the matching lines |
| App.AppContent.HandleToggleWishlist | src/App.jsx:137-150 | sends the negated membership; on success removes the product from both lists or appends it to both; on failure nothing changes; the id set keeps mirroring the wishlist |
| App.AppContent.FetchUserData | src/App.jsx:61-101 | signed out: the wishlist and id set are emptied and nothing is fetched; signed in: only when both fetches succeed are the cart and wishlist replaced, and the id set mirrors the wishlist |
| AuthContext.LoginTarget | src/context/AuthContext.jsx:52-56 | `/admin/list` iff the roles include `ROLE_ADMIN`, otherwise `/` |
| AuthContext.IsAdmin | src/context/AuthContext.jsx:52 | no contract of its own: `LoginTarget` states that it decides between `/admin/list` and `/` |
| AuthContext.Auth.constructor | src/context/AuthContext.jsx:10-14 | signed out, loading, empty cart; storage is whatever a previous visit left |
| AuthContext.Auth.Restore | src/context/AuthContext.jsx:16-36 | the stored user is read only with a truthy token; a truthy parsed user signs in; a parse error clears both keys; loading ends on every path, so the children render |
| AuthContext.Auth.Login | src/context/AuthContext.jsx:38-62 | on success the token and profile are stored together, the user is signed in, and the app navigates by role; on failure nothing changes and the error is rethrown |
| AuthContext.Auth.Logout | src/context/AuthContext.jsx:64-72 | both keys are removed, the user is signed out, the cart is emptied, and the app navigates to `/login` |
| AuthContext.Auth.Signup | src/context/AuthContext.jsx:74-85 | never signs in; navigates to `/login` iff the request succeeded, otherwise rethrows |
| AuthContext.LoginThenRestore | src/context/AuthContext.jsx:16-72 | given a `parse` that reads back what `encode` wrote, a login followed by the next visit's restore signs the same user in again, and after a logout the next visit is signed out |
| FilterSidebar.OnMaxPrice | src/components/FilterSidebar.jsx:30-33 | only the upper bound changes |
| FilterSidebar.OnMinPrice | src/components/FilterSidebar.jsx:35-40 | a new lower bound is applied iff it does not exceed the upper bound, otherwise the filters are returned unchanged; nothing but the lower bound ever changes; an ordered range stays ordered |
| FilterSidebar.MaxPriceCanCrossMin | src/components/FilterSidebar.jsx:30-33 | the upper-bound handler can leave the range unordered |
| FilterSidebar.ClearFilters | src/components/FilterSidebar.jsx:42-54 | it delegates to `onClearAll` iff that prop is given; otherwise each field whose setter was passed is reset (null category, [0, 1000], `rating-desc`, flags off) and each field whose setter is missing keeps its value |
| FilterSidebar.ClearLeavesNoActiveFilters | src/components/FilterSidebar.jsx:42-57 | with every setter passed, the reset gives null category, [0, 1000], `rating-desc` and no flags; no filter is then active and no label is listed |
| FilterSidebar.HasActiveFilters | src/components/FilterSidebar.jsx:56-57 | no contract of its own: `ActiveLabelsIff` states that it holds iff the summary lists some label, and `ClearLeavesNoActiveFilters` that it is false after a full reset |
| FilterSidebar.ActiveLabels | src/components/FilterSidebar.jsx:93-100 | no contract of its own: `ActiveLabelsIff` states which labels it lists and `ActiveLabelsDistinct` that none repeats |
| FilterSidebar.ActiveLabelsIff | src/components/FilterSidebar.jsx:56-100 | a label is listed iff its condition holds; the list is non-empty iff `hasActiveFilters` |
| FilterSidebar.ActiveLabelsDistinct | src/components/FilterSidebar.jsx:93-100 | no label is listed twice |
| FilterSidebar.Join | src/components/FilterSidebar.jsx:100 | joining no parts gives the empty string; one part gives that part; two or more give the first part, the separator, then the join of the rest |
| FilterSidebar.Texts | src/components/FilterSidebar.jsx:94-99 | each label maps to its text, in order |
| FilterSidebar.Summary | src/components/FilterSidebar.jsx:93-100 | no contract of its own: `SummaryNewAndSale` states a rendered text |
| FilterSidebar.SummaryNewAndSale | src/components/FilterSidebar.jsx:93-100 | with only the New and Sale quick filters on, the text is `New, Sale active` |
| FilterSidebar.ApplyPreset | src/components/FilterSidebar.jsx:298-311 | a preset sets exactly its bounds and nothing else |
| FilterSidebar.PresetHighlightsItself | src/components/FilterSidebar.jsx:306-309 | after a preset is pressed, that preset and no other is highlighted |
| FilterSidebar.Toggle | src/components/FilterSidebar.jsx:115-155 | a quick-filter button negates its own flag and nothing else |
| FilterSidebar.ToggleTwice | src/components/FilterSidebar.jsx:115-155 | pressing a quick filter twice restores the filters |
| ProductsPage.BuildParams | src/pages/ProductsPage.jsx:141-151 | the page is 0-based, the size is 9, sort and range are copied; search, category, new and sale appear iff truthy |
| ProductsPage.WishlistNotSent | src/pages/ProductsPage.jsx:141-151 | the wishlist flag never changes the request |
| ProductsPage.DisplayedProducts | src/pages/ProductsPage.jsx:165-167 | no contract of its own: `DisplayedProductsExact` states what it keeps |
| ProductsPage.DisplayedProductsExact | src/pages/ProductsPage.jsx:165-167 | with the wishlist filter on, exactly the wishlisted products are shown, in their order; otherwise all products are shown |
| ProductsPage.ShowSkeletons | src/pages/ProductsPage.jsx:169-170 | no contract of its own: `SkeletonsHideNothing` and `Body` state what it decides |
| ProductsPage.SkeletonsHideNothing | src/pages/ProductsPage.jsx:165-170 | while skeletons show there is nothing to display, whatever the wishlist filter |
| ProductsPage.PageNumbers | src/pages/ProductsPage.jsx:61 | the page numbers are 1..n in order |
| ProductsPage.Pagination | src/pages/ProductsPage.jsx:59-97 | nothing is rendered iff there is at most one page; Prev is disabled iff on page 1 and Next iff on the last page; they request the adjacent pages |
| ProductsPage.Body | src/pages/ProductsPage.jsx:266-334 | skeletons iff `showSkeletons`; otherwise the grid, with exactly the displayed products and `Pagination`, iff something is displayed; otherwise the empty state, worded for the wishlist iff that filter is on |
| ProductsPage.WishlistCanHidePagination | src/pages/ProductsPage.jsx:282-334 | when the wishlist filter leaves nothing of a fetched page, the empty state replaces the grid and its `Pagination`, whatever the page count |
| ProductsPage.EnabledButtonsStayInRange | src/pages/ProductsPage.jsx:65-89 | from a page in 1..totalPages, an enabled Prev or Next button requests a page inside 1..totalPages |
| CartPage.CartTotal | src/pages/CartPage.jsx:18 | the empty cart totals 0; `CartTotalAppend`, `CartTotalNonNegative` and `CartTotalWithQuantity` state the rest |
| CartPage.CartTotalAppend | src/pages/CartPage.jsx:18 | the total of a concatenation is the sum of the totals |
| CartPage.CartTotalNonNegative | src/pages/CartPage.jsx:18 | non-negative prices and quantities give a non-negative total |
| CartPage.WithQuantityAbsent | src/App.jsx:127 | updating a product without a line leaves the cart unchanged |
| CartPage.CartTotalWithQuantity | src/pages/CartPage.jsx:18 | changing one line's quantity moves the total by exactly that line's change |
| CartPage.Controls | src/pages/CartPage.jsx:72-77 | minus is disabled iff the quantity is at most 1, so an enabled minus never asks for less than 1; plus asks for one more; all three buttons are keyed by the line id; the line total is price times quantity |
| CartPage.PlusRaisesOneLine | src/pages/CartPage.jsx:74 | a successful plus raises exactly that line by one, and the total by its price |
| CartPage.CheckoutPage.constructor | src/pages/CartPage.jsx:14-15 | not processing, no error |
| CartPage.CheckoutPage.BeginCheckout | src/pages/CartPage.jsx:20-26 | processing is set and the old error cleared before the request, and the button is disabled |
| CartPage.CheckoutPage.CompleteCheckout | src/pages/CartPage.jsx:27-41 | on success it navigates to the redirect page with the order, the cart total and the cart; on failure it sets the error, stops processing and stays |
| CartItemCard.CardItemOf | src/components/CartItemCard.jsx:5-41 | an App cart line has no `productId`, so the card reads it as undefined |
| CartItemCard.IsPending | src/components/CartItemCard.jsx:5 | no contract of its own: `Controls` states which buttons it disables, and `AppLineKeysDiverge` that an App line is looked up under undefined |
| CartItemCard.Controls | src/components/CartItemCard.jsx:5-41 | minus is disabled iff quantity <= 1 or pending; plus and remove iff pending; callbacks use `productId` with -1 / +1; the line total is price times quantity |
| CartItemCard.AppLineKeysDiverge | src/components/CartItemCard.jsx:5-41 | given an App cart line, the callbacks carry undefined instead of the line's id |
| ListProducts.WithoutProductExact | src/pages/ListProducts/ListProducts.jsx:48 | deleting drops exactly the rows with the id and keeps the others in order; a missing id changes nothing |
| ListProducts.WithoutProduct | src/pages/ListProducts/ListProducts.jsx:48 | no contract of its own: `WithoutProductExact` states what it drops and keeps |
| ListProducts.ProductTable.constructor | src/pages/ListProducts/ListProducts.jsx:14-17 | empty list, loading, dialog closed, no target |
| ListProducts.ProductTable.BeginFetch | src/pages/ListProducts/ListProducts.jsx:20 | loading is on during the fetch |
| ListProducts.ProductTable.EndFetch | src/pages/ListProducts/ListProducts.jsx:21-30 | the list is replaced only on success; loading is off on every path |
| ListProducts.ProductTable.ConfirmDelete | src/pages/ListProducts/ListProducts.jsx:37-40 | records the target and opens the dialog |
| ListProducts.ProductTable.Cancel | src/pages/ListProducts/ListProducts.jsx:138 | closes the dialog and keeps the target |
| ListProducts.ProductTable.HandleDelete | src/pages/ListProducts/ListProducts.jsx:42-56 | with no target nothing happens; otherwise it sends the delete, removes the target's id on success, and on every path closes the dialog and clears the target |
| OrderList.Insert | src/pages/Orders/Orders.jsx:45 | insertion adds exactly the one order |
| OrderList.InsertKeepsOrder | src/pages/Orders/Orders.jsx:45 | inserting into a newest-first list keeps it newest first |
| OrderList.SortNewestFirst | src/pages/Orders/Orders.jsx:45 | the sort returns a permutation of its input |
| OrderList.SortNewestFirstCorrect | src/pages/Orders/Orders.jsx:45 | the sorted list is newest first by `orderDate` and a permutation of the response |
| Orders.StatusBadge | src/pages/Orders/Orders.jsx:57-64 | COMPLETED is green, PENDING yellow, CANCELLED red, and anything else gray |
| Orders.DisplayStatus | src/pages/Orders/Orders.jsx:89-90 | a missing or empty status reads `PENDING`; any other status is shown as is |
| Orders.MissingStatusIsPending | src/pages/Orders/Orders.jsx:89-90 | an order without a status is shown and coloured exactly as a pending one |
| Orders.AdminOrders.constructor | src/pages/Orders/Orders.jsx:37-38 | no orders; loading |
| Orders.AdminOrders.BeginFetch | src/pages/Orders/Orders.jsx:42 | loading is on during the fetch |
| Orders.AdminOrders.EndFetch | src/pages/Orders/Orders.jsx:43-52 | on success the orders are the response sorted newest first, as a permutation; on failure they are unchanged; loading is off on every path |
| OrderHistory.ItemRows | src/pages/OrderHistoryPage.jsx:63-72 | one line per item, in order, each with the item's product id, name and quantity and the subtotal price times quantity |
| OrderHistory.Card | src/pages/OrderHistoryPage.jsx:52-72 | a card shows the order's id, its date and its stored `totalAmount` (not recomputed from the lines), and one line per item whose subtotal is price times quantity |
| OrderHistory.Cards | src/pages/OrderHistoryPage.jsx:51-72 | one card per order, in list order |
| OrderHistory.History.constructor | src/pages/OrderHistoryPage.jsx:13-14 | no orders; loading from the start |
| OrderHistory.History.FetchOrders | src/pages/OrderHistoryPage.jsx:17-40 | on success the orders are the response sorted newest first, as a permutation, so every card shown is the card of an order of the response; on failure they are unchanged; loading ends on every path; the empty state shows iff there are no orders |
| HomePage.FirstFeatured | src/pages/HomePage.jsx:26-30 | `slice(0, 8)` is the prefix of length min(8, n) |
| HomePage.NextTestimonial | src/pages/HomePage.jsx:44 | from any non-negative index the next one is in [0, 3): the current one plus 1, wrapping from 2 to 0 |
| HomePage.Rotate | src/pages/HomePage.jsx:42-47 | after at least one step the index is valid; from a valid index, k steps land on (start + k) mod 3, so from index 0 on k mod 3 |
| HomePage.WishlistedIffListed | src/pages/HomePage.jsx:119 | a card is wishlisted iff some wishlist entry has its id |
| HomePage.Home.constructor | src/pages/HomePage.jsx:17-19 | no products, loading, first testimonial |
| HomePage.Home.FetchProducts | src/pages/HomePage.jsx:21-39 | a page takes the first 8 of `content`; an array takes its first 8; any other shape or a failure leaves the products as they were; loading ends on every path |
| HomePage.Home.AdvanceTestimonial | src/pages/HomePage.jsx:42-47 | one interval step advances the index and keeps it valid |
| PaymentSuccess.Step | src/pages/PaymentSuccessPage.jsx:45-51 | at 1 or below it gives 0 and leaves for `/orders`; otherwise it gives prev - 1, which is at least 1 |
| PaymentSuccess.RunFrom | src/pages/PaymentSuccessPage.jsx:42-53 | from c >= 1 the first c - 1 ticks only count down; tick c navigates once and stops the timer; the value is never negative |
| PaymentSuccess.LeavesAfterFifteenTicks | src/pages/PaymentSuccessPage.jsx:18-53 | from 15 there is no navigation after 14 ticks, and exactly one after 15 |
| PaymentSuccess.SuccessPage.constructor | src/pages/PaymentSuccessPage.jsx:15-18 | no order, loading, no error, countdown 15, no timer |
| PaymentSuccess.SuccessPage.ErrorMessage | src/pages/PaymentSuccessPage.jsx:71 | the error text, or the missing-order text when there is no error |
| PaymentSuccess.SuccessPage.Mount | src/pages/PaymentSuccessPage.jsx:20-29 | a missing or empty `orderId` navigates to `/` and fetches nothing; otherwise the order is requested |
| PaymentSuccess.SuccessPage.EndFetch | src/pages/PaymentSuccessPage.jsx:30-67 | a response sets the order and a failure sets the error; loading ends; the timer runs iff an order is present; the error view shows iff there is an error or no order |
| PaymentSuccess.SuccessPage.Tick | src/pages/PaymentSuccessPage.jsx:44-53 | one tick applies `Step`: it stops the timer and navigates to `/orders` exactly when the count was at most 1 |
| PaymentRedirecting.Decide | src/pages/PaymentRedirectingPage.jsx:9-26 | it goes to `/payment` iff order, total and items are all truthy, and forwards those same three values; otherwise it goes to `/cart` with no state |
| PaymentRedirecting.Complete | src/pages/PaymentRedirectingPage.jsx:13 | no contract of its own: `Decide` states that the page goes on to `/payment` iff it holds |
| PaymentRedirecting.AbsentStateReturnsToCart | src/pages/PaymentRedirectingPage.jsx:9-26 | with no router state the page returns to the cart |
| PaymentRedirecting.CheckoutStateForwarded | src/pages/PaymentRedirectingPage.jsx:13-26 | the checkout state is forwarded iff the cart total is non-zero; so a non-empty cart of zero-priced lines has its order sent back to the cart |
| StripeDummy.CartItemsOf | src/pages/StripeDummyPage.jsx:22 | the items default to `[]` when the router state lacks them |
| StripeDummy.DisplayedAmount | src/pages/StripeDummyPage.jsx:105 | the button shows the total when it is truthy, otherwise 0 |
| StripeDummy.PaymentForm.constructor | src/pages/StripeDummyPage.jsx:16 | not processing |
| StripeDummy.PaymentForm.BeginPayment | src/pages/StripeDummyPage.jsx:24-35 | with no order it goes to `/cart`, sends nothing, and leaves processing unchanged; otherwise processing (and the disabled button) is set before the confirm request for the order's id |
| StripeDummy.PaymentForm.EndPayment | src/pages/StripeDummyPage.jsx:36-47 | on success the shared cart is emptied and the page moves to `/payment-success/{id}`; on failure the cart is untouched, processing stops, and there is no navigation |
| ProductForm.Get | src/pages/AddProduct/AddProduct.jsx:60-62 | reading an absent field gives `undefined` |
| ProductForm.HandleChange | src/pages/AddProduct/AddProduct.jsx:45-51 | only the named field changes: to `checked` for a checkbox, otherwise to the text |
| ProductForm.Payload | src/pages/AddProduct/AddProduct.jsx:58-63 | price is parsed; originalPrice is parsed when truthy, else it is the parsed price; categoryId is parsed base 10; every other field is copied |
| ProductForm.EmptyOriginalPriceFallsBack | src/pages/EditProduct/EditProduct.jsx:77 | an empty original price is sent as the parsed price |
| AddProduct.InitialState | src/pages/AddProduct/AddProduct.jsx:9-19 | the text fields are empty; in stock, new, not on sale; no other fields |
| AddProduct.InitialPayloadFallsBack | src/pages/AddProduct/AddProduct.jsx:9-63 | submitting the untouched form sends the parsed empty price as the original price |
| AddProduct.AddPage.constructor | src/pages/AddProduct/AddProduct.jsx:27-29 | the initial form, no categories, not loading |
| AddProduct.AddPage.FetchCategories | src/pages/AddProduct/AddProduct.jsx:32-43 | the categories are set on success; a failure leaves them empty |
| AddProduct.AddPage.Change | src/pages/AddProduct/AddProduct.jsx:45-51 | only the named field of the form changes |
| AddProduct.AddPage.BeginSubmit | src/pages/AddProduct/AddProduct.jsx:53-64 | loading is on and the payload of the current form is posted |
| AddProduct.AddPage.EndSubmit | src/pages/AddProduct/AddProduct.jsx:65-72 | it navigates to `/admin/list` iff the post succeeded; loading is off on every path |
| EditProduct.FindByName | src/pages/EditProduct/EditProduct.jsx:41 | the index of the first category with that name, or none when no category has it |
| EditProduct.CategoryIdFor | src/pages/EditProduct/EditProduct.jsx:41 | for the first category with the product's category name, its id, or `''` when that id is 0; `''` when no category has the name; a number result is always a non-zero id of a category with that name |
| EditProduct.UnknownCategoryIsEmpty | src/pages/EditProduct/EditProduct.jsx:41 | an unknown category gives `''` |
| EditProduct.FormFromProduct | src/pages/EditProduct/EditProduct.jsx:37-48 | exactly the nine fields, each copied from the product except `categoryId`, which is looked up |
| EditProduct.EditPage.constructor | src/pages/EditProduct/EditProduct.jsx:16-20 | no form, no categories, not submitting, page loading, no error |
| EditProduct.EditPage.CurrentView | src/pages/EditProduct/EditProduct.jsx:92-105 | the loader shows iff the page is loading; the form shows iff loading is over, there is no error and there is form data |
| EditProduct.EditPage.EndLoad | src/pages/EditProduct/EditProduct.jsx:28-56 | on success it sets the categories and fills the form; on failure it sets the error and leaves the form empty, so the error view shows; the page loader is off on every path |
| EditProduct.EditPage.Change | src/pages/EditProduct/EditProduct.jsx:61-67 | only the named field changes, starting from `{}` when there is no form |
| EditProduct.EditPage.BeginSubmit | src/pages/EditProduct/EditProduct.jsx:69-81 | loading is on and the payload of the current form is sent |
| EditProduct.EditPage.EndSubmit | src/pages/EditProduct/EditProduct.jsx:82-89 | it navigates to `/admin/list` iff the update succeeded; loading is off on every path |

## Left out

- Toasts, `console` output, the Authorization header built from the stored token, and the markup of every page. These are presentation or transport and carry no state.
- Timers and scheduling. This covers the search debounce (`ProductsPage.jsx:152`), the testimonial interval, the countdown interval, and the 3-second redirect timeout together with its cleanup. These are event-loop concurrency, so only the step each one runs is modelled (`AdvanceTestimonial`, `Tick`, `Decide`). No interleaving of concurrent async handlers is modelled either: a handler's `Begin`/`End` halves run in order.
- Floating point: prices are integer cents. `toFixed(2)` formatting, `Number(...)` on slider text, and NaN from `parseFloat` are not modelled. `parseFloat` and `parseInt` are parameters.
- Dates: `orderDate` is an integer timestamp. `new Date(...)` parsing and locale formatting are not modelled.
- OrderList.SortNewestFirst: the library's `Array.prototype.sort` works in place on the response array. Only its result is modelled, as a functional insertion sort. Whether orders with equal dates keep their order (stability) is not stated.
- `fetchPaginatedProducts`, category fetching on the products page, and the components it renders (`ProductCard`, `ProductListItem`, the menus, the navbar, the layouts) are not part of this model. The product page's `currentPage` is not reset when a filter changes, and the model keeps it that way.
- Product records carry only the fields the modelled logic reads: id, name, image, price, and the admin row fields.
- A wishlist entry appended by a toggle has no quantity (`None`), while a fetched entry has the server quantity. Other extra fields of the appended product object are dropped.
- EditProduct.EditPage.BeginSubmit: requires form data, because the submit button only exists while the form is rendered.
- PaymentSuccess.SuccessPage.Tick: requires a running timer, because the interval callback only fires while the timer is set.
- `LoginPage`, `SignupPage`, `WishlistPage`, `ProductDetailPage`, `CategoriesPage` and the static pages are not part of this model.

Note on `CartItemCard`: the card keys its buttons and its pending check by `item.productId`. The cart lines built in `App.jsx` carry the product id in `id` and have no `productId`. `CartItemCard.AppLineKeysDiverge` states what the card then does with such a line. The cart page renders its own rows, keyed by `id`, and does not use the card.
