# Storefront client state, in Dafny

A model of the state that the storefront's React client keeps on its own side
of the HTTP boundary, with proofs about it. It covers:

- the **cart store** (`CartProvider`): an ordered list of cart lines, newest
  first, with a counter that hands out line ids and a busy flag;
- the **session store** (`AuthProvider`) with browser storage, the **route
  guard** (`PrivateRoute`), the **route table** (`App`) and the **login form**;
- the **local order log** (`OrderProvider.createOrder`);
- the **cart page** and the **shop's product page** (quantity buttons, total,
  checkout, the add-to-cart dialog);
- the **list pages** (admin products, deleted products, admin orders, orders per
  user, the shopper's orders): page count, Previous/Next, row numbers, item
  counts, price lookup, optional query parameters, delete and restore.

Each store and page is a class whose fields are the component's state. Each
method's postcondition ties the new state to a pure function of the old state
and the inputs. The properties are proved as lemmas about those functions, or
as postconditions of functions that only compute.

Surroundings:

- Every HTTP call is a parameter of type `Outcome<T>`: `Success(body)` or
  `Failure(message, cause)`. `message` is the server's optional message and
  `cause` is the error's own text.
- Browser storage is a `BrowserStorage` object holding a map from key to
  `Stored`. A `Stored` value is a session record or text that is not valid JSON
  (the theme values "dark" and "light" are such text). `JSON.parse` of
  `getItem("session") || "{}"` is `ReadSession`: a missing key and the empty
  text both fall back to `"{}"` and read as the empty record; any other text
  that is not JSON is a parse error.
- The clock values (`Date.now()`, `new Date()`) are method parameters.
- "Page count" is `Math.ceil(total / limit)` stated as integer ceiling division
  for a whole `limit >= 1`.
- The delayed `setLoading(false)`/`setCartLoading(false)` calls are modelled
  two ways. The cart store has an explicit `Settle` step. Page flags are
  lowered at once.

Shared modules: `Outcomes` (optional values, outcomes, the `a || "default"`
message rule), `Sequences` (filter and find), `Types` (the records of
`src/types`), `Pagination` (page arithmetic and a `Pager` object that each list
page owns) and `QueryParams` (the `params` objects).

Behaviour of the code that the proofs make explicit:

- `updateQuantity` does not check the quantity. Only the page buttons keep
  quantities at 1 or more (`CartPage.ButtonsKeepQuantitiesPositive`).
- A successful login whose record lacks a token or a role authenticates in
  memory, but a reload does not restore it (`LoginPage.ReloadAfterLogin`).
- A reload renders once with the initial, logged-out state before the mount
  effect reads storage. A guarded page is then redirected to `/login` even
  for a stored admin or user session (`LoginPage.ReloadOfGuardedPage`).
- When the stored session is non-empty text that is not JSON, `createOrder`
  catches the parse error and records nothing, and the checkout still clears the cart
  (`CartPage.CartView.HandleCheckout`).
- A failed checkout leaves the page's `loading` flag raised.
- With zero results the page count is 0. On the shop's product page, the admin
  order table and the orders-per-user table, which keep the pager after a
  successful fetch, "Next" is then not disabled on page 1 and moves to page 0
  (`Pagination.NextOnEmptyListing`). The admin product tables and the
  shopper's orders page show an empty-state message instead of the pager.
- The deleted-products table numbers its rows from 1 on every page
  (`DeletedProductsPage.RowNumberRestarts`).
- The shopper's orders page never raises its `loading` flag.

## Model

| member | source | states |
|---|---|---|
| `Outcomes.MessageOr` | src/pages/auth/Login.tsx:31 | the server message when it is present and not empty, else the fallback; never empty when the fallback is not |
| `Sequences.FilterOut` | src/contexts/CartProvider.tsx:32 | every kept element comes from the input and fails the test; every element of the input that fails the test is kept; never longer |
| `Sequences.FilterOutConcat` | src/pages/admin/Products.tsx:50 | filtering distributes over concatenation, so the kept elements stay in their relative order |
| `Sequences.FilterOutIdempotent` | src/contexts/CartProvider.tsx:32 | filtering twice with the same test equals filtering once |
| `Sequences.FilterOutNoneDropped` | src/contexts/CartProvider.tsx:32 | when nothing matches, the filter returns its input |
| `Sequences.FilterOutPairwise` | src/contexts/CartProvider.tsx:32 | a relation between each element and every later one survives filtering |
| `Sequences.FirstIndex` | src/pages/user/Products.tsx:33-35 | the index found matches and no earlier element does; none exactly when no element matches |
| `Pagination.TotalPages` | src/pages/user/Products.tsx:60-61 | the least page count whose pages of `limit` rows hold `total` rows; 0 exactly for no rows |
| `Pagination.PreviousPage` | src/pages/user/Products.tsx:259 | at least 1; one less than the page from page 2 on |
| `Pagination.NextPage` | src/pages/user/Products.tsx:271-273 | at most the page count; one more than the page below the last page, the page count otherwise |
| `Pagination.DisabledExactlyWhenStill` | src/pages/user/Products.tsx:257-277 | within the page range, `page === 1` and `page === totalPages` disable a button exactly when pressing it would not move; an enabled button moves by one page |
| `Pagination.ButtonsStayInRange` | src/pages/admin/Products.tsx:189-203 | from a page in `[1, totalPages]` both buttons stay in that range, Previous never moves forward and Next never back |
| `Pagination.NextPullsBackIntoRange` | src/pages/admin/DeletedProducts.tsx:186-188 | from a page past the last one, Next goes to the last page |
| `Pagination.NextOnEmptyListing` | src/pages/user/Products.tsx:269-275 | with no rows the page count is 0, Next from page 1 is not disabled and goes to page 0 |
| `Pagination.EveryRowHasAPage` | src/pages/admin/Orders.tsx:44-45 | every row index below the total falls on a page between 1 and the page count |
| `Pagination.RowsOfPage` | src/pages/admin/Products.tsx:140 | page p numbers its rows consecutively from `(p-1)*limit + 1` and stays within `p*limit` |
| `Pagination.RowNumbersDistinct` | src/pages/admin/Orders.tsx:187 | two rows of pages of at most `limit` rows share a number only if they are the same row of the same page |
| `Pagination.Pager.constructor` | src/pages/user/Products.tsx:41-43 | page 1, page size 10, page count 1 |
| `Pagination.Pager.Previous` | src/pages/admin/Orders.tsx:211 | the page becomes `max(page-1, 1)`; size and count unchanged |
| `Pagination.Pager.Next` | src/pages/admin/OrdersGroupBy.tsx:119-121 | the page becomes `min(page+1, totalPages)`; size and count unchanged |
| `Pagination.Pager.SetLimit` | src/pages/admin/Products.tsx:107 | only the page size changes; the page stays where it was |
| `Pagination.Pager.ApplyTotal` | src/pages/admin/DeletedProducts.tsx:32-33 | the page count becomes the ceiling of total over page size; page and size unchanged |
| `QueryParams.IfNotEmpty` | src/pages/user/Products.tsx:53-54 | no entry for empty text, one entry with that key and text otherwise |
| `QueryParams.KeysConcat` | src/pages/admin/Orders.tsx:29-38 | the keys of a concatenation are the keys of its parts |
| `QueryParams.SortedKeys` | src/pages/admin/Products.tsx:24-29 | `sortBy`, `orderBy`, `limit` and `page` are always sent, besides the filters' keys |
| `QueryParams.SortedSends` | src/pages/admin/Products.tsx:24-29 | when no filter reuses a fixed key, the request sends the given sort, order, page size and page, and no other value under those keys |
| `QueryParams.SortedWithBounds` | src/pages/user/Products.tsx:50-57 | the four fixed keys always, each with the given value and no other; the lower and upper bound exactly when not empty, each with its text as its only value (also the request of src/pages/user/Orders.tsx:48-55) |
| `QueryParams.BoundsSent` | src/pages/user/Products.tsx:52-53 | a bound that is filled in is sent under its key with its text, and nothing else is sent under that key |
| `QueryParams.KeysOfOne` | src/pages/user/Orders.tsx:51-52 | an optional entry contributes its key exactly when its text is not empty |
| `CartProvider.InitialInvariant` | src/contexts/CartProvider.tsx:6-8 | the empty cart with counter 1 satisfies the id invariant |
| `CartProvider.WithQuantity` | src/contexts/CartProvider.tsx:22-24 | same length; each line with the id gets the new quantity and no other field changes; other lines are unchanged |
| `CartProvider.AddedShape` | src/contexts/CartProvider.tsx:12-14 | the candidate goes to the head with the counter as its id whatever id it carried, the old lines follow in order, the counter grows by 1 |
| `CartProvider.AddedInvariant` | src/contexts/CartProvider.tsx:12-14 | adding keeps ids handed out, distinct and decreasing from head to tail; the new id exceeds every old one |
| `CartProvider.QuantityUpdatedInvariant` | src/contexts/CartProvider.tsx:20-24 | updating a quantity, whatever its value, keeps the id invariant |
| `CartProvider.QuantityUpdatedUnknownId` | src/contexts/CartProvider.tsx:22-24 | an id that is not in the cart leaves the cart as it is |
| `CartProvider.RemovedInvariant` | src/contexts/CartProvider.tsx:30-32 | removing keeps the id invariant |
| `CartProvider.RemovedExactly` | src/contexts/CartProvider.tsx:32 | removal leaves exactly the lines with another id, in their order, and a second removal changes nothing |
| `CartProvider.RemovedUnknownId` | src/contexts/CartProvider.tsx:32 | an id that is not in the cart leaves the cart as it is |
| `CartProvider.ClearedThenAdded` | src/contexts/CartProvider.tsx:38-44 | after clearing, one add gives a single line whose id exceeds every id handed out before |
| `CartProvider.AddedAllShape` | src/contexts/CartProvider.tsx:10-18 | n adds put n lines before the old ones, latest first, with consecutive ids down from the last one handed out; one line more per add |
| `CartProvider.AddedAllFromInitial` | src/contexts/CartProvider.tsx:6-14 | from a fresh store n adds give ids n, n-1, ..., 1 from head to tail, all distinct |
| `CartProvider.AddedAllInvariant` | src/contexts/CartProvider.tsx:12-14 | any sequence of adds keeps the id invariant |
| `CartProvider.CartStore.constructor` | src/contexts/CartProvider.tsx:6-8 | empty cart, not busy, counter 1 |
| `CartProvider.CartStore.AddItem` | src/contexts/CartProvider.tsx:10-18 | busy; the new line at the head with the old counter as id; counter plus 1; invariant kept |
| `CartProvider.CartStore.UpdateQuantity` | src/contexts/CartProvider.tsx:20-28 | busy; quantities of the lines with the id replaced; invariant kept |
| `CartProvider.CartStore.RemoveItem` | src/contexts/CartProvider.tsx:30-36 | busy; the lines with the id removed; invariant kept |
| `CartProvider.CartStore.ClearCart` | src/contexts/CartProvider.tsx:38-44 | busy; empty cart; counter unchanged |
| `CartProvider.SettledInvariant` | src/contexts/CartProvider.tsx:15-17 | the timer keeps the lines, the counter and the id invariant, and only the busy flag drops |
| `CartProvider.CartStore.Settle` | src/contexts/CartProvider.tsx:15-17 | the busy flag drops; nothing else changes |
| `AuthProvider.ReadSession` | src/contexts/AuthProvider.tsx:10 | a missing key and the empty text read as the empty record, a stored record as itself; a parse error exactly for other non-JSON text |
| `AuthProvider.BrowserStorage.SetItem` | src/pages/auth/Login.tsx:25 | the key now maps to the value; every other key is unchanged |
| `AuthProvider.BrowserStorage.RemoveItem` | src/contexts/AuthProvider.tsx:23 | the key is gone; every other key is unchanged |
| `AuthProvider.HydratedFromInitial` | src/contexts/AuthProvider.tsx:9-15 | hydrating a fresh store authenticates exactly when the stored record has a token and a role, with that role; otherwise the state stays initial |
| `AuthProvider.LogoutStorage` | src/contexts/AuthProvider.tsx:22-26 | logout removes the session key and keeps every other key, the theme included; doing it twice equals doing it once |
| `AuthProvider.HydratedAfterLogout` | src/contexts/AuthProvider.tsx:9-26 | after logout a reload hydrates to the logged-out state |
| `AuthProvider.ReachableStatesConsistent` | src/contexts/AuthProvider.tsx:6-20 | invariant "a role only with authentication": it holds initially, hydration from any storage keeps it, and `login(true, _)` establishes it |
| `AuthProvider.AuthStore.constructor` | src/contexts/AuthProvider.tsx:6-7 | not authenticated, no role |
| `AuthProvider.AuthStore.Hydrate` | src/contexts/AuthProvider.tsx:9-15 | state becomes `(true, role)` only for a stored record with credentials; storage is not written; reports the uncaught parse error exactly for non-empty non-JSON text |
| `AuthProvider.AuthStore.Login` | src/contexts/AuthProvider.tsx:17-20 | state becomes exactly the two arguments; storage is not touched |
| `AuthProvider.AuthStore.Logout` | src/contexts/AuthProvider.tsx:22-26 | the session key is removed from storage and the state is `(false, null)` |
| `AuthProvider.LoginThenLogout` | src/contexts/AuthProvider.tsx:17-26 | login then logout (twice) leaves the fresh-store state and storage without the session key |
| `PrivateRoute.Decide` | src/lib/PrivateRoute.tsx:12-17 | to login exactly when logged out; home exactly when logged in and the required role is given and differs; renders exactly when logged in and no role is required or it matches |
| `PrivateRoute.RedirectTargets` | src/lib/PrivateRoute.tsx:14-15 | the guard redirects to `/login` exactly when logged out, to `/` exactly when the required role differs, and nowhere exactly when the page renders |
| `PrivateRoute.DecideExamples` | src/lib/PrivateRoute.tsx:14-15 | named scenarios: logged out goes to login for any role; user or role-less sent home from admin routes; admin renders admin routes |
| `AppRoutes.Navigate` | src/App.tsx:27-127 | nothing for a path without a route; public routes always render; a guarded route gives the guard's decision on the session and its required role |
| `AppRoutes.RouteKeys` | src/App.tsx:29-126 | the table holds exactly the three public, six admin and five user paths |
| `AppRoutes.GuardsByPath` | src/App.tsx:29-126 | public paths unguarded, admin paths require `admin`, user paths require `user` |
| `AppRoutes.AdminPrefixMeansAdminRole` | src/App.tsx:36-83 | a path of the table starts with `/admin/` exactly when it requires `admin` |
| `AppRoutes.RolesAreSeparated` | src/App.tsx:86-126 | an admin asking for a user page and a user asking for an admin page are sent home; logged out, every guarded page goes to login; each role renders its own pages |
| `LoginPage.LandingPath` | src/pages/auth/Login.tsx:28 | `/admin/dashboard` for the admin role, `/` for anything else |
| `LoginPage.LoginForm.constructor` | src/pages/auth/Login.tsx:16 | no error text |
| `LoginPage.LoginForm.HandleLogin` | src/pages/auth/Login.tsx:18-33 | success: storage holds the record under `session`, state `(true, record.role)`, navigate to the landing path. Failure: no storage write, no login, no navigation, error text is the server message or "email atau password salah" |
| `LoginPage.ReloadAfterLogin` | src/pages/auth/Login.tsx:25-27 | after a successful login, the mount effect of a reload hydrates a fresh store to the logged-in state exactly when the record has a token and a role |
| `LoginPage.ReloadOfGuardedPage` | src/contexts/AuthProvider.tsx:6-15 | the first render of a reload sees the initial state, so a guarded page redirects to `/login`; only the hydrated state with credentials and the route's role would render it |
| `LoginPage.LandingIsPermitted` | src/pages/auth/Login.tsx:27-28 | the landing page renders for the session just logged in; for an admin it is the admin-guarded dashboard |
| `OrderContext.SessionEmail` | src/contexts/OrderContext.tsx:18 | the stored record's email; absent when the key, the record or the field is missing |
| `OrderContext.AppendOnly` | src/contexts/OrderContext.tsx:14-26 | the old records are a prefix; when the record can be built (no session, empty text or a record) exactly one record is appended with the given cart and total, the clock's id and date and the session email; otherwise the log is unchanged |
| `OrderContext.EmptySessionTextStillRecords` | src/contexts/OrderContext.tsx:18 | an empty stored text still records the order, without an email; other non-JSON text records nothing |
| `OrderContext.OrderStore.constructor` | src/contexts/OrderContext.tsx:9-10 | empty log, not busy |
| `OrderContext.OrderStore.CreateOrder` | src/contexts/OrderContext.tsx:12-33 | the log after appending (or not, if building throws on non-empty non-JSON text) and the busy flag down on every path |
| `CartPage.TotalPriceConcat` | src/pages/user/Cart.tsx:28-31 | the total of a concatenation is the sum of the totals |
| `CartPage.TotalPriceBasics` | src/pages/user/Cart.tsx:28-31 | empty cart costs 0; a line in front adds its price times its quantity |
| `CartPage.TotalPriceNonNegative` | src/pages/user/Cart.tsx:28-31 | with non-negative prices and quantities the total is non-negative |
| `CartPage.TotalPriceExample` | src/pages/user/Cart.tsx:28-31 | named scenario: two lines of 1000 x 2 and 500 x 1 total 2500 |
| `CartPage.CheckoutPayload` | src/pages/user/Cart.tsx:38-45 | same length and order as the cart, each entry that line's name and quantity |
| `CartPage.ButtonsKeepQuantitiesPositive` | src/pages/user/Cart.tsx:16-26 | pressed with a shown quantity of at least 1, both buttons keep every quantity at least 1 |
| `CartPage.DecreaseAtOneRemoves` | src/pages/user/Products.tsx:80-90 | decrease at 1 removes every line with the id; otherwise decrease stores q-1 and increase q+1 on those lines and leaves the rest |
| `CartPage.HandleIncrease` | src/pages/user/Cart.tsx:16-18 | the store becomes the quantity update to `q+1` |
| `CartPage.HandleDecrease` | src/pages/user/Cart.tsx:20-26 | the store becomes the removal at `q == 1`, the update to `q-1` otherwise |
| `CartPage.CartView.constructor` | src/pages/user/Cart.tsx:13-14 | no error text, not loading |
| `CartPage.CartView.HandleCheckout` | src/pages/user/Cart.tsx:33-57 | sends the payload of the cart. Success: the log gets the server cart with the total taken before clearing, then the cart is cleared and `loading` drops. Failure: cart and log unchanged, error text set, `loading` stays up |
| `UserProductsPage.CartItemFor` | src/pages/user/Products.tsx:33-35 | the first line with the selected product's name; none when no line has it or nothing is selected |
| `UserProductsPage.AsCartItem` | src/pages/user/Products.tsx:77 | the product's name, picture and price with quantity 1 |
| `UserProductsPage.AddKeepsNamesUnique` | src/pages/user/Products.tsx:215-249 | "Add to Cart" is offered only without a line of that name, so adding keeps names unique |
| `UserProductsPage.StepperKeepsNamesUnique` | src/pages/user/Products.tsx:215-239 | the dialog's `-` and `+` buttons keep names unique |
| `UserProductsPage.ProductQuery` | src/pages/user/Products.tsx:50-57 | the four fixed keys always, sending exactly the given sort, order, page size and page; `minPrice` and `maxPrice` exactly when not empty, each with its text as its only value |
| `UserProductsPage.ProductsView.constructor` | src/pages/user/Products.tsx:27-44 | no products, loading, nothing selected, the default sort and filters, page 1 of 1 with size 10 |
| `UserProductsPage.ProductsView.FetchPosts` | src/pages/user/Products.tsx:46-74 | sends the view's query; success replaces products and page count and clears the error; failure keeps both and sets "Gagal fetch data products"; loading drops; selection, sort, price filters, page and size unchanged |
| `UserProductsPage.ProductsView.Select` | src/pages/user/Products.tsx:166 | the clicked product becomes the selection; products, flags, sort and price filters unchanged |
| `UserProductsPage.ProductsView.OffersAdd` | src/pages/user/Products.tsx:215 | the dialog offers "Add to Cart" exactly when nothing is selected or no cart line has the selected product's name |
| `UserProductsPage.ProductsView.HandleAddToCart` | src/pages/user/Products.tsx:76-78 | the store becomes the add of the selected product with quantity 1; when the dialog offered "Add to Cart", line names that were unique stay unique |
| `AdminProductsPage.WithoutProductExactly` | src/pages/admin/Products.tsx:50 | a delete keeps exactly the products with another id, in order; a second delete changes nothing |
| `AdminProductsPage.ProductQuery` | src/pages/admin/Products.tsx:24-29 | exactly the keys `sortBy`, `orderBy`, `limit`, `page`, sending exactly the given sort, order, page size and page |
| `AdminProductsPage.AdminProductsView.constructor` | src/pages/admin/Products.tsx:12-18 | empty list, not loading, sorted by price ascending, page 1 of 1 with size 10 |
| `AdminProductsPage.AdminProductsView.FetchProducts` | src/pages/admin/Products.tsx:20-39 | sends the view's query; success replaces list and page count; failure keeps both; loading drops; sort, page and size unchanged |
| `AdminProductsPage.AdminProductsView.HandleDelete` | src/pages/admin/Products.tsx:45-61 | cancelled: no request, nothing changes. Success: the id is filtered out. Failure: list kept, alert with the message. Loading drops after a request |
| `DeletedProductsPage.RowNumberRestarts` | src/pages/admin/DeletedProducts.tsx:132 | row numbers are the first page's on every page, below the offset numbers from page 2 on |
| `DeletedProductsPage.DeletedProductsView.constructor` | src/pages/admin/DeletedProducts.tsx:11-17 | empty list, not loading, sorted by name ascending, page 1 of 1 with size 10 |
| `DeletedProductsPage.DeletedProductsView.FetchDeletedProducts` | src/pages/admin/DeletedProducts.tsx:19-42 | sends the view's query; success replaces list and page count; failure keeps both; loading drops; sort, page and size unchanged |
| `DeletedProductsPage.DeletedProductsView.HandleRestore` | src/pages/admin/DeletedProducts.tsx:48-61 | cancelled: no request, nothing changes. Success: the id is filtered out. Failure: list kept. Loading drops after a request |
| `AdminOrdersPage.ItemCountConcat` | src/pages/admin/Orders.tsx:192-194 | the item count of a concatenation is the sum of the counts |
| `AdminOrdersPage.ItemCountBounds` | src/pages/admin/Orders.tsx:192-194 | with positive quantities the count is at least the number of lines, and 0 exactly for an empty cart |
| `AdminOrdersPage.ItemCountExample` | src/pages/admin/Orders.tsx:192-194 | named scenario: quantities 2 and 1 count 3 items |
| `AdminOrdersPage.OrderQuery` | src/pages/admin/Orders.tsx:29-38 | the four fixed keys always, sending exactly the given sort, order, page size and page; `minTotal`, `maxTotal`, `startDate`, `endDate` exactly when not empty, with their text |
| `AdminOrdersPage.OrderFilterKeys` | src/pages/admin/Orders.tsx:32-35 | the filter keys sent are exactly those of the filled-in bounds and dates |
| `AdminOrdersPage.OrderFiltersAvoidFixed` | src/pages/admin/Orders.tsx:30-37 | no bound or date key is one of `sortBy`, `orderBy`, `limit`, `page` |
| `AdminOrdersPage.OrderFiltersSent` | src/pages/admin/Orders.tsx:32-35 | each filled-in bound and date is sent with its text |
| `AdminOrdersPage.AdminOrdersView.constructor` | src/pages/admin/Orders.tsx:11-22 | empty list, no filters, newest first, no error, page 1 of 1 with size 10 |
| `AdminOrdersPage.AdminOrdersView.FetchOrders` | src/pages/admin/Orders.tsx:24-58 | sends the view's query; success replaces list and page count and clears the error; failure keeps both and sets "Gagal fetch data orders"; loading drops; sort, total and date filters, page and size unchanged |
| `OrdersGroupByPage.GroupQuery` | src/pages/admin/OrdersGroupBy.tsx:22-27 | exactly the keys `limit` and `page`, with their values |
| `OrdersGroupByPage.OrdersByUserView.constructor` | src/pages/admin/OrdersGroupBy.tsx:11-16 | empty list, no error, page 1 of 1 with size 10 |
| `OrdersGroupByPage.OrdersByUserView.FetchOrders` | src/pages/admin/OrdersGroupBy.tsx:18-48 | sends the view's query; success replaces list and page count and clears the error; failure keeps both and sets "Gagal fetch data orders"; loading drops; page and size unchanged |
| `UserOrdersPage.ItemPrice` | src/pages/user/Orders.tsx:21-24 | the price of the first product with that name, 0 when there is none |
| `UserOrdersPage.LineAmount` | src/pages/user/Orders.tsx:167 | that price times the quantity, 0 for an unknown product |
| `UserOrdersPage.MyOrdersQuery` | src/pages/user/Orders.tsx:48-55 | the four fixed keys always, sending exactly the given sort, order, page size and page; `minTotal` and `maxTotal` exactly when not empty, each with its text as its only value |
| `UserOrdersPage.MyOrdersView.constructor` | src/pages/user/Orders.tsx:10-19 | no products or orders, not loading, newest first, no filters, page 1 of 1 with size 10 |
| `UserOrdersPage.MyOrdersView.FetchProducts` | src/pages/user/Orders.tsx:26-42 | success replaces the product list, failure keeps it; orders, sort and total filters untouched |
| `UserOrdersPage.MyOrdersView.FetchOrders` | src/pages/user/Orders.tsx:44-70 | sends the view's query; success replaces orders and page count; failure keeps both; products, sort, total filters, page and size unchanged |

## Left out

- HTTP: every request is an `Outcome` parameter. The server's behaviour is not
  modelled: stock, point balances, server-side totals, and what `/order/add`
  returns.
- Timers: the `setTimeout` delays before busy flags drop. The cart store has an
  explicit `Settle` step without a delay. Pages lower their flags immediately.
  So the window in which a second click can interleave is not modelled.
- Render and effect order: `LoginPage.ReloadOfGuardedPage` states the first
  render before hydration, but the sequence of renders and effects is not
  modelled as steps.
- React scheduling: batched updates and stale closures. `addItem` reads
  `idCounter` from its render, so two adds in one render could share an id. The
  model runs calls one after another with fresh state.
- JSON: storage holds typed records or text that is not JSON. Malformed records
  with wrongly typed fields are not modelled. In `AuthStore.Hydrate`, the
  uncaught parse error is only reported (`threw`); React's error handling after
  it is not modelled.
- `LoginPage.LoginForm.HandleLogin`: assumes the success body carries a
  session object. A body without one makes `session.role` throw after the
  storage write, and that path is not modelled.
- `AuthProvider.AuthStore.Login`: takes an optional role. A server record
  without a role passes `undefined` at run time, whatever the TypeScript type
  says.
- `UserProductsPage.AsCartItem`: keeps only the cart-line fields. The spread
  `{...selectedProduct}` also copies the product's other fields into the line,
  and those are never read.
- Numbers: prices, quantities and totals are unbounded integers. Floating point
  is not modelled. `Math.ceil(total / limit)` is modelled only for a whole
  `limit >= 1` (`Pager.SetLimit` requires it). A limit of 0 or `NaN`, which the
  `Number(...)`/`parseInt` inputs can produce, is outside the model.
- Clock and locale: `Date.now()` and `new Date()` are parameters. Date
  formatting, the ISO conversion of the date inputs on the admin orders page,
  and `formatRupiah` (in `lib/utils`) are not part of this model.
- The sort and filter input controls are not modelled as operations. The model
  keeps their values as fields, read by each page's `Query`.
- Rendering only: JSX, Navbar and Sidebar, the dashboards, and Home (a fetch
  with an empty-list fallback).
- Register, AddProduct and ProductEdit: multipart uploads and file previews.
- TransferPoint: a thin wrapper over server calls. ThemeToggle: a DOM class
  list and one storage write. Only its stored value appears here, as the
  `theme` key that logout keeps.
- `useAuth`, `useCart` and `useOrder`: context lookups that throw outside their
  provider.
- Console logging and the `alert` dialog: the alert text is returned by
  `HandleDelete`; nothing is displayed.
