# Hazmat ordering: cart, checkout, session and stock-query logic in Dafny

This project models the small pieces of sequential logic in a hazardous-materials
ordering system. The system has a React frontend and a Bun/Elysia backend over
MySQL. The pieces modelled are:

- the **cart provider** (`CartContext`): the local list of cart lines and the
  fetched summary, changed by refresh, add, update, remove and clear;
- the **cart page** (`CartPage`): the quantity controls, the guard that drops any
  quantity below 1, the set of line ids with a request in flight, the screen
  selection and the "Total Qty" aggregate;
- the **product page** (`ProductDetail`): the quantity stepper clamps, add-to-cart,
  the hazard badge colour, the subtotal and the stock-dependent sections;
- the **checkout page** (`Checkout`): the order-line projection, clear-after-order
  and the error text;
- the **auth provider** (`AuthContext`): login, register, logout, the mount-time
  token check and `isAuthenticated`;
- the **dashboard** (`Dashboard`): carousel index arithmetic and the featured list;
- the **backend routes** (`StockApi`): `/ping`, `/materials` and the `/view-stock`
  query builder.

Every call to a REST client (`cartAPI`, `authAPI`, `ordersAPI`, `materialsAPI`)
is a parameter of type `Remote.Call<T>`. A call either resolved with a value or
rejected with an error carrying the server's optional message. The database is
a parameter `db` that maps SQL text to rows or a rejection. Each handler runs to
completion, one at a time.

Stateful providers and pages are classes whose fields the methods update in
place. Each method's `ensures` ties the new state to a pure function of the old
state (`AfterAdd`, `AfterCheckout`, `AfterSignIn`, …). The source's promises are
stated on those functions and proved in lemmas about them.

Some behaviour one might expect of such a shop does not hold in the code, and the model follows the code:

- Quantities are not always clamped to stock. The product page's typed input is
  raised to 1 but never capped (`TypedInputCanExceedStock`). The cart page's Plus
  control has no stock bound.
- Not every cart mutation resyncs. `clearCart` does not re-fetch (`AfterClear`).
- Signed-out users are not redirected. The cart page shows a login prompt instead
  (`CartScreen`). The checkout page has no sign-in check at all.
- The query gateway's "lazy reconnect" is unreachable. `executeQuery` throws on a
  missing connection before it would reconnect (app/classes/sql_query.ts:24-25).
  The gateway is not modelled.

## Model

| member | source | states |
|---|---|---|
| `Remote.ErrorText` | frontend/src/pages/Checkout.tsx:35 | the server message is used only when it is present and non-empty, otherwise the fallback; never empty when the fallback is not |
| `Inputs.TypedValue` | frontend/src/pages/Cart.tsx:139 | `parseInt(text) \|\| 1`: NaN and 0 become 1, any other number is kept; the result is never 0 |
| `CartContext.Without` | frontend/src/context/CartContext.tsx:70 | the filter keeps exactly the lines whose id differs, each as often as before, and never drops a line with another id |
| `CartContext.WithoutConcat` | frontend/src/context/CartContext.tsx:70 | filtering distributes over concatenation, so kept lines keep their original order |
| `CartContext.WithoutIdempotent` | frontend/src/context/CartContext.tsx:70 | removing the same id twice removes nothing more |
| `CartContext.RemoveUndoesAppend` | frontend/src/context/CartContext.tsx:49-70 | removing a freshly appended line with a new id gives back the earlier list |
| `CartContext.AfterRefresh` | frontend/src/context/CartContext.tsx:26-38 | no-op when signed out; on success items become the fetched items (or empty) and the summary the fetched data; on failure both are kept; loading ends false |
| `CartContext.ResyncOverridesLocalEdits` | frontend/src/context/CartContext.tsx:30-32 | a successful resync gives the same state from any starting state, so local edits before it leave no trace |
| `CartContext.AfterAdd` | frontend/src/context/CartContext.tsx:46-55 | a failed add changes nothing and is rethrown; a successful one appends after all existing lines, and only a successful resync replaces that; loading ends false when signed in and is untouched otherwise |
| `CartContext.AfterUpdate` | frontend/src/context/CartContext.tsx:57-65 | the local list is never edited: success gives exactly the refresh result (a no-op when signed out), failure changes nothing and is rethrown |
| `CartContext.AfterRemove` | frontend/src/context/CartContext.tsx:67-76 | failure changes nothing and is rethrown; success keeps exactly the other lines, then resyncs; loading ends false when signed in and is untouched otherwise |
| `CartContext.AfterClear` | frontend/src/context/CartContext.tsx:78-87 | success leaves no lines and no summary; failure changes nothing and is rethrown |
| `CartContext.CartProvider.constructor` | frontend/src/context/CartContext.tsx:21-23 | the provider starts with no lines, no summary, not loading |
| `CartContext.CartProvider.RefreshCart` | frontend/src/context/CartContext.tsx:26-38 | the new fields are `AfterRefresh` of the old ones |
| `CartContext.CartProvider.AddItem` | frontend/src/context/CartContext.tsx:46-55 | the client is sent exactly `(materialId, quantity)`; the new fields and the rethrown error are `AfterAdd` of the old fields |
| `CartContext.CartProvider.UpdateItem` | frontend/src/context/CartContext.tsx:57-65 | the client is sent exactly `(itemId, quantity)`; the new fields and the rethrown error are `AfterUpdate` of the old fields |
| `CartContext.CartProvider.RemoveItem` | frontend/src/context/CartContext.tsx:67-76 | the new fields and the rethrown error are `AfterRemove` of the old fields |
| `CartContext.CartProvider.ClearCart` | frontend/src/context/CartContext.tsx:78-87 | the new fields and the rethrown error are `AfterClear` of the old fields |
| `CartPage.Requested` | frontend/src/pages/Cart.tsx:128-146 | the quantity each control asks for: one less, one more, or `parseInt(text) \|\| 1` for typed text (so NaN and 0 ask for 1), never 0 when typed |
| `CartPage.SentQuantity` | frontend/src/pages/Cart.tsx:126-146 | with the guard at line 15: what is sent is always at least 1; Minus sends q-1 only from 2 up; Plus sends q+1 with no stock bound; NaN or 0 typed sends 1 |
| `CartPage.StepsKeepQuantityPositive` | frontend/src/pages/Cart.tsx:127-147 | from q >= 1, Plus sends q+1 and Minus from q+1 sends q back; Minus sends nothing exactly at q = 1 |
| `CartPage.CartScreen` | frontend/src/pages/Cart.tsx:44-84 | signed out wins over loading, loading over the empty view, and an empty list shows the empty view |
| `CartPage.TotalQty` | frontend/src/pages/Cart.tsx:191 | the "Total Qty" fold is non-negative for non-negative quantities and at least the item count ("Jumlah Item", line 186) when every quantity is at least 1 |
| `CartPage.TotalQtyConcat` | frontend/src/pages/Cart.tsx:191 | the fold is additive over concatenation |
| `CartPage.TotalQtyWithout` | frontend/src/pages/Cart.tsx:186-191 | removing a line never raises "Total Qty" when quantities are non-negative |
| `CartPage.CartPageView.constructor` | frontend/src/pages/Cart.tsx:12 | no id is marked at first |
| `CartPage.CartPageView.MarkUpdating` | frontend/src/pages/Cart.tsx:17 | adds exactly the id |
| `CartPage.CartPageView.UnmarkUpdating` | frontend/src/pages/Cart.tsx:21-25 | removes exactly the id |
| `CartPage.CartPageView.HandleUpdateQuantity` | frontend/src/pages/Cart.tsx:14-27 | below 1 nothing is sent; otherwise exactly `(itemId, newQuantity)` goes to the provider's update, the id is marked while the provider's update runs (`markedDuring`), and afterwards it is unmarked (even on failure) with other marks kept |
| `CartPage.CartPageView.HandleRemove` | frontend/src/pages/Cart.tsx:29-42 | only a confirmed removal reaches the provider; the id is marked while it runs (`markedDuring`) and unmarked afterwards |
| `ProductDetail.Adjusted` | frontend/src/pages/ProductDetail.tsx:173-192 | decrement is `max(1, q-1)`: never below 1, exactly q-1 from 2 up; increment is `min(stock, q+1)`: q+1 below the stock and exactly the stock from there; typed text is at least 1 and kept when it is at least 1 |
| `ProductDetail.ButtonsKeepQuantityInStock` | frontend/src/pages/ProductDetail.tsx:174-188 | any run of the two buttons keeps a quantity in [1, stock] |
| `ProductDetail.TypedInputCanExceedStock` | frontend/src/pages/ProductDetail.tsx:182 | a typed number above the stock is kept as is |
| `ProductDetail.Subtotal` | frontend/src/pages/ProductDetail.tsx:199 | zero units cost nothing, one unit costs the price, and the subtotal is non-negative for a non-negative price |
| `ProductDetail.SubtotalStep` | frontend/src/pages/ProductDetail.tsx:199 | each further unit adds exactly one unit's price |
| `ProductDetail.SubtotalWithinStock` | frontend/src/pages/ProductDetail.tsx:199 | for a quantity in [1, stock] the subtotal `price * quantity` lies between one unit's price and the whole stock's |
| `ProductDetail.HazardColor` | frontend/src/pages/ProductDetail.tsx:77-87 | the mapped class for the six known hazard classes, the gray default exactly for every other string |
| `ProductDetail.StockSections` | frontend/src/pages/ProductDetail.tsx:160-220 | controls exactly when stock > 0, the notice exactly when stock is 0, never both |
| `ProductDetail.DetailScreen` | frontend/src/pages/ProductDetail.tsx:60-75 | spinner while loading, error view for an error text or a missing material, details otherwise |
| `ProductDetail.ProductPage.constructor` | frontend/src/pages/ProductDetail.tsx:13-18 | initial state: no material, quantity 1, loading, no error |
| `ProductDetail.ProductPage.LoadMaterial` | frontend/src/pages/ProductDetail.tsx:23-37 | no route id: nothing; otherwise the material or 'Produk tidak ditemukan', and loading ends |
| `ProductDetail.ProductPage.Step` | frontend/src/pages/ProductDetail.tsx:173-192 | the quantity becomes `Adjusted` of the old one and the material's stock |
| `ProductDetail.ProductPage.HandleAddToCart` | frontend/src/pages/ProductDetail.tsx:39-58 | signed out or no material: nothing is sent; otherwise exactly the material's id and the current quantity go to the provider's add; success resets quantity to 1 and sets the success text; failure sets 'Gagal menambahkan ke keranjang'; busy ends false |
| `Checkout.OrderItems` | frontend/src/pages/Checkout.tsx:26-29 | same length and order as the cart, each line `(material_id, quantity)` of the cart line at the same index |
| `Checkout.OrderItemsConcat` | frontend/src/pages/Checkout.tsx:26-29 | the projection distributes over concatenation |
| `Checkout.AfterCheckout` | frontend/src/pages/Checkout.tsx:16-39 | the request carries the form and the projected cart; the cart changes only after the order and the clear both succeed, and then loses exactly its lines and summary; any failure, the clear's included, sets the server message or 'Checkout failed'; loading ends false |
| `Checkout.FailedCheckoutShowsError` | frontend/src/pages/Checkout.tsx:34-35 | every failed submission leaves a non-empty error text |
| `Checkout.CheckoutScreen` | frontend/src/pages/Checkout.tsx:41-57 | an empty cart shows the empty view instead of the form |
| `Checkout.CheckoutPage.constructor` | frontend/src/pages/Checkout.tsx:10-14 | delivery type starts as BUY, no error, not loading |
| `Checkout.CheckoutPage.SelectDeliveryType` | frontend/src/pages/Checkout.tsx:80-99 | the radio choice becomes the delivery type (only SUPPLY or BUY exist) |
| `Checkout.CheckoutPage.HandleCheckout` | frontend/src/pages/Checkout.tsx:16-39 | form, cart, request and navigation are `AfterCheckout` of the old form and cart |
| `AuthContext.IsAuthenticated` | frontend/src/context/AuthContext.tsx:75 | `!!user`: signed in exactly when a user object is present |
| `AuthContext.AfterSignIn` | frontend/src/context/AuthContext.tsx:38-64 | success sets the reply's user and clears the error; failure keeps the user, records the server message or the fallback and rethrows; loading ends false; `isAuthenticated` follows the user |
| `AuthContext.FailedSignInReportsError` | frontend/src/context/AuthContext.tsx:45-59 | failure always leaves an error text, 'Login failed' or 'Registration failed' without a server message |
| `AuthContext.AfterLogout` | frontend/src/context/AuthContext.tsx:66-69 | the user is null afterwards, nothing else changes |
| `AuthContext.AfterMountCheck` | frontend/src/context/AuthContext.tsx:23-36 | no (or an empty) stored token: nothing; a lookup sets the user; a failed lookup drops the token and the user |
| `AuthContext.MountCheckSettles` | frontend/src/context/AuthContext.tsx:30-33 | after a failed lookup a second check changes nothing |
| `AuthContext.AuthProvider.constructor` | frontend/src/context/AuthContext.tsx:18-20 | starts signed out, not loading, no error |
| `AuthContext.AuthProvider.CheckStoredToken` | frontend/src/context/AuthContext.tsx:23-36 | the new fields are `AfterMountCheck` of the old ones |
| `AuthContext.AuthProvider.Login` | frontend/src/context/AuthContext.tsx:38-50 | `AfterSignIn` with 'Login failed' |
| `AuthContext.AuthProvider.Register` | frontend/src/context/AuthContext.tsx:52-64 | `AfterSignIn` with 'Registration failed' |
| `AuthContext.AuthProvider.SignIn` | frontend/src/context/AuthContext.tsx:38-64 | the steps login and register share, tied to `AfterSignIn` |
| `AuthContext.AuthProvider.Logout` | frontend/src/context/AuthContext.tsx:66-69 | the new fields are `AfterLogout` of the old ones |
| `Dashboard.JsRemainder` | frontend/src/pages/Dashboard.tsx:103 | JavaScript `%`: the result differs from the dividend by a multiple of n and takes the dividend's sign, in [0, n) for non-negative and (-n, 0] for negative operands, which fixes it uniquely |
| `Dashboard.SmallRemainders` | frontend/src/pages/Dashboard.tsx:103 | an index below n is kept and n wraps to 0 (the cases `NextSlide` uses on a valid index) |
| `Dashboard.NextSlide` | frontend/src/pages/Dashboard.tsx:102-104 | stays in [0, n), moves one forward and wraps n-1 to 0 |
| `Dashboard.PrevSlide` | frontend/src/pages/Dashboard.tsx:106-108 | stays in [0, n), moves one back and wraps 0 to n-1 |
| `Dashboard.NextPrevInverse` | frontend/src/pages/Dashboard.tsx:102-108 | previous undoes next and next undoes previous |
| `Dashboard.NextTimesWraps` | frontend/src/pages/Dashboard.tsx:80-82 | k timer ticks (k at most n) move k slides forward, wrapping once |
| `Dashboard.FullRoundReturns` | frontend/src/pages/Dashboard.tsx:80-82 | n ticks return to the starting slide |
| `Dashboard.VisibleSlides` | frontend/src/pages/Dashboard.tsx:119-123 | one flag per slide, and exactly the current slide is visible |
| `Dashboard.Featured` | frontend/src/pages/Dashboard.tsx:91 | at most 6 materials, the first ones in order |
| `Dashboard.DashboardPage.constructor` | frontend/src/pages/Dashboard.tsx:16-18 | slide 0, empty featured list, loading |
| `Dashboard.DashboardPage.Next` | frontend/src/pages/Dashboard.tsx:102-104 | the slide becomes `NextSlide` of the old one and stays in range |
| `Dashboard.DashboardPage.AutoAdvance` | frontend/src/pages/Dashboard.tsx:79-84 | the timer callback does what next does |
| `Dashboard.DashboardPage.Prev` | frontend/src/pages/Dashboard.tsx:106-108 | the slide becomes `PrevSlide` of the old one and stays in range |
| `Dashboard.DashboardPage.Select` | frontend/src/pages/Dashboard.tsx:152-155 | an indicator sets the slide to its own index |
| `Dashboard.DashboardPage.LoadFeatured` | frontend/src/pages/Dashboard.tsx:87-100 | success shows `Featured` of the fetched list, failure keeps the list; loading ends |
| `StockApi.Ping` | app/index.ts:13 | `/ping` answers 'Backend API RUNNING' |
| `StockApi.UpperChar` | app/index.ts:29 | lower-case ASCII letters map to their capitals, long s to S, and every other character, capitals included, is kept |
| `StockApi.Upper` | app/index.ts:29 | upper-casing keeps the length and maps every character |
| `StockApi.UpperIsDesc` | app/index.ts:29 | upper-casing yields "DESC" exactly for the spellings d/D, e/E, s/S/U+017F, c/C |
| `StockApi.SortOrder` | app/index.ts:28-31 | 'DESC' exactly when `order` upper-cases to DESC, 'ASC' otherwise, absent included |
| `StockApi.HasFilter` | app/index.ts:42 | `if (id)`: a filter exactly when an id is present and non-empty |
| `StockApi.Filter` | app/index.ts:42-44 | the WHERE clause is empty exactly without a filter, and otherwise is the prefix followed by the id verbatim |
| `StockApi.ViewStockQuery` | app/index.ts:33-46 | the query's length is the join's, the filter clause's and the ORDER BY's together |
| `StockApi.QueryShape` | app/index.ts:33-46 | every query starts with the fixed storage/material join and ends with `ORDER BY s.quantity <dir>` |
| `StockApi.BuildViewStockQuery` | app/index.ts:33-46 | the appended query equals `ViewStockQuery` |
| `StockApi.DecodeInvertsQuery` | app/index.ts:42-46 | the query decodes back to the id, verbatim when truthy and empty otherwise, and the direction |
| `StockApi.FilterDecodes` | app/index.ts:42-44 | the filter clause reads back as the id's filter text |
| `StockApi.DecodeParts` | app/index.ts:33-46 | a query made of the join, a readable middle and an ORDER BY decodes to that middle and direction |
| `StockApi.QueryDeterminesInputs` | app/index.ts:42-46 | two requests give the same SQL only with the same filter text and direction |
| `StockApi.ViewStock` | app/index.ts:25-54 | the rows of the query, or `{error: true, message: 'INVALID QUERY'}` when the database rejects it |
| `StockApi.MaterialsAsWritten` | app/index.ts:14-23 | the handler returns nothing, whatever the database does |
| `StockApi.Materials` | app/index.ts:14-23 | with the result awaited and returned: the rows, or the error body on rejection |
| `StockApi.MaterialsDropsRows` | app/index.ts:16 | when the database has rows, the handler as written and the corrected one differ |

## Findings

| source | as written | input that shows it | evidently intended | confidence | as-written member | corrected member |
|---|---|---|---|---|---|---|
| app/index.ts:16 | `sql.executeQuery('SELECT * FROM material')` goes to an unused `result`; it is neither awaited nor returned | any `GET /materials` while the database answers with rows | await the query and return its rows; a rejection then reaches the `catch` and gives the error body | high (not executed) | `StockApi.MaterialsAsWritten` (shown by `StockApi.MaterialsDropsRows`) | `StockApi.Materials` |

## Left out

- REST clients and HTTP: each awaited call is a `Call<T>` parameter; status codes, headers and JSON parsing are not modelled.
- The database gateway (app/classes/sql_query.ts) is not part of this model: connection set-up, the `.env` configuration and the unreachable reconnect. Its query results are the `db` parameter.
- The product list page (frontend/src/pages/Products.tsx) is not part of this model. It fetches and renders, and its filters go to a client that is not shown.
- React mechanics are not modelled: rendering, markup and CSS, effect scheduling, and the stale `items` captured by `addItem`/`removeItem`. Handlers run one at a time; concurrent handlers would interleave their updates.
- Disabled buttons while an id is marked are rendering only. The typed quantity field is never disabled.
- Timers: the five-second carousel interval is the `AutoAdvance` method; the three-second `setTimeout` that clears the add-to-cart success text is not modelled.
- `window.confirm` is the `confirmed` parameter. The `alert` shown to a signed-out user is the `NotSignedIn` result.
- Storage: `localStorage`'s `auth_token` is the `token` field. Whatever `authAPI.login`, `authAPI.register` and `authAPI.logout` do to storage is unseen, so `AfterSignIn` and `AfterLogout` leave the token as it was; the context reads it back only on mount.
- Navigation: only the checkout's confirmation path is returned; other `navigate` calls are left out.
- Numbers: prices, stock and quantities are integers. `toLocaleString` formatting and floating point are left out. `parseInt` appears as its result (`None` for NaN).
- The cart summary's `total` is shown as the server sent it. No client code adds up line subtotals, so no such property is stated.
- Request parsing: `id` and `order` are optional strings. A repeated query parameter, which would not be a string, is not modelled.
- The root route `/`, which returns nothing, and console logging are left out.
- The browser's `required` check on the delivery address happens before submit and is not modelled.
- StockApi.UpperChar: `toUpperCase` is modelled only for ASCII letters and U+017F (long s). Every other character is left unchanged, which ignores other Unicode case mappings, including ones that change the length.
- ProductDetail.HazardColor: looking up a key such as "constructor" or "toString" finds a property inherited from `Object.prototype`, which is truthy. The source would return that value; the model returns the gray default for every name outside the six.
