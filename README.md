# Storefront core: carts, orders and the catalog

This project models the server core of a small marketplace built on Express and
Mongoose, and the two state reducers of its React client.

- **Catalog.** A seller's products are listed with filters, sorting and pages.
  Fetching a product by id counts a view. The owner (or an admin) can update a
  product, uploading images, or soft-delete it.
- **Cart.** Each user has one cart, a list of lines. Each line has a product, a
  quantity, an optional variant and the price at the time it was added. The cart
  also keeps two stored totals, recomputed on every change.
- **Checkout** walks the requested items in order. For each item it checks the
  product, freezes its live price into an order line, and writes the new stock
  and sold counts back at once. A failure on a later item therefore keeps the
  writes of the earlier ones. It then builds the order (shipping fee, 10% tax,
  total) and saves it, stamping an order number in a save hook, and empties the
  cart.
- **Cancellation** returns each line's quantity to stock. **Status updates** are
  for admins. The **listings** page the caller's orders or a seller's.
- **Client.** `authReducer` and `cartReducer` are the two pure step functions.

The database is a `Store.Db` object. It holds products and orders as value maps,
and carts as `CartModel.Cart` objects that the cart handlers update in place.
`Db.Valid` is what every successful save establishes:

- every product passes its schema validators;
- orders are valid and their numbers are distinct;
- each cart's lines have quantity at least 1 and its totals are current.

Each handler is a method proved against a pure function of the state before the
request (`AddLines`, `WalkItems`, `Restock`, `StatusUpdate`, `ProductUpdate`,
...). The lemmas beside those functions state what the code promises. Among them:

- a cancel undoes a checkout;
- a failed checkout stops at the first refused item;
- stock moves to sold unit for unit;
- totals move by exactly the changed line;
- add then remove is a round trip;
- every reachable auth state that claims to be authenticated holds a user and a
  token.

The acting user's id and role, the clock, random text and new document ids are
inputs.

Three behaviours of the code worth knowing:

- Order lines are frozen from the live product named in the request, not copied
  from the cart.
- `sold` is not monotone: a cancel decrements it.
- Variant-level price and stock are declared but never consulted; only the
  product's own price and stock are used.

## Model

| member | source | states |
|---|---|---|
| Common.Filter | routes/orders.js:293 | every kept element is in the input and accepted, and every accepted element is kept |
| Common.FilterAppend | routes/orders.js:293 | filtering a concatenation filters each part in turn, so kept elements stay in their original order and multiplicity |
| Common.FilterSingle | routes/orders.js:293 | a single element is kept exactly when the predicate accepts it |
| Common.FilterKeepsAll | routes/orders.js:293 | when every element is accepted the result is the input unchanged |
| Common.Pages | routes/products.js:104 | ceil(total / limit): for a positive limit the least page count whose pages cover the total; for a negative limit the ceiling of a negative quotient, a count of at most 0; no number for a zero limit |
| Common.Window | routes/products.js:88-95 | skip then limit over sorted results: negative skip is an error, limit 0 means all, a negative limit counts as its absolute value, and the result is a contiguous slice |
| Common.WindowFinds | routes/products.js:88-95 | with a positive limit, element i of the results is entry i mod limit of the page that skips (i div limit) × limit, so no result is lost between pages |
| Common.OwnerOrAdmin | routes/products.js:223-232 | intended authorization: passes exactly the owner or an admin, otherwise 403 |
| Common.OwnerOrAdminAsWritten | routes/orders.js:155-164 | as written: only the owner passes; anyone else reaches the unimported `User` and gets 500 |
| Common.AdminLockedOutAsWritten | routes/products.js:273-282 | an admin who is not the owner gets 500 as written but is admitted by the intended check |
| Common.AdminOnly | routes/orders.js:183-190 | intended admin check: passes exactly admins, otherwise 403 |
| Common.AdminOnlyAsWritten | routes/orders.js:184 | as written every caller gets 500 before the role is read |
| Common.StatusUpdateUnreachableAsWritten | routes/orders.js:183-190 | no role gets past the check as written, while the intended one admits exactly admins |
| ProductModel.ParseCondition | models/Product.js:43-47 | the condition enum accepts exactly the five names |
| ProductModel.Trim | models/Product.js:4-8 | the `trim: true` setter: the result is no longer than the text, empty exactly when the text is all white space, and otherwise starts and ends with a non-blank character |
| ProductModel.TrimIsSlice | models/Product.js:4-8 | the trim is the slice of the text that starts where the leading white space ends |
| ProductModel.TrimDropsOnlyBlanks | models/Product.js:4-8 | everything before and after that slice is white space |
| ProductModel.TrimUnpadded | models/Product.js:27-34 | text that neither starts nor ends with white space is its own trim |
| ProductModel.TrimIdempotent | models/Product.js:27-34 | trimming twice is trimming once |
| ProductModel.NewProduct | models/Product.js:4-105 | a new product stores its name trimmed and takes the schema defaults (condition new, stock and sold 0, rating 0, active, not featured, 0 views, no free shipping, no subcategory or brand); it validates iff the trimmed name, description and thumbnail are non-empty, the price is at least 0 and no image is empty |
| ProductModel.NewProductTrimmed | models/Product.js:4-34 | a new product already has its name, subcategory and brand trimmed |
| OrderModel.ParsePaymentMethod | models/Order.js:76-80 | accepts exactly the five payment method names |
| OrderModel.ParseOrderStatus | models/Order.js:86-90 | accepts exactly the six order status names |
| OrderModel.NewOrder | models/Order.js:81-110 | a new order has no number, both statuses pending, no tracking or delivery date; fee, tax and discount are the given values, 0 when not given; address, payment method, notes and estimated delivery are the given ones |
| OrderModel.Decimal | models/Order.js:130 | `Date.now()` as text: at least one digit, all digits, no leading zero |
| OrderModel.DecimalRoundTrip | models/Order.js:130 | reading the digits back gives the timestamp |
| OrderModel.GenerateOrderNumber | models/Order.js:130 | "ORD", then the timestamp digits, then at most 5 upper-case base-36 characters |
| OrderModel.OrderNumberEncodesTimestamp | models/Order.js:130 | the timestamp is recoverable from every generated order number |
| OrderModel.AssignOrderNumber | models/Order.js:128-133 | the hook gives a number only to an order without one, never replaces one, and changes nothing else |
| OrderModel.SaveOrder | models/Order.js:66-70 | intended save: succeeds iff the stamped order is valid and its number is not taken; the saved order is the stamped one |
| OrderModel.SaveOrderAsWritten | models/Order.js:128-133 | as Mongoose runs it: the order must validate before the hook stamps it |
| OrderModel.UnnumberedOrderNeverSavesAsWritten | routes/orders.js:65-79 | an order without a number never saves as written, yet saves under the intended order whenever valid and unique |
| OrderModel.SaveKeepsOrdersValid | models/Order.js:66-70 | saving a new order keeps all stored orders valid with distinct numbers |
| OrderModel.ResaveKeepsOrdersValid | routes/orders.js:258-259 | re-saving an order under its own number keeps the stored orders valid |
| CartModel.LineAmountGrows | models/Cart.js:47-49 | raising a line's quantity by q raises its amount by q at the line price |
| CartModel.TotalsAppend | models/Cart.js:46-54 | both totals are additive over concatenation |
| CartModel.TotalsWithout | models/Cart.js:46-54 | taking out one line lowers each total by exactly that line's share |
| CartModel.TotalsReplace | models/Cart.js:46-54 | replacing one line moves each total by the difference of the two lines |
| CartModel.TotalsGrowLine | models/Cart.js:46-54 | growing one line by q adds q to the count and q × price to the amount |
| CartModel.TotalsAddLine | models/Cart.js:46-54 | appending a line adds its quantity and amount |
| CartModel.CountBounds | models/Cart.js:51-53 | with valid lines the item count is at least the number of lines, and 0 exactly for an empty cart |
| CartModel.Cart.constructor | models/Cart.js:25-40 | a new cart belongs to its user, is empty, and both totals default to 0 |
| CartModel.Cart.CalculateTotals | models/Cart.js:46-54 | totals become the sums over the current lines; lines untouched |
| CartRoutes.FindLine | routes/cart.js:59-62 | the first line with the product and (no variant given or the same variant), or -1 when none matches |
| CartRoutes.SaveLines | models/Cart.js:9-14 | the save succeeds iff every line has quantity at least 1, otherwise 500 |
| CartRoutes.AddLines | routes/cart.js:37-82 | 404 iff the product is missing or inactive; 400 iff the requested or the merged quantity exceeds stock; 500 iff the resulting lines fail validation; success in every other case, where a matching line grows by the quantity with the others kept, or a line at the live price is appended |
| CartRoutes.AddTotals | routes/cart.js:84-85 | an add raises the item count by the quantity and the amount by the quantity at the charged price |
| CartRoutes.AddRejectsNonPositiveLine | routes/cart.js:34-50 | a new line with quantity below 1 passes the handler's checks and fails only at save (500) |
| CartRoutes.AddCanShrinkLine | routes/cart.js:64-73 | a negative quantity on a matching line lowers it, since add has no lower bound |
| CartRoutes.UpdateLines | routes/cart.js:109-153 | the five failures in the handler's order, each as an iff, and success exactly when every check passes; on success only the matched line's quantity is set |
| CartRoutes.UpdateKeepsOtherLines | routes/cart.js:141-154 | update keeps the price snapshot and all other lines and moves totals by that line's change only |
| CartRoutes.RemoveLine | routes/cart.js:177-198 | 404 iff no cart or no matching line; otherwise exactly the first matching line is removed, order kept |
| CartRoutes.RemoveTotals | routes/cart.js:198-199 | removal lowers the totals by exactly the removed line and keeps lines valid |
| CartRoutes.AddThenRemove | routes/cart.js:186-198 | adding a product with no line in the cart, then removing it, restores the original lines |
| CartRoutes.GetCart | routes/cart.js:11-17 | returns the user's cart, creating an empty one only when missing; nothing else changes |
| CartRoutes.Add | routes/cart.js:32-86 | the stored lines become AddLines' result, or stay as they were on failure; totals stay current |
| CartRoutes.StoreCart | routes/cart.js:84-86 | the cart gets the new lines and totals equal to their sums, and is kept under its user; nothing else in the store changes |
| CartRoutes.Update | routes/cart.js:105-155 | the stored lines become UpdateLines' result, or stay as they were on failure; totals stay current |
| CartRoutes.Remove | routes/cart.js:173-200 | the stored lines become RemoveLine's result, or stay as they were on failure; totals stay current |
| CartRoutes.Clear | routes/cart.js:218-230 | 404 without a cart, otherwise an empty cart with both totals 0 |
| CartRoutes.GetSummary | routes/cart.js:246-268 | zeros without a cart; otherwise the totals equal the sums over the lines, and items ≥ lines |
| OrderRoutes.Reserve | routes/orders.js:24-55 | one item: 404 iff unavailable, 400 iff short stock, 500 iff the written product fails validation, success otherwise; on success stock −q and sold +q on that product only, and a line at the live price |
| OrderRoutes.WalkItems | routes/orders.js:23-56 | a completed walk has one line per requested item |
| OrderRoutes.ReserveKeepsCatalogValid | routes/orders.js:32-55 | from a valid catalog an accepted item's write never fails validation and keeps the catalog valid |
| OrderRoutes.ReserveChangesOnlyStock | routes/orders.js:53-55 | one accepted item changes only its own product's stock and sold |
| OrderRoutes.WalkChangesOnlyStock | routes/orders.js:53-55 | checkout, completed or stopped early, changes only stock and sold |
| OrderRoutes.WalkKeepsCatalogValid | routes/orders.js:32-55 | from a valid catalog checkout never makes stock negative and never meets a failed product save |
| OrderRoutes.WalkLines | routes/orders.js:40-50 | each line is frozen from the product as it was before checkout, and subtotal = Σ price × quantity |
| OrderRoutes.WalkMovesStockToSold | routes/orders.js:53-54 | each product's stock falls and sold rises by exactly the units of it ordered |
| OrderRoutes.WalkStopsAtFirstFailure | routes/orders.js:23-37 | a failed checkout stops at the first refused item, reports its failure, and keeps the earlier items' writes |
| OrderRoutes.ShippingFee | routes/orders.js:59 | 15000 exactly for cash on delivery, otherwise 0 |
| OrderRoutes.CheckoutOrder | routes/orders.js:58-77 | the order: pending, unnumbered, no tracking number or delivery time, the request's address and notes, tax = subtotal / 10, discount 0, total = subtotal + fee + tax − discount, delivery a week on |
| OrderRoutes.PlaceOrder | routes/orders.js:65-79 | an unknown payment method is 500; the order is placed exactly when the method is known and the save succeeds; a placed order is the stamped checkout order, valid, with a fresh number |
| OrderRoutes.ReserveItem | routes/orders.js:24-55 | one pass of the loop writes the catalog and yields the line exactly as Reserve says, and writes nothing when the item is refused |
| OrderRoutes.ReserveAll | routes/orders.js:20-56 | the loop leaves the catalog, lines, subtotal and failure exactly as the walk specifies |
| OrderRoutes.Checkout | routes/orders.js:10-85 | catalog = the walk's; a failure is reported with earlier writes kept; otherwise the placed order is stored under the new id, the cart is emptied, and the store stays valid |
| OrderRoutes.SaveCheckoutOrder | routes/orders.js:58-79 | stores exactly PlaceOrder's order, or nothing on failure, keeping orders valid |
| OrderRoutes.EmptyCart | routes/orders.js:82-85 | an existing cart ends with no lines and zero totals; products, orders and the set of carts stay as they were |
| OrderRoutes.Restock | routes/orders.js:252-256 | restocking changes only stock and sold |
| OrderRoutes.RestockKeepsCatalogValid | routes/orders.js:252-256 | restocking a valid catalog with non-negative quantities keeps it valid |
| OrderRoutes.RestockEffect | routes/orders.js:252-256 | each product gets back to stock, and loses from sold, exactly its ordered units |
| OrderRoutes.RestockInverts | routes/orders.js:252-256 | when stock fell and sold rose by exactly each line's units, restocking those lines restores the catalog |
| OrderRoutes.CancelUndoesCheckout | routes/orders.js:251-256 | cancelling what a completed checkout ordered restores the catalog exactly |
| OrderRoutes.CancelCheck | routes/orders.js:227-249 | 404 iff missing, 403 iff not the owner, 400 iff shipped or delivered; the owner's order passes exactly when its status is any other |
| OrderRoutes.CancelTwiceRestocksTwice | routes/orders.js:244-258 | a cancelled order can be cancelled again, returning its units to stock twice |
| OrderRoutes.RestockAll | routes/orders.js:252-256 | the loop ends with Restock of the old catalog, which stays valid |
| OrderRoutes.Cancel | routes/orders.js:225-264 | on a refused check nothing changes; otherwise products are restocked and the order is stored as cancelled |
| OrderRoutes.SetStatus | routes/orders.js:200-207 | status set; tracking number only when given; delivery time only for delivered; nothing else changes |
| OrderRoutes.StatusUpdate | routes/orders.js:179-209 | 403 iff not admin, then 404 iff missing, then 500 iff the status is not in the enum; success exactly when all three pass, with SetStatus |
| OrderRoutes.AnyTransitionAllowed | routes/orders.js:200 | an admin can move any order to any status, cancelled ones included |
| OrderRoutes.UpdateStatus | routes/orders.js:179-215 | stores exactly StatusUpdate's order, or nothing on failure |
| OrderRoutes.ViewOrder | routes/orders.js:142-169 | 404 iff missing; visible iff owner or admin, else 403 |
| OrderRoutes.ListOrders | routes/orders.js:105-131 | page 1 and limit 10 when not given; an error iff the skip (page − 1) × limit is negative; otherwise the page is the skip/limit window of the caller's matching orders, newest first, total counts all matches, pages from the total, and current and limit echo the page and limit used |
| OrderRoutes.ListOrdersDefaults | routes/orders.js:107 | with neither page nor limit the request succeeds on page 1 with limit 10 and shows the first ten matching orders |
| OrderRoutes.ListOrdersShowsEveryMatch | routes/orders.js:105-121 | every matching order appears, on the page and at the position its rank determines |
| OrderRoutes.SellerOrders | routes/orders.js:275-309 | page 1 and limit 10 when not given; an error iff the skip is negative; otherwise the page is the skip/limit window of the seller's orders, status-filtered after paging, total ignores the status, and current and limit echo the page and limit used |
| OrderRoutes.SellerOrdersShowsEveryOrder | routes/orders.js:275-294 | without a status every one of the seller's orders appears, on the page and at the position its rank determines |
| OrderRoutes.SellerStatusFilterAfterPaging | routes/orders.js:286-298 | a concrete case where the filtered page is empty although a matching order exists |
| ProductRoutes.BuildFilter | routes/products.js:55-82 | selects exactly the active products meeting every given constraint; price bounds only when given; free shipping only for "true" |
| ProductRoutes.BuildSort | routes/products.js:84-86 | sort field defaults to createdAt; direction −1 iff sortOrder is "desc" (the default), else 1 |
| ProductRoutes.BuildQuery | routes/products.js:41-88 | page 1 and limit 20 by default, skip = (page − 1) × limit |
| ProductRoutes.ListProducts | routes/products.js:90-107 | the page is the skip/limit window of the selected products in sort order, each of them active and selected; total counts every selected product; pages from the total |
| ProductRoutes.ListProductsShowsEverySelected | routes/products.js:88-95 | every selected product appears, on the page and at the position its rank determines |
| ProductRoutes.Viewed | routes/products.js:132 | view count + 1, nothing else changes, validity kept |
| ProductRoutes.GetProduct | routes/products.js:118-138 | 404 iff missing or inactive, store unchanged; otherwise only that product's view count rises by 1 |
| ProductRoutes.Assign | routes/products.js:245 | each of the twenty fields the body carries replaces the product's, name, subcategory and brand trimmed by their setters; every field it omits is kept; an empty body changes nothing |
| ProductRoutes.AssignIdempotent | routes/products.js:245 | assigning the same body twice gives the same product as assigning it once, the trim included |
| ProductRoutes.AssignKeepsTrimmed | routes/products.js:245 | a product with trimmed name, subcategory and brand keeps them trimmed after any assignment |
| ProductRoutes.BlankNameRejected | routes/products.js:245-246 | a body whose name is white space alone makes the assigned product fail validation, so the save answers 500 |
| ProductRoutes.WithUploads | routes/products.js:237-243 | with uploads: images = existing + uploads; thumbnail = first upload unless the body gives one; otherwise the body unchanged |
| ProductRoutes.ProductUpdate | routes/products.js:212-246 | 404 iff missing (inactive included), 403 iff neither owner nor admin, 500 iff the assigned product, with its trimmed fields, fails validation; success exactly when all three pass, with the merged product |
| ProductRoutes.UploadsAppendImages | routes/products.js:237-243 | after an upload the old images come first, in order, followed by the uploads, and the thumbnail is non-empty |
| ProductRoutes.UpdateProduct | routes/products.js:212-252 | stores exactly ProductUpdate's product, or nothing on failure |
| ProductRoutes.DeleteProduct | routes/products.js:262-289 | 404 iff missing, 403 iff neither owner nor admin; otherwise the product stays, marked inactive |
| ProductRoutes.SoftDeleteHides | routes/products.js:284-285 | a deleted product is still stored and valid but unavailable to lookups and never listed |
| AuthReducer.Initial | client/src/contexts/AuthContext.tsx:34-39 | starts signed out, keeping the stored token |
| AuthReducer.Reduce | client/src/contexts/AuthContext.tsx:41-82 | each action changes exactly its fields; an unknown action changes nothing; consistency is preserved |
| AuthReducer.FailureIsLogout | client/src/contexts/AuthContext.tsx:53-68 | LOGIN_FAILURE and LOGOUT give the same state: no user, no token, idle, unauthenticated |
| AuthReducer.ReplayAppend | client/src/contexts/AuthContext.tsx:41-82 | dispatching a + b is dispatching a, then b |
| AuthReducer.ReplayPreserves | client/src/contexts/AuthContext.tsx:41-82 | any action sequence keeps "authenticated ⇒ user and token present" |
| AuthReducer.ReachableConsistent | client/src/contexts/AuthContext.tsx:34-82 | every state reachable from the initial state is consistent |
| AuthReducer.LogoutLast | client/src/contexts/AuthContext.tsx:61-68 | a final LOGOUT signs out whatever came before |
| CartReducer.Initial | client/src/contexts/CartContext.tsx:25-29 | no cart, idle, no error |
| CartReducer.Reduce | client/src/contexts/CartContext.tsx:31-44 | each action changes exactly its fields; the three request-ending actions clear loading |
| CartReducer.RequestSucceeds | client/src/contexts/CartContext.tsx:55-59 | loading then SET_CART yields that cart, idle, without error, from any state |
| CartReducer.RequestFails | client/src/contexts/CartContext.tsx:60-62 | loading then SET_ERROR keeps the previous cart and records the message |
| CartReducer.ClearLastResets | client/src/contexts/CartContext.tsx:39-40 | a final CLEAR_CART returns to the initial state whatever came before |

## Left out

- I/O, HTTP and JSON bodies are left out. Handlers take already-parsed parameters and return a `Result`. 400/403/404/500 become `Failure` values; response messages are not modelled.
- `populate` is left out. It only shapes replies.
- The `auth` middleware is left out. The acting user's id and role are inputs.
- The clock, `Math.random` and document ids are inputs, as are upload file names and the multer upload rules.
- MongoDB `$text` search is left out. Its outcome for each product is an input.
- Sorting is left out: listings take results already in sort order.
- `parseInt`/`parseFloat` of query strings is left out. Page, limit and price bounds arrive as numbers, and an absent page or limit takes the handler's default.
- Concurrency and the lack of transactions between handlers are left out. Each handler runs alone on the store.
- Floating point is left out. Money is exact `real`, so `subtotal * 0.1` is exactly a tenth.
- `CartRoutes.Add`, `CartRoutes.Update`, `CartRoutes.Remove` do not model the discarded in-memory cart of a failed save. They check the lines before writing, which leaves the store in the same state.
- `ProductRoutes.GetProduct`, `ProductRoutes.DeleteProduct` do not model a failed save. Changing the view count or the active flag cannot break a valid product, so that save cannot fail.
- `OrderRoutes.StatusUpdate` takes the new status as text and does not model a body without `orderStatus`. There, the handler assigns `undefined`, which unsets the field. The enum validator accepts an unset value, so the save succeeds (200) and the order is stored with no status. The model answers 500 for that request, as for any text outside the enum, because an order here always has a status.
- Malformed ids are left out. Ids are opaque map keys, so an id that is not a valid ObjectId is simply absent and answers 404. In the code, `findById` on such an id throws a cast error into the handler's catch, which answers 500. This concerns add and update in routes/cart.js, view, cancel and status in routes/orders.js, and get, update and delete in routes/products.js.
- `CartRoutes.Matches` compares variants as a two-field value. The code compares `JSON.stringify` texts (routes/cart.js:61, and the same test in update and remove), so key order and extra or missing keys decide the match. A request variant with the same name and option in another key order does not match the stored line, and an add then appends a second line.
- Quantities are `int`. In the code they are JavaScript numbers, so a fractional quantity such as 1.5 passes the schema's `min: 1` and is stored.
- `ProductRoutes.ProductUpdates` fields are typed. A body field of the wrong type or an out-of-enum condition, which Mongoose would reject on cast, is not representable.
- `Db.Valid` does not state the unique index on `Cart.user` beyond one cart per map key.
- The product create handler, the featured listing and the per-seller product listing in routes/products.js are left out, as are the category and user routes, models/User.js and models/Category.js. The core covers the catalog listing, fetch, update and delete only.
- Client UI pages, components and services are left out. They render, and call the server.

## Findings

| source | as written | input that shows it | evidently intended | confidence | as-written member | corrected member |
|---|---|---|---|---|---|---|
| routes/products.js:223-232 | `User.findById` is called but `User` is never imported, so any non-owner (admins included) gets 500 from the update and delete handlers and the order view (routes/orders.js:155-164, routes/products.js:273-282) | an admin requesting a product or order owned by someone else (`Common.AdminLockedOutAsWritten`) | the owner or an admin passes, anyone else gets 403 | not executed | Common.OwnerOrAdminAsWritten | Common.OwnerOrAdmin |
| routes/orders.js:183-190 | the status update calls `User.findById` without importing `User`, so every request ends in 500 | any role, admin included (`Common.StatusUpdateUnreachableAsWritten`) | admins may update the status, others get 403 | not executed | Common.AdminOnlyAsWritten | Common.AdminOnly |
| models/Order.js:128-133 | Mongoose validates before the schema's `pre('save')` hooks, so the required `orderNumber` is missing when checked and every checkout save fails | any order built by checkout, which has no number (`OrderModel.UnnumberedOrderNeverSavesAsWritten`) | the hook stamps the number, then the order is validated and saved | not executed | OrderModel.SaveOrderAsWritten | OrderModel.SaveOrder |
