# Art Bazaar storefront core, in Dafny

Art Bazaar is a storefront for artworks. Its pages keep a shopping cart in a hosted `cart` table. Checkout adds 18% GST, rounds the total to whole rupees, and asks a small Express relay for a Razorpay order. The relay converts the amount to paise. After payment, the browser stores an `orders` row and one `order_items` row per cart row, then empties the buyer's cart. The relay's `/verify` endpoint checks Razorpay's payment signature, which is an HMAC-SHA256 of `order_id|payment_id`.

This project models that core:

- `store.dfy` (module `Store`): the shared values. These are the ids, a table query's result (`QueryError` or `Data`), and a cart row joined with its artwork (`CartLine`).
- `amounts.dfy` (module `Amounts`): the money rules.
  - The subtotal Σ price × quantity, as a function and as the accumulating loop both pages run.
  - The GST summary.
  - `Math.round`.
  - The rounded checkout total.
  - Money is an exact `real`.
- `cart_table.dfy` (module `CartTable`): the `cart` table as a class over a sequence of rows.
  - Add to cart (an upsert), change quantity, remove a row, clear a user's cart, and the cart badge count.
  - Each method is tied to a function on rows. Lemmas state what those functions preserve: quantities stay positive, ids stay unique, there is at most one row per (user, artwork), and no other row changes.
- `cart_page.dfy` (module `CartPage`): which view `loadCart` ends in, and the summary it shows.
- `navbar.dfy` (module `Navbar`): the role rule for the navbar's home link.
- `server.dfy` (module `Server`): the relay's two endpoints.
  - `/create-order` converts rupees to paise once, then calls the gateway.
  - `/verify` builds the signed message and applies the accept/reject rule.
  - The gateway and HMAC-SHA256 are function parameters, so nothing is assumed about what they compute.
- `checkout.dfy` (module `Checkout`):
  - `startPayment`: its guards, the totals, and the request it sends.
  - The `order_items` rows derived from the cart rows.
  - The `orders` and `order_items` tables as a class.
  - The payment callback that inserts the order and its items and clears the cart.

Points where the code's behaviour is easy to misread:

- `Math.round` sends halves toward +∞ (`Amounts.Round`). For a cart with non-negative prices and quantities the subtotal, and so the rounded amount, is non-negative (`Amounts.SubtotalNonNegative`). Nothing enforces non-negative prices, though: no price is checked before it is stored.
- The browser rounds the total to whole rupees (frontend/js/checkout.js:38) before the relay multiplies by 100 (backend/server.js:27), so the paise amount is always a multiple of 100. See `Checkout.ChargedPaise`.
- No price, quantity or amount is validated. The only guards are the login check and the empty-cart check.
- Order creation does not depend on the answer of `/verify`. See "## Findings".

## Model

| member | source | states |
|---|---|---|
| `Amounts.AccumulateSubtotal` | frontend/js/checkout.js:31-35 | the `forEach` loop that adds price × quantity line by line ends with the subtotal Σ price × quantity of all lines (the same loop as frontend/js/cart.js:61-67) |
| `Amounts.SubtotalAppend` | frontend/js/cart.js:61-67 | the subtotal of two runs of lines put together is the sum of their subtotals |
| `Amounts.SubtotalPermutation` | frontend/js/checkout.js:31-35 | any reordering of the cart rows gives the same subtotal |
| `Amounts.SubtotalNonNegative` | frontend/js/checkout.js:31-35 | prices and quantities that are not negative give a subtotal that is not negative |
| `Amounts.OrderSummary` | frontend/js/cart.js:99-112 | GST is the total minus the subtotal, the total is exactly 1.18 × subtotal, and for a subtotal ≥ 0 the GST lies between 0 and the total |
| `Amounts.Round` | frontend/js/checkout.js:38 | `Math.round(x)` is the integer n with n − ½ ≤ x < n + ½, so halves round up |
| `Amounts.RoundUnique` | frontend/js/checkout.js:38 | that integer is unique: any n within half a unit in that sense is `Round(x)` |
| `Amounts.CheckoutTotal` | frontend/js/checkout.js:37-38 | the checkout total is the whole number of rupees nearest to 1.18 × subtotal, rounding halves up, and it is ≥ 0 for a subtotal ≥ 0 |
| `CartTable.FindId` | frontend/js/cart.js:143-147 | the `.eq("id", cartId).single()` lookup gives a position holding that id, and finds nothing exactly when no row has it |
| `CartTable.FindPair` | frontend/js/marketplace.js:105-110 | the `.eq("user_id").eq("artwork_id").maybeSingle()` lookup gives a row of that user for that artwork, and finds nothing exactly when there is none |
| `CartTable.AddIncrementsExisting` | frontend/js/marketplace.js:112-116 | when the user already has a row for the artwork, add to cart raises that row's quantity by exactly 1 in place and leaves every other row as it was, in order |
| `CartTable.AddInsertsNew` | frontend/js/marketplace.js:117-124 | when the user has no row for the artwork, add to cart appends one row (fresh id, that user, that artwork, quantity 1) and changes nothing else |
| `CartTable.AddKeepsWellFormed` | frontend/js/marketplace.js:104-125 | after add to cart, quantities are still positive, ids still unique, and there is still at most one row per (user, artwork) |
| `CartTable.FailedLookupDuplicatesRow` | frontend/js/marketplace.js:105-124 | when the existence lookup fails for a user who already has a row for the artwork, the insert that follows leaves two rows for that user and artwork |
| `CartTable.AddRaisesCountByOne` | frontend/js/marketplace.js:112-124 | after add to cart, the user's item count is exactly one higher and every other user's count is unchanged |
| `CartTable.QuantityChangedAt` | frontend/js/cart.js:149-159 | change quantity on a row sets its quantity to old + delta when that is positive, and otherwise deletes the row; all other rows stay, in order |
| `CartTable.QuantityChangedKeepsWellFormed` | frontend/js/cart.js:151-159 | change quantity never leaves a row with quantity ≤ 0, and keeps ids unique and one row per (user, artwork) |
| `CartTable.QuantityChangedCount` | frontend/js/cart.js:141-163 | the owner's item count moves by delta, or drops by the row's whole quantity when the row is deleted; other users' counts are unchanged |
| `CartTable.RemoveDeletesExactlyThatRow` | frontend/js/cart.js:167-172 | a row survives removal exactly when its id is not `cartId`, and with unique ids exactly one row goes |
| `CartTable.ClearedForOnlyThatUser` | frontend/js/checkout.js:96-99 | after clearing, the buyer has no cart rows, and every other user's rows are exactly as before, in order |
| `CartTable.ClearedCartCountsZero` | frontend/js/checkout.js:96-99 | after the checkout's cart delete the buyer's cart count (the badge sum of frontend/js/cart.js:180-196) is 0, and every other user's count is unchanged |
| `CartTable.Table.AddToCart` | frontend/js/marketplace.js:89-129 | with no logged-in user the table is unchanged; otherwise the rows become the upsert of the user and artwork, and the invariant holds; a new id is used exactly when a new row is inserted |
| `CartTable.Table.ChangeQuantity` | frontend/js/cart.js:141-163 | the rows become the change-quantity result for that id and delta (deleting through `RemoveItem` at ≤ 0), a missing id changes nothing, and the invariant holds |
| `CartTable.Table.RemoveItem` | frontend/js/cart.js:167-176 | the rows become the table without the row of that id, and the invariant holds |
| `CartTable.Table.ClearCart` | frontend/js/checkout.js:96-99 | the rows become the table without any row of that user, and the invariant holds |
| `CartTable.Table.LoadCartCount` | frontend/js/marketplace.js:40-55 | no badge value without a user or without data; otherwise the badge is the sum of the user's quantities (the same rule as frontend/js/cart.js:180-196) |
| `CartPage.LoadCart` | frontend/js/cart.js:11-95 | exactly one view per case: login redirect without a user, a stop on a query error, the marketplace redirect for an empty cart after payment, the empty-cart alert otherwise, and for a non-empty cart a summary of all rows that is exactly the order summary of their subtotal Σ price × quantity: GST 0.18 × subtotal and total 1.18 × subtotal |
| `Navbar.HomeLink` | frontend/js/marketplace.js:13-35 | without a user or a `users` row the link is left alone; otherwise it is Dashboard/dashboard.html exactly when the role is "artist", and Home/index.html exactly when it is not |
| `Server.ToPaise` | backend/server.js:28 | the paise amount is the integer nearest to 100 × rupees, rounding halves up |
| `Server.WholeRupeesToPaise` | backend/server.js:28 | a whole rupee amount becomes exactly 100 × that many paise, and dividing by 100 gives the rupees back |
| `Server.OrderRequest` | backend/server.js:28-36 | the gateway is asked for the paise amount nearest to 100 × the rupee amount, with currency "INR"; for whole rupees that is exactly 100 × rupees |
| `Server.CreateOrder` | backend/server.js:23-43 | `/create-order` succeeds exactly when the gateway creates the order and returns that order unchanged; a gateway failure becomes 500 with "Order creation failed" and the gateway's message as `details` |
| `Server.SignedMessage` | backend/server.js:48 | the signed message is the order id, one bar character, then the payment id |
| `Server.SignedMessageInjective` | backend/server.js:48 | when order ids contain no bar character, two (order, payment) pairs give the same message only if they are the same pair |
| `Server.SignedMessageAmbiguous` | backend/server.js:48 | without that condition, two different pairs can give the same message |
| `Server.Verify` | backend/server.js:45-60 | `/verify` answers 200 with success exactly when HMAC(secret, message) equals the supplied signature, and 400 with failure otherwise; as a function it depends only on its inputs and changes nothing |
| `Checkout.StartPayment` | frontend/js/checkout.js:1-47 | no user stops the flow, and an empty or failed cart query stops it before any order is requested; a rejected `/create-order` request stops it with the total already computed; otherwise the session keeps the buyer and the cart rows, the total is the whole-rupee rounding of 1.18 × subtotal, that rupee total (not paise) goes to `/create-order`, and the gateway is asked for exactly 100 × total paise |
| `Checkout.ChargedPaise` | frontend/js/checkout.js:37-44 | for any cart, the gateway is asked for a multiple of 100 paise within 50 paise of 118 × subtotal |
| `Checkout.TwoPiecesAtThousandRupees` | frontend/js/checkout.js:31-44 | two pieces at ₹1000 give subtotal 2000, GST 360, total 2360, and 236000 paise at the gateway |
| `Checkout.OrderItems` | frontend/js/checkout.js:85-91 | one item per cart row, in the same order; each item carries the new order id and copies artwork id, artist id, price and quantity |
| `Checkout.OrderItemsKeepSubtotal` | frontend/js/checkout.js:85-93 | the stored items of an order add up to the subtotal its total was computed from |
| `Checkout.StoringOrderKeepsConsistent` | frontend/js/checkout.js:65-93 | storing an order under the next id, with items that carry that id only, keeps order ids unique and below the next id, and keeps every item pointing at a stored order |
| `Checkout.OrderTables.CompletePayment` | frontend/js/checkout.js:56-103 | a rejected `/verify` request or a failed order insert changes nothing; otherwise one order with the session's total and status "paid" is appended, its items are appended unless their insert fails, and the buyer's cart is cleared unless its delete fails, whatever became of the items; unique order ids, and every item pointing at a stored order, are preserved; the confirmation plays no part |
| `Checkout.OrderTables.CompleteVerifiedPayment` | frontend/js/checkout.js:56-103 | the same callback with the insert gated on `/verify`: an order is stored only when the signature verifies, and a confirmation that fails verification changes nothing |
| `Checkout.ForgedConfirmationStored` | frontend/js/checkout.js:59-72 | as written, a confirmation whose signature does not verify still leaves a stored order with status "paid" |
| `Checkout.ForgedConfirmationRefused` | frontend/js/checkout.js:59-72 | with the gate, that same confirmation leaves no order |

## Findings

| source | as written | input that shows it | evidently intended | confidence | as-written member | corrected member |
|---|---|---|---|---|---|---|
| frontend/js/checkout.js:59-72 | the payment callback posts the confirmation to `/verify` but never reads the answer. It then stores an order with status "paid" and clears the cart. | any confirmation whose signature is not HMAC(secret, order id and payment id joined by a bar character) | store the order and clear the cart only when `/verify` answers success | medium (a check whose answer is never read protects nothing); not executed | `Checkout.ForgedConfirmationStored` | `Checkout.OrderTables.CompleteVerifiedPayment` |

## Left out

- DOM rendering, `innerHTML` templates, alerts, console logging, `toLocaleString` formatting and `sessionStorage` are not modelled. The only part kept is which branch a handler takes (`CartPage.View`, `Checkout.Started`).
- Supabase authentication is not modelled. The logged-in user is an `Option` parameter.
- Queries are not derived from the tables. The joined cart query (`cart` with `artworks`) reaches `CartPage.LoadCart` and `Checkout.StartPayment` as a parameter.
- Failures of the badge query are a boolean parameter of `CartTable.Table.LoadCartCount`. In the checkout, a rejected `/create-order` request is a boolean parameter of `Checkout.StartPayment`. The success callback's failures are the fields of `Checkout.CallbackFailures`: a rejected `/verify` request, the order insert, the `order_items` insert and the cart delete.
- The cart writes of the marketplace and cart pages are assumed to succeed. Their errors are never read, and a failed write leaves the table as it was. This covers the add-to-cart update and insert (frontend/js/marketplace.js:113-124), the quantity update (frontend/js/cart.js:156-159) and the row delete (frontend/js/cart.js:169-172). `CartTable.Table.AddToCart`, `ChangeQuantity` and `RemoveItem` always apply their change.
- `CartTable.Table.AddToCart` assumes the existence lookup succeeds. The handler keeps only that lookup's `data` (frontend/js/marketplace.js:105-110). After any failed lookup it therefore skips the increment and inserts a new row (frontend/js/marketplace.js:117-124). For a user who already has a row for the artwork, this leaves the old quantity unchanged and adds a second row, which breaks the one-row-per-(user, artwork) invariant (`CartTable.FailedLookupDuplicatesRow`). The method keeps that invariant, so it does not model this path.
- Database-issued ids are counters (`nextId`, `nextOrderId`).
- `CartTable.FindPair` returns the first matching row. `.maybeSingle()` reports an error when two rows match, and the handler would then insert another row. The table invariant allows at most one row per (user, artwork), so that case never arises in the model.
- `CartTable.Table.ChangeQuantity` stops without a change when no row has the id. In the page, the `.single()` read returns no data and the handler throws. The page reloads after each update (`loadCart`, `loadCartCount`); that reload is display only.
- Prices, GST and rounding use exact reals, so IEEE-754 effects of `price * quantity` and `* 0.18` are not modelled. A non-number `amount` sent to `/create-order` is not modelled either.
- HMAC-SHA256 and the Razorpay order API are function parameters. Their internals are not modelled, nor are the Razorpay SDK's payment form, the Express, CORS and `dotenv` setup, or a missing secret.
- `Server.Verify` models the comparison as plain equality. It does not model the comparison's timing.
- `async`/`await` interleavings and concurrent clicks are not modelled. Each handler is one sequential step.
- frontend/js/dashboard.js, frontend/js/auth.js and frontend/js/artworks.js are not part of this model. They hold role redirects, uploads and list rendering over the hosted service. The one computation, an average price for display, is not modelled.
