# Shop services in Dafny

This project models the business rules of a shop's backend services: the
cart, checkout and order lifecycle, payments, the product catalogue and a
user's address book, order history and wishlist. The services of the
original system are NestJS classes over a Prisma database. Here every table
is a field of one store object (`Store.Db`): a map from ids to records plus
an id list for the row order that listings use. Each service operation is a
method on that store. It checks its guards in the source's order and
returns `Err(...)` for each refusal. When it succeeds, its contract states
the new contents of the tables it writes.

Removal in the original sets a deletion timestamp and never erases a row.
The model keeps a `deleted` flag on each record for that. Queries that
filter on "not deleted" test the flag, and queries that do not filter on it
(several do not) see removed rows too.

The store keeps one invariant, `Store.Db.Valid()`:
- SKUs and slugs are unique;
- every reference points at an existing row;
- each user has one cart;
- each (cart, product) pair has at most one live cart line;
- each order has at most one payment;
- each user has at most one default address.

Every state-changing method preserves it.

Files:
- `statuses.dfy`: the order status transition table and what it implies for runs of status changes.
- `entities.dfy`: the records, the error kinds and the result wrappers.
- `store.dfy`: the store and its invariant, cart-line loading, cart clearing and stock debit.
- `pricing.dfy`: line totals, subtotal, 18% tax, shipping, order items.
- `paging.dfy`: offset pagination.
- `cart.dfy`: `getCart`, `addItem`, `updateItemQuantity`, `removeItem`, `clearCart`.
- `orders.dfy`: checkout (`create`), the order queries, `updateStatus`, `cancel`.
- `payments.dfy`: payment intents, confirmation, webhooks, refunds and the payment queries.
- `catalog.dfy`: product and category creation, update, listing and deletion.
- `users.dfy`: addresses, order history, wishlist removal.

Ids that the database or a random generator would create are parameters that
the caller must supply fresh: the new cart, cart item, order, payment,
product, category and address ids, the order number and the random suffix
of a payment's external id. Money is `real`; the original computes in
floating point, which the model does not reproduce.

## Model

| member | source | states |
|---|---|---|
| Statuses.TerminalStatuses | apps/api/src/modules/order/order.service.ts:210-220 | exactly CANCELLED and REFUNDED have no successor |
| Statuses.NoSelfTransition | apps/api/src/modules/order/order.service.ts:210-220 | no status may move to itself |
| Statuses.TransitionDescends | apps/api/src/modules/order/order.service.ts:210-222 | every allowed move strictly lowers a height measure, so the table has no cycle |
| Statuses.CancellableByTable | apps/api/src/modules/order/order.service.ts:210-220 | the table allows CANCELLED exactly from PENDING, CONFIRMED and PROCESSING |
| Statuses.RefundOnlyAfterReturn | apps/api/src/modules/order/order.service.ts:210-220 | REFUNDED is reachable in one move only from RETURNED |
| Statuses.RunDescends | apps/api/src/modules/order/order.service.ts:201-231 | along any run of allowed moves the height strictly falls |
| Statuses.RunNeverRevisits | apps/api/src/modules/order/order.service.ts:201-231 | a run of allowed moves never returns to a status it has left |
| Statuses.TerminalEndsRun | apps/api/src/modules/order/order.service.ts:210-220 | a terminal status can only be the last of a run |
| Statuses.RunFits | apps/api/src/modules/order/order.service.ts:201-231 | a run is no longer than the height of its first status |
| Statuses.RunLength | apps/api/src/modules/order/order.service.ts:201-231 | no run of allowed moves has more than 8 statuses |
| Statuses.FulfilmentPathIsRun | apps/api/src/modules/order/order.service.ts:210-220 | PENDING through DELIVERED, RETURNED, REFUNDED is a run of allowed moves |
| Pricing.ShippingCost | apps/api/src/modules/order/order.service.ts:61 | shipping is 0 exactly when the subtotal exceeds 500, otherwise 50 |
| Pricing.OrderItems | apps/api/src/modules/order/order.service.ts:79-86 | one order item per cart line, in order, copying product id, quantity and current price, with total = price × quantity |
| Pricing.SubtotalAppend | apps/api/src/modules/order/order.service.ts:56-58 | the subtotal of two runs of lines is the sum of their subtotals |
| Pricing.ItemCountAppend | apps/api/src/modules/cart/cart.service.ts:60 | the item count of two runs of lines is the sum of their counts |
| Pricing.OrderItemsAddUp | apps/api/src/modules/order/order.service.ts:56-86 | the order items' totals add up to the cart subtotal |
| Pricing.SubtotalNonNegative | apps/api/src/modules/order/order.service.ts:56-58 | with non-negative prices and quantities the subtotal and item count are non-negative |
| Pricing.TotalBreakdown | apps/api/src/modules/order/order.service.ts:60-62 | tax is 18% of the subtotal; the total is 118% of the subtotal, plus 50 unless the subtotal exceeds 500 |
| Pricing.WorkedTotals | apps/api/src/modules/order/order.service.ts:56-62 | concrete totals: 2 × 999 gives 1998 + 359.64 tax + free shipping; 400 gives 522 |
| Paging.TotalPages | apps/api/src/modules/order/order.service.ts:153 | the page count is the least count of pages that holds all rows (the ceiling) |
| Paging.Window | apps/api/src/modules/order/order.service.ts:121-143 | skip/take returns at most `take` rows, each the row at `skip + k` |
| Paging.PageOf | apps/api/src/modules/order/order.service.ts:120-155 | the page reports total, page, page size and ceiling page count, holds the rows from `(page-1) × pageSize`, and is non-empty exactly when `page ≤ totalPages` |
| Paging.PageHoldsRowsIff | apps/api/src/modules/order/order.service.ts:121-153 | a page's offset is inside the rows exactly when the page number is at most the page count |
| Paging.RowOnItsPage | apps/api/src/modules/order/order.service.ts:121-143 | every row appears on page `i / pageSize + 1` at offset `i % pageSize` |
| Store.CartLines | apps/api/src/modules/cart/cart.service.ts:9-29 | every loaded line is an item of the cart joined with its product, in row order |
| Store.CartLinesComplete | apps/api/src/modules/cart/cart.service.ts:9-29 | every item of the cart whose product exists is loaded |
| Store.CartLinesDistinct | apps/api/src/modules/cart/cart.service.ts:9-29 | no item is loaded twice |
| Store.LiveOnly | apps/api/src/modules/order/order.service.ts:17-19 | keeps exactly the lines that are not removed |
| Store.LiveLinesDistinctProducts | apps/api/src/modules/cart/cart.service.ts:93-120 | the live lines of a cart are for distinct products |
| Store.RequantifyKeepsCarts | apps/api/src/modules/cart/cart.service.ts:157-160 | changing a line's quantity keeps the cart constraints |
| Store.RemoveKeepsCarts | apps/api/src/modules/cart/cart.service.ts:186-189 | removing a line keeps the cart constraints |
| Store.AppendKeepsCarts | apps/api/src/modules/cart/cart.service.ts:113-119 | adding a line for a product with no live line keeps the cart constraints and the row index |
| Store.Cleared | apps/api/src/modules/order/order.service.ts:112-115 | marks every item of the cart removed and leaves every other item as it was |
| Store.ClearedKeepsCarts | apps/api/src/modules/cart/cart.service.ts:203-206 | clearing a cart keeps the cart constraints |
| Store.ClearedCartHasNoLiveLines | apps/api/src/modules/order/order.service.ts:112-115 | after clearing, the cart has no live line |
| Store.Debit | apps/api/src/modules/order/order.service.ts:99-110 | the debit keeps the set of products |
| Store.DebitWithinStock | apps/api/src/modules/order/order.service.ts:99-110 | with distinct products, each bought product's stock drops by its line quantity and every other product is unchanged |
| CartService.ViewOf | apps/api/src/modules/cart/cart.service.ts:8-64 | the view of the cart with at most one line per row (as written: removed lines included) |
| CartService.LiveViewOf | apps/api/src/modules/cart/cart.service.ts:8-64 | the view holds only live lines of the cart, each loaded from the store |
| CartService.ClearedViewUnchanged | apps/api/src/modules/cart/cart.service.ts:194-210 | as written, the view after `clearCart` reports the same subtotal, item count and line count as before |
| CartService.ClearedLiveViewEmpty | apps/api/src/modules/cart/cart.service.ts:194-210 | the live view of a cleared cart has no lines, subtotal 0 and item count 0 |
| CartService.ClearedTwice | apps/api/src/modules/cart/cart.service.ts:203-206 | clearing is idempotent |
| CartService.FindLiveLine | apps/api/src/modules/cart/cart.service.ts:93-99 | finds a live line of the product in the cart, or reports that there is none |
| CartService.FindsTheLiveLine | apps/api/src/modules/cart/cart.service.ts:93-99 | in a valid store the search finds the one live line there is |
| CartService.PutLine | apps/api/src/modules/cart/cart.service.ts:101-120 | the only refusal of the line step is insufficient stock |
| CartService.PutLineAddsQuantity | apps/api/src/modules/cart/cart.service.ts:101-120 | refused exactly when a line exists and the merged quantity exceeds the stock; otherwise the cart then holds the old quantity plus `quantity` |
| CartService.PutLineKeepsCarts | apps/api/src/modules/cart/cart.service.ts:93-120 | the line step keeps at most one live line per product |
| CartService.PutLineKeepsPositive | apps/api/src/modules/cart/cart.service.ts:101-120 | with a positive quantity every live line keeps at least one unit |
| CartService.PutLineAcceptsNegative | apps/api/src/modules/cart/cart.service.ts:66-81 | a quantity of −3 passes the stock check and becomes a live line of −3 units, counted by the view |
| CartService.CartAfterLazyCreate | apps/api/src/modules/cart/cart.service.ts:83-91 | the user has a cart afterwards, and an existing cart is kept |
| CartService.EnsureCart | apps/api/src/modules/cart/cart.service.ts:83-91 | returns the user's cart, creating an empty one only if none exists |
| CartService.NoLinesInFreshCart | apps/api/src/modules/cart/cart.service.ts:31-47 | a newly created cart loads no lines |
| CartService.GetCart | apps/api/src/modules/cart/cart.service.ts:8-64 | creates the cart if missing and returns its view; a new cart's view is empty with zero totals |
| CartService.AddItem | apps/api/src/modules/cart/cart.service.ts:66-123 | NotFound for a missing or removed product, BadRequest if inactive or short of stock, then the line step; nothing changes on refusal |
| CartService.AddItemChecked | apps/api/src/modules/cart/cart.service.ts:66-128 | refuses a quantity below one before creating a cart; any other quantity has exactly AddItem's outcome (each refusal, then the line step); keeps every live line positive |
| CartService.SetLineQuantity | apps/api/src/modules/cart/cart.service.ts:138-160 | refuses only with a missing line or short stock, and keeps the rows |
| CartService.SetLineQuantitySets | apps/api/src/modules/cart/cart.service.ts:138-160 | NotFound exactly when there is no live line; on success the line holds exactly `quantity`, which is within stock |
| CartService.UpdateItemQuantity | apps/api/src/modules/cart/cart.service.ts:125-163 | BadRequest below one, NotFound without a cart, then the line step; returns the view |
| CartService.RemoveLine | apps/api/src/modules/cart/cart.service.ts:174-189 | refuses only with NotFound, and keeps the rows |
| CartService.RemoveLineRemoves | apps/api/src/modules/cart/cart.service.ts:174-189 | refused exactly when there is no live line; afterwards none is left, and a second removal is refused |
| CartService.RemoveItem | apps/api/src/modules/cart/cart.service.ts:165-192 | NotFound without a cart or live line; otherwise tombstones that line and returns the view |
| CartService.ClearCart | apps/api/src/modules/cart/cart.service.ts:194-210 | NotFound without a cart; otherwise every item of the cart is tombstoned |
| OrderService.CheckoutLines | apps/api/src/modules/order/order.service.ts:14-24 | checkout loads the live lines of the user's cart, each joined with its product |
| OrderService.LineProblem | apps/api/src/modules/order/order.service.ts:30-37 | a line is accepted exactly when its product is active and its stock covers the quantity |
| OrderService.FirstProblem | apps/api/src/modules/order/order.service.ts:30-37 | no problem is reported exactly when every line is accepted |
| OrderService.FirstProblemIsFirst | apps/api/src/modules/order/order.service.ts:30-37 | the reported problem is that of a line all of whose predecessors are accepted |
| OrderService.CheckLines | apps/api/src/modules/order/order.service.ts:30-37 | the loop reports the first problem in cart order |
| OrderService.BillingId | apps/api/src/modules/order/order.service.ts:47 | the billing id is the given one when it is non-empty, else the shipping id |
| OrderService.PlacedOrderAddsUp | apps/api/src/modules/order/order.service.ts:56-86 | the new order is PENDING with no discount; its items follow the lines at current prices and add up to the subtotal; total = subtotal + 18% tax + shipping |
| OrderService.DebitStock | apps/api/src/modules/order/order.service.ts:99-110 | the loop's result is the debit of all lines |
| OrderService.CheckoutKeepsValid | apps/api/src/modules/order/order.service.ts:66-115 | inserting the order, debiting stock and clearing the cart keep the store valid |
| OrderService.Place | apps/api/src/modules/order/order.service.ts:66-115 | writes the order first in the listing, the debited stock and the cleared cart |
| OrderService.Create | apps/api/src/modules/order/order.service.ts:9-118 | in order: CartEmpty, the first line problem, the shipping address, the billing address; succeeds exactly when the cart is non-empty, every line passes and both addresses are the user's live ones; on success the placed order, debit and clear; on refusal nothing changes |
| OrderService.CheckoutStockStaysNonNegative | apps/api/src/modules/order/order.service.ts:30-110 | after the checks pass, every product's stock after the debit is non-negative and equals old stock minus its line quantity |
| OrderService.CheckoutEmptiesCart | apps/api/src/modules/order/order.service.ts:112-115 | after checkout the user's cart has no lines to check out |
| OrderService.UserOrderIds | apps/api/src/modules/order/order.service.ts:125-126 | keeps exactly the user's orders, the removed ones only when asked |
| OrderService.UserOrderIdsDistinct | apps/api/src/modules/order/order.service.ts:120-155 | the listing repeats no order |
| OrderService.FindAll | apps/api/src/modules/order/order.service.ts:120-155 | a page of the user's live orders, newest first, every one the user's |
| OrderService.FindById | apps/api/src/modules/order/order.service.ts:157-177 | the order exactly when it is the user's and live, else NotFound |
| OrderService.FindOrderNumber | apps/api/src/modules/order/order.service.ts:179-183 | finds a live order of the user with the number, or reports that there is none |
| OrderService.FindByOrderNumber | apps/api/src/modules/order/order.service.ts:179-199 | NotFound exactly when the user has no live order with the number |
| OrderService.UpdateStatus | apps/api/src/modules/order/order.service.ts:201-231 | NotFound for a missing or removed order, BadRequest unless the table allows the move, else only the status changes |
| OrderService.Cancel | apps/api/src/modules/order/order.service.ts:242-256 | NotFound unless the user's live order; BadRequest unless PENDING or CONFIRMED; then the table move to CANCELLED |
| OrderService.CancelledIsFinal | apps/api/src/modules/order/order.service.ts:217 | a cancelled order can move nowhere |
| PaymentService.FindPayment | apps/api/src/modules/payment/payment.service.ts:98-103 | finds a payment the query matches, or reports that none in the rows does |
| PaymentService.FindPaymentComplete | apps/api/src/modules/payment/payment.service.ts:98-106 | in a valid store the search fails exactly when no payment matches |
| PaymentService.WithOrderStatus | apps/api/src/modules/payment/payment.service.ts:50-55 | only the named order's status changes |
| PaymentService.InsertPaymentKeepsValid | apps/api/src/modules/payment/payment.service.ts:35-48 | a new payment for an order without one keeps one payment per order |
| PaymentService.StatusWritesKeepValid | apps/api/src/modules/payment/payment.service.ts:79-92 | status writes to a payment and to orders keep the store valid |
| PaymentService.ExternalIdFor | apps/api/src/modules/payment/payment.service.ts:29-33 | cash on delivery has no external id; every other method has one |
| PaymentService.ClientSecret | apps/api/src/modules/payment/payment.service.ts:57-60 | the secret exists exactly with an external id, and is that id followed by `_secret_test` |
| PaymentService.CreatePaymentIntent | apps/api/src/modules/payment/payment.service.ts:9-61 | NotFound unless the user's live order, BadRequest if any payment exists or the order is not PENDING, and succeeds exactly when none of these applies; the payment is for the order total in INR; COD is SUCCEEDED and confirms the order |
| PaymentService.CodConfirmIsATableMove | apps/api/src/modules/payment/payment.service.ts:50-55 | the COD confirmation is a move the status table allows |
| PaymentService.ConfirmPayment | apps/api/src/modules/payment/payment.service.ts:63-93 | NotFound unless live, BadRequest if already SUCCEEDED; then the payment is SUCCEEDED with the reference and its order CONFIRMED, whatever its status |
| PaymentService.RefundPayment | apps/api/src/modules/payment/payment.service.ts:193-224 | succeeds exactly for a live SUCCEEDED non-COD payment; the payment and its order become REFUNDED |
| PaymentService.EffectOf | apps/api/src/modules/payment/payment.service.ts:110-133 | exactly the three known event types have an effect |
| PaymentService.WebhookEffects | apps/api/src/modules/payment/payment.service.ts:110-133 | success writes SUCCEEDED and CONFIRMED; failure writes FAILED only; cancellation writes CANCELLED to both; a webhook can confirm an order the table would not |
| PaymentService.HandleWebhook | apps/api/src/modules/payment/payment.service.ts:95-142 | NotFound exactly when no payment, removed or not, has the external id; unknown events change nothing; otherwise the effect is written to the first match and its order |
| PaymentService.GetPaymentDetails | apps/api/src/modules/payment/payment.service.ts:144-171 | the payment exactly when live, else NotFound |
| PaymentService.GetPaymentByOrder | apps/api/src/modules/payment/payment.service.ts:173-191 | NotFound for another user's order; else a live payment of the order, NotFound exactly when none exists |
| ProductService.PutProductKeepsValid | apps/api/src/modules/product/product.service.ts:47-57 | writing a product with an existing category and its own SKU and slug keeps the store valid |
| ProductService.PutCategoryKeepsValid | apps/api/src/modules/product/product.service.ts:316-318 | writing a category with an existing parent and its own slug keeps the store valid |
| ProductService.Create | apps/api/src/modules/product/product.service.ts:9-58 | in order: NotFound for an unknown category, BadRequest for a taken SKU (removed products count), Duplicate for a taken slug; succeeds exactly when the category exists and the SKU and slug are free; the product is listed first |
| ProductService.Listed | apps/api/src/modules/product/product.service.ts:75-103 | keeps exactly the live products that pass every given filter, in row order |
| ProductService.ListedDistinct | apps/api/src/modules/product/product.service.ts:113-136 | the listing repeats no product |
| ProductService.FindAll | apps/api/src/modules/product/product.service.ts:60-145 | a page of the filtered products with `page || 1` and `pageSize || 20`; every row passes the filters |
| ProductService.FindById | apps/api/src/modules/product/product.service.ts:147-184 | the product exactly when live, else NotFound |
| ProductService.FindLiveSlug | apps/api/src/modules/product/product.service.ts:186-189 | finds a live product with the slug, or reports that there is none |
| ProductService.FindBySlug | apps/api/src/modules/product/product.service.ts:186-223 | the live product with the slug (unique), NotFound exactly when none |
| ProductService.PatchChangesOnlySupplied | apps/api/src/modules/product/product.service.ts:264-267 | a field changes only when the patch supplies a different value; the SKU and tombstone never change |
| ProductService.PatchIdempotent | apps/api/src/modules/product/product.service.ts:264-267 | applying a patch twice equals applying it once; the empty patch is the identity |
| ProductService.Update | apps/api/src/modules/product/product.service.ts:225-272 | NotFound for a missing or removed product or an unknown category, Duplicate for a slug another product has; otherwise exactly the supplied fields change |
| ProductService.Delete | apps/api/src/modules/product/product.service.ts:274-287 | succeeds exactly for a live product, which is then tombstoned, so a second delete fails |
| ProductService.CreateCategory | apps/api/src/modules/product/product.service.ts:289-319 | BadRequest for a taken slug (removed categories count), NotFound for an unknown parent; succeeds exactly otherwise |
| ProductService.ParentProblem | apps/api/src/modules/product/product.service.ts:371-383 | a parent is accepted exactly when it differs from the category and exists; naming itself is OwnParent |
| ProductService.ParentCheckAllowsTwoCycle | apps/api/src/modules/product/product.service.ts:371-383 | the check passes a move that makes two categories each other's parent |
| ProductService.UpdateCategory | apps/api/src/modules/product/product.service.ts:354-389 | NotFound unless live, then the parent check, then Duplicate for a slug another category has; otherwise the patch is written |
| ProductService.LiveProductCountPositive | apps/api/src/modules/product/product.service.ts:400-406 | the count is positive exactly when a live product is in the category |
| ProductService.LiveChildCountPositive | apps/api/src/modules/product/product.service.ts:408-414 | the count is positive exactly when a live child category exists |
| ProductService.DeleteCategory | apps/api/src/modules/product/product.service.ts:391-420 | succeeds exactly for a live category without live products or live children, which is then tombstoned |
| UserService.LiveAddresses | apps/api/src/modules/user/user.service.ts:52-57 | keeps exactly the user's live addresses with the given default flag, in row order |
| UserService.GetAddresses | apps/api/src/modules/user/user.service.ts:52-57 | exactly the user's live addresses, and no non-default one precedes a default one |
| UserService.ClearDefaults | apps/api/src/modules/user/user.service.ts:71-74 | every address of the user loses the default flag; other users' addresses are unchanged |
| UserService.PutAddressKeepsOneDefault | apps/api/src/modules/user/user.service.ts:70-82 | clear-then-set keeps at most one default per user, and the written default is its user's only one |
| UserService.PutAddressKeepsValid | apps/api/src/modules/user/user.service.ts:77-82 | an address write that keeps one default per user keeps the store valid |
| UserService.CreateAddress | apps/api/src/modules/user/user.service.ts:59-83 | with the flag, the user's defaults are cleared and the new address is the only default; without it, no existing address changes |
| UserService.AddressPatchKeepsOwner | apps/api/src/modules/user/user.service.ts:111-114 | a patch keeps the owner and the tombstone, writes the default flag only when supplied, and is idempotent |
| UserService.UpdateAddress | apps/api/src/modules/user/user.service.ts:85-115 | NotFound unless the address is the user's (removed ones included); setting the default clears the user's others first and leaves this one the only default |
| UserService.DeleteAddress | apps/api/src/modules/user/user.service.ts:117-130 | NotFound unless the address is the user's (removed ones included); otherwise only it is tombstoned |
| UserService.GetOrderHistory | apps/api/src/modules/user/user.service.ts:132-166 | a page of all the user's orders, removed ones included, newest first |
| UserService.HistoryIncludesListing | apps/api/src/modules/user/user.service.ts:136-138 | the history contains every order of the user's live listing |
| UserService.RemoveFromWishlist | apps/api/src/modules/user/user.service.ts:200-213 | NotFound exactly when no item of the user matches the product; otherwise one matching item, removed or not, is tombstoned |

## Left out

- Prisma's `include`/`select` projections are not modelled. Neither are images, attributes, reviews, variants, vendors' details or timestamps. Views carry ids and records.
- Product search is not modelled. It is a case-insensitive substring match on name, description or SKU, and its result depends on the database collation.
- OrderService.Create: checkout is one atomic step here. The original issues three separate writes: the order insert, a stock transaction, and the cart clear. A failure between them is not modelled.
- Concurrency is not modelled. Two checkouts can race between the stock check and the debit.
- Order numbers come from `Date.now()` and `Math.random()`. Their uniqueness is not modelled; the number is a parameter.
- Payment intent ids come from `Date.now()` and `Math.random()`; the random part is a parameter.
- Payment metadata is not modelled.
- CartService.AddItem: the quantity is always passed in. The original's default of 1 for a missing quantity is not modelled.
- PaymentService.HandleWebhook: the event's payment-intent id is taken as present. With the id missing, the original's filter would match any payment.
- Paging.PageOf, OrderService.FindAll, UserService.GetOrderHistory, ProductService.FindAll: the model requires the effective page and page size to be at least 1. With other values the original computes a negative skip or divides by zero.
- ProductService.Update, ProductService.CreateCategory, ProductService.UpdateCategory, ProductService.ParentProblem: an empty-string category or parent id is treated as supplied and checked, so an unknown `""` gives NotFound. The original skips its own check for it and leaves the refusal to the database's foreign-key constraint.
- ProductService.Create: the product's default column values (stock, flags) are supplied by the caller. The database schema that sets them is not part of this model.
- `getWishlist`, `addToWishlist`, `findById` and `updateProfile` of the user service are not modelled, nor are `findAllCategories` and `findCategoryById` of the catalogue. They are plain reads or unchecked inserts.
- Stock is an unbounded integer. The database column's width is not modelled.
- Several behaviours of the original are kept as written:
  - `confirmPayment`, the webhooks and `refundPayment` write order statuses without consulting the transition table.
  - `cancel` refuses PROCESSING although the table allows PROCESSING to CANCELLED.
  - A REFUNDED payment can be confirmed again.
  - Checkout does not check whether a product was removed.
  - `deleteAddress`, `updateAddress` and `removeFromWishlist` do not skip removed rows.
  - The webhook matches removed payments.
  - `updateCategory` checks only a direct self-parent.

## Findings

| source | as written | input that shows it | evidently intended | confidence | as-written member | corrected member |
|---|---|---|---|---|---|---|
| apps/api/src/modules/cart/cart.service.ts:8-64 | `getCart` loads every item of the cart, removed ones included. Its subtotal and item count sum them all, so after `removeItem` or `clearCart` (both tombstone lines) the view still reports them. | a cart with one line of 2 units, then `clearCart`: the view still has that line and an item count of 2 | the view lists and sums only the lines that are not removed, as checkout does (order.service.ts:17-19) | not executed | CartService.ClearedViewUnchanged | CartService.ClearedLiveViewEmpty |
| apps/api/src/modules/cart/cart.service.ts:66-81 | `addItem` never checks that the quantity is at least 1, although `updateItemQuantity` does (cart.service.ts:126-128). A negative quantity passes the stock check. | `addItem(user, product, -3)` with stock ≥ 0 creates a live line of −3 units | quantities below 1 are refused, so every live line holds at least one unit | not executed | CartService.PutLineAcceptsNegative | CartService.AddItemChecked |
