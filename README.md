# simplex-ecom-task in Dafny

This project models the core of a small e-commerce backend. Signed-in users fill a shopping
cart with products and product variants, then check it out. Checkout creates an order,
freezes the cart lines as order items and creates a pending payment. A payment job goes
onto a queue. The payment worker settles the payment and the order, then queues a
notification. The notification worker decides which channels to use.

Around this flow the model also covers:

- sign-up, password login and one-time-password (OTP) login;
- product and variant administration, with the search listing;
- the pagination middleware and the paginated-response helper;
- the role guard;
- the request logger's redaction of secrets;
- the production error handler;
- the job-queue configuration.

The database is one `Db.Store` object. Each table is a `map` from row id to row value.
Ids come from one increasing counter, `nextId`, `orderSeq` is the order-number
sequence and `skuSeq` the variant SKU sequence. The two job queues are sequences of jobs, oldest first. The services and workers
are methods that change the store. Each service or worker operation states its complete
new state: what it writes, and which fields it leaves `unchanged`. Every method that changes
the store keeps the store invariant `Valid`:

- every row id is below `nextId`;
- every cart line belongs to an existing cart;
- each user has at most one active cart.

`TotalsHold` says that every cart's `totalAmount` is the sum of its lines' subtotals. Every
operation keeps it, except `CatalogService.DeleteProductAsWritten`, which models a product
delete that leaves cart totals stale (see Findings). Two internal steps,
`CartService.WriteLine` and `CartService.DropCartLines`, leave one cart's total behind until
the next step recomputes it. The code that only computes a value, such as pagination, search patterns, the
role rule, redaction, error classification and queue options, is written as functions and
lemmas.

Money is integer cents. Randomness, the clock, the outcome of the simulated payment and
whether the queue broker is reachable are all method parameters. Password and OTP hashes
are an ideal hash, `Entities.BcryptCompare`, which accepts exactly the hashed text.

## Model

| member | source | states |
|---|---|---|
| JobQueue.RetryStrategy | config/queue.ts:21-24 | The reconnect delay grows 50 ms per retry and is capped at 2000 ms. It is never negative for a non-negative retry count. |
| JobQueue.RetryStrategyMonotone | config/queue.ts:21-24 | A later retry never waits less than an earlier one. |
| JobQueue.Rank | config/queue.ts:112 | A job's rank is its priority. It is 0 exactly when the job has no priority or priority 0, so such a job ranks ahead of every prioritised one. |
| JobQueue.NextJob | config/queue.ts:49-53 | The job a worker takes next has the lowest rank, where a job without a priority ranks first. Among jobs of equal rank it is the oldest. |
| JobQueue.HighTierServedLastAsWritten | config/queue.ts:49-53 | With HIGH = 20, MEDIUM = 10 and LOW = 1, a waiting HIGH job is taken after a MEDIUM one and after a LOW one. |
| JobQueue.TierPriority | config/queue.ts:49-53 | In the corrected mapping every tier is a valid priority of at least 1. |
| JobQueue.TiersServedInOrder | config/queue.ts:49-53 | With the corrected mapping, of two waiting jobs the higher tier is taken first, in either insertion order. |
| JobQueue.MergedOptions | config/queue.ts:112-115 | The caller's options override the defaults key by key, and the merged options always carry a priority. Without a caller priority, that priority is MEDIUM. |
| JobQueue.EffectivePriority | config/queue.ts:112-115 | A job uses the caller's `priority` entry whenever that key is present, even when its value is 0 or undefined. Otherwise it uses MEDIUM. |
| JobQueue.AddJob | config/queue.ts:105-121 | It succeeds exactly when the broker is reachable. Success appends exactly one job to the queue's old contents. That job carries the given name and data, the effective priority, 3 attempts and an exponential backoff of 2000 ms. No caller passes `attempts` or `backoff` options, so these defaults always hold. |
| JobQueue.GetQueueStats | config/queue.ts:133-156 | The answer is null exactly when the counts cannot be read. Otherwise it reports each count and their sum as the total. |
| JobQueue.StatsTotalZero | config/queue.ts:150 | The total is zero exactly when every count is zero. |
| Common.LeftPad | services/checkout/index.js:51 | This is Postgres `LPAD`. The result always has the requested length: a shorter string is padded on the left and a longer one is cut to its first characters. |
| Common.DecimalValue | services/checkout/index.js:51 | Reading back the decimal rendering of `n` gives `n`. |
| Common.PadRoundTrip | migrations/20250119000004-create-product-variants-complete.js:44 | A number with at most `w` digits, rendered and left-padded with zeros to width `w`, is `w` digits that read back as that number. |
| Common.PadDropsLastDigit | migrations/20250119000004-create-product-variants-complete.js:44 | A number with more than `w` digits pads to the same `w` characters as the number without its last digit, because `LPAD` cuts a longer string. |
| Db.FindFirst | services/cart/index.ts:11-31 | It returns the lowest-id row that satisfies the condition, or none when no row does. |
| Db.FindNewest | services/auth/index.js:226-238 | It returns the highest-id row that satisfies the condition, so no later row satisfies it. It returns none when no row does. |
| Db.CartSumNoLines | services/cart/index.ts:239 | A cart with no lines sums to 0, which matches the `\|\| 0` fallback. |
| CartService.LinesOf | services/cart/index.ts:16-30 | It returns exactly the line rows of one cart, unchanged. |
| CartService.UnitPrice | services/cart/index.ts:74-91 | The unit price is the variant's price when a variant is given. Otherwise it is the product's price, with a missing price read as 0. |
| CartService.NewLine | services/cart/index.ts:108-117 | A new line has the cart, product, variant, quantity and unit price given, and its subtotal is the quantity times the price. |
| CartService.MergeLine | services/cart/index.ts:103-107 | A merged line keeps its identity and stored price and adds the quantities. Its subtotal uses the current unit price. |
| CartService.SetQuantity | services/cart/index.ts:153-154 | An edited line keeps its identity and price, and its subtotal is the new quantity times that price. |
| CartService.MergeConsistentAtSamePrice | services/cart/index.ts:103-107 | While the price is unchanged, a merge keeps subtotal = quantity × price. |
| CartService.MergeAfterPriceChange | services/cart/index.ts:103-107 | After a price change, a merged line's subtotal no longer equals quantity × stored price. |
| CartService.ComputeCartTotal | services/cart/index.ts:230-239 | The loop's result is the sum of the cart's line subtotals. |
| CartService.UpdateCartTotal | services/cart/index.ts:230-245 | It writes that sum into the cart row and changes nothing else. Afterwards every cart total is consistent. |
| CartService.EnsureActiveCart | services/cart/index.ts:51-64 | It returns the user's active cart. If the user has none, it creates exactly one empty cart with a fresh id. |
| CartService.GetOrCreateCart | services/cart/index.ts:8-46 | It returns the active cart and exactly its lines. It creates an empty cart, with no lines, only when none exists. |
| CartService.WriteLine | services/cart/index.ts:103-117 | It stores exactly one line. Other carts keep consistent totals, and lines stay unique when the new line duplicates no other. |
| CartService.PutLine | services/cart/index.ts:103-119 | It stores a line and recomputes that cart's total. All totals stay consistent. |
| CartService.UpsertLine | services/cart/index.ts:94-119 | An existing line for the same product and variant is merged in place. Otherwise a new row with a fresh id is added. Line uniqueness and totals are kept. |
| CartService.AddItemToCart | services/cart/index.ts:48-126 | The user's active cart is found, or created empty, in every case. The call succeeds exactly when the product exists and any given variant belongs to it; otherwise it answers 404. On success the line is merged into, or added to, that cart, and only that cart's total changes, to the sum of its lines. The id counter moves by one per created row. |
| CartService.UpdateCartItem | services/cart/index.ts:128-164 | A line that is not in the user's active cart gives 404 and changes nothing. Otherwise only that line's quantity and subtotal change, and only its cart's total changes, to the new sum of its lines. |
| CartService.RemoveCartItem | services/cart/index.ts:166-198 | A line that is not in the user's active cart gives 404 and changes nothing. Otherwise exactly that line is deleted, and only its cart's total changes, to the sum of the remaining lines. |
| CartService.WithoutCart | services/cart/index.ts:217-219 | It keeps exactly the lines of the other carts, unchanged. |
| CartService.DropCartLines | services/cart/index.ts:217-219 | It deletes exactly the cart's lines, so that cart then sums to 0 and other carts are unaffected. |
| CartService.ZeroTotal | services/cart/index.ts:221-222 | It sets only this cart's total to 0. |
| CartService.ClearCart | services/cart/index.ts:200-228 | Without an active cart it gives 404 and changes nothing. Otherwise it deletes all the cart's lines and zeroes its total. |
| CheckoutService.OrderNumber | services/checkout/index.js:50-54 | An order number is `ORD-` followed by exactly 8 digits. |
| CheckoutService.OrderNumberRoundTrip | services/checkout/index.js:50-54 | Below 10^8, the digits read back as the sequence value. |
| CheckoutService.OrderNumberInjective | services/checkout/index.js:50-54 | Distinct sequence values below 10^8 give distinct order numbers. |
| CheckoutService.OrderNumberCollides | services/checkout/index.js:51 | From 10^8 on, `LPAD` truncation makes `n` and `n / 10` give the same order number. |
| CheckoutService.NumberTaken | migrations/20250119000007-create-orders.js:40 | A number is taken exactly when some stored order carries it. An empty table takes no number. |
| CheckoutService.Freeze | services/checkout/index.js:66-73 | An order item copies the line's product, variant, quantity, price and subtotal into the new order. |
| CheckoutService.Snapshot | services/checkout/index.js:66-75 | It produces one order item per cart line, in the same order. |
| CheckoutService.SnapshotTotal | services/checkout/index.js:66-75 | The order items' subtotals sum to the cart lines' subtotals. |
| CheckoutService.CartLines | services/checkout/index.js:13-33 | The loop lists exactly the cart's lines in id order. Their subtotals sum to the cart's line total. |
| CheckoutService.NewOrder | services/checkout/index.js:56-64 | A new order is pending and unpaid. It carries the user, the cart, the cart's total, the shipping address and the order number for the drawn sequence value. |
| CheckoutService.InsertOrder | services/checkout/index.js:56-64 | It adds exactly one order row under a fresh id. |
| CheckoutService.InsertOrderItems | services/checkout/index.js:75 | It adds the given rows under consecutive fresh ids. |
| CheckoutService.InsertPayment | services/checkout/index.js:77-83 | It adds exactly one payment row under a fresh id. |
| CheckoutService.InsertOrderWithItems | services/checkout/index.js:56-75 | It adds the order, then one frozen item per line. |
| CheckoutService.InsertOrderRows | services/checkout/index.js:49-88 | It adds the order, its items and a pending payment for the order total, and draws the next sequence value. |
| CheckoutService.CompleteCart | services/checkout/index.js:85-86 | It changes only the cart's status, to completed. |
| CheckoutService.Commit | services/checkout/index.js:49-89 | The transaction body writes the order, items, payment and completed cart, and nothing else. |
| CheckoutService.LoadActiveCart | services/checkout/index.js:13-47 | It finds the user's active cart exactly when one exists, with all its lines. Their subtotals sum to the stored cart total. |
| CheckoutService.PaymentJob | services/checkout/index.js:91-106 | The payment job goes to the payment queue at HIGH priority. It carries the payment id, order id, method and order total. |
| CheckoutService.EnqueuePayment | services/checkout/index.js:91-111 | It appends that job exactly when the broker is reachable. A failure is swallowed and changes nothing. |
| CheckoutService.PlaceOrder | services/checkout/index.js:49-124 | It succeeds exactly when no step fails and the order number is not already taken. A failure rolls back everything except a sequence value already drawn. Success gives the full new state, the answer's order and payment views, and the payment job when the broker is reachable. |
| CheckoutService.Checkout | services/checkout/index.js:9-125 | Without an active cart it gives 404, and for an empty cart 400. Both change nothing. For a non-empty cart it succeeds exactly when the transaction does not fail and the next order number is free. A failure writes nothing but may use up a sequence value. Success writes the order, its frozen items, the pending payment and the completed cart, and queues the payment job when the broker is reachable. The frozen lines sum to the cart's stored total. |
| CheckoutService.GetOrder | services/checkout/index.js:127-171 | It finds the order exactly when it exists and belongs to the user, otherwise 404. The answer holds exactly that order's items and payments. |
| CheckoutService.UserOrderIds | services/checkout/index.js:177-195 | It lists exactly the user's orders, newest first. |
| CheckoutService.UserOrders | services/checkout/index.js:177-195 | It pairs each of the user's order ids, newest first, with its row. |
| CheckoutService.ItemIds | services/checkout/index.js:181-192 | It holds exactly the ids of one order's items. |
| CheckoutService.JoinedRows | services/checkout/index.js:177-195 | The outer join of orders with their items has one row per item, and one for an order without items. So it has at least as many rows as orders. |
| CheckoutService.JoinedRowsAreOrdersIff | services/checkout/index.js:177-195 | The joined rows number the orders exactly when no order has two or more items. |
| CheckoutService.UserOrdersPage | services/checkout/index.js:177-197 | The page is the plain window over the user's orders, newest first. It fails exactly for a negative window. The page info echoes the raw page and limit with the given total. |
| CheckoutService.GetUserOrders | services/checkout/index.js:173-204 | The page is the plain window over the user's orders, newest first, and fails exactly for a negative window. The total, as written, counts the joined order-item rows, so it is never less than the number of orders. |
| CheckoutService.TwoItemOrderCountsTwice | services/checkout/index.js:177-195 | A user with one order of two items gets that one order and a total of 2. |
| CheckoutService.GetUserOrdersDistinct | services/checkout/index.js:177-195 | The corrected listing returns the same page, and its total is the number of the user's orders. |
| CheckoutService.UserIdsCountOrders | services/checkout/index.js:177-195 | The listed ids are the user's orders, each once. |
| CheckoutService.CountsAgreeIffNoMultiItemOrder | services/checkout/index.js:177-195 | The two totals agree exactly when none of the user's orders has two or more items. |
| PaymentWorker.TransactionId | workers/payment.worker.js:25 | A transaction id is `TXN-`, then the clock reading in decimal, `-` and the random suffix. |
| PaymentWorker.SettlePayment | workers/payment.worker.js:22-26 | A successful payment is completed and gets the transaction id. A failed one is marked failed and keeps its old id. Nothing else changes. |
| PaymentWorker.SettleOrder | workers/payment.worker.js:28-33 | Success confirms the order and marks it paid. Failure marks the payment failed and leaves the order status alone. |
| PaymentWorker.NoTerminalGuard | workers/payment.worker.js:15-16 | Settling does not check the current status, so a completed payment can become failed, a refunded one completed, and a failed one completed again. |
| PaymentWorker.NotificationJob | workers/payment.worker.js:35-46 | The follow-up job is an order confirmation at HIGH priority or a payment failure at MEDIUM. Its data has no `type` entry. |
| PaymentWorker.ConfirmationServedAfterFailure | workers/payment.worker.js:35-46 | In the notifications queue an order confirmation is taken after a payment-failed notice, even one added later. |
| PaymentWorker.SavePayment | workers/payment.worker.js:15-16 | It changes only that payment row. |
| PaymentWorker.SaveOrderIfPresent | workers/payment.worker.js:28-33 | It settles the order when it exists and otherwise changes nothing. |
| PaymentWorker.EnqueueNotification | workers/payment.worker.js:36-46 | It appends the follow-up job exactly when the broker is reachable. |
| PaymentWorker.ProcessPayment | workers/payment.worker.js:5-76 | An unknown payment fails and changes nothing. Otherwise the payment and order (when present) are settled and the notification queued. The job succeeds exactly when the payment succeeds and the broker is reachable. |
| NotificationWorker.Channels | workers/notification.worker.js:26-40 | Email is used exactly for a confirmation or failure when the user has an address. SMS is used exactly for a confirmation when the user has a phone. Other types notify nobody. |
| NotificationWorker.Notify | workers/notification.worker.js:6-48 | It fails exactly when the order is missing. Otherwise it notifies through the channels of the order's user. |
| NotificationWorker.HandleAsWritten | workers/notification.worker.js:7 | The worker reads the notification type from the job data. |
| NotificationWorker.PaymentWorkerJobsNotifyNobody | workers/notification.worker.js:7 | The payment worker's follow-up jobs therefore notify nobody. |
| NotificationWorker.Handle | workers/notification.worker.js:6-48 | The corrected worker takes the type from the job name. |
| NotificationWorker.PaymentWorkerJobsNotifyUser | workers/notification.worker.js:26-40 | With the corrected worker, a follow-up job for an existing order emails a user who has an address. A successful payment also sends an SMS to a user who has a phone. |
| Auth.SessionOf | services/auth/index.js:47-55 | A session returns the user's id, email, phone and super-admin flag, with a token signed over that user. |
| Auth.NewUser | services/auth/index.js:37-45 | A new user is not a super admin. An empty phone is stored as null. The stored hash accepts exactly the given password. |
| Auth.InsertUser | services/auth/index.js:39-45 | It adds exactly one user row under a fresh id. |
| Auth.NewUserKeepsUnique | services/auth/index.js:13-45 | Adding a user whose email and phone are unused keeps emails and phones unique. |
| Auth.SignUp | services/auth/index.js:10-63 | A taken email gives 409, and so does a taken non-empty phone. Neither changes anything. Otherwise exactly one user is added and a session returned, and uniqueness is kept. |
| Auth.LookupOf | services/auth/index.js:68 | A non-empty email is the lookup key, otherwise the phone. With neither, there is no valid lookup. |
| Auth.EligibleUnique | services/auth/index.js:113-120 | With unique emails and phones, at most one user matches a lookup. |
| Auth.FindUser | services/auth/index.js:70-73 | It finds a matching user exactly when one exists. |
| Auth.Login | services/auth/index.js:65-154 | With no email and no phone, the query fails. A missing user or a wrong password gives 401. Admin login also requires the super-admin flag. With unique users, login succeeds exactly when some matching user's hash accepts the password. |
| Auth.OrNull | services/auth/index.js:182-183 | An empty or missing value becomes null, and any other value is kept. |
| Auth.ClaimsAsWritten | services/auth/index.js:180-184 | The condition claims every row of the user. It also claims a row with a null email when the request's email is missing or empty, a row with a null phone when the phone is, and a row with the request's e-mail. |
| Auth.Claims | services/auth/index.js:180-184 | In the corrected condition a row is claimed only by the user whose id it carries, and a row without a user by nobody. |
| Auth.ForeignOtpClaimedAsWritten | services/auth/index.js:180-184 | With a null phone, the query as written matches a live OTP row issued to another user. |
| Auth.NewOtp | services/auth/index.js:191-199 | A new OTP belongs to the user, is live for 5 minutes and accepts exactly its code. It records the channel, email and phone. |
| Auth.Invalidate | services/auth/index.js:176-189 | It marks used exactly the user's live OTPs and changes nothing else. Afterwards the user has no live OTP. |
| Auth.ReplaceOtps | services/auth/index.js:176-199 | It writes the invalidated table plus the new OTP under a fresh id. |
| Auth.RequestOTP | services/auth/index.js:156-208 | It models the corrected per-user selection of OTP rows (see Findings). An unknown user gives 404 and changes nothing. Otherwise all the user's OTPs are invalidated and one new OTP is stored. The code is returned only in development. |
| Auth.SpendOtp | services/auth/index.js:257 | It marks exactly that OTP used. |
| Auth.VerifyOTP | services/auth/index.js:210-276 | It models the corrected per-user selection of OTP rows (see Findings). An unknown user gives 404. With no live OTP, or a wrong code for the newest live OTP, it gives 401. Success spends exactly that OTP and returns a session. Failures change nothing. |
| Catalog.NewProduct | services/product/index.ts:12-21 | A product without a name is rejected by the not-null check. Otherwise the stored row has the given fields. A missing or zero price is stored as 0, and a missing or zero stock as null. A missing `isActive` becomes true. |
| Catalog.ZeroStockStoredAsNull | services/product/index.ts:20 | A stock of 0 is stored as null, while a price of 0 is stored as 0. |
| Catalog.UpdateProductFields | services/product/index.ts:86-93 | A name or description is replaced only by a non-empty value. Any other field is replaced whenever it is present, even by null. |
| Catalog.UpdateProductPartial | services/product/index.ts:86-95 | An empty update changes nothing, and the same update applied twice changes nothing more. |
| Catalog.UpdateProductFalsyText | services/product/index.ts:86-90 | An empty name or a null description is ignored, but a null price clears the price. |
| Catalog.VariantViolations | services/productVariants/index.ts:20-27 | It lists exactly the missing not-null columns: name, value, or an explicit null price. |
| Catalog.NewVariant | services/productVariants/index.ts:20-27 | A variant is rejected exactly when a not-null column is violated. Otherwise it has the given fields and the given SKU, and a missing price becomes 0. |
| Catalog.UpdateVariantFields | services/productVariants/index.ts:101-107 | A null price is rejected. A name or value is replaced only by a non-empty value, and a given price always replaces the old one. The product link and the SKU never change. |
| Catalog.UpdateVariantIdempotent | services/productVariants/index.ts:103-105 | Applying the same update twice changes nothing more. |
| Catalog.Sku | migrations/20250119000004-create-product-variants-complete.js:44 | A default SKU is `SKU-` followed by exactly 6 characters. |
| Catalog.SkuInjective | migrations/20250119000004-create-product-variants-complete.js:44 | Distinct sequence values below 10^6 give distinct SKUs. |
| Catalog.SkuCollides | migrations/20250119000004-create-product-variants-complete.js:44 | From 10^6 on, `LPAD` truncation makes `n` and `n / 10` give the same SKU. |
| Catalog.SkuTaken | migrations/20250119000004-create-product-variants-complete.js:43 | A SKU is taken exactly when some stored variant carries it. An empty table takes no SKU. |
| Catalog.SkuTakenPastSixDigits | migrations/20250119000004-create-product-variants-complete.js:43-44 | From 10^6 on, the default SKU is already taken whenever the variant created with value `n / 10` is still stored. |
| Catalog.SearchPattern | services/product/index.ts:51-56 | A search filters only when it is a non-blank string, and the pattern is the text followed by `%`. |
| Catalog.SearchPatternJs | services/product/index.js:57-61 | The plain service crashes exactly when the search is a structured query value. |
| Catalog.SearchPatternsAgree | services/product/index.js:57-61 | Otherwise both services build the same pattern. |
| Catalog.PercentMatchesAll | services/product/index.ts:54 | `%` matches every name. |
| Catalog.ILike | services/product/index.ts:54 | An empty name is matched exactly by the patterns made only of `%`. A match of a pattern without wildcards has the pattern's length. |
| Catalog.PlainSearchIsPrefix | services/product/index.ts:54 | Search text without wildcards matches exactly the names that start with it, ignoring case. |
| Catalog.UnderscoreSearchMatchesAnyName | services/product/index.ts:54 | The search `_` is a wildcard and matches every non-empty name. |
| Catalog.RowsOf | services/product/index.ts:58-61 | The result rows pair each listed id with its row. |
| Catalog.Select | services/productVariants/index.ts:48-50 | The ids are exactly the stored ids below the bound whose rows satisfy the `where` condition, in increasing order. |
| Catalog.GetProduct | services/product/index.ts:30-47 | It finds the product exactly when it exists, otherwise 404. |
| Catalog.GetVariants | services/productVariants/index.ts:36-57 | An unknown product gives 404. Otherwise the result holds exactly the product's variants. |
| Catalog.ListProductsAsWritten | services/product/index.ts:49-70 | The rows are the clamped window of the matches, but the page info uses the raw query page and limit. Only an absent or empty value takes the default there, so `0` is reported as 0. |
| Catalog.ListingPageZeroAsWritten | services/product/index.ts:63 | With `page=0` and at most 10 matches, the page holds all of them, reports page 0 and still announces a next page. |
| Catalog.ListingZeroLimitAsWritten | services/product/index.ts:63 | With `limit=0` and any match, the page count is Infinity and a next page is announced on every page. |
| Catalog.ListingStopsEarlyAsWritten | services/product/index.ts:63 | Take a limit above 100 with more than 100 matches, but no more than the limit. The page then shows 100 rows and reports no next page, although rows remain. |
| Catalog.ListProducts | services/product/index.ts:49-70 | In the corrected listing, the page info uses the clamped page and limit. |
| Catalog.ListingHasNextIffRowsRemain | services/product/index.ts:63 | In the corrected listing, a next page is reported exactly when rows remain after this page. |
| Catalog.ListProductsJs | services/product/index.js:55-68 | The plain listing fails exactly for a structured search or a negative window. Otherwise it gives the raw window of the matches and their count. |
| Catalog.ListingsAgreeInRange | services/product/index.js:55-68 | For in-range page and limit values, both listings give the same rows. |
| Catalog.ListVariants | services/productVariants/index.ts:59-87 | It gives the clamped window of the matching variants, so at most 100. |
| Catalog.ListVariantsJs | services/productVariants/index.js:60-87 | It fails with 500 exactly for a structured search or a negative window. Otherwise it gives the raw window. |
| CatalogService.CreateProduct | services/product/index.ts:9-28 | An invalid product changes nothing. Otherwise exactly one product is added under a fresh id. |
| CatalogService.UpdateProduct | services/product/index.ts:72-101 | An unknown product gives 404. Otherwise only that row changes, as the update rule says. |
| CatalogService.RemainingVariants | migrations/20250119000004-create-product-variants-complete.js:20-25 | Deleting a product cascades to exactly its variants. |
| CatalogService.RemainingLines | migrations/20250119000006-create-cart-items.js:25-40 | The product's cart lines are deleted, and lines that hold one of its variants lose the variant. |
| CatalogService.DeleteProductAsWritten | services/product/index.ts:103-121 | An unknown product gives 404. Otherwise the product, its variants and its cart lines go, and cart totals are left as they were. |
| CatalogService.StaleTotalAfterProductDelete | services/product/index.ts:115 | A cart of two lines has the right total of 800. After the delete cascades away one line, one line of 300 remains, but the cart still carries 800. |
| CatalogService.RecomputeTotals | services/cart/index.ts:230-245 | After the loop every cart's total equals its line sum. Only totals change. |
| CatalogService.DeleteProduct | services/product/index.ts:103-121 | The corrected delete does the same cascade and recomputes the totals, so totals stay consistent. |
| CatalogService.CreateVariant | services/productVariants/index.ts:8-34 | An unknown product gives 404 and an invalid variant gives the not-null error; neither changes anything. Otherwise one SKU sequence value is drawn. The insert succeeds exactly when the default SKU of that value is not taken. It then adds exactly one variant of that product with that SKU. A taken SKU gives `Validation error`, and the drawn value stays drawn. |
| CatalogService.UpdateVariant | services/productVariants/index.ts:89-113 | An unknown variant gives 404 and a null price is rejected, with no change in either case. Otherwise only that row changes. |
| CatalogService.UnlinkVariant | migrations/20250119000006-create-cart-items.js:35-40 | Lines that hold the variant lose it, and nothing else changes. |
| CatalogService.UnlinkKeepsSums | migrations/20250119000006-create-cart-items.js:35-40 | Unlinking a variant does not change any cart's line sum. |
| CatalogService.UnlinkCanDuplicateLines | migrations/20250119000006-create-cart-items.js:35-40 | After unlinking, two lines of one cart can hold the same product and no variant. |
| CatalogService.DeleteVariant | services/productVariants/index.ts:115-133 | An unknown variant gives 404. Otherwise exactly that variant is deleted and cart lines lose it. Totals stay consistent. |
| Paginate.Paginate | middlewares/paginate.ts:7-9 | The page is at least 1 and the limit is between 1 and 100, with defaults 1 and 10. The offset is (page-1)×limit and never negative. |
| Paginate.PaginateJs | middlewares/paginate.js:4-7 | The plain middleware uses the given limit or 10, with no clamping. |
| Paginate.MiddlewaresAgreeInRange | middlewares/paginate.js:4-7 | For in-range values both middlewares give the same window. |
| Paginate.PlainOffsetCanBeNegative | middlewares/paginate.js:7 | A page of -1 gives a negative offset in the plain middleware and 0 in the typed one. |
| Paginate.Request.constructor | middlewares/paginate.ts:5-17 | A fresh request has no pagination and has not been passed on. |
| Paginate.PaginateMiddleware | middlewares/paginate.ts:5-17 | It attaches the clamped pagination and calls `next` once. |
| Paginate.PaginateMiddlewareJs | middlewares/paginate.js:3-13 | It attaches the raw window and calls `next` once. |
| Paginate.CeilDiv | middlewares/paginate.ts:38 | The result is the rounded-up quotient: the smallest number of whole pages that holds the count. |
| Paginate.TotalPages | middlewares/paginate.ts:38 | For a non-zero limit it is the count divided by the limit, rounded up. A zero limit gives Infinity when there are rows and NaN when there are none. |
| Paginate.PaginatedResponse | middlewares/paginate.ts:28-51 | The page and limit are the raw values, with the defaults 1 and 10 only for an absent or empty one. Total pages is `TotalPages` of the count and limit. There is a next page exactly when page < totalPages in JavaScript's comparison, and a previous page exactly when page > 1. |
| Paginate.ZeroLimitHasNextIffAnyRow | middlewares/paginate.ts:38-48 | With a limit of 0, every page announces a next page exactly when there is at least one row. |
| Paginate.HasNextIffRowsRemain | middlewares/paginate.ts:48 | With a positive limit, a next page exists exactly when page×limit < count. |
| Paginate.PaginatedResponseJs | middlewares/paginate.js:15-29 | The plain helper reports the same total, page, limit and page count as the typed one, with the same raw-value defaults, without the next and previous flags. |
| Paginate.Slice | services/product/index.ts:58-61 | `LIMIT`/`OFFSET` gives the rows from the offset, at most `limit` of them. A negative window is an error. |
| Access.Upper | middlewares/admin.middleware.ts:56 | The result is never a lower-case letter. |
| Access.Camel | middlewares/admin.middleware.ts:56 | The result is never longer than the input. |
| Access.CamelLeavesNoSnake | middlewares/admin.middleware.ts:56 | No `_` followed by a lower-case letter remains. |
| Access.FlagName | middlewares/admin.middleware.ts:56 | The flag is `is` plus the role with its first letter upper-cased and snake case turned to camel case. |
| Access.CamelPlainPrefix | middlewares/admin.middleware.ts:56 | A prefix without `_` is left as it is. |
| Access.FlagNameOfAdmin | middlewares/admin.middleware.ts:56 | `admin` maps to `isAdmin`. |
| Access.FlagNameOfSuperAdmin | middlewares/admin.middleware.ts:56 | `super_admin` maps to `isSuperAdmin`. |
| Access.RolePasses | middlewares/admin.middleware.ts:47-62 | `user` admits everyone. `super_admin` admits exactly the holders of the `isSuperAdmin` flag. `admin` admits a super admin, the role `admin` or the `isAdmin` flag. Any other role admits a matching `role` property or its derived flag. |
| Access.AnyPasses | middlewares/admin.middleware.ts:47 | A list admits a user exactly when one of its roles does. An empty list admits nobody, and a list holding `user` admits everyone. |
| Access.Denial | middlewares/admin.middleware.ts:65-86 | The refusal is a 403 with `Insufficient privileges` and a message that starts `Access denied. Allowed roles: `. A non-empty list is joined with ` or ` and echoed. An empty list gives `required role` and a list holding the empty list. |
| Access.RequireRole | middlewares/admin.middleware.ts:14-99 | With no user, 401. A request passes exactly when the custom check grants, or when any listed role passes. A throwing check gives 500, with the message only in development. A denied check gives 403 with an empty role list, and a denied role list gives 403 naming the roles. |
| Access.OneRoleIsSingletonList | middlewares/admin.middleware.ts:44 | One role behaves as a list holding that role. |
| Access.EmptyListDeniesEveryone | middlewares/admin.middleware.ts:72-78 | An empty role list denies every user. |
| Access.MoreRolesKeepAccess | middlewares/admin.middleware.ts:47-62 | Adding roles on either side never revokes access. |
| Access.SuperAdminNeedsTheFlag | middlewares/admin.middleware.ts:8-12 | The role `super_admin` passes only through the `isSuperAdmin` flag, while any other role also passes by name. |
| Access.SuperAdminPassesBuiltIns | middlewares/admin.middleware.ts:8-12 | A super admin passes every built-in role. |
| RequestLog.IndexEntriesHoldItems | middlewares/requestLogger.ts:9 | Spreading an array gives entries under the keys "0", "1", … holding the items. |
| RequestLog.IndexEntriesKeys | middlewares/requestLogger.ts:9 | Spreading an array gives no other keys. |
| RequestLog.Sanitize | middlewares/requestLogger.ts:3-18 | A falsy or non-object body is returned as it is. Otherwise every top-level entry is kept, and truthy secret entries become `[REDACTED]`. |
| RequestLog.SanitizedHidesSecrets | middlewares/requestLogger.ts:8-15 | No truthy secret survives at the top level, and every other entry is unchanged. |
| RequestLog.IndexKeysNotSensitive | middlewares/requestLogger.ts:8-15 | Array index keys are never treated as secrets. |
| RequestLog.SanitizeIdempotent | middlewares/requestLogger.ts:3-18 | Sanitizing twice changes nothing more. |
| RequestLog.NestedValuesNotRedacted | middlewares/requestLogger.ts:9 | A password nested one level down is logged in clear. |
| RequestLog.RequestLogger | middlewares/requestLogger.ts:20-47 | It always calls `next` once. It logs the sanitized body exactly in development, when logging does not fail. |
| RequestLog.LoggedBodyHidesSecrets | middlewares/requestLogger.ts:22-38 | The logged body shows no truthy top-level secret. |
| ErrorHandling.BadInput | controllers/error/errorController.ts:25-76 | The rewritten error is operational, with status 400 and the given message. |
| ErrorHandling.BeforeColon | controllers/error/errorController.ts:108 | It returns the longest prefix without a colon. |
| ErrorHandling.ByName | controllers/error/errorController.ts:99-101 | A cast error becomes its 400. Otherwise code 11000 becomes the duplicate-key 400, and otherwise a `ValidationError` becomes its 400. Any other error passes unchanged: a rewritten error matches no later name or code test. |
| ErrorHandling.Rewrite | controllers/error/errorController.ts:102-107 | The result is the error itself or the 400 with the wording of one of the tests. |
| ErrorHandling.ByMessage | controllers/error/errorController.ts:102-108 | The result is the error itself or a 400. Every error whose message starts with the uuid syntax prefix ends up a 400. |
| ErrorHandling.Classify | controllers/error/errorController.ts:99-108 | The error `prodErrors` receives is the original one or a 400 in its place. |
| ErrorHandling.DevMessage | controllers/error/errorController.ts:7-19 | Only an error whose message is `Validation error` can show a different message. It shows its first entry's message when that is non-empty, and the error's own message otherwise. |
| ErrorHandling.FirstText | controllers/error/errorController.ts:102-107 | It returns the wording of the first rule whose trigger equals the message, and none when no rule matches. |
| ErrorHandling.RewriteFirstMatch | controllers/error/errorController.ts:102-107 | The chain of message tests rewrites to the first match's wording and otherwise leaves the error alone. |
| ErrorHandling.MessageRulesAreSound | controllers/error/errorController.ts:43-71 | No wording is itself a trigger, and every wording starts with a capital letter. |
| ErrorHandling.UpperMessageTriggersNothing | controllers/error/errorController.ts:102-107 | A capitalised message triggers no rewrite. |
| ErrorHandling.ChainIsFirstMatch | controllers/error/errorController.ts:99-108 | The whole chain of name, code and message tests amounts to applying the first rule that matches. |
| ErrorHandling.ProdReply | controllers/error/errorController.ts:78-90 | An operational error keeps its status (500 when it has none) and its message. Any other error gives a generic 500. |
| ErrorHandling.GlobalErrorHandler | controllers/error/errorController.ts:92-112 | Development answers with the error's own status and message. Production answers 400, 500 or the error's own status. Any other environment does not answer. |
| ErrorHandling.ProductionAnswers | controllers/error/errorController.ts:98-110 | A matching rule gives 400 with its wording. Otherwise the answer is the production reply of the error itself. |
| ErrorHandling.StoreValidationErrorsAreGeneric | controllers/error/errorController.ts:99-101 | A store validation error, whose messages match no rule, reaches the client only as the generic 500. |
| ErrorHandling.UuidMessageMatchesNoTest | controllers/error/errorController.ts:104-107 | A uuid error on any other column matches none of the exact message tests. |
| ErrorHandling.OtherUuidErrors | controllers/error/errorController.ts:108 | Such an error is caught by the prefix test instead. |

## Left out

- Express routing and controllers, Joi schemas, Sequelize models and the migrations are used only for field names, defaults and cascades. The schemas' lower bound on quantity appears as the `requires quantity >= 1` of `AddItemToCart` and `UpdateCartItem`.
- Redis/BullMQ networking, worker concurrency, retries and the 1-second payment delay are not modelled. Logging is also left out. Whether the broker is reachable is a parameter.
- Floating-point money is modelled as integer cents. `DECIMAL(10,2)` rounding is not modelled.
- The random OTP code, the random transaction suffix and the clock are parameters. bcrypt is an ideal hash and the JWT is an opaque function of the user.
- Database transactions are treated as atomic and isolated. Concurrent checkouts and cart edits are not modelled.
- `findAll` without `ORDER BY` is taken to return rows in id order.
- `createdAt DESC` is modelled as descending id.
- The joined product and variant rows that `getOrder`, `getUserOrders` and the cart read include are not modelled.
- Deleting a product leaves order items as they are. The order-items migration is not part of this model.
- config/constants is not part of this model. The `TEXTS` messages appear as their key names, for example `EMAIL_ALREADY_EXISTS`.
- The message format of Sequelize's not-null violations is approximated by `Catalog.NotNull`.
- Query values are modelled as absent, empty, or the decimal text of a whole number. Fractional and non-numeric text is not modelled. The page and limit that the response echoes are that text in the JSON body, not numbers; the model keeps them as numbers.
- `CartService.AddItemToCart` and `CartService.UpdateCartItem`: the request validator (middlewares/validator.ts:7) checks the body but discards the converted value. A quantity sent as the text `"2"` therefore reaches services/cart/index.ts:104 as text, where `+=` concatenates it. The model takes the quantity as a number.
- `JobQueue.AddJob`: an `attempts` or `backoff` entry in the caller's options would override the defaults. No caller passes one, so the model always uses the defaults.
- `JobQueue.AddJob`: when the broker cannot be reached, the error rethrown to the caller is the broker's own. Its message is not modelled; the model's error carries the logged text `Error adding job to <queue>` instead.
- `JobQueue.NextJob`: the broker's range check on priorities and its delayed and paused states are not modelled. The jobs keep the configured tier numbers; `TierPriority` is the corrected mapping.
- `Access.Upper`: ASCII only. `toUpperCase()` also maps other letters, which no role name uses.
- Case folding in `ILIKE` and whitespace in `trim()` are modelled for ASCII only.
- The product columns `isVariable`, `purchasePrice`, `profitMargin` and `stock` come from models/products.ts:49-75. The products migration (migrations/20250119000003-create-products-complete.js:5-38) creates none of them, and nothing in this model syncs the schema; the model assumes a table with the columns of models/products.ts.
- `Catalog.NewProduct`: models/products.js declares none of those four columns, so the plain service's insert would leave them out. The model does not capture that difference: it gives both product services the row of models/products.ts.
- `Access.RequireRole`: role names that are `Object.prototype` properties (such as `constructor`) are not modelled. Neither are non-string entries in a role list, or the outer `catch` that those would reach.
- `ErrorHandling.GlobalErrorHandler`: the development answer's stack trace and serialized error are not modelled. `CustomError` is not part of this model. It is taken to be operational, with status 400 and name `Error`, as `ErrorHandling.BadInput` states.
- The validation handler's `Object.values(errors)` is modelled as the list of entry messages.
- `Paginate.PaginatedResponse`: the `catch` branch is not modelled, because no modelled input throws.
- The `isSuperAdmin` middleware's import, which has no such export, is not modelled.
- `CheckoutService.PlaceOrder`: the order total is the cart's stored total. The link to the frozen items is stated by `CheckoutService.SnapshotTotal` and `CheckoutService.Checkout`, not in `PlaceOrder`'s own contract.
- `CheckoutService.EnqueuePayment`: the swallowed error's log line is not modelled.
- `PaymentWorker.ProcessPayment`: the intermediate `processing` status is overwritten before the worker finishes. The contract states only the final state. A crash between the writes is not modelled.
- `Auth.Login`: a phone lookup with neither email nor phone makes Sequelize throw on an `undefined` WHERE value. That is modelled as `ServerError(UNDEFINED_WHERE)`.

## Findings

| source | as written | input that shows it | evidently intended | confidence | as-written member | corrected member |
|---|---|---|---|---|---|---|
| workers/notification.worker.js:7 | The worker reads the notification type from `job.data.type`, but the payment worker's jobs carry the type only as the job name. | any order-confirmation or payment-failed job queued by workers/payment.worker.js:39-42 | take the type from the job name, so the user is emailed or sent an SMS | not executed | NotificationWorker.PaymentWorkerJobsNotifyNobody | NotificationWorker.PaymentWorkerJobsNotifyUser |
| services/auth/index.js:180-184 | OTP rows are selected by `userId OR email = (email \|\| null) OR phone = (phone \|\| null)`, and a null becomes `IS NULL`. | an email login request while another user's live email OTP row has a null phone: that row is matched, invalidated and, at line 228-232, accepted for verification | select only the requesting user's OTP rows | not executed | Auth.ForeignOtpClaimedAsWritten | Auth.Invalidate |
| services/product/index.ts:63 | The page info uses the raw query `page` and `limit`, while the rows come from the clamped window. | `limit=500` with 150 matching products: 100 rows, `totalPages` 1, `hasNextPage` false | report the clamped page and limit | not executed | Catalog.ListingStopsEarlyAsWritten | Catalog.ListingHasNextIffRowsRemain |
| services/product/index.ts:115 | Deleting a product cascades to its cart lines but does not recompute cart totals. | a cart with lines of 500 and 300, the first of the deleted product: after the delete one line of 300 remains and the cart keeps its total of 800, which checkout charges | recompute the totals of the affected carts | not executed | CatalogService.StaleTotalAfterProductDelete | CatalogService.DeleteProduct |
| services/checkout/index.js:177-195 | The order listing's count query joins each order with its items and, without `distinct: true`, counts the joined rows. | a user with one order of two items: the listing holds one order and reports a total of 2 | count distinct orders | not executed | CheckoutService.TwoItemOrderCountsTwice | CheckoutService.GetUserOrdersDistinct |
| config/queue.ts:49-53 | The tiers are HIGH = 20, MEDIUM = 10 and LOW = 1, but the broker serves the lowest priority number first. | a notifications queue holding an order confirmation (HIGH) and a payment-failed notice (MEDIUM): the notice is taken first | HIGH served first, with HIGH = 1 | not executed | PaymentWorker.ConfirmationServedAfterFailure | JobQueue.TiersServedInOrder |
