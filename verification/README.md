# Order workflow and product slice, modelled in Dafny

This project models two parts of an e-commerce platform:

- The backend's **order workflow** (`backend/controllers/order_controllers.js`).
  - `initPlaceOrder` validates a request, obtains a payment intent from the payment gateway and stores the order as `uncompleted` / `processing`.
  - `completePlaceOrder` marks the order `succeeded` / `processing` and applies one stock and sold-count adjustment per line item to the product collection.
  - The read handlers look orders up by payment id, by order id or by product id. They list a buyer's orders in pages with a two-item preview, and they project orders for one shop, hiding every other shop's line items.
- The frontend's **product slice reducer** (`frontend/src/store/reducers/product_reducer.js`). It is a Redux slice whose reducers set loading and error flags on nested sub-states. `newReviewSuccess` also merges a new review into the review list and new rating statistics into the product.

Files:

- `wrappers.dfy` holds the `Option` datatype.
- `sequences.dfy` holds the sequence operations the handlers rely on: JavaScript's `filter` and `slice`, MongoDB's first-match lookup, and skip/limit paging.
- `order_model.dfy` holds the order entities, the handlers' errors and the JavaScript truthiness tests on request fields.
- `inventory.dfy` holds the stock adjustment of a completion and what it does to each product.
- `order_workflow.dfy` holds the class `OrderStore`, whose methods are the two state-changing handlers, plus the receipt validation.
- `order_queries.dfy` holds the read handlers as functions of the orders collection.
- `product_reducer.dfy` holds the class `ProductsSlice`, one method per reducer.

Environment inputs are parameters:

- the gateway's reply to the payment-intent request (`GatewayReply`);
- the id MongoDB gives a new order;
- the clock (`now`);
- `APIFeature.check_falsy_numerics`, which is passed in as a predicate.

The orders collection is a sequence in its natural order, with unique ids. Products are a map from id to stock record.

Properties of the code worth knowing:

- `getOrder` accepts both selectors at once and then uses the payment id.
- Stock has no lower bound: a completion can take it below zero.
- Completion does not look at the order's current status, so completing an order twice takes the stock off twice (`Inventory.RepeatedAdjustmentDecrementsTwice`).
- Whether the fee fields are acceptable is decided by `APIFeature.check_falsy_numerics`, which the model takes as a parameter.
- The truthiness tests of the handlers reject a `price_of_items` of 0 and a `sendReceipt` whose `totalToPay` is 0. An empty `items_of_order` array passes.
- No line-item quantity is checked.

## Model

| member | source | states |
|---|---|---|
| `Inventory.ApplyItem` | backend/controllers/order_controllers.js:104-113 | one update of the batch: the named product's stock drops and its sold count rises by the item's quantity and its last-sold time becomes the completion time; a product id that matches nothing changes nothing; no other product changes |
| `Inventory.AdjustStock` | backend/controllers/order_controllers.js:103-125 | the whole batch, one update per line item in line-item order; no product appears or disappears |
| `OrderWorkflow.NewOrder` | backend/controllers/order_controllers.js:48-68 | the stored order takes the request's shipping info, items and amounts, the status uncompleted / processing, the gateway's payment id and client secret with method "none", and the caller's id, e-mail, name and avatar |
| `OrderWorkflow.Completed` | backend/controllers/order_controllers.js:91-101 | the update sets payment status succeeded, order status processing and the payment method, keeps the payment id and client secret, and changes no other field |
| `OrderModel.IndexOfId` | backend/controllers/order_controllers.js:84-89 | finds an order with the requested id, and finds none exactly when no order has that id |
| `OrderWorkflow.ValidatePlaceOrder` | backend/controllers/order_controllers.js:30-33 | rejects with 400 "Wrong property name" exactly when currency, shipping_info, items_of_order or price_of_items is falsy, or when the fee check over tax_fee, shipping_fee and total_to_pay fails; otherwise passes the request's fields on unchanged |
| `OrderWorkflow.OrderStore.InitPlaceOrder` | backend/controllers/order_controllers.js:19-75 | a rejected request touches neither the gateway nor the store; a declined intent stores nothing; otherwise appends exactly one order built from the request, the gateway's payment id and client secret and the caller's snapshot, with status uncompleted / processing and method "none", and returns the client secret, stripe key and order id; products never change |
| `OrderWorkflow.OrderStore.CompletePlaceOrder` | backend/controllers/order_controllers.js:78-126 | 400 if orderId or paymentMethod is falsy, 404 if no order has that id, and in both cases no order and no product changes; otherwise only that order changes, to succeeded / processing with the new method, and the products become the stock adjustment of its line items; the current status is not checked |
| `Inventory.AdjustStockEffect` | backend/controllers/order_controllers.js:103-114 | no product appears or disappears; each product's stock drops and its sold count rises by the total quantity of the line items naming it, with no lower bound on stock; its last-sold time is the completion time exactly when some item names it; products no item names are unchanged |
| `Inventory.RepeatedAdjustmentDecrementsTwice` | backend/controllers/order_controllers.js:81-114 | completing the same order twice takes twice the quantity off the stock and adds it twice to the sold count |
| `OrderWorkflow.ValidateReceipt` | backend/controllers/order_controllers.js:131-134 | rejects with 400 "Wrong property" exactly when paymentId, deliveryInfo, receiverInfo, items or totalToPay is falsy or the fee check over taxFee and shippingFee fails |
| `OrderQueries.GetOrder` | backend/controllers/order_controllers.js:153-165 | 400 when neither selector is given; with a payment id, the first order paid under it (that id wins over an order id); otherwise the first order with the order id; 404 exactly when nothing matches |
| `OrderQueries.FindOrdersWithProductId` | backend/controllers/order_controllers.js:167-177 | 400 without a product id; otherwise exactly the orders with a line item naming the product, each as many times as in the collection and in collection order |
| `OrderQueries.ShopView` | backend/controllers/order_controllers.js:185-205 | the projected order keeps its id, shipping info, fees, statuses, payment info, buyer snapshot and creation time; its items are the order's items of the shop, each as many times as in items_of_order and in the same order; they are empty exactly when the shop has no item in the order; the aggregate fields are absent from the view's type |
| `OrderQueries.GetOneOrderForShop` | backend/controllers/order_controllers.js:179-210 | 400 without an order id; 404 exactly when no order has that id; otherwise the shop view of that order |
| `OrderQueries.ShopWithoutItemsSeesEmptyOrder` | backend/controllers/order_controllers.js:185-209 | an existing order with none of the shop's items comes back with an empty item list, not a 404 |
| `OrderQueries.ShopMatching` | backend/controllers/order_controllers.js:252-275 | the listing before paging: every row holds at least one of the shop's items and no other shop's item, and has the requested order status when a status string is given; every order that has an item of the shop and passes the status filter is listed as its shop view |
| `OrderQueries.GetOrdersForShop` | backend/controllers/order_controllers.js:244-281 | 400 without page or limit; otherwise exactly the rows of the page, min(limit, matching - (page-1)*limit) of them and none past the end, row k being the view of matching order (page-1)*limit + k, so filtering happens before slicing; no row holds another shop's item |
| `OrderQueries.ConcatenatedEnd` | backend/controllers/order_controllers.js:277-278 | the slice end read from the text of the page start followed by the text of limit: divided by 10 to the number of limit's digits it gives the start, and the remainder is limit; it equals limit on the first page and exceeds start + limit on every later page |
| `OrderQueries.GetOrdersForShopAsWritten` | backend/controllers/order_controllers.js:277-278 | the handler with its string-concatenated slice end, which agrees with the intended slice on page 1 |
| `OrderQueries.AsWrittenOverflowsLaterPages` | backend/controllers/order_controllers.js:277-278 | on every page after the first, as written, more than limit orders come back whenever more than limit matching orders follow the page start; the intended slice returns exactly limit |
| `OrderQueries.UnknownOrderStatusListsNothing` | backend/controllers/order_controllers.js:252-256 | a truthy orderStatus string that names no order status gives an empty shop listing |
| `OrderQueries.ShopPageTwoOverflows` | backend/controllers/order_controllers.js:277-278 | with five matching orders, page 2 of size 2 as written returns three orders, where two are intended |
| `OrderQueries.Summary` | backend/controllers/order_controllers.js:224-232 | a listing row keeps the id, the creation time and both statuses and previews exactly the first min(2, n) line items |
| `OrderQueries.GetOrders` | backend/controllers/order_controllers.js:212-242 | 400 without page or limit; otherwise exactly the rows of the page, min(limit, matching - (page-1)*limit) of them and none past the end, row k summarising the caller's matching order at offset (page-1)*limit + k; the count is the number of all matching orders, independent of the page |
| `OrderQueries.UnknownPaymentStatusListsNothing` | backend/controllers/order_controllers.js:216-239 | a truthy paymentStatus string that names no payment status gives no rows and a count of 0 |
| `OrderQueries.BuyerOrderIsListed` | backend/controllers/order_controllers.js:234-236 | every matching order of the caller appears, as its summary, on page k / limit + 1 at row k % limit |
| `OrderQueries.BuyerPagingOfFive` | backend/controllers/order_controllers.js:234-239 | five orders with pages of two: page 1 holds orders 1 and 2, page 3 holds order 5, and the count is 5 |
| `OrderQueries.PlacedOrderResolves` | backend/controllers/order_controllers.js:46-68 | a newly placed order is found by its id, as uncompleted / processing, with method "none", the gateway's ids, the caller's snapshot and the request's items |
| `OrderQueries.CompletedOrderResolves` | backend/controllers/order_controllers.js:91-101 | after completion the order is found by its id as succeeded / processing, with the new method and the same line items |
| `ProductReducer.MergeNewReview` | frontend/src/store/reducers/product_reducer.js:154-159 | the new review comes first; the rest are the old reviews by other users, each as many times as before and in their original order; no later review has the new review's user; the length is at most the old length plus one |
| `ProductReducer.MergeNewReviewIdempotent` | frontend/src/store/reducers/product_reducer.js:155-159 | merging the same review twice gives the same list as merging it once |
| `ProductReducer.MergeKeepsOneReviewPerUser` | frontend/src/store/reducers/product_reducer.js:155-159 | a list with one review per user still has one review per user after a merge |
| `ProductReducer.WithRatings` | frontend/src/store/reducers/product_reducer.js:161-166 | product.review gets the new average_rating and count_reviews and keeps every other key of the old review; the product's other keys are untouched |
| `ProductReducer.ProductsSlice.constructor` | frontend/src/store/reducers/product_reducer.js:5-33 | the slice starts in its initial state |
| `ProductReducer.ProductsSlice.CreateNewProductRequest` | frontend/src/store/reducers/product_reducer.js:36-39 | productDetail.loading becomes true and productDetail.error null; nothing else changes |
| `ProductReducer.ProductsSlice.CreateNewProductSuccess` | frontend/src/store/reducers/product_reducer.js:40-42 | productDetail.loading becomes false; nothing else changes |
| `ProductReducer.ProductsSlice.CreateNewProductFail` | frontend/src/store/reducers/product_reducer.js:43-46 | productDetail.loading becomes false and productDetail.error the payload's error; nothing else changes |
| `ProductReducer.ProductsSlice.UpdateProductRequest` | frontend/src/store/reducers/product_reducer.js:49-52 | productDetail.loading becomes true and productDetail.error null; nothing else changes |
| `ProductReducer.ProductsSlice.UpdateProductSuccess` | frontend/src/store/reducers/product_reducer.js:53-55 | productDetail.loading becomes false; nothing else changes |
| `ProductReducer.ProductsSlice.UpdateProductFail` | frontend/src/store/reducers/product_reducer.js:56-59 | productDetail.loading becomes false and productDetail.error the payload's error; nothing else changes |
| `ProductReducer.ProductsSlice.DeleteProductRequest` | frontend/src/store/reducers/product_reducer.js:61-64 | productDetail.loading becomes true and productDetail.error null; nothing else changes |
| `ProductReducer.ProductsSlice.DeleteProductSuccess` | frontend/src/store/reducers/product_reducer.js:65-67 | productDetail.loading becomes false; nothing else changes |
| `ProductReducer.ProductsSlice.DeleteProductFail` | frontend/src/store/reducers/product_reducer.js:68-73 | productDetail.loading becomes false; the error is replaced only by a truthy payload error and kept when the payload or its error is missing; nothing else changes |
| `ProductReducer.ProductsSlice.GetProductsRequest` | frontend/src/store/reducers/product_reducer.js:76-79 | the top-level error becomes null and loading true; nothing else changes |
| `ProductReducer.ProductsSlice.GetProductsSuccess` | frontend/src/store/reducers/product_reducer.js:80-85 | products, countProducts and currentPage take the payload's values together and loading becomes false; nothing else changes |
| `ProductReducer.ProductsSlice.GetProductsFail` | frontend/src/store/reducers/product_reducer.js:86-89 | the top-level error becomes the payload's error and loading false; nothing else changes |
| `ProductReducer.ProductsSlice.GetTopWeekRequest` | frontend/src/store/reducers/product_reducer.js:92-95 | topWeek.error becomes null and topWeek.loading true; nothing else changes |
| `ProductReducer.ProductsSlice.GetTopWeekSuccess` | frontend/src/store/reducers/product_reducer.js:96-99 | topWeek.products becomes the payload's products and topWeek.loading false; nothing else changes |
| `ProductReducer.ProductsSlice.GetTopWeekFail` | frontend/src/store/reducers/product_reducer.js:100-103 | topWeek.error becomes the payload's error and topWeek.loading false; nothing else changes |
| `ProductReducer.ProductsSlice.GetBestSellingRequest` | frontend/src/store/reducers/product_reducer.js:106-109 | bestSelling.error becomes null and bestSelling.loading true; nothing else changes |
| `ProductReducer.ProductsSlice.GetBestSellingSuccess` | frontend/src/store/reducers/product_reducer.js:110-113 | bestSelling.products becomes the payload's products and bestSelling.loading false; nothing else changes |
| `ProductReducer.ProductsSlice.GetBestSellingFail` | frontend/src/store/reducers/product_reducer.js:114-117 | bestSelling.error becomes the payload's error and bestSelling.loading false; nothing else changes |
| `ProductReducer.ProductsSlice.GetProductRequest` | frontend/src/store/reducers/product_reducer.js:120-124 | productDetail.error becomes null, productDetail.loading true and reviewsState.newReviewProcessing false; nothing else changes |
| `ProductReducer.ProductsSlice.GetProductSuccess` | frontend/src/store/reducers/product_reducer.js:125-128 | productDetail.product becomes the payload's product and productDetail.loading false; nothing else changes |
| `ProductReducer.ProductsSlice.GetProductFail` | frontend/src/store/reducers/product_reducer.js:129-132 | productDetail.error becomes the payload's error and productDetail.loading false; nothing else changes |
| `ProductReducer.ProductsSlice.GetReviewsRequest` | frontend/src/store/reducers/product_reducer.js:135-138 | reviewsState.error becomes null and reviewsState.loading true; nothing else changes |
| `ProductReducer.ProductsSlice.GetReviewsSuccess` | frontend/src/store/reducers/product_reducer.js:139-142 | reviewsState.reviews becomes the payload's reviews and reviewsState.loading false; nothing else changes |
| `ProductReducer.ProductsSlice.GetReviewsFail` | frontend/src/store/reducers/product_reducer.js:143-146 | reviewsState.error becomes the payload's error and reviewsState.loading false; nothing else changes |
| `ProductReducer.ProductsSlice.NewReviewRequest` | frontend/src/store/reducers/product_reducer.js:149-152 | reviewsState.newReviewProcessing becomes true and reviewsState.error null; nothing else changes |
| `ProductReducer.ProductsSlice.NewReviewSuccess` | frontend/src/store/reducers/product_reducer.js:153-167 | newReviewProcessing becomes false, the reviews become the merge of the new review into the old list, and product.review takes the new rating statistics; nothing else changes |
| `ProductReducer.ProductsSlice.NewReviewFail` | frontend/src/store/reducers/product_reducer.js:168-171 | reviewsState.newReviewProcessing becomes false and reviewsState.error the payload's error; nothing else changes |

## Findings

| source | as written | input that shows it | evidently intended | confidence | as-written member | corrected member |
|---|---|---|---|---|---|---|
| backend/controllers/order_controllers.js:277-278 | the slice end is `slice_begin + limit` with `limit` still the query string, so the two are joined as text (page 2, limit 2 gives end "22") | five matching orders, page=2, limit=2: orders 3 to 5 are returned | a slice from (page-1)*limit of at most limit orders (orders 3 and 4) | high, not executed | `OrderQueries.ShopPageTwoOverflows` | `OrderQueries.GetOrdersForShop` |

## Left out

- The payment gateway call (the intent request, the lower-casing of e-mail and currency, the metadata, the amount conversion `total_to_pay * 100` with `toFixed`) and `getStripeKey` are left out. They are external or floating point. The gateway's answer is the parameter `GatewayReply`, and amounts are exact reals.
- The receipt e-mail of `sendReceipt` is left out, because it is an external notification. Only its validation is modelled.
- `getOrdersByAdmin` is left out. It only copies caller-supplied keys into a database projection.
- MongoDB details are left out: ObjectId casts and the CastError an ill-formed id raises, `.lean()`, and the aggregation syntax. The shop listing's `$match` casts the shop id while its `$filter` compares the raw value; the model treats both as the same id comparison.
- `OrderWorkflow.OrderStore.CompletePlaceOrder`: does not model a failure of the bulk write, which the source reports through `next(error)` after the status change is committed. It also does not model a schema-validation failure of the status update (`runValidators`). The order schema is not part of this model.
- `OrderQueries.GetOrders`: takes the collection already in the requested sort order (`sort` or createdAt descending). The sort itself is not modelled.
- `OrderQueries.GetOrders`, `OrderQueries.GetOrdersForShop`: page and limit are positive integers when present. Non-numeric, zero or negative query values are left out. For `getOrders` their outcome depends on how MongoDB treats a negative skip or a zero limit. For `getOrdersForShop` it depends on how JavaScript's `slice` treats a negative or non-numeric begin, and on the text the concatenated end then spells.
- The status filters of both listings are the raw query strings. They are compared with the names the order schema stores: "uncompleted", "processing", "shipped", "delivered" and "cancelled" for order_status, and "processing", "succeeded" and "failed" for payment_status. The order schema is not part of this model, so these names are taken from the order's documented status sets.
- `OrderQueries.ConcatenatedEnd`: assumes limit is written in plain decimal without leading zeros.
- The timestamps from `moment()` and `createdAt` are the integer parameter `now`.
- Concurrent requests are left out. Each handler runs as one atomic step on the store.
- The `*Success` reducers of the product list, top-week, best-selling, product, reviews and new-review sub-states, and the `*Fail` reducers other than `deleteProductFail`, read `action.payload` and throw when it is missing. The model's payload parameters cannot be absent, so that path is left out. The `*Request` reducers and the create, update and delete `*Success` reducers never read the payload and take none in the model.
- `ProductReducer.CurrentReview`: spreading a review that is a string or an array would contribute index keys; the model treats every non-object review as contributing no keys.
- Immer's draft mechanics (`current(state)`) are left out. The model reads the state as it is before the reducer runs.
- React components, routing (`backend/routes/order_routes.js`, `frontend/src/app.js`) and the Cloudinary upload helper (`backend/utils/image_uploading.js`) are not part of this model.
