# Nexora storefront: cart, checkout and order ledger in Dafny

This project models the server side of a small fashion storefront, plus two client-side helpers, and proves properties of the model.

- **Cart router.** A table of cart lines, at most one per product. Adding a product that is already in the cart raises its quantity. The cart can be removed from and cleared. Every answer carries the live joined rows and their total.
- **Checkout router.** Checks the request body and re-prices every item from the catalog. It then applies 18% tax and a shipping charge of 50, which is waived above 999. On success it appends exactly one order and answers with a receipt. On failure it appends nothing.
- **In-line handlers in the server file.**
  - A cart that overwrites quantities.
  - A checkout that trusts the prices the client sends.
  - The two order-ledger reads: list newest first, and look up by order code.
  - The dispatch order, which shows the in-line cart, checkout and product handlers are never reached, while the order reads are.
- **Mood recommendations.** A case-insensitive keyword filter over name, category and description, cut to five results.
- **Client.** The product search and category filter, the cart badge's count and total, the add and update controls, and the image-source rule of a product card.

Files and modules:

| file | module | holds |
|---|---|---|
| `text.dfy` | `Text` | `Option`, JavaScript truthiness, ASCII case mapping, `includes`, subsequences |
| `catalog.dfy` | `Catalog` | the products table and lookup by id |
| `cart.dfy` | `CartRoutes` | the cart table as values, its lemmas, and the class `CartStore` updated in place |
| `pricing.dfy` | `Pricing` | the tax and shipping rule |
| `orders.dfy` | `Orders` | the orders table and the class `OrderLedger` that appends to it |
| `checkout.dfy` | `CheckoutRoute` | the re-pricing loop, order code, address, and the whole checkout |
| `legacy.dfy` | `LegacyServer` | the in-line cart and checkout handlers, the order listing and the order lookup |
| `routing.dfy` | `Routing` | dispatch in registration order |
| `recs.dfy` | `Recommendations` | the mood filter and the response |
| `storefront.dfy` | `Storefront` | the client's filter, reductions and cart requests |
| `product_card.dfy` | `ProductCard` | the image-source rule |

Conventions:

- Money is an exact `real`. Tax is exactly 18/100 of the subtotal, and the threshold test is exactly `> 999`.
- A field the client may leave out is an `Option`.
- JavaScript truthiness is written out: an absent value, 0 and "" are all falsy.
- The uuid, the clock and the random shuffle are parameters.
- An unknown product at the router checkout is answered with 500 "Checkout failed", not 404: the loop throws (backend/routes/checkout.js:26-28) and the handler's catch turns the error into a 500 (backend/routes/checkout.js:83-86).

## Model

| member | source | states |
|---|---|---|
| Text.Contains | backend/routes/recs.js:20 | `includes` holds exactly when the needle occurs at some position of the text |
| Catalog.Find | backend/routes/cart.js:36-37 | the lookup returns a catalog row with that id, and returns nothing exactly when no row has that id |
| Catalog.FindUnique | backend/server.js:40 | with unique ids, looking up a row's id returns that row |
| CartRoutes.QuantityOf | backend/routes/cart.js:39 | the existence check finds a line exactly when the product has one |
| CartRoutes.Without | backend/routes/cart.js:70 | deleting by product keeps exactly the other products' lines, never more lines than before |
| CartRoutes.WithoutIsSubsequence | backend/routes/cart.js:70 | deleting by product keeps the surviving lines in their original order |
| CartRoutes.Increment | backend/routes/cart.js:41 | the UPDATE raises the quantity of each line of the product by the requested amount and leaves every other line and the length as they were |
| CartRoutes.AddLine | backend/routes/cart.js:39-44 | after an add the product has a line; the table grows by one line exactly when the product was absent; existing lines keep their ids and products |
| CartRoutes.Join | backend/routes/cart.js:9-20 | the inner join yields no more rows than lines; every row is a line enriched with its product's catalog row, every line whose product exists yields its enriched row, and with one line per product no two rows name the same product, so each such line yields exactly one row |
| CartRoutes.Total | backend/routes/cart.js:22 | the `reduce` over the rows: 0 for none, otherwise the running sum of price times quantity (no contract of its own; TotalAppend and TotalOfJoin state its properties) |
| CartRoutes.CartValue | backend/routes/cart.js:9-22 | the independent reference for the total: catalog price times quantity summed over the lines whose product exists (no contract of its own; TotalOfJoin ties it to the reported total) |
| CartRoutes.TotalAppend | backend/routes/cart.js:22 | the reduced total adds up over any split of the rows |
| CartRoutes.TotalOfJoin | backend/routes/cart.js:9-22 | the reported total is the sum of catalog price times quantity over the lines whose product still exists |
| CartRoutes.CartValueAppend | backend/routes/cart.js:22 | the cart's value adds up over any split of the lines |
| CartRoutes.OnlyOfOneLine | backend/routes/cart.js:39-44 | with one line per product, a product has one line if present and none otherwise |
| CartRoutes.AddKeepsOneLinePerProduct | backend/routes/cart.js:39-44 | adding keeps at most one line per product |
| CartRoutes.AddMergesExisting | backend/routes/cart.js:39-41 | adding a product already in the cart adds no line and makes its quantity old plus requested |
| CartRoutes.IncrementQuantity | backend/routes/cart.js:41 | the increment raises the product's quantity by the requested amount |
| CartRoutes.AddInsertsNew | backend/routes/cart.js:42-43 | adding a new product appends one line with the requested quantity and keeps the earlier lines in place |
| CartRoutes.QuantityOfAppend | backend/routes/cart.js:43 | an inserted line for a new product is the one the existence check then finds |
| CartRoutes.AddLeavesOtherLines | backend/routes/cart.js:39-44 | adding leaves every other product's lines exactly as they were |
| CartRoutes.CartValueSplit | backend/routes/cart.js:22 | the cart's value is the product's own lines plus all the other lines |
| CartRoutes.IncrementValue | backend/routes/cart.js:41 | merging into the one line of a product raises the value by price times the added quantity |
| CartRoutes.AddRaisesTotal | backend/routes/cart.js:39-59 | adding a catalog product raises the reported total by exactly its price times the requested quantity |
| CartRoutes.RemoveDeletesLines | backend/routes/cart.js:70 | after removing, the product has no line and there is still one line per product |
| CartRoutes.RemoveAbsentIsNoOp | backend/routes/cart.js:70 | removing a product that has no line leaves the table unchanged |
| CartRoutes.RemoveLowersTotal | backend/routes/cart.js:70-85 | removing lowers the total by exactly the value of the product's lines |
| CartRoutes.AddTwiceMerges | backend/routes/cart.js:39-44 | adding 2 and then 3 of one product leaves a single line with quantity 5 |
| CartRoutes.CartStore.constructor | backend/db.js:20-25 | a fresh cart table is empty and satisfies the invariant |
| CartRoutes.CartStore.Snapshot | backend/routes/cart.js:7-23 | the GET answer's items are exactly the joined rows of the table, and its total is the catalog-priced sum |
| CartRoutes.CartStore.Add | backend/routes/cart.js:31-60 | a falsy id gives 400 and an unknown product gives 404, both leaving the table unchanged; otherwise the table becomes the merged table (quantity defaults to 1) with one line per product, and the answer is the fresh snapshot |
| CartRoutes.CartStore.Remove | backend/routes/cart.js:68-86 | the table loses exactly the product's lines (an absent product is not an error) and the answer is the fresh snapshot |
| CartRoutes.CartStore.Clear | backend/routes/cart.js:94-97 | the table is emptied and the answer is an empty list with total 0 |
| Pricing.PriceQuote | backend/routes/checkout.js:44-46 | tax is 18% of the subtotal; shipping is 0 exactly when the subtotal is strictly above 999 and 50 otherwise; the total is subtotal plus tax plus shipping |
| Pricing.GrandTotalFormula | backend/routes/checkout.js:44-46 | the grand total is 1.18 times the subtotal, plus 50 unless the subtotal exceeds 999 |
| Pricing.ShippingBoundary | backend/routes/checkout.js:45 | shipping is charged at exactly 999 and is free at 999.01 |
| Pricing.ThresholdDrop | backend/routes/checkout.js:45-46 | crossing the threshold lowers the grand total |
| Orders.Inserted | backend/server.js:64 | an insert is refused exactly when an order with the same code exists; otherwise the new row follows all earlier rows unchanged |
| Orders.InsertKeepsCodesUnique | backend/server.js:64 | an insert fails exactly when the order code is already taken, and one that succeeds keeps codes unique |
| Orders.OrderLedger.constructor | backend/server.js:61-73 | a fresh orders table is empty and satisfies the invariant |
| Orders.OrderLedger.Insert | backend/routes/checkout.js:53-65 | the row is appended with the next storage key exactly when its code is new; otherwise the table is unchanged |
| CheckoutRoute.ItemQuantity | backend/routes/checkout.js:30 | the quantity is `quantity` if truthy, else `qty` if truthy, else 1, and never 0 |
| CheckoutRoute.ResolveItem | backend/routes/checkout.js:25-40 | an item resolves exactly when it names a catalog product, and a resolved entry's line total is its price times its non-zero quantity |
| CheckoutRoute.ResolveItemOf | backend/routes/checkout.js:25-40 | an item naming a catalog product resolves to that product's id, name and price, the coerced quantity, and price times quantity |
| CheckoutRoute.Reprice | backend/routes/checkout.js:21-41 | a successful re-pricing has one entry per item |
| CheckoutRoute.RepriceAllOrNothing | backend/routes/checkout.js:21-41 | re-pricing succeeds exactly when every item resolves, and then yields one entry per item in input order |
| CheckoutRoute.RepriceUsesCatalogPrices | backend/routes/checkout.js:25-37 | each entry carries the catalog row's id, name and price, the coerced quantity, and catalog price times quantity as its line total |
| CheckoutRoute.RepriceIgnoresClientPrice | backend/routes/checkout.js:25-37 | changing the prices the client sends never changes the re-priced items |
| CheckoutRoute.RepriceFailurePersists | backend/routes/checkout.js:26-28 | once an item fails to resolve, re-pricing the whole list fails |
| CheckoutRoute.PriceItems | backend/routes/checkout.js:21-41 | the loop yields the re-priced items (or fails exactly when re-pricing fails) and a subtotal equal to the sum of their line totals |
| CheckoutRoute.OrderId | backend/routes/checkout.js:49 | the code starts with "ORD-" and is followed by at most 8 characters, as many as the uuid has up to 8 |
| CheckoutRoute.OrderIdShape | backend/routes/checkout.js:49 | the order code is "ORD-" followed by the upper-cased first 8 characters of the uuid: 12 characters with no lower-case letter |
| CheckoutRoute.ShippingAddress | backend/routes/checkout.js:50 | the address starts with the street part and ends with the pincode part, and its length is the four parts plus the 7 separator characters |
| CheckoutRoute.ShippingAddressLayout | backend/routes/checkout.js:50 | the address is address, city, state and pincode joined by ", ", ", " and " - ", and a missing part reads "undefined" |
| CheckoutRoute.CheckoutOutcome | backend/routes/checkout.js:12-86 | a failed checkout leaves the orders table as it was; a placed one keeps every earlier order and appends exactly one |
| CheckoutRoute.CheckoutPlacedWhen | backend/routes/checkout.js:12-80 | a valid body whose every item names a catalog product, under a fresh order code, places an order |
| CheckoutRoute.CheckoutAllOrNothing | backend/routes/checkout.js:53-80 | a failed checkout leaves the orders table as it was; a placed one appends exactly one new-coded order whose code, total and items are the receipt's |
| CheckoutRoute.CheckoutRejectsInvalidBody | backend/routes/checkout.js:12-18 | a missing, non-array or empty item list, or a customer without name or email, gives 400 and writes nothing |
| CheckoutRoute.CheckoutUnknownProductAborts | backend/routes/checkout.js:24-28 | one item naming an unknown product gives 500 "Checkout failed" and writes nothing |
| CheckoutRoute.CheckoutReceiptPricing | backend/routes/checkout.js:21-80 | a receipt has one catalog-priced entry per item, the sum of their line totals as subtotal, the tax, shipping and total of that subtotal, and currency "INR" |
| CheckoutRoute.CheckoutFreeShippingExample | backend/routes/checkout.js:44-46 | two of a product priced 500 cost 1000, 180 tax, free shipping, 1180 in all |
| CheckoutRoute.CheckoutFlatShippingExample | backend/routes/checkout.js:44-46 | one product priced 400 costs 400, 72 tax, 50 shipping, 522 in all |
| CheckoutRoute.Checkout | backend/routes/checkout.js:8-87 | the handler's answer and the new orders table are those of the checkout outcome, and the ledger invariant holds |
| LegacyServer.Overwrite | backend/server.js:165 | the in-line UPDATE sets the quantity of each line of the product to the requested value and leaves every other line and the length as they were |
| LegacyServer.LegacyAddLine | backend/server.js:161-169 | the table grows by one line exactly when the product was absent; existing lines keep their ids and products; every line of the product holds exactly the requested quantity |
| LegacyServer.OverwriteQuantity | backend/server.js:165 | the in-line update sets the product's quantity to exactly the requested value |
| LegacyServer.LegacyAddSetsQuantity | backend/server.js:161-169 | the in-line add keeps one line per product, leaves exactly the requested quantity, adds a line only for a new product, and leaves other products' lines alone |
| LegacyServer.LegacyAddIdempotent | backend/server.js:161-169 | repeating an in-line add leaves the table as the first add left it |
| LegacyServer.AddDiverges | backend/server.js:165 | for a product holding q, the router leaves q plus the request and the in-line handler leaves the request; the two tables agree exactly when q is 0 |
| LegacyServer.LegacyAddToCart | backend/server.js:146-176 | a falsy id or quantity gives 400 and an unknown product gives 404, both leaving the table unchanged; otherwise the table is overwritten or extended and the answer is the success message |
| LegacyServer.LegacyRemoveFromCart | backend/server.js:207-220 | removing a product with no line gives 404 and changes nothing; otherwise its lines go |
| LegacyServer.RemoveSameTable | backend/server.js:209-213 | the in-line remove and the router's remove leave the same table; only the status for an absent product differs |
| LegacyServer.ClientSubtotal | backend/server.js:236-238 | the client-priced sum is NaN (modelled as none) only when some item lacks a price or a quantity |
| LegacyServer.ClientSubtotalDefined | backend/server.js:236-238 | the client-priced subtotal is a number exactly when every item has both a price and a quantity |
| LegacyServer.LegacyCheckout | backend/server.js:223-281 | the handler's answer and the new orders table are those of the in-line checkout outcome, and the ledger invariant holds |
| LegacyServer.LegacyCheckoutOutcome | backend/server.js:223-281 | a failed in-line checkout leaves the orders table as it was; a placed one keeps every earlier order and appends exactly one |
| LegacyServer.LegacyPlacedWhen | backend/server.js:223-275 | a non-empty item array whose every item has a price and a quantity, a customer with name and email, and a fresh order code place an in-line order |
| LegacyServer.LegacyCheckoutRejects | backend/server.js:227-233 | an empty or missing cart, or a customer without name or email, gives 400 and writes nothing |
| LegacyServer.LegacyTrustsClientPrice | backend/server.js:236-263 | a placed in-line order takes its subtotal from the client's prices, applies the same tax and shipping rule, and stores the client's items verbatim; a failed one writes nothing |
| LegacyServer.ClientPriceDivergence | backend/server.js:236-242 | a client claiming price 1 for two items priced 500 pays 52.36 in-line, while the router charges 1180 |
| LegacyServer.InsertByTime | backend/server.js:286 | inserting into a newest-first list keeps it newest first and adds exactly that order |
| LegacyServer.NewestFirst | backend/server.js:286 | the listing is sorted by timestamp, most recent first, and holds exactly the stored orders |
| LegacyServer.NewestFirstHead | backend/server.js:286 | the first listed order is a stored order at least as recent as every other |
| LegacyServer.FindOrder | backend/server.js:304 | the lookup returns a stored order with that code, and returns nothing exactly when no order has it |
| LegacyServer.GetOrder | backend/server.js:302-311 | an unknown code gives 404 "Order not found"; a known one returns a stored order with that code |
| LegacyServer.FindOrderUnique | backend/server.js:304 | with unique codes the lookup returns the one order with that code |
| LegacyServer.PlacedOrderIsRetrievable | backend/server.js:302-311 | an order the router has just placed is found by its code, with the receipt's total and item snapshot |
| Routing.FirstRoute | backend/routes/cart.js:7-97 | a router answers exactly when one of its routes fits, and then with the handler of the first route that fits |
| Routing.FirstRouteAt | backend/routes/cart.js:7-97 | when route k fits and no earlier route does, the router answers with route k's handler |
| Routing.Dispatch | backend/server.js:25-28 | a request is answered by the first registered layer that matches it, and by none when none matches |
| Routing.ShadowedLayer | backend/server.js:25-28 | a layer whose requests an earlier layer always matches is never reached |
| Routing.InlineHandlersShadowed | backend/server.js:121-223 | no request ever reaches the in-line products, cart or checkout handlers |
| Routing.CartAndCheckoutGoToRouters | backend/server.js:25-28 | the cart and checkout requests are answered by the router handlers |
| Routing.OrderRoutesAreLive | backend/server.js:284-302 | the order listing and the lookup by code are reached |
| Recommendations.Mood | backend/routes/recs.js:12 | the mood is the lower-cased parameter (so it has no upper-case letter and the parameter's length), and it is empty when the parameter is absent or empty |
| Recommendations.MatchesMood | backend/routes/recs.js:18-22 | a failed check happens only on a product without a description, and a miss means neither name nor category contains the mood |
| Recommendations.MatchesMoodSpec | backend/routes/recs.js:18-22 | a product matches exactly when its name, category or description contains the mood; the check fails only on a null description reached after two misses |
| Recommendations.MoodFilter | backend/routes/recs.js:18-22 | a successful filter keeps no more products than the catalog has |
| Recommendations.MoodFilterSpec | backend/routes/recs.js:18-22 | the filter succeeds exactly when every product can be checked, and then keeps exactly the matches, in catalog order |
| Recommendations.EmptyMoodMatchesAll | backend/routes/recs.js:12-22 | an empty mood keeps every product |
| Recommendations.Recommend | backend/routes/recs.js:10-38 | the response is 500 exactly when the filter fails; otherwise it has at most 5 catalog products, count equal to their number, and mood "default" when empty |
| Recommendations.RecommendTopMatches | backend/routes/recs.js:25-27 | with at least one match, the answer is the first min(5, matches) matches |
| Recommendations.RecommendFallback | backend/routes/recs.js:28 | with no match, the answer is min(5, catalog size) products in the shuffled order |
| Recommendations.NoMoodGivesFirstFive | backend/routes/recs.js:12-34 | without a mood the answer is the first five catalog products, labelled "default" |
| Storefront.FilterProducts | frontend/src/App.jsx:97-104 | the filtered list is never longer than the catalog |
| Storefront.FilterProductsSpec | frontend/src/App.jsx:97-104 | a product is listed exactly when its name contains the query, ignoring case, and the category is "all" or its own; the list keeps catalog order |
| Storefront.UnnamedNeverShown | frontend/src/App.jsx:98-100 | a product without a name is never listed |
| Storefront.EmptySearchListsAllNamed | frontend/src/App.jsx:97-104 | an empty search in category "all" lists exactly the named products |
| Storefront.CartCount | frontend/src/App.jsx:110 | the badge count of a cart with no negative quantity is never negative |
| Storefront.CartCountAppend | frontend/src/App.jsx:110 | the badge count adds up over any split of the cart |
| Storefront.EmptyCartShowsZero | frontend/src/App.jsx:106-110 | an empty cart shows count 0 and total 0 |
| Storefront.ClientTotalAfterAdd | frontend/src/App.jsx:106-109 | the client's total over the returned rows is the server's total, and adding through the router raises it by price times quantity |
| Storefront.AddToCart | frontend/src/App.jsx:58-60 | adding always requests one of the product |
| Storefront.UpdateCartItem | frontend/src/App.jsx:69-76 | a quantity of 0 or less becomes a removal of the product, anything else a post of that quantity |
| Storefront.UpdateCartItemOutcome | frontend/src/App.jsx:69-76 | a removal removes the line under both servers; a positive quantity is stored as given in-line but added to the existing quantity by the router |
| Storefront.AddToCartAddsOne | frontend/src/App.jsx:58-60 | adding through the router puts exactly one more of the product in the cart |
| ProductCard.StripLeadingSlashes | frontend/src/components/ProductCard.jsx:15 | the result is a suffix of the input, does not start with "/", and only slashes were removed |
| ProductCard.ImageSource | frontend/src/components/ProductCard.jsx:8-17 | the source is empty exactly when the product has no image (absent or empty) |
| ProductCard.ImageSourceCases | frontend/src/components/ProductCard.jsx:8-17 | no image gives ""; an "http" URL or a rooted path is kept; anything else becomes "/" plus the image |
| ProductCard.ImageSourceShape | frontend/src/components/ProductCard.jsx:8-17 | the source is empty, starts with "/", or starts with "http" |
| ProductCard.ImageSourceIdempotent | frontend/src/components/ProductCard.jsx:8-17 | resolving an already resolved source changes nothing |

## Left out

- SQLite and HTTP plumbing are not modelled: connections, prepared statements, status transport, middleware and the health check. Tables are sequences, and answers are datatypes with their status and message.
- JSON serialisation of the order items is not modelled. Orders hold their items as values, so deserialising on read is the identity.
- The in-line handlers call `db.prepare(...).all()` and `.get()` as if the driver were synchronous, while backend/db.js:5-8 opens the promise-based wrapper. Where such a handler is reachable, it therefore throws and answers 500 on every request: this holds for GET /api/orders and GET /api/orders/:orderId (backend/server.js:283-311). The model gives these handlers the SQL meaning their queries state. So the LegacyServer.GetOrder, LegacyServer.NewestFirst, LegacyServer.NewestFirstHead and LegacyServer.PlacedOrderIsRetrievable rows describe what those queries mean, not what the routes answer as the code stands.
- The in-line GET `/api/cart` (backend/server.js:179-204) runs the same join and reduction as the router's GET. It is modelled once, by `CartRoutes.CartStore.Snapshot`.
- The in-line product reads (backend/server.js:121-143) and the products router (backend/routes/products.js) are not modelled beyond their place in dispatch. The in-line reads are proved unreachable. The router's two GET routes read the catalog, and its `POST /add-sample` (backend/routes/products.js:31-51) inserts a product. The same goes for the sample seeding and the schema setup at backend/server.js:35-112. backend/seed.js is not part of this model.
- The catalog is a constant (`CartRoutes.CartStore.catalog` and the `catalog` parameters), although `POST /api/products/add-sample` can insert a product at run time. No proved property depends on the catalog staying fixed: every cart answer and every checkout is priced from the catalog as it stands when the request is handled, which is the value passed in.
- The cart table in effect is the one backend/db.js:20-25 creates; the later `CREATE TABLE IF NOT EXISTS cart` at backend/server.js:50-58 then has no effect. The two schemas differ only in NOT NULL and the quantity DEFAULT, and the model uses neither: every insert it models binds both a product id and a quantity.
- Row order of the cart join is unspecified in SQL. `CartRoutes.Join` keeps line order.
- LegacyServer.NewestFirst: the order among orders with equal timestamps is unspecified in SQL; the model picks one order for them.
- Floating point is not modelled: sums, tax and the threshold comparison are exact. Display formatting is left out.
- ASCII-only case mapping: `toLowerCase`/`toUpperCase` are modelled on ASCII letters, and other characters are left unchanged.
- Randomness and clocks are parameters: the uuid, the insertion time, the receipt's ISO timestamp and the shuffled catalog.
- Recommendations.Recommend: the random sort is a parameter holding the same products in some order, so the model does not say which five products the fallback picks.
- CheckoutRoute.OrderIdShape: the 12-character shape is stated for uuids of at least 8 characters, which every v4 uuid is.
- Concurrency is not modelled, including the window between the existence check and the update in the cart add.
- Request values of the wrong JavaScript type are not modelled: non-numeric ids, string quantities, and a repeated `mood` query parameter.
- Express matches paths case-insensitively and tolerates a trailing slash. Paths here are exact segment lists; both kinds of layer would match the same variants, so shadowing is unaffected.
- The React UI, the notifications, the theme, the network wrappers (frontend/src/api.js, frontend/src/context/CartContext.jsx) and the duplicate filter in frontend/src/components/Header.jsx are not part of this model.
