# EzElectronics cart engine, catalog, reviews and user rules in Dafny

This project models the server core of EzElectronics, an e-commerce backend. The
core is the shopping-cart engine (`dao/cartDAO.ts`). Around it sit the catalog stock
operations (`dao/productDAO.ts`), the review store (`dao/reviewDAO.ts` and
`controllers/reviewController.ts`), the user authorization rules
(`controllers/userController.ts`) and the product error table (`errors/productError.ts`).

Every DAO writes to one SQLite database. Here that database is the class
`Db.Database`. Each table is a field:

- `products`: a map keyed by model.
- `carts`, `cartItems` and `reviews`: sequences in insertion order.
- `nextCartId`: the autoincrement counter of `carts.id`.
- `users`: a map keyed by username.

Each DAO or controller is a module of methods. A method takes the database, runs the
source's guards in the source's order, and then applies the source's statements.
The result is an `Outcome`: the value the promise resolves to, or the error it
rejects with. Each method states:

- which error is raised under which condition;
- that an error leaves the database unchanged (`unchanged(db)`);
- the whole new state after a success.

Two predicates on the database are proved to be kept:

- `WellFormed`: the schema constraints. These are the catalog and user keys, one item
  row per (cart, product), and cart ids that are unique and below the counter.
- `Consistent`: the cart engine's invariants. A customer has at most one unpaid cart.
  Every item row has quantity at least 1 and names a catalog product. Every cart's
  `total` equals the sum of quantity times selling price over its rows.

Every mutating cart method, including the helper steps, and every catalog method that keeps the catalog's models,
ensures `old(db.Consistent()) ==> db.Consistent()`. `ProductDao.DeleteProduct` ensures it
only when no item row names the deleted model, and `ProductDao.DeleteAllProducts` only
when `cartItems` is empty (see "Left out").
Checkout validates every row before it writes anything. On success it sets the paid
flag and the payment date, and lowers each product's stock by exactly the units in
the cart (`CartStore.Shipped`).

The files are:

- `wrappers.dfy`, `failures.dfy`, `product_errors.dfy`: `Option`, the error
  vocabulary, and the product error table.
- `sequences.dfy`: row filters (`WHERE` / `DELETE ... WHERE`).
- `schema.dfy`: the row types and the schema constraints.
- `cart_store.dfy`: lookups, joins, cart values, stock checks and invariants, as values.
- `db.dfy`: the database class.
- `cart_dao.dfy`, `product_dao.dfy`, `review_dao.dfy`, `review_controller.dfy`,
  `user_controller.dfy`: one module per source file.

## Model

| member | source | states |
|---|---|---|
| ProductErrors.Code | code/server/src/errors/productError.ts:12-93 | ProductNotFound is the only 404 and ProductInvalidDate the only 400. ProductInvalidGrouping is the only 422. AlreadyExists, Sold, EmptyStock and LowStock are exactly the 409s. |
| ProductErrors.Message | code/server/src/errors/productError.ts:1-7 | Each error carries its constant, non-empty message; MessagesDistinct shows no two errors share one. |
| ProductErrors.MessagesDistinct | code/server/src/errors/productError.ts:1-7 | The seven messages are pairwise distinct, so a message identifies its error. |
| ProductErrors.NotFoundMessage | code/server/src/errors/productError.ts:1-21 | ProductNotFound carries "Product not found" and code 404. |
| Sequences.Filter | code/server/src/dao/cartDAO.ts:537 | A `DELETE ... WHERE` keeps exactly the rows that fail the condition: every kept row is from the table, and every row that fails the condition is kept. The result is no longer than the table. |
| Sequences.FilterSingle | code/server/src/dao/cartDAO.ts:537 | A single row is kept exactly when it meets the condition. |
| Sequences.FilterConcat | code/server/src/dao/cartDAO.ts:537 | Filtering distributes over concatenation. With FilterSingle this fixes the result: the kept rows, in table order, each as often as it occurs. |
| Sequences.FilterUniqueBy | code/server/src/dao/cartDAO.ts:613 | Deleting rows never breaks a primary-key constraint. |
| CartStore.KeyedFilter | code/server/src/dao/cartDAO.ts:612-613 | Deleting item rows keeps `(cart_id, product_model)` a key of `cartItems`. |
| CartStore.FindCurrent | code/server/src/dao/cartDAO.ts:67-68 | The current cart is the first unpaid row of the customer, or none when no such row exists. |
| CartStore.FindItem | code/server/src/dao/cartDAO.ts:141-142 | The item row of (cart, model), or none when the cart has no row for the model. |
| CartStore.DropZero | code/server/src/dao/cartDAO.ts:536-537 | After `DELETE ... WHERE quantity_in_cart = 0`, every row left is from the table and has a nonzero quantity, and every nonzero row is kept. |
| CartStore.WithoutCart | code/server/src/dao/cartDAO.ts:612-613 | After `DELETE FROM cartItems WHERE cart_id = ?`, every row left is from the table and belongs to another cart, and every row of another cart is kept. |
| CartStore.PaidCartsOf | code/server/src/dao/cartDAO.ts:376-377 | Every cart selected is the customer's and paid, and every paid cart of the customer is selected. |
| CartStore.CartValueAppend | code/server/src/dao/cartDAO.ts:105-106 | Inserting a row adds quantity times price to its cart's value only. |
| CartStore.CartValueUpdate | code/server/src/dao/cartDAO.ts:168-169 | Changing one row's quantity changes its cart's value by the difference times the price. Other carts keep their value. |
| CartStore.CartValueDropZero | code/server/src/dao/cartDAO.ts:537 | Deleting the rows at quantity 0 changes no cart's value. |
| CartStore.CartValueWithoutCart | code/server/src/dao/cartDAO.ts:613 | Deleting a cart's rows makes its value 0 and leaves the other carts' values alone. |
| CartStore.CartValueNoRows | code/server/src/dao/cartDAO.ts:81 | A cart with no rows is worth 0. |
| CartStore.CartValueSamePrices | code/server/src/dao/cartDAO.ts:242 | A cart's value depends only on the selling prices of its products. |
| CartStore.Lines | code/server/src/dao/cartDAO.ts:241-257 | Every returned line names a catalog product with that product's current price and category. Under the invariant every line's quantity is at least 1. |
| CartStore.JoinedRows | code/server/src/dao/cartDAO.ts:241-246 | Exactly the item rows of that cart whose product is in the catalog. |
| CartStore.LinesAreJoinedRows | code/server/src/dao/cartDAO.ts:241-257 | The join answers one line per joined row, in table order, each with that row's model and quantity. No line comes from another cart. |
| CartStore.LinesCover | code/server/src/dao/cartDAO.ts:241-257 | Every row of the cart whose product is in the catalog comes back as a line with that row's model and quantity. |
| CartStore.LinesValueAppend | code/server/src/dao/cartDAO.ts:250-257 | The value of the lines is additive over concatenation, for any two lists of lines. |
| CartStore.LinesValueIsCartValue | code/server/src/dao/cartDAO.ts:241-257 | The lines a cart is returned with are worth exactly the cart's value. |
| CartStore.CartView | code/server/src/dao/cartDAO.ts:228-261 | The returned cart carries the stored row's customer, paid flag, payment date and total. When the stored total is the cart's value, it equals the value of the returned lines. |
| CartStore.StockError | code/server/src/dao/cartDAO.ts:319-324 | Stock 0 gives EmptyProductStock; stock below the units in the cart gives LowProductStock. It passes exactly when the as-written check passes. |
| CartStore.StockErrorAsWritten | code/server/src/dao/cartDAO.ts:320-321 | As written, a row passes exactly when the stock is non-zero and covers the units in the cart. It never answers LowProductStock. |
| CartStore.LowStockReportedAsEmpty | code/server/src/dao/cartDAO.ts:320-321 | With stock 3 and 5 units in the cart, the code reports EmptyProductStock, where LowProductStock is meant. |
| CartStore.FirstStockError | code/server/src/dao/cartDAO.ts:312-324 | None exactly when every joined row passes its check. Otherwise it is the error of a failing row. |
| CartStore.FirstStockErrorPrefix | code/server/src/dao/cartDAO.ts:319-324 | The loop may stop at the first failing row: later rows do not change the reported error. |
| CartStore.QtyInCartIsRowQuantity | code/server/src/dao/cartDAO.ts:336-337 | With one row per (cart, product), the units in the cart are that row's quantity. |
| CartStore.QtyInCartDropZero | code/server/src/dao/cartDAO.ts:536-537 | Deleting the rows at quantity 0 changes no count of units in any cart. |
| CartStore.AddUnitCounts | code/server/src/dao/cartDAO.ts:141-178 | The upsert (insert at 1, or add 1 to the existing row) adds exactly one unit of the product to the cart, and every other (cart, product) count is unchanged. |
| CartStore.RemoveUnitCounts | code/server/src/dao/cartDAO.ts:524-537 | The decrement, followed by the deletion of zero rows, takes exactly one unit off the row's (cart, product) and leaves every other count unchanged. |
| CartStore.Shipped | code/server/src/dao/cartDAO.ts:335-344 | After checkout the catalog has the same models. Each product's stock is lowered by the units of it in the cart and nothing else changes. |
| CartStore.ShippedStep | code/server/src/dao/cartDAO.ts:336-337 | Shipping one more row lowers exactly that row's product by that row's quantity. |
| CartStore.ShippedNext | code/server/src/dao/cartDAO.ts:335-344 | Shipping the rows one at a time in table order: after row `k` the catalog is the one after the rows before it, with row `k` applied. |
| CartStore.ShippedStockNonNegative | code/server/src/dao/cartDAO.ts:319-344 | A checkout that passed its stock checks never leaves a product in the cart with negative stock. |
| CartStore.AddUnitKeepsSchema | code/server/src/dao/cartDAO.ts:141-175 | Adding a unit keeps one row per (cart, product), and rows refer only to issued carts. |
| CartStore.RemoveUnitKeepsSchema | code/server/src/dao/cartDAO.ts:524-539 | Removing a unit keeps one row per (cart, product), and rows refer only to issued carts. |
| CartStore.OnlyCurrent | code/server/src/dao/cartDAO.ts:290-291 | Under the one-unpaid-cart invariant, the cart the lookup finds is the customer's only unpaid cart. |
| CartStore.ShiftKeepsConsistency | code/server/src/dao/cartDAO.ts:127-128 | Changing a cart's total by the change in its value keeps every invariant. |
| CartStore.AddUnitKeepsConsistency | code/server/src/dao/cartDAO.ts:125-175 | One more unit in the current cart, plus its price on the total, keeps every invariant. |
| CartStore.RemoveUnitValue | code/server/src/dao/cartDAO.ts:512-539 | Taking one unit out of a row lowers its cart's value by the price and changes no other cart's value. |
| CartStore.RemoveUnitRows | code/server/src/dao/cartDAO.ts:524-539 | After a unit is taken out and zero rows are deleted, every row still has quantity at least 1 and names a catalog product. |
| CartStore.RemoveUnitKeepsConsistency | code/server/src/dao/cartDAO.ts:512-539 | One unit less in the cart, and its price off the total, keeps every invariant. |
| CartStore.ClearKeepsConsistency | code/server/src/dao/cartDAO.ts:603-614 | Total 0 and no rows for the cart keeps every invariant. |
| CartStore.OpenCartKeepsConsistency | code/server/src/dao/cartDAO.ts:80-106 | A new unpaid cart holding one unit, for a customer with none, keeps every invariant. |
| CartStore.SealKeepsConsistency | code/server/src/dao/cartDAO.ts:327-344 | Sealing the current cart and shipping its units keeps every invariant, and leaves the customer with no unpaid cart. |
| CartStore.CatalogChangeKeepsConsistency | code/server/src/dao/productDAO.ts:13-19 | A catalog change that keeps every product and its price keeps every cart invariant. |
| CartStore.CatalogDeleteKeepsConsistency | code/server/src/dao/productDAO.ts:231-232 | Deleting a product that no item row refers to keeps every cart invariant. |
| CartDao.OpenCart | code/server/src/dao/cartDAO.ts:78-117 | A new unpaid cart is opened under the next id, with total = price and one row of quantity 1. The id counter moves on by one, and schema and invariants are kept. |
| CartDao.AddUnitTo | code/server/src/dao/cartDAO.ts:122-178 | The price is added to the cart's total, and its row for the product is incremented, or inserted at quantity 1. Schema and invariants are kept. |
| CartDao.AddToCart | code/server/src/dao/cartDAO.ts:33-196 | The errors, in order: WrongUserCart for a non-customer, ProductNotFound, then EmptyProductStock for stock at or below 0. Any error changes nothing. With no unpaid cart, exactly one unpaid cart is opened, with total = price and one row of quantity 1. Otherwise the price is added to the total and the row is incremented or inserted. The catalog is never touched, and the invariants are kept. |
| CartDao.GetCart | code/server/src/dao/cartDAO.ts:203-270 | WrongUserCart for a non-customer. With no unpaid cart, the answer is an empty cart and nothing is created. Otherwise it is the unpaid cart joined with current prices and categories. When the invariants hold, its total equals the value of its lines and every quantity is at least 1. It is the caller's and unpaid. |
| CartDao.CheckStock | code/server/src/dao/cartDAO.ts:312-324 | The loop reports the first failing row's error, and nothing exactly when every row passes. |
| CartDao.ShipRows | code/server/src/dao/cartDAO.ts:335-344 | The per-row stock updates leave the catalog at `Shipped`. |
| CartDao.Seal | code/server/src/dao/cartDAO.ts:326-344 | The current cart is marked paid on the given date and the catalog is left at `Shipped`. The schema holds, and if the invariants held they still hold and the customer has no unpaid cart. |
| CartDao.CheckoutCart | code/server/src/dao/cartDAO.ts:280-356 | The errors, in order: WrongUserCart, CartNotFound, EmptyCart (total 0), then the first stock error. Any error changes nothing at all. On success the cart is paid with today's date and every product's stock drops by exactly its units in the cart. Nothing else changes, the invariants hold, and the customer has no unpaid cart. |
| CartDao.GetCustomerCarts | code/server/src/dao/cartDAO.ts:365-440 | WrongUserCart for a non-customer. Otherwise the answer is exactly the caller's paid carts, in order and hydrated, or [] when there are none. |
| CartDao.TakeUnit | code/server/src/dao/cartDAO.ts:512-545 | One unit less in the row and its price off the total. Rows at 0 are deleted, and schema and invariants are kept. |
| CartDao.RemoveProductFromCart | code/server/src/dao/cartDAO.ts:449-568 | The errors, in order: WrongUserCart, ProductNotFound, CartNotFound, then ProductNotInCart. Any error changes nothing. It succeeds exactly when a customer's current cart has a row for a catalog product. Then the price comes off the total and one unit off the row, which is deleted at 0, so the invariants hold. |
| CartDao.ClearRow | code/server/src/dao/cartDAO.ts:602-619 | The cart's total becomes 0 and every item row of that cart is deleted. Schema and invariants are kept. |
| CartDao.ClearCart | code/server/src/dao/cartDAO.ts:576-630 | WrongUserCart, then CartNotFound. It succeeds exactly for a customer with a current cart. Then the total is 0 and every row of that cart is gone. It stays the customer's unpaid cart, and the invariants hold. |
| CartDao.DeleteAllCarts | code/server/src/dao/cartDAO.ts:637-651 | No cart is left. |
| CartDao.GetAllCarts | code/server/src/dao/cartDAO.ts:658-727 | Every cart, in table order, each hydrated with its lines. |
| ProductDao.InsertFailureAsWritten | code/server/src/dao/productDAO.ts:16 | As written, a failure counts as ProductAlreadyExists exactly when the violated column is `product.model`; anything else is a database error. |
| ProductDao.DuplicateModelNotRecognised | code/server/src/dao/productDAO.ts:13-17 | A repeated model violates `products.model`. The error text check does not recognise that, and passes the database error on instead of ProductAlreadyExists. |
| ProductDao.RegisterProducts | code/server/src/dao/productDAO.ts:10-25 | ProductAlreadyExists exactly when the model exists, with nothing changed. Otherwise exactly the new product is added. The invariants hold. |
| ProductDao.ChangeQuantityAsWritten | code/server/src/dao/productDAO.ts:40-45 | As written, the stored stock is the amount itself. The answer is text beginning `[object Object]`, because `+` joins the row object with the amount. |
| ProductDao.StoredQuantityDisagreesWithReport | code/server/src/dao/productDAO.ts:32-45 | As written, the answer is never the number old + amount, nor the stored stock. Unless the stock was 0, the stored stock is not old + amount. For amount 5 it stores 5 and answers `"[object Object]5"`. |
| ProductDao.ChangeProductQuantity | code/server/src/dao/productDAO.ts:28-53 | ProductNotFound exactly for an absent model, with nothing changed. It succeeds exactly for a stored model: the stock becomes old + amount and the same number is reported. |
| ProductDao.SellProductAsWritten | code/server/src/dao/productDAO.ts:59-80 | As written, every sale of a stored model succeeds and lowers its stock by the request. |
| ProductDao.OversaleAccepted | code/server/src/dao/productDAO.ts:66-72 | As written, selling more units than the stock holds succeeds and leaves the stock negative. |
| ProductDao.SellProduct | code/server/src/dao/productDAO.ts:56-87 | The errors, in order: ProductNotFound, EmptyProductStock (stock 0), then LowProductStock (stock below the request). Any error changes nothing. Success lowers exactly that product's stock by the request and never below 0. |
| ProductDao.GroupingError | code/server/test_unit/dao_tests/product.test.ts:356-484 | There is no error exactly for "model" with only a model, "category" with only a category, or no grouping with neither. Anything else is ProductInvalidGrouping (422). |
| ProductDao.ModelRow | code/server/src/dao/productDAO.ts:94-104 | The "model" grouping answers that one product, or ProductNotFound when no row matches. The available listing also needs stock above 0. |
| ProductDao.ModelRowAsWritten | code/server/src/dao/productDAO.ts:94-104 | As written, the "model" grouping succeeds for exactly the same inputs as the corrected ModelRow, but always answers the empty list; otherwise ProductNotFound. |
| ProductDao.ModelGroupingLosesProduct | code/server/src/dao/productDAO.ts:100-103 | As written, an existing model is answered with the empty list. |
| ProductDao.SelectRows | code/server/src/dao/productDAO.ts:112-122 | The rows pushed are every selected catalog product, once each, as stored. |
| ProductDao.Query | code/server/src/dao/productDAO.ts:93-147 | The listing answers as `Answers` says, for either listing. |
| ProductDao.GetProducts | code/server/src/dao/productDAO.ts:90-152 | "model" gives the one product or ProductNotFound. "category" gives exactly that category's products. Anything else gives every product. |
| ProductDao.GetAvailableProducts | code/server/src/dao/productDAO.ts:155-217 | The same filters, restricted to stock above 0. Every listed product has stock above 0. |
| ProductDao.AvailableIsStockedPart | code/server/src/dao/productDAO.ts:160-192 | A product is in the available listing exactly when it is in the full listing and its stock is above 0. |
| ProductDao.DeleteProductAsWritten | code/server/src/dao/productDAO.ts:220-238 | As written, ProductNotFound exactly for an absent model; otherwise the answer is `true` and the catalog is as it was. |
| ProductDao.DeleteProductKeepsProduct | code/server/src/dao/productDAO.ts:224-232 | As written, deleting a stored model reports success and the model is still in the catalog. |
| ProductDao.DeleteProduct | code/server/src/dao/productDAO.ts:220-244 | ProductNotFound exactly for an absent model, with nothing changed. It succeeds exactly for a stored model, and then exactly that model is removed. |
| ProductDao.DeleteAllProducts | code/server/src/dao/productDAO.ts:247-261 | The catalog is empty. |
| ReviewDao.CountReviews | code/server/src/dao/reviewDAO.ts:26-35 | The count is positive exactly when the user has reviewed the model. |
| ReviewDao.AtMostOneReview | code/server/src/dao/reviewDAO.ts:26-35 | While the one-review rule holds, a product and user have at most one review. |
| ReviewDao.ProductReviews | code/server/src/dao/reviewDAO.ts:57-74 | Exactly the reviews of the model, or [] when there are none. |
| ReviewDao.WithoutReview | code/server/src/dao/reviewDAO.ts:109 | The (model, user) review is deleted and every other review is kept. |
| ReviewDao.WithoutProduct | code/server/src/dao/reviewDAO.ts:138 | Every review of the model is deleted and every other review is kept. |
| ReviewDao.DeletionKeepsOneReviewEach | code/server/src/dao/reviewDAO.ts:109 | Deleting one user's review keeps the one-review rule. |
| ReviewDao.ProductDeletionKeepsOneReviewEach | code/server/src/dao/reviewDAO.ts:138 | Deleting every review of a product keeps the one-review rule. |
| ReviewDao.AddingKeepsOneReviewEach | code/server/src/dao/reviewDAO.ts:26-39 | Adding a review for a (product, user) without one keeps the one-review rule. |
| ReviewDao.AddReview | code/server/src/dao/reviewDAO.ts:22-51 | ExistingReview exactly when the user already reviewed the model, with nothing changed. Otherwise exactly one review (model, user, score, today, comment) is appended, and the rule is kept. |
| ReviewDao.AddedReviewIsListedLast | code/server/src/dao/reviewDAO.ts:37-45 | After an add, the product's reviews are the old ones followed by the new one. |
| ReviewDao.DeleteReview | code/server/src/dao/reviewDAO.ts:83-121 | ProductNotFound for an absent product, then NoReviewProduct when the user has no review of it. Any error changes nothing. It succeeds exactly when the product exists and the user has reviewed it, and then only that review is removed. |
| ReviewDao.DeleteReviewsOfProduct | code/server/src/dao/reviewDAO.ts:124-150 | ProductNotFound exactly for an absent product. It succeeds exactly for a stored product: every review of it goes and the others stay. |
| ReviewDao.NoReviewsLeft | code/server/src/dao/reviewDAO.ts:138 | A product with no review left lists []. |
| ReviewDao.DeleteAllReviews | code/server/src/dao/reviewDAO.ts:152-167 | No review is left. |
| ReviewController.ProductGuard | code/server/src/controllers/reviewController.ts:28-31 | The guard fails, with ProductNotFound, exactly when the catalog lacks the model. |
| ReviewController.AddReview | code/server/src/controllers/reviewController.ts:27-33 | An unknown product fails before the reviews are touched. It succeeds exactly for a known product the user has not reviewed. Then the store's add applies, and the new review is listed last. |
| ReviewController.GetProductReviews | code/server/src/controllers/reviewController.ts:40-47 | ProductNotFound exactly for an unknown model, and success exactly for a known one. The store's list is returned unchanged. |
| ReviewController.DeleteReview | code/server/src/controllers/reviewController.ts:56-58 | Delegated unchanged: the store's errors and effect. It succeeds exactly when the product exists and the user has reviewed it. |
| ReviewController.DeleteReviewsOfProduct | code/server/src/controllers/reviewController.ts:66-72 | An unknown model fails before anything is deleted. It succeeds exactly for a known model, and then every review of the model goes. |
| ReviewController.DeleteAllReviews | code/server/src/controllers/reviewController.ts:79-81 | Delegated unchanged: no review is left. |
| UserController.Lookup | code/server/src/controllers/userController.ts:74 | The stored user, or UserNotFound exactly when absent. |
| UserController.GetUserByUsername | code/server/src/controllers/userController.ts:56-63 | UnauthorizedUser exactly when the caller is not an Admin and the caller's name differs from the username. It succeeds exactly for an allowed caller and a stored username, with the stored user; otherwise UserNotFound. |
| UserController.OwnRecordNeedsMatchingName | code/server/src/controllers/userController.ts:57 | A non-Admin whose name is not their username is refused their own record. |
| UserController.NameMatchReadsOtherRecord | code/server/src/controllers/userController.ts:57 | A non-Admin whose name is another user's username may read that user. |
| UserController.DeleteDenial | code/server/src/controllers/userController.ts:75-80 | UserNotAdmin exactly for a non-Admin deleting someone else. UserIsAdmin exactly for an Admin deleting an Admin of another name. |
| UserController.SameNamedAdminDeletable | code/server/src/controllers/userController.ts:78 | An Admin may delete another Admin with the same name. |
| UserController.DeleteUser | code/server/src/controllers/userController.ts:73-84 | A missing target gives UserNotFound before any authorization check. Then the denial applies. Any error changes nothing. Otherwise exactly the target is removed. |
| UserController.UpdateDenial | code/server/src/controllers/userController.ts:106-111 | UserNotAdmin for a non-Admin updating someone else. UnauthorizedUser for an Admin updating another Admin. Allowed exactly for oneself, or for an Admin on a non-Admin. |
| UserController.UpdateUserInfo | code/server/src/controllers/userController.ts:104-116 | UserNotFound first, then the denial. Any error changes nothing. On success the re-read user carries the new name, surname, address and birthdate, with username and role kept, and only that user changes. |
| UserController.DeleteAll | code/server/src/controllers/userController.ts:90-92 | Every Admin is kept unchanged, and no non-Admin is left. |

## Left out

- SQLite plumbing: error callbacks (`err`) and the raw `db.get`/`db.run`/`db.all` calls. The model has no database failures except the unique-constraint one behind `ProductDao.DuplicateModelNotRecognised`.
- Promise ordering: `addToCart`, `removeProductFromCart` and `clearCart` resolve `true` before their callbacks run (cartDAO.ts:189, 561, 624). The model runs the guards and statements in sequence, so their errors reach the caller.
- In reviewDAO.ts:26-36 and 97-107, the existence checks are not awaited, and they read a table `ProductReview` while the rows live in `reviews`. The model performs each check on `reviews` before the write.
- In productDAO.ts:107 and 128 (getProducts) and :172 and :193 (getAvailableProducts), the category listing and the full listing call `db.get` (one row) and then iterate rows. All four are modelled as the all-rows query.
- `changeProductQuantity` and `sellProduct` treat the row `{quantity: n}` returned by the lookup as the stock number. As written, `stock + newQuantity` in changeProductQuantity is then a string concatenation, and in sellProduct `stock == 0` and `stock < quantity` are never true, so neither stock check ever fires (see "Findings"). ChangeProductQuantity and SellProduct read the row as its `quantity` column.
- ProductDao.SellProduct: productDAO.ts:67-72 also does not chain the empty-stock test with the low-stock test, so if the stock were read as a number, stock 0 with a request of 0 or less would reject and still run the UPDATE. The corrected model stops at the first rejection.
- Concurrency and transactions: the check-then-act races between concurrent checkouts or first adds are outside a sequential model.
- Dates: `CURRENT_DATE` and `dayjs()` become a `today` parameter. The `sellingDate` and `changeDate` arguments are not used by the DAO, so they are dropped. The `ProductInvalidDate` checks are not in the DAO.
- Prices and totals are integers (for example cents), not floating point.
- userDAO.ts is not part of this model. The user store is the `users` map, and a lookup of an absent username is read as UserNotFound. `createUser`, `getUsers` and `getUsersByRole` only delegate to that DAO and are not modelled.
- `getProductByModel`, which the review controller calls (reviewController.ts:28, 41, 67), is not defined in productDAO.ts or anywhere else in the source. It is read as membership of the model in the catalog, failing with ProductNotFound.
- Routing, validation middleware and authentication are left out. The route's score range 1 to 5 appears only as the precondition of `ReviewDao.AddReview` and `ReviewController.AddReview`.
- ProductDao.GetProducts: the catalog is a map, so the listing's row order is not modelled. The contract states each selected product once, in some order.
- ProductDao.GetAvailableProducts: the row order is not modelled, as for GetProducts.
- CartDao.DeleteAllCarts and CartDao.OpenCart: `carts.id` is modelled as an autoincrement counter that never hands out an id twice (`nextCartId`), so CartDao.DeleteAllCarts does not reset it. The table definition is not part of this model. A plain `INTEGER PRIMARY KEY` would reuse ids after `DELETE FROM carts`, and then item rows left behind by the delete would join the next cart opened at cartDAO.ts:81, whose total would no longer equal its rows' value.
- CartDao.DeleteAllCarts: the statement deletes carts only. Whether the schema cascades to `cartItems` is not known, so item rows are left as they are, referring to carts that no longer exist.
- ProductDao.DeleteProduct: the source does not guard against deleting a product still in a cart. The cart invariants are proved kept only when no item row names the model. As written the DELETE removes nothing at all (see "Findings"); the model removes the product.
- ProductDao.DeleteAllProducts: `DELETE FROM products` leaves every cart row in place, naming products that no longer exist. The cart invariants are proved kept only when `cartItems` is empty.
- ProductSold is part of the error table, but no modelled operation raises it.
- The empty cart that `getCart` answers carries the payment date `""` (`Some("")`). Stored unpaid carts carry NULL (`None`), as the INSERT writes them.

## Findings

| source | as written | input that shows it | evidently intended | confidence | as-written member | corrected member |
|---|---|---|---|---|---|---|
| code/server/src/dao/cartDAO.ts:320-321 | A stock below the units in the cart is rejected with EmptyProductStockError, the same error as an empty stock | Checkout of a cart holding 5 units of a product with stock 3 | LowProductStockError for a short stock, and EmptyProductStockError only for stock 0 (the DAO test at test_unit/dao_tests/cart.test.ts:174-180 expects it) | medium, not executed | CartStore.LowStockReportedAsEmpty | CartStore.StockError |
| code/server/src/dao/productDAO.ts:100-103 | When the "model" grouping finds its row, it resolves the empty list `products` (also at :165-168) | `getProducts("model", null, m)` with `m` in the catalog | A one-element list holding product `m` | high, not executed | ProductDao.ModelGroupingLosesProduct | ProductDao.ModelRow |
| code/server/src/dao/productDAO.ts:32-45 | The UPDATE stores the given amount as the new stock. The lookup hands over the row `{quantity: n}`, so `stock + newQuantity` joins the object's text with the amount | Stock 5, amount 5: 5 is stored and the promise resolves the text `"[object Object]5"` | The stock becomes old + amount and that number is reported (the DAO test expects 10) | medium, not executed | ProductDao.StoredQuantityDisagreesWithReport | ProductDao.ChangeProductQuantity |
| code/server/src/dao/productDAO.ts:16 | A duplicate is recognised only by the text `product.model`, but the table is `products`, so SQLite names `products.model` | Registering a model already in the catalog | ProductAlreadyExistsError (409) | medium, not executed | ProductDao.DuplicateModelNotRecognised | ProductDao.RegisterProducts |
| code/server/src/dao/productDAO.ts:224-232 | The lookup callback's row parameter is also named `model` and shadows the argument, so the DELETE binds the row object `{model: ...}`. No row matches it, nothing is deleted, and the promise still resolves `true` | `deleteProduct(m)` with `m` in the catalog | Product `m` is removed | high, not executed | ProductDao.DeleteProductKeepsProduct | ProductDao.DeleteProduct |
| code/server/src/dao/productDAO.ts:60-72 | The lookup answers the row `{quantity: n}`, and `stock == 0` and `stock < quantity` compare that object with a number, which is never true. Every sale of a stored model runs its UPDATE | `sellProduct(m, 5)` with stock 1: resolves `true` and leaves stock -4 | EmptyProductStockError for stock 0 and LowProductStockError for a short stock, with nothing written | high, not executed | ProductDao.OversaleAccepted | ProductDao.SellProduct |
