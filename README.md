# Cart-to-order model of an e-commerce API

This project models the cart and checkout core of a small FastAPI/SQLAlchemy shop backend, and proves properties of that model. Three handlers are covered. `add_to_cart` puts a product into the user's open cart, creating the cart if the user has none, and merges repeated adds into one line. `view_cart` prices the open cart at current catalog prices. `create_order` turns the open cart into an order: it checks and lowers stock, snapshots every line, stores the order and closes the cart, all at one commit.

The tables become a `Store` class (`shop.dfy`) with four fields: `products` (a map from id to `Product`), `carts` (a sequence of `Cart`, each holding its own `CartItem` lines), `orders` (a sequence of `Order`, each holding its own `OrderItem` snapshot lines) and `nextItemId` (the next line id). The handlers are methods on the store. A handler that raises before its commit leaves every field unchanged. The checkout loop runs on a local copy of the catalog and writes it back once, at the single commit.

The record shapes and column constraints (`models.dfy`) become datatypes and predicates:
- `References`: the `product_id` foreign key.
- `OneLinePerProduct`: merge-on-add.
- `UniqueCartOwners`: the declared unique `user_id`.
- `OneOpenCartPerUser`: the rule the column's comment states.
- `DenseCartIds`, `CartWellFormed`, `OrdersConsistent`: ids, line ownership, and each order total equal to the sum of its lines.

`Store.Valid()` keeps all of these except `UniqueCartOwners` (see Findings). Prices and totals are integers (cents), so sums are exact. User identity is a plain parameter.

Modules: `Outcomes` (option, result, the handlers' errors), `Models`, `CartOps` (the cart queries, the merge, the live quote), `OrderCheckout` (the checkout loop and its specification `Checkout`, a recursion over the cart's lines in order), `Shop`.

The code does not check all stock before decrementing anything. Instead it checks and decrements line by line, against stock that earlier lines may already have lowered, and raises at the first shortfall. Since nothing is committed before that point, the effect is still all-or-nothing (`Store.CreateOrder`, `CheckoutStopsAtShortfall`).

## Model

| member | source | states |
|---|---|---|
| `CartOps.OpenCart` | application/main.py:103-104 | Returns the first cart that is open and owned by the user, or none exactly when the user has no open cart |
| `CartOps.FindLine` | application/main.py:112-113 | Returns the first line of the cart for the product, or none exactly when no line names it |
| `CartOps.OpenOrCreateCart` | application/main.py:103-110 | Yields an open cart owned by the user. When none existed, appends a new empty open cart with the next id and leaves existing carts untouched. Keeps at most one open cart per user, and the query then finds this cart |
| `CartOps.AddLineShape` | application/main.py:115-120 | Adding a product the cart already holds inserts no line, keeps every line's id, cart and product, and leaves lines of other products unchanged. Adding a product the cart does not hold appends exactly one new line with the fresh id, the cart's id and the requested quantity |
| `CartOps.AddLineMerges` | application/main.py:112-120 | After the add, the product's total in the cart has grown by exactly the requested amount and every other product's total is unchanged. At most one line per product is kept, and the returned line carries the product's whole quantity |
| `CartOps.AddLineKeepsCartWellFormed` | application/models.py:57-67 | Merging a positive quantity keeps every line owned by its cart, naming an existing product, positive, with an id below the next free id, and merged per product |
| `CartOps.RepeatedAddsAccumulate` | application/main.py:112-120 | A run of adds of one product leaves that product's quantity equal to the prior quantity plus the sum of the requests, in exactly one line |
| `CartOps.OpenOrCreateCartAsWritten` | application/models.py:51 | As written, an existing open cart is reused unchanged. With no open cart, the insert fails with an integrity error exactly when the user already owns a (closed) cart row; otherwise one new open cart is appended and the existing rows are kept. A success keeps one cart row per user |
| `CartOps.CheckoutLocksOutAsWritten` | application/main.py:106-110 | As written, once checkout has closed a user's open cart, inserting the user's next cart violates the unique constraint |
| `CartOps.CheckoutThenAddOpensSecondCart` | application/main.py:205 | Under the intended rule, closing the cart and adding again gives the user a fresh empty open cart. One open cart per user still holds, but the user now owns two cart rows |
| `OrderCheckout.Checkout` | application/main.py:184-196 | The checkout keeps the catalog's product ids, produces one order line per cart line, and can fail only with not-enough-stock |
| `OrderCheckout.CheckoutLines` | application/main.py:181-196 | The loop's outcome is the checkout specification, and the accumulated total is the sum of price × quantity over the snapshot lines. The caller's catalog is not modified |
| `OrderCheckout.CheckoutEffect` | application/main.py:189-196 | On success, each product's stock drops by exactly the units its lines take, and nothing else about a product changes. Order line k copies line k's product id and quantity, and the price the product had when checkout began |
| `OrderCheckout.CheckoutSucceedsIff` | application/main.py:184-189 | Checkout succeeds exactly when no line asks for more than remains of its product after the earlier lines of the same checkout have been served |
| `OrderCheckout.CheckoutErrorNamesFirstShortfall` | application/main.py:186-187 | When line k is the first line short of stock, checkout fails with the not-enough-stock error naming that line's product |
| `OrderCheckout.CheckoutStopsAtShortfall` | application/main.py:186-187 | Once a prefix of the lines fails, the whole checkout fails with the same error |
| `OrderCheckout.CheckoutTotalMatchesQuote` | application/main.py:190 | The order total equals the live cart quote (current price × quantity summed) at the moment of checkout |
| `OrderCheckout.CheckoutKeepsStockNonNegative` | application/main.py:186-189 | Every product a successful checkout touches ends with a non-negative stock, and no product whose stock was non-negative goes below zero |
| `OrderCheckout.MergedCartQuantities` | application/main.py:112-117 | In a merged cart, each line's quantity is all its product holds, and no earlier line names it |
| `OrderCheckout.CheckoutMergedCartSucceedsIff` | application/main.py:184-187 | For a merged cart, checkout succeeds exactly when every line's quantity is within its product's stock |
| `OrderCheckout.CheckoutMergedCartEffect` | application/main.py:189 | For a merged cart, each product in the cart loses exactly its line's quantity, and products outside the cart are unchanged |
| `OrderCheckout.CheckoutOnlyLowersStock` | application/main.py:189 | With positive quantities, checkout never raises stock, and strictly lowers it for every product in the cart |
| `OrderCheckout.NegativeQuantityRestocks` | application/schemas.py:58 | As written, a request for -3 units inserts a -3 line. Checkout then raises the stock from 0 to 3 and records an order total of -3000 |
| `Shop.CloseCartKeepsCarts` | application/main.py:205 | Closing the checked-out cart, with the catalog replaced by one over the same product ids, keeps cart ids dense, at most one open cart per user, and every cart's lines owned, positive, merged and naming existing products |
| `Shop.Store.AddToCart` | application/main.py:95-124 | Rejects a non-positive quantity, then an unknown product (not found), leaving the store unchanged. Otherwise it finds or creates the user's open cart and merges the line. It returns the resulting line, keeps every store invariant, and leaves products and orders unchanged |
| `Shop.Store.ViewCart` | application/main.py:127-162 | With no open cart, returns id 0, no lines and total 0. Otherwise returns one priced line per cart line, with item total = current price × quantity, and a total equal to both the live quote and the sum of item totals. Changes nothing |
| `Shop.Store.CreateOrder` | application/main.py:170-208 | A missing or empty cart fails with cart-empty, and a stock shortfall fails with not-enough-stock; both leave the store unchanged. On success it stores the order with the snapshot lines and a total equal to the cart's quote, commits the lowered stock, closes the cart, and keeps every store invariant. No product whose stock was non-negative ends below zero |

## Findings

| source | as written | input that shows it | evidently intended | confidence | as-written member | corrected member |
|---|---|---|---|---|---|---|
| application/models.py:51 | `Cart.user_id` is unique, yet checkout closes the cart (application/main.py:205) and the next add inserts a new cart for the same user (application/main.py:106-110) | user 1 adds a product, checks out, adds again: the second cart insert violates the unique constraint at the commit on line 109, so the user can never add to a cart again | at most one OPEN cart per user (the column's own comment); a closed cart stays and a new open one is created | not executed; high wherever the store enforces UNIQUE | `CartOps.OpenOrCreateCartAsWritten`, `CartOps.CheckoutLocksOutAsWritten` | `CartOps.OpenOrCreateCart`, `CartOps.CheckoutThenAddOpensSecondCart` |
| application/main.py:116-119 | the requested quantity is never checked (default 1 at application/schemas.py:58, no lower bound) | add -3 units of a product with stock 0, then check out: the order succeeds, stock becomes 3, total is -3000 | quantity must be a positive integer | not executed; high | `CartOps.AddLine`, `OrderCheckout.NegativeQuantityRestocks` | `Shop.Store.AddToCart`, `OrderCheckout.CheckoutOnlyLowersStock` |

The store uses the corrected behaviour in both cases. `Store.AddToCart` rejects a quantity of zero or less with `InvalidQuantity` before anything else, as request validation would. `Store.Valid()` keeps one open cart per user and positive line quantities.

## Left out

- Registration, login, logout, password hashing and tokens (application/main.py:15-48): they rely on an `auth` module that is not part of this model. The user id is a parameter.
- Category and product create and list handlers, with their pagination (application/main.py:53-87). The catalog is given to the `Store` constructor. So the product stock default of 0 (application/models.py:35), which only matters when a product is created, is not modelled. The catalog may hold negative stock, as `create_product` (application/main.py:76) stores any integer; the store's invariants do not exclude it.
- The default quantity of 1 (application/schemas.py:58, application/models.py:61) is applied while the request is parsed. `AddToCart` takes the quantity explicitly.
- Concurrency, locking and races between simultaneous checkouts. Only the single-threaded transition is modelled.
- Float prices and totals: integers (cents) are used instead, so there is no rounding.
- Timestamps (`created_at`, application/models.py:49, 75) and response-only fields such as the order items' own row ids.
- Session plumbing (`add`, `commit`, `refresh`). A commit is an assignment to the store's fields. Storage failures at commit time are not modelled, apart from the unique-constraint failure in the as-written cart insert.
- The delete-orphan cascades (application/models.py:55, 79): the core never deletes a cart or an order. Lines are nested inside their cart or order, so a line belongs to exactly one of them and would go with it.
- The `uselist=False` user-to-cart relationship (application/models.py:16) is an ORM view of the same unique `user_id` covered by the first finding.
- A product missing at application/main.py:146 or 185 would crash the handler. Products are never deleted here, and `Store.Valid()` keeps every line's product in the catalog, so that path cannot arise.
- The order of a cart's lines: `Cart.items` (application/models.py:55) has no `order_by`, so the code reads the lines in whatever order the database returns them. The model fixes insertion order. That order decides which product the not-enough-stock error names when several lines are short, and the order of the order lines.
