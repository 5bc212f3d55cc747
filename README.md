# Cart and order logic of a furniture-store backend, in Dafny

This project models the two parts of the storefront backend that contain real domain logic:

- **The cart** (`controllers/cart.controller.js`). Each user has at most one cart, an ordered
  list of `(productId, quantity)` lines plus an `updatedAt` stamp. There are five operations:
  - get: the user's lines, or an empty placeholder when the user has no cart;
  - add: create the cart, merge into the product's line, or append a new line;
  - update-quantity: overwrite the quantity of the product's line;
  - remove: keep the lines of every other product;
  - clear: empty the list.
- **The orders** (`controllers/order.controller.js`), covering:
  - validation when an order is created;
  - the five-value status enum (`models/order.model.js:17`);
  - the admin's status update, which stamps or clears `deliveredAt`;
  - the owner's cancel, legal only from `pending` or `processing`;
  - read access by id;
  - the two listings, sorted newest first.

The cart is a `class Cart` whose `items: seq<Line>` and `updatedAt` fields the controller methods
assign, as the controller does to the loaded document. Each method takes `cart: Cart?`: this is
what the lookup of the user's cart returns, with `null` meaning the user has no cart. Each method
is proved against a pure function on the line list:

- `AddLine` for add;
- `SetQuantity` for update-quantity;
- `RemoveLines` for remove.

The cart invariant is `Cart.Valid()`: one line per product, and every quantity at least one
(the schema minimum, `allModels.js:27`). No method requires it. Each method only promises to keep
it: one-line-per-product is enforced by no store constraint, and the quantity minimum only by
the schema validation on save, which is not modelled.

The order collection is a `class OrderStore` holding `orders: map<OrderId, Order>`. Its methods
load an order, assign fields of the loaded copy and write it back. Each method is proved against
a pure outcome function:

- `NewOrder` for create;
- `StatusUpdate` for the admin's status update;
- `CancelOutcome` for cancel.

The store invariant says that an order has a delivery date exactly when its status is
`delivered`. All three operations keep it. The read rules (`GetOrderById`, `UserOrders`,
`AllOrders`) are functions of the map.

The caller is a value `Caller(id, role)`. The clock is a `now` parameter. HTTP responses become
result values:

- cart operations answer `Ok | BadRequest | NotFound`;
- order operations answer `Ok(value) | Forbidden | BadRequest | NotFound`.

A string request field counts as missing when it is absent or empty (`Blank`), which is
JavaScript's `!x`.

## Model

| member | source | states |
|---|---|---|
| `CartController.IndexOf` | controllers/cart.controller.js:31-33 | the result is the index of the first line for the product, or -1 exactly when no line has it |
| `CartController.AddLine` | controllers/cart.controller.js:31-38 | a product already present gets its quantity increased, with the length and every other line unchanged; an absent product is appended at the end after an unchanged prefix; one-line-per-product and quantity at least one are kept |
| `CartController.SetQuantity` | controllers/cart.controller.js:63-68 | the first line for the product gets exactly the new quantity; the length and every other line are unchanged; both cart invariants are kept |
| `CartController.RemoveLines` | controllers/cart.controller.js:86-88 | no kept line is for the removed product, and the list does not grow |
| `CartController.RemoveLinesFrom` | controllers/cart.controller.js:86-88 | every kept line is a line of the original cart |
| `CartController.RemoveLinesAppend` | controllers/cart.controller.js:86-88 | removal distributes over concatenation, so the kept lines stay in their original order |
| `CartController.RemoveAbsent` | controllers/cart.controller.js:86-90 | removing a product the cart does not hold leaves the list exactly as it was |
| `CartController.RemovePresent` | controllers/cart.controller.js:86-90 | in a cart with one line per product, removal drops exactly the product's line and keeps every other line, in order |
| `CartController.RemovePreservesInvariants` | controllers/cart.controller.js:86-90 | removal keeps one-line-per-product and quantity at least one |
| `CartController.UniqueCount` | controllers/cart.controller.js:31-38 | under the one-line-per-product invariant, a product has one line if it is found and none otherwise |
| `CartController.AddTwice` | controllers/cart.controller.js:31-38 | adding a product twice leaves exactly one line for it, whose quantity is its earlier quantity (or 0) plus both added quantities |
| `CartController.Cart.constructor` | controllers/cart.controller.js:26-29 | a new cart document holds exactly the given owner, lines and stamp |
| `CartController.GetCart` | controllers/cart.controller.js:4-9 | returns the cart's lines, or the empty list when the user has no cart |
| `CartController.AddToCart` | controllers/cart.controller.js:16-44 | BadRequest exactly when the product id is missing or the quantity is below one, changing nothing; with no cart, a fresh cart for the user whose lines are exactly `[(productId, quantity)]`; otherwise the lines become `AddLine` of the old ones; `updatedAt` becomes `now` on success; the cart invariant is kept |
| `CartController.UpdateCartItem` | controllers/cart.controller.js:51-72 | BadRequest when the quantity is missing or below one; NotFound when there is no cart or no line for the product; otherwise the lines become `SetQuantity` of the old ones and `updatedAt` becomes `now`; a failed call changes nothing; the invariant is kept |
| `CartController.RemoveCartItem` | controllers/cart.controller.js:79-94 | NotFound exactly when there is no cart; otherwise success, even for an absent product, with the lines becoming `RemoveLines` of the old ones and `updatedAt` becoming `now`; the invariant is kept |
| `CartController.ClearCart` | controllers/cart.controller.js:101-110 | NotFound exactly when there is no cart; otherwise the lines are empty and `updatedAt` is `now` |
| `OrderController.ParseStatus` | controllers/order.controller.js:83-91 | a requested status is accepted only if it is the name of one of the five statuses |
| `OrderController.ParseName` | models/order.model.js:17 | each of the five status names is accepted and parses to its own status |
| `OrderController.NewOrder` | controllers/order.controller.js:8-22 | BadRequest exactly when the items are missing or empty, the total is missing or zero, or the payment method is missing or empty; otherwise a pending, undelivered order of the caller, placed at `now`, that copies the request's items, total, address and payment method |
| `OrderController.NegativeTotalAccepted` | controllers/order.controller.js:11-14 | a negative total with otherwise valid fields is accepted |
| `OrderController.StatusUpdate` | controllers/order.controller.js:79-104 | a non-admin gets Forbidden whatever the body and id; then an unknown status gets BadRequest; then a missing order gets NotFound; on success the status is the requested one, `deliveredAt` is `Some(now)` if and only if the status is `delivered` and `None` otherwise, and every other field is kept |
| `OrderController.AnyToAny` | controllers/order.controller.js:97-104 | an admin can move an existing order from any status to any status |
| `OrderController.CancelOutcome` | controllers/order.controller.js:117-131 | a missing order gets NotFound, checked first; then a caller who does not own the order gets Forbidden, admins included; then a status other than pending or processing gets BadRequest; on success the status becomes cancelled and `deliveredAt` and every other field are untouched |
| `OrderController.CancelTwice` | controllers/order.controller.js:125-131 | after a successful cancel, cancelling the same order again gets BadRequest |
| `OrderController.OperationsKeepConsistent` | controllers/order.controller.js:4-138 | create, status update and cancel each keep every stored order's delivery date present exactly when its status is delivered |
| `OrderController.GetOrderById` | controllers/order.controller.js:45-57 | NotFound exactly when the order is absent; Forbidden exactly when it exists and the caller is neither an admin nor its owner; otherwise exactly the stored order |
| `OrderController.OrderStore.CreateOrder` | controllers/order.controller.js:4-24 | the reply is `NewOrder`'s, and a valid order is inserted under its new id with nothing else changed |
| `OrderController.OrderStore.UpdateOrderStatus` | controllers/order.controller.js:77-112 | the reply is `StatusUpdate`'s; only a successful update changes the store, and only the updated order; the store invariant is kept |
| `OrderController.OrderStore.CancelOrder` | controllers/order.controller.js:115-138 | the reply is `CancelOutcome`'s; only a successful cancel changes the store, and only that order; the store invariant is kept |
| `OrderListing.NewestIds` | controllers/order.controller.js:33-35 | lists each id of the given set exactly once, ordered by placing time, newest first |
| `OrderListing.Listing` | controllers/order.controller.js:69 | lists the stored orders of the given ids, each with its id, exactly once, newest first |
| `OrderListing.UserOrders` | controllers/order.controller.js:31-40 | lists exactly the caller's own orders, each once, newest first, whatever the caller's role |
| `OrderListing.AllOrders` | controllers/order.controller.js:64-74 | Forbidden exactly for a non-admin; for an admin, every stored order, each once, newest first |
| `OrderListing.UserOrdersInAllOrders` | controllers/order.controller.js:31-74 | every entry of a user's history also appears in the admin's full listing |

`CartController.CartWalkthrough` and `OrderController.OrderWalkthrough` call the methods the
way a client would. Their assertions are proved from the methods' contracts alone, for two
typical sessions:

- the cart: add P1×2, then add P1×3, then remove an absent P2, then clear;
- the order: create, a refused cancel by a non-owner, cancel, a refused second cancel, then the
  status moves shipped → delivered → processing, with `deliveredAt` set and then cleared.

## Left out

- Persistence: the document store, `findOne`, `findById`, `save`, `populate` and async/await.
  A cart method receives the stored cart, or null, and changes it in memory. The order store is
  an in-memory map.
- Generated ids: `OrderStore.CreateOrder` takes the new order's id as an argument that must not
  be in use yet. This is the uniqueness the store's id generator provides.
- `getCart` does not resolve product references (`populate`). It returns the stored lines.
- HTTP: requests, responses and message texts. Status codes become result values, and the two
  400 messages of order creation are one `BadRequest`.
- Storage and unexpected failures (the 500 replies) are not modelled, and neither are the
  schema validations done on save. One example: addToCart is called with no quantity at all.
  In JavaScript `undefined < 1` is false, so this request passes the controller's check and is
  then refused when saved. In the model, `AddToCart`'s quantity is always present, an `int`.
- Routing and authentication: the caller `(id, role)` is an input.
- Coercions of JavaScript values: ids are strings compared by equality (`toString()`
  equality in the source). Totals and quantities are integers, so fractional and NaN amounts
  are not modelled. Only falsy values that have a meaning here are modelled: absent, empty
  string, zero.
- Clocks: `new Date()` and `Date.now` become a `now` parameter.
- Concurrency: concurrent requests and the lost updates they can cause.
- The product, user and auth controllers, the upload utilities and the data models other than
  the order status enum and the cart quantity minimum. None of them contains logic modelled here.
- `OrderListing.UserOrders`, `OrderListing.AllOrders`: orders with the same placing time come
  in an unspecified order, as the store's sort leaves it. The listings are specification
  functions (ghost), not an executable sort.
