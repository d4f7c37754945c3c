# Street-vendor marketplace: the order lifecycle in Dafny

This project models the order-lifecycle core of a B2B wholesale marketplace backend. Vendors
buy from suppliers. It covers:

- **the vendor's cart**: replace-or-append of a line by inventory item, and removal by item;
- **checkout** (`createOrder`):
  - the cart is split into one order per supplier, each line frozen with its current price;
  - each order carries 9% cgst, 9% sgst and a total;
  - stock is reserved line by line;
  - the orders are saved and the cart is emptied;
- **the order status state machine** (`updateOrderStatus`):
  - a supplier-only authorization check, with an exception for `cancelled`;
  - a fixed transition table;
  - an append-only status history;
  - stock is released on `rejected`/`cancelled`;
- **payment confirmation** (`confirmPayment`) for delivered orders;
- **order reads**: the party check of `getOrderDetails` and the pagination arithmetic of the two order listings;
- **deliveries**:
  - `assignDelivery`, guarded on `ready_for_pickup`;
  - `updateDeliveryStatus`, which writes the delivery's timeline and location and mirrors the status onto the order;
  - `trackDelivery`, with its remaining-minutes computation.

The database is a class, `Store.Database`. Its fields are maps of inventory items, orders and
deliveries, plus an identifier counter that stands in for ObjectId generation. Its invariant
`Valid()` says that every stored identifier is below the counter, so new identifiers are
fresh. A cart is a `Carts.Cart` object, passed in already loaded (`null` means the vendor has
no cart). Every controller call is a method that answers with a `Types.Code` in place of an
HTTP status:

- `Ok`, `NotFound`, `Forbidden`, `IllegalTransition`, `InsufficientStock(name, available, requested)`;
- `NotReady`, `NotDelivered`, `EmptyCart`, `Validation`;
- `ServerError`, for an exception caught by the controller's `catch`, such as a cart line whose
  item no longer exists or an order status with no entry in the transition table.

Each loop of the controllers is a `while` loop tied to a specification function by its
invariant (`Checkout.Scan`, `Checkout.ReserveLines`, `Checkout.PlaceGroups`,
`OrderLifecycle.ReleaseLines`). The properties are proved as lemmas about those functions.

Modules, in dependency order:
- `Types`: identifiers, `Option`, the result codes, JavaScript truthiness of optional strings.
- `Store`: the status constants, the stored documents, the database.
- `Carts`: `cart.controller.js`.
- `Checkout`: `createOrder`.
- `OrderLifecycle`: `updateOrderStatus` and `confirmPayment`.
- `OrderQueries`: `getOrderDetails` and the listings' pagination.
- `Deliveries`: `delivery.controller.js`.

### Behaviour worth noting

Each item is what the code does, and a member of the model states it.

- **A move to `cancelled` is never accepted.** The authorization check lets anyone ask for
  `cancelled`, but no entry of the transition table lists it. The move is refused with
  IllegalTransition, or with ServerError for a status the table has no entry for
  (`OrderLifecycle.CancelNeverAccepted`).
- **Checkout keeps partial work.** A line that cannot be reserved ends the call, but the stock
  reserved and the orders saved before it remain; only a complete checkout empties the cart
  (`Checkout.CreateOrder`, `Checkout.ReserveStopsAtFirstFailure`).
- **Delivery statuses other than `on_the_way` are copied onto the order as they are**,
  including `failed`, `cancelled` and `partner_confirmed` (`Deliveries.UnmappedCopied`).
- **A `delivered` delivery update stamps the order's `actualDeliveryTime`**; only the supplier's
  own move to `delivered` stamps `actualCompletionDate` (`Deliveries.Mirrored`,
  `OrderLifecycle.Transitioned`). The order schema declares no `actualDeliveryTime`, so that
  stamp is not stored; see "## Left out".
- **An order can be given a second delivery**: assignment adds a delivery without looking for
  an existing one (`Deliveries.AssignDelivery`).
- **Payment can be confirmed again**: a confirmed order still passes the payment guard
  (`OrderLifecycle.PaymentRepeatable`).
- **The remaining time is in whole minutes, rounded down** (`Deliveries.RemainingMinutes`).
- **`ready_for_pickup`, which assignment requires, is not produced by the state machine**: no
  table move yields it, so an order gets it only by being written that way, for example by a
  delivery update (`Deliveries.ReadyForPickupOnlyByMirror`).
- **While an order is `assigned_delivery`, its supplier's status updates fail with
  ServerError**, because that status has no entry in the transition table
  (`Deliveries.AssignedLeavesTable`). A later delivery update overwrites the status. Of the
  seven delivery statuses, only `delivered` and `cancelled` land back on a status the table
  knows (`Deliveries.MirrorLeavesTable`). The update does not validate its status, so a
  partner may also send any other string, table states such as `placed` included, and it is
  copied as it is.
- **`getOrderDetails` refuses every caller**; see "## Findings".

## Model

| member | source | states |
|---|---|---|
| Carts.FirstIndex | backend/src/controller/cart.controller.js:21-23 | the index of the first line for the item; -1 exactly when no line has it |
| Carts.FindLine | backend/src/controller/cart.controller.js:21-23 | the `findIndex` loop returns that first index, or -1 |
| Carts.Upsert | backend/src/controller/cart.controller.js:21-29 | definition of replace-or-append; its properties are stated by Carts.UpsertExisting, Carts.UpsertNew, Carts.UpsertKeepsUnique and Carts.WithoutUpsert |
| Carts.UpsertExisting | backend/src/controller/cart.controller.js:25-26 | re-adding an item replaces its line's quantity instead of summing; same length, every other line unchanged |
| Carts.UpsertNew | backend/src/controller/cart.controller.js:27-28 | adding a new item appends exactly one line at the end, keeping earlier lines |
| Carts.UpsertKeepsUnique | backend/src/controller/cart.controller.js:21-29 | adding preserves "at most one line per item", and leaves exactly one line for the item added |
| Carts.Without | backend/src/controller/cart.controller.js:48-50 | definition of removal by item; its properties are stated by Carts.WithoutSpec, Carts.WithoutAbsent, Carts.WithoutIdempotent, Carts.WithoutConcat and Carts.WithoutUpsert |
| Carts.WithoutSpec | backend/src/controller/cart.controller.js:48-50 | removal leaves no line for the item, removes exactly its lines, and keeps every other line with its multiplicity |
| Carts.WithoutAbsent | backend/src/controller/cart.controller.js:48-50 | removing an item that has no line changes nothing |
| Carts.WithoutIdempotent | backend/src/controller/cart.controller.js:48-50 | removing twice is removing once |
| Carts.WithoutConcat | backend/src/controller/cart.controller.js:48-50 | removal is a filter: it distributes over concatenation and keeps a single line exactly when it is for another item, so the kept lines stay in order |
| Carts.WithoutUpsert | backend/src/controller/cart.controller.js:21-50 | adding and then removing an item leaves the other lines exactly as they were |
| Carts.AddToCart | backend/src/controller/cart.controller.js:11-31 | a missing or falsy item id or quantity (including 0) is Validation with the cart unchanged; otherwise the cart, created empty for the vendor when absent, gets the replace-or-append result; an existing cart keeps its vendor |
| Carts.RemoveFromCart | backend/src/controller/cart.controller.js:42-52 | a missing cart is NotFound; otherwise the cart's items become the filtered list and its vendor is unchanged |
| Carts.Cart.constructor | backend/src/controller/cart.controller.js:17-19 | a new cart belongs to the vendor and is empty |
| Checkout.Freeze | backend/src/controller/order.controller.js:44-51 | definition of one frozen order line; its properties are stated by Checkout.ResolveAt, Checkout.ResolveValue and Checkout.ResolveQty |
| Checkout.ResolveAt | backend/src/controller/order.controller.js:44-51 | each cart line becomes one frozen order line, in order, with the item's name and price and `totalPrice = price * quantity` |
| Checkout.ResolveValue | backend/src/controller/order.controller.js:44-53 | the frozen lines add up to the sum of price times quantity over the cart |
| Checkout.ResolveQty | backend/src/controller/order.controller.js:44-51 | the frozen lines ask for exactly the quantities the cart asks for |
| Checkout.ResolveSpec | backend/src/controller/order.controller.js:33-54 | the conjunction of the three facts above |
| Checkout.SuppliersSpec | backend/src/controller/order.controller.js:36-42 | the groups' keys list each supplier of the cart once, and only suppliers with at least one line |
| Checkout.SplitShape | backend/src/controller/order.controller.js:33-54 | one group per distinct supplier, none empty, each holding that supplier's lines in cart order with their subtotal |
| Checkout.SplitContents | backend/src/controller/order.controller.js:33-54 | together the groups hold every line exactly once (same multiset), and so the same count, value and quantities |
| Checkout.SplitPartition | backend/src/controller/order.controller.js:33-54 | splitting partitions the cart: shape and contents as above, the group subtotals add up to the cart's value, and the groups ask for the cart's quantities |
| Checkout.GroupedStep | backend/src/controller/order.controller.js:36-53 | one iteration of the grouping loop keeps `ordersBySupplier` and its key order in step with the lines seen |
| Checkout.AddLine | backend/src/controller/order.controller.js:33-53 | definition of one iteration of the grouping loop, failing on a missing item or a supplier with no user document; its properties are stated by Checkout.GroupedStep, Checkout.ScanSpec and Checkout.ScanSplit |
| Checkout.ScanSpec | backend/src/controller/order.controller.js:17-54 | the grouping loop completes exactly when every line's item exists and has a supplier with a user document, and then holds the supplier grouping of the cart and its total value |
| Checkout.ScanSplit | backend/src/controller/order.controller.js:33-59 | listing a completed grouping in key order gives the supplier split of the cart |
| Checkout.Values | backend/src/controller/order.controller.js:59 | the groups in key order |
| Checkout.GroupLines | backend/src/controller/order.controller.js:33-54 | the grouping loop computes exactly the grouping specified by `Scan` |
| Checkout.GroupBySupplier | backend/src/controller/order.controller.js:17-59 | grouping succeeds exactly when every line's item exists and its supplier has a user document; then the groups are the split of the cart and the total is its value |
| Checkout.ReserveLine | backend/src/controller/order.controller.js:86-102 | definition of reserving one line; its properties are stated by Checkout.ReserveLinesFrame, Checkout.ReserveLinesTaken, Checkout.ReserveLinesFlagged and Checkout.ReserveLinesRefusal |
| Checkout.ReserveLinesFrame | backend/src/controller/order.controller.js:85-103 | reserving, complete or stopped, keeps the inventory's items and every counter non-negative, never clears `outOfStock`, and touches only items the lines name |
| Checkout.ReserveLinesTaken | backend/src/controller/order.controller.js:88-100 | a completed reservation takes exactly the requested quantity off each item and sets `outOfStock` on each named item whose stock ended at 0 |
| Checkout.ReserveLinesFlagged | backend/src/controller/order.controller.js:95-100 | conversely, for non-negative quantities, a completed reservation flags an item only if it was flagged before or its stock ended at 0 |
| Checkout.ReserveLinesRefusal | backend/src/controller/order.controller.js:86-92 | a reservation stops only for a missing item (ServerError) or a line asking for more than is available (InsufficientStock with the available and requested quantities) |
| Checkout.ReserveStopsAtFirstFailure | backend/src/controller/order.controller.js:85-92 | a stopped reservation stopped at one line: every earlier line was applied and the failing item was not decremented |
| Checkout.StoppedPrefix | backend/src/controller/order.controller.js:88-92 | once a line stops the reservation, later lines change nothing |
| Checkout.Tax | backend/src/controller/order.controller.js:61-62 | definition of one tax component, 9% of the subtotal; its properties are stated by Checkout.NewOrderAmounts |
| Checkout.NewOrder | backend/src/controller/order.controller.js:61-82 | definition of the order saved for one supplier group; its properties are stated by Checkout.NewOrderAmounts and Checkout.PlaceGroupsCreated |
| Checkout.NewOrderAmounts | backend/src/controller/order.controller.js:61-82 | a new order is `placed` for its group's supplier and lines, with `cgst = sgst = subtotal*9/100`, `totalAmount = subtotal + cgst + sgst` (118% of the subtotal) and one history entry by the vendor |
| Checkout.PlaceGroup | backend/src/controller/order.controller.js:59-107 | definition of placing one supplier group; its properties are stated by Checkout.PlaceGroupStep, Checkout.PlaceGroupsCount, Checkout.PlaceGroupsCreated, Checkout.PlaceGroupsOrders, Checkout.PlaceGroupsStock and Checkout.PlaceGroupsFailedPrefix |
| Checkout.PlaceGroupStep | backend/src/controller/order.controller.js:59-107 | one group: after a failure nothing changes; otherwise its order is saved under the next identifier, or the reservation stops without saving it |
| Checkout.PlaceGroupsCount | backend/src/controller/order.controller.js:56-107 | one fresh identifier per saved order, one order per group unless a reservation stopped, and a stop is one of the two refusals |
| Checkout.PlaceGroupsCreated | backend/src/controller/order.controller.js:56-107 | the k-th order created is the k-th group's order, saved under the k-th fresh identifier |
| Checkout.PlaceGroupsOrders | backend/src/controller/order.controller.js:59-107 | existing orders are untouched, and the only orders added are the created ones, each for its group |
| Checkout.PlaceGroupsStock | backend/src/controller/order.controller.js:85-103 | counters stay non-negative and `outOfStock` is never cleared; when every group was placed, each item's stock fell by exactly what the groups asked for |
| Checkout.PlaceGroupsFailedPrefix | backend/src/controller/order.controller.js:88-92 | once a group fails, later groups change nothing |
| Checkout.ReserveItems | backend/src/controller/order.controller.js:85-103 | the reservation loop computes `ReserveLines` and changes nothing but the inventory |
| Checkout.PlaceOrders | backend/src/controller/order.controller.js:59-107 | the order-saving loop computes `PlaceGroups`: inventory, orders, identifiers, failure and created orders |
| Checkout.CreateOrder | backend/src/controller/order.controller.js:17-119 | a missing or empty cart is EmptyCart with nothing changed; a line whose item, or whose item's supplier user document, is missing is ServerError with nothing changed; otherwise `PlaceGroups` on the split cart, and only a complete checkout empties the cart and reports the created orders and total; the cart's vendor never changes |
| OrderLifecycle.Transitions | backend/src/controller/order.controller.js:149-158 | the table has an entry exactly for the eight order states; exactly the three terminal states list nothing; no entry lists `placed`, `pending` or `cancelled` |
| OrderLifecycle.StatusDecision | backend/src/controller/order.controller.js:142-164 | Forbidden exactly when a non-supplier asks for anything but `cancelled`; otherwise ServerError exactly when the current status has no table entry, Ok exactly when the target is listed for it, and IllegalTransition exactly when it is not |
| OrderLifecycle.CancelNeverAccepted | backend/src/controller/order.controller.js:142-160 | a move to `cancelled` passes the authorization check but is never accepted |
| OrderLifecycle.OnlySupplierMoves | backend/src/controller/order.controller.js:142-160 | every accepted move was asked for by the order's supplier |
| OrderLifecycle.TerminalRefuses | backend/src/controller/order.controller.js:149-164 | `delivered`, `cancelled` and `rejected` accept no move |
| OrderLifecycle.OffTableStatus | backend/src/controller/order.controller.js:160 | an order whose status has no table entry fails with ServerError for its supplier |
| OrderLifecycle.Transitioned | backend/src/controller/order.controller.js:167-181 | an accepted move sets the status and appends exactly one history entry with the actor, the time, and the notes or the default note; `delivered` stamps the completion date; the notes change only when truthy ones are given, the expected date only when one is given, and nothing else changes |
| OrderLifecycle.NoDoubleRelease | backend/src/controller/order.controller.js:149-193 | after a rejection no further move is accepted, so stock is not released twice |
| OrderLifecycle.ReleaseLine | backend/src/controller/order.controller.js:188-191 | definition of releasing one line; its properties are stated by OrderLifecycle.ReleaseLinesFrame, OrderLifecycle.ReleaseLinesReturned and OrderLifecycle.ReserveThenRelease |
| OrderLifecycle.ReleaseLinesFrame | backend/src/controller/order.controller.js:186-193 | release keeps the inventory's items, completes exactly when every line's item exists, otherwise stops with ServerError, and touches only items the lines name |
| OrderLifecycle.ReleaseLinesReturned | backend/src/controller/order.controller.js:187-191 | a completed release adds each line's quantity back and clears `outOfStock` on every item named |
| OrderLifecycle.ReserveThenRelease | backend/src/controller/order.controller.js:85-193 | reserving and then releasing the same lines restores every item's stock; `outOfStock` ends cleared on named items and as before on the others |
| OrderLifecycle.ReleaseStoppedPrefix | backend/src/controller/order.controller.js:187-191 | once a missing item stops the release, later lines change nothing |
| OrderLifecycle.ReleaseItems | backend/src/controller/order.controller.js:186-193 | the release loop computes `ReleaseLines` and changes nothing but the inventory |
| OrderLifecycle.UpdateOrderStatus | backend/src/controller/order.controller.js:136-193 | NotFound, or a refused move, with nothing changed; an accepted move saves the transitioned order and, for `rejected`/`cancelled`, releases the order's lines (ServerError if a line's item is gone) |
| OrderLifecycle.PaymentDecision | backend/src/controller/order.controller.js:347-357 | Forbidden exactly for a non-supplier, checked before NotDelivered; Ok exactly for the supplier of a delivered order |
| OrderLifecycle.PaymentConfirmed | backend/src/controller/order.controller.js:359-365 | the order becomes paid with its status unchanged and exactly one `payment_confirmed` entry naming the method, `cash_on_delivery` by default |
| OrderLifecycle.PaymentRepeatable | backend/src/controller/order.controller.js:353-365 | a confirmed order still passes the payment guard |
| OrderLifecycle.ConfirmPayment | backend/src/controller/order.controller.js:341-367 | NotFound, or the payment decision; only Ok changes the order, and nothing else changes |
| OrderQueries.OrderDetails | backend/src/controller/order.controller.js:310-319 | the intended check: NotFound exactly for a missing order; the order is returned exactly to its vendor or supplier; Forbidden otherwise |
| OrderQueries.OrderDetailsAsWritten | backend/src/controller/order.controller.js:305-319 | NotFound exactly for a missing order; ServerError exactly when a party has no user document; Forbidden otherwise; never Ok, never the order |
| OrderQueries.PartiesRefused | backend/src/controller/order.controller.js:305-319 | as written, the order's own vendor and supplier are refused, while the intended check admits both |
| OrderQueries.Paginate | backend/src/controller/order.controller.js:217-237 | definition of the pagination block; its properties are stated by OrderQueries.PaginateSpec and OrderQueries.ListingPage |
| OrderQueries.CeilDiv | backend/src/controller/order.controller.js:234 | the page count is the ceiling of orders over page size |
| OrderQueries.NoPages | backend/src/controller/order.controller.js:234 | the page count is zero exactly when there are no orders |
| OrderQueries.NextPage | backend/src/controller/order.controller.js:236 | there is a next page exactly when `page * limit` is below the number of orders |
| OrderQueries.SkipInside | backend/src/controller/order.controller.js:217 | the skip is non-negative from page 1, and inside the list for pages up to the page count |
| OrderQueries.PaginateSpec | backend/src/controller/order.controller.js:217-237 | the pagination block: page count is the least number of pages holding every order, zero exactly when there are none; next and previous page as above |
| OrderQueries.ListingPage | backend/src/controller/order.controller.js:212-237 | with `page` absent the listing starts at the first order with no previous page; with `limit` absent the pages hold 10 orders; with both absent there is a next page exactly when there are more than 10 orders |
| Deliveries.EstimatedArrival | backend/src/controller/delivery.controller.js:33 | the given estimate, or 30 minutes from now |
| Deliveries.NewDelivery | backend/src/controller/delivery.controller.js:22-35 | the new delivery is for the order and partner, carries the order's address, starts `assigned`, with the estimate, no delivery time and an empty timeline |
| Deliveries.AssignedOrder | backend/src/controller/delivery.controller.js:40-45 | the order becomes `assigned_delivery` with exactly one history entry that names no actor; nothing else changes |
| Deliveries.AssignDecision | backend/src/controller/delivery.controller.js:10-19 | NotFound exactly for a missing order; Ok exactly for an order in `ready_for_pickup`; NotReady otherwise |
| Deliveries.AssignDelivery | backend/src/controller/delivery.controller.js:10-46 | on refusal nothing changes; otherwise the new delivery is stored under a fresh identifier and the order is assigned; inventory untouched |
| Deliveries.OrderStatusFor | backend/src/controller/delivery.controller.js:101-106 | `on_the_way` becomes `on_delivery`; every other status is copied |
| Deliveries.Updated | backend/src/controller/delivery.controller.js:72-94 | the status is set without a transition check; the location is replaced only when given; one timeline entry is appended; the delivery time is stamped exactly on `delivered` |
| Deliveries.ReplayTimeline | backend/src/controller/delivery.controller.js:84-89 | over a series of updates the timeline is append-only, one entry per update in order, the status is the last one asked for, and a stamped delivery time stays |
| Deliveries.Mirrored | backend/src/controller/delivery.controller.js:99-117 | the order's status mirrors the delivery's, one history entry is appended, and its delivery time is stamped exactly on `delivered` |
| Deliveries.UpdateDeliveryStatus | backend/src/controller/delivery.controller.js:66-120 | NotFound with nothing changed for a missing delivery; otherwise the delivery is updated and its order, when it exists, mirrored; Ok even when the order is missing |
| Deliveries.RemainingMinutes | backend/src/controller/delivery.controller.js:174-176 | never negative; 0 once the estimate has passed; otherwise the whole minutes left, `r*60000 <= eta-now < (r+1)*60000` |
| Deliveries.View | backend/src/controller/delivery.controller.js:178-187 | the tracking view: status, estimate, remaining minutes, location and partner, without the timeline |
| Deliveries.FindDelivery | backend/src/controller/delivery.controller.js:164 | the first delivery for the order, or none exactly when the order has no delivery |
| Deliveries.TrackDelivery | backend/src/controller/delivery.controller.js:164-187 | NotFound exactly when the order has no delivery; otherwise the view of its first delivery |
| Deliveries.ReadyForPickupOnlyByMirror | backend/src/controller/delivery.controller.js:15 | no accepted move of the state machine yields `ready_for_pickup`; a delivery update yields it exactly when it asks for it |
| Deliveries.AssignedLeavesTable | backend/src/controller/delivery.controller.js:40 | an assigned order's supplier gets ServerError for any status update |
| Deliveries.DeliveredEnablesPayment | backend/src/controller/delivery.controller.js:106 | a `delivered` delivery update makes the order's payment confirmable by its supplier |
| Deliveries.UnmappedCopied | backend/src/controller/delivery.controller.js:101-108 | `failed`, `cancelled` and `partner_confirmed` are written onto the order verbatim |
| Deliveries.MirrorLeavesTable | backend/src/controller/delivery.controller.js:101-108 | of the seven delivery statuses, only `delivered` and `cancelled` mirror onto an order status the transition table has an entry for |

## Findings

| source | as written | input that shows it | evidently intended | confidence | as-written member | corrected member |
|---|---|---|---|---|---|---|
| backend/src/controller/order.controller.js:305-319 | the vendor and supplier are populated before the party check, so `order.vendor.toString()` and `order.supplier.toString()` are the user documents' inspection strings, which never equal the caller's id; every caller of an existing order is refused (403), or gets 500 when a party's user document is missing | order 7 with vendor "u1", supplier "s1", both registered, read by "u1": refused, though "u1" is its vendor | the order's vendor and supplier may read it (compare the parties' ids) | high, not executed | OrderQueries.OrderDetailsAsWritten, OrderQueries.PartiesRefused | OrderQueries.OrderDetails |

## Left out

- Persistence: loading and saving (`findById`, `findOne`, `populate`, `save`) are reads and writes of the database's maps, so a save never fails.
- User documents: the users collection is a parameter `users`, the identifiers that have a user document. Populating a reference to a missing user gives `null`, which `createOrder` and `getOrderDetails` then dereference; no controller of this core writes users.
- Schema validation on save is not modelled. The order schema's status enumeration does not list the statuses the delivery controller writes, and required fields are not checked.
- Concurrency: every call runs alone, start to finish. The code takes no locks and uses no transactions, so no guarantee about interleaved checkouts is stated.
- Clock: `new Date()` and `Date.now()` are an integer `now` parameter, in milliseconds. Every timestamp written within one call takes the same value.
- Authentication and middleware: the authenticated user is a parameter.
- Cart lookup: checkout receives the vendor's cart object. Its lookup by `{user: vendorId}` (order.controller.js line 17), which differs from the cart controller's `{vendor: vendorId}`, is not modelled.
- Floating point: prices and amounts are `real`, and tax is exactly `subtotal * 9 / 100`, with no IEEE rounding.
- Checkout.CreateOrder: the response's success message and the order documents' populated supplier details are not modelled. The created order identifiers and the total value are.
- Optional request fields (`estimatedDeliveryTime`, `expectedDate`, `note`, `location`, `paymentMethod`) are `Option` values. A falsy string counts as absent where the code tests truthiness. String-to-date conversion is not modelled.
- Truthiness of non-string inputs: `estimatedDeliveryTime` and `expectedDate` are `Option<int>`, where `Some` stands for a truthy value. A timestamp of 0 given in the request is therefore not distinguished from an absent one. The cart's `quantity` is an integer, so the request forms `"0"` (a truthy string, accepted) and `0` (falsy, refused) are not distinguished; only the number 0 is refused.
- Negative quantities: the cart accepts them, because they are truthy. Reservation and release handle them as the code does. Checkout.ReserveLinesFlagged requires non-negative quantities, because a negative line after one that emptied an item's stock raises the stock again and leaves `outOfStock` set.
- Schema strict mode: the order schema declares none of `items`, `actualDeliveryTime` or a history entry's `note`, although the controllers write all three. Under strict mode these writes are dropped on save: the stamp of `actualDeliveryTime` by a delivery update is never stored, and the history's field is `notes`, so the controllers' notes are lost too. Orders are modelled with the fields the controllers write, because schema validation is left out.
- OrderQueries.PaginateSpec, OrderQueries.ListingPage: `page` and `limit` are integers, and a given `limit` must be positive. The code accepts `limit=0`: the query value is the string `"0"`, so the destructuring default does not apply, the skip is 0 and `Math.ceil(total / "0")` is `Infinity` or `NaN`. Query-string coercion and `parseInt` are not modelled.
- The listing queries themselves are not modelled: the status filter, sort order, skip and limit of `getVendorOrderHistory` and `getSupplierOrders`, and the supplier's status counts.
- `getDeliveryDetails` and `getPartnerDeliveries` are not modelled; they are plain lookups.
- Not modelled, because the order lifecycle never reads them:
  - the delivery's `pickupAddress`, `deliveryFee` and `deliveryInstructions`;
  - the delivery partner's populated name and phone.
- Deliveries.FindDelivery: `findOne` returns some matching delivery, with no order the code relies on. The model takes the one with the least identifier.
- Identifiers: order and delivery identifiers are natural numbers from one counter. Item and user identifiers are strings, compared by equality, as the code compares unpopulated references by their `toString()` forms. The exception, `getOrderDetails`, compares populated documents; see "## Findings".
