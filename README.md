# Flash-sale reservation engine, modelled in Dafny

This project models the reservation core of a flash-sale checkout service. Customers place
short-lived holds on a product's scarce stock. A hold is converted into a pending order under
an idempotency key. A payment webhook then completes the order, or cancels it and releases its
hold. A product page shows the available stock through a one-second cache.

The model is a sequential state machine over three in-memory tables plus the product stock:

- `holds`, `orders` and `payment_webhooks` are sequences of rows, and a row's id is its position.
- `stock` is a read-only map from product id to capacity.
- Time is an integer clock `now`, in seconds. It is passed to the operations whose decisions depend on the clock: createHold, createOrder and show. The payment webhook reads the clock only to stamp `created_at` and `updated_at`, which are left out, so it takes none.
- Each controller transaction is one atomic step, so row locks and `DB::transaction` disappear.

Files and modules:

- `hold.dfy` (`HoldModel`): a hold row and `scopeActive`, plus the sum of active, unexpired hold quantities.
- `order.dfy` (`OrderModel`): an order row and `sold_qty`.
- `schema.dfy` (`Schema`): the tables, the migrations' unique keys and foreign keys, and the controllers' own invariant that an order's linked hold is not active.
- `availability.dfy` (`Availability`): `available = max(0, stock - held - sold)` and the no-overselling invariant.
- `sale.dfy` (`Sale`): `createHold`, `createOrder` and `paymentWebhook` as pure step functions from tables to tables and response, with their lemmas.
- `machine.dfy` (`Machine`): any sequence of timestamped requests run through those steps.
- `store.dfy` (`SaleStore`): a `Store` class. It holds the tables and the availability cache as fields. Its methods perform the controllers' transactions in place, and each one's `ensures` ties the new tables to the matching step of `Sale`.

## How the code differs from the intended design

The model follows the code. Four places where the code departs from the engine's intended behaviour:

- **A successful payment can oversell.** Converting a hold marks it consumed, so it stops counting. The pending order that replaces it does not count either, because only completed orders reduce availability. The freed unit can then be held again, and the success webhook completes the first order without any stock check. `Sale.SuccessWebhookCanOversell` plays this out on a product with stock 1. After the first payment, held + sold = 2. Converting and paying the second hold then leaves two completed orders, so two units are sold. This path goes through the corrected createHold (see Findings). As written, createHold never admits a hold, so the oversell cannot be reached through the code as it stands. `Sale.ConversionFreesCapacity` shows the mechanism. Holds, conversions and failed payments do keep the invariant over any chronological run (`Machine.RunWithoutCompletionKeepsNoOversell`).
- **A failed payment frees nothing.** The failure webhook releases a hold that conversion already consumed, and cancels an order that was never counted. So it changes no product's availability (`Sale.FailureWebhookKeepsDemand`). The capacity came back at conversion time.
- **Consumed is not terminal.** The failure webhook moves the linked hold from consumed to released. The hold lifecycle in `Machine.HoldMayBecome` therefore allows consumed to become released. Nothing ever returns to active.
- **createOrder does not re-check its update.** It does not check that the hold update hit exactly one row. In a sequential model the update always hits the row that was just read.

## Model

| member | source | states |
|---|---|---|
| `HoldModel.IsActive` | app/Models/Hold.php:22-25 | `scopeActive`: a hold is active exactly when its status is active and `expires_at > now`; the boundary `expires_at == now` is expired |
| `HoldModel.HeldQty` | app/Http/Controllers/Api/ProductController.php:26-30 | the sum of the quantities of the active, unexpired holds of the product; every such hold's quantity is at most the sum |
| `HoldModel.ExpiryIsFinal` | app/Models/Hold.php:22-25 | a hold with `expires_at <= now` is not active whatever its status; consumed and released holds are never active; an inactive hold stays inactive at every later time |
| `HoldModel.HeldQtyAppend` | app/Http/Controllers/Api/ProductController.php:26-30 | inserting a hold raises the product's held quantity by exactly that hold's claim: its quantity if active and of that product, else nothing |
| `HoldModel.HeldQtyUpdate` | app/Http/Controllers/Api/ProductController.php:26-30 | changing one hold row changes the held sum by exactly the difference of the old and new row's claims |
| `HoldModel.InactiveHoldsDoNotCount` | app/Models/Hold.php:24 | when no hold of the product is active and unexpired, the held quantity is 0 |
| `HoldModel.HeldQtyNeverGrowsOverTime` | app/Models/Hold.php:24 | as the clock advances the held quantity can only fall |
| `OrderModel.SoldQty` | app/Models/Order.php:20-25 | `sold_qty`: the sum of the quantities of the completed orders of the product; every such order's quantity is at most the sum |
| `OrderModel.SoldQtyAppend` | app/Models/Order.php:20-25 | inserting an order raises sold_qty by its quantity only if it is a completed order of that product |
| `OrderModel.SoldQtyUpdate` | app/Models/Order.php:20-25 | changing one order row changes sold_qty by exactly the difference of the two rows' contributions |
| `OrderModel.OnlyCompletedOrdersCount` | app/Models/Order.php:22-23 | pending and canceled orders and orders of other products contribute nothing: with no completed order of the product, sold_qty is 0 |
| `Availability.Available` | app/Http/Controllers/Api/ProductController.php:20-35 | a missing product gives no number (None exactly when the product is absent); otherwise availability is never negative and never exceeds the product's stock |
| `Availability.AdmissionCriterion` | app/Http/Controllers/Api/SaleController.php:38-39 | for quantity >= 1, `available >= quantity` holds exactly when held + sold + quantity <= stock |
| `Availability.AvailableIsRemainder` | app/Http/Controllers/Api/ProductController.php:34 | under the no-overselling invariant the max(0, ...) never clips: available + held + sold = stock |
| `Availability.AvailabilityNeverDropsOverTime` | app/Http/Controllers/Api/ProductController.php:26-34 | with the tables unchanged, availability at a later time is at least availability now |
| `Availability.NoOversellPersists` | app/Models/Hold.php:24 | if held + sold <= stock for every product now, it still holds at every later time |
| `Availability.InactiveHoldsDoNotReduceAvailability` | app/Http/Controllers/Api/ProductController.php:26-30 | changing a hold that neither was nor becomes an active claim on the product leaves its availability unchanged |
| `Availability.OnlyCompletedOrdersReduceAvailability` | app/Http/Controllers/Api/ProductController.php:32 | changing an order that neither was nor becomes a completed order of the product leaves its availability unchanged |
| `Availability.FullStockWhenNothingCounts` | tests/Unit/HoldTest.php:145-166 | with every hold of the product expired or inactive and no completed order, the whole stock is available |
| `Sale.CreateHold` | app/Http/Controllers/Api/SaleController.php:24-58 | createHold with the sold quantity read for the requested product: it touches no table but `holds`, keeps every existing hold unchanged, adds at most one hold, and a created hold's id names the new row, which carries the requested product and quantity and the returned expiry |
| `Sale.CreateHoldAsWritten` | app/Http/Controllers/Api/SaleController.php:36 | createHold as the code stands: once the product is found the call throws, so nothing is written and no hold is ever created |
| `Sale.AsWrittenCreateHoldNeverAdmits` | app/Http/Controllers/Api/SaleController.php:36 | createHold as written never creates a hold, although the intended one admits a request that fits an empty product |
| `Sale.CreateHoldOutcome` | app/Http/Controllers/Api/SaleController.php:24-41 | not-found exactly when the product is missing; a hold is created exactly when held + sold + quantity <= stock; otherwise insufficient stock; no table changes on either refusal |
| `Sale.CreateHoldInsertsOneHold` | app/Http/Controllers/Api/SaleController.php:43-52 | success appends exactly one active hold with the requested product and quantity, expiring ttl seconds from now (ttl 120 by default, within [10, 3600]); its id is the new row; availability drops by exactly the quantity |
| `Sale.CreateHoldKeepsNoOversell` | app/Http/Controllers/Api/SaleController.php:30-52 | createHold preserves held + sold <= stock for every product |
| `Sale.CreateHoldLeavesOtherProducts` | app/Http/Controllers/Api/SaleController.php:45-55 | createHold changes no other product's availability, at any time, so forgetting only this product's cache entry suffices |
| `Sale.CreateHoldKeepsConsistent` | app/Http/Controllers/Api/SaleController.php:45-52 | createHold preserves key uniqueness, foreign keys and settled linked holds |
| `Sale.CreateOrder` | app/Http/Controllers/Api/SaleController.php:94-127 | createOrder never touches stock or the webhook ledger, never adds or removes a hold, keeps every existing order and adds at most one; a returned order is the row stored under the returned id and carries the request's key |
| `Sale.FindOrderByKey` | app/Http/Controllers/Api/SaleController.php:96 | the lookup returns an order carrying the key, or none only when no order carries it |
| `Sale.CreateOrderReplay` | app/Http/Controllers/Api/SaleController.php:95-99 | with unique keys, a key already present returns that very order and changes nothing, whatever hold is named |
| `Sale.CreateOrderRejects` | app/Http/Controllers/Api/SaleController.php:101-108 | hold-not-found exactly when the key is new and the hold is absent; expired-or-invalid exactly when the key is new and the hold's status is not active or `expires_at <= now`; neither writes |
| `Sale.CreateOrderConverts` | app/Http/Controllers/Api/SaleController.php:110-126 | a first conversion sets exactly that hold to consumed and appends one pending order with the hold's product, quantity and id and the given key; nothing else changes |
| `Sale.CreateOrderKeepsConsistent` | app/Http/Controllers/Api/SaleController.php:110-121 | createOrder preserves unique order keys, foreign keys and the rule that linked holds are not active |
| `Sale.CreateOrderIsIdempotent` | app/Http/Controllers/Api/SaleController.php:94-127 | after any successful createOrder, a call with the same key (any hold, any time) returns the same response and creates no second order |
| `Sale.ConvertedHoldIsSpent` | app/Http/Controllers/Api/SaleController.php:106-111 | once converted, the hold is refused as expired-or-invalid under any fresh key at any later time |
| `Sale.CreateOrderKeepsNoOversell` | app/Http/Controllers/Api/SaleController.php:110-121 | createOrder preserves held + sold <= stock for every product |
| `Sale.ConversionFreesCapacity` | app/Http/Controllers/Api/SaleController.php:111-121 | a conversion raises the product's availability by exactly the hold's quantity, because pending orders are not counted |
| `Sale.CreateOrderLeavesOtherProducts` | app/Http/Controllers/Api/SaleController.php:111-124 | createOrder changes no availability except that of the hold's product |
| `Sale.HasWebhookKey` | app/Http/Controllers/Api/SaleController.php:160-162 | true exactly when some ledger row carries the key |
| `Sale.Release` | app/Http/Controllers/Api/SaleController.php:191-192 | only the hold named by the order's `hold_id` becomes released; a null `hold_id` changes nothing |
| `Sale.PaymentWebhook` | app/Http/Controllers/Api/SaleController.php:158-206 | the webhook never touches stock, never adds or removes a hold or an order, keeps every ledger row and adds at most one; unless the order is not found, the key is in the ledger afterwards |
| `Sale.WebhookOutcome` | app/Http/Controllers/Api/SaleController.php:158-206 | a seen key returns already-processed with no change; an absent order returns not-found, records nothing and leaves the key unseen; otherwise exactly one ledger row is added; a non-pending order returns already-processed with orders and holds unchanged; a pending order becomes completed on success, or canceled with its hold released on failure |
| `Sale.WebhookIsIdempotent` | app/Http/Controllers/Api/SaleController.php:159-166 | after any delivery that was not not-found, every replay of its key, for any order and outcome, returns already-processed and changes nothing |
| `Sale.WebhookKeepsConsistent` | app/Http/Controllers/Api/SaleController.php:174-201 | the webhook preserves the unique ledger key, foreign keys and settled linked holds |
| `Sale.FailureWebhookKeepsDemand` | app/Http/Controllers/Api/SaleController.php:188-193 | a failure webhook leaves every product's held and sold quantities unchanged at every time |
| `Sale.WebhookLeavesOtherProducts` | app/Http/Controllers/Api/SaleController.php:185-203 | the webhook changes no availability except that of the order's product |
| `Sale.EarlyWebhookRetrySettles` | tests/Unit/HoldTest.php:69-106 | a webhook for an order not yet created is not-found and leaves no trace; after the order row is inserted, the retry with the same key completes it, and a further replay is already-processed |
| `Sale.FailedPaymentRun` | app/Http/Controllers/Api/SaleController.php:94-205 | hold, convert, replay the conversion, fail the payment, reconvert under a new key: the exact tables and response after each step; the replay returns the same order, the failure cancels the order and releases the hold, and the reconversion is refused |
| `Sale.SuccessWebhookCanOversell` | app/Http/Controllers/Api/SaleController.php:185-187 | hold, convert, hold again, pay, convert the second hold and pay again on stock 1: every step succeeds, the invariant holds before the first payment and fails after it, and two units end up sold of a stock of 1 |
| `Sale.OversellFirstConversion` | app/Http/Controllers/Api/SaleController.php:24-127 | on stock 1, the only unit is held and the hold converted: the exact tables and response after each step |
| `Sale.OversellRehold` | app/Http/Controllers/Api/SaleController.php:24-187 | with the first order pending, the freed unit is held again, and the first payment completes the order: the exact tables and response after each step |
| `Sale.OversellSecondSale` | app/Http/Controllers/Api/SaleController.php:94-187 | the second hold is converted and its payment completes the second order: the exact tables and response after each step |
| `Machine.ApplyEvolves` | app/Http/Controllers/Api/SaleController.php:24-206 | every transaction deletes no row, changes no field but a status, moves statuses only along the hold and order lifecycles, and only appends to the ledger |
| `Machine.RunEvolves` | app/Http/Controllers/Api/SaleController.php:24-206 | the same holds across any sequence of transactions |
| `Machine.RunKeepsConsistent` | app/Http/Controllers/Api/SaleController.php:24-206 | unique keys, foreign keys and settled linked holds hold after any sequence of transactions |
| `Machine.SettledRowsNeverReopen` | app/Http/Controllers/Api/SaleController.php:174-193 | completed and canceled orders keep their status, released holds stay released, and no non-active hold becomes active again, whatever requests follow |
| `Machine.ApplyKeepsNoOversell` | app/Http/Controllers/Api/SaleController.php:24-193 | a hold request, a conversion or a failure webhook preserves held + sold <= stock |
| `Machine.RunWithoutCompletionKeepsNoOversell` | app/Http/Controllers/Api/SaleController.php:30-52 | across any chronological sequence of hold requests, conversions and failed payments, the invariant holds at the time of the last request |
| `SaleStore.CreateHoldKeepsCacheCoherent` | app/Http/Controllers/Api/SaleController.php:45-55 | after createHold, every cache entry except the requested product's still equals the availability of the new tables at the moment it was stored |
| `SaleStore.CreateOrderKeepsCacheCoherent` | app/Http/Controllers/Api/SaleController.php:111-124 | after createOrder, every cache entry except the hold product's stays coherent with the new tables |
| `SaleStore.WebhookKeepsCacheCoherent` | app/Http/Controllers/Api/SaleController.php:174-203 | after a processed webhook every entry except the order product's stays coherent; after any other answer every entry stays coherent |
| `SaleStore.ProcessedWebhookKeepsCacheCoherent` | app/Http/Controllers/Api/SaleController.php:185-203 | after a webhook that settles an order, every entry except the order product's stays coherent with the new tables |
| `SaleStore.UnprocessedWebhookKeepsCacheCoherent` | app/Http/Controllers/Api/SaleController.php:159-182 | a webhook that settles nothing writes at most the ledger, so every cache entry stays coherent |
| `SaleStore.Store.Show` | app/Http/Controllers/Api/ProductController.php:17-39 | a live entry is returned unchanged; on a miss, the fresh availability is returned and stored for one second, and a missing product returns none and stores nothing; any value shown is the availability of the current tables at the moment its entry was stored |
| `SaleStore.Store.CreateHold` | app/Http/Controllers/Api/SaleController.php:24-58 | the tables after the call are those of the createHold step; exactly the product's cache entry is forgotten on success and none on refusal; the no-overselling invariant is kept |
| `SaleStore.Store.CreateOrder` | app/Http/Controllers/Api/SaleController.php:94-127 | the tables after the call are those of the createOrder step; exactly the hold product's cache entry is forgotten on a first conversion and none on a replay or refusal; the invariant is kept |
| `SaleStore.Store.PaymentWebhook` | app/Http/Controllers/Api/SaleController.php:158-206 | the tables after the call are those of the webhook step; exactly the order product's cache entry is forgotten when processed, and none otherwise |
| `SaleStore.ConcurrentHolds` | tests/Unit/HoldTest.php:15-67 | of any number of one-unit hold requests at one instant against stock n, exactly min(n, requests) succeed: 10 of 20 on stock 10 |
| `SaleStore.FailedPaymentScenario` | app/Http/Controllers/Api/SaleController.php:94-205 | hold, convert, replay the conversion, fail the payment, then reconvert: the replay returns the same order, one order exists, it is canceled, its hold is released, and the reconversion is refused |

## Findings

| source | as written | input that shows it | evidently intended | confidence | as-written member | corrected member |
|---|---|---|---|---|---|---|
| app/Http/Controllers/Api/SaleController.php:36 | `Order::sold_qty($id)`: `$id` is not defined in the closure, and `Order` is not imported into the controller's namespace. The call throws once the product row is found, and the transaction rolls back (HTTP 500). | any createHold for an existing product, e.g. stock {1: 10}, quantity 1 | `sold_qty($productId)` on `App\Models\Order`, as `ProductController.php:32` calls it; admission then follows `Sale.CreateHoldOutcome` and keeps the invariant (`Sale.CreateHoldKeepsNoOversell`) | not executed; high | `Sale.CreateHoldAsWritten`, shown by `Sale.AsWrittenCreateHoldNeverAdmits` | `Sale.CreateHold` |

The rest of the model, including `SaleStore.Store.CreateHold`, uses the corrected `Sale.CreateHold`.

## Left out

- HTTP plumbing is not modelled: request validation, JSON bodies and status codes. Validation becomes preconditions (`Sale.ValidHoldRequest`, `Machine.Validated`). Responses become the datatypes `HoldResponse`, `OrderResponse` and `WebhookResponse`.
- routes/api.php is not part of this model, so the product id is a parameter of createHold. The registered hold route `/products/holds` has no `{productId}` segment, so `(int) $request->route('productId')` is 0 there. Every createHold sent through that route answers "Product not found" (SaleController.php:25-28) and never reaches line 36. The input in "## Findings" is reachable only through a route that carries the product id. The `holdsIndex` route points at a method that is commented out.
- Concurrency is not modelled: `DB::transaction`, `lockForUpdate`, isolation levels and interleavings. Each transaction is one atomic step.
- Laravel's query builder, Eloquent relations and `Product::find` become sequences and a stock map. `show` returns only the availability, not the product's name, price or stock fields.
- `created_at` and `updated_at` are not modelled. Carbon's sub-second precision becomes one integer clock in seconds.
- `payment_id` is never read or written by the core.
- Ids are positions in the tables. The tables only grow, so an explicitly chosen id, as one test inserts, is not modelled.
- The cache is keyed by product id instead of the string `product:{id}:available_stock`. That string is injective in the id.
- `SaleStore.Store.Show`: coherence is proved only for canonical integer ids. `show($id)` builds its cache key from the raw route string. A non-canonical spelling such as `"01"` finds the same product but gets its own cache entry, and no write forgets that entry. Such an entry can serve a stale value for up to one second after a write.
- Two pieces of cache behaviour are not modelled: the cache framework's rounding of the one-second TTL, and storing a null result. A null result reads back as a miss, so the model removes the key.
- Column widths are not modelled. `quantity` is an unbounded `nat`, not an unsigned 32-bit integer, and idempotency keys have no 191-character limit.
- Idempotency keys are compared by exact string equality (`Sale.FindOrderByKey`, `Sale.HasWebhookKey`, `Schema.OrderKeysUnique`, `Schema.WebhookKeysUnique`). The code compares them in SQL under the database's collation. Under a case-insensitive collation, such as MySQL's default, "K1" and "k1" are one key for both the lookup and the unique index, and the model treats them as two.
- `Schema.LinkedHoldsSettled` is not a database constraint: the migration only makes `hold_id` a nullable foreign key. The controllers keep it, because createOrder consumes the hold before it inserts the order, and `Machine.RunKeepsConsistent` proves it holds from a consistent start. A row inserted directly, as a test does, can break it (a pending order whose hold is still active). `Sale.FailureWebhookKeepsDemand`, `Sale.WebhookLeavesOtherProducts` and `SaleStore.Store.Valid` assume it, so they say nothing about such states.
- The seeder and the migrations' other columns are left out. The migrations appear only as the key and foreign-key invariants in `Schema.Consistent`.
