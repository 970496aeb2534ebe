/**
 * The three transactions of `SaleController` (createHold, createOrder,
 * paymentWebhook) as atomic steps on the tables: each takes the tables before
 * the transaction and gives the tables after it with the controller's answer.
 * Row locks disappear because every step is one indivisible function.
 */
module Sale {
  import opened Wrappers
  import opened HoldModel
  import opened OrderModel
  import opened Schema
  import opened Availability

  /** `ttl_seconds` defaults to 120 and is validated into [10, 3600]. */
  const DefaultTtl: int := 120
  const MinTtl: int := 10
  const MaxTtl: int := 3600

  /** The tables after a transaction and what the controller answers. */
  datatype Step<R> = Step(tables: Tables, response: R)

  /** `ServerError` is the exception that escapes `DB::transaction` (HTTP 500). */
  datatype HoldResponse =
    | HoldCreated(holdId: HoldId, expiresAt: Time)
    | ProductNotFound
    | InsufficientStock
    | ServerError

  datatype OrderResponse =
    | OrderReturned(id: OrderId, order: Order)
    | HoldNotFound
    | HoldExpiredOrInvalid

  datatype WebhookResponse = Processed | AlreadyProcessed | OrderNotFound

  /** The request validation of createHold: quantity at least 1, ttl absent or within bounds. */
  predicate ValidHoldRequest(quantity: nat, ttl: Option<int>)
  {
    quantity >= 1 && (ttl.Some? ==> MinTtl <= ttl.value <= MaxTtl)
  }

  function TtlSeconds(ttl: Option<int>): int
  {
    match ttl
    case Some(seconds) => seconds
    case None => DefaultTtl
  }

  // ---------------------------------------------------------------------------
  // createHold

  /**
   * Lock the product, recompute availability inside the lock, and insert an
   * active hold expiring ttl seconds from now when the request fits. It
   * touches no table but `holds`, never removes or rewrites a hold, and a
   * created hold's id names the row it adds.
   */
  function CreateHold(t: Tables, p: ProductId, quantity: nat, ttl: Option<int>, now: Time): (r: Step<HoldResponse>)
    requires ValidHoldRequest(quantity, ttl)
    ensures r.tables.stock == t.stock && r.tables.orders == t.orders && r.tables.webhooks == t.webhooks
    ensures t.holds <= r.tables.holds && |r.tables.holds| <= |t.holds| + 1
    ensures r.response.HoldCreated? <==> |r.tables.holds| == |t.holds| + 1
    ensures r.response.HoldCreated? ==>
      && r.response.holdId == |t.holds| < |r.tables.holds|
      && r.tables.holds[|t.holds|] == Hold(p, quantity, r.response.expiresAt, Active)
  {
    if p !in t.stock then Step(t, ProductNotFound)
    else if Available(t, p, now).value < quantity then Step(t, InsufficientStock)
    else
      var expiresAt := now + TtlSeconds(ttl);
      Step(t.(holds := t.holds + [Hold(p, quantity, expiresAt, Active)]), HoldCreated(|t.holds|, expiresAt))
  }

  /**
   * createHold as the code stands: once the product is found, the call
   * `Order::sold_qty($id)` names a variable that is not defined in the closure
   * and a class that is not imported into the controller's namespace, so it
   * throws and the transaction rolls back: nothing is written and no hold is
   * ever created.
   */
  function CreateHoldAsWritten(t: Tables, p: ProductId, quantity: nat, ttl: Option<int>, now: Time): (r: Step<HoldResponse>)
    requires ValidHoldRequest(quantity, ttl)
    ensures r.tables == t
    ensures !r.response.HoldCreated?
  {
    if p !in t.stock then Step(t, ProductNotFound) else Step(t, ServerError)
  }

  /** The as-written createHold never admits a hold, where the intended one admits whatever fits. */
  lemma AsWrittenCreateHoldNeverAdmits(t: Tables, p: ProductId, quantity: nat, ttl: Option<int>, now: Time)
    requires ValidHoldRequest(quantity, ttl)
    ensures !CreateHoldAsWritten(t, p, quantity, ttl, now).response.HoldCreated?
    ensures p in t.stock && t.holds == [] && t.orders == [] && quantity <= t.stock[p] ==>
      CreateHold(t, p, quantity, ttl, now).response.HoldCreated?
  {
  }

  /** The admission decision and everything createHold does to the tables. */
  lemma CreateHoldOutcome(t: Tables, p: ProductId, quantity: nat, ttl: Option<int>, now: Time)
    requires ValidHoldRequest(quantity, ttl)
    ensures var s := CreateHold(t, p, quantity, ttl, now);
      && s.response != ServerError
      && (s.response == ProductNotFound <==> p !in t.stock)
      && (s.response.HoldCreated? <==>
            p in t.stock && HeldQty(t.holds, p, now) + SoldQty(t.orders, p) + quantity <= t.stock[p])
      && (!s.response.HoldCreated? ==> s.tables == t)
  {
    if p in t.stock {
      AdmissionCriterion(t, p, quantity, now);
    }
  }

  /**
   * A successful createHold adds exactly one row: an active hold of the
   * requested product and quantity that expires ttl seconds from now, and
   * availability drops by exactly that quantity.
   */
  lemma CreateHoldInsertsOneHold(t: Tables, p: ProductId, quantity: nat, ttl: Option<int>, now: Time)
    requires ValidHoldRequest(quantity, ttl)
    requires CreateHold(t, p, quantity, ttl, now).response.HoldCreated?
    ensures var s := CreateHold(t, p, quantity, ttl, now);
      var h := Hold(p, quantity, now + TtlSeconds(ttl), Active);
      && s.tables == t.(holds := t.holds + [h])
      && s.response == HoldCreated(|t.holds|, h.expiresAt)
      && now + MinTtl <= h.expiresAt <= now + MaxTtl
      && IsActive(h, now)
      && Available(s.tables, p, now).value + quantity == Available(t, p, now).value
  {
    var h := Hold(p, quantity, now + TtlSeconds(ttl), Active);
    HeldQtyAppend(t.holds, h, p, now);
  }

  lemma CreateHoldKeepsNoOversell(t: Tables, p: ProductId, quantity: nat, ttl: Option<int>, now: Time)
    requires ValidHoldRequest(quantity, ttl) && NoOversell(t, now)
    ensures NoOversell(CreateHold(t, p, quantity, ttl, now).tables, now)
  {
    var s := CreateHold(t, p, quantity, ttl, now);
    if s.response.HoldCreated? {
      var h := Hold(p, quantity, now + TtlSeconds(ttl), Active);
      CreateHoldOutcome(t, p, quantity, ttl, now);
      forall q | q in s.tables.stock
        ensures HeldQty(s.tables.holds, q, now) + SoldQty(s.tables.orders, q) <= s.tables.stock[q]
      {
        HeldQtyAppend(t.holds, h, q, now);
      }
    }
  }

  /** createHold changes no other product's availability, at any time. */
  lemma CreateHoldLeavesOtherProducts(t: Tables, p: ProductId, quantity: nat, ttl: Option<int>, now: Time,
                                      other: ProductId, at: Time)
    requires ValidHoldRequest(quantity, ttl) && other != p
    ensures Available(CreateHold(t, p, quantity, ttl, now).tables, other, at) == Available(t, other, at)
  {
    var s := CreateHold(t, p, quantity, ttl, now);
    if s.tables != t {
      var h := Hold(p, quantity, now + TtlSeconds(ttl), Active);
      assert s.tables == t.(holds := t.holds + [h]);
      HeldQtyAppend(t.holds, h, other, at);
    }
  }

  lemma CreateHoldKeepsConsistent(t: Tables, p: ProductId, quantity: nat, ttl: Option<int>, now: Time)
    requires ValidHoldRequest(quantity, ttl) && Consistent(t)
    ensures Consistent(CreateHold(t, p, quantity, ttl, now).tables)
  {
  }

  // ---------------------------------------------------------------------------
  // createOrder

  /** The order row carrying idempotency key k, if any. */
  function FindOrderByKey(orders: seq<Order>, k: Key): (r: Option<OrderId>)
    ensures r.Some? ==> r.value < |orders| && orders[r.value].idempotencyKey == Some(k)
    ensures r.None? ==> forall i :: 0 <= i < |orders| ==> orders[i].idempotencyKey != Some(k)
  {
    if orders == [] then None
    else if orders[0].idempotencyKey == Some(k) then Some(0)
    else
      match FindOrderByKey(orders[1..], k)
      case Some(i) => Some(i + 1)
      case None => None
  }

  predicate KeyUsed(orders: seq<Order>, k: Key)
  {
    exists i :: 0 <= i < |orders| && orders[i].idempotencyKey == Some(k)
  }

  /**
   * Return the order already carrying the key; otherwise lock the hold, refuse
   * a missing, expired or non-active hold, mark it consumed and insert a
   * pending order for the hold's product and quantity. It never touches
   * stock or webhooks, never adds or removes a hold, adds at most one order,
   * and a returned order is the row stored under the returned id, carrying
   * the key.
   */
  function CreateOrder(t: Tables, holdId: int, k: Key, now: Time): (r: Step<OrderResponse>)
    ensures r.tables.stock == t.stock && r.tables.webhooks == t.webhooks && |r.tables.holds| == |t.holds|
    ensures t.orders <= r.tables.orders && |r.tables.orders| <= |t.orders| + 1
    ensures r.response.OrderReturned? ==>
      && r.response.id < |r.tables.orders| && r.tables.orders[r.response.id] == r.response.order
      && r.response.order.idempotencyKey == Some(k)
  {
    match FindOrderByKey(t.orders, k)
    case Some(id) => Step(t, OrderReturned(id, t.orders[id]))
    case None =>
      if holdId < 0 || holdId >= |t.holds| then Step(t, HoldNotFound)
      else
        var h := t.holds[holdId];
        if h.status != Active || h.expiresAt <= now then Step(t, HoldExpiredOrInvalid)
        else
          var o := Order(h.productId, h.quantity, Pending, Some(holdId), Some(k));
          Step(t.(holds := t.holds[holdId := h.(status := Consumed)], orders := t.orders + [o]),
               OrderReturned(|t.orders|, o))
  }

  /** A key already in `orders` returns that very order and changes nothing, whatever hold is named. */
  lemma CreateOrderReplay(t: Tables, holdId: int, k: Key, now: Time, i: nat)
    requires OrderKeysUnique(t.orders)
    requires i < |t.orders| && t.orders[i].idempotencyKey == Some(k)
    ensures CreateOrder(t, holdId, k, now) == Step(t, OrderReturned(i, t.orders[i]))
  {
    var j := FindOrderByKey(t.orders, k).value;
    if j != i {
      assert false;
    }
  }

  /** The two refusals of createOrder, each exactly when the code refuses, and neither writes. */
  lemma CreateOrderRejects(t: Tables, holdId: int, k: Key, now: Time)
    ensures var s := CreateOrder(t, holdId, k, now);
      && (s.response == HoldNotFound <==> !KeyUsed(t.orders, k) && (holdId < 0 || holdId >= |t.holds|))
      && (s.response == HoldExpiredOrInvalid <==>
            !KeyUsed(t.orders, k) && 0 <= holdId < |t.holds| && !IsActive(t.holds[holdId], now))
      && (!s.response.OrderReturned? ==> s.tables == t)
  {
    var found := FindOrderByKey(t.orders, k);
    if found.Some? {
      assert KeyUsed(t.orders, k);
    }
  }

  /**
   * A first conversion consumes exactly that hold and appends one pending
   * order with the hold's product, quantity and id and the given key; nothing
   * else changes.
   */
  lemma CreateOrderConverts(t: Tables, holdId: int, k: Key, now: Time)
    requires !KeyUsed(t.orders, k) && 0 <= holdId < |t.holds| && IsActive(t.holds[holdId], now)
    ensures var h := t.holds[holdId];
      var o := Order(h.productId, h.quantity, Pending, Some(holdId), Some(k));
      CreateOrder(t, holdId, k, now) ==
        Step(t.(holds := t.holds[holdId := h.(status := Consumed)], orders := t.orders + [o]),
             OrderReturned(|t.orders|, o))
  {
  }

  lemma CreateOrderKeepsConsistent(t: Tables, holdId: int, k: Key, now: Time)
    requires Consistent(t)
    ensures Consistent(CreateOrder(t, holdId, k, now).tables)
  {
    var s := CreateOrder(t, holdId, k, now);
    if s.tables != t {
      var h := t.holds[holdId];
      var o := Order(h.productId, h.quantity, Pending, Some(holdId), Some(k));
      var u := s.tables;
      assert u.orders == t.orders + [o];
      assert forall i :: 0 <= i < |t.orders| ==> u.orders[i] == t.orders[i];
      forall i, j | 0 <= i < j < |u.orders| && u.orders[i].idempotencyKey.Some?
        ensures u.orders[i].idempotencyKey != u.orders[j].idempotencyKey
      {
        if j == |t.orders| {
          assert t.orders[i].idempotencyKey != Some(k);
        }
      }
    }
  }

  /** Replaying the key of a successful createOrder returns the same order and never creates a second one. */
  lemma CreateOrderIsIdempotent(t: Tables, holdId: int, k: Key, now: Time, holdId2: int, now2: Time)
    requires Consistent(t)
    requires CreateOrder(t, holdId, k, now).response.OrderReturned?
    ensures var s := CreateOrder(t, holdId, k, now);
      CreateOrder(s.tables, holdId2, k, now2) == Step(s.tables, s.response)
  {
    var s := CreateOrder(t, holdId, k, now);
    CreateOrderKeepsConsistent(t, holdId, k, now);
    var id := s.response.id;
    assert id < |s.tables.orders| && s.tables.orders[id] == s.response.order;
    CreateOrderReplay(s.tables, holdId2, k, now2, id);
  }

  /** Once converted, a hold can never be converted again, under any fresh key and at any time. */
  lemma ConvertedHoldIsSpent(t: Tables, holdId: int, k: Key, now: Time, k2: Key, now2: Time)
    requires !KeyUsed(t.orders, k) && 0 <= holdId < |t.holds| && IsActive(t.holds[holdId], now)
    ensures var u := CreateOrder(t, holdId, k, now).tables;
      !KeyUsed(u.orders, k2) ==> CreateOrder(u, holdId, k2, now2) == Step(u, HoldExpiredOrInvalid)
  {
    CreateOrderConverts(t, holdId, k, now);
    var u := CreateOrder(t, holdId, k, now).tables;
    CreateOrderRejects(u, holdId, k2, now2);
  }

  lemma CreateOrderKeepsNoOversell(t: Tables, holdId: int, k: Key, now: Time)
    requires NoOversell(t, now)
    ensures NoOversell(CreateOrder(t, holdId, k, now).tables, now)
  {
    var s := CreateOrder(t, holdId, k, now);
    if s.tables != t {
      var h := t.holds[holdId];
      var o := Order(h.productId, h.quantity, Pending, Some(holdId), Some(k));
      forall p | p in s.tables.stock
        ensures HeldQty(s.tables.holds, p, now) + SoldQty(s.tables.orders, p) <= s.tables.stock[p]
      {
        HeldQtyUpdate(t.holds, holdId, h.(status := Consumed), p, now);
        SoldQtyAppend(t.orders, o, p);
      }
    }
  }

  /**
   * Converting a hold hands its quantity back to availability at once: the
   * pending order that replaces it is not counted until it completes.
   */
  lemma ConversionFreesCapacity(t: Tables, holdId: int, k: Key, now: Time)
    requires Consistent(t) && NoOversell(t, now)
    requires !KeyUsed(t.orders, k) && 0 <= holdId < |t.holds| && IsActive(t.holds[holdId], now)
    ensures var h := t.holds[holdId];
      Available(CreateOrder(t, holdId, k, now).tables, h.productId, now).value ==
        Available(t, h.productId, now).value + h.quantity
  {
    var h := t.holds[holdId];
    var o := Order(h.productId, h.quantity, Pending, Some(holdId), Some(k));
    CreateOrderConverts(t, holdId, k, now);
    HeldQtyUpdate(t.holds, holdId, h.(status := Consumed), h.productId, now);
    SoldQtyAppend(t.orders, o, h.productId);
  }

  /** createOrder changes no availability but that of the named hold's product. */
  lemma CreateOrderLeavesOtherProducts(t: Tables, holdId: int, k: Key, now: Time, other: ProductId, at: Time)
    requires 0 <= holdId < |t.holds| && other != t.holds[holdId].productId
    ensures Available(CreateOrder(t, holdId, k, now).tables, other, at) == Available(t, other, at)
  {
    var s := CreateOrder(t, holdId, k, now);
    if s.tables != t {
      var h := t.holds[holdId];
      HeldQtyUpdate(t.holds, holdId, h.(status := Consumed), other, at);
      SoldQtyAppend(t.orders, Order(h.productId, h.quantity, Pending, Some(holdId), Some(k)), other);
    }
  }

  // ---------------------------------------------------------------------------
  // paymentWebhook

  /** Whether a delivery with key k is already in the ledger. */
  function HasWebhookKey(webhooks: seq<Webhook>, k: Key): (b: bool)
    ensures b <==> exists i :: 0 <= i < |webhooks| && webhooks[i].idempotencyKey == k
  {
    if webhooks == [] then false
    else webhooks[|webhooks| - 1].idempotencyKey == k || HasWebhookKey(webhooks[..|webhooks| - 1], k)
  }

  /**
   * Set the linked hold's status to released; a null `hold_id` (or one naming
   * no row) matches nothing and changes nothing.
   */
  function Release(holds: seq<Hold>, holdId: Option<HoldId>): (r: seq<Hold>)
    ensures |r| == |holds|
    ensures forall i :: 0 <= i < |holds| ==>
      r[i] == if holdId == Some(i) then holds[i].(status := Released) else holds[i]
  {
    if holdId.Some? && holdId.value < |holds| then holds[holdId.value := holds[holdId.value].(status := Released)]
    else holds
  }

  /**
   * Deduplicate on the key, lock the order, record the delivery; settle a
   * pending order as completed on success, or as canceled with its hold
   * released on failure.
   */
  function PaymentWebhook(t: Tables, orderId: int, outcome: PaymentOutcome, k: Key): (r: Step<WebhookResponse>)
    ensures r.tables.stock == t.stock && |r.tables.holds| == |t.holds| && |r.tables.orders| == |t.orders|
    ensures t.webhooks <= r.tables.webhooks && |r.tables.webhooks| <= |t.webhooks| + 1
    ensures r.response == OrderNotFound || HasWebhookKey(r.tables.webhooks, k)
  {
    if HasWebhookKey(t.webhooks, k) then Step(t, AlreadyProcessed)
    else if orderId < 0 || orderId >= |t.orders| then Step(t, OrderNotFound)
    else
      var o := t.orders[orderId];
      var ledger := t.webhooks + [Webhook(orderId, outcome, k)];
      if o.status != Pending then Step(t.(webhooks := ledger), AlreadyProcessed)
      else if outcome == Success then
        Step(t.(orders := t.orders[orderId := o.(status := Completed)], webhooks := ledger), Processed)
      else
        Step(t.(orders := t.orders[orderId := o.(status := Canceled)],
                holds := Release(t.holds, o.holdId),
                webhooks := ledger),
             Processed)
  }

  /** Every branch of the webhook, with exactly what it writes. */
  lemma WebhookOutcome(t: Tables, orderId: int, outcome: PaymentOutcome, k: Key)
    ensures var s := PaymentWebhook(t, orderId, outcome, k);
      && (HasWebhookKey(t.webhooks, k) ==> s == Step(t, AlreadyProcessed))
      && (s.response == OrderNotFound <==> !HasWebhookKey(t.webhooks, k) && (orderId < 0 || orderId >= |t.orders|))
      && (s.response == OrderNotFound ==> s.tables == t && !HasWebhookKey(s.tables.webhooks, k))
      && (!HasWebhookKey(t.webhooks, k) && 0 <= orderId < |t.orders| ==>
            var o := t.orders[orderId];
            && s.tables.webhooks == t.webhooks + [Webhook(orderId, outcome, k)]
            && s.tables.stock == t.stock
            && (o.status != Pending ==>
                  s.response == AlreadyProcessed && s.tables.holds == t.holds && s.tables.orders == t.orders)
            && (o.status == Pending ==>
                  && s.response == Processed
                  && s.tables.orders == t.orders[orderId := o.(status := if outcome == Success then Completed else Canceled)]
                  && s.tables.holds == if outcome == Success then t.holds else Release(t.holds, o.holdId)))
  {
  }

  /** After a delivery is applied (or recorded against a settled order), every replay of its key is a no-op. */
  lemma WebhookIsIdempotent(t: Tables, orderId: int, outcome: PaymentOutcome, k: Key,
                            orderId2: int, outcome2: PaymentOutcome)
    requires PaymentWebhook(t, orderId, outcome, k).response != OrderNotFound
    ensures var s := PaymentWebhook(t, orderId, outcome, k);
      PaymentWebhook(s.tables, orderId2, outcome2, k) == Step(s.tables, AlreadyProcessed)
  {
    var s := PaymentWebhook(t, orderId, outcome, k);
    if !HasWebhookKey(t.webhooks, k) {
      var n := |t.webhooks|;
      assert s.tables.webhooks[n].idempotencyKey == k;
    }
  }

  lemma WebhookKeepsConsistent(t: Tables, orderId: int, outcome: PaymentOutcome, k: Key)
    requires Consistent(t)
    ensures Consistent(PaymentWebhook(t, orderId, outcome, k).tables)
  {
    var s := PaymentWebhook(t, orderId, outcome, k);
    var u := s.tables;
    if s.tables != t {
      WebhookOutcome(t, orderId, outcome, k);
      var ledger := t.webhooks + [Webhook(orderId, outcome, k)];
      assert u.webhooks == ledger;
      forall i, j | 0 <= i < j < |ledger|
        ensures ledger[i].idempotencyKey != ledger[j].idempotencyKey
      {
        if j == |t.webhooks| {
          assert t.webhooks[i].idempotencyKey != k;
        }
      }
      assert forall i :: 0 <= i < |u.orders| ==>
        && u.orders[i].idempotencyKey == t.orders[i].idempotencyKey
        && u.orders[i].productId == t.orders[i].productId
        && u.orders[i].holdId == t.orders[i].holdId;
      assert forall i :: 0 <= i < |u.holds| ==>
        u.holds[i].productId == t.holds[i].productId && (t.holds[i].status != Active ==> u.holds[i].status != Active);
    }
  }

  /**
   * A failure webhook changes no product's demand at any time: the hold it
   * releases was already consumed, and the order it cancels was pending.
   */
  lemma FailureWebhookKeepsDemand(t: Tables, orderId: int, k: Key, p: ProductId, at: Time)
    requires Consistent(t)
    ensures var u := PaymentWebhook(t, orderId, Failure, k).tables;
      HeldQty(u.holds, p, at) == HeldQty(t.holds, p, at) && SoldQty(u.orders, p) == SoldQty(t.orders, p)
  {
    var s := PaymentWebhook(t, orderId, Failure, k);
    if s.response == Processed {
      var o := t.orders[orderId];
      SoldQtyUpdate(t.orders, orderId, o.(status := Canceled), p);
      if o.holdId.Some? {
        var i := o.holdId.value;
        HeldQtyUpdate(t.holds, i, t.holds[i].(status := Released), p, at);
      }
    }
  }

  /** The webhook changes no availability but that of the order's product. */
  lemma WebhookLeavesOtherProducts(t: Tables, orderId: int, outcome: PaymentOutcome, k: Key,
                                   other: ProductId, at: Time)
    requires Consistent(t)
    requires 0 <= orderId < |t.orders| && other != t.orders[orderId].productId
    ensures Available(PaymentWebhook(t, orderId, outcome, k).tables, other, at) == Available(t, other, at)
  {
    var s := PaymentWebhook(t, orderId, outcome, k);
    if s.response == Processed {
      var o := t.orders[orderId];
      if outcome == Success {
        SoldQtyUpdate(t.orders, orderId, o.(status := Completed), other);
      } else {
        FailureWebhookKeepsDemand(t, orderId, k, other, at);
      }
    }
  }

  /**
   * A delivery for an order that does not exist yet leaves no trace, so once
   * the order row is inserted the retry with the same key settles it.
   */
  lemma EarlyWebhookRetrySettles(t: Tables, o: Order, k: Key)
    requires !HasWebhookKey(t.webhooks, k) && o.status == Pending
    ensures var early := PaymentWebhook(t, |t.orders|, Success, k);
      var u := early.tables.(orders := early.tables.orders + [o]);
      var retry := PaymentWebhook(u, |t.orders|, Success, k);
      && early == Step(t, OrderNotFound)
      && retry.response == Processed
      && retry.tables.orders == t.orders + [o.(status := Completed)]
      && PaymentWebhook(retry.tables, |t.orders|, Success, k) == Step(retry.tables, AlreadyProcessed)
  {
    var u := t.(orders := t.orders + [o]);
    assert u.orders[|t.orders|] == o;
    assert (t.orders + [o])[|t.orders| := o.(status := Completed)] == t.orders + [o.(status := Completed)];
    WebhookIsIdempotent(u, |t.orders|, Success, k, |t.orders|, Success);
  }

  /**
   * One unit of a ten-unit product held and converted, the conversion retried
   * with the same key, the payment failing, and the spent hold presented
   * again under a new key, step by step.
   */
  lemma FailedPaymentRun()
    ensures var t0 := Tables(map[1 := 10], [], [], []);
      var h := Hold(1, 1, 120, Active);
      var o := Order(1, 1, Pending, Some(0), Some("order-1"));
      var t1 := t0.(holds := [h]);
      var t2 := t1.(holds := [h.(status := Consumed)], orders := [o]);
      var t3 := t2.(holds := [h.(status := Released)], orders := [o.(status := Canceled)],
                    webhooks := [Webhook(0, Failure, "payment-1")]);
      && CreateHold(t0, 1, 1, None, 0) == Step(t1, HoldCreated(0, 120))
      && CreateOrder(t1, 0, "order-1", 0) == Step(t2, OrderReturned(0, o))
      && CreateOrder(t2, 0, "order-1", 0) == Step(t2, OrderReturned(0, o))
      && PaymentWebhook(t2, 0, Failure, "payment-1") == Step(t3, Processed)
      && CreateOrder(t3, 0, "order-2", 1) == Step(t3, HoldExpiredOrInvalid)
  {
    var t0 := Tables(map[1 := 10], [], [], []);
    var h := Hold(1, 1, 120, Active);
    var o := Order(1, 1, Pending, Some(0), Some("order-1"));
    var t1 := t0.(holds := [h]);
    var t2 := t1.(holds := [h.(status := Consumed)], orders := [o]);
    assert HeldQty([], 1, 0) == 0 && SoldQty([], 1) == 0;
    CreateHoldInsertsOneHold(t0, 1, 1, None, 0);
    CreateOrderConverts(t1, 0, "order-1", 0);
    CreateOrderReplay(t2, 0, "order-1", 0, 0);
    WebhookOutcome(t2, 0, Failure, "payment-1");
    var t3 := PaymentWebhook(t2, 0, Failure, "payment-1").tables;
    assert t3.holds == [h.(status := Released)];
    CreateOrderRejects(t3, 0, "order-2", 1);
  }

  /**
   * The code does not keep the design's global invariant: a converted hold
   * stops counting while its pending order does not count yet, so the freed
   * unit can be held again, and the success webhook then completes the first
   * order without any stock check. Converting and paying the second hold then
   * sells two units of a product stocked with one.
   */
  lemma SuccessWebhookCanOversell()
    ensures var t0 := Tables(map[1 := 1], [], [], []);
      var s1 := CreateHold(t0, 1, 1, None, 0);
      var s2 := CreateOrder(s1.tables, 0, "order-1", 0);
      var s3 := CreateHold(s2.tables, 1, 1, None, 0);
      var s4 := PaymentWebhook(s3.tables, 0, Success, "payment-1");
      var s5 := CreateOrder(s4.tables, 1, "order-2", 0);
      var s6 := PaymentWebhook(s5.tables, 1, Success, "payment-2");
      && s1.response.HoldCreated? && s2.response.OrderReturned? && s3.response.HoldCreated?
      && s4.response == Processed && s5.response.OrderReturned? && s6.response == Processed
      && NoOversell(s3.tables, 0) && !NoOversell(s4.tables, 0)
      && SoldQty(s6.tables.orders, 1) == 2 > s6.tables.stock[1]
  {
    var t0 := Tables(map[1 := 1], [], [], []);
    var h := Hold(1, 1, 120, Active);
    var c := h.(status := Consumed);
    var o1 := Order(1, 1, Pending, Some(0), Some("order-1"));
    var o2 := Order(1, 1, Pending, Some(1), Some("order-2"));
    var t1 := t0.(holds := [h]);
    var t2 := t1.(holds := [c], orders := [o1]);
    var t3 := t2.(holds := [c, h]);
    var t4 := t3.(orders := [o1.(status := Completed)], webhooks := [Webhook(0, Success, "payment-1")]);
    var t5 := t4.(holds := [c, c], orders := [o1.(status := Completed), o2]);
    var t6 := t5.(orders := [o1.(status := Completed), o2.(status := Completed)],
                  webhooks := t4.webhooks + [Webhook(1, Success, "payment-2")]);
    OversellFirstConversion();
    OversellRehold();
    assert CreateHold(t2, 1, 1, None, 0) == Step(t3, HoldCreated(1, 120));
    assert PaymentWebhook(t3, 0, Success, "payment-1") == Step(t4, Processed);
    OversellSecondSale();
    assert CreateOrder(t4, 1, "order-2", 0) == Step(t5, OrderReturned(1, o2));
    assert PaymentWebhook(t5, 1, Success, "payment-2") == Step(t6, Processed);
    assert HeldQty([c], 1, 0) == 0 && [c, h][..1] == [c];
    assert HeldQty(t3.holds, 1, 0) == 1;
    assert SoldQty(t4.orders, 1) == 1;
    assert SoldQty(t6.orders, 1) == 2;
  }

  /** The only unit held and its hold converted. */
  lemma OversellFirstConversion()
    ensures var h := Hold(1, 1, 120, Active);
      var o1 := Order(1, 1, Pending, Some(0), Some("order-1"));
      var t0 := Tables(map[1 := 1], [], [], []);
      var t1 := t0.(holds := [h]);
      && CreateHold(t0, 1, 1, None, 0) == Step(t1, HoldCreated(0, 120))
      && CreateOrder(t1, 0, "order-1", 0) == Step(t1.(holds := [h.(status := Consumed)], orders := [o1]),
                                                   OrderReturned(0, o1))
  {
    var t0 := Tables(map[1 := 1], [], [], []);
    assert HeldQty([], 1, 0) == 0 && SoldQty([], 1) == 0;
    CreateHoldInsertsOneHold(t0, 1, 1, None, 0);
    CreateOrderConverts(t0.(holds := [Hold(1, 1, 120, Active)]), 0, "order-1", 0);
  }

  /** With the first order pending, the freed unit is held again and the first order paid. */
  lemma OversellRehold()
    ensures var h := Hold(1, 1, 120, Active);
      var c := h.(status := Consumed);
      var o1 := Order(1, 1, Pending, Some(0), Some("order-1"));
      var t2 := Tables(map[1 := 1], [c], [o1], []);
      var t3 := t2.(holds := [c, h]);
      && CreateHold(t2, 1, 1, None, 0) == Step(t3, HoldCreated(1, 120))
      && PaymentWebhook(t3, 0, Success, "payment-1") ==
           Step(t3.(orders := [o1.(status := Completed)], webhooks := [Webhook(0, Success, "payment-1")]), Processed)
  {
    var h := Hold(1, 1, 120, Active);
    var c := h.(status := Consumed);
    var o1 := Order(1, 1, Pending, Some(0), Some("order-1"));
    var t2 := Tables(map[1 := 1], [c], [o1], []);
    assert HeldQty([c], 1, 0) == 0 && SoldQty([o1], 1) == 0;
    CreateHoldOutcome(t2, 1, 1, None, 0);
    CreateHoldInsertsOneHold(t2, 1, 1, None, 0);
    WebhookOutcome(t2.(holds := [c, h]), 0, Success, "payment-1");
  }

  /** The second hold converted and its order paid. */
  lemma OversellSecondSale()
    ensures var h := Hold(1, 1, 120, Active);
      var c := h.(status := Consumed);
      var o1 := Order(1, 1, Completed, Some(0), Some("order-1"));
      var o2 := Order(1, 1, Pending, Some(1), Some("order-2"));
      var w := Webhook(0, Success, "payment-1");
      var t4 := Tables(map[1 := 1], [c, h], [o1], [w]);
      var t5 := t4.(holds := [c, c], orders := [o1, o2]);
      && CreateOrder(t4, 1, "order-2", 0) == Step(t5, OrderReturned(1, o2))
      && PaymentWebhook(t5, 1, Success, "payment-2") ==
           Step(t5.(orders := [o1, o2.(status := Completed)], webhooks := [w, Webhook(1, Success, "payment-2")]),
                Processed)
  {
    var h := Hold(1, 1, 120, Active);
    var c := h.(status := Consumed);
    var o1 := Order(1, 1, Completed, Some(0), Some("order-1"));
    var t4 := Tables(map[1 := 1], [c, h], [o1], [Webhook(0, Success, "payment-1")]);
    assert !KeyUsed(t4.orders, "order-2");
    CreateOrderConverts(t4, 1, "order-2", 0);
    var t5 := CreateOrder(t4, 1, "order-2", 0).tables;
    assert !HasWebhookKey(t5.webhooks, "payment-2");
    WebhookOutcome(t5, 1, Success, "payment-2");
  }
}
