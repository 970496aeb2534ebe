/**
 * The controllers as one object over the in-memory tables and the
 * availability cache: `ProductController::show` and the three transactions of
 * `SaleController`, each an atomic method whose new tables are those of the
 * matching step in module Sale.
 */
module SaleStore {
  import opened Wrappers
  import opened HoldModel
  import opened OrderModel
  import opened Schema
  import opened Availability
  import opened Sale

  /** `product:{id}:available_stock` lives for one second. */
  const CacheTtl: int := 1

  datatype CacheEntry = CacheEntry(value: nat, expiresAt: Time)

  /**
   * Every entry is the availability of the current tables at the moment it was
   * stored: mutations forget the entry of the product they touch, so an entry
   * can only be stale with respect to the clock (a hold expiring), never to a
   * write.
   */
  predicate CacheCoherent(t: Tables, cache: map<ProductId, CacheEntry>)
  {
    forall p :: p in cache ==> Available(t, p, cache[p].expiresAt - CacheTtl) == Some(cache[p].value)
  }

  /** A hold admitted for one product leaves every other product's cache entry coherent. */
  lemma CreateHoldKeepsCacheCoherent(t: Tables, cache: map<ProductId, CacheEntry>, p: ProductId, quantity: nat,
                                     ttl: Option<int>, now: Time)
    requires ValidHoldRequest(quantity, ttl) && CacheCoherent(t, cache)
    ensures CacheCoherent(CreateHold(t, p, quantity, ttl, now).tables, cache - {p})
  {
    var s := CreateHold(t, p, quantity, ttl, now);
    forall q | q in cache - {p}
      ensures Available(s.tables, q, cache[q].expiresAt - CacheTtl) == Some(cache[q].value)
    {
      CreateHoldLeavesOtherProducts(t, p, quantity, ttl, now, q, cache[q].expiresAt - CacheTtl);
    }
  }

  /** Converting a hold leaves every cache entry but that of the hold's product coherent. */
  lemma CreateOrderKeepsCacheCoherent(t: Tables, cache: map<ProductId, CacheEntry>, holdId: int, k: Key, now: Time)
    requires 0 <= holdId < |t.holds| && CacheCoherent(t, cache)
    ensures CacheCoherent(CreateOrder(t, holdId, k, now).tables, cache - {t.holds[holdId].productId})
  {
    var s := CreateOrder(t, holdId, k, now);
    var p := t.holds[holdId].productId;
    forall q | q in cache - {p}
      ensures Available(s.tables, q, cache[q].expiresAt - CacheTtl) == Some(cache[q].value)
    {
      CreateOrderLeavesOtherProducts(t, holdId, k, now, q, cache[q].expiresAt - CacheTtl);
    }
  }

  /**
   * A delivery forgets the cache entry of the settled order's product and
   * leaves every other entry coherent.
   */
  lemma WebhookKeepsCacheCoherent(t: Tables, cache: map<ProductId, CacheEntry>, orderId: int,
                                  outcome: PaymentOutcome, k: Key)
    requires Consistent(t) && 0 <= orderId < |t.orders| && CacheCoherent(t, cache)
    ensures var s := PaymentWebhook(t, orderId, outcome, k);
      CacheCoherent(s.tables, if s.response == Processed then cache - {t.orders[orderId].productId} else cache)
  {
    if PaymentWebhook(t, orderId, outcome, k).response == Processed {
      ProcessedWebhookKeepsCacheCoherent(t, cache, orderId, outcome, k);
    } else {
      UnprocessedWebhookKeepsCacheCoherent(t, cache, orderId, outcome, k);
    }
  }

  lemma ProcessedWebhookKeepsCacheCoherent(t: Tables, cache: map<ProductId, CacheEntry>, orderId: int,
                                           outcome: PaymentOutcome, k: Key)
    requires Consistent(t) && 0 <= orderId < |t.orders| && CacheCoherent(t, cache)
    ensures CacheCoherent(PaymentWebhook(t, orderId, outcome, k).tables, cache - {t.orders[orderId].productId})
  {
    var u := PaymentWebhook(t, orderId, outcome, k).tables;
    var p := t.orders[orderId].productId;
    forall q | q in cache - {p}
      ensures Available(u, q, cache[q].expiresAt - CacheTtl) == Some(cache[q].value)
    {
      WebhookLeavesOtherProducts(t, orderId, outcome, k, q, cache[q].expiresAt - CacheTtl);
    }
  }

  /** A delivery that settles nothing writes at most the ledger, which no availability reads. */
  lemma UnprocessedWebhookKeepsCacheCoherent(t: Tables, cache: map<ProductId, CacheEntry>, orderId: int,
                                             outcome: PaymentOutcome, k: Key)
    requires PaymentWebhook(t, orderId, outcome, k).response != Processed && CacheCoherent(t, cache)
    ensures CacheCoherent(PaymentWebhook(t, orderId, outcome, k).tables, cache)
  {
    var u := PaymentWebhook(t, orderId, outcome, k).tables;
    WebhookOutcome(t, orderId, outcome, k);
    assert u == t.(webhooks := u.webhooks);
  }

  class Store {
    const stock: map<ProductId, nat>
    var holds: seq<Hold>
    var orders: seq<Order>
    var webhooks: seq<Webhook>
    var cache: map<ProductId, CacheEntry>

    function Snapshot(): Tables
      reads this
    {
      Tables(stock, holds, orders, webhooks)
    }

    ghost predicate Valid()
      reads this
    {
      Consistent(Snapshot()) && CacheCoherent(Snapshot(), cache)
    }

    constructor (stock: map<ProductId, nat>)
      ensures Valid() && Snapshot() == Tables(stock, [], [], []) && cache == map[]
    {
      this.stock := stock;
      holds, orders, webhooks := [], [], [];
      cache := map[];
    }

    /**
     * show: serve the cached availability while its entry is live, otherwise
     * recompute it and store it for one second. A missing product yields
     * None, which the cache reads back as a miss.
     */
    method Show(productId: ProductId, now: Time) returns (available: Option<nat>)
      requires Valid()
      modifies this`cache
      ensures Valid()
      ensures available.None? <==> productId !in stock
      ensures available.Some? ==>
        && productId in cache && now < cache[productId].expiresAt
        && available == Available(Snapshot(), productId, cache[productId].expiresAt - CacheTtl)
      ensures productId in old(cache) && now < old(cache)[productId].expiresAt ==>
        cache == old(cache) && available == Some(old(cache)[productId].value)
      ensures !(productId in old(cache) && now < old(cache)[productId].expiresAt) ==>
        && available == Available(Snapshot(), productId, now)
        && cache == if available.Some? then old(cache)[productId := CacheEntry(available.value, now + CacheTtl)]
                    else old(cache) - {productId}
    {
      if productId in cache && now < cache[productId].expiresAt {
        available := Some(cache[productId].value);
      } else {
        available := Available(Snapshot(), productId, now);
        if available.Some? {
          cache := cache[productId := CacheEntry(available.value, now + CacheTtl)];
        } else {
          cache := cache - {productId};
        }
      }
    }

    method CreateHold(productId: ProductId, quantity: nat, ttl: Option<int>, now: Time) returns (r: HoldResponse)
      requires Valid() && ValidHoldRequest(quantity, ttl)
      modifies this
      ensures Valid()
      ensures Step(Snapshot(), r) == Sale.CreateHold(old(Snapshot()), productId, quantity, ttl, now)
      ensures cache == if r.HoldCreated? then old(cache) - {productId} else old(cache)
      ensures NoOversell(old(Snapshot()), now) ==> NoOversell(Snapshot(), now)
    {
      ghost var before := Snapshot();
      if productId !in stock {
        return ProductNotFound;
      }
      var available := Available(Snapshot(), productId, now).value;
      if available < quantity {
        return InsufficientStock;
      }
      var expiresAt := now + TtlSeconds(ttl);
      holds := holds + [Hold(productId, quantity, expiresAt, Active)];
      cache := cache - {productId};
      r := HoldCreated(|holds| - 1, expiresAt);
      assert Snapshot() == before.(holds := before.holds + [Hold(productId, quantity, expiresAt, Active)]);
      assert Step(Snapshot(), r) == Sale.CreateHold(before, productId, quantity, ttl, now);
      CreateHoldKeepsConsistent(before, productId, quantity, ttl, now);
      if NoOversell(before, now) {
        CreateHoldKeepsNoOversell(before, productId, quantity, ttl, now);
      }
      CreateHoldKeepsCacheCoherent(before, old(cache), productId, quantity, ttl, now);
    }

    method CreateOrder(holdId: int, key: Key, now: Time) returns (r: OrderResponse)
      requires Valid()
      modifies this
      ensures Valid()
      ensures Step(Snapshot(), r) == Sale.CreateOrder(old(Snapshot()), holdId, key, now)
      ensures cache == if r.OrderReturned? && |orders| > |old(orders)| then old(cache) - {r.order.productId}
                       else old(cache)
      ensures NoOversell(old(Snapshot()), now) ==> NoOversell(Snapshot(), now)
    {
      var existing := FindOrderByKey(orders, key);
      if existing.Some? {
        CreateOrderReplay(Snapshot(), holdId, key, now, existing.value);
        return OrderReturned(existing.value, orders[existing.value]);
      }
      if holdId < 0 || holdId >= |holds| {
        assert Sale.CreateOrder(Snapshot(), holdId, key, now) == Step(Snapshot(), HoldNotFound);
        return HoldNotFound;
      }
      var hold := holds[holdId];
      if hold.status != Active || hold.expiresAt <= now {
        assert Sale.CreateOrder(Snapshot(), holdId, key, now) == Step(Snapshot(), HoldExpiredOrInvalid);
        return HoldExpiredOrInvalid;
      }
      ghost var before := Snapshot();
      holds := holds[holdId := hold.(status := Consumed)];
      var order := Order(hold.productId, hold.quantity, Pending, Some(holdId), Some(key));
      orders := orders + [order];
      cache := cache - {hold.productId};
      r := OrderReturned(|orders| - 1, order);
      CreateOrderConverts(before, holdId, key, now);
      assert Step(Snapshot(), r) == Sale.CreateOrder(before, holdId, key, now);
      CreateOrderKeepsConsistent(before, holdId, key, now);
      if NoOversell(before, now) {
        CreateOrderKeepsNoOversell(before, holdId, key, now);
      }
      CreateOrderKeepsCacheCoherent(before, old(cache), holdId, key, now);
    }

    method PaymentWebhook(orderId: int, outcome: PaymentOutcome, key: Key) returns (r: WebhookResponse)
      requires Valid()
      modifies this
      ensures Valid()
      ensures Step(Snapshot(), r) == Sale.PaymentWebhook(old(Snapshot()), orderId, outcome, key)
      ensures cache == if r == Processed && 0 <= orderId < |old(orders)| then old(cache) - {old(orders)[orderId].productId}
                       else old(cache)
    {
      if HasWebhookKey(webhooks, key) {
        return AlreadyProcessed;
      }
      if orderId < 0 || orderId >= |orders| {
        return OrderNotFound;
      }
      ghost var before := Snapshot();
      var order := orders[orderId];
      if order.status != Pending {
        webhooks := webhooks + [Webhook(orderId, outcome, key)];
        r := AlreadyProcessed;
      } else {
        if outcome == Success {
          orders := orders[orderId := order.(status := Completed)];
        } else {
          orders := orders[orderId := order.(status := Canceled)];
          if order.holdId.Some? && order.holdId.value < |holds| {
            var h := order.holdId.value;
            holds := holds[h := holds[h].(status := Released)];
          }
        }
        webhooks := webhooks + [Webhook(orderId, outcome, key)];
        cache := cache - {order.productId};
        r := Processed;
      }
      WebhookOutcome(before, orderId, outcome, key);
      assert Step(Snapshot(), r) == Sale.PaymentWebhook(before, orderId, outcome, key);
      WebhookKeepsConsistent(before, orderId, outcome, key);
      WebhookKeepsCacheCoherent(before, old(cache), orderId, outcome, key);
    }
  }

  /**
   * Requests of one unit each against a product with the given stock, all at
   * one instant, as the overselling test drives them: exactly min(stock,
   * requests) of them are admitted.
   */
  method ConcurrentHolds(capacity: nat, requests: nat, now: Time) returns (granted: nat)
    ensures granted == if requests < capacity then requests else capacity
  {
    var store := new Store(map[0 := capacity]);
    granted := 0;
    var i := 0;
    while i < requests
      invariant 0 <= i <= requests
      invariant fresh(store) && store.Valid()
      invariant store.stock == map[0 := capacity] && store.orders == []
      invariant granted == if i < capacity then i else capacity
      invariant HeldQty(store.holds, 0, now) == granted
    {
      ghost var before := store.Snapshot();
      var r := store.CreateHold(0, 1, Some(60), now);
      CreateHoldOutcome(before, 0, 1, Some(60), now);
      if r.HoldCreated? {
        CreateHoldInsertsOneHold(before, 0, 1, Some(60), now);
        HeldQtyAppend(before.holds, Hold(0, 1, now + 60, Active), 0, now);
        granted := granted + 1;
      }
      i := i + 1;
    }
  }

  /**
   * One unit held and converted, the conversion retried with the same key, the
   * payment failing, and a second conversion of the same hold attempted: one
   * order exists, it is canceled, its hold is released, and the hold cannot be
   * converted again.
   */
  method FailedPaymentScenario()
    returns (first: OrderResponse, replay: OrderResponse, orderCount: nat, orderStatus: OrderStatus,
             holdStatus: HoldStatus, retry: OrderResponse)
    ensures first.OrderReturned? && replay == first && orderCount == 1
    ensures orderStatus == Canceled && holdStatus == Released
    ensures retry == HoldExpiredOrInvalid
  {
    FailedPaymentRun();
    var store := new Store(map[1 := 10]);
    var hold := store.CreateHold(1, 1, None, 0);
    first := store.CreateOrder(0, "order-1", 0);
    replay := store.CreateOrder(0, "order-1", 0);
    var settled := store.PaymentWebhook(0, Failure, "payment-1");
    orderCount, orderStatus, holdStatus := |store.orders|, store.orders[0].status, store.holds[0].status;
    retry := store.CreateOrder(0, "order-2", 1);
  }
}
