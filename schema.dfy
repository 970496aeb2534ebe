/**
 * The three tables the sale engine writes (`holds`, `orders`,
 * `payment_webhooks`), the `stock` column it reads from `products`, the
 * unique keys and foreign keys the migrations put on them, and the invariant
 * the controllers keep on top of those: an order's linked hold is not active.
 */
module Schema {
  import opened Wrappers
  import opened HoldModel
  import opened OrderModel

  /** The validated `status` of a payment notification: 'success' or 'failure'. */
  datatype PaymentOutcome = Success | Failure

  /** A row of `payment_webhooks`: the dedup ledger of applied deliveries. */
  datatype Webhook = Webhook(orderId: OrderId, status: PaymentOutcome, idempotencyKey: Key)

  /** The store as the engine sees it; `stock` is read-only here. */
  datatype Tables = Tables(
    stock: map<ProductId, nat>,
    holds: seq<Hold>,
    orders: seq<Order>,
    webhooks: seq<Webhook>)

  /** `orders.idempotency_key` is unique (NULLs excepted). */
  predicate OrderKeysUnique(orders: seq<Order>)
  {
    forall i, j :: 0 <= i < j < |orders| && orders[i].idempotencyKey.Some? ==>
      orders[i].idempotencyKey != orders[j].idempotencyKey
  }

  /** `payment_webhooks.idempotency_key` is unique. */
  predicate WebhookKeysUnique(webhooks: seq<Webhook>)
  {
    forall i, j :: 0 <= i < j < |webhooks| ==> webhooks[i].idempotencyKey != webhooks[j].idempotencyKey
  }

  /** Foreign keys: holds and orders name existing products, webhooks name existing orders. */
  predicate ReferencesResolve(t: Tables)
  {
    && (forall i :: 0 <= i < |t.holds| ==> t.holds[i].productId in t.stock)
    && (forall i :: 0 <= i < |t.orders| ==> t.orders[i].productId in t.stock)
    && (forall i :: 0 <= i < |t.webhooks| ==> t.webhooks[i].orderId < |t.orders|)
  }

  /**
   * An order's hold (when it has one) exists and no longer has status active:
   * conversion consumed it, and only a failed payment touches it again. No
   * migration imposes this; the controllers keep it.
   */
  predicate LinkedHoldsSettled(t: Tables)
  {
    forall i :: 0 <= i < |t.orders| && t.orders[i].holdId.Some? ==>
      t.orders[i].holdId.value < |t.holds| && t.holds[t.orders[i].holdId.value].status != Active
  }

  /** The schema's constraints plus the controllers' own: the invariant every transaction keeps. */
  predicate Consistent(t: Tables)
  {
    && OrderKeysUnique(t.orders)
    && WebhookKeysUnique(t.webhooks)
    && ReferencesResolve(t)
    && LinkedHoldsSettled(t)
  }
}
