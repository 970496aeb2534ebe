/**
 * A row of the `orders` table and `Order::sold_qty` (app/Models/Order.php):
 * the quantity a product has definitively sold.
 */
module OrderModel {
  import opened Wrappers
  import opened HoldModel

  /** An order is identified by its position in the `orders` table. */
  type OrderId = nat
  /** Idempotency keys are caller-supplied strings. */
  type Key = string

  datatype OrderStatus = Pending | Completed | Canceled

  /** `hold_id` and `idempotency_key` are nullable columns. */
  datatype Order = Order(
    productId: ProductId,
    quantity: nat,
    status: OrderStatus,
    holdId: Option<HoldId>,
    idempotencyKey: Option<Key>)

  /** What one order contributes to the quantity product p has sold. */
  function Sold(o: Order, p: ProductId): nat
  {
    if o.productId == p && o.status == Completed then o.quantity else 0
  }

  /**
   * sold_qty: sum of the quantities of the completed orders of product p:
   * every such order is included in it.
   */
  function SoldQty(orders: seq<Order>, p: ProductId): (r: nat)
    ensures forall i :: 0 <= i < |orders| ==> Sold(orders[i], p) <= r
  {
    if orders == [] then 0
    else SoldQty(orders[..|orders| - 1], p) + Sold(orders[|orders| - 1], p)
  }

  lemma SoldQtyAppend(orders: seq<Order>, o: Order, p: ProductId)
    ensures SoldQty(orders + [o], p) == SoldQty(orders, p) + Sold(o, p)
  {
    assert (orders + [o])[..|orders|] == orders;
  }

  /** Replacing one row changes the sum by exactly the difference of the two rows' contributions. */
  lemma {:induction false} SoldQtyUpdate(orders: seq<Order>, i: nat, o: Order, p: ProductId)
    requires i < |orders|
    ensures SoldQty(orders[i := o], p) + Sold(orders[i], p) == SoldQty(orders, p) + Sold(o, p)
  {
    var n := |orders| - 1;
    var updated := orders[i := o];
    if i == n {
      assert updated[..n] == orders[..n];
    } else {
      assert updated[..n] == orders[..n][i := o];
      SoldQtyUpdate(orders[..n], i, o, p);
    }
  }

  /** Pending and canceled orders, and orders of other products, contribute nothing. */
  lemma {:induction false} OnlyCompletedOrdersCount(orders: seq<Order>, p: ProductId)
    requires forall i :: 0 <= i < |orders| && orders[i].productId == p ==> orders[i].status != Completed
    ensures SoldQty(orders, p) == 0
  {
    if orders != [] {
      OnlyCompletedOrdersCount(orders[..|orders| - 1], p);
    }
  }
}
