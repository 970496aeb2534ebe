/**
 * The availability closure shared by `ProductController::show` and
 * `SaleController::createHold`:
 * available = max(0, stock - active unexpired hold quantity - sold quantity).
 */
module Availability {
  import opened Wrappers
  import opened HoldModel
  import opened OrderModel
  import opened Schema

  /** None when the product row is missing (the closure returns null). */
  function Available(t: Tables, p: ProductId, now: Time): (r: Option<nat>)
    ensures r.None? <==> p !in t.stock
    ensures r.Some? ==> r.value <= t.stock[p]
  {
    if p !in t.stock then None
    else
      var free := t.stock[p] - HeldQty(t.holds, p, now) - SoldQty(t.orders, p);
      Some(if free < 0 then 0 else free)
  }

  /**
   * The design's global invariant: for every product, the quantity held by
   * active unexpired holds plus the quantity of completed orders is at most
   * its stock.
   */
  predicate NoOversell(t: Tables, now: Time)
  {
    forall p :: p in t.stock ==> HeldQty(t.holds, p, now) + SoldQty(t.orders, p) <= t.stock[p]
  }

  /** The admission test `available >= quantity` is exactly "the request still fits in the stock". */
  lemma AdmissionCriterion(t: Tables, p: ProductId, quantity: nat, now: Time)
    requires p in t.stock && quantity >= 1
    ensures Available(t, p, now).value >= quantity <==>
      HeldQty(t.holds, p, now) + SoldQty(t.orders, p) + quantity <= t.stock[p]
  {
  }

  /** Under the invariant the max(0, ...) never clips: availability is the exact remainder. */
  lemma AvailableIsRemainder(t: Tables, p: ProductId, now: Time)
    requires NoOversell(t, now) && p in t.stock
    ensures Available(t, p, now).value + HeldQty(t.holds, p, now) + SoldQty(t.orders, p) == t.stock[p]
  {
  }

  /** Waiting never lowers availability, and the invariant survives the passage of time. */
  lemma AvailabilityNeverDropsOverTime(t: Tables, p: ProductId, now: Time, later: Time)
    requires now <= later && p in t.stock
    ensures Available(t, p, now).value <= Available(t, p, later).value
  {
    HeldQtyNeverGrowsOverTime(t.holds, p, now, later);
  }

  lemma NoOversellPersists(t: Tables, now: Time, later: Time)
    requires NoOversell(t, now) && now <= later
    ensures NoOversell(t, later)
  {
    forall p | p in t.stock
      ensures HeldQty(t.holds, p, later) + SoldQty(t.orders, p) <= t.stock[p]
    {
      HeldQtyNeverGrowsOverTime(t.holds, p, now, later);
    }
  }

  /** Changing a hold that neither was nor becomes an active claim on p leaves p's availability alone. */
  lemma InactiveHoldsDoNotReduceAvailability(t: Tables, i: nat, h: Hold, p: ProductId, now: Time)
    requires i < |t.holds|
    requires Claim(t.holds[i], p, now) == 0 && Claim(h, p, now) == 0
    ensures Available(t.(holds := t.holds[i := h]), p, now) == Available(t, p, now)
  {
    HeldQtyUpdate(t.holds, i, h, p, now);
  }

  /** Changing an order that neither was nor becomes a completed order of p leaves p's availability alone. */
  lemma OnlyCompletedOrdersReduceAvailability(t: Tables, i: nat, o: Order, p: ProductId, now: Time)
    requires i < |t.orders|
    requires Sold(t.orders[i], p) == 0 && Sold(o, p) == 0
    ensures Available(t.(orders := t.orders[i := o]), p, now) == Available(t, p, now)
  {
    SoldQtyUpdate(t.orders, i, o, p);
  }

  /** With no active claims and no completed sales, the whole stock is available. */
  lemma FullStockWhenNothingCounts(t: Tables, p: ProductId, now: Time)
    requires p in t.stock
    requires forall i :: 0 <= i < |t.holds| && t.holds[i].productId == p ==> !IsActive(t.holds[i], now)
    requires forall i :: 0 <= i < |t.orders| && t.orders[i].productId == p ==> t.orders[i].status != Completed
    ensures Available(t, p, now) == Some(t.stock[p])
  {
    InactiveHoldsDoNotCount(t.holds, p, now);
    OnlyCompletedOrdersCount(t.orders, p);
  }
}
