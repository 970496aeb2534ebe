/**
 * A row of the `holds` table and the `Hold::scopeActive` query scope
 * (app/Models/Hold.php), with the demand a product's holds place on its stock.
 */
module HoldModel {
  /** Products are identified by the integer id of the `products` table. */
  type ProductId = int
  /** A hold is identified by its position in the `holds` table. */
  type HoldId = nat
  /** Timestamps are whole seconds on one integer clock. */
  type Time = int

  /** The `status` enum of the `holds` table. */
  datatype HoldStatus = Active | Released | Consumed

  /** `quantity` is an unsigned column. */
  datatype Hold = Hold(productId: ProductId, quantity: nat, expiresAt: Time, status: HoldStatus)

  /** scopeActive: status is 'active' and `expires_at > now`. */
  predicate IsActive(h: Hold, now: Time)
  {
    h.status == Active && h.expiresAt > now
  }

  /** What one hold takes from the stock of product p at time now. */
  function Claim(h: Hold, p: ProductId, now: Time): nat
  {
    if h.productId == p && IsActive(h, now) then h.quantity else 0
  }

  /**
   * Sum of the quantities of the active, unexpired holds of product p: every
   * such hold is included in it.
   */
  function HeldQty(holds: seq<Hold>, p: ProductId, now: Time): (r: nat)
    ensures forall i :: 0 <= i < |holds| ==> Claim(holds[i], p, now) <= r
  {
    if holds == [] then 0
    else HeldQty(holds[..|holds| - 1], p, now) + Claim(holds[|holds| - 1], p, now)
  }

  /**
   * Expiry is a read-time predicate, not a transition: a hold whose `expires_at`
   * is not after now is inactive whatever its stored status (the boundary
   * `expires_at == now` is expired), a consumed or released hold is never
   * active, and an inactive hold stays inactive as the clock advances.
   */
  lemma ExpiryIsFinal(h: Hold, now: Time, later: Time)
    ensures h.expiresAt <= now ==> !IsActive(h, now)
    ensures h.status != Active ==> !IsActive(h, now)
    ensures !IsActive(h, now) && now <= later ==> !IsActive(h, later)
  {
  }

  lemma HeldQtyAppend(holds: seq<Hold>, h: Hold, p: ProductId, now: Time)
    ensures HeldQty(holds + [h], p, now) == HeldQty(holds, p, now) + Claim(h, p, now)
  {
    assert (holds + [h])[..|holds|] == holds;
  }

  /** Replacing one row changes the sum by exactly the difference of the two rows' claims. */
  lemma {:induction false} HeldQtyUpdate(holds: seq<Hold>, i: nat, h: Hold, p: ProductId, now: Time)
    requires i < |holds|
    ensures HeldQty(holds[i := h], p, now) + Claim(holds[i], p, now) == HeldQty(holds, p, now) + Claim(h, p, now)
  {
    var n := |holds| - 1;
    var updated := holds[i := h];
    if i == n {
      assert updated[..n] == holds[..n];
    } else {
      assert updated[..n] == holds[..n][i := h];
      HeldQtyUpdate(holds[..n], i, h, p, now);
    }
  }

  /** Holds that are expired, consumed or released, or belong to other products, add nothing. */
  lemma {:induction false} InactiveHoldsDoNotCount(holds: seq<Hold>, p: ProductId, now: Time)
    requires forall i :: 0 <= i < |holds| && holds[i].productId == p ==> !IsActive(holds[i], now)
    ensures HeldQty(holds, p, now) == 0
  {
    if holds != [] {
      InactiveHoldsDoNotCount(holds[..|holds| - 1], p, now);
    }
  }

  /** As time passes holds only drop out of the sum: demand never grows without a new row. */
  lemma {:induction false} HeldQtyNeverGrowsOverTime(holds: seq<Hold>, p: ProductId, now: Time, later: Time)
    requires now <= later
    ensures HeldQty(holds, p, later) <= HeldQty(holds, p, now)
  {
    if holds != [] {
      HeldQtyNeverGrowsOverTime(holds[..|holds| - 1], p, now, later);
    }
  }
}
