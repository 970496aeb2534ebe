/**
 * The engine as a sequential state machine: any sequence of timestamped
 * requests, each applied as one atomic transaction.
 */
module Machine {
  import opened Wrappers
  import opened HoldModel
  import opened OrderModel
  import opened Schema
  import opened Availability
  import opened Sale

  datatype Request =
    | HoldRequest(productId: ProductId, quantity: nat, ttl: Option<int>)
    | OrderRequest(holdId: int, key: Key)
    | WebhookRequest(orderId: int, outcome: PaymentOutcome, key: Key)

  datatype Event = Event(at: Time, request: Request)

  /** Requests that passed the controller's validation. */
  predicate Validated(r: Request)
  {
    r.HoldRequest? ==> ValidHoldRequest(r.quantity, r.ttl)
  }

  predicate AllValidated(events: seq<Event>)
  {
    forall i :: 0 <= i < |events| ==> Validated(events[i].request)
  }

  function Apply(t: Tables, e: Event): Tables
    requires Validated(e.request)
  {
    match e.request
    case HoldRequest(p, quantity, ttl) => CreateHold(t, p, quantity, ttl, e.at).tables
    case OrderRequest(holdId, k) => CreateOrder(t, holdId, k, e.at).tables
    case WebhookRequest(orderId, outcome, k) => PaymentWebhook(t, orderId, outcome, k).tables
  }

  function Run(t: Tables, events: seq<Event>): Tables
    requires AllValidated(events)
    decreases |events|
  {
    if events == [] then t else Run(Apply(t, events[0]), events[1..])
  }

  /** Hold lifecycle: only an active hold changes status, except that a consumed hold may be released. */
  predicate HoldMayBecome(s: HoldStatus, s': HoldStatus)
  {
    s == s' || s == Active || (s == Consumed && s' == Released)
  }

  /** Order lifecycle: only a pending order changes status. */
  predicate OrderMayBecome(s: OrderStatus, s': OrderStatus)
  {
    s == s' || s == Pending
  }

  /**
   * u is a later state of t: no row is deleted, no field but a status changes,
   * statuses move only along the lifecycles, and the ledger only grows.
   */
  predicate Evolves(t: Tables, u: Tables)
  {
    && u.stock == t.stock
    && |t.holds| <= |u.holds|
    && |t.orders| <= |u.orders|
    && t.webhooks <= u.webhooks
    && (forall i :: 0 <= i < |t.holds| ==>
          u.holds[i] == t.holds[i].(status := u.holds[i].status) && HoldMayBecome(t.holds[i].status, u.holds[i].status))
    && (forall i :: 0 <= i < |t.orders| ==>
          u.orders[i] == t.orders[i].(status := u.orders[i].status) && OrderMayBecome(t.orders[i].status, u.orders[i].status))
  }

  lemma EvolvesTransitive(t: Tables, u: Tables, v: Tables)
    requires Evolves(t, u) && Evolves(u, v)
    ensures Evolves(t, v)
  {
  }

  lemma ApplyEvolves(t: Tables, e: Event)
    requires Validated(e.request)
    ensures Evolves(t, Apply(t, e))
  {
  }

  lemma ApplyKeepsConsistent(t: Tables, e: Event)
    requires Validated(e.request) && Consistent(t)
    ensures Consistent(Apply(t, e))
  {
    match e.request
    case HoldRequest(p, quantity, ttl) => CreateHoldKeepsConsistent(t, p, quantity, ttl, e.at);
    case OrderRequest(holdId, k) => CreateOrderKeepsConsistent(t, holdId, k, e.at);
    case WebhookRequest(orderId, outcome, k) => WebhookKeepsConsistent(t, orderId, outcome, k);
  }

  lemma {:induction false} RunKeepsConsistent(t: Tables, events: seq<Event>)
    requires AllValidated(events) && Consistent(t)
    ensures Consistent(Run(t, events))
    decreases |events|
  {
    if events != [] {
      ApplyKeepsConsistent(t, events[0]);
      RunKeepsConsistent(Apply(t, events[0]), events[1..]);
    }
  }

  lemma {:induction false} RunEvolves(t: Tables, events: seq<Event>)
    requires AllValidated(events)
    ensures Evolves(t, Run(t, events))
    decreases |events|
  {
    if events != [] {
      var u := Apply(t, events[0]);
      ApplyEvolves(t, events[0]);
      RunEvolves(u, events[1..]);
      EvolvesTransitive(t, u, Run(u, events[1..]));
    }
  }

  /**
   * Terminal states never re-open: a completed or canceled order keeps its
   * status, a released hold stays released, and no settled hold is ever
   * active again, whatever requests follow.
   */
  lemma SettledRowsNeverReopen(t: Tables, events: seq<Event>)
    requires AllValidated(events)
    ensures var u := Run(t, events);
      && |t.orders| <= |u.orders| && |t.holds| <= |u.holds|
      && (forall i :: 0 <= i < |t.orders| && t.orders[i].status != Pending ==> u.orders[i].status == t.orders[i].status)
      && (forall i :: 0 <= i < |t.holds| && t.holds[i].status == Released ==> u.holds[i].status == Released)
      && (forall i :: 0 <= i < |t.holds| && t.holds[i].status != Active ==> u.holds[i].status != Active)
  {
    RunEvolves(t, events);
  }

  /** Requests arrive at non-decreasing times, none earlier than `from`. */
  predicate Chronological(events: seq<Event>, from: Time)
    decreases |events|
  {
    events == [] || (from <= events[0].at && Chronological(events[1..], events[0].at))
  }

  /** The time of the last request, or `from` when there is none. */
  function Clock(events: seq<Event>, from: Time): Time
    decreases |events|
  {
    if events == [] then from else Clock(events[1..], events[0].at)
  }

  /** A successful payment: the only request that moves quantity into the sold total. */
  predicate Completes(e: Event)
  {
    e.request.WebhookRequest? && e.request.outcome == Success
  }

  lemma ApplyKeepsNoOversell(t: Tables, e: Event)
    requires Validated(e.request) && Consistent(t) && NoOversell(t, e.at) && !Completes(e)
    ensures NoOversell(Apply(t, e), e.at)
  {
    match e.request
    case HoldRequest(p, quantity, ttl) => CreateHoldKeepsNoOversell(t, p, quantity, ttl, e.at);
    case OrderRequest(holdId, k) => CreateOrderKeepsNoOversell(t, holdId, k, e.at);
    case WebhookRequest(orderId, outcome, k) =>
      forall p | p in t.stock
        ensures HeldQty(Apply(t, e).holds, p, e.at) + SoldQty(Apply(t, e).orders, p) <= t.stock[p]
      {
        FailureWebhookKeepsDemand(t, orderId, k, p, e.at);
      }
  }

  /**
   * No overselling holds across any chronological run of hold requests,
   * conversions and failed payments: every admission is checked against the
   * current demand, and expiry only lowers demand. (A successful payment is
   * excluded: see Sale.SuccessWebhookCanOversell.)
   */
  lemma {:induction false} RunWithoutCompletionKeepsNoOversell(t: Tables, events: seq<Event>, now: Time)
    requires AllValidated(events) && Consistent(t) && NoOversell(t, now) && Chronological(events, now)
    requires forall i :: 0 <= i < |events| ==> !Completes(events[i])
    ensures NoOversell(Run(t, events), Clock(events, now))
    decreases |events|
  {
    if events != [] {
      var e := events[0];
      NoOversellPersists(t, now, e.at);
      ApplyKeepsNoOversell(t, e);
      ApplyKeepsConsistent(t, e);
      RunWithoutCompletionKeepsNoOversell(Apply(t, e), events[1..], e.at);
    }
  }
}
