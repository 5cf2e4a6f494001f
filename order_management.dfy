/** The order status machine and the order row updates of `OrderManager`. */
module OrderManagement {
  import opened Wrappers
  import opened Entities
  import opened Tables
  import opened Sequences

  /** ORDER_STATUS_FLOW: the statuses each status may move to. */
  function StatusFlow(s: OrderStatus): seq<OrderStatus>
  {
    match s
    case Created => [Pending, PendingPayment, Cancelled]
    case Pending => [Paid, Cancelled, Expired]
    case PendingPayment => [Paid, Cancelled, Expired]
    case Paid => [Refunded]
    case Confirmed => [Cancelled]
    case Cancelled => []
    case Expired => []
    case Refunded => []
  }

  function Names(ss: seq<OrderStatus>): (r: seq<string>)
    ensures |r| == |ss|
    ensures forall i :: 0 <= i < |ss| ==> r[i] == OrderStatusName(ss[i])
  {
    seq(|ss|, i requires 0 <= i < |ss| => OrderStatusName(ss[i]))
  }

  /**
   * canTransitionTo: looks the current status text up in the table and searches its list for the
   * target text. A text that is not a status has no entry, so nothing is allowed from it.
   */
  function CanTransitionTo(current: string, target: string): (b: bool)
    ensures b <==> ParseOrderStatus(current).Some? && ParseOrderStatus(target).Some?
                   && ParseOrderStatus(target).value in StatusFlow(ParseOrderStatus(current).value)
  {
    match ParseOrderStatus(current)
    case None => false
    case Some(s) =>
      var allowed := Names(StatusFlow(s));
      assert forall t :: t in StatusFlow(s) ==> OrderStatusName(t) in allowed by {
        forall t | t in StatusFlow(s) ensures OrderStatusName(t) in allowed {
          var i :| 0 <= i < |StatusFlow(s)| && StatusFlow(s)[i] == t;
          assert allowed[i] == OrderStatusName(t);
        }
      }
      if target in allowed then
        var i :| 0 <= i < |allowed| && allowed[i] == target;
        OrderStatusRoundTrip(StatusFlow(s)[i]);
        true
      else
        assert forall t :: ParseOrderStatus(target) == Some(t) ==> OrderStatusName(t) == target;
        false
  }

  function IsTerminalStatus(status: string): bool
  {
    status in ["cancelled", "expired", "refunded"]
  }

  /** isPaidStatus: the one status text that reads back as `paid`. */
  function IsPaidStatus(status: string): (paid: bool)
    ensures paid <==> ParseOrderStatus(status) == Some(Paid)
    ensures paid ==> !IsTerminalStatus(status) && CanTransitionTo(status, "refunded")
  {
    status == "paid"
  }

  /** The terminal statuses are exactly those with no permitted transition. */
  lemma TerminalIffNoTransition(s: OrderStatus)
    ensures IsTerminalStatus(OrderStatusName(s)) <==> forall t :: !CanTransitionTo(OrderStatusName(s), t)
  {
    OrderStatusRoundTrip(s);
    if !IsTerminalStatus(OrderStatusName(s)) {
      var next := StatusFlow(s)[0];
      OrderStatusRoundTrip(next);
      assert CanTransitionTo(OrderStatusName(s), OrderStatusName(next));
    }
  }

  /** From `paid` the only permitted move is to `refunded`. */
  lemma PaidOnlyToRefunded(target: string)
    ensures CanTransitionTo("paid", target) <==> target == "refunded"
  {
  }

  /** Text that is not a status permits nothing. */
  lemma UnknownStatusIsStuck(current: string, target: string)
    requires ParseOrderStatus(current).None?
    ensures !CanTransitionTo(current, target)
  {
  }

  /** getOrderStatusLabel: an Indonesian label for each status, the text itself otherwise. */
  function OrderStatusLabel(status: string): (text: string)
    ensures ParseOrderStatus(status).None? ==> text == status
    ensures status != "" ==> text != ""
    ensures ParseOrderStatus(status).Some? ==> text != status
  {
    if status == "created" then "Dibuat"
    else if status == "pending" then "Menunggu"
    else if status == "pending_payment" then "Menunggu Pembayaran"
    else if status == "paid" then "Dibayar"
    else if status == "confirmed" then "Dikonfirmasi"
    else if status == "cancelled" then "Dibatalkan"
    else if status == "expired" then "Kedaluwarsa"
    else if status == "refunded" then "Dikembalikan"
    else status
  }

  /** No two statuses share a label. */
  lemma LabelsDistinguishStatuses(s: OrderStatus, t: OrderStatus)
    requires s != t
    ensures OrderStatusLabel(OrderStatusName(s)) != OrderStatusLabel(OrderStatusName(t))
  {
  }

  datatype OrderError = NotFound | CannotCancelPaid | AlreadyCancelled | NotRefundable | UpdateFailed | InsertFailed

  /** createOrder: inserts the row; an id already taken makes the insert fail. */
  method CreateOrder(db: Db, id: string, o: Order) returns (r: Result<string, OrderError>)
    modifies db`orders
    ensures id in old(db.orders) ==> r == Err(InsertFailed) && db.orders == old(db.orders)
    ensures id !in old(db.orders) ==> r == Ok(id) && db.orders == old(db.orders)[id := o]
  {
    if id in db.orders {
      return Err(InsertFailed);
    }
    db.orders := db.orders[id := o];
    r := Ok(id);
  }

  /** The columns a caller may pass as `additionalData`; `None` leaves the column as it is. */
  datatype OrderPatch = OrderPatch(paymentIntentId: Option<string>, paymentMethod: Option<string>)

  const NoPatch := OrderPatch(None, None)

  /** The row `updateOrderStatus` writes: the status, the patch, and `paid_at` when the status is `paid`. */
  function StatusUpdated(o: Order, status: OrderStatus, patch: OrderPatch, now: int): (r: Order)
    ensures r.status == status
    ensures r.paidAt != o.paidAt ==> status == Paid
    ensures status == Paid ==> r.paidAt == Some(now)
    ensures patch.paymentIntentId.Some? ==> r.paymentIntentId == patch.paymentIntentId
    ensures patch.paymentMethod.Some? ==> r.paymentMethod == patch.paymentMethod
    ensures patch == NoPatch && status != Paid ==> r == o.(status := status)
    ensures r.(status := o.status, paidAt := o.paidAt, paymentIntentId := o.paymentIntentId,
               paymentMethod := o.paymentMethod) == o
  {
    var patched := o.(status := status, paymentIntentId := if patch.paymentIntentId.Some? then patch.paymentIntentId else o.paymentIntentId,
                      paymentMethod := if patch.paymentMethod.Some? then patch.paymentMethod else o.paymentMethod);
    if status == Paid then patched.(paidAt := Some(now)) else patched
  }

  /** updateOrderStatus: the single-row update; a missing id is an error. The transition table is not consulted. */
  method UpdateOrderStatus(db: Db, id: string, status: OrderStatus, patch: OrderPatch, now: int)
    returns (r: Result<Order, OrderError>)
    modifies db`orders
    ensures id !in old(db.orders) ==> r == Err(UpdateFailed) && db.orders == old(db.orders)
    ensures id in old(db.orders) ==>
      db.orders == old(db.orders)[id := StatusUpdated(old(db.orders)[id], status, patch, now)]
      && r == Ok(db.orders[id])
  {
    if id !in db.orders {
      return Err(UpdateFailed);
    }
    var updated := StatusUpdated(db.orders[id], status, patch, now);
    db.orders := db.orders[id := updated];
    r := Ok(updated);
  }

  /** The update ignores ORDER_STATUS_FLOW: a refunded order can be written back to paid. */
  lemma UpdateIgnoresTransitionTable(o: Order, now: int)
    requires o.status == Refunded
    ensures !CanTransitionTo(OrderStatusName(o.status), OrderStatusName(Paid))
    ensures StatusUpdated(o, Paid, NoPatch, now).status == Paid
  {
  }

  /** The guard of cancelOrder; `None` lets the cancellation through. */
  function CancelRefusal(orders: map<string, Order>, id: string): (e: Option<OrderError>)
    ensures e.None? <==> id in orders && orders[id].status !in {Paid, Cancelled}
  {
    if id !in orders then Some(NotFound)
    else if orders[id].status == Paid then Some(CannotCancelPaid)
    else if orders[id].status == Cancelled then Some(AlreadyCancelled)
    else None
  }

  method CancelOrder(db: Db, id: string, now: int) returns (r: Result<Order, OrderError>)
    modifies db`orders
    ensures CancelRefusal(old(db.orders), id).Some? ==>
      r == Err(CancelRefusal(old(db.orders), id).value) && db.orders == old(db.orders)
    ensures CancelRefusal(old(db.orders), id).None? ==>
      db.orders == old(db.orders)[id := old(db.orders)[id].(status := Cancelled)] && r == Ok(db.orders[id])
  {
    var refusal := CancelRefusal(db.orders, id);
    if refusal.Some? {
      return Err(refusal.value);
    }
    r := UpdateOrderStatus(db, id, Cancelled, NoPatch, now);
  }

  /** cancelOrder lets expired and refunded orders through, although the table allows nothing from them. */
  lemma CancelAcceptsTerminalOrders(orders: map<string, Order>, id: string)
    requires id in orders && orders[id].status in {Expired, Refunded}
    ensures CancelRefusal(orders, id).None?
    ensures IsTerminalStatus(OrderStatusName(orders[id].status))
    ensures !CanTransitionTo(OrderStatusName(orders[id].status), "cancelled")
  {
  }

  method ExpireOrder(db: Db, id: string, now: int) returns (r: Result<Order, OrderError>)
    modifies db`orders
    ensures id !in old(db.orders) ==> r == Err(UpdateFailed) && db.orders == old(db.orders)
    ensures id in old(db.orders) ==>
      db.orders == old(db.orders)[id := old(db.orders)[id].(status := Expired)] && r == Ok(db.orders[id])
  {
    r := UpdateOrderStatus(db, id, Expired, NoPatch, now);
  }

  /** The guard of refundOrder. */
  function RefundRefusal(orders: map<string, Order>, id: string): (e: Option<OrderError>)
    ensures e.None? <==> id in orders && orders[id].status == Paid
  {
    if id !in orders then Some(NotFound)
    else if orders[id].status != Paid then Some(NotRefundable)
    else None
  }

  method RefundOrder(db: Db, id: string, now: int) returns (r: Result<Order, OrderError>)
    modifies db`orders
    ensures RefundRefusal(old(db.orders), id).Some? ==>
      r == Err(RefundRefusal(old(db.orders), id).value) && db.orders == old(db.orders)
    ensures RefundRefusal(old(db.orders), id).None? ==>
      db.orders == old(db.orders)[id := old(db.orders)[id].(status := Refunded)] && r == Ok(db.orders[id])
  {
    var refusal := RefundRefusal(db.orders, id);
    if refusal.Some? {
      return Err(refusal.value);
    }
    r := UpdateOrderStatus(db, id, Refunded, NoPatch, now);
  }

  /** Selected by the sweep: `pending` with an `expires_at` strictly before now (a null never compares). */
  predicate IsOverdue(o: Order, now: int)
  {
    o.status == Pending && o.expiresAt.Some? && o.expiresAt.value < now
  }

  function OverdueIds(orders: map<string, Order>, now: int): set<string>
  {
    set id | id in orders && IsOverdue(orders[id], now)
  }

  /** The orders table after the sweep: every overdue order is expired, every other row is as it was. */
  function Swept(orders: map<string, Order>, now: int): (r: map<string, Order>)
    ensures r.Keys == orders.Keys
    ensures forall id :: id in orders && IsOverdue(orders[id], now) ==> r[id] == orders[id].(status := Expired)
    ensures forall id :: id in orders && !IsOverdue(orders[id], now) ==> r[id] == orders[id]
  {
    map id | id in orders :: if IsOverdue(orders[id], now) then orders[id].(status := Expired) else orders[id]
  }

  /** processExpiredOrders: one batch update over the selected ids; returns how many were selected. */
  method ProcessExpiredOrders(db: Db, now: int) returns (count: nat)
    modifies db`orders
    ensures count == |OverdueIds(old(db.orders), now)|
    ensures db.orders == Swept(old(db.orders), now)
  {
    var ids := OverdueIds(db.orders, now);
    if |ids| == 0 {
      assert forall id :: id in db.orders ==> id !in ids;
      assert Swept(db.orders, now) == db.orders;
      return 0;
    }
    db.orders := map id | id in db.orders :: if id in ids then db.orders[id].(status := Expired) else db.orders[id];
    count := |ids|;
  }

  /** After a sweep nothing is overdue, so a second sweep at the same time selects nothing and changes nothing. */
  lemma SweepIsIdempotent(orders: map<string, Order>, now: int)
    ensures OverdueIds(Swept(orders, now), now) == {}
    ensures Swept(Swept(orders, now), now) == Swept(orders, now)
  {
    var once := Swept(orders, now);
    forall id | id in once ensures !IsOverdue(once[id], now) {
    }
  }

  /** An order expiring exactly now is not swept. */
  lemma SweepBoundary(orders: map<string, Order>, id: string, now: int)
    requires id in orders && orders[id].status == Pending && orders[id].expiresAt == Some(now)
    ensures id !in OverdueIds(orders, now)
    ensures Swept(orders, now)[id] == orders[id]
  {
  }

  datatype OrderStats = OrderStats(total: nat, pending: nat, paid: nat, cancelled: nat, expired: nat, refunded: nat, totalRevenue: int)

  /** `o => o.status === s` */
  function HasStatus(s: OrderStatus): Order -> bool
  {
    (o: Order) => o.status == s
  }

  /** The sum of `total_cents` over the paid rows. */
  function PaidRevenue(rows: seq<Order>): int
  {
    if rows == [] then 0
    else PaidRevenue(rows[..|rows| - 1]) + (if rows[|rows| - 1].status == Paid then rows[|rows| - 1].totalCents else 0)
  }

  /** `o => o.event_id === eventId` */
  function InEvent(eventId: string): Order -> bool
  {
    (o: Order) => o.eventId == eventId
  }

  /** The rows of one event when an event id is given; without one (or with an empty one) the query is not filtered. */
  function OfEvent(rows: seq<Order>, eventId: Option<string>): (r: seq<Order>)
    ensures |r| <= |rows|
    ensures forall o {:trigger o in r} :: o in r <==> o in rows && (eventId.None? || eventId.value == "" || o.eventId == eventId.value)
    ensures eventId.None? || eventId.value == "" ==> r == rows
  {
    if eventId.None? || eventId.value == "" then rows else Filter(rows, InEvent(eventId.value))
  }

  /** getOrderStats over the rows the query returns. */
  function GetOrderStats(rows: seq<Order>, eventId: Option<string>): (st: OrderStats)
    ensures st.total == |OfEvent(rows, eventId)|
    ensures var data := OfEvent(rows, eventId);
            st.pending == CountOf(data, HasStatus(Pending)) && st.paid == CountOf(data, HasStatus(Paid))
            && st.cancelled == CountOf(data, HasStatus(Cancelled)) && st.expired == CountOf(data, HasStatus(Expired))
            && st.refunded == CountOf(data, HasStatus(Refunded))
    ensures st.pending + st.paid + st.cancelled + st.expired + st.refunded <= st.total
    ensures st.totalRevenue == PaidRevenue(OfEvent(rows, eventId))
  {
    var data := OfEvent(rows, eventId);
    StatusCountsPartition(data);
    OrderStats(|data|, CountOf(data, HasStatus(Pending)), CountOf(data, HasStatus(Paid)), CountOf(data, HasStatus(Cancelled)),
               CountOf(data, HasStatus(Expired)), CountOf(data, HasStatus(Refunded)), PaidRevenue(data))
  }

  /** Every row has exactly one status, so the eight counts add up to the row count. */
  lemma {:induction false} StatusCountsPartition(rows: seq<Order>)
    ensures CountOf(rows, HasStatus(Created)) + CountOf(rows, HasStatus(Pending)) + CountOf(rows, HasStatus(PendingPayment))
          + CountOf(rows, HasStatus(Paid)) + CountOf(rows, HasStatus(Confirmed)) + CountOf(rows, HasStatus(Cancelled))
          + CountOf(rows, HasStatus(Expired)) + CountOf(rows, HasStatus(Refunded)) == |rows|
  {
    if rows != [] {
      StatusCountsPartition(rows[..|rows| - 1]);
    }
  }

  /** The counted statuses miss exactly the created, pending_payment and confirmed rows. */
  lemma UncountedRows(rows: seq<Order>, eventId: Option<string>)
    ensures var st := GetOrderStats(rows, eventId);
            var data := OfEvent(rows, eventId);
            st.total - (st.pending + st.paid + st.cancelled + st.expired + st.refunded)
              == CountOf(data, HasStatus(Created)) + CountOf(data, HasStatus(PendingPayment)) + CountOf(data, HasStatus(Confirmed))
  {
    StatusCountsPartition(OfEvent(rows, eventId));
  }
}
