/** `PaymentAPI`: the bridge between payment-intent events and order and ticket rows. */
module PaymentApi {
  import opened Wrappers
  import opened Entities
  import opened Tables
  import opened Issuance
  import OrderManagement
  import TicketGeneration

  datatype IntentError = OrderNotFound | WrongStatus(status: OrderStatus) | OrderExpired | AmountMismatch

  /** The guards of createPaymentIntent, in order. */
  function IntentRefusal(orders: map<string, Order>, orderId: string, amount: int, now: int): (e: Option<IntentError>)
    ensures e.None? <==> orderId in orders && orders[orderId].status == Pending
                         && !(orders[orderId].expiresAt.Some? && orders[orderId].expiresAt.value < now)
                         && amount == orders[orderId].totalCents
    ensures e == Some(OrderExpired) <==> orderId in orders && orders[orderId].status == Pending
                                         && orders[orderId].expiresAt.Some? && orders[orderId].expiresAt.value < now
  {
    if orderId !in orders then Some(OrderNotFound)
    else
      var o := orders[orderId];
      if o.status != Pending then Some(WrongStatus(o.status))
      else if o.expiresAt.Some? && o.expiresAt.value < now then Some(OrderExpired)
      else if amount != o.totalCents then Some(AmountMismatch)
      else None
  }

  datatype PaymentIntent = PaymentIntent(clientSecret: string, paymentIntentId: string)

  /**
   * createPaymentIntent. An order found expired is first marked expired. On success the intent id and
   * the method are stored and the status stays pending. `idDraw` and `secretDraw` stand for the random parts.
   */
  method CreatePaymentIntent(db: Db, orderId: string, amount: int, idDraw: string, secretDraw: string, now: int)
    returns (r: Result<PaymentIntent, IntentError>)
    modifies db`orders
    ensures var refusal := IntentRefusal(old(db.orders), orderId, amount, now);
            (refusal == Some(OrderExpired) ==>
               r == Err(OrderExpired) && db.orders == old(db.orders)[orderId := old(db.orders)[orderId].(status := Expired)])
            && (refusal.Some? && refusal != Some(OrderExpired) ==> r == Err(refusal.value) && db.orders == old(db.orders))
            && (refusal.None? ==>
                  var pid := "pi_" + idDraw;
                  r == Ok(PaymentIntent(pid + "_secret_" + secretDraw, pid))
                  && db.orders == old(db.orders)[orderId := old(db.orders)[orderId].(paymentIntentId := Some(pid), paymentMethod := Some("stripe"))])
  {
    var refusal := IntentRefusal(db.orders, orderId, amount, now);
    if refusal == Some(OrderExpired) {
      var _ := OrderManagement.UpdateOrderStatus(db, orderId, Expired, OrderManagement.NoPatch, now);
      return Err(OrderExpired);
    }
    if refusal.Some? {
      return Err(refusal.value);
    }
    var pid := "pi_" + idDraw;
    var clientSecret := pid + "_secret_" + secretDraw;
    var _ := OrderManagement.UpdateOrderStatus(db, orderId, Pending, OrderManagement.OrderPatch(Some(pid), Some("stripe")), now);
    r := Ok(PaymentIntent(clientSecret, pid));
  }

  /** The orders carrying the payment intent id. */
  function IntentOwners(orders: map<string, Order>, pid: string): set<string>
  {
    set id | id in orders && orders[id].paymentIntentId == Some(pid)
  }

  /** The lookup `.eq('stripe_payment_intent_id', pid).single()`: found only when exactly one order matches. */
  function IntentOrder(orders: map<string, Order>, pid: string): (r: Option<string>)
    ensures r.Some? <==> |IntentOwners(orders, pid)| == 1
    ensures r.Some? ==> r.value in orders && orders[r.value].paymentIntentId == Some(pid)
                        && IntentOwners(orders, pid) == {r.value}
  {
    var owners := IntentOwners(orders, pid);
    if |owners| == 1 then
      var id :| id in owners;
      var rest := owners - {id};
      assert owners == rest + {id};
      assert |rest| == 0;
      assert owners == {id};
      Some(id)
    else None
  }

  /** The random parts of one bridge ticket: the row id, the ticket number and the code. */
  datatype Draw = Draw(id: string, ticketNumber: string, code: string)

  function BridgeTicket(orderId: string, o: Order, d: Draw, u: Unit): Ticket
  {
    Ticket(d.id, orderId, o.userId, Some(o.eventId), u.ticketTypeId, Some(d.ticketNumber), Some(d.code), None,
           Some(TicketGeneration.VerifyBase + d.code), Active, None, None, None)
  }

  /** The tickets the private generateTicketsForOrder inserts; it does not look for existing ones. */
  function BridgeTickets(orderId: string, o: Order, items: seq<OrderItem>, draws: nat -> Draw): (r: seq<Ticket>)
    ensures |r| == TotalUnits(ItemGroups(ItemsOf(items, orderId))) == |UnitsOf(ItemGroups(ItemsOf(items, orderId)))|
    ensures forall k :: 0 <= k < |r| ==>
      r[k].status == Active && r[k].orderId == orderId && r[k].userId == o.userId && r[k].eventId == Some(o.eventId)
      && r[k].code == Some(draws(k).code) && r[k].qrCode == Some(TicketGeneration.VerifyBase + draws(k).code)
      && r[k].qrPayload.None?
      && r[k].ticketTypeId == UnitsOf(ItemGroups(ItemsOf(items, orderId)))[k].ticketTypeId
  {
    var groups := ItemGroups(ItemsOf(items, orderId));
    var mk := (u: Unit, k: nat) => BridgeTicket(orderId, o, draws(k), u);
    var r := Expanded(groups, mk);
    assert forall k :: 0 <= k < |r| ==> r[k] == BridgeTicket(orderId, o, draws(k), UnitsOf(groups)[k]);
    r
  }

  method GenerateBridgeTickets(db: Db, orderId: string, draws: nat -> Draw)
    requires orderId in db.orders
    modifies db`tickets
    ensures db.tickets == old(db.tickets) + BridgeTickets(orderId, db.orders[orderId], db.orderItems, draws)
  {
    var o := db.orders[orderId];
    var groups := ItemGroups(ItemsOf(db.orderItems, orderId));
    var tickets := Expand(groups, (u: Unit, k: nat) => BridgeTicket(orderId, o, draws(k), u));
    db.tickets := db.tickets + tickets;
  }

  /** The two tables the webhook handlers write. */
  datatype Books = Books(orders: map<string, Order>, tickets: seq<Ticket>)

  datatype PaymentError = IntentNotFound

  /** handlePaymentSuccess: mark paid (with paid_at), then issue the tickets; no already-paid check. */
  function AfterSuccess(b: Books, items: seq<OrderItem>, pid: string, now: int, draws: nat -> Draw): (r: Books)
    ensures IntentOrder(b.orders, pid).None? ==> r == b
    ensures IntentOrder(b.orders, pid).Some? ==>
      var id := IntentOrder(b.orders, pid).value;
      r.orders == b.orders[id := b.orders[id].(status := Paid, paidAt := Some(now))]
      && r.tickets == b.tickets + BridgeTickets(id, r.orders[id], items, draws)
  {
    match IntentOrder(b.orders, pid)
    case None => b
    case Some(id) =>
      var orders := b.orders[id := OrderManagement.StatusUpdated(b.orders[id], Paid, OrderManagement.NoPatch, now)];
      Books(orders, b.tickets + BridgeTickets(id, orders[id], items, draws))
  }

  method HandlePaymentSuccess(db: Db, pid: string, now: int, draws: nat -> Draw) returns (r: Result<string, PaymentError>)
    modifies db`orders, db`tickets
    ensures Books(db.orders, db.tickets) == AfterSuccess(Books(old(db.orders), old(db.tickets)), db.orderItems, pid, now, draws)
    ensures r.Err? <==> IntentOrder(old(db.orders), pid).None?
    ensures r.Ok? ==> Some(r.value) == IntentOrder(old(db.orders), pid)
  {
    var found := IntentOrder(db.orders, pid);
    if found.None? {
      return Err(IntentNotFound);
    }
    var id := found.value;
    var _ := OrderManagement.UpdateOrderStatus(db, id, Paid, OrderManagement.NoPatch, now);
    GenerateBridgeTickets(db, id, draws);
    r := Ok(id);
  }

  /** A marked-paid order keeps its intent id, so the same intent finds it again. */
  lemma {:induction false} PaidStampKeepsIntent(orders: map<string, Order>, id: string, pid: string, now: int)
    requires id in orders
    ensures IntentOwners(orders[id := orders[id].(status := Paid, paidAt := Some(now))], pid) == IntentOwners(orders, pid)
  {
    var after := orders[id := orders[id].(status := Paid, paidAt := Some(now))];
    forall x ensures x in IntentOwners(after, pid) <==> x in IntentOwners(orders, pid) {
      if x == id {
        assert after[x].paymentIntentId == orders[x].paymentIntentId;
      }
    }
  }

  /** A replayed success event finds the same order and issues its tickets a second time. */
  lemma ReplayedSuccessIssuesTwice(b: Books, items: seq<OrderItem>, pid: string, t1: int, t2: int, d1: nat -> Draw, d2: nat -> Draw)
    requires IntentOrder(b.orders, pid).Some?
    ensures var once := AfterSuccess(b, items, pid, t1, d1);
            var twice := AfterSuccess(once, items, pid, t2, d2);
            var id := IntentOrder(b.orders, pid).value;
            IntentOrder(once.orders, pid) == Some(id)
            && |twice.tickets| == |b.tickets| + 2 * TotalUnits(ItemGroups(ItemsOf(items, id)))
            && twice.orders[id].status == Paid
  {
    var id := IntentOrder(b.orders, pid).value;
    PaidStampKeepsIntent(b.orders, id, pid, t1);
  }

  /** handlePaymentFailure: logs only; reports whether the intent was found and writes nothing. */
  method HandlePaymentFailure(db: Db, pid: string) returns (found: bool)
    ensures found <==> |IntentOwners(db.orders, pid)| == 1
  {
    found := IntentOrder(db.orders, pid).Some?;
  }

  /** handlePaymentCancellation: an unknown intent is ignored; otherwise the order is cancelled whatever its status. */
  function AfterCancellation(orders: map<string, Order>, pid: string): (r: map<string, Order>)
    ensures IntentOrder(orders, pid).None? ==> r == orders
    ensures IntentOrder(orders, pid).Some? ==>
      var id := IntentOrder(orders, pid).value;
      r == orders[id := orders[id].(status := Cancelled)]
  {
    match IntentOrder(orders, pid)
    case None => orders
    case Some(id) => orders[id := OrderManagement.StatusUpdated(orders[id], Cancelled, OrderManagement.NoPatch, 0)]
  }

  method HandlePaymentCancellation(db: Db, pid: string, now: int)
    modifies db`orders
    ensures db.orders == AfterCancellation(old(db.orders), pid)
  {
    var found := IntentOrder(db.orders, pid);
    if found.Some? {
      var _ := OrderManagement.UpdateOrderStatus(db, found.value, Cancelled, OrderManagement.NoPatch, now);
    }
  }

  /** A paid order whose intent is cancelled ends cancelled, with its tickets untouched. */
  lemma CancellationOverridesPaid(orders: map<string, Order>, pid: string)
    requires IntentOrder(orders, pid).Some? && orders[IntentOrder(orders, pid).value].status == Paid
    ensures AfterCancellation(orders, pid)[IntentOrder(orders, pid).value].status == Cancelled
    ensures !OrderManagement.CanTransitionTo("paid", "cancelled")
  {
  }

  const Succeeded := "payment_intent.succeeded"
  const Failed := "payment_intent.payment_failed"
  const Canceled := "payment_intent.canceled"

  /** handleWebhook: dispatches on the event type; any other type only logs. */
  method HandleWebhook(db: Db, eventType: string, pid: string, now: int, draws: nat -> Draw) returns (r: Result<(), PaymentError>)
    modifies db`orders, db`tickets
    ensures eventType == Succeeded ==>
      Books(db.orders, db.tickets) == AfterSuccess(Books(old(db.orders), old(db.tickets)), db.orderItems, pid, now, draws)
      && (r.Err? <==> IntentOrder(old(db.orders), pid).None?)
    ensures eventType == Canceled ==>
      db.orders == AfterCancellation(old(db.orders), pid) && db.tickets == old(db.tickets) && r.Ok?
    ensures eventType !in {Succeeded, Canceled} ==>
      db.orders == old(db.orders) && db.tickets == old(db.tickets) && r.Ok?
  {
    if eventType == Succeeded {
      var res := HandlePaymentSuccess(db, pid, now, draws);
      r := if res.Err? then Err(res.error) else Ok(());
    } else if eventType == Failed {
      var _ := HandlePaymentFailure(db, pid);
      r := Ok(());
    } else if eventType == Canceled {
      HandlePaymentCancellation(db, pid, now);
      r := Ok(());
    } else {
      r := Ok(());
    }
  }

  datatype RefundResult = RefundResult(success: bool, refundId: Option<string>)

  /**
   * processRefund: a missing or unpaid order is caught as `{success: false}`; otherwise the order is
   * refunded and every ticket of it is voided, used ones included.
   */
  method ProcessRefund(db: Db, orderId: string, amount: Option<int>, refundDraw: string, now: int) returns (r: RefundResult)
    modifies db`orders, db`tickets
    ensures OrderManagement.RefundRefusal(old(db.orders), orderId).Some? ==>
      r == RefundResult(false, None) && db.orders == old(db.orders) && db.tickets == old(db.tickets)
    ensures OrderManagement.RefundRefusal(old(db.orders), orderId).None? ==>
      r == RefundResult(true, Some("re_" + refundDraw))
      && db.orders == old(db.orders)[orderId := old(db.orders)[orderId].(status := Refunded)]
      && db.tickets == TicketGeneration.Voided(old(db.tickets), orderId)
  {
    if OrderManagement.RefundRefusal(db.orders, orderId).Some? {
      return RefundResult(false, None);
    }
    var refundId := "re_" + refundDraw;
    var _ := OrderManagement.UpdateOrderStatus(db, orderId, Refunded, OrderManagement.NoPatch, now);
    db.tickets := TicketGeneration.Voided(db.tickets, orderId);
    r := RefundResult(true, Some(refundId));
  }

  datatype PaymentStatus = AwaitingPayment | PaymentPaid | PaymentCancelled | PaymentFailed

  /** mapOrderStatusToPaymentStatus */
  function MapOrderStatusToPaymentStatus(s: OrderStatus): (p: PaymentStatus)
    ensures p == PaymentPaid <==> s == Paid
    ensures p == PaymentFailed <==> s == Expired
    ensures p == PaymentCancelled <==> s in {Cancelled, Refunded}
    ensures p == AwaitingPayment <==> s in {Pending, Created, PendingPayment, Confirmed}
  {
    match s
    case Pending => AwaitingPayment
    case Paid => PaymentPaid
    case Cancelled => PaymentCancelled
    case Expired => PaymentFailed
    case Refunded => PaymentCancelled
    case _ => AwaitingPayment
  }

  const MaxPaymentAmount := 100000000

  /** validatePaymentAmount */
  function ValidatePaymentAmount(amount: int): (ok: bool)
    ensures ok <==> 0 < amount <= MaxPaymentAmount
  {
    amount > 0 && amount <= MaxPaymentAmount
  }

  /** cleanupExpiredOrders delegates to processExpiredOrders. */
  method CleanupExpiredOrders(db: Db, now: int) returns (count: nat)
    modifies db`orders
    ensures count == |OrderManagement.OverdueIds(old(db.orders), now)|
    ensures db.orders == OrderManagement.Swept(old(db.orders), now)
  {
    count := OrderManagement.ProcessExpiredOrders(db, now);
  }
}
