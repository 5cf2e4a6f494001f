/** The e-mail notification service: its guards, counters, the address validator and the time-left arithmetic. */
module EmailNotifications {
  import opened Wrappers
  import opened Entities
  import Time
  import OrderManagement

  /** JavaScript's `\s`: the ASCII blanks, no-break space, the Unicode space separators, line and paragraph separators, and the byte-order mark. */
  predicate IsWhitespace(c: char)
  {
    var n := c as int;
    n == 0x20 || (0x09 <= n <= 0x0D) || n == 0xA0 || n == 0x1680 || (0x2000 <= n <= 0x200A)
    || n == 0x2028 || n == 0x2029 || n == 0x202F || n == 0x205F || n == 0x3000 || n == 0xFEFF
  }

  /** A character the class `[^\s@]` accepts. */
  predicate Plain(c: char)
  {
    !IsWhitespace(c) && c != '@'
  }

  /**
   * validateEmail: `/^[^\s@]+@[^\s@]+\.[^\s@]+$/` matches, with the `@` at `i` and the dot at `j`;
   * every other character belongs to `[^\s@]`.
   */
  predicate ValidateEmail(s: string)
  {
    exists i, j :: 0 < i && i + 1 < j && j + 1 < |s| && s[i] == '@' && s[j] == '.'
                   && forall k :: 0 <= k < |s| && k != i ==> Plain(s[k])
  }

  function AtPositions(s: string): set<int>
  {
    set k | 0 <= k < |s| && s[k] == '@'
  }

  /** The domain after the `@` has a dot that is neither its first nor its last character. */
  predicate HasInnerDot(domain: string)
  {
    exists j :: 0 < j < |domain| - 1 && domain[j] == '.'
  }

  /** The shape the validator checks, in words: no whitespace, one `@`, a non-empty local part and a domain with an inner dot. */
  predicate EmailShape(s: string)
  {
    (forall k :: 0 <= k < |s| ==> !IsWhitespace(s[k]))
    && |AtPositions(s)| == 1
    && exists i :: 0 < i < |s| && s[i] == '@' && HasInnerDot(s[i + 1..])
  }

  /** An address is valid iff it has the shape. */
  lemma ValidateEmailShape(s: string)
    ensures ValidateEmail(s) <==> EmailShape(s)
  {
    if ValidateEmail(s) {
      ValidImpliesShape(s);
    }
    if EmailShape(s) {
      ShapeImpliesValid(s);
    }
  }

  lemma ValidImpliesShape(s: string)
    requires ValidateEmail(s)
    ensures EmailShape(s)
  {
    var i, j :| 0 < i && i + 1 < j && j + 1 < |s| && s[i] == '@' && s[j] == '.'
                && forall k :: 0 <= k < |s| && k != i ==> Plain(s[k]);
    assert AtPositions(s) == {i};
    var d := s[i + 1..];
    assert d[j - i - 1] == '.';
    assert HasInnerDot(d);
  }

  lemma ShapeImpliesValid(s: string)
    requires EmailShape(s)
    ensures ValidateEmail(s)
  {
    var i :| 0 < i < |s| && s[i] == '@' && HasInnerDot(s[i + 1..]);
    var d := s[i + 1..];
    var j' :| 0 < j' < |d| - 1 && d[j'] == '.';
    var j := i + 1 + j';
    assert s[j] == '.';
    SingletonAt(AtPositions(s), i);
    forall k | 0 <= k < |s| && k != i
      ensures Plain(s[k])
    {
      assert k !in AtPositions(s);
    }
  }

  lemma SingletonAt(positions: set<int>, i: int)
    requires |positions| == 1 && i in positions
    ensures positions == {i}
  {
    var rest := positions - {i};
    assert positions == rest + {i};
    assert |rest| == 0;
  }

  lemma ValidateEmailExamples()
    ensures ValidateEmail("a@b.co")
    ensures !ValidateEmail("a@b") && !ValidateEmail("@b.co") && !ValidateEmail("a@@b.co") && !ValidateEmail("a b@c.de")
  {
    assert "a@b.co"[1] == '@' && "a@b.co"[3] == '.';
    ValidateEmailShape("a@@b.co");
    assert AtPositions("a@@b.co") == {1, 2};
    assert "a b@c.de"[1] == ' ';
  }

  /** formatOrderStatus: labels for five statuses; every other text is shown as it is. */
  function FormatOrderStatus(status: string): (text: string)
    ensures status !in {"pending", "paid", "cancelled", "expired", "refunded"} ==> text == status
    ensures status in {"pending", "paid", "cancelled", "expired", "refunded"} ==> text != status && text != ""
  {
    if status == "pending" then "Menunggu Pembayaran"
    else if status == "paid" then "Dibayar"
    else if status == "cancelled" then "Dibatalkan"
    else if status == "expired" then "Kedaluwarsa"
    else if status == "refunded" then "Dikembalikan"
    else status
  }

  /**
   * The e-mail labels agree with the order manager's labels except that `pending` gets the label the
   * order manager gives `pending_payment`, and `pending_payment` itself is shown raw.
   */
  lemma EmailLabelsAgainstOrderLabels(s: OrderStatus)
    ensures s in {Paid, Cancelled, Expired, Refunded} ==>
      FormatOrderStatus(OrderStatusName(s)) == OrderManagement.OrderStatusLabel(OrderStatusName(s))
    ensures FormatOrderStatus("pending") == OrderManagement.OrderStatusLabel("pending_payment")
    ensures FormatOrderStatus("pending_payment") == "pending_payment"
  {
  }

  /** The reminder's time left: `max(0, expiry - now)`, the expiry defaulting to a day from now. */
  function TimeLeft(expiresAt: Option<int>, now: int): (hm: Time.HoursMinutes)
    ensures hm.minutes < 60
    ensures expiresAt.None? ==> hm == Time.HoursMinutes(24, 0)
    ensures expiresAt.Some? && expiresAt.value <= now ==> hm == Time.HoursMinutes(0, 0)
    ensures expiresAt.Some? && expiresAt.value > now ==>
      var t := expiresAt.value - now;
      hm.hours * Time.MsPerHour + hm.minutes * Time.MsPerMinute <= t < hm.hours * Time.MsPerHour + (hm.minutes + 1) * Time.MsPerMinute
  {
    var expiry := expiresAt.GetOr(now + Time.MsPerDay);
    var left := if expiry - now > 0 then expiry - now else 0;
    Time.Split(left)
  }

  /** A customer_email the code accepts: present and not empty. */
  predicate HasEmail(o: Order)
  {
    o.customerEmail.Some? && o.customerEmail.value != ""
  }

  /** sendPaymentReminder: only a `pending_payment` order with an e-mail address gets one; `delivered` is the send outcome. */
  function SendPaymentReminder(orders: map<string, Order>, orderId: string, delivered: bool): (sent: bool)
    ensures sent <==> orderId in orders && orders[orderId].status == PendingPayment && HasEmail(orders[orderId]) && delivered
  {
    orderId in orders && orders[orderId].status == PendingPayment && HasEmail(orders[orderId]) && delivered
  }

  /** schedulePaymentReminders selects `pending` orders that expire within the next two hours. */
  predicate ReminderCandidate(o: Order, now: int)
  {
    o.status == Pending && o.expiresAt.Some? && now < o.expiresAt.value < now + 2 * Time.MsPerHour
  }

  /**
   * schedulePaymentReminders: one reminder per selected order. The selection asks for `pending`
   * while the reminder demands `pending_payment`, so nothing is ever sent.
   */
  method SchedulePaymentReminders(orders: map<string, Order>, ids: seq<string>, now: int, delivered: string -> bool)
    returns (sentCount: nat)
    ensures sentCount == 0
  {
    sentCount := 0;
    for k := 0 to |ids|
      invariant sentCount == 0
    {
      var id := ids[k];
      if id in orders && ReminderCandidate(orders[id], now) {
        var sent := SendPaymentReminder(orders, id, delivered(id));
        // a pending order never passes the pending_payment guard, so `sent` is false here
        sentCount := sentCount + (if sent then 1 else 0);
      }
    }
  }

  datatype DeliveryRefusal = NotPaidOrMissing | NoEmail | NoTickets

  /** The reason sendTicketDelivery gives up, checked in the source's order. */
  function DeliveryRefusalOf(orders: map<string, Order>, tickets: seq<Ticket>, orderId: string): (e: Option<DeliveryRefusal>)
    ensures e.None? <==> orderId in orders && orders[orderId].status == Paid && HasEmail(orders[orderId])
                         && TicketsOf(tickets, orderId) != []
    ensures e == Some(NotPaidOrMissing) <==> orderId !in orders || orders[orderId].status != Paid
  {
    if orderId !in orders || orders[orderId].status != Paid then Some(NotPaidOrMissing)
    else if !HasEmail(orders[orderId]) then Some(NoEmail)
    else if TicketsOf(tickets, orderId) == [] then Some(NoTickets)
    else None
  }

  /** sendTicketDelivery: true only for a paid order with an address and tickets, and a delivered e-mail. */
  function SendTicketDelivery(orders: map<string, Order>, tickets: seq<Ticket>, orderId: string, delivered: bool): (sent: bool)
    ensures sent <==> DeliveryRefusalOf(orders, tickets, orderId).None? && delivered
    ensures sent ==> orders[orderId].status == Paid && |TicketsOf(tickets, orderId)| > 0
  {
    DeliveryRefusalOf(orders, tickets, orderId).None? && delivered
  }

  /** A row the event reminder query returns that also has an address. */
  predicate ReminderRecipient(o: Order, eventId: string)
  {
    o.eventId == eventId && o.status == Paid && HasEmail(o)
  }

  /** The number of rows a reminder is addressed to; none exactly when no row qualifies. */
  function Recipients(rows: seq<Order>, eventId: string): (n: nat)
    ensures n <= |rows|
    ensures n == 0 <==> forall i :: 0 <= i < |rows| ==> !ReminderRecipient(rows[i], eventId)
  {
    if rows == [] then 0
    else
      var front := rows[..|rows| - 1];
      assert forall i :: 0 <= i < |front| ==> front[i] == rows[i];
      Recipients(front, eventId) + (if ReminderRecipient(rows[|rows| - 1], eventId) then 1 else 0)
  }

  /** The reminders that go out: recipients whose e-mail (the k-th row's) is delivered. */
  function Delivered(rows: seq<Order>, eventId: string, delivered: nat -> bool): nat
  {
    if rows == [] then 0
    else
      var k := |rows| - 1;
      Delivered(rows[..k], eventId, delivered) + (if ReminderRecipient(rows[k], eventId) && delivered(k) then 1 else 0)
  }

  lemma {:induction false} DeliveredAtMostRecipients(rows: seq<Order>, eventId: string, delivered: nat -> bool)
    ensures Delivered(rows, eventId, delivered) <= Recipients(rows, eventId)
  {
    if rows != [] {
      DeliveredAtMostRecipients(rows[..|rows| - 1], eventId, delivered);
    }
  }

  /** When every send succeeds, every recipient gets a reminder. */
  lemma {:induction false} AllSentReachesEveryRecipient(rows: seq<Order>, eventId: string, delivered: nat -> bool)
    requires forall k :: delivered(k)
    ensures Delivered(rows, eventId, delivered) == Recipients(rows, eventId)
  {
    if rows != [] {
      AllSentReachesEveryRecipient(rows[..|rows| - 1], eventId, delivered);
    }
  }

  /** sendEventReminder: counts the delivered reminders to the event's paid orders that have an address. */
  method SendEventReminder(rows: seq<Order>, eventId: string, delivered: nat -> bool) returns (sentCount: nat)
    ensures sentCount == Delivered(rows, eventId, delivered)
    ensures sentCount <= Recipients(rows, eventId)
  {
    sentCount := 0;
    for k := 0 to |rows|
      invariant sentCount == Delivered(rows[..k], eventId, delivered)
    {
      assert rows[..k + 1][..k] == rows[..k];
      if rows[k].eventId == eventId && rows[k].status == Paid {
        if HasEmail(rows[k]) {
          if delivered(k) {
            sentCount := sentCount + 1;
          }
        }
      }
    }
    assert rows[..|rows|] == rows;
    DeliveredAtMostRecipients(rows, eventId, delivered);
  }

  /** A row of the events query: the event's id and its start time. */
  datatype EventRow = EventRow(id: string, date: int)

  /** scheduleEventReminders selects the events that start within the next day. */
  predicate Upcoming(e: EventRow, now: int)
  {
    now <= e.date < now + Time.MsPerDay
  }

  /** The send outcomes of one event's reminders, by row index. */
  function DeliveredFor(delivered: (string, nat) -> bool, eventId: string): nat -> bool
  {
    (k: nat) => delivered(eventId, k)
  }

  /** The reminder recipients of all upcoming events. */
  function UpcomingRecipients(rows: seq<Order>, events: seq<EventRow>, now: int): nat
  {
    if events == [] then 0
    else
      var e := events[|events| - 1];
      UpcomingRecipients(rows, events[..|events| - 1], now) + (if Upcoming(e, now) then Recipients(rows, e.id) else 0)
  }

  /** The reminders delivered over all upcoming events. */
  function ScheduledDeliveries(rows: seq<Order>, events: seq<EventRow>, now: int, delivered: (string, nat) -> bool): nat
  {
    if events == [] then 0
    else
      var e := events[|events| - 1];
      ScheduledDeliveries(rows, events[..|events| - 1], now, delivered)
      + (if Upcoming(e, now) then Delivered(rows, e.id, DeliveredFor(delivered, e.id)) else 0)
  }

  lemma {:induction false} ScheduledAtMostRecipients(rows: seq<Order>, events: seq<EventRow>, now: int, delivered: (string, nat) -> bool)
    ensures ScheduledDeliveries(rows, events, now, delivered) <= UpcomingRecipients(rows, events, now)
  {
    if events != [] {
      var e := events[|events| - 1];
      ScheduledAtMostRecipients(rows, events[..|events| - 1], now, delivered);
      DeliveredAtMostRecipients(rows, e.id, DeliveredFor(delivered, e.id));
    }
  }

  /** scheduleEventReminders: sendEventReminder for each upcoming event, adding up what each one sent. */
  method ScheduleEventReminders(rows: seq<Order>, events: seq<EventRow>, now: int, delivered: (string, nat) -> bool)
    returns (totalSent: nat)
    ensures totalSent == ScheduledDeliveries(rows, events, now, delivered)
    ensures totalSent <= UpcomingRecipients(rows, events, now)
  {
    totalSent := 0;
    for k := 0 to |events|
      invariant totalSent == ScheduledDeliveries(rows, events[..k], now, delivered)
    {
      assert events[..k + 1][..k] == events[..k];
      if Upcoming(events[k], now) {
        var sent := SendEventReminder(rows, events[k].id, DeliveredFor(delivered, events[k].id));
        totalSent := totalSent + sent;
      }
    }
    assert events[..|events|] == events;
    ScheduledAtMostRecipients(rows, events, now, delivered);
  }
}
