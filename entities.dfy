/**
 * Rows of the persistence tables (orders, order_items, tickets, ticket_types, reservations)
 * and the status vocabularies the library code writes into them.
 */
module Entities {
  import opened Wrappers
  import opened Sequences

  /**
   * Every order status literal that appears in the code: the row type's `created`/`pending_payment`,
   * the library's `pending`, and the transition table's `confirmed`.
   */
  datatype OrderStatus = Created | Pending | PendingPayment | Paid | Confirmed | Cancelled | Expired | Refunded

  function OrderStatusName(s: OrderStatus): string
  {
    match s
    case Created => "created"
    case Pending => "pending"
    case PendingPayment => "pending_payment"
    case Paid => "paid"
    case Confirmed => "confirmed"
    case Cancelled => "cancelled"
    case Expired => "expired"
    case Refunded => "refunded"
  }

  /** Reads a status column back; any other text is `None`. */
  function ParseOrderStatus(text: string): (r: Option<OrderStatus>)
    ensures r.Some? ==> OrderStatusName(r.value) == text
  {
    if text == "created" then Some(Created)
    else if text == "pending" then Some(Pending)
    else if text == "pending_payment" then Some(PendingPayment)
    else if text == "paid" then Some(Paid)
    else if text == "confirmed" then Some(Confirmed)
    else if text == "cancelled" then Some(Cancelled)
    else if text == "expired" then Some(Expired)
    else if text == "refunded" then Some(Refunded)
    else None
  }

  lemma OrderStatusRoundTrip(s: OrderStatus)
    ensures ParseOrderStatus(OrderStatusName(s)) == Some(s)
  {
  }

  /** `ticketGeneration.ts` issues `active` tickets, `payment.ts` and `api.ts` issue `valid` ones. */
  datatype TicketStatus = Issued | Active | Valid | Used | Void

  function TicketStatusName(s: TicketStatus): string
  {
    match s
    case Issued => "issued"
    case Active => "active"
    case Valid => "valid"
    case Used => "used"
    case Void => "void"
  }

  function ParseTicketStatus(text: string): (r: Option<TicketStatus>)
    ensures r.Some? ==> TicketStatusName(r.value) == text
  {
    if text == "issued" then Some(Issued)
    else if text == "active" then Some(Active)
    else if text == "valid" then Some(Valid)
    else if text == "used" then Some(Used)
    else if text == "void" then Some(Void)
    else None
  }

  lemma TicketStatusRoundTrip(s: TicketStatus)
    ensures ParseTicketStatus(TicketStatusName(s)) == Some(s)
  {
  }

  datatype ReservationStatus = Held | Released | Converted

  datatype Address = Address(street: string, city: string, zipCode: string)

  /** An orders row; its id is the key of the orders table. Columns the model never reads are omitted. */
  datatype Order = Order(
    userId: string,
    eventId: string,
    status: OrderStatus,
    totalCents: int,
    expiresAt: Option<int>,
    paymentMethod: Option<string>,
    paymentIntentId: Option<string>,
    paidAt: Option<int>,
    customerEmail: Option<string>,
    customerName: Option<string>,
    billingAddress: Option<Address>)

  datatype OrderItem = OrderItem(orderId: string, ticketTypeId: string, quantity: int, unitPriceCents: int)

  /**
   * A tickets row. Columns that one writer sets and another does not (event, number, code, QR,
   * scan and use stamps) are optional.
   */
  datatype Ticket = Ticket(
    id: string,
    orderId: string,
    userId: string,
    eventId: Option<string>,
    ticketTypeId: string,
    ticketNumber: Option<string>,
    code: Option<string>,
    qrPayload: Option<string>,
    qrCode: Option<string>,
    status: TicketStatus,
    usedAt: Option<int>,
    usedGateId: Option<string>,
    scannedAt: Option<int>)

  datatype TicketType = TicketType(eventId: string, name: string, priceCents: int, capacity: int, isAvailable: bool)

  datatype Reservation = Reservation(userId: string, ticketTypeId: string, quantity: int, expiresAt: int, status: ReservationStatus)

  /** `item => item.order_id === orderId` */
  function ItemOfOrder(orderId: string): OrderItem -> bool
  {
    (it: OrderItem) => it.orderId == orderId
  }

  /** `ticket => ticket.order_id === orderId` */
  function TicketOfOrder(orderId: string): Ticket -> bool
  {
    (t: Ticket) => t.orderId == orderId
  }

  /** The order items of one order: the rows carrying its id, each as often as it occurs, in table order. */
  function ItemsOf(items: seq<OrderItem>, orderId: string): (r: seq<OrderItem>)
    ensures |r| <= |items|
    ensures forall x {:trigger x in r} :: x in r <==> x in items && x.orderId == orderId
  {
    Filter(items, ItemOfOrder(orderId))
  }

  /** The tickets of one order: the rows carrying its id, each as often as it occurs, in table order. */
  function TicketsOf(tickets: seq<Ticket>, orderId: string): (r: seq<Ticket>)
    ensures |r| <= |tickets|
    ensures forall t {:trigger t in r} :: t in r <==> t in tickets && t.orderId == orderId
  {
    Filter(tickets, TicketOfOrder(orderId))
  }
}
