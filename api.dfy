/** The thin data-access layer: order creation with items, ticket creation and scanning, user statistics and reservations. */
module Api {
  import opened Wrappers
  import opened Entities
  import opened Tables
  import opened Issuance
  import opened Sequences
  import OrderManagement
  import TicketGeneration

  datatype ApiError = InsertFailed | NotExactlyOneRow

  datatype NewItem = NewItem(ticketTypeId: string, quantity: int, unitPriceCents: int)
  datatype NewOrder = NewOrder(userId: string, eventId: string, items: seq<NewItem>, totalCents: int, paymentMethod: string)

  /** The order_items rows ordersApi.create inserts: the input items copied field by field. */
  function ItemRows(orderId: string, items: seq<NewItem>): (r: seq<OrderItem>)
    ensures |r| == |items|
    ensures forall i :: 0 <= i < |items| ==>
      r[i] == OrderItem(orderId, items[i].ticketTypeId, items[i].quantity, items[i].unitPriceCents)
  {
    seq(|items|, i requires 0 <= i < |items| =>
      OrderItem(orderId, items[i].ticketTypeId, items[i].quantity, items[i].unitPriceCents))
  }

  /** Rows appended for one order are found again, in order, after its earlier rows. */
  lemma ItemsOfAppended(rows: seq<OrderItem>, added: seq<OrderItem>, orderId: string)
    requires forall i :: 0 <= i < |added| ==> added[i].orderId == orderId
    ensures ItemsOf(rows + added, orderId) == ItemsOf(rows, orderId) + added
  {
    FilterConcat(rows, added, ItemOfOrder(orderId));
    FilterKeepsAll(added, ItemOfOrder(orderId));
  }

  /** ordersApi.create: a `pending` order with the given total, then one item per input item. */
  method CreateOrder(db: Db, data: NewOrder, newOrderId: string, holdUntil: Option<int>, itemsInsertFails: bool)
    returns (r: Result<Order, ApiError>)
    modifies db`orders, db`orderItems
    ensures var o := Order(data.userId, data.eventId, Pending, data.totalCents, holdUntil, Some(data.paymentMethod),
                           None, None, None, None, None);
      (newOrderId in old(db.orders) ==> r == Err(InsertFailed) && db.orders == old(db.orders))
      && (newOrderId !in old(db.orders) ==> db.orders == old(db.orders)[newOrderId := o])
      && (r.Ok? <==> newOrderId !in old(db.orders) && !itemsInsertFails)
      && (r.Ok? ==> r.value == o && db.orderItems == old(db.orderItems) + ItemRows(newOrderId, data.items))
      && (r.Err? ==> db.orderItems == old(db.orderItems))
  {
    var o := Order(data.userId, data.eventId, Pending, data.totalCents, holdUntil, Some(data.paymentMethod),
                   None, None, None, None, None);
    var inserted := OrderManagement.CreateOrder(db, newOrderId, o);
    if inserted.Err? {
      return Err(InsertFailed);
    }
    if itemsInsertFails {
      return Err(InsertFailed);
    }
    db.orderItems := db.orderItems + ItemRows(newOrderId, data.items);
    r := Ok(o);
  }

  /** A created order's items are exactly the input items, when the id had no items before. */
  lemma CreatedItemsAreFound(rows: seq<OrderItem>, orderId: string, items: seq<NewItem>)
    requires forall i :: 0 <= i < |rows| ==> rows[i].orderId != orderId
    ensures ItemsOf(rows + ItemRows(orderId, items), orderId) == ItemRows(orderId, items)
  {
    ItemsOfAppended(rows, ItemRows(orderId, items), orderId);
    NoItemsOf(rows, orderId);
  }

  lemma {:induction false} NoItemsOf(rows: seq<OrderItem>, orderId: string)
    requires forall i :: 0 <= i < |rows| ==> rows[i].orderId != orderId
    ensures ItemsOf(rows, orderId) == []
  {
    if rows != [] {
      NoItemsOf(rows[..|rows| - 1], orderId);
    }
  }

  /** The random parts of one row ticketsApi.createForOrder inserts. */
  datatype Draw = Draw(id: string, ticketNumber: string)

  function ValidTicket(userId: string, orderId: string, d: Draw, u: Unit): Ticket
  {
    Ticket(d.id, orderId, userId, None, u.ticketTypeId, Some(d.ticketNumber), None, None, None, Valid, None, None, None)
  }

  /** ticketsApi.createForOrder: one `valid` ticket per unit of each group, in group order. */
  method CreateForOrder(db: Db, userId: string, orderId: string, groups: seq<Group>, draws: nat -> Draw)
    returns (created: seq<Ticket>)
    modifies db`tickets
    ensures |created| == TotalUnits(groups) == |UnitsOf(groups)|
    ensures forall k :: 0 <= k < |created| ==>
      created[k].status == Valid && created[k].userId == userId && created[k].orderId == orderId
      && created[k].ticketTypeId == UnitsOf(groups)[k].ticketTypeId
    ensures db.tickets == old(db.tickets) + created
  {
    var mk := (u: Unit, k: nat) => ValidTicket(userId, orderId, draws(k), u);
    created := Expand(groups, mk);
    assert forall k :: 0 <= k < |created| ==> created[k] == ValidTicket(userId, orderId, draws(k), UnitsOf(groups)[k]);
    db.tickets := db.tickets + created;
  }

  /** The scan stamp ticketsApi.updateStatus writes: now for `used`, null otherwise. */
  function ScanStamp(status: TicketStatus, now: int): (r: Option<int>)
    ensures r.Some? <==> status == Used
    ensures r.Some? ==> r.value == now
  {
    if status == Used then Some(now) else None
  }

  function IdCount(tickets: seq<Ticket>, id: string): nat
  {
    if tickets == [] then 0 else (if tickets[0].id == id then 1 else 0) + IdCount(tickets[1..], id)
  }

  function IdIndex(tickets: seq<Ticket>, id: string): (i: nat)
    requires IdCount(tickets, id) > 0
    ensures i < |tickets| && tickets[i].id == id
  {
    if tickets[0].id == id then 0 else 1 + IdIndex(tickets[1..], id)
  }

  /** The rows with the id get the status and the scan stamp; the others are untouched. */
  function StatusSet(tickets: seq<Ticket>, id: string, status: TicketStatus, now: int): (r: seq<Ticket>)
    ensures |r| == |tickets|
    ensures forall i :: 0 <= i < |tickets| ==>
      r[i] == if tickets[i].id == id then tickets[i].(status := status, scannedAt := ScanStamp(status, now)) else tickets[i]
  {
    seq(|tickets|, i requires 0 <= i < |tickets| =>
      if tickets[i].id == id then tickets[i].(status := status, scannedAt := ScanStamp(status, now)) else tickets[i])
  }

  /** Every row carries a scan stamp exactly when it is `used`. */
  predicate StampsMatchStatus(tickets: seq<Ticket>)
  {
    forall i :: 0 <= i < |tickets| ==> (tickets[i].scannedAt.Some? <==> tickets[i].status == Used)
  }

  /** A status update keeps scan stamps on exactly the used rows. */
  lemma StatusSetKeepsStamps(tickets: seq<Ticket>, id: string, status: TicketStatus, now: int)
    requires StampsMatchStatus(tickets)
    ensures StampsMatchStatus(StatusSet(tickets, id, status, now))
  {
  }

  /** ticketsApi.updateStatus: `.single()` fails unless exactly one row carries the id. */
  method UpdateTicketStatus(db: Db, ticketId: string, status: TicketStatus, now: int) returns (r: Result<Ticket, ApiError>)
    modifies db`tickets
    ensures db.tickets == StatusSet(old(db.tickets), ticketId, status, now)
    ensures StampsMatchStatus(old(db.tickets)) ==> StampsMatchStatus(db.tickets)
    ensures r.Ok? <==> IdCount(old(db.tickets), ticketId) == 1
    ensures r.Ok? ==> r.value.id == ticketId && r.value.status == status && r.value.scannedAt == ScanStamp(status, now)
  {
    var count := IdCount(db.tickets, ticketId);
    var before := db.tickets;
    db.tickets := StatusSet(db.tickets, ticketId, status, now);
    if StampsMatchStatus(before) {
      StatusSetKeepsStamps(before, ticketId, status, now);
    }
    if count != 1 {
      return Err(NotExactlyOneRow);
    }
    r := Ok(db.tickets[IdIndex(before, ticketId)]);
  }

  datatype UserStats = UserStats(totalOrders: nat, totalSpent: real, totalTickets: nat, usedTickets: nat)

  function OrderOwner(userId: string): Order -> bool
  {
    (o: Order) => o.userId == userId
  }

  function TicketOwner(userId: string): Ticket -> bool
  {
    (t: Ticket) => t.userId == userId
  }

  /** userApi.getStats over the order and ticket rows: paid revenue in whole units, counts of rows. */
  function GetStats(orderRows: seq<Order>, ticketRows: seq<Ticket>, userId: string): (st: UserStats)
    ensures var orders := Filter(orderRows, OrderOwner(userId));
            var tickets := Filter(ticketRows, TicketOwner(userId));
            st.totalOrders == |orders| && st.totalTickets == |tickets|
            && st.usedTickets == CountOf(tickets, TicketGeneration.TicketHasStatus(Used)) <= st.totalTickets
            && st.totalSpent * 100.0 == OrderManagement.PaidRevenue(orders) as real
  {
    var orders := Filter(orderRows, OrderOwner(userId));
    var tickets := Filter(ticketRows, TicketOwner(userId));
    UserStats(|orders|, OrderManagement.PaidRevenue(orders) as real / 100.0, |tickets|,
              CountOf(tickets, TicketGeneration.TicketHasStatus(Used)))
  }

  /** totalSpent is the order-statistics revenue of the user's rows, moved from cents to whole units. */
  lemma SpentIsPaidRevenue(orderRows: seq<Order>, ticketRows: seq<Ticket>, userId: string)
    ensures var orders := Filter(orderRows, OrderOwner(userId));
            GetStats(orderRows, ticketRows, userId).totalSpent * 100.0
              == OrderManagement.GetOrderStats(orders, None).totalRevenue as real
  {
  }

  /** reservationsApi.create: the hold is stored `active`. */
  method CreateReservation(db: Db, id: string, userId: string, ticketTypeId: string, quantity: int, expiresAt: int)
    returns (r: Result<Reservation, ApiError>)
    modifies db`reservations
    ensures id in old(db.reservations) ==> r == Err(InsertFailed) && db.reservations == old(db.reservations)
    ensures id !in old(db.reservations) ==>
      r == Ok(Reservation(userId, ticketTypeId, quantity, expiresAt, Held))
      && db.reservations == old(db.reservations)[id := r.value]
  {
    if id in db.reservations {
      return Err(InsertFailed);
    }
    var res := Reservation(userId, ticketTypeId, quantity, expiresAt, Held);
    db.reservations := db.reservations[id := res];
    r := Ok(res);
  }

  /** The reservations after release: only that row, when present, becomes `released`. */
  function AfterRelease(reservations: map<string, Reservation>, id: string): (r: map<string, Reservation>)
    ensures r.Keys == reservations.Keys
    ensures id in r ==> r[id].status == Released
    ensures forall k :: k in r && k != id ==> r[k] == reservations[k]
  {
    if id in reservations then reservations[id := reservations[id].(status := Released)] else reservations
  }

  /** Releasing twice is releasing once. */
  lemma ReleaseIsIdempotent(reservations: map<string, Reservation>, id: string)
    ensures AfterRelease(AfterRelease(reservations, id), id) == AfterRelease(reservations, id)
  {
  }

  /** reservationsApi.release: an update by id, so a missing id changes nothing and is no error. */
  method ReleaseReservation(db: Db, id: string)
    modifies db`reservations
    ensures db.reservations == AfterRelease(old(db.reservations), id)
  {
    db.reservations := AfterRelease(db.reservations, id);
  }
}
