/** `InventoryManager`: availability computed from paid and unexpired pending orders. */
module InventoryControl {
  import opened Wrappers
  import opened Entities
  import opened Tables
  import opened Issuance
  import Text
  import OrderManagement

  /** The three tables the inventory queries read. */
  datatype Stock = Stock(ticketTypes: map<string, TicketType>, orders: map<string, Order>, orderItems: seq<OrderItem>)

  function StockOf(db: Db): Stock
    reads db
  {
    Stock(db.ticketTypes, db.orders, db.orderItems)
  }

  /** An order item of the ticket type whose (existing) order is paid. */
  predicate IsSold(orders: map<string, Order>, tt: string, item: OrderItem)
  {
    item.ticketTypeId == tt && item.orderId in orders && orders[item.orderId].status == Paid
  }

  /** An order item of the ticket type whose order is pending and expires strictly after now. */
  predicate IsHeld(orders: map<string, Order>, tt: string, now: int, item: OrderItem)
  {
    item.ticketTypeId == tt && item.orderId in orders && orders[item.orderId].status == Pending
    && orders[item.orderId].expiresAt.Some? && orders[item.orderId].expiresAt.value > now
  }

  function Sold(orders: map<string, Order>, items: seq<OrderItem>, tt: string): int
  {
    if items == [] then 0
    else Sold(orders, items[..|items| - 1], tt) + (if IsSold(orders, tt, items[|items| - 1]) then items[|items| - 1].quantity else 0)
  }

  function Reserved(orders: map<string, Order>, items: seq<OrderItem>, tt: string, now: int): int
  {
    if items == [] then 0
    else Reserved(orders, items[..|items| - 1], tt, now) + (if IsHeld(orders, tt, now, items[|items| - 1]) then items[|items| - 1].quantity else 0)
  }

  datatype InventoryStatus = InventoryStatus(
    ticketTypeId: string,
    name: string,
    totalCapacity: int,
    soldTickets: int,
    reservedTickets: int,
    availableTickets: int,
    isAvailable: bool,
    isSoldOut: bool)

  datatype InventoryError = TypeLookupFailed | BelowSold(newCapacity: int, sold: int)

  /** getInventoryStatus for a ticket type that exists. */
  function StatusOf(stock: Stock, tt: string, now: int): (s: InventoryStatus)
    requires tt in stock.ticketTypes
    ensures var t := stock.ticketTypes[tt];
            var free := t.capacity - Sold(stock.orders, stock.orderItems, tt) - Reserved(stock.orders, stock.orderItems, tt, now);
            s.availableTickets == (if free > 0 then free else 0)
            && s.soldTickets == Sold(stock.orders, stock.orderItems, tt)
            && s.reservedTickets == Reserved(stock.orders, stock.orderItems, tt, now)
            && s.totalCapacity == t.capacity && s.ticketTypeId == tt && s.name == t.name
    ensures s.availableTickets >= 0
    ensures s.isSoldOut <==> s.availableTickets == 0
    ensures s.isAvailable <==> s.availableTickets > 0 && stock.ticketTypes[tt].isAvailable
    ensures s.isAvailable ==> !s.isSoldOut
  {
    var t := stock.ticketTypes[tt];
    var sold := Sold(stock.orders, stock.orderItems, tt);
    var reserved := Reserved(stock.orders, stock.orderItems, tt, now);
    var available := if t.capacity - sold - reserved > 0 then t.capacity - sold - reserved else 0;
    InventoryStatus(tt, t.name, t.capacity, sold, reserved, available, available > 0 && t.isAvailable, available == 0)
  }

  /** getInventoryStatus: a ticket type that does not exist is an error. */
  function InventoryOf(stock: Stock, tt: string, now: int): (r: Result<InventoryStatus, InventoryError>)
    ensures r.Err? <==> tt !in stock.ticketTypes
    ensures r.Ok? ==> r.value == StatusOf(stock, tt, now)
  {
    if tt in stock.ticketTypes then Ok(StatusOf(stock, tt, now)) else Err(TypeLookupFailed)
  }

  predicate NonNegativeQuantities(items: seq<OrderItem>)
  {
    forall i :: 0 <= i < |items| ==> items[i].quantity >= 0
  }

  lemma {:induction false} CountsNonNegative(orders: map<string, Order>, items: seq<OrderItem>, tt: string, now: int)
    requires NonNegativeQuantities(items)
    ensures Sold(orders, items, tt) >= 0 && Reserved(orders, items, tt, now) >= 0
  {
    if items != [] {
      CountsNonNegative(orders, items[..|items| - 1], tt, now);
    }
  }

  /** With non-negative quantities and capacity, 0 <= available <= capacity. */
  lemma AvailableWithinCapacity(stock: Stock, tt: string, now: int)
    requires tt in stock.ticketTypes && stock.ticketTypes[tt].capacity >= 0
    requires NonNegativeQuantities(stock.orderItems)
    ensures 0 <= StatusOf(stock, tt, now).availableTickets <= stock.ticketTypes[tt].capacity
  {
    CountsNonNegative(stock.orders, stock.orderItems, tt, now);
  }

  /**
   * An order whose hold ends exactly now counts neither as sold nor as reserved (and is not swept):
   * removing it from the orders table changes no count.
   */
  lemma {:induction false} HoldEndingNowIsIgnored(orders: map<string, Order>, items: seq<OrderItem>, tt: string, id: string, now: int)
    requires id in orders && orders[id].status == Pending && orders[id].expiresAt == Some(now)
    ensures Sold(orders, items, tt) == Sold(orders - {id}, items, tt)
    ensures Reserved(orders, items, tt, now) == Reserved(orders - {id}, items, tt, now)
    ensures !OrderManagement.IsOverdue(orders[id], now)
  {
    if items != [] {
      HoldEndingNowIsIgnored(orders, items[..|items| - 1], tt, id, now);
    }
  }

  datatype CheckMessage = NotForSale | SoldOut | OnlyAvailable(count: int) | TicketsAvailable | LookupFailed

  datatype InventoryCheck = InventoryCheck(success: bool, available: bool, requestedQuantity: int, availableQuantity: int, message: CheckMessage)

  /** checkAvailability: the status of the type decides; a failed lookup is caught as an unsuccessful check. */
  function CheckAvailability(stock: Stock, tt: string, requested: int, now: int): (c: InventoryCheck)
    ensures c.requestedQuantity == requested
    ensures c.success <==> tt in stock.ticketTypes
    ensures c.available <==> tt in stock.ticketTypes && StatusOf(stock, tt, now).isAvailable
                             && requested <= StatusOf(stock, tt, now).availableTickets
    ensures !(tt in stock.ticketTypes && StatusOf(stock, tt, now).isAvailable) ==> c.availableQuantity == 0
    ensures tt in stock.ticketTypes && StatusOf(stock, tt, now).isAvailable ==>
      c.availableQuantity == StatusOf(stock, tt, now).availableTickets
  {
    match InventoryOf(stock, tt, now)
    case Err(_) => InventoryCheck(false, false, requested, 0, LookupFailed)
    case Ok(inv) =>
      if !inv.isAvailable then InventoryCheck(true, false, requested, 0, NotForSale)
      else if inv.isSoldOut then InventoryCheck(true, false, requested, 0, SoldOut)
      else if requested > inv.availableTickets then InventoryCheck(true, false, requested, inv.availableTickets, OnlyAvailable(inv.availableTickets))
      else InventoryCheck(true, true, requested, inv.availableTickets, TicketsAvailable)
  }

  /** The "sold out" answer is never given: a sold-out type is already not available for sale. */
  lemma SoldOutBranchUnreachable(stock: Stock, tt: string, requested: int, now: int)
    ensures CheckAvailability(stock, tt, requested, now).message != SoldOut
  {
  }

  /** checkMultipleAvailability: one check per ticket type; for a repeated type the last line's quantity wins. */
  function CheckMultiple(stock: Stock, items: seq<Group>, now: int): (m: map<string, InventoryCheck>)
    ensures forall i :: 0 <= i < |items| ==> items[i].ticketTypeId in m
    ensures forall tt :: tt in m ==> exists i :: 0 <= i < |items| && items[i].ticketTypeId == tt
  {
    if items == [] then map[]
    else
      var front := items[..|items| - 1];
      var last := items[|items| - 1];
      var m := CheckMultiple(stock, front, now)[last.ticketTypeId := CheckAvailability(stock, last.ticketTypeId, last.quantity, now)];
      assert forall i :: 0 <= i < |front| ==> front[i] == items[i];
      m
  }

  /** The entry of a ticket type is the check of the last line naming it. */
  lemma {:induction false} CheckMultipleLastLineWins(stock: Stock, items: seq<Group>, now: int, i: nat)
    requires i < |items|
    requires forall j :: i < j < |items| ==> items[j].ticketTypeId != items[i].ticketTypeId
    ensures CheckMultiple(stock, items, now)[items[i].ticketTypeId]
         == CheckAvailability(stock, items[i].ticketTypeId, items[i].quantity, now)
    decreases |items|
  {
    if i < |items| - 1 {
      var front := items[..|items| - 1];
      assert front[i] == items[i];
      CheckMultipleLastLineWins(stock, front, now, i);
    }
  }

  predicate Passes(c: InventoryCheck)
  {
    c.success && c.available
  }

  datatype ReserveError = CannotReserve(ticketTypeId: string, message: CheckMessage)

  /** Every line's entry in the combined check is successful and available. */
  predicate Reservable(stock: Stock, items: seq<Group>, now: int)
  {
    var m := CheckMultiple(stock, items, now);
    forall i :: 0 <= i < |items| ==> Passes(m[items[i].ticketTypeId])
  }

  /** reserveTickets: checks every line, throws on the first failing one, and writes nothing. */
  method ReserveTickets(stock: Stock, items: seq<Group>, now: int) returns (r: Result<bool, ReserveError>)
    ensures r.Ok? <==> Reservable(stock, items, now)
    ensures r.Ok? ==> r.value
    ensures var m := CheckMultiple(stock, items, now);
            r.Err? ==> exists i :: 0 <= i < |items| && !Passes(m[items[i].ticketTypeId])
                                 && (forall j :: 0 <= j < i ==> Passes(m[items[j].ticketTypeId]))
                                 && r.error == CannotReserve(items[i].ticketTypeId, m[items[i].ticketTypeId].message)
  {
    var checks := CheckMultiple(stock, items, now);
    for i := 0 to |items|
      invariant forall j :: 0 <= j < i ==> Passes(checks[items[j].ticketTypeId])
    {
      var check := checks[items[i].ticketTypeId];
      if !check.success || !check.available {
        return Err(CannotReserve(items[i].ticketTypeId, check.message));
      }
    }
    return Ok(true);
  }

  predicate DistinctTypes(items: seq<Group>)
  {
    forall i, j :: 0 <= i < j < |items| ==> items[i].ticketTypeId != items[j].ticketTypeId
  }

  /** With distinct ticket types, a reservation goes through iff every line on its own is available. */
  lemma ReserveDistinctLines(stock: Stock, items: seq<Group>, now: int)
    requires DistinctTypes(items)
    ensures Reservable(stock, items, now)
            <==> (forall i :: 0 <= i < |items| ==> Passes(CheckAvailability(stock, items[i].ticketTypeId, items[i].quantity, now)))
  {
    forall i | 0 <= i < |items|
      ensures CheckMultiple(stock, items, now)[items[i].ticketTypeId]
           == CheckAvailability(stock, items[i].ticketTypeId, items[i].quantity, now)
    {
      CheckMultipleLastLineWins(stock, items, now, i);
    }
  }

  /** Two lines of one type are not added up: only the last line's quantity is checked. */
  lemma RepeatedTypeChecksLastLineOnly(stock: Stock, tt: string, first: int, second: int, now: int)
    ensures CheckMultiple(stock, [Group(tt, first), Group(tt, second)], now)[tt]
         == CheckAvailability(stock, tt, second, now)
  {
    var items := [Group(tt, first), Group(tt, second)];
    CheckMultipleLastLineWins(stock, items, now, 1);
  }

  /** updateTicketTypeAvailability: a missing type is an error. */
  method UpdateTicketTypeAvailability(db: Db, tt: string, isAvailable: bool) returns (r: Result<TicketType, InventoryError>)
    modifies db`ticketTypes
    ensures tt !in old(db.ticketTypes) ==> r == Err(TypeLookupFailed) && db.ticketTypes == old(db.ticketTypes)
    ensures tt in old(db.ticketTypes) ==>
      db.ticketTypes == old(db.ticketTypes)[tt := old(db.ticketTypes)[tt].(isAvailable := isAvailable)]
      && r == Ok(db.ticketTypes[tt])
  {
    if tt !in db.ticketTypes {
      return Err(TypeLookupFailed);
    }
    var t := db.ticketTypes[tt].(isAvailable := isAvailable);
    db.ticketTypes := db.ticketTypes[tt := t];
    r := Ok(t);
  }

  /** The guard of updateTicketTypeCapacity: only sold tickets are compared, reserved ones are not. */
  function CapacityRefusal(stock: Stock, tt: string, newCapacity: int, now: int): (e: Option<InventoryError>)
    ensures e.None? <==> tt in stock.ticketTypes && newCapacity >= Sold(stock.orders, stock.orderItems, tt)
  {
    match InventoryOf(stock, tt, now)
    case Err(err) => Some(err)
    case Ok(inv) => if newCapacity < inv.soldTickets then Some(BelowSold(newCapacity, inv.soldTickets)) else None
  }

  method UpdateTicketTypeCapacity(db: Db, tt: string, newCapacity: int, now: int) returns (r: Result<TicketType, InventoryError>)
    modifies db`ticketTypes
    ensures CapacityRefusal(old(StockOf(db)), tt, newCapacity, now).Some? ==>
      r == Err(CapacityRefusal(old(StockOf(db)), tt, newCapacity, now).value) && db.ticketTypes == old(db.ticketTypes)
    ensures CapacityRefusal(old(StockOf(db)), tt, newCapacity, now).None? ==>
      db.ticketTypes == old(db.ticketTypes)[tt := old(db.ticketTypes)[tt].(capacity := newCapacity)]
      && r == Ok(db.ticketTypes[tt])
  {
    var refusal := CapacityRefusal(StockOf(db), tt, newCapacity, now);
    if refusal.Some? {
      return Err(refusal.value);
    }
    var t := db.ticketTypes[tt].(capacity := newCapacity);
    db.ticketTypes := db.ticketTypes[tt := t];
    r := Ok(t);
  }

  /** A capacity accepted by the guard may still be below sold + reserved, which leaves nothing available. */
  lemma CapacityGuardIgnoresHolds(stock: Stock, tt: string, newCapacity: int, now: int)
    requires CapacityRefusal(stock, tt, newCapacity, now).None?
    requires newCapacity < Sold(stock.orders, stock.orderItems, tt) + Reserved(stock.orders, stock.orderItems, tt, now)
    ensures var after := stock.(ticketTypes := stock.ticketTypes[tt := stock.ticketTypes[tt].(capacity := newCapacity)]);
            StatusOf(after, tt, now).isSoldOut && !StatusOf(after, tt, now).isAvailable
  {
  }

  /** A ticket type of the event that is marked `is_available`. */
  predicate ForSale(stock: Stock, eventId: string, tt: string)
  {
    tt in stock.ticketTypes && stock.ticketTypes[tt].eventId == eventId && stock.ticketTypes[tt].isAvailable
  }

  /** getEventInventoryStatus: the statuses of the event's ticket types that are for sale, and only those. */
  function EventInventory(stock: Stock, eventId: string, now: int): (r: set<InventoryStatus>)
    ensures forall tt :: ForSale(stock, eventId, tt) ==> StatusOf(stock, tt, now) in r
    ensures forall s :: s in r ==> ForSale(stock, eventId, s.ticketTypeId) && s == StatusOf(stock, s.ticketTypeId, now)
  {
    set tt | tt in stock.ticketTypes && ForSale(stock, eventId, tt) :: StatusOf(stock, tt, now)
  }

  const DefaultLowStockThreshold := 10

  predicate IsLowStock(s: InventoryStatus, threshold: int)
  {
    s.isAvailable && s.availableTickets <= threshold && s.availableTickets > 0
  }

  /** getLowStockAlerts, default threshold 10. */
  function LowStockAlerts(stock: Stock, eventId: string, now: int, threshold: int := DefaultLowStockThreshold): (r: set<InventoryStatus>)
    ensures forall s :: s in r <==> s in EventInventory(stock, eventId, now) && IsLowStock(s, threshold)
  {
    set s | s in EventInventory(stock, eventId, now) && IsLowStock(s, threshold)
  }

  /** getSoldOutTicketTypes */
  function SoldOutTicketTypes(stock: Stock, eventId: string, now: int): (r: set<InventoryStatus>)
    ensures forall s :: s in r <==> s in EventInventory(stock, eventId, now) && s.isSoldOut
  {
    set s | s in EventInventory(stock, eventId, now) && s.isSoldOut
  }

  /** No ticket type is both a low-stock alert and sold out; alerts at the default threshold show orange or yellow. */
  lemma AlertsAndSoldOutDisjoint(stock: Stock, eventId: string, now: int)
    ensures LowStockAlerts(stock, eventId, now) * SoldOutTicketTypes(stock, eventId, now) == {}
    ensures forall s :: s in LowStockAlerts(stock, eventId, now) ==> InventoryColor(s) in {"orange", "yellow"}
  {
    var both := LowStockAlerts(stock, eventId, now) * SoldOutTicketTypes(stock, eventId, now);
    forall s | s in EventInventory(stock, eventId, now) ensures !(IsLowStock(s, DefaultLowStockThreshold) && s.isSoldOut) {
    }
    assert forall s :: s !in both;
  }

  /** cleanupExpiredReservations performs the same sweep as processExpiredOrders. */
  method CleanupExpiredReservations(db: Db, now: int) returns (count: nat)
    modifies db`orders
    ensures count == |OrderManagement.OverdueIds(old(db.orders), now)|
    ensures db.orders == OrderManagement.Swept(old(db.orders), now)
  {
    var ids := OrderManagement.OverdueIds(db.orders, now);
    if |ids| == 0 {
      assert forall id :: id in db.orders ==> id !in ids;
      assert OrderManagement.Swept(db.orders, now) == db.orders;
      return 0;
    }
    db.orders := map id | id in db.orders :: if id in ids then db.orders[id].(status := Expired) else db.orders[id];
    count := |ids|;
  }

  /** The display bands shared by the text and the color: sold out, at most 5, at most 20, more. */
  datatype Band = SoldOutBand | FewLeft | SomeLeft | Plenty

  function BandOf(s: InventoryStatus): Band
  {
    if s.isSoldOut then SoldOutBand
    else if s.availableTickets <= 5 then FewLeft
    else if s.availableTickets <= 20 then SomeLeft
    else Plenty
  }

  /** formatInventoryStatus */
  function FormatInventoryStatus(s: InventoryStatus): (text: string)
    ensures text == "Sold Out" <==> s.isSoldOut
  {
    if s.isSoldOut then "Sold Out"
    else if s.availableTickets <= 5 then "Only " + Text.IntToString(s.availableTickets) + " left"
    else if s.availableTickets <= 20 then Text.IntToString(s.availableTickets) + " available"
    else "Available"
  }

  /** getInventoryColor */
  function InventoryColor(s: InventoryStatus): (color: string)
    ensures color == "red" <==> s.isSoldOut
  {
    if s.isSoldOut then "red"
    else if s.availableTickets <= 5 then "orange"
    else if s.availableTickets <= 20 then "yellow"
    else "green"
  }

  /** The text and the color follow the same bands in the same order. */
  lemma FormatAndColorAgree(s: InventoryStatus)
    ensures InventoryColor(s) == (match BandOf(s) case SoldOutBand => "red" case FewLeft => "orange"
                                                   case SomeLeft => "yellow" case Plenty => "green")
    ensures FormatInventoryStatus(s) == (match BandOf(s)
                                         case SoldOutBand => "Sold Out"
                                         case FewLeft => "Only " + Text.IntToString(s.availableTickets) + " left"
                                         case SomeLeft => Text.IntToString(s.availableTickets) + " available"
                                         case Plenty => "Available")
  {
  }
}
