/** Checkout order creation and confirmation (`createOrder`, `confirmPayment`). */
module Checkout {
  import opened Wrappers
  import opened Entities
  import opened Tables
  import opened Issuance
  import opened Storefront
  import Text
  import OrderManagement
  import InventoryControl
  import PaymentApi
  import Api

  datatype CustomerInfo = CustomerInfo(email: string, fullName: string, address: string, city: string, zipCode: string)

  datatype CheckoutError = NotAuthenticated | Unavailable(reason: InventoryControl.ReserveError) | OrderInsertFailed
                         | ItemsInsertFailed | OrderUpdateFailed

  datatype CreatedOrder = CreatedOrder(orderId: string, clientSecret: string, amount: int)

  /** `Σ price * quantity * 100`: the cart total in cents. */
  function CartTotalCents(cart: seq<CartItem>): int
  {
    if cart == [] then 0 else CartTotalCents(cart[..|cart| - 1]) + cart[|cart| - 1].price * cart[|cart| - 1].quantity * 100
  }

  lemma {:induction false} CartTotalIsSubtotalInCents(cart: seq<CartItem>)
    ensures CartTotalCents(cart) == 100 * Subtotal(cart)
  {
    if cart != [] {
      CartTotalIsSubtotalInCents(cart[..|cart| - 1]);
    }
  }

  /** `Math.round(totalCents * 0.1)`: the nearest whole number to a tenth, halves rounded up. */
  function ServiceFee(totalCents: int): (fee: int)
    ensures 10 * fee <= totalCents + 5 < 10 * fee + 10
  {
    (totalCents + 5) / 10
  }

  function FinalTotal(cart: seq<CartItem>): int
  {
    CartTotalCents(cart) + ServiceFee(CartTotalCents(cart))
  }

  lemma ServiceFeeExample()
    ensures ServiceFee(100000) == 10000 && 100000 + ServiceFee(100000) == 110000
    ensures ServiceFee(5) == 1 && ServiceFee(4) == 0
  {
  }

  /** A checkout total passes validatePaymentAmount iff its positive subtotal is at most 90909091 cents. */
  lemma FinalTotalWithinPaymentLimit(totalCents: int)
    requires totalCents > 0
    ensures PaymentApi.ValidatePaymentAmount(totalCents + ServiceFee(totalCents)) <==> totalCents <= 90909091
  {
  }

  /** The inventory lines of the cart: its ticket types and quantities. */
  function CartGroups(cart: seq<CartItem>): (r: seq<Group>)
    ensures |r| == |cart|
    ensures forall i :: 0 <= i < |cart| ==> r[i] == Group(cart[i].ticketTypeId, cart[i].quantity)
  {
    seq(|cart|, i requires 0 <= i < |cart| => Group(cart[i].ticketTypeId, cart[i].quantity))
  }

  /** One order item per cart line, its unit price snapshotted in cents. */
  function OrderLines(orderId: string, cart: seq<CartItem>): (r: seq<OrderItem>)
    ensures |r| == |cart|
    ensures forall i :: 0 <= i < |cart| ==>
      r[i].orderId == orderId && r[i].ticketTypeId == cart[i].ticketTypeId && r[i].quantity == cart[i].quantity
      && r[i].unitPriceCents == cart[i].price * 100
  {
    seq(|cart|, i requires 0 <= i < |cart| => OrderItem(orderId, cart[i].ticketTypeId, cart[i].quantity, cart[i].price * 100))
  }

  /** The amount of the order lines is the cart total before the fee. */
  lemma {:induction false} OrderLinesTotal(orderId: string, cart: seq<CartItem>)
    ensures LinesTotal(OrderLines(orderId, cart)) == CartTotalCents(cart)
  {
    if cart != [] {
      var front := cart[..|cart| - 1];
      OrderLinesTotal(orderId, front);
      assert OrderLines(orderId, cart)[..|cart| - 1] == OrderLines(orderId, front);
    }
  }

  /** The order lines carry the cart's inventory lines: the same types and quantities, in the same order. */
  lemma OrderLinesKeepGroups(orderId: string, cart: seq<CartItem>)
    ensures ItemGroups(OrderLines(orderId, cart)) == CartGroups(cart)
  {
  }

  /**
   * For an order id with no earlier items, the groups tickets are issued from after checkout are
   * the lines that were checked against inventory.
   */
  lemma IssuedFromCheckedLines(rows: seq<OrderItem>, orderId: string, cart: seq<CartItem>)
    requires forall i :: 0 <= i < |rows| ==> rows[i].orderId != orderId
    ensures ItemGroups(ItemsOf(rows + OrderLines(orderId, cart), orderId)) == CartGroups(cart)
  {
    Api.ItemsOfAppended(rows, OrderLines(orderId, cart), orderId);
    Api.NoItemsOf(rows, orderId);
    OrderLinesKeepGroups(orderId, cart);
  }

  function LinesTotal(items: seq<OrderItem>): int
  {
    if items == [] then 0 else LinesTotal(items[..|items| - 1]) + items[|items| - 1].unitPriceCents * items[|items| - 1].quantity
  }

  /** The row createOrder inserts; `holdUntil` is whatever the expires_at column defaults to. */
  function PendingOrder(userId: string, cart: seq<CartItem>, info: CustomerInfo, holdUntil: Option<int>): Order
    requires cart != []
  {
    Order(userId, cart[0].eventId, Pending, FinalTotal(cart), holdUntil, Some("stripe"), None, None,
          Some(info.email), Some(info.fullName), Some(Address(info.address, info.city, info.zipCode)))
  }

  function MockIntentId(now: int): string
  {
    "pi_mock_" + Text.IntToString(now)
  }

  /**
   * createOrder. Availability is checked before any write; the order row is inserted before
   * its items, so a failing item insert leaves the order behind. An empty cart has no event
   * id for the row, and its insert fails.
   */
  method CreateOrder(db: Db, user: Option<string>, cart: seq<CartItem>, info: CustomerInfo, now: int,
                     newOrderId: string, holdUntil: Option<int>, itemsInsertFails: bool)
    returns (r: Result<CreatedOrder, CheckoutError>)
    modifies db`orders, db`orderItems
    ensures user.None? ==> r == Err(NotAuthenticated)
    ensures user.Some? ==> (r.Err? && r.error.Unavailable? <==>
                            !InventoryControl.Reservable(old(InventoryControl.StockOf(db)), CartGroups(cart), now))
    ensures r == Err(OrderInsertFailed) <==>
      user.Some? && InventoryControl.Reservable(old(InventoryControl.StockOf(db)), CartGroups(cart), now)
      && (cart == [] || newOrderId in old(db.orders))
    ensures (user.Some? && InventoryControl.Reservable(old(InventoryControl.StockOf(db)), CartGroups(cart), now)
             && cart != [] && newOrderId !in old(db.orders) && !itemsInsertFails) ==> r.Ok?
    ensures r.Err? && r.error != ItemsInsertFailed ==> db.orders == old(db.orders) && db.orderItems == old(db.orderItems)
    ensures r == Err(ItemsInsertFailed) ==>
      cart != [] && user.Some? && itemsInsertFails
      && db.orders == old(db.orders)[newOrderId := PendingOrder(user.value, cart, info, holdUntil)]
      && db.orderItems == old(db.orderItems)
    ensures r.Ok? ==>
      user.Some? && cart != [] && newOrderId !in old(db.orders) && !itemsInsertFails
      && r.value == CreatedOrder(newOrderId, MockIntentId(now) + "_secret_mock", FinalTotal(cart))
      && db.orders == old(db.orders)[newOrderId := PendingOrder(user.value, cart, info, holdUntil).(paymentIntentId := Some(MockIntentId(now)))]
      && db.orderItems == old(db.orderItems) + OrderLines(newOrderId, cart)
      && db.orders[r.value.orderId].totalCents == r.value.amount
  {
    if user.None? {
      return Err(NotAuthenticated);
    }
    var reserved := InventoryControl.ReserveTickets(InventoryControl.StockOf(db), CartGroups(cart), now);
    if reserved.Err? {
      return Err(Unavailable(reserved.error));
    }
    var totalCents := CartTotalCents(cart);
    var serviceFee := ServiceFee(totalCents);
    var finalTotal := totalCents + serviceFee;
    if cart == [] {
      return Err(OrderInsertFailed);
    }
    var inserted := OrderManagement.CreateOrder(db, newOrderId, PendingOrder(user.value, cart, info, holdUntil));
    if inserted.Err? {
      return Err(OrderInsertFailed);
    }
    if itemsInsertFails {
      return Err(ItemsInsertFailed);
    }
    db.orderItems := db.orderItems + OrderLines(newOrderId, cart);
    var intentId := MockIntentId(now);
    var clientSecret := intentId + "_secret_mock";
    var _ := OrderManagement.UpdateOrderStatus(db, newOrderId, Pending, OrderManagement.OrderPatch(Some(intentId), None), now);
    r := Ok(CreatedOrder(newOrderId, clientSecret, finalTotal));
  }

  /** The random parts of one confirmed ticket: the row id and the ticket number. */
  datatype Draw = Draw(id: string, ticketNumber: string)

  /** `QR-{orderId}-{ticketTypeId}-{i}` */
  function QrLabel(orderId: string, ticketTypeId: string, i: nat): string
  {
    "QR-" + orderId + "-" + ticketTypeId + "-" + Text.NatToString(i)
  }

  /** The characters after the last dash of `s` (all of `s` when it has none). */
  function AfterLastDash(s: string): (r: string)
    ensures |r| <= |s| && r == s[|s| - |r|..]
  {
    if s == [] || s[|s| - 1] == '-' then [] else AfterLastDash(s[..|s| - 1]) + [s[|s| - 1]]
  }

  lemma {:induction false} AfterLastDashOfSuffix(x: string, d: string)
    requires forall k :: 0 <= k < |d| ==> d[k] != '-'
    ensures AfterLastDash(x + "-" + d) == d
  {
    if d != [] {
      var front := d[..|d| - 1];
      AfterLastDashOfSuffix(x, front);
      assert (x + "-" + d)[..|x + "-" + d| - 1] == x + "-" + front;
    }
  }

  /** Splitting at the last dash recovers both halves when the tails are dash-free. */
  lemma SplitAtLastDash(a: string, d: string, b: string, e: string)
    requires forall k :: 0 <= k < |d| ==> d[k] != '-'
    requires forall k :: 0 <= k < |e| ==> e[k] != '-'
    requires a + "-" + d == b + "-" + e
    ensures a == b && d == e
  {
    AfterLastDashOfSuffix(a, d);
    AfterLastDashOfSuffix(b, e);
    var l := a + "-" + d;
    assert a == l[..|a|];
    assert b == l[..|b|];
  }

  /** The label determines the ticket type and the index: the index digits contain no dash. */
  lemma QrLabelInjective(orderId: string, t1: string, i: nat, t2: string, j: nat)
    requires QrLabel(orderId, t1, i) == QrLabel(orderId, t2, j)
    ensures t1 == t2 && i == j
  {
    var p := "QR-" + orderId + "-";
    var d1, d2 := Text.NatToString(i), Text.NatToString(j);
    assert QrLabel(orderId, t1, i) == (p + t1) + "-" + d1;
    assert QrLabel(orderId, t2, j) == (p + t2) + "-" + d2;
    SplitAtLastDash(p + t1, d1, p + t2, d2);
    Text.NatToStringInjective(i, j);
    assert t1 == (p + t1)[|p|..];
    assert t2 == (p + t2)[|p|..];
  }

  function ConfirmedTicket(userId: string, orderId: string, d: Draw, u: Unit): Ticket
  {
    Ticket(d.id, orderId, userId, None, u.ticketTypeId, Some(d.ticketNumber), None, None,
           Some(QrLabel(orderId, u.ticketTypeId, u.index)), Valid, None, None, None)
  }

  /** The tickets confirmPayment inserts: `valid`, for the signed-in user, labelled by type and index. */
  function ConfirmedTickets(userId: string, orderId: string, items: seq<OrderItem>, draws: nat -> Draw): (r: seq<Ticket>)
    ensures |r| == TotalUnits(ItemGroups(ItemsOf(items, orderId))) == |UnitsOf(ItemGroups(ItemsOf(items, orderId)))|
    ensures forall k :: 0 <= k < |r| ==>
      var u := UnitsOf(ItemGroups(ItemsOf(items, orderId)))[k];
      r[k].status == Valid && r[k].userId == userId && r[k].orderId == orderId && r[k].ticketTypeId == u.ticketTypeId
      && r[k].qrCode == Some(QrLabel(orderId, u.ticketTypeId, u.index)) && r[k].eventId.None? && r[k].code.None?
  {
    var groups := ItemGroups(ItemsOf(items, orderId));
    var mk := (u: Unit, k: nat) => ConfirmedTicket(userId, orderId, draws(k), u);
    var r := Expanded(groups, mk);
    assert forall k :: 0 <= k < |r| ==> r[k] == ConfirmedTicket(userId, orderId, draws(k), UnitsOf(groups)[k]);
    r
  }

  /** Two tickets built for different units never share a QR label. */
  lemma ConfirmedLabelsDistinct(userId: string, orderId: string, items: seq<OrderItem>, draws: nat -> Draw, a: nat, b: nat)
    requires a < b < |ConfirmedTickets(userId, orderId, items, draws)|
    requires UnitsOf(ItemGroups(ItemsOf(items, orderId)))[a] != UnitsOf(ItemGroups(ItemsOf(items, orderId)))[b]
    ensures ConfirmedTickets(userId, orderId, items, draws)[a].qrCode != ConfirmedTickets(userId, orderId, items, draws)[b].qrCode
  {
    var us := UnitsOf(ItemGroups(ItemsOf(items, orderId)));
    if QrLabel(orderId, us[a].ticketTypeId, us[a].index) == QrLabel(orderId, us[b].ticketTypeId, us[b].index) {
      QrLabelInjective(orderId, us[a].ticketTypeId, us[a].index, us[b].ticketTypeId, us[b].index);
    }
  }

  /** confirmPayment: mark paid, then insert one `valid` ticket per unit of the order's items. */
  method ConfirmPayment(db: Db, user: Option<string>, orderId: string, now: int, draws: nat -> Draw)
    returns (r: Result<(), CheckoutError>)
    modifies db`orders, db`tickets
    ensures user.None? || orderId !in old(db.orders) ==>
      r.Err? && db.orders == old(db.orders) && db.tickets == old(db.tickets)
    ensures user.Some? && orderId in old(db.orders) ==>
      r.Ok?
      && db.orders == old(db.orders)[orderId := old(db.orders)[orderId].(status := Paid, paidAt := Some(now))]
      && db.tickets == old(db.tickets) + ConfirmedTickets(user.value, orderId, db.orderItems, draws)
  {
    if user.None? {
      return Err(NotAuthenticated);
    }
    var updated := OrderManagement.UpdateOrderStatus(db, orderId, Paid, OrderManagement.NoPatch, now);
    if updated.Err? {
      return Err(OrderUpdateFailed);
    }
    var groups := ItemGroups(ItemsOf(db.orderItems, orderId));
    var userId := user.value;
    var tickets := Expand(groups, (u: Unit, k: nat) => ConfirmedTicket(userId, orderId, draws(k), u));
    db.tickets := db.tickets + tickets;
    r := Ok(());
  }
}
