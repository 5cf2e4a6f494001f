/** The order status panel: its status badge, icon, payment deadline and the cancel action. */
module OrderStatusView {
  import opened Wrappers
  import opened Entities
  import opened Tables
  import opened Text
  import Time
  import OrderManagement
  import EmailNotifications

  const ExpiredText := "Kedaluwarsa"
  const NoDeadlineText := "Tidak ada batas waktu"
  const NotFoundText := "Order tidak ditemukan"
  const CancelFailedText := "Gagal membatalkan pesanan"
  const CancelAction := "cancel"

  /** The statuses the badge, icon and colour tables name; every other status falls to the default. */
  const KnownStatuses: set<string> := {"pending", "paid", "cancelled", "expired", "refunded"}

  /** The time left before `expiry`, in whole hours and minutes; `None` once the deadline has passed. */
  function Remaining(expiry: int, now: int): (r: Option<Time.HoursMinutes>)
    ensures r.None? <==> expiry - now <= 0
    ensures r.Some? ==> r.value.minutes < 60
    ensures r.Some? ==>
      r.value.hours * Time.MsPerHour + r.value.minutes * Time.MsPerMinute <= expiry - now
      < r.value.hours * Time.MsPerHour + (r.value.minutes + 1) * Time.MsPerMinute
  {
    var diff := expiry - now;
    if diff <= 0 then None else Some(Time.Split(diff))
  }

  /** The `<hours>j <minutes>m tersisa` text. */
  function RemainingText(hm: Time.HoursMinutes): (text: string)
    ensures |text| >= 1 && IsDigit(text[0])
  {
    NatToString(hm.hours) + "j " + NatToString(hm.minutes) + "m tersisa"
  }

  /** getTimeRemaining: "Kedaluwarsa" exactly when the deadline is not in the future. */
  function TimeRemaining(expiry: int, now: int): (text: string)
    ensures text == ExpiredText <==> expiry - now <= 0
    ensures expiry - now > 0 ==> text == RemainingText(Remaining(expiry, now).value)
  {
    var r := Remaining(expiry, now);
    if r.None? then ExpiredText
    else
      var text := RemainingText(r.value);
      assert text[0] != ExpiredText[0];
      text
  }

  /** A run of digits followed by a text that starts with a non-digit can be split in one way only. */
  lemma DigitRunSplit(d1: string, x1: string, d2: string, x2: string)
    requires forall i :: 0 <= i < |d1| ==> IsDigit(d1[i])
    requires forall i :: 0 <= i < |d2| ==> IsDigit(d2[i])
    requires |x1| >= 1 && !IsDigit(x1[0]) && |x2| >= 1 && !IsDigit(x2[0])
    requires d1 + x1 == d2 + x2
    ensures d1 == d2 && x1 == x2
  {
    FirstNonDigit(d1, x1);
    FirstNonDigit(d2, x2);
    assert d1 == (d1 + x1)[..|d1|] && d2 == (d2 + x2)[..|d2|];
    assert x1 == (d1 + x1)[|d1|..] && x2 == (d2 + x2)[|d2|..];
  }

  /** In a run of digits followed by a non-digit, the first non-digit sits right after the run. */
  lemma FirstNonDigit(d: string, x: string)
    requires forall i :: 0 <= i < |d| ==> IsDigit(d[i])
    requires |x| >= 1 && !IsDigit(x[0])
    ensures forall i :: 0 <= i < |d| ==> IsDigit((d + x)[i])
    ensures !IsDigit((d + x)[|d|])
  {
  }

  /** The text after the hours, as a suffix of the whole. */
  lemma RemainingTextParts(hm: Time.HoursMinutes)
    ensures RemainingText(hm) == NatToString(hm.hours) + ("j " + (NatToString(hm.minutes) + "m tersisa"))
  {
    var h, m := NatToString(hm.hours), NatToString(hm.minutes);
    assert h + "j " + m + "m tersisa" == h + ("j " + (m + "m tersisa"));
  }

  /** Different remaining times are shown as different texts. */
  lemma RemainingTextInjective(a: Time.HoursMinutes, b: Time.HoursMinutes)
    requires RemainingText(a) == RemainingText(b)
    ensures a == b
  {
    var ha, hb := NatToString(a.hours), NatToString(b.hours);
    var ma, mb := NatToString(a.minutes) + "m tersisa", NatToString(b.minutes) + "m tersisa";
    RemainingTextParts(a);
    RemainingTextParts(b);
    DigitRunSplit(ha, "j " + ma, hb, "j " + mb);
    NatToStringInjective(a.hours, b.hours);
    assert ma == ("j " + ma)[2..] && mb == ("j " + mb)[2..];
    DigitRunSplit(NatToString(a.minutes), "m tersisa", NatToString(b.minutes), "m tersisa");
    NatToStringInjective(a.minutes, b.minutes);
  }

  /** Two deadlines still in the future that read the same have the same whole hours and minutes left. */
  lemma TimeRemainingDeterminesTimeLeft(e1: int, n1: int, e2: int, n2: int)
    requires e1 - n1 > 0 && e2 - n2 > 0
    requires TimeRemaining(e1, n1) == TimeRemaining(e2, n2)
    ensures Remaining(e1, n1) == Remaining(e2, n2)
  {
    RemainingTextInjective(Remaining(e1, n1).value, Remaining(e2, n2).value);
  }

  /** The payment deadline line, shown only for an order awaiting payment. */
  function DeadlineShown(o: Order, now: int): (text: Option<string>)
    ensures text.Some? <==> o.status == PendingPayment
    ensures text == Some(NoDeadlineText) <==> o.status == PendingPayment && o.expiresAt.None?
    ensures o.status == PendingPayment && o.expiresAt.Some? ==> text == Some(TimeRemaining(o.expiresAt.value, now))
  {
    if o.status != PendingPayment then None
    else if o.expiresAt.None? then Some(NoDeadlineText)
    else
      var text := TimeRemaining(o.expiresAt.value, now);
      assert text[0] != NoDeadlineText[0];
      Some(text)
  }

  /** getStatusText: the badge label; a status it does not name is shown as it is. */
  function StatusText(status: string): (text: string)
    ensures status !in KnownStatuses ==> text == status
    ensures status in KnownStatuses ==> text != status && text != ""
  {
    match status
    case "pending" => "Menunggu Pembayaran"
    case "paid" => "Dibayar"
    case "cancelled" => "Dibatalkan"
    case "expired" => "Kedaluwarsa"
    case "refunded" => "Dikembalikan"
    case _ => status
  }

  /** The panel's badge and the e-mail service's status text use the same table. */
  lemma StatusTextAgreesWithEmail(status: string)
    ensures StatusText(status) == EmailNotifications.FormatOrderStatus(status)
  {
  }

  /** The order's own status `pending_payment` is not in the table and is shown raw. */
  lemma PendingPaymentShownRaw()
    ensures StatusText(OrderStatusName(PendingPayment)) == "pending_payment"
    ensures StatusText("pending") == OrderManagement.OrderStatusLabel("pending_payment")
  {
  }

  const PendingColor := "bg-yellow-100 text-yellow-800 border-yellow-200"
  const PaidColor := "bg-green-100 text-green-800 border-green-200"
  const ClosedColor := "bg-red-100 text-red-800 border-red-200"
  const RefundedColor := "bg-blue-100 text-blue-800 border-blue-200"
  const DefaultColor := "bg-gray-100 text-gray-800 border-gray-200"

  /** getStatusColor: the badge classes; cancelled and expired orders share the red classes, anything unnamed is gray. */
  function StatusColor(status: string): (classes: string)
    ensures status in {"cancelled", "expired"} ==> classes == ClosedColor
    ensures classes == DefaultColor <==> status !in KnownStatuses
  {
    match status
    case "pending" => PendingColor
    case "paid" => PaidColor
    case "cancelled" => ClosedColor
    case "expired" => ClosedColor
    case "refunded" => RefundedColor
    case _ => DefaultColor
  }

  datatype Glyph = Clock | CheckCircle | XCircle | AlertCircle

  /** An icon of the status header: its shape and its colour class. */
  datatype Icon = Icon(glyph: Glyph, color: string)

  /** getStatusIcon: the header icon; unnamed statuses get a gray clock. */
  function StatusIcon(status: string): (icon: Icon)
    ensures icon.glyph == Clock <==> status !in {"paid", "cancelled", "expired", "refunded"}
    ensures icon == Icon(Clock, "text-gray-500") <==> status !in KnownStatuses
  {
    match status
    case "pending" => Icon(Clock, "text-yellow-500")
    case "paid" => Icon(CheckCircle, "text-green-500")
    case "cancelled" => Icon(XCircle, "text-red-500")
    case "expired" => Icon(XCircle, "text-red-500")
    case "refunded" => Icon(AlertCircle, "text-blue-500")
    case _ => Icon(Clock, "text-gray-500")
  }

  /** The icon and the badge colour group the statuses alike: two statuses share one exactly when they share the other. */
  lemma IconAndColorGroupAlike(a: string, b: string)
    ensures StatusIcon(a) == StatusIcon(b) <==> StatusColor(a) == StatusColor(b)
  {
  }

  /** The order panel's state: the order shown, the error line and the action in progress. */
  class OrderPanel {
    const orderId: string
    var order: Option<Order>
    var loading: bool
    var error: Option<string>
    var actionLoading: Option<string>

    constructor (orderId: string)
      ensures this.orderId == orderId
      ensures order == None && loading && error == None && actionLoading == None
    {
      this.orderId := orderId;
      order := None;
      loading := true;
      error := None;
      actionLoading := None;
    }

    /** loadOrderDetails: shows the stored order, or the not-found error and keeps what was shown. */
    method LoadOrderDetails(db: Db)
      modifies this`order, this`error, this`loading
      ensures orderId in db.orders ==> order == Some(db.orders[orderId]) && error == None
      ensures orderId !in db.orders ==> order == old(order) && error == Some(NotFoundText)
      ensures !loading
    {
      loading := true;
      if orderId !in db.orders {
        error := Some(NotFoundText);
      } else {
        order := Some(db.orders[orderId]);
        error := None;
      }
      loading := false;
    }

    /**
     * handleCancelOrder: acts only when the order shown awaits payment. It then asks the order
     * manager to cancel, reloads on success and shows the failure text when the manager refuses.
     */
    method HandleCancelOrder(db: Db, now: int)
      modifies this`order, this`error, this`loading, this`actionLoading, db`orders
      ensures old(order).None? || old(order).value.status != PendingPayment ==>
        db.orders == old(db.orders) && order == old(order) && error == old(error)
        && loading == old(loading) && actionLoading == old(actionLoading)
      ensures old(order).Some? && old(order).value.status == PendingPayment ==>
        actionLoading == None
        && (OrderManagement.CancelRefusal(old(db.orders), orderId).Some? ==>
              db.orders == old(db.orders) && order == old(order) && error == Some(CancelFailedText))
        && (OrderManagement.CancelRefusal(old(db.orders), orderId).None? ==>
              db.orders == old(db.orders)[orderId := old(db.orders)[orderId].(status := Cancelled)]
              && order == Some(db.orders[orderId]) && order.value.status == Cancelled && error == None)
    {
      if order.None? || order.value.status != PendingPayment {
        return;
      }
      actionLoading := Some(CancelAction);
      var r := OrderManagement.CancelOrder(db, orderId, now);
      if r.Ok? {
        LoadOrderDetails(db);
      } else {
        error := Some(CancelFailedText);
      }
      actionLoading := None;
    }
  }
}
