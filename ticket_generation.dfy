/** `TicketGenerator`: issuing the tickets of a paid order, validating, redeeming and voiding them. */
module TicketGeneration {
  import opened Wrappers
  import opened Entities
  import opened Tables
  import opened Issuance
  import opened Sequences
  import Time

  /** The random values one call of generateTicketData draws: the row id the insert assigns, and the code. */
  datatype Draw = Draw(id: string, code: string)

  /** The fields serialised into the QR link; the serialisation itself (JSON, base64) is a parameter. */
  datatype QrFields = QrFields(code: string, eventId: string, validFrom: int, validUntil: int)

  const VerifyBase := "https://pestapora.com/verify/"

  function QrCodeUrl(code: string, eventId: string, eventDate: int, encode: QrFields -> string): (url: string)
    ensures |url| >= |VerifyBase| && url[..|VerifyBase|] == VerifyBase
  {
    VerifyBase + code + "?data=" + encode(QrFields(code, eventId, eventDate, eventDate + Time.MsPerDay))
  }

  /** The row pushed for one unit of a paid order. */
  function ActiveTicket(orderId: string, o: Order, eventDate: int, d: Draw, encode: QrFields -> string, u: Unit): Ticket
  {
    var qr := QrCodeUrl(d.code, o.eventId, eventDate, encode);
    Ticket(d.id, orderId, o.userId, Some(o.eventId), u.ticketTypeId, None, Some(d.code), Some(qr), Some(qr),
           Active, None, None, None)
  }

  /** The tickets generateTicketsForOrder inserts: one per unit of the order's items, in item order. */
  function IssuedTickets(orderId: string, o: Order, items: seq<OrderItem>, eventDate: int,
                         draws: nat -> Draw, encode: QrFields -> string): (r: seq<Ticket>)
    ensures |r| == TotalUnits(ItemGroups(ItemsOf(items, orderId))) == |UnitsOf(ItemGroups(ItemsOf(items, orderId)))|
    ensures forall k :: 0 <= k < |r| ==>
      r[k].status == Active && r[k].orderId == orderId && r[k].userId == o.userId
      && r[k].eventId == Some(o.eventId) && r[k].qrPayload == r[k].qrCode
      && r[k].code == Some(draws(k).code) && r[k].qrCode.Some?
      && r[k].ticketTypeId == UnitsOf(ItemGroups(ItemsOf(items, orderId)))[k].ticketTypeId
  {
    var groups := ItemGroups(ItemsOf(items, orderId));
    var mk := (u: Unit, k: nat) => ActiveTicket(orderId, o, eventDate, draws(k), encode, u);
    var r := Expanded(groups, mk);
    assert forall k :: 0 <= k < |r| ==> r[k] == ActiveTicket(orderId, o, eventDate, draws(k), encode, UnitsOf(groups)[k]);
    r
  }

  /** Each issued ticket has the ticket type of one of the order's items. */
  lemma IssuedTicketTypesComeFromItems(orderId: string, o: Order, items: seq<OrderItem>, eventDate: int,
                                       draws: nat -> Draw, encode: QrFields -> string, k: nat)
    requires k < |IssuedTickets(orderId, o, items, eventDate, draws, encode)|
    ensures exists it :: it in items && it.orderId == orderId
                         && it.ticketTypeId == IssuedTickets(orderId, o, items, eventDate, draws, encode)[k].ticketTypeId
  {
    var own := ItemsOf(items, orderId);
    var groups := ItemGroups(own);
    UnitsComeFromGroups(groups, k);
    var j :| 0 <= j < |groups| && UnitsOf(groups)[k].ticketTypeId == groups[j].ticketTypeId
                               && UnitsOf(groups)[k].index < Count(groups[j].quantity);
    assert own[j] in own;
  }

  datatype GenerationError = OrderMissing | NotPaid | AlreadyGenerated | EventMissing

  /**
   * generateTicketsForOrder. The event is read by generateTicketData, so a missing event fails
   * only when at least one ticket is built.
   */
  method GenerateTicketsForOrder(db: Db, orderId: string, draws: nat -> Draw, encode: QrFields -> string)
    returns (r: Result<seq<Ticket>, GenerationError>)
    modifies db`tickets
    ensures orderId !in old(db.orders) ==> r == Err(OrderMissing)
    ensures orderId in old(db.orders) && old(db.orders)[orderId].status != Paid ==> r == Err(NotPaid)
    ensures (orderId in old(db.orders) && old(db.orders)[orderId].status == Paid
             && TicketsOf(old(db.tickets), orderId) != []) ==> r == Err(AlreadyGenerated)
    ensures r == Err(EventMissing) <==>
      orderId in old(db.orders) && old(db.orders)[orderId].status == Paid && TicketsOf(old(db.tickets), orderId) == []
      && TotalUnits(ItemGroups(ItemsOf(db.orderItems, orderId))) > 0 && old(db.orders)[orderId].eventId !in db.eventDates
    ensures (orderId in old(db.orders) && old(db.orders)[orderId].status == Paid && TicketsOf(old(db.tickets), orderId) == []
             && (TotalUnits(ItemGroups(ItemsOf(db.orderItems, orderId))) == 0 || old(db.orders)[orderId].eventId in db.eventDates))
            ==> r.Ok?
    ensures r.Err? ==> db.tickets == old(db.tickets)
    ensures r.Ok? ==> orderId in db.orders && db.orders[orderId].status == Paid && TicketsOf(old(db.tickets), orderId) == []
    ensures r.Ok? ==>
      var o := db.orders[orderId];
      var date := if o.eventId in db.eventDates then db.eventDates[o.eventId] else 0;
      r.value == IssuedTickets(orderId, o, db.orderItems, date, draws, encode) && db.tickets == old(db.tickets) + r.value
  {
    if orderId !in db.orders {
      return Err(OrderMissing);
    }
    var o := db.orders[orderId];
    if o.status != Paid {
      return Err(NotPaid);
    }
    if TicketsOf(db.tickets, orderId) != [] {
      return Err(AlreadyGenerated);
    }
    var groups := ItemGroups(ItemsOf(db.orderItems, orderId));
    UnitsOfLength(groups);
    if TotalUnits(groups) > 0 && o.eventId !in db.eventDates {
      return Err(EventMissing);
    }
    var date := if o.eventId in db.eventDates then db.eventDates[o.eventId] else 0;
    var tickets := Expand(groups, (u: Unit, k: nat) => ActiveTicket(orderId, o, date, draws(k), encode, u));
    db.tickets := db.tickets + tickets;
    r := Ok(tickets);
  }

  const CodeAlphabet := "ABCDEFGHIJKLMNOPQRSTUVWXYZ0123456789"

  /** `Math.floor(r * 36)` for a draw 0 <= r < 1 picks a position in the alphabet. */
  function Pick(r: real): (i: nat)
    requires 0.0 <= r < 1.0
    ensures i < |CodeAlphabet|
  {
    (r * 36.0).Floor
  }

  lemma AlphabetIsUpperAlphanumeric(i: nat)
    requires i < |CodeAlphabet|
    ensures 'A' <= CodeAlphabet[i] <= 'Z' || '0' <= CodeAlphabet[i] <= '9'
  {
  }

  /** generateVerificationCode: twelve characters, the i-th picked by the i-th random draw. */
  method GenerateVerificationCode(random: nat -> real) returns (code: string)
    requires forall i :: 0.0 <= random(i) < 1.0
    ensures |code| == 12
    ensures forall i :: 0 <= i < 12 ==> code[i] == CodeAlphabet[Pick(random(i))]
    ensures forall i :: 0 <= i < 12 ==> 'A' <= code[i] <= 'Z' || '0' <= code[i] <= '9'
  {
    code := "";
    for i := 0 to 12
      invariant |code| == i
      invariant forall j :: 0 <= j < i ==> code[j] == CodeAlphabet[Pick(random(j))]
    {
      code := code + [CodeAlphabet[Pick(random(i))]];
    }
    forall i | 0 <= i < 12 ensures 'A' <= code[i] <= 'Z' || '0' <= code[i] <= '9' {
      AlphabetIsUpperAlphanumeric(Pick(random(i)));
    }
  }

  /** How many tickets carry the code. */
  function CodeCount(tickets: seq<Ticket>, code: string): nat
  {
    if tickets == [] then 0 else (if tickets[0].code == Some(code) then 1 else 0) + CodeCount(tickets[1..], code)
  }

  /** The position of the first ticket carrying the code. */
  function CodeIndex(tickets: seq<Ticket>, code: string): (i: nat)
    requires CodeCount(tickets, code) > 0
    ensures i < |tickets| && tickets[i].code == Some(code)
    ensures forall j :: 0 <= j < i ==> tickets[j].code != Some(code)
  {
    if tickets[0].code == Some(code) then 0 else 1 + CodeIndex(tickets[1..], code)
  }

  predicate SameCodes(a: seq<Ticket>, b: seq<Ticket>)
  {
    |a| == |b| && forall i :: 0 <= i < |a| ==> a[i].code == b[i].code
  }

  /** Lookups by code only see the code column. */
  lemma {:induction false} SameCodesSameLookup(a: seq<Ticket>, b: seq<Ticket>, code: string)
    requires SameCodes(a, b)
    ensures CodeCount(a, code) == CodeCount(b, code)
    ensures CodeCount(a, code) > 0 ==> CodeIndex(a, code) == CodeIndex(b, code)
    decreases |a|
  {
    if a != [] {
      assert SameCodes(a[1..], b[1..]);
      SameCodesSameLookup(a[1..], b[1..], code);
    }
  }

  /** The tables validateTicket joins. */
  datatype Lookup = Lookup(tickets: seq<Ticket>, eventDates: map<string, int>, ticketTypes: map<string, TicketType>, orders: map<string, Order>)

  function LookupOf(db: Db): Lookup
    reads db
  {
    Lookup(db.tickets, db.eventDates, db.ticketTypes, db.orders)
  }

  datatype ValidationMessage =
    | NotFoundOrInvalid | AlreadyUsed | IsVoid | EventPassed | ValidationError | TicketIsValid | SuccessfullyUsed

  datatype ValidationResult = ValidationResult(valid: bool, ticket: Option<Ticket>, message: ValidationMessage, usedAt: Option<int>)

  /** The event of a ticket is joined and still within 24 hours of its start. */
  predicate EventOpen(look: Lookup, t: Ticket, now: int)
  {
    t.eventId.Some? && t.eventId.value in look.eventDates && now <= look.eventDates[t.eventId.value] + Time.MsPerDay
  }

  /**
   * validateTicket: a single ticket with the code must exist; then used, void and the 24-hour
   * window are checked in that order. Missing joins fail where the code first reads them.
   */
  function ValidateTicket(look: Lookup, code: string, now: int): (r: ValidationResult)
    ensures r.valid <==> CodeCount(look.tickets, code) == 1
                         && var t := look.tickets[CodeIndex(look.tickets, code)];
                            t.status !in {Used, Void} && EventOpen(look, t, now)
                            && t.ticketTypeId in look.ticketTypes && t.orderId in look.orders
    ensures r.valid ==> r.ticket == Some(look.tickets[CodeIndex(look.tickets, code)]) && r.message == TicketIsValid
    ensures !r.valid ==> r.ticket.None?
    ensures r.message == AlreadyUsed <==> CodeCount(look.tickets, code) == 1 && look.tickets[CodeIndex(look.tickets, code)].status == Used
    ensures r.message == AlreadyUsed ==> r.usedAt == look.tickets[CodeIndex(look.tickets, code)].usedAt
    ensures r.message == IsVoid <==> CodeCount(look.tickets, code) == 1 && look.tickets[CodeIndex(look.tickets, code)].status == Void
    ensures r.message == NotFoundOrInvalid <==> CodeCount(look.tickets, code) != 1
    ensures r.message == EventPassed <==>
      CodeCount(look.tickets, code) == 1
      && var t := look.tickets[CodeIndex(look.tickets, code)];
         t.status !in {Used, Void} && t.eventId.Some? && t.eventId.value in look.eventDates
         && now > look.eventDates[t.eventId.value] + Time.MsPerDay
    ensures r.message == ValidationError <==>
      CodeCount(look.tickets, code) == 1
      && var t := look.tickets[CodeIndex(look.tickets, code)];
         t.status !in {Used, Void}
         && (t.eventId.None? || t.eventId.value !in look.eventDates
             || (EventOpen(look, t, now) && (t.ticketTypeId !in look.ticketTypes || t.orderId !in look.orders)))
  {
    if CodeCount(look.tickets, code) != 1 then ValidationResult(false, None, NotFoundOrInvalid, None)
    else
      var t := look.tickets[CodeIndex(look.tickets, code)];
      if t.status == Used then ValidationResult(false, None, AlreadyUsed, t.usedAt)
      else if t.status == Void then ValidationResult(false, None, IsVoid, None)
      else if t.eventId.None? || t.eventId.value !in look.eventDates then ValidationResult(false, None, ValidationError, None)
      else if now > look.eventDates[t.eventId.value] + Time.MsPerDay then ValidationResult(false, None, EventPassed, None)
      else if t.ticketTypeId !in look.ticketTypes || t.orderId !in look.orders then ValidationResult(false, None, ValidationError, None)
      else ValidationResult(true, Some(t), TicketIsValid, None)
  }

  /** `gateId || null`: an empty gate id is stored as null. */
  function StoredGate(gateId: Option<string>): (g: Option<string>)
    ensures g.Some? <==> gateId.Some? && gateId.value != ""
    ensures g.Some? ==> g == gateId
  {
    if gateId == Some("") then None else gateId
  }

  /** The update of useTicket: every ticket with the code becomes used, stamped with the time and gate. */
  function Redeemed(tickets: seq<Ticket>, code: string, gateId: Option<string>, now: int): (r: seq<Ticket>)
    ensures SameCodes(tickets, r)
    ensures forall i :: 0 <= i < |r| && tickets[i].code == Some(code) ==>
      r[i] == tickets[i].(status := Used, usedAt := Some(now), usedGateId := StoredGate(gateId))
    ensures forall i :: 0 <= i < |r| && tickets[i].code != Some(code) ==> r[i] == tickets[i]
  {
    seq(|tickets|, i requires 0 <= i < |tickets| =>
      if tickets[i].code == Some(code) then tickets[i].(status := Used, usedAt := Some(now), usedGateId := StoredGate(gateId))
      else tickets[i])
  }

  /** useTicket: an invalid validation is returned as it is and nothing is written. */
  method UseTicket(db: Db, code: string, gateId: Option<string>, now: int) returns (r: ValidationResult)
    modifies db`tickets
    ensures var v := ValidateTicket(old(LookupOf(db)), code, now);
            if v.valid then
              db.tickets == Redeemed(old(db.tickets), code, gateId, now)
              && r == ValidationResult(true, Some(v.ticket.value.(status := Used)), SuccessfullyUsed, Some(now))
            else
              db.tickets == old(db.tickets) && r == v
  {
    var v := ValidateTicket(LookupOf(db), code, now);
    if !v.valid || v.ticket.None? {
      return v;
    }
    db.tickets := Redeemed(db.tickets, code, gateId, now);
    r := ValidationResult(true, Some(v.ticket.value.(status := Used)), SuccessfullyUsed, Some(now));
  }

  /** A redeemed code is refused afterwards as already used, with the first redemption's time. */
  lemma RedeemAtMostOnce(look: Lookup, code: string, gateId: Option<string>, now: int, later: int)
    requires ValidateTicket(look, code, now).valid
    ensures ValidateTicket(look.(tickets := Redeemed(look.tickets, code, gateId, now)), code, later)
         == ValidationResult(false, None, AlreadyUsed, Some(now))
  {
    var after := Redeemed(look.tickets, code, gateId, now);
    SameCodesSameLookup(look.tickets, after, code);
  }

  /** voidTickets: every ticket of the order becomes void, used ones included. */
  function Voided(tickets: seq<Ticket>, orderId: string): (r: seq<Ticket>)
    ensures SameCodes(tickets, r)
    ensures forall i :: 0 <= i < |r| && tickets[i].orderId == orderId ==> r[i] == tickets[i].(status := Void)
    ensures forall i :: 0 <= i < |r| && tickets[i].orderId != orderId ==> r[i] == tickets[i]
  {
    seq(|tickets|, i requires 0 <= i < |tickets| =>
      if tickets[i].orderId == orderId then tickets[i].(status := Void) else tickets[i])
  }

  method VoidTickets(db: Db, orderId: string)
    modifies db`tickets
    ensures db.tickets == Voided(old(db.tickets), orderId)
  {
    db.tickets := Voided(db.tickets, orderId);
  }

  /** After voiding, a code of the order's tickets is refused as void, even when it had been used. */
  lemma VoidedTicketsAreRefused(look: Lookup, orderId: string, code: string, now: int)
    requires CodeCount(look.tickets, code) == 1
    requires look.tickets[CodeIndex(look.tickets, code)].orderId == orderId
    ensures ValidateTicket(look.(tickets := Voided(look.tickets, orderId)), code, now).message == IsVoid
  {
    SameCodesSameLookup(look.tickets, Voided(look.tickets, orderId), code);
  }

  datatype TicketStats = TicketStats(total: nat, active: nat, used: nat, void: nat)

  /** `t => t.status === s` */
  function TicketHasStatus(s: TicketStatus): Ticket -> bool
  {
    (t: Ticket) => t.status == s
  }

  /** `t => t.event_id === eventId`; rows without an event id never match. */
  function TicketOfEvent(eventId: string): Ticket -> bool
  {
    (t: Ticket) => t.eventId == Some(eventId)
  }

  /** The rows of one event, each as often as it occurs, in table order. */
  function TicketsOfEvent(rows: seq<Ticket>, eventId: string): (r: seq<Ticket>)
    ensures |r| <= |rows|
    ensures forall t {:trigger t in r} :: t in r <==> t in rows && t.eventId == Some(eventId)
  {
    Filter(rows, TicketOfEvent(eventId))
  }

  lemma {:induction false} TicketStatusPartition(rows: seq<Ticket>)
    ensures CountOf(rows, TicketHasStatus(Issued)) + CountOf(rows, TicketHasStatus(Active)) + CountOf(rows, TicketHasStatus(Valid))
          + CountOf(rows, TicketHasStatus(Used)) + CountOf(rows, TicketHasStatus(Void)) == |rows|
  {
    if rows != [] {
      TicketStatusPartition(rows[..|rows| - 1]);
    }
  }

  /** getTicketStats: active + used + void falls short of the total by the issued and valid rows. */
  function GetTicketStats(rows: seq<Ticket>, eventId: string): (st: TicketStats)
    ensures var data := TicketsOfEvent(rows, eventId);
            st.total == |data|
            && st.active == CountOf(data, TicketHasStatus(Active)) && st.used == CountOf(data, TicketHasStatus(Used))
            && st.void == CountOf(data, TicketHasStatus(Void))
            && st.total - (st.active + st.used + st.void) == CountOf(data, TicketHasStatus(Issued)) + CountOf(data, TicketHasStatus(Valid))
  {
    var data := TicketsOfEvent(rows, eventId);
    TicketStatusPartition(data);
    TicketStats(|data|, CountOf(data, TicketHasStatus(Active)), CountOf(data, TicketHasStatus(Used)), CountOf(data, TicketHasStatus(Void)))
  }

  /** formatTicketStatus */
  function FormatTicketStatus(status: string): (text: string)
    ensures status !in {"active", "used", "void", "issued"} ==> text == status
  {
    if status == "active" then "Aktif"
    else if status == "used" then "Sudah Digunakan"
    else if status == "void" then "Dibatalkan"
    else if status == "issued" then "Diterbitkan"
    else status
  }

  /** getTicketStatusColor */
  function TicketStatusColor(status: string): (color: string)
    ensures status !in {"active", "used", "void", "issued"} ==> color == "gray"
  {
    if status == "active" then "green"
    else if status == "used" then "blue"
    else if status == "void" then "red"
    else if status == "issued" then "yellow"
    else "gray"
  }

  /** Tickets issued as `valid` by the checkout writers are shown untranslated and gray. */
  lemma ValidTicketsShownRaw()
    ensures FormatTicketStatus(TicketStatusName(Valid)) == "valid"
    ensures TicketStatusColor(TicketStatusName(Valid)) == "gray"
  {
  }

  /** isTicketValid */
  function IsTicketValid(status: string, eventDate: int, now: int): (b: bool)
    ensures b ==> status == "active"
    ensures status == "active" ==> (b <==> now <= eventDate + Time.MsPerDay)
  {
    status == "active" && now <= eventDate + Time.MsPerDay
  }

  /**
   * For an active ticket whose joins exist, validateTicket and isTicketValid draw the same boundary;
   * a `valid` or `issued` ticket passes validateTicket but never isTicketValid.
   */
  lemma ValidityBoundaryAgrees(look: Lookup, code: string, now: int)
    requires CodeCount(look.tickets, code) == 1
    requires var t := look.tickets[CodeIndex(look.tickets, code)];
             t.eventId.Some? && t.eventId.value in look.eventDates
             && t.ticketTypeId in look.ticketTypes && t.orderId in look.orders
    ensures var t := look.tickets[CodeIndex(look.tickets, code)];
            var date := look.eventDates[t.eventId.value];
            (t.status == Active ==> (ValidateTicket(look, code, now).valid <==> IsTicketValid(TicketStatusName(t.status), date, now)))
            && (t.status in {Valid, Issued} ==> !IsTicketValid(TicketStatusName(t.status), date, now)
                                                && (ValidateTicket(look, code, now).valid <==> now <= date + Time.MsPerDay))
  {
  }
}
