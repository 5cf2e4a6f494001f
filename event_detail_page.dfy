/** The event page's ticket picker: clamped quantities per ticket type, its totals, and adding the picks to the cart. */
module EventDetailPage {
  import opened Wrappers
  import opened Storefront
  import CartStore

  /** The first ticket type of the event with that id. */
  function FindType(types: seq<TicketTypeInfo>, id: string): (r: Option<TicketTypeInfo>)
    ensures r.Some? ==> r.value in types && r.value.id == id
    ensures r.None? ==> forall i :: 0 <= i < |types| ==> types[i].id != id
  {
    if types == [] then None else if types[0].id == id then Some(types[0]) else FindType(types[1..], id)
  }

  /** `Math.min(maxQuantity, available)` */
  function MaxAllowed(t: TicketTypeInfo): int
  {
    if t.maxQuantity <= t.available then t.maxQuantity else t.available
  }

  /** `Math.max(0, Math.min(quantity, maxAllowed))` */
  function Clamp(quantity: int, t: TicketTypeInfo): (q: int)
    ensures 0 <= q
    ensures MaxAllowed(t) >= 0 ==> q <= MaxAllowed(t)
    ensures MaxAllowed(t) < 0 ==> q == 0
    ensures 0 <= quantity <= MaxAllowed(t) ==> q == quantity
  {
    var m := if quantity <= MaxAllowed(t) then quantity else MaxAllowed(t);
    if m < 0 then 0 else m
  }

  lemma ClampIsIdempotent(quantity: int, t: TicketTypeInfo)
    ensures Clamp(Clamp(quantity, t), t) == Clamp(quantity, t)
  {
  }

  /** One key of `selectedTickets`, in the order its key was first set. */
  datatype Entry = Entry(ticketTypeId: string, quantity: int)

  predicate HasEntry(sel: seq<Entry>, id: string)
  {
    exists i :: 0 <= i < |sel| && sel[i].ticketTypeId == id
  }

  predicate DistinctEntries(sel: seq<Entry>)
  {
    forall i, j :: 0 <= i < j < |sel| ==> sel[i].ticketTypeId != sel[j].ticketTypeId
  }

  /** `{ ...prev, [id]: quantity }`: overwrite an existing key in place, or add it at the end. */
  function WithEntry(sel: seq<Entry>, id: string, quantity: int): (r: seq<Entry>)
    ensures HasEntry(sel, id) ==> |r| == |sel|
    ensures !HasEntry(sel, id) ==> r == sel + [Entry(id, quantity)]
    ensures forall i :: 0 <= i < |sel| ==>
      r[i] == if sel[i].ticketTypeId == id then Entry(id, quantity) else sel[i]
  {
    if HasEntry(sel, id) then
      seq(|sel|, i requires 0 <= i < |sel| => if sel[i].ticketTypeId == id then Entry(id, quantity) else sel[i])
    else sel + [Entry(id, quantity)]
  }

  /** Every key is a ticket type of the event and holds an allowed quantity. */
  predicate WellPicked(types: seq<TicketTypeInfo>, sel: seq<Entry>)
  {
    DistinctEntries(sel)
    && forall i :: 0 <= i < |sel| ==>
      FindType(types, sel[i].ticketTypeId).Some? && 0 <= sel[i].quantity
      && (MaxAllowed(FindType(types, sel[i].ticketTypeId).value) >= 0 ==>
            sel[i].quantity <= MaxAllowed(FindType(types, sel[i].ticketTypeId).value))
  }

  /** handleTicketQuantityChange on the picks: an unknown type changes nothing, a known one only its own key. */
  function QuantityChanged(types: seq<TicketTypeInfo>, sel: seq<Entry>, id: string, quantity: int): (r: seq<Entry>)
    ensures FindType(types, id).None? ==> r == sel
    ensures FindType(types, id).Some? ==> r == WithEntry(sel, id, Clamp(quantity, FindType(types, id).value))
  {
    match FindType(types, id)
    case None => sel
    case Some(t) => WithEntry(sel, id, Clamp(quantity, t))
  }

  lemma QuantityChangeKeepsPicksWell(types: seq<TicketTypeInfo>, sel: seq<Entry>, id: string, quantity: int)
    requires WellPicked(types, sel)
    ensures WellPicked(types, QuantityChanged(types, sel, id, quantity))
  {
    var r := QuantityChanged(types, sel, id, quantity);
    if FindType(types, id).Some? && !HasEntry(sel, id) {
      assert r[|sel|] == Entry(id, Clamp(quantity, FindType(types, id).value));
      assert forall i :: 0 <= i < |sel| ==> r[i] == sel[i];
    }
  }

  /** `totalSelectedTickets` */
  function TotalSelected(sel: seq<Entry>): int
  {
    if sel == [] then 0 else TotalSelected(sel[..|sel| - 1]) + sel[|sel| - 1].quantity
  }

  /** `totalPrice`: price times quantity over the keys whose type is known. */
  function TotalPrice(types: seq<TicketTypeInfo>, sel: seq<Entry>): int
  {
    if sel == [] then 0
    else
      var e := sel[|sel| - 1];
      TotalPrice(types, sel[..|sel| - 1]) + (match FindType(types, e.ticketTypeId) case Some(t) => t.price * e.quantity case None => 0)
  }

  /** The cart line one entry contributes: none unless its quantity is positive and its type known. */
  function EntryLine(eventId: string, types: seq<TicketTypeInfo>, e: Entry): (r: seq<CartItem>)
    ensures |r| <= 1
    ensures |r| == 1 <==> e.quantity > 0 && FindType(types, e.ticketTypeId).Some?
    ensures |r| == 1 ==> r[0] == CartItem(eventId, e.ticketTypeId, e.quantity, FindType(types, e.ticketTypeId).value.price)
  {
    if e.quantity > 0 && FindType(types, e.ticketTypeId).Some?
    then [CartItem(eventId, e.ticketTypeId, e.quantity, FindType(types, e.ticketTypeId).value.price)] else []
  }

  /** The cart lines handleAddToCart adds, in entry order. */
  function Additions(eventId: string, types: seq<TicketTypeInfo>, sel: seq<Entry>): seq<CartItem>
  {
    if sel == [] then [] else Additions(eventId, types, sel[..|sel| - 1]) + EntryLine(eventId, types, sel[|sel| - 1])
  }

  /** Only positive quantities of known types are added, each at its type's price. */
  lemma {:induction false} AdditionsAreKnownPositiveLines(eventId: string, types: seq<TicketTypeInfo>, sel: seq<Entry>, k: nat)
    requires k < |Additions(eventId, types, sel)|
    ensures var line := Additions(eventId, types, sel)[k];
      line.eventId == eventId && line.quantity > 0
      && FindType(types, line.ticketTypeId).Some? && line.price == FindType(types, line.ticketTypeId).value.price
  {
    var front := Additions(eventId, types, sel[..|sel| - 1]);
    if k < |front| {
      AdditionsAreKnownPositiveLines(eventId, types, sel[..|sel| - 1], k);
    }
  }

  /** With non-negative picks, the displayed ticket count is the quantity of what gets added. */
  lemma {:induction false} SelectedMatchesAdditions(eventId: string, types: seq<TicketTypeInfo>, sel: seq<Entry>)
    requires forall i :: 0 <= i < |sel| ==> sel[i].quantity >= 0 && FindType(types, sel[i].ticketTypeId).Some?
    ensures TotalSelected(sel) == TotalQuantity(Additions(eventId, types, sel))
  {
    if sel != [] {
      var front := sel[..|sel| - 1];
      var e := sel[|sel| - 1];
      SelectedMatchesAdditions(eventId, types, front);
      var a := Additions(eventId, types, front);
      if e.quantity > 0 {
        SubtotalAppend(a, EntryLine(eventId, types, e)[0]);
      } else {
        assert Additions(eventId, types, sel) == a;
      }
    }
  }

  /** With non-negative picks, the displayed price is the subtotal of what gets added. */
  lemma {:induction false} PriceMatchesAdditions(eventId: string, types: seq<TicketTypeInfo>, sel: seq<Entry>)
    requires forall i :: 0 <= i < |sel| ==> sel[i].quantity >= 0
    ensures TotalPrice(types, sel) == Subtotal(Additions(eventId, types, sel))
  {
    if sel != [] {
      var front := sel[..|sel| - 1];
      var e := sel[|sel| - 1];
      PriceMatchesAdditions(eventId, types, front);
      var a := Additions(eventId, types, front);
      var line := EntryLine(eventId, types, e);
      assert Additions(eventId, types, sel) == a + line;
      if |line| == 1 {
        SubtotalAppend(a, line[0]);
        assert line == [line[0]];
      } else {
        assert line == [];
        assert a + line == a;
      }
    }
  }

  /** The cart after adding lines one at a time with addToCart. */
  function AddAll(cart: seq<CartItem>, lines: seq<CartItem>): seq<CartItem>
  {
    if lines == [] then cart else CartStore.AddedToCart(AddAll(cart, lines[..|lines| - 1]), lines[|lines| - 1])
  }

  lemma AdditionsStep(eventId: string, types: seq<TicketTypeInfo>, sel: seq<Entry>, k: nat)
    requires k < |sel|
    ensures Additions(eventId, types, sel[..k + 1]) == Additions(eventId, types, sel[..k]) + EntryLine(eventId, types, sel[k])
  {
    assert sel[..k + 1][..k] == sel[..k];
  }

  lemma AddAllStep(cart: seq<CartItem>, lines: seq<CartItem>, more: seq<CartItem>)
    requires |more| <= 1
    ensures |more| == 0 ==> AddAll(cart, lines + more) == AddAll(cart, lines)
    ensures |more| == 1 ==> AddAll(cart, lines + more) == CartStore.AddedToCart(AddAll(cart, lines), more[0])
  {
    if |more| == 0 {
      assert lines + more == lines;
    } else {
      assert (lines + more)[..|lines + more| - 1] == lines;
    }
  }

  /** Adding lines one by one keeps the cart's keys distinct. */
  lemma {:induction false} AddAllKeepsKeysDistinct(cart: seq<CartItem>, lines: seq<CartItem>)
    requires CartStore.DistinctKeys(cart)
    ensures CartStore.DistinctKeys(AddAll(cart, lines))
  {
    if lines != [] {
      AddAllKeepsKeysDistinct(cart, lines[..|lines| - 1]);
      CartStore.AddKeepsKeysDistinct(AddAll(cart, lines[..|lines| - 1]), lines[|lines| - 1]);
    }
  }

  /** Adding lines one by one adds their quantities. */
  lemma {:induction false} AddAllQuantity(cart: seq<CartItem>, lines: seq<CartItem>)
    requires CartStore.DistinctKeys(cart)
    ensures TotalQuantity(AddAll(cart, lines)) == TotalQuantity(cart) + TotalQuantity(lines)
  {
    if lines != [] {
      var front := lines[..|lines| - 1];
      var last := lines[|lines| - 1];
      AddAllQuantity(cart, front);
      AddAllKeepsKeysDistinct(cart, front);
      CartStore.AddRaisesQuantity(AddAll(cart, front), last);
      SubtotalAppend(front, last);
      assert front + [last] == lines;
    }
  }

  class EventView {
    var event: Event
    var selected: seq<Entry>

    predicate Valid()
      reads this
    {
      WellPicked(event.ticketTypes, selected)
    }

    constructor (event: Event)
      ensures this.event == event && selected == [] && Valid()
    {
      this.event := event;
      selected := [];
    }

    method HandleTicketQuantityChange(ticketTypeId: string, quantity: int)
      requires Valid()
      modifies this`selected
      ensures selected == QuantityChanged(event.ticketTypes, old(selected), ticketTypeId, quantity) && Valid()
    {
      QuantityChangeKeepsPicksWell(event.ticketTypes, selected, ticketTypeId, quantity);
      var t := FindType(event.ticketTypes, ticketTypeId);
      if t.None? {
        return;
      }
      var maxAllowed := MaxAllowed(t.value);
      var lower := if quantity <= maxAllowed then quantity else maxAllowed;
      var newQuantity := if lower < 0 then 0 else lower;
      selected := WithEntry(selected, ticketTypeId, newQuantity);
    }

    /** handleAddToCart: nothing without a signed-in user, otherwise addToCart for each addition, in entry order. */
    method HandleAddToCart(store: CartStore.Store)
      requires store.Valid()
      modifies store`cart
      ensures store.Valid()
      ensures old(store.user).None? ==> store.cart == old(store.cart)
      ensures old(store.user).Some? ==> store.cart == AddAll(old(store.cart), Additions(event.id, event.ticketTypes, selected))
    {
      if store.user.None? {
        return;
      }
      ghost var start := store.cart;
      var k := 0;
      while k < |selected|
        invariant 0 <= k <= |selected|
        invariant store.Valid()
        invariant store.cart == AddAll(start, Additions(event.id, event.ticketTypes, selected[..k]))
      {
        var e := selected[k];
        AdditionsStep(event.id, event.ticketTypes, selected, k);
        AddAllStep(start, Additions(event.id, event.ticketTypes, selected[..k]), EntryLine(event.id, event.ticketTypes, e));
        if e.quantity > 0 {
          var t := FindType(event.ticketTypes, e.ticketTypeId);
          if t.Some? {
            store.AddToCart(CartItem(event.id, e.ticketTypeId, e.quantity, t.value.price));
          }
        }
        k := k + 1;
      }
      assert selected[..|selected|] == selected;
    }
  }
}
