/** The client store: cart lines keyed by (event, ticket type), selected seats, event filtering and the mock checkout. */
module CartStore {
  import opened Wrappers
  import opened Entities
  import opened Storefront
  import opened Sequences
  import Text

  /** A cart line's key matches `(eventId, ticketTypeId)`. */
  predicate HasKey(line: CartItem, eventId: string, ticketTypeId: string)
  {
    line.eventId == eventId && line.ticketTypeId == ticketTypeId
  }

  predicate InCart(cart: seq<CartItem>, eventId: string, ticketTypeId: string)
  {
    exists i :: 0 <= i < |cart| && HasKey(cart[i], eventId, ticketTypeId)
  }

  /** No two cart lines share a key. */
  predicate DistinctKeys(cart: seq<CartItem>)
  {
    forall i, j :: 0 <= i < j < |cart| ==> !HasKey(cart[j], cart[i].eventId, cart[i].ticketTypeId)
  }

  /** The number of lines carrying the key. */
  function KeyCount(cart: seq<CartItem>, eventId: string, ticketTypeId: string): nat
  {
    if cart == [] then 0
    else KeyCount(cart[..|cart| - 1], eventId, ticketTypeId) + (if HasKey(cart[|cart| - 1], eventId, ticketTypeId) then 1 else 0)
  }

  /** `cart.map(...)` adding `quantity` to every line with the key. */
  function Bumped(cart: seq<CartItem>, eventId: string, ticketTypeId: string, quantity: int): (r: seq<CartItem>)
    ensures |r| == |cart|
    ensures forall i :: 0 <= i < |cart| ==>
      r[i].eventId == cart[i].eventId && r[i].ticketTypeId == cart[i].ticketTypeId && r[i].price == cart[i].price
  {
    seq(|cart|, i requires 0 <= i < |cart| =>
      if HasKey(cart[i], eventId, ticketTypeId) then cart[i].(quantity := cart[i].quantity + quantity) else cart[i])
  }

  /** addToCart: merge into the line with the same key, keeping its price, or append the item. */
  function AddedToCart(cart: seq<CartItem>, item: CartItem): (r: seq<CartItem>)
    ensures InCart(r, item.eventId, item.ticketTypeId)
    ensures |cart| <= |r| <= |cart| + 1
    ensures InCart(cart, item.eventId, item.ticketTypeId) ==> |r| == |cart|
  {
    if InCart(cart, item.eventId, item.ticketTypeId) then
      var r := Bumped(cart, item.eventId, item.ticketTypeId, item.quantity);
      assert InCart(r, item.eventId, item.ticketTypeId) by {
        var i :| 0 <= i < |cart| && HasKey(cart[i], item.eventId, item.ticketTypeId);
        assert HasKey(r[i], item.eventId, item.ticketTypeId);
      }
      r
    else
      var r := cart + [item];
      assert HasKey(r[|cart|], item.eventId, item.ticketTypeId);
      r
  }

  lemma {:induction false} KeyCountOfDistinct(cart: seq<CartItem>, k: nat)
    requires DistinctKeys(cart) && k < |cart|
    ensures KeyCount(cart, cart[k].eventId, cart[k].ticketTypeId) == 1
  {
    var front := cart[..|cart| - 1];
    if k == |cart| - 1 {
      KeyCountAbsent(front, cart[k].eventId, cart[k].ticketTypeId);
    } else {
      KeyCountOfDistinct(front, k);
    }
  }

  lemma {:induction false} KeyCountAbsent(cart: seq<CartItem>, eventId: string, ticketTypeId: string)
    requires !InCart(cart, eventId, ticketTypeId)
    ensures KeyCount(cart, eventId, ticketTypeId) == 0
  {
    if cart != [] {
      var front := cart[..|cart| - 1];
      forall i | 0 <= i < |front|
        ensures !HasKey(front[i], eventId, ticketTypeId)
      {
        assert front[i] == cart[i];
      }
      KeyCountAbsent(front, eventId, ticketTypeId);
      assert !HasKey(cart[|cart| - 1], eventId, ticketTypeId);
    }
  }

  /** Bumping adds the quantity once per line that carries the key. */
  lemma {:induction false} BumpedQuantity(cart: seq<CartItem>, eventId: string, ticketTypeId: string, quantity: int)
    ensures TotalQuantity(Bumped(cart, eventId, ticketTypeId, quantity))
            == TotalQuantity(cart) + quantity * KeyCount(cart, eventId, ticketTypeId)
  {
    if cart != [] {
      var front := cart[..|cart| - 1];
      BumpedQuantity(front, eventId, ticketTypeId, quantity);
      assert Bumped(cart, eventId, ticketTypeId, quantity)[..|cart| - 1] == Bumped(front, eventId, ticketTypeId, quantity);
    }
  }

  /** In a cart without duplicate keys, addToCart raises the total quantity by exactly the item's quantity. */
  lemma AddRaisesQuantity(cart: seq<CartItem>, item: CartItem)
    requires DistinctKeys(cart)
    ensures TotalQuantity(AddedToCart(cart, item)) == TotalQuantity(cart) + item.quantity
  {
    if InCart(cart, item.eventId, item.ticketTypeId) {
      var k :| 0 <= k < |cart| && HasKey(cart[k], item.eventId, item.ticketTypeId);
      KeyCountOfDistinct(cart, k);
      BumpedQuantity(cart, item.eventId, item.ticketTypeId, item.quantity);
    } else {
      SubtotalAppend(cart, item);
    }
  }

  /** addToCart never introduces a duplicate key. */
  lemma AddKeepsKeysDistinct(cart: seq<CartItem>, item: CartItem)
    requires DistinctKeys(cart)
    ensures DistinctKeys(AddedToCart(cart, item))
  {
  }

  /** On a key already in the cart, the price of the existing line is kept. */
  lemma AddKeepsExistingPrice(cart: seq<CartItem>, item: CartItem, k: nat)
    requires k < |cart| && HasKey(cart[k], item.eventId, item.ticketTypeId)
    ensures AddedToCart(cart, item)[k] == cart[k].(quantity := cart[k].quantity + item.quantity)
  {
  }

  /** The test removeFromCart keeps a line by. */
  function OtherKey(eventId: string, ticketTypeId: string): CartItem -> bool
  {
    (x: CartItem) => !HasKey(x, eventId, ticketTypeId)
  }

  /** removeFromCart: drop every line with the key. */
  function RemovedFromCart(cart: seq<CartItem>, eventId: string, ticketTypeId: string): (r: seq<CartItem>)
    ensures !InCart(r, eventId, ticketTypeId)
    ensures forall x {:trigger x in r} :: x in r <==> x in cart && !HasKey(x, eventId, ticketTypeId)
  {
    var r := Filter(cart, OtherKey(eventId, ticketTypeId));
    forall i | 0 <= i < |r|
      ensures !HasKey(r[i], eventId, ticketTypeId)
    {
      assert r[i] in r;
    }
    r
  }

  /** Removing the key of a line just appended to a cart without that key gives the cart back. */
  lemma RemoveUndoesAdd(cart: seq<CartItem>, item: CartItem)
    requires !InCart(cart, item.eventId, item.ticketTypeId)
    ensures RemovedFromCart(AddedToCart(cart, item), item.eventId, item.ticketTypeId) == cart
  {
    var p := OtherKey(item.eventId, item.ticketTypeId);
    FilterConcat(cart, [item], p);
    FilterKeepsAll(cart, p);
  }

  /** Removal keeps the other lines in their order, whatever else the cart holds. */
  lemma RemoveKeepsOrder(a: seq<CartItem>, b: seq<CartItem>, eventId: string, ticketTypeId: string)
    ensures RemovedFromCart(a + b, eventId, ticketTypeId)
            == RemovedFromCart(a, eventId, ticketTypeId) + RemovedFromCart(b, eventId, ticketTypeId)
  {
    FilterConcat(a, b, OtherKey(eventId, ticketTypeId));
  }

  lemma RemoveKeepsKeysDistinct(cart: seq<CartItem>, eventId: string, ticketTypeId: string)
    requires DistinctKeys(cart)
    ensures DistinctKeys(RemovedFromCart(cart, eventId, ticketTypeId))
  {
    var rel := (a: CartItem, b: CartItem) => !HasKey(b, a.eventId, a.ticketTypeId);
    FilterKeepsPairwise(cart, OtherKey(eventId, ticketTypeId), rel);
    var r := RemovedFromCart(cart, eventId, ticketTypeId);
    assert forall i, j :: 0 <= i < j < |r| ==> rel(r[i], r[j]);
  }

  /** updateCartQuantity: a quantity of zero or less removes the key, otherwise matching lines get that quantity. */
  function CartQuantityUpdated(cart: seq<CartItem>, eventId: string, ticketTypeId: string, quantity: int): (r: seq<CartItem>)
    ensures quantity <= 0 ==> r == RemovedFromCart(cart, eventId, ticketTypeId)
    ensures quantity > 0 ==> |r| == |cart| && forall i :: 0 <= i < |cart| ==>
      r[i] == (if HasKey(cart[i], eventId, ticketTypeId) then cart[i].(quantity := quantity) else cart[i])
  {
    if quantity <= 0 then
      RemovedFromCart(cart, eventId, ticketTypeId)
    else
      seq(|cart|, i requires 0 <= i < |cart| =>
        if HasKey(cart[i], eventId, ticketTypeId) then cart[i].(quantity := quantity) else cart[i])
  }

  /** Updating a key that is not in the cart changes nothing. */
  lemma UpdateMissingKeyIsNoOp(cart: seq<CartItem>, eventId: string, ticketTypeId: string, quantity: int)
    requires !InCart(cart, eventId, ticketTypeId)
    ensures CartQuantityUpdated(cart, eventId, ticketTypeId, quantity) == cart
  {
    if quantity <= 0 {
      FilterKeepsAll(cart, OtherKey(eventId, ticketTypeId));
    }
  }

  lemma UpdateKeepsKeysDistinct(cart: seq<CartItem>, eventId: string, ticketTypeId: string, quantity: int)
    requires DistinctKeys(cart)
    ensures DistinctKeys(CartQuantityUpdated(cart, eventId, ticketTypeId, quantity))
  {
    if quantity <= 0 {
      RemoveKeepsKeysDistinct(cart, eventId, ticketTypeId);
    }
  }

  predicate HasSeat(seats: seq<Seat>, seatId: string)
  {
    exists i :: 0 <= i < |seats| && seats[i].id == seatId
  }

  predicate DistinctSeatIds(seats: seq<Seat>)
  {
    forall i, j :: 0 <= i < j < |seats| ==> seats[i].id != seats[j].id
  }

  /** selectSeat: append the seat, marked selected, only when its id is not selected yet. */
  function SeatSelected(seats: seq<Seat>, seat: Seat): (r: seq<Seat>)
    ensures HasSeat(seats, seat.id) ==> r == seats
    ensures !HasSeat(seats, seat.id) ==> r == seats + [seat.(isSelected := true)]
  {
    if HasSeat(seats, seat.id) then seats else seats + [seat.(isSelected := true)]
  }

  function OtherSeat(seatId: string): Seat -> bool
  {
    (s: Seat) => s.id != seatId
  }

  /** deselectSeat: drop every seat with the id. */
  function SeatDeselected(seats: seq<Seat>, seatId: string): (r: seq<Seat>)
    ensures !HasSeat(r, seatId)
    ensures forall s :: s in r <==> s in seats && s.id != seatId
  {
    var r := Filter(seats, OtherSeat(seatId));
    forall i | 0 <= i < |r|
      ensures r[i].id != seatId
    {
      assert r[i] in r;
    }
    r
  }

  lemma SelectKeepsSeatIdsDistinct(seats: seq<Seat>, seat: Seat)
    requires DistinctSeatIds(seats)
    ensures DistinctSeatIds(SeatSelected(seats, seat))
  {
  }

  lemma DeselectKeepsSeatIdsDistinct(seats: seq<Seat>, seatId: string)
    requires DistinctSeatIds(seats)
    ensures DistinctSeatIds(SeatDeselected(seats, seatId))
  {
    var rel := (a: Seat, b: Seat) => a.id != b.id;
    FilterKeepsPairwise(seats, OtherSeat(seatId), rel);
    var r := SeatDeselected(seats, seatId);
    assert forall i, j :: 0 <= i < j < |r| ==> rel(r[i], r[j]);
  }

  /** Selecting a fresh seat and deselecting it again restores the selection. */
  lemma DeselectUndoesSelect(seats: seq<Seat>, seat: Seat)
    requires !HasSeat(seats, seat.id)
    ensures SeatDeselected(SeatSelected(seats, seat), seat.id) == seats
  {
    var p := OtherSeat(seat.id);
    FilterConcat(seats, [seat.(isSelected := true)], p);
    FilterKeepsAll(seats, p);
  }

  /** The title, description or venue contains the query, ignoring case. */
  predicate MatchesQuery(e: Event, query: string)
  {
    var q := Text.Lower(query);
    Text.Includes(Text.Lower(e.title), q) || Text.Includes(Text.Lower(e.description), q)
    || Text.Includes(Text.Lower(e.venue), q)
  }

  /** A category filter is applied unless the category is empty or `ALL`. */
  predicate FiltersCategory(category: string)
  {
    category != "" && category != "ALL"
  }

  function QueryFilter(query: string): Event -> bool
  {
    (e: Event) => MatchesQuery(e, query)
  }

  function CategoryFilter(category: string): Event -> bool
  {
    (e: Event) => e.category == category
  }

  /** filterEvents: the text filter (for a non-empty query) followed by the category filter. */
  function FilteredEvents(events: seq<Event>, query: string, category: string): (r: seq<Event>)
    ensures |r| <= |events|
  {
    var byQuery := if query != "" then Filter(events, QueryFilter(query)) else events;
    if FiltersCategory(category) then Filter(byQuery, CategoryFilter(category)) else byQuery
  }

  predicate Wanted(e: Event, query: string, category: string)
  {
    (query == "" || MatchesQuery(e, query)) && (!FiltersCategory(category) || e.category == category)
  }

  function WantedFilter(query: string, category: string): Event -> bool
  {
    (e: Event) => Wanted(e, query, category)
  }

  /** The filtered list is the events that pass both filters, in their original order. */
  lemma FilteredEventsAreWanted(events: seq<Event>, query: string, category: string)
    ensures FilteredEvents(events, query, category) == Filter(events, WantedFilter(query, category))
  {
    var wanted := WantedFilter(query, category);
    var pq := QueryFilter(query);
    var pc := CategoryFilter(category);
    if query != "" && FiltersCategory(category) {
      FilterTwice(events, pq, pc);
      FilterSamePredicate(events, Both(pq, pc), wanted);
    } else if query != "" {
      FilterSamePredicate(events, pq, wanted);
    } else if FiltersCategory(category) {
      FilterSamePredicate(events, pc, wanted);
    } else {
      FilterKeepsAll(events, wanted);
    }
  }

  /** The query is matched ignoring case: a lower-cased query keeps exactly the same events. */
  lemma QueryCaseIgnored(events: seq<Event>, query: string, category: string)
    ensures FilteredEvents(events, Text.Lower(query), category) == FilteredEvents(events, query, category)
  {
    Text.LowerIsIdempotent(query);
    FilterSamePredicate(events, QueryFilter(Text.Lower(query)), QueryFilter(query));
  }

  /** An event is kept exactly when it passes both filters. */
  lemma FilteredEventsMembership(events: seq<Event>, query: string, category: string, e: Event)
    ensures e in FilteredEvents(events, query, category) <==> e in events && Wanted(e, query, category)
  {
    FilteredEventsAreWanted(events, query, category);
  }

  datatype StoreError = NotAuthenticated

  class Store {
    var events: seq<Event>
    var filteredEvents: seq<Event>
    var user: Option<User>
    var cart: seq<CartItem>
    var selectedSeats: seq<Seat>
    var searchQuery: string
    var selectedCategory: string

    /** The store's invariant: each cart key and each selected seat id occurs once. */
    predicate Valid()
      reads this
    {
      DistinctKeys(cart) && DistinctSeatIds(selectedSeats)
    }

    constructor (events: seq<Event>)
      ensures this.events == events && filteredEvents == events && user.None?
      ensures cart == [] && selectedSeats == [] && searchQuery == "" && selectedCategory == ""
      ensures Valid()
    {
      this.events := events;
      filteredEvents := events;
      user := None;
      cart := [];
      selectedSeats := [];
      searchQuery := "";
      selectedCategory := "";
    }

    method FilterEvents(query: string, category: string)
      modifies this`filteredEvents, this`searchQuery, this`selectedCategory
      ensures filteredEvents == FilteredEvents(events, query, category)
      ensures searchQuery == query && selectedCategory == category
    {
      filteredEvents := FilteredEvents(events, query, category);
      searchQuery := query;
      selectedCategory := category;
    }

    method AddToCart(item: CartItem)
      requires Valid()
      modifies this`cart
      ensures cart == AddedToCart(old(cart), item) && Valid()
      ensures TotalQuantity(cart) == TotalQuantity(old(cart)) + item.quantity
    {
      AddKeepsKeysDistinct(cart, item);
      AddRaisesQuantity(cart, item);
      cart := AddedToCart(cart, item);
    }

    method RemoveFromCart(eventId: string, ticketTypeId: string)
      requires Valid()
      modifies this`cart
      ensures cart == RemovedFromCart(old(cart), eventId, ticketTypeId) && Valid()
    {
      RemoveKeepsKeysDistinct(cart, eventId, ticketTypeId);
      cart := RemovedFromCart(cart, eventId, ticketTypeId);
    }

    method UpdateCartQuantity(eventId: string, ticketTypeId: string, quantity: int)
      requires Valid()
      modifies this`cart
      ensures cart == CartQuantityUpdated(old(cart), eventId, ticketTypeId, quantity) && Valid()
    {
      if quantity <= 0 {
        RemoveFromCart(eventId, ticketTypeId);
        return;
      }
      UpdateKeepsKeysDistinct(cart, eventId, ticketTypeId, quantity);
      cart := CartQuantityUpdated(cart, eventId, ticketTypeId, quantity);
    }

    method ClearCart()
      requires Valid()
      modifies this`cart
      ensures cart == [] && Valid()
    {
      cart := [];
    }

    method SelectSeat(seat: Seat)
      requires Valid()
      modifies this`selectedSeats
      ensures selectedSeats == SeatSelected(old(selectedSeats), seat) && Valid()
    {
      SelectKeepsSeatIdsDistinct(selectedSeats, seat);
      selectedSeats := SeatSelected(selectedSeats, seat);
    }

    method DeselectSeat(seatId: string)
      requires Valid()
      modifies this`selectedSeats
      ensures selectedSeats == SeatDeselected(old(selectedSeats), seatId) && Valid()
    {
      DeselectKeepsSeatIdsDistinct(selectedSeats, seatId);
      selectedSeats := SeatDeselected(selectedSeats, seatId);
    }

    /** processPayment: build a confirmed mock order from the cart, then empty the cart. */
    method ProcessPayment(paymentMethod: Option<string>, now: int) returns (r: Result<ClientOrder, StoreError>)
      modifies this`cart
      ensures user.None? ==> r == Err(NotAuthenticated) && cart == old(cart)
      ensures user.Some? ==>
        r.Ok? && cart == []
        && r.value.userId == user.value.id && r.value.tickets == old(cart)
        && r.value.total == Subtotal(old(cart)) && r.value.status == Confirmed
        && r.value.eventId == (if old(cart) == [] then "" else old(cart)[0].eventId)
        && r.value.paymentMethod == (if paymentMethod.None? || paymentMethod.value == "" then "Unknown" else paymentMethod.value)
        && r.value.id == Text.IntToString(now) && r.value.qrCode == "QR-" + Text.IntToString(now)
      ensures old(Valid()) ==> Valid()
    {
      if user.None? {
        return Err(NotAuthenticated);
      }
      var eventId := if cart == [] then "" else cart[0].eventId;
      var method_ := if paymentMethod.None? || paymentMethod.value == "" then "Unknown" else paymentMethod.value;
      var order := ClientOrder(Text.IntToString(now), user.value.id, eventId, cart, Subtotal(cart), Confirmed,
                               method_, now, "QR-" + Text.IntToString(now));
      cart := [];
      r := Ok(order);
    }
  }
}
