/** The client-side shapes of the storefront: events, their ticket types, cart lines, seats and mock orders. */
module Storefront {
  import opened Entities

  datatype TicketTypeInfo = TicketTypeInfo(id: string, name: string, price: int, maxQuantity: int, available: int)

  datatype Event = Event(id: string, title: string, description: string, date: int, venue: string, category: string,
                         ticketTypes: seq<TicketTypeInfo>)

  /** A cart line, keyed by event id and ticket type id; `price` is per ticket, in whole IDR. */
  datatype CartItem = CartItem(eventId: string, ticketTypeId: string, quantity: int, price: int)

  datatype User = User(id: string, email: string, name: string)

  datatype Seat = Seat(id: string, row: string, number: int, isBooked: bool, isSelected: bool, price: int)

  /** The order the mock checkout of the store builds. */
  datatype ClientOrder = ClientOrder(id: string, userId: string, eventId: string, tickets: seq<CartItem>, total: int,
                                     status: OrderStatus, paymentMethod: string, createdAt: int, qrCode: string)

  /** `cart.reduce((sum, item) => sum + item.price * item.quantity, 0)` */
  function Subtotal(cart: seq<CartItem>): int
  {
    if cart == [] then 0 else Subtotal(cart[..|cart| - 1]) + cart[|cart| - 1].price * cart[|cart| - 1].quantity
  }

  function TotalQuantity(cart: seq<CartItem>): int
  {
    if cart == [] then 0 else TotalQuantity(cart[..|cart| - 1]) + cart[|cart| - 1].quantity
  }

  lemma {:induction false} SubtotalAppend(cart: seq<CartItem>, item: CartItem)
    ensures Subtotal(cart + [item]) == Subtotal(cart) + item.price * item.quantity
    ensures TotalQuantity(cart + [item]) == TotalQuantity(cart) + item.quantity
  {
    assert (cart + [item])[..|cart|] == cart;
  }
}
