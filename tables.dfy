/** The database the library code reads and writes, held in memory. */
module Tables {
  import opened Entities

  class Db {
    /** orders, keyed by id */
    var orders: map<string, Order>
    /** order_items, in insertion order */
    var orderItems: seq<OrderItem>
    /** tickets, in insertion order */
    var tickets: seq<Ticket>
    /** ticket_types, keyed by id */
    var ticketTypes: map<string, TicketType>
    /** events: the start time of each event, keyed by id */
    var eventDates: map<string, int>
    /** reservations, keyed by id */
    var reservations: map<string, Reservation>

    constructor ()
      ensures orders == map[] && orderItems == [] && tickets == []
      ensures ticketTypes == map[] && eventDates == map[] && reservations == map[]
    {
      orders := map[];
      orderItems := [];
      tickets := [];
      ticketTypes := map[];
      eventDates := map[];
      reservations := map[];
    }
  }
}
