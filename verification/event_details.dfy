/**
 * The ticket list of the event-details screen: the sold-out rule, what each
 * ticket card shows, and where the buy button leads.
 */
module EventDetails {
  import opened Wrappers

  const BUY_TICKET_SCREEN := "Buy_Ticket"

  /** A ticket type of an event; counts are whole numbers as the server stores them. */
  datatype TicketType = TicketType(name: string, price: int, quantity: int, sold: int)

  /** No ticket of this type is left. */
  predicate SoldOut(t: TicketType) {
    t.quantity - t.sold <= 0
  }

  /** The navigation the buy handler requests: the purchase screen with the event and the ticket type. */
  datatype Navigation<E> = Navigation(screen: string, event: E, ticketType: TicketType)

  /** `handleBuyTicket`: nothing for a sold-out type, otherwise the purchase screen for exactly this event and type. */
  function HandleBuyTicket<E>(event: E, t: TicketType): (r: Option<Navigation<E>>)
    ensures r.None? <==> SoldOut(t)
    ensures r.Some? ==> r.value.screen == BUY_TICKET_SCREEN && r.value.event == event && r.value.ticketType == t
  {
    if t.quantity - t.sold <= 0 then None
    else Some(Navigation(BUY_TICKET_SCREEN, event, t))
  }

  datatype Availability = SoldOutLabel | Remaining(count: int)

  /** What a ticket card shows and whether its button is disabled. */
  datatype Card = Card(name: string, price: int, availability: Availability, buttonDisabled: bool, buttonLabel: string)

  function TicketCard(t: TicketType): (c: Card)
    ensures c.buttonDisabled <==> SoldOut(t)
    ensures c.availability.SoldOutLabel? <==> SoldOut(t)
    ensures c.availability.Remaining? ==> c.availability.count == t.quantity - t.sold && c.availability.count > 0
    ensures c.buttonLabel == if SoldOut(t) then "Unavailable" else "Buy Now"
    ensures c.name == t.name && c.price == t.price
  {
    var soldOut := t.quantity - t.sold <= 0;
    Card(t.name, t.price, if soldOut then SoldOutLabel else Remaining(t.quantity - t.sold),
      soldOut, if soldOut then "Unavailable" else "Buy Now")
  }

  /** A button that is enabled always leads to the purchase screen, and only such a button does. */
  lemma EnabledButtonNavigates<E>(event: E, t: TicketType)
    ensures !TicketCard(t).buttonDisabled <==> HandleBuyTicket(event, t).Some?
    ensures TicketCard(t).availability.Remaining? ==> HandleBuyTicket(event, t).Some?
  {
  }
}
