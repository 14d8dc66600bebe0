/** The request shapes of the cinema ticket service: the closed set of ticket
    categories and an immutable (category, quantity) request entry. */
module TicketTypes {

  /** The three ticket categories; the set is fixed. */
  datatype TicketType = Infant | Child | Adult

  /** One entry of a purchase: a category and a caller-supplied quantity.
      The quantity is an arbitrary integer; zero and negative values are
      legal inputs that the pricing and validation rules deal with. */
  datatype TicketTypeRequest = TicketTypeRequest(ticketType: TicketType, noOfTickets: int)
}
