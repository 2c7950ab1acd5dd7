/** An optional value: stands for a reference that may be null. */
module Wrappers {

  datatype Option<+T> = None | Some(value: T)

}

/**
 The value objects a purchase is made of: the ticket types, one request for a
 number of tickets of one type, and the purchaser.
 */
module Domain {

  /** The three kinds of ticket that can be bought. */
  datatype TicketType = Adult | Child | Infant

  /**
   An immutable request for `noOfTickets` tickets of one type. The count is a
   plain integer: nothing rejects zero or negative counts.
   */
  datatype TicketTypeRequest = TicketTypeRequest(ticketType: TicketType, noOfTickets: int)

  /** The purchaser, identified by the account that pays and holds the seats. */
  datatype User = User(accountId: int)

}
