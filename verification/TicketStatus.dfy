/** The states of a ticket, as its file names them. */
module TicketStatus {
  datatype Status = Open | Claimed | Blocked | Review | Done
}
