/** The ledger's records: a transaction as the Go code handles it, and a settlement or reservation request. */
module Reservation {
  import opened Wrappers
  import opened UInt64
  import opened Calendar

  /** `reservation.Transaction`; a chain id of -1 stands for "no chain". */
  datatype Transaction = Transaction(
    id: int,
    userId: int,
    direction: string,
    isCompleted: bool,
    chainId: int,
    closedAt: Option<Instant>,
    cost: uint64,
    comment: string)

  const NoChain: int := -1

  /** A new transaction is open, bound to no chain and not closed; the given fields are kept. */
  function NewTransaction(id: int, userId: int, direction: string, cost: uint64, comment: string): (t: Transaction)
    ensures !t.isCompleted && t.chainId == NoChain && t.closedAt == None
    ensures t.id == id && t.userId == userId && t.direction == direction
    ensures t.cost == cost && t.comment == comment
  {
    Transaction(id, userId, direction, false, NoChain, None, cost, comment)
  }

  /** `reservation.CashReservation`: the caller's claim about a reservation (favor is the service). */
  datatype CashReservation = CashReservation(
    userId: int,
    favorId: int,
    orderId: int,
    closedAt: Option<Instant>,
    comment: string,
    cost: uint64)
}
