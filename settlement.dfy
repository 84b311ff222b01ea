/**
 * The settlement handshake of a reservation, as the order the two unbuffered
 * channels force on its participants: the balance side reads, debits and
 * writes without committing (a write the argument converter accepts only
 * when the new balance fits an int64), then signals ready; the ledger side closes the
 * reservation's transaction and replies; the balance side commits on a true
 * reply and rolls back otherwise. Each participant posts one result, and the
 * coordinator reports the first non-nil one it receives.
 */
module Settlement {
  import opened Wrappers
  import opened UInt64
  import opened Calendar
  import opened Errors
  import opened Tables
  import opened UserStore
  import opened ReservationStore

  /** Whether each database step of the two participants succeeds. */
  datatype SettleSteps = SettleSteps(debit: DebitSteps, close: CloseSteps, debitCommitOk: bool)

  /**
   * What a settlement leaves behind: both tables, whether each participant's
   * write was committed, and the result each participant posts.
   */
  datatype Outcome = Outcome(
    users: map<int, uint64>,
    rows: seq<Row>,
    debitCommitted: bool,
    closureCommitted: bool,
    balanceResult: Option<Error>,
    ledgerResult: Option<Error>)

  /** The coordinator's choice of the two posted results: the first non-nil one. */
  function Fold(first: Option<Error>, second: Option<Error>): (r: Option<Error>)
    ensures r.None? <==> first.None? && second.None?
    ensures r.Some? ==> r == first || r == second
  {
    if first.Some? then first else second
  }

  /** The handshake for one validated reservation of `cost` on chain `chainId`. */
  function Handshake(users: map<int, uint64>, rows: seq<Row>, userId: int, cost: uint64,
                     chainId: int, closeTime: Option<Instant>, s: SettleSteps): (o: Outcome)
    ensures o.balanceResult.None? || o.ledgerResult.None?
    ensures o.balanceResult.Some? || o.ledgerResult.Some? ==> !o.debitCommitted && !o.closureCommitted
    ensures o.debitCommitted ==> userId in users && o.users == users[userId := Sub(users[userId], cost)]
    ensures !o.debitCommitted ==> o.users == users
    ensures o.rows == if o.closureCommitted then CloseChain(rows, chainId, closeTime) else rows
    ensures !(s.debit.readOk && userId in users) ==> o.balanceResult == Some(BalanceReadError(s.debit.readOk))
  {
    var readable := s.debit.readOk && userId in users;
    var ready := readable && s.debit.beginOk && Storable(Sub(users[userId], cost)) && s.debit.writeOk;
    if !ready then
      var balanceErr :=
        if !readable then BalanceReadError(s.debit.readOk)
        else if s.debit.beginOk && !Storable(Sub(users[userId], cost)) then Db(ArgumentFault)
        else Db(DriverFault);
      Outcome(users, rows, false, false, Some(balanceErr), None)
    else
      var reply := s.close.beginOk && s.close.writeOk;
      var debited := reply && s.debitCommitOk;
      var closed := reply && s.close.commitOk;
      Outcome(if debited then users[userId := Sub(users[userId], cost)] else users,
              if closed then CloseChain(rows, chainId, closeTime) else rows,
              debited, closed, None, if reply then None else Some(Db(DriverFault)))
  }

  /**
   * The atomicity of a settlement whose commits go through: the debit is
   * committed exactly when the closure is, exactly when the settlement
   * reports success; a failure reports the error of exactly one participant.
   */
  lemma DebitIffClosure(users: map<int, uint64>, rows: seq<Row>, userId: int, cost: uint64,
                        chainId: int, closeTime: Option<Instant>, s: SettleSteps)
    requires s.debitCommitOk && s.close.commitOk
    ensures var o := Handshake(users, rows, userId, cost, chainId, closeTime, s);
      && (o.debitCommitted <==> o.closureCommitted)
      && (o.debitCommitted <==> Fold(o.balanceResult, o.ledgerResult).None?)
      && (o.balanceResult.Some? <==> !o.ledgerResult.Some? && !o.debitCommitted)
  {
  }

  /** Which participant's result arrives first does not change what is reported. */
  lemma ArrivalOrderIrrelevant(users: map<int, uint64>, rows: seq<Row>, userId: int, cost: uint64,
                               chainId: int, closeTime: Option<Instant>, s: SettleSteps)
    ensures var o := Handshake(users, rows, userId, cost, chainId, closeTime, s);
      Fold(o.balanceResult, o.ledgerResult) == Fold(o.ledgerResult, o.balanceResult)
  {
  }

  /**
   * Both commit errors are discarded: when the ledger's commit fails and the
   * balance side's does not, the debit persists, the reservation stays open,
   * and the settlement still reports success.
   */
  lemma LostClosureCommit(users: map<int, uint64>, rows: seq<Row>, userId: int, cost: uint64,
                          chainId: int, closeTime: Option<Instant>, s: SettleSteps)
    requires userId in users && Storable(Sub(users[userId], cost))
    requires s.debit == DebitSteps(true, true, true)
    requires s.close == CloseSteps(true, true, false) && s.debitCommitOk
    ensures var o := Handshake(users, rows, userId, cost, chainId, closeTime, s);
      && o.debitCommitted && !o.closureCommitted
      && o.users[userId] == Sub(users[userId], cost) && o.rows == rows
      && Fold(o.balanceResult, o.ledgerResult).None?
  {
  }

  /**
   * Settling more than the balance: the uint64 subtraction wraps in memory
   * to a value with its high bit set whenever the cost fits an int64, as
   * every stored cost does (ValidatedCostStorable). The argument converter
   * refuses to write that value, so the balance side reports the refusal
   * before signalling ready, and nothing of the settlement is committed.
   */
  lemma OverdraftRefused(users: map<int, uint64>, rows: seq<Row>, userId: int, cost: uint64,
                         chainId: int, closeTime: Option<Instant>, s: SettleSteps)
    requires userId in users && users[userId] < cost && Storable(cost)
    requires s.debit.readOk && s.debit.beginOk
    ensures Sub(users[userId], cost) > users[userId] && !Storable(Sub(users[userId], cost))
    ensures var o := Handshake(users, rows, userId, cost, chainId, closeTime, s);
      && Fold(o.balanceResult, o.ledgerResult) == Some(Db(ArgumentFault))
      && !o.debitCommitted && !o.closureCommitted && o.users == users && o.rows == rows
  {
  }
}
