/**
 * The service layer: one operation per endpoint over the two stores. Each
 * decoded request arrives as a Result, its Err standing for a failed JSON
 * decode or integer parse, and each storage step carries its success flag.
 */
module LedgerService {
  import opened Wrappers
  import opened UInt64
  import opened Calendar
  import opened Errors
  import M = Messages
  import opened Tables
  import opened Reservation
  import opened Reports
  import opened Responses
  import opened UserStore
  import opened ReservationStore
  import opened Settlement
  import OQ = OperationsQuery
  import SQ = SummaryQuery

  /** The storage steps of a credit: the user lookup, the insert or update, and the `in` row. */
  datatype CreditSteps = CreditSteps(findOk: bool, writeOk: bool, inOk: bool)

  /** The storage steps of a reservation: the reserved-cash query, the balance read, and CreateOut. */
  datatype ReserveSteps = ReserveSteps(amountOk: bool, balanceOk: bool, out: CreateOutSteps)

  function Internal(e: Error): Response {
    Response(Some(e), M.OperationUnsuccessfulInternalError, NoData)
  }

  function Success(data: Data): Response {
    Response(None, M.OperationSuccessful, data)
  }

  /**
   * RevenueLogic's translation of a failed lookup, by error identity: a
   * closed transaction, a cost mismatch, another user's reservation and a
   * missing order each get their own message; anything else is internal.
   */
  function MapLookupError(e: Error): (r: Response)
    ensures r.error.Some? && r.data == NoData
    ensures e == Store(ErrClosedTransaction) ==>
      r == Response(Some(Service(ErrAlreadyClosedTransaction)), M.AlreadyClosedTransaction, NoData)
    ensures e == Store(StoreSentinel.ErrDifferentCosts) ==>
      r == Response(Some(Service(ServiceSentinel.ErrDifferentCosts)), M.DifferentCosts, NoData)
    ensures e == Store(ErrOperationOfDifferentUser) ==>
      r == Response(Some(Service(ServiceSentinel.ErrOrderNotFound)), M.OperationOfDifferentUser, NoData)
    ensures e == Store(StoreSentinel.ErrOrderNotFound) ==>
      r == Response(Some(Service(ServiceSentinel.ErrOrderNotFound)), M.OrderNotFound, NoData)
    ensures !e.Store? || e.store == ErrSortParamNotFound ==> r == Internal(e)
  {
    if e == Store(ErrClosedTransaction) then
      Response(Some(Service(ErrAlreadyClosedTransaction)), M.AlreadyClosedTransaction, NoData)
    else if e == Store(StoreSentinel.ErrDifferentCosts) then
      var se := ServiceSentinel.ErrDifferentCosts;
      Response(Some(Service(se)), Text(Service(se)), NoData)
    else if e == Store(ErrOperationOfDifferentUser) then
      Response(Some(Service(ServiceSentinel.ErrOrderNotFound)), M.OperationOfDifferentUser, NoData)
    else if e == Store(StoreSentinel.ErrOrderNotFound) then
      Response(Some(Service(ServiceSentinel.ErrOrderNotFound)), M.OrderNotFound, NoData)
    else Internal(e)
  }

  /**
   * The two lookup errors that print alike reach the caller with different
   * messages, while both are logged as the service's order-not-found error.
   */
  lemma IdentityNotTextDecides()
    ensures Text(Store(ErrOperationOfDifferentUser)) == Text(Store(StoreSentinel.ErrOrderNotFound))
    ensures MapLookupError(Store(ErrOperationOfDifferentUser)).message != MapLookupError(Store(StoreSentinel.ErrOrderNotFound)).message
    ensures MapLookupError(Store(ErrOperationOfDifferentUser)).error == MapLookupError(Store(StoreSentinel.ErrOrderNotFound)).error
  {
    SameTextDistinctIdentity();
  }

  /** The month guard of GetSummaryLogic. */
  predicate ValidDate(year: int, month: int) {
    !(month > 12 || month <= 0 || year <= 0)
  }

  class Service {
    const userStorage: UserStorage
    const transactionStorage: TransactionStorage

    ghost predicate Valid()
      reads this, transactionStorage
    {
      transactionStorage.Valid()
    }

    constructor (us: UserStorage, ts: TransactionStorage)
      requires ts.Valid()
      ensures Valid() && userStorage == us && transactionStorage == ts
    {
      userStorage, transactionStorage := us, ts;
    }

    /** The balance of the user whose id the query string parses to. */
    method GetUserBalanceLogic(data: Result<int, Error>, ok: bool) returns (resp: Response)
      ensures data.Err? ==> resp == Response(Some(data.error), M.InvalidData, NoData)
      ensures data.Ok? && ok && data.value in userStorage.users ==>
        resp == Success(BalanceData(Balance(userStorage.users[data.value])))
      ensures data.Ok? && !(ok && data.value in userStorage.users) ==> resp == Internal(BalanceReadError(ok))
    {
      if data.Err? {
        return Response(Some(data.error), M.InvalidData, NoData);
      }
      resp := Success(NoData);
      var balance, err := userStorage.GetUserBalance(data.value, ok);
      if err.Some? {
        resp := Internal(err.value);
      } else {
        resp := resp.(data := BalanceData(Balance(balance)));
      }
    }

    /**
     * A credit: a new user is inserted with the amount, an existing one has
     * the amount added in uint64 arithmetic; then the `in` row records the
     * amount itself. The row is written whether or not the balance write
     * succeeded, and its error, if any, is the one reported. A value with its
     * high bit set, as balance or as amount, is refused by the argument
     * converter.
     */
    method AddBalanceLogic(data: Result<User, Error>, s: CreditSteps) returns (resp: Response)
      requires Valid()
      modifies userStorage, transactionStorage
      ensures Valid()
      ensures transactionStorage.chains == old(transactionStorage.chains)
      ensures transactionStorage.nextChainId == old(transactionStorage.nextChainId)
      ensures transactionStorage.nextRowId ==
        if data.Ok? && s.findOk && s.inOk && Storable(data.value.balance) then old(transactionStorage.nextRowId) + 1
        else old(transactionStorage.nextRowId)
      ensures data.Err? || !s.findOk ==>
        && userStorage.users == old(userStorage.users)
        && transactionStorage.transactions == old(transactionStorage.transactions)
      ensures data.Err? ==> resp == Response(Some(Wrapped(M.InvalidUnmarshalUser, data.error)), M.InvalidData, NoData)
      ensures data.Ok? && !s.findOk ==> resp == Internal(Wrapped("cannot find a user", Db(DriverFault)))
      ensures data.Ok? && s.findOk ==>
        var u, before := data.value, old(userStorage.users);
        var balance := if u.id in before then Add(u.balance, before[u.id]) else u.balance;
        && userStorage.users == (if s.writeOk && Storable(balance) then before[u.id := balance] else before)
        && transactionStorage.transactions ==
             (if s.inOk && Storable(u.balance)
              then old(transactionStorage.transactions) + [InRow(old(transactionStorage.nextRowId), u.id, u.time, u.balance, u.comment)]
              else old(transactionStorage.transactions))
        && resp == (if !(s.inOk && Storable(u.balance)) then
                      Internal(Wrapped("can't create input transaction", Db(if Storable(u.balance) then DriverFault else ArgumentFault)))
                    else if !(s.writeOk && Storable(balance)) then
                      Internal(Wrapped(if u.id in before then "cannot update balance of user" else "cannot create a new user",
                                       Db(if Storable(balance) then DriverFault else ArgumentFault)))
                    else Success(NoData))
    {
      if data.Err? {
        return Response(Some(Wrapped(M.InvalidUnmarshalUser, data.error)), M.InvalidData, NoData);
      }
      var u := data.value;
      var uf, err := userStorage.FindUser(u.id, s.findOk);
      if err.Some? {
        return Internal(err.value);
      }
      resp := Success(NoData);
      var value := u.balance;
      if uf.None? {
        var e := userStorage.InsertUser(u, s.writeOk);
        if e.Some? {
          resp := Internal(e.value);
        }
      } else {
        u := u.(balance := Add(u.balance, uf.value.balance));
        var e := userStorage.UpdateUserBalance(u, s.writeOk);
        if e.Some? {
          resp := Internal(e.value);
        }
      }
      var e := transactionStorage.CreateIn(u.id, u.time, value, u.comment, s.inOk);
      if e.Some? {
        resp := Internal(e.value);
      }
    }

    /**
     * A reservation: admitted unless the balance is below the reserved cash
     * plus the cost, and the reserved cash is always reported as 0. An
     * admitted reservation is recorded by CreateOut, which refuses a cost
     * with its high bit set; no balance changes.
     */
    method CashReservationLogic(data: Result<CashReservation, Error>, s: ReserveSteps) returns (resp: Response)
      requires Valid()
      modifies transactionStorage
      ensures Valid()
      ensures userStorage.users == old(userStorage.users)
      ensures data.Err? ==> resp == Response(Some(Wrapped(M.InvalidUnmarshalOrder, data.error)), M.InvalidData, NoData)
      ensures data.Ok? && !s.amountOk ==> resp == Internal(Wrapped("can't get an amount of reserved cash", Db(DriverFault)))
      ensures data.Ok? && s.amountOk && !(s.balanceOk && data.value.userId in userStorage.users) ==>
        resp == Internal(BalanceReadError(s.balanceOk))
      ensures data.Ok? && s.amountOk && s.balanceOk && data.value.userId in userStorage.users &&
              userStorage.users[data.value.userId] < data.value.cost ==>
        resp == Response(Some(Service(ErrInsufficientFunds)), M.InsufficientFunds, NoData)
      ensures
        var admitted := data.Ok? && s.amountOk && s.balanceOk && data.value.userId in userStorage.users &&
                        userStorage.users[data.value.userId] >= data.value.cost;
        var stored := admitted && s.out.beginOk && s.out.chainOk && Storable(data.value.cost) && s.out.outOk && s.out.commitOk;
        && (stored ==>
              && resp == Success(NoData)
              && transactionStorage.nextChainId == old(transactionStorage.nextChainId) + 1
              && transactionStorage.nextRowId == old(transactionStorage.nextRowId) + 1
              && transactionStorage.chains == old(transactionStorage.chains) + [Chain(old(transactionStorage.nextChainId), data.value.orderId, data.value.favorId)]
              && transactionStorage.transactions == old(transactionStorage.transactions) +
                   [OutRow(old(transactionStorage.nextRowId), data.value.userId, old(transactionStorage.nextChainId), data.value.cost, data.value.comment)])
        && (!stored ==>
              && transactionStorage.nextChainId == old(transactionStorage.nextChainId)
              && transactionStorage.nextRowId == old(transactionStorage.nextRowId)
              && transactionStorage.chains == old(transactionStorage.chains)
              && transactionStorage.transactions == old(transactionStorage.transactions))
        && (admitted && !stored ==> resp.error.Some? && resp.message == M.OperationUnsuccessfulInternalError)
    {
      if data.Err? {
        return Response(Some(Wrapped(M.InvalidUnmarshalOrder, data.error)), M.InvalidData, NoData);
      }
      var reserve := data.value;
      var amount, err := transactionStorage.GetAmountOfReservedCash(reserve.userId, s.amountOk);
      if err.Some? {
        return Internal(err.value);
      }
      var balance;
      balance, err := userStorage.GetUserBalance(reserve.userId, s.balanceOk);
      if err.Some? {
        return Internal(err.value);
      }
      if balance < Add(amount, reserve.cost) {
        return Response(Some(Service(ErrInsufficientFunds)), M.InsufficientFunds, NoData);
      }
      resp := Success(NoData);
      err := transactionStorage.CreateOut(reserve.userId, reserve.orderId, reserve.favorId, reserve.cost, reserve.comment, s.out);
      if err.Some? {
        resp := Internal(err.value);
      }
    }

    /**
     * A settlement: validate the reservation, then run the handshake, each
     * participant step in the order the channels force; the response is
     * internal when either participant posts an error.
     */
    method RevenueLogic(data: Result<CashReservation, Error>, lookup: LookupSteps, s: SettleSteps) returns (resp: Response)
      requires Valid()
      modifies userStorage, transactionStorage
      ensures Valid()
      ensures transactionStorage.chains == old(transactionStorage.chains)
      ensures transactionStorage.nextChainId == old(transactionStorage.nextChainId)
      ensures transactionStorage.nextRowId == old(transactionStorage.nextRowId)
      ensures data.Err? ==>
        && resp == Response(Some(Wrapped(M.InvalidUnmarshalOrder, data.error)), M.InvalidData, NoData)
        && userStorage.users == old(userStorage.users)
        && transactionStorage.transactions == old(transactionStorage.transactions)
      ensures data.Ok? ==>
        var f := FindTransaction(old(transactionStorage.chains), old(transactionStorage.transactions), data.value, lookup);
        f.Err? ==>
          && resp == MapLookupError(f.error)
          && userStorage.users == old(userStorage.users)
          && transactionStorage.transactions == old(transactionStorage.transactions)
      ensures data.Ok? ==>
        var f := FindTransaction(old(transactionStorage.chains), old(transactionStorage.transactions), data.value, lookup);
        f.Ok? ==>
          var o := Handshake(old(userStorage.users), old(transactionStorage.transactions),
                             data.value.userId, data.value.cost, f.value, data.value.closedAt, s);
          var reported := Fold(o.balanceResult, o.ledgerResult);
          && userStorage.users == o.users
          && transactionStorage.transactions == o.rows
          && resp == (if reported.Some? then Internal(reported.value) else Success(NoData))
    {
      if data.Err? {
        return Response(Some(Wrapped(M.InvalidUnmarshalOrder, data.error)), M.InvalidData, NoData);
      }
      var reserve := data.value;
      var found := FindTransaction(transactionStorage.chains, transactionStorage.transactions, reserve, lookup);
      if found.Err? {
        return MapLookupError(found.error);
      }
      resp := Success(NoData);
      var ready, pending, balanceResult := userStorage.DecreaseBalancePrepare(reserve.userId, reserve.cost, s.debit);
      var reply, ledgerResult := transactionStorage.CloseTransaction(found.value, reserve.closedAt, ready, s.close);
      if ready {
        balanceResult := userStorage.DecreaseBalanceFinish(reserve.userId, pending, reply.value, s.debitCommitOk);
      }
      var reported := Fold(balanceResult, ledgerResult);
      if reported.Some? {
        resp := Internal(reported.value);
      }
    }

    /**
     * The month summary: an invalid date is refused before any storage
     * access; otherwise the month's per-service totals are handed to the CSV
     * writer, whose outcome (the report's file name or an error) is `written`.
     * `report` is what the writer was given, in the order the query left open.
     */
    method GetSummaryLogic(year: int, month: int, queryOk: bool, written: Result<string, Error>)
      returns (resp: Response, report: seq<SummaryRow>)
      ensures !ValidDate(year, month) ==> resp == Response(Some(Service(ErrInvalidDate)), M.InvalidDate, NoData) && report == []
      ensures ValidDate(year, month) && !queryOk ==> resp == Internal(Wrapped("can't get summary of month", Db(DriverFault)))
      ensures resp.error.None? ==> ValidDate(year, month) && queryOk && written.Ok? && resp == Success(ReportFile(written.value))
      ensures ValidDate(year, month) && queryOk ==>
        var (begin, end) := MonthBounds(year, month);
        var g := SQ.Groups(transactionStorage.chains, transactionStorage.favors, transactionStorage.transactions, begin, end);
        var fits := forall i :: 0 <= i < |g| ==> SQ.ServiceTotal(transactionStorage.chains, transactionStorage.transactions, g[i], begin, end) < Modulus;
        && (!fits ==> resp == Internal(Wrapped("can't get row of month summary", Db(ConvertFault))))
        && (fits ==> resp == (if written.Ok? then Success(ReportFile(written.value)) else Internal(written.error)))
        && (fits ==> |report| == |g|)
        && (fits ==> forall n: string, v: uint64 ::
              multiset(report)[SummaryRow(n, v)] == |SQ.ServicesWithEntry(transactionStorage.chains, transactionStorage.favors, transactionStorage.transactions, begin, end, (n, v))|)
    {
      report := [];
      if month > 12 || month <= 0 || year <= 0 {
        return Response(Some(Service(ErrInvalidDate)), M.InvalidDate, NoData), report;
      }
      var sum := transactionStorage.GetMonthSummary(year, month, queryOk);
      if sum.Err? {
        return Internal(sum.error), report;
      }
      report := sum.value;
      if written.Err? {
        return Internal(written.error), report;
      }
      return Success(ReportFile(written.value)), report;
    }

    /**
     * The operations listing: an unknown sort key is the caller's mistake
     * (InvalidData), every other failure is internal, and otherwise the
     * operations are the plan's ordered listing, or its page.
     */
    method GetOperations(userId: int, page: int, sortby: string, direction: string, queryOk: bool) returns (resp: Response)
      ensures OQ.SelectPlan(page, sortby, direction).Err? ==>
        resp == Response(Some(Store(ErrSortParamNotFound)), M.InvalidData, NoData)
      ensures var p := OQ.SelectPlan(page, sortby, direction);
        p.Ok? && (!queryOk || (p.value.paged && (transactionStorage.pageLimit < 0 || OQ.Offset(page, transactionStorage.pageLimit) < 0))) ==>
          resp == Internal(Wrapped("can't get operations with such parameters", Db(DriverFault)))
      ensures resp.error.None? ==> resp.message == M.OperationSuccessful && resp.data.OperationsData?
      ensures var p := OQ.SelectPlan(page, sortby, direction);
        p.Ok? && queryOk && !p.value.paged ==>
          var shown := OQ.Ordered(p.value, OQ.Listing(transactionStorage.chains, transactionStorage.favors, transactionStorage.transactions, userId));
          && resp.error.None? && resp.data.OperationsData?
          && |resp.data.operations| == |shown|
          && forall i :: 0 <= i < |shown| ==> resp.data.operations[i] == OQ.ToOperation(shown[i])
      ensures var p := OQ.SelectPlan(page, sortby, direction);
        var limit, offset := transactionStorage.pageLimit, OQ.Offset(page, transactionStorage.pageLimit);
        p.Ok? && queryOk && p.value.paged && limit >= 0 && offset >= 0 ==>
          var ordered := OQ.Ordered(p.value, OQ.Listing(transactionStorage.chains, transactionStorage.favors, transactionStorage.transactions, userId));
          var shown := OQ.Window(ordered, offset, limit);
          && resp.error.None? && resp.data.OperationsData?
          && |resp.data.operations| == |shown|
          && forall i :: 0 <= i < |shown| ==> resp.data.operations[i] == OQ.ToOperation(shown[i])
      ensures page == 0 && sortby == "" && queryOk ==>
        var all := OQ.Listing(transactionStorage.chains, transactionStorage.favors, transactionStorage.transactions, userId);
        && resp.error.None? && resp.data.OperationsData?
        && |resp.data.operations| == |all|
        && forall i :: 0 <= i < |all| ==> resp.data.operations[i] == OQ.ToOperation(all[i])
    {
      var operations := transactionStorage.GetOperations(userId, page, sortby, direction, queryOk);
      if operations.Err? {
        if operations.error == Store(ErrSortParamNotFound) {
          return Response(Some(operations.error), M.InvalidData, NoData);
        }
        return Internal(operations.error);
      }
      return Success(OperationsData(operations.value));
    }
  }
}
