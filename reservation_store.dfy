/**
 * The reservation store: reservation lookup and validation as functions over
 * the tables, and the class holding the tables, whose methods insert credits
 * and reservations, close a reservation during settlement, and answer the
 * month summary and the operations listing.
 */
module ReservationStore {
  import opened Wrappers
  import opened UInt64
  import opened Calendar
  import opened Errors
  import opened Tables
  import opened Reservation
  import opened Reports
  import OQ = OperationsQuery
  import SQ = SummaryQuery

  /** Whether the chain query and the transaction query of a lookup succeed. */
  datatype LookupSteps = LookupSteps(chainOk: bool, rowOk: bool)

  /** Whether each step of CreateOut succeeds: begin, chain insert, transaction insert, commit. */
  datatype CreateOutSteps = CreateOutSteps(beginOk: bool, chainOk: bool, outOk: bool, commitOk: bool)

  /** Whether each step of CloseTransaction succeeds: begin, update, commit. */
  datatype CloseSteps = CloseSteps(beginOk: bool, writeOk: bool, commitOk: bool)

  predicate ChainFor(c: Chain, orderId: int, serviceId: int) {
    c.orderId == orderId && c.serviceId == serviceId
  }

  /** The position of the first chain for the pair, or |chains| when there is none. */
  function FirstChainFor(chains: seq<Chain>, orderId: int, serviceId: int): (i: nat)
    ensures i <= |chains|
    ensures i < |chains| ==> ChainFor(chains[i], orderId, serviceId)
    ensures forall k :: 0 <= k < i ==> !ChainFor(chains[k], orderId, serviceId)
  {
    if chains == [] then 0
    else if ChainFor(chains[0], orderId, serviceId) then 0
    else 1 + FirstChainFor(chains[1..], orderId, serviceId)
  }

  /**
   * findChainID: some chain of the pair (several may exist, and the query
   * takes one); no chain at all is ErrOrderNotFound; a failed query is a
   * wrapped error, which is never that sentinel.
   */
  function FindChainId(chains: seq<Chain>, orderId: int, serviceId: int, ok: bool): (r: Result<int, Error>)
    ensures !ok ==> r == Err(Wrapped("can't find a chain id", Db(DriverFault)))
    ensures ok ==> r.Ok? || r == Err(Store(StoreSentinel.ErrOrderNotFound))
    ensures ok ==> (r == Err(Store(StoreSentinel.ErrOrderNotFound)) <==> forall c :: c in chains ==> !ChainFor(c, orderId, serviceId))
    ensures r.Ok? ==> exists c :: c in chains && c.id == r.value && ChainFor(c, orderId, serviceId)
  {
    if !ok then Err(Wrapped("can't find a chain id", Db(DriverFault)))
    else
      var i := FirstChainFor(chains, orderId, serviceId);
      if i == |chains| then Err(Store(StoreSentinel.ErrOrderNotFound)) else Ok(chains[i].id)
  }

  /** The position of the first row of the chain, or |rows| when there is none. */
  function FirstRowOf(rows: seq<Row>, chainId: int): (i: nat)
    ensures i <= |rows|
    ensures i < |rows| ==> rows[i].chainId == Some(chainId)
    ensures forall k :: 0 <= k < i ==> rows[k].chainId != Some(chainId)
  {
    if rows == [] then 0
    else if rows[0].chainId == Some(chainId) then 0
    else 1 + FirstRowOf(rows[1..], chainId)
  }

  /** What getTransactionData scans into a zero Transaction: only user, completion and cost. */
  function Scanned(row: Row): Transaction {
    Transaction(0, row.userId, "", row.isCompleted, 0, None, row.cost, "")
  }

  /** getTransactionData: the user, completion flag and cost of the chain's transaction. */
  function GetTransactionData(rows: seq<Row>, chainId: int, ok: bool): (r: Result<Transaction, Error>)
    ensures !ok ==> r == Err(Wrapped("can't get transaction status and cost", Db(DriverFault)))
    ensures ok && (forall x :: x in rows ==> x.chainId != Some(chainId)) ==>
      r == Err(Wrapped("can't get transaction status and cost", Db(ErrNoRows)))
    ensures ok && (exists x :: x in rows && x.chainId == Some(chainId)) ==> r.Ok?
    ensures r.Ok? ==> exists x :: x in rows && x.chainId == Some(chainId) && r.value == Scanned(x)
  {
    if !ok then Err(Wrapped("can't get transaction status and cost", Db(DriverFault)))
    else
      var i := FirstRowOf(rows, chainId);
      if i == |rows| then Err(Wrapped("can't get transaction status and cost", Db(ErrNoRows)))
      else Ok(Scanned(rows[i]))
  }

  /** Every check of FindTransaction the transaction fails, in the order the checks are made. */
  function FailedChecks(td: Transaction, data: CashReservation): seq<StoreSentinel> {
    (if td.isCompleted then [ErrClosedTransaction] else [])
    + (if td.userId != data.userId then [ErrOperationOfDifferentUser] else [])
    + (if td.cost != data.cost then [StoreSentinel.ErrDifferentCosts] else [])
  }

  /**
   * FindTransaction: look the chain up, load its transaction, then refuse a
   * closed one, one of another user, and one of another cost. Lookup errors
   * pass through; of the failed checks only the first is reported; with none
   * the chain id is the result.
   */
  function FindTransaction(chains: seq<Chain>, rows: seq<Row>, data: CashReservation, s: LookupSteps): (r: Result<int, Error>)
    ensures var c := FindChainId(chains, data.orderId, data.favorId, s.chainOk);
      c.Err? ==> r == Err(c.error)
    ensures var c := FindChainId(chains, data.orderId, data.favorId, s.chainOk);
      c.Ok? ==> var t := GetTransactionData(rows, c.value, s.rowOk);
        && (t.Err? ==> r == Err(t.error))
        && (t.Ok? ==> var f := FailedChecks(t.value, data);
              r == if f == [] then Ok(c.value) else Err(Store(f[0])))
    ensures r.Ok? ==> exists c :: c in chains && c.id == r.value && ChainFor(c, data.orderId, data.favorId)
    ensures r.Ok? ==> exists x :: x in rows && x.chainId == Some(r.value) && !x.isCompleted && x.userId == data.userId && x.cost == data.cost
  {
    var c := FindChainId(chains, data.orderId, data.favorId, s.chainOk);
    if c.Err? then Err(c.error)
    else
      var t := GetTransactionData(rows, c.value, s.rowOk);
      if t.Err? then Err(t.error)
      else if t.value.isCompleted then Err(Store(ErrClosedTransaction))
      else if t.value.userId != data.userId then Err(Store(ErrOperationOfDifferentUser))
      else if t.value.cost != data.cost then Err(Store(StoreSentinel.ErrDifferentCosts))
      else Ok(c.value)
  }

  /** Closing leaves every row's chain where it was, so the chain's first row is the same row. */
  lemma FirstRowOfAfterClose(rows: seq<Row>, chainId: int, c: int, at: Option<Instant>)
    ensures FirstRowOf(CloseChain(rows, c, at), chainId) == FirstRowOf(rows, chainId)
  {
    var rows' := CloseChain(rows, c, at);
    var i, i' := FirstRowOf(rows, chainId), FirstRowOf(rows', chainId);
    assert forall k :: 0 <= k < |rows| ==> rows'[k].chainId == rows[k].chainId;
  }

  /**
   * A reservation that validated, once its chain is closed, is refused as
   * already closed: settlement refuses to repeat.
   */
  lemma SettledChainRefused(chains: seq<Chain>, rows: seq<Row>, data: CashReservation, s: LookupSteps, at: Option<Instant>)
    requires FindTransaction(chains, rows, data, s).Ok?
    ensures FindTransaction(chains, CloseChain(rows, FindTransaction(chains, rows, data, s).value, at), data, s)
         == Err(Store(ErrClosedTransaction))
  {
    var c := FindTransaction(chains, rows, data, s).value;
    FirstRowOfAfterClose(rows, c, c, at);
  }

  /**
   * Nothing prevents two chains for the same order and service. After the
   * first is settled, the second still holds an open row of the same user
   * and cost, and the chain lookup, whose query has no ORDER BY, may return
   * it; the model's lookup always takes the first.
   */
  lemma DuplicateChainStaysOpen()
    ensures var chains := [Chain(1, 5, 2), Chain(2, 5, 2)];
      var rows := [OutRow(1, 1, 1, 300, ""), OutRow(2, 1, 2, 300, "")];
      && TablesValid(chains, rows, 3, 3)
      && FindTransaction(chains, rows, CashReservation(1, 2, 5, None, "", 300), LookupSteps(true, true)) == Ok(1)
      && ChainFor(chains[1], 5, 2)
      && var t := GetTransactionData(CloseChain(rows, 1, None), 2, true);
        t.Ok? && !t.value.isCompleted && t.value.userId == 1 && t.value.cost == 300
  {
  }

  /**
   * Every cost the tables hold fits an int64, so a claim that passes
   * FindTransaction names a cost below 2^63.
   */
  lemma ValidatedCostStorable(chains: seq<Chain>, rows: seq<Row>, nextChainId: int, nextRowId: int,
                              data: CashReservation, s: LookupSteps)
    requires TablesValid(chains, rows, nextChainId, nextRowId)
    requires FindTransaction(chains, rows, data, s).Ok?
    ensures Storable(data.cost)
  {
    var c := FindTransaction(chains, rows, data, s).value;
    var x :| x in rows && x.chainId == Some(c) && !x.isCompleted && x.userId == data.userId && x.cost == data.cost;
    var i :| 0 <= i < |rows| && rows[i] == x;
  }

  /**
   * The precedence of the checks: once the chain's open transaction is
   * found to belong to another user, the claim is refused for the user,
   * whatever cost it names.
   */
  lemma WrongUserPrecedesCostMismatch(chains: seq<Chain>, rows: seq<Row>, data: CashReservation, s: LookupSteps, cost: uint64)
    requires FindChainId(chains, data.orderId, data.favorId, s.chainOk).Ok?
    requires GetTransactionData(rows, FindChainId(chains, data.orderId, data.favorId, s.chainOk).value, s.rowOk).Ok?
    requires !GetTransactionData(rows, FindChainId(chains, data.orderId, data.favorId, s.chainOk).value, s.rowOk).value.isCompleted
    requires GetTransactionData(rows, FindChainId(chains, data.orderId, data.favorId, s.chainOk).value, s.rowOk).value.userId != data.userId
    ensures FindTransaction(chains, rows, data.(cost := cost), s) == Err(Store(ErrOperationOfDifferentUser))
  {
  }

  class TransactionStorage {
    var chains: seq<Chain>
    var transactions: seq<Row>
    var nextChainId: int
    var nextRowId: int
    /** The `favors` table: service id to service name; the core never writes it. */
    const favors: map<int, string>
    /** Operations per page, from the configuration. */
    const pageLimit: int

    ghost predicate Valid()
      reads this
    {
      TablesValid(chains, transactions, nextChainId, nextRowId)
    }

    constructor (favors: map<int, string>, pageLimit: int)
      ensures Valid()
      ensures chains == [] && transactions == [] && nextChainId == 1 && nextRowId == 1
      ensures this.favors == favors && this.pageLimit == pageLimit
    {
      chains, transactions := [], [];
      nextChainId, nextRowId := 1, 1;
      this.favors, this.pageLimit := favors, pageLimit;
    }

    /**
     * Records a credit: one completed `in` row with the given time and amount.
     * An amount with its high bit set is refused by the argument converter.
     */
    method CreateIn(userId: int, at: Option<Instant>, value: uint64, comment: string, ok: bool) returns (err: Option<Error>)
      requires Valid()
      modifies this
      ensures Valid()
      ensures err == if !Storable(value) then Some(Wrapped("can't create input transaction", Db(ArgumentFault)))
                     else if ok then None else Some(Wrapped("can't create input transaction", Db(DriverFault)))
      ensures chains == old(chains) && nextChainId == old(nextChainId)
      ensures transactions ==
        if err.None? then old(transactions) + [InRow(old(nextRowId), userId, at, value, comment)] else old(transactions)
      ensures nextRowId == if err.None? then old(nextRowId) + 1 else old(nextRowId)
    {
      if !Storable(value) {
        return Some(Wrapped("can't create input transaction", Db(ArgumentFault)));
      }
      if !ok {
        return Some(Wrapped("can't create input transaction", Db(DriverFault)));
      }
      AppendCreditKeepsValid(chains, transactions, nextChainId, nextRowId, userId, at, value, comment);
      transactions := transactions + [InRow(nextRowId, userId, at, value, comment)];
      nextRowId := nextRowId + 1;
      return None;
    }

    /**
     * Records a reservation: inside one database transaction, a new chain for
     * (orderId, favorId) and an open `out` row bound to it. Both persist, or
     * after any failed step (and the rollback) neither does. A cost with its
     * high bit set is refused by the argument converter at the row's insert.
     */
    method CreateOut(userId: int, orderId: int, favorId: int, cost: uint64, comment: string, s: CreateOutSteps)
      returns (err: Option<Error>)
      requires Valid()
      modifies this
      ensures Valid()
      ensures err.None? <==> s.beginOk && s.chainOk && Storable(cost) && s.outOk && s.commitOk
      ensures !s.beginOk ==> err == Some(Wrapped("can't create a transaction", Db(DriverFault)))
      ensures s.beginOk && !s.chainOk ==> err == Some(Wrapped("can't create chain of order_id & service_id", Db(DriverFault)))
      ensures s.beginOk && s.chainOk && !Storable(cost) ==>
        err == Some(Wrapped("can't create output transaction", Db(ArgumentFault)))
      ensures s.beginOk && s.chainOk && Storable(cost) && !s.outOk ==>
        err == Some(Wrapped("can't create output transaction", Db(DriverFault)))
      ensures s.beginOk && s.chainOk && Storable(cost) && s.outOk && !s.commitOk ==> err == Some(Wrapped("can't commit transaction", Db(DriverFault)))
      ensures err.None? ==>
        && chains == old(chains) + [Chain(old(nextChainId), orderId, favorId)]
        && transactions == old(transactions) + [OutRow(old(nextRowId), userId, old(nextChainId), cost, comment)]
        && nextChainId == old(nextChainId) + 1 && nextRowId == old(nextRowId) + 1
      ensures err.Some? ==>
        chains == old(chains) && transactions == old(transactions) && nextChainId == old(nextChainId) && nextRowId == old(nextRowId)
    {
      if !s.beginOk {
        return Some(Wrapped("can't create a transaction", Db(DriverFault)));
      }
      // the chain insert returns the new chain's id; nothing is visible before the commit
      if !s.chainOk {
        return Some(Wrapped("can't create chain of order_id & service_id", Db(DriverFault)));
      }
      var chainId := nextChainId;
      if !Storable(cost) {
        return Some(Wrapped("can't create output transaction", Db(ArgumentFault)));
      }
      if !s.outOk {
        return Some(Wrapped("can't create output transaction", Db(DriverFault)));
      }
      if !s.commitOk {
        return Some(Wrapped("can't commit transaction", Db(DriverFault)));
      }
      AppendReservationKeepsValid(chains, transactions, nextChainId, nextRowId, userId, orderId, favorId, cost, comment);
      chains := chains + [Chain(chainId, orderId, favorId)];
      transactions := transactions + [OutRow(nextRowId, userId, chainId, cost, comment)];
      nextChainId, nextRowId := nextChainId + 1, nextRowId + 1;
      return None;
    }

    /**
     * GetAmountOfReservedCash runs its query but never reads the result, so
     * on success the amount it reports is always 0.
     */
    method GetAmountOfReservedCash(userId: int, ok: bool) returns (amount: uint64, err: Option<Error>)
      ensures amount == 0
      ensures err == if ok then None else Some(Wrapped("can't get an amount of reserved cash", Db(DriverFault)))
    {
      amount := 0;
      if !ok {
        return 0, Some(Wrapped("can't get an amount of reserved cash", Db(DriverFault)));
      }
      return amount, None;
    }

    /**
     * CloseTransaction, the ledger side of the settlement handshake. `ready`
     * is the balance side's signal. On false nothing is touched, no reply is
     * sent and the result is nil. On true the chain's transaction is closed in
     * a database transaction, and the reply says whether the update succeeded;
     * a failed step is this side's result. A commit error is discarded.
     */
    method CloseTransaction(chainId: int, closeTime: Option<Instant>, ready: bool, s: CloseSteps)
      returns (reply: Option<bool>, err: Option<Error>)
      requires Valid()
      modifies this
      ensures Valid()
      ensures chains == old(chains) && nextChainId == old(nextChainId) && nextRowId == old(nextRowId)
      ensures !ready ==> reply == None && err == None && transactions == old(transactions)
      ensures ready ==> reply == Some(s.beginOk && s.writeOk)
      ensures ready && !(s.beginOk && s.writeOk) ==> err == Some(Db(DriverFault)) && transactions == old(transactions)
      ensures ready && s.beginOk && s.writeOk ==> err == None
      ensures ready && s.beginOk && s.writeOk ==>
        transactions == if s.commitOk then CloseChain(old(transactions), chainId, closeTime) else old(transactions)
    {
      if !ready {
        return None, None;
      }
      if !s.beginOk {
        return Some(false), Some(Db(DriverFault));
      }
      if !s.writeOk {
        // rolled back
        return Some(false), Some(Db(DriverFault));
      }
      reply := Some(true);
      if s.commitOk {
        CloseChainKeepsValid(chains, transactions, nextChainId, nextRowId, chainId, closeTime);
        transactions := CloseChain(transactions, chainId, closeTime);
      }
      return reply, None;
    }

    /**
     * GetMonthSummary: the per-service totals of `out` rows closed from the
     * first of the month to the first of the next month, as scanned rows, in
     * an order the query leaves open: each row occurs once per reported
     * service it is the name and total of.
     */
    method GetMonthSummary(year: int, month: int, queryOk: bool) returns (r: Result<seq<SummaryRow>, Error>)
      ensures !queryOk ==> r == Err(Wrapped("can't get summary of month", Db(DriverFault)))
      ensures queryOk ==>
        var (begin, end) := MonthBounds(year, month);
        var g := SQ.Groups(chains, favors, transactions, begin, end);
        && (r.Err? <==> exists i :: 0 <= i < |g| && SQ.ServiceTotal(chains, transactions, g[i], begin, end) >= Modulus)
        && (r.Err? ==> r.error == Wrapped("can't get row of month summary", Db(ConvertFault)))
        && (r.Ok? ==> |r.value| == |g|)
        && (r.Ok? ==> forall n: string, v: uint64 ::
              multiset(r.value)[SummaryRow(n, v)] == |SQ.ServicesWithEntry(chains, favors, transactions, begin, end, (n, v))|)
    {
      var bounds := MonthBounds(year, month);
      if !queryOk {
        return Err(Wrapped("can't get summary of month", Db(DriverFault)));
      }
      var answer := SQ.SummaryAnswer(chains, favors, transactions, bounds.0, bounds.1);
      var g := SQ.Groups(chains, favors, transactions, bounds.0, bounds.1);
      assert answer == SQ.Entries(chains, favors, transactions, bounds.0, bounds.1, g);
      r := SQ.ScanSummary(answer);
      if r.Ok? {
        SQ.CopiedRowsCount(answer, r.value);
      }
    }

    /**
     * GetOperations: the user's completed rows under the selected plan. The
     * plain listing is in the model's storage order, a sorted one is an
     * ordered permutation of it, and a page is the window at the page's
     * offset of that one order.
     * A negative LIMIT or OFFSET is refused by the database.
     */
    method GetOperations(userId: int, page: int, sortby: string, direction: string, queryOk: bool)
      returns (r: Result<seq<Operation>, Error>)
      ensures OQ.SelectPlan(page, sortby, direction).Err? ==> r == Err(Store(ErrSortParamNotFound))
      ensures r.Ok? ==> OQ.SelectPlan(page, sortby, direction).Ok? && queryOk
      ensures var p := OQ.SelectPlan(page, sortby, direction);
        p.Ok? && (!queryOk || (p.value.paged && (pageLimit < 0 || OQ.Offset(page, pageLimit) < 0))) ==>
          r == Err(Wrapped("can't get operations with such parameters", Db(DriverFault)))
      ensures var p := OQ.SelectPlan(page, sortby, direction);
        p.Ok? && queryOk && !p.value.paged ==>
          var ordered := OQ.Ordered(p.value, OQ.Listing(chains, favors, transactions, userId));
          r.Ok? && |r.value| == |ordered| && forall i :: 0 <= i < |ordered| ==> r.value[i] == OQ.ToOperation(ordered[i])
      ensures var p := OQ.SelectPlan(page, sortby, direction);
        var offset := OQ.Offset(page, pageLimit);
        p.Ok? && queryOk && p.value.paged && pageLimit >= 0 && offset >= 0 ==>
          var shown := OQ.Window(OQ.Ordered(p.value, OQ.Listing(chains, favors, transactions, userId)), offset, pageLimit);
          r.Ok? && |r.value| == |shown| && forall i :: 0 <= i < |shown| ==> r.value[i] == OQ.ToOperation(shown[i])
    {
      var p := OQ.SelectPlan(page, sortby, direction);
      if p.Err? {
        return Err(p.error);
      }
      var plan := p.value;
      var ordered := OQ.Ordered(plan, OQ.Listing(chains, favors, transactions, userId));
      var offset := OQ.Offset(page, pageLimit);
      if !queryOk || (plan.paged && (pageLimit < 0 || offset < 0)) {
        return Err(Wrapped("can't get operations with such parameters", Db(DriverFault)));
      }
      var ops;
      if plan.paged {
        ops := OQ.ScanOperations(OQ.Window(ordered, offset, pageLimit));
      } else {
        ops := OQ.ScanOperations(ordered);
      }
      return Ok(ops);
    }
  }
}
