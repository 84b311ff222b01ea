/**
 * The expectations of the service's end-to-end test, each run against fresh
 * stores with every storage step succeeding.
 */
module Scenarios {
  import opened Wrappers
  import opened UInt64
  import opened Calendar
  import opened Errors
  import M = Messages
  import opened Reservation
  import opened Tables
  import opened Responses
  import opened UserStore
  import opened ReservationStore
  import opened Settlement
  import opened LedgerService
  import SQ = SummaryQuery
  import OQ = OperationsQuery

  const Favors := map[1 := "delivery", 2 := "cleaning", 3 := "repair"]
  const AllCredit := CreditSteps(true, true, true)
  const AllReserve := ReserveSteps(true, true, CreateOutSteps(true, true, true, true))
  const AllLookup := LookupSteps(true, true)
  const AllSettle := SettleSteps(DebitSteps(true, true, true), CloseSteps(true, true, true), true)

  method FreshService() returns (service: Service)
    ensures fresh(service) && fresh(service.userStorage) && fresh(service.transactionStorage)
    ensures service.Valid()
    ensures service.userStorage.users == map[]
    ensures service.transactionStorage.chains == [] && service.transactionStorage.transactions == []
    ensures service.transactionStorage.nextChainId == 1 && service.transactionStorage.nextRowId == 1
    ensures service.transactionStorage.favors == Favors
  {
    var us := new UserStorage(map[]);
    var ts := new TransactionStorage(Favors, 5);
    service := new Service(us, ts);
  }

  /**
   * A credit of 700, a reservation of 100 for order 1 of service 3, and its
   * settlement all succeed, and the balance is then 600.
   */
  method SettleOneReservation() returns (credit: Response, reserve: Response, revenue: Response, check: Response)
    ensures credit == Success(NoData) && reserve == Success(NoData) && revenue == Success(NoData)
    ensures check == Success(BalanceData(Balance(600)))
  {
    var service := FreshService();
    credit := service.AddBalanceLogic(Ok(User(2, Some(Instant(2022, 10, 12)), "happy birthday!", 700)), AllCredit);
    assert service.userStorage.users == map[2 := 700];
    reserve := service.CashReservationLogic(Ok(CashReservation(2, 3, 1, None, "present", 100)), AllReserve);
    var claim := CashReservation(2, 3, 1, Some(Instant(2022, 10, 24)), "", 100);
    assert service.transactionStorage.chains == [Chain(1, 1, 3)];
    var rows := service.transactionStorage.transactions;
    assert rows[1] == OutRow(2, 2, 1, 100, "present");
    assert FirstChainFor(service.transactionStorage.chains, 1, 3) == 0;
    assert FirstRowOf(rows, 1) == 1 by {
      assert rows[0].chainId == None;
      assert FirstRowOf(rows[1..], 1) == 0;
    }
    assert Sub(700, 100) == 600 && Storable(600);
    revenue := service.RevenueLogic(Ok(claim), AllLookup, AllSettle);
    check := service.GetUserBalanceLogic(Ok(2), true);
  }

  /** Two credits of 400 and 1000 to a new user leave a balance of 1400. */
  method TwoCredits() returns (first: Response, second: Response, check: Response)
    ensures first == Success(NoData) && second == Success(NoData)
    ensures check == Success(BalanceData(Balance(1400)))
  {
    var service := FreshService();
    first := service.AddBalanceLogic(Ok(User(3, Some(Instant(2022, 10, 26)), "...", 400)), AllCredit);
    second := service.AddBalanceLogic(Ok(User(3, Some(Instant(2022, 10, 26)), ".....", 1000)), AllCredit);
    check := service.GetUserBalanceLogic(Ok(3), true);
  }

  const At := Some(Instant(2022, 11, 4))
  const Breakfast := InRow(1, 1, Some(Instant(2022, 9, 28)), 500, "for breakfast")
  const FavorOne := OutRow(2, 1, 1, 400, "i wanna favor 1")

  /** User 1 credited with 500 and holding a reservation of 400 for order 4 of service 1. */
  method ReservedService() returns (service: Service)
    ensures fresh(service) && fresh(service.userStorage) && fresh(service.transactionStorage)
    ensures service.Valid()
    ensures service.userStorage.users == map[1 := 500]
    ensures service.transactionStorage.chains == [Chain(1, 4, 1)]
    ensures service.transactionStorage.transactions == [Breakfast, FavorOne]
  {
    service := FreshService();
    var credit := service.AddBalanceLogic(Ok(User(1, Some(Instant(2022, 9, 28)), "for breakfast", 500)), AllCredit);
    var reserve := service.CashReservationLogic(Ok(CashReservation(1, 1, 4, None, "i wanna favor 1", 400)), AllReserve);
  }

  /**
   * Against that reservation an unknown order, a wrong cost and a wrong user
   * are refused, each with its own message.
   */
  method RefusedClaims() returns (unknown: Response, wrongCost: Response, wrongUser: Response)
    ensures unknown == Response(Some(Service(ServiceSentinel.ErrOrderNotFound)), M.OrderNotFound, NoData)
    ensures wrongCost == Response(Some(Service(ServiceSentinel.ErrDifferentCosts)), M.DifferentCosts, NoData)
    ensures wrongUser == Response(Some(Service(ServiceSentinel.ErrOrderNotFound)), M.OperationOfDifferentUser, NoData)
  {
    var service := ReservedService();
    var chains, rows := service.transactionStorage.chains, service.transactionStorage.transactions;
    assert FirstChainFor(chains, 5, 2) == 1 by {
      assert FirstChainFor(chains[1..], 5, 2) == 0;
    }
    unknown := service.RevenueLogic(Ok(CashReservation(1, 2, 5, At, "", 300)), AllLookup, AllSettle);
    assert FirstChainFor(chains, 4, 1) == 0;
    assert FirstRowOf(rows, 1) == 1 by {
      assert FirstRowOf(rows[1..], 1) == 0;
    }
    wrongCost := service.RevenueLogic(Ok(CashReservation(1, 1, 4, At, "", 200)), AllLookup, AllSettle);
    wrongUser := service.RevenueLogic(Ok(CashReservation(2, 1, 4, At, "", 400)), AllLookup, AllSettle);
  }

  /**
   * The right claim settles, leaving 100; settling it again is refused as
   * already closed and leaves the balance alone.
   */
  method SettleTwice() returns (settled: Response, repeated: Response, check: Response)
    ensures settled == Success(NoData)
    ensures repeated == Response(Some(Service(ErrAlreadyClosedTransaction)), M.AlreadyClosedTransaction, NoData)
    ensures check == Success(BalanceData(Balance(100)))
  {
    var service := ReservedService();
    var chains, rows := service.transactionStorage.chains, service.transactionStorage.transactions;
    var claim := CashReservation(1, 1, 4, At, "", 400);
    assert FirstChainFor(chains, 4, 1) == 0;
    assert FirstRowOf(rows, 1) == 1 by {
      assert FirstRowOf(rows[1..], 1) == 0;
    }
    settled := service.RevenueLogic(Ok(claim), AllLookup, AllSettle);
    SettledChainRefused(chains, rows, claim, AllLookup, At);
    repeated := service.RevenueLogic(Ok(claim), AllLookup, AllSettle);
    check := service.GetUserBalanceLogic(Ok(1), true);
  }

  /** A balance of 100 does not admit a reservation of 300, and stays 100. */
  method Overdraw() returns (overdraw: Response, check: Response)
    ensures overdraw == Response(Some(Service(ErrInsufficientFunds)), M.InsufficientFunds, NoData)
    ensures check == Success(BalanceData(Balance(100)))
  {
    var service := FreshService();
    var credit := service.AddBalanceLogic(Ok(User(1, None, "", 100)), AllCredit);
    overdraw := service.CashReservationLogic(Ok(CashReservation(1, 2, 5, None, "now it's time for favor 2", 300)), AllReserve);
    check := service.GetUserBalanceLogic(Ok(1), true);
  }

  // A month summary: one service, one reservation closed in October and one on the first of November

  const SummaryChains := [Chain(1, 2, 1)]
  const SummaryFavors := map[1 := "delivery"]
  const ClosedInOctober := Row(2, 3, Out, true, Some(1), Some(Instant(2022, 10, 27)), 300, None)
  const ClosedInNovember := Row(3, 1, Out, true, Some(1), Some(Instant(2022, 11, 0)), 400, None)
  const October := Instant(2022, 10, 0)
  const November := Instant(2022, 11, 0)

  lemma OctoberBounds()
    ensures MonthBounds(2022, 10) == (October, November)
  {
  }

  lemma OctoberServices()
    ensures SQ.ServicesIn(SummaryChains, SummaryFavors, [ClosedInOctober, ClosedInNovember], October, November) == [1]
  {
    assert [ClosedInOctober, ClosedInNovember][1..] == [ClosedInNovember];
    assert SQ.ServicesIn(SummaryChains, SummaryFavors, [ClosedInNovember], October, November) == [];
  }

  lemma OctoberTotal()
    ensures SQ.ServiceTotal(SummaryChains, [ClosedInOctober, ClosedInNovember], 1, October, November) == 300
  {
    assert [ClosedInOctober, ClosedInNovember][1..] == [ClosedInNovember];
    assert SQ.ServiceTotal(SummaryChains, [ClosedInNovember], 1, October, November) == 0;
  }

  lemma OctoberGroups()
    ensures SQ.Groups(SummaryChains, SummaryFavors, [ClosedInOctober, ClosedInNovember], October, November) == [1]
  {
    OctoberServices();
    assert SQ.Dedup([1]) == [1];
  }

  lemma OctoberAnswer()
    ensures SQ.SummaryAnswer(SummaryChains, SummaryFavors, [ClosedInOctober, ClosedInNovember], October, November) == [("delivery", 300)]
  {
    OctoberGroups();
    OctoberTotal();
  }

  /**
   * October's summary counts the reservation closed in October and not the
   * one closed on the first instant of November.
   */
  lemma OctoberSummary()
    ensures var (begin, end) := MonthBounds(2022, 10);
      SQ.SummaryAnswer(SummaryChains, SummaryFavors, [ClosedInOctober, ClosedInNovember], begin, end) == [("delivery", 300)]
  {
    OctoberBounds();
    OctoberAnswer();
  }
}
