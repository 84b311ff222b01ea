# Balance service ledger, modelled in Dafny

The balance service keeps a user's money in two PostgreSQL-backed stores:

- **`users` table:** each user's current balance as a `uint64`.
- **Ledger:** `chains`, binding an order to a service, and `transactions`, holding the ledger rows.

It has four operations on money:

- **Credit:** adds to the balance and records an `in` row.
- **Reservation:** admits a reservation against the balance and records a chain with an open `out` row.
- **Settlement:** a handshake between the two stores that debits the balance and closes the reservation.
- **Reports:** a per-service month summary and a paged, sortable listing of a user's completed operations.

The service layer turns each outcome into a response message, and the HTTP layer turns the message into a status code.

This project models that core as follows.

- **Stores and tables.**
  - The stores are classes whose fields are the tables: `UserStorage.users` is a map from user id to balance; `TransactionStorage.chains` and `TransactionStorage.transactions` are sequences of rows.
  - Row ids come from counters that advance only when a row persists. This is the model's choice: PostgreSQL sequences also advance on an insert that fails or is rolled back, and no caller observes the ids.
  - `Tables.TablesValid` is the invariant every storage method keeps. It requires unique positive ids, every `out` row bound to a chain, every chain bound to exactly one row, open rows not yet closed, and every amount below 2^63.
- **Failing steps.** Every database step takes a flag saying whether it succeeds. The flags are grouped in `*Steps` records, so every failure that the source checks for can be taken. A failure while result rows are being read is not one of them (see "## Left out").
- **Statement arguments.** `database/sql`'s default argument converter refuses a `uint64` with its high bit set, because it has no `int64` value. `UInt64.Storable` states this. Every write of a balance, amount or cost is refused with `Db(ArgumentFault)` when the value is not storable. The refusal happens at that statement, before the statement reaches the driver. So the `transactions` table only ever holds amounts below 2^63, as `TablesValid` states. The balance map starts from whatever the store's constructor is given, and no such invariant is stated for it.
- **Errors.**
  - Go errors are the `Errors.Error` datatype.
  - Sentinels compare by identity: two sentinels are equal only when they are the same constructor.
  - `Text` gives an error's text; `errors.Wrap` becomes `Wrapped(context, cause)`.
  - The storage sentinel for "operation of a different user" prints exactly like the one for "order not found" ("Wrong order"). The service still tells them apart, because it compares identities.
- **Settlement.**
  - The settlement is two goroutines connected by unbuffered channels.
  - Their channels force one order, and the model runs them in that order:
    1. the balance side reads the balance, debits it and writes the result, then signals `ready`;
    2. the ledger side closes the reservation and replies;
    3. the balance side commits on a true reply and rolls back otherwise.
  - `Settlement.Handshake` is this order written as a function. `LedgerService.Service.RevenueLogic` runs the store methods in the same order, and its contract ties the new state to `Handshake`.
- **Quirks kept as written.** These behaviours of the source are modelled as they are, not corrected:
  - The reserved cash is always 0: the query runs but its result is never read, so admission compares the balance with the cost alone.
  - The debit is `uint64` subtraction, so an overdraft wraps around in memory. The wrapped value is always 2^63 or more, so writing it is refused and the settlement fails as an internal error with nothing committed. Admission does not prevent an overdraft: two reservations of 100 against a balance of 150 are both admitted.
  - Nothing prevents two chains for the same order and service.
  - Both commit errors of the handshake are discarded.
  - A credit's `in` row is written even when the balance write failed.
- **SQL queries.** Queries are functions over the in-memory tables:
  - `ORDER BY` is an insertion sort whose output is proved ordered and a permutation of its input;
  - `LIMIT/OFFSET` is a window over a sequence, and every page is a window of the same single order of the rows;
  - the month summary's `GROUP BY` yields one row per service, and since the query has no `ORDER BY` its rows are specified as a multiset;
  - Go's `int` is taken to be 64 bits wide, so the page offset wraps around as it does on a 64-bit platform;
  - a negative `LIMIT` or `OFFSET` is refused by the database, which the model treats as a query error.
- **Parsed input.** Inputs that the source parses are `Result` values. JSON decoding and `strconv.Atoi` either succeed with a value or fail with `Errors.Input` or a given error.

Files, one module each:

- `wrappers.dfy`: `Option`, `Result`.
- `uint64.dfy`: unsigned 64-bit arithmetic.
- `calendar.dfy`: instants and month bounds.
- `messages.dfy`: response texts.
- `errors.dfy`: errors and sentinels.
- `reports.dfy`: report rows.
- `responses.dfy`: responses and their JSON view.
- `reservation.dfy`: the transaction record.
- `tables.dfy`: rows and the table invariant.
- `user_store.dfy`: the balance store.
- `operations_query.dfy`: the operations listing.
- `summary_query.dfy`: the month summary.
- `reservation_store.dfy`: the ledger store.
- `settlement.dfy`: the handshake.
- `service.dfy`: the service layer.
- `handlers.dfy`: status codes and query parameters.
- `scenarios.dfy`: the end-to-end test's expectations.

## Model

| member | source | states |
|---|---|---|
| Calendar.MonthStart | internal/postgres/reservation.go:240 | the first instant of a month; a month outside 1..12 carries into the year, as `time.Date` normalises it |
| Calendar.MonthBounds | internal/postgres/reservation.go:240-241 | the summary's bounds: the month's first instant and the first instant exactly one month later, which is strictly after it |
| Calendar.MonthBoundsRollover | internal/postgres/reservation.go:240-241 | December's end bound is January 1 of the next year; any other month's end bound is the next month of the same year |
| Calendar.InMonthBoundsIff | internal/postgres/reservation.go:240-243 | an instant lies in [begin, end) if and only if it falls in that calendar year and month |
| Messages.All | internal/service/responses.go:8-20 | the twelve response messages are pairwise distinct, so a message identifies its outcome |
| Errors.ServiceSentinelOf | internal/service/responses.go:22-29 | recovers the service sentinel whose text a message is, or reports that no sentinel has that text |
| Errors.ServiceTextIdentifies | internal/service/responses.go:22-29 | each service sentinel's text is its message constant, and that text identifies the sentinel |
| Errors.SameTextDistinctIdentity | internal/postgres/reservation.go:63-69 | the wrong-user and order-not-found storage sentinels print the same text yet are different errors |
| Errors.CostMismatchTexts | internal/service/service.go:117-119 | the cost mismatch is shown with the service sentinel's text, which is the DifferentCosts message; the storage sentinel's text is not |
| UInt64.Add | internal/service/service.go:67 | uint64 addition: exact when the sum fits, otherwise reduced by 2^64 and smaller than the first operand |
| UInt64.Sub | internal/postgres/user.go:88 | uint64 subtraction: exact when no underflow, otherwise wraps to a value above the minuend; adding the subtrahend back gives the minuend |
| UInt64.SubUndoesAdd | internal/postgres/user.go:88 | debiting what was credited restores the balance, with or without wrap-around |
| Reservation.NewTransaction | internal/cash_reservation/transaction.go:16-27 | a new transaction is open, has no chain (-1) and no closing time, and keeps the given id, user, direction, cost and comment |
| Responses.Serialize | internal/service/responses.go:35-39 | the JSON view carries the message, and the data exactly when the data is not nil |
| Responses.ErrorNotSerialised | internal/service/responses.go:35-39 | the error field never reaches the JSON: responses that differ only in it serialise alike |
| Tables.NullableComment | internal/postgres/reservation.go:132-133 | an empty comment is stored as NULL; any other comment is stored as given |
| Tables.CloseChain | internal/postgres/reservation.go:20-22 | the chain's rows become completed with the closing time; every other row is unchanged, and the row count is kept |
| Tables.CloseChainKeepsValid | internal/postgres/reservation.go:20-22 | closing a chain preserves the table invariant |
| Tables.AppendReservationKeepsValid | internal/postgres/reservation.go:139-163 | adding a fresh chain with its open `out` row preserves the table invariant |
| Tables.AppendCreditKeepsValid | internal/postgres/reservation.go:131-137 | adding a completed `in` row preserves the table invariant |
| UserStore.UserStorage.InsertUser | internal/postgres/user.go:46-52 | on success the user exists with exactly the given id and balance. A balance of 2^63 or more is the wrapped argument refusal; a failed step or a taken id is the wrapped driver error. On any error nothing changes |
| UserStore.UserStorage.UpdateUserBalance | internal/postgres/user.go:54-59 | overwrites the user's balance with the given absolute value and leaves other users alone; an unknown id is no error and changes nothing. A balance of 2^63 or more is the wrapped argument refusal and changes nothing |
| UserStore.UserStorage.FindUser | internal/postgres/user.go:61-70 | a missing user is reported absent with no error; a found user carries the stored balance; any other failure is the wrapped error |
| UserStore.UserStorage.GetUserBalance | internal/postgres/user.go:72-78 | succeeds exactly for a known user on a working read and returns the stored balance; otherwise it returns 0 with the wrapped no-rows or driver error |
| UserStore.UserStorage.DecreaseBalancePrepare | internal/postgres/user.go:80-101 | signals ready exactly when read and begin succeed, the new balance is below 2^63 and the write succeeds. The pending balance is the stored one minus the cost in uint64 arithmetic. A failure reports its error, with an unstorable balance as the argument refusal. Nothing is committed |
| UserStore.UserStorage.DecreaseBalanceFinish | internal/postgres/user.go:102-112 | a true reply commits the pending balance and a false one rolls it back; the result is nil either way, even when the commit fails |
| OperationsQuery.Lower | internal/postgres/reservation.go:285 | maps each character of the sort key as `strings.ToLower` does for every character whose lower case is an ASCII letter (including the KELVIN SIGN and capital I with dot above), and keeps its length |
| OperationsQuery.Upper | internal/postgres/reservation.go:285 | maps each character of the direction as `strings.ToUpper` does for every character whose upper case is an ASCII letter (including dotless i and long s, so "deſc" is DESC), and keeps its length |
| OperationsQuery.CaseMappingIdempotent | internal/postgres/reservation.go:285 | normalising the case twice is the same as normalising it once |
| OperationsQuery.SelectPlan | internal/postgres/reservation.go:284-324 | an unknown sort key is ErrSortParamNotFound. Otherwise a missing key gives the unsorted listing and "date" sorts by time; only a direction whose Go upper case is "DESC" means descending. The listing is paged for a positive page, or for a negative page without a key |
| OperationsQuery.SelectPlanNormalised | internal/postgres/reservation.go:285 | the plan depends only on the case-normalised sort key and direction |
| OperationsQuery.WrapInt64 | internal/postgres/reservation.go:327 | a value as Go's 64-bit `int` holds it: in [-2^63, 2^63), congruent modulo 2^64, and unchanged when it fits |
| OperationsQuery.Offset | internal/postgres/reservation.go:326-328 | page p > 0 starts at (p - 1) * pageLimit in 64-bit `int` arithmetic, which is exact when the product fits; any other page starts at 0 |
| OperationsQuery.OffsetWrapsAround | internal/postgres/reservation.go:327 | with 4 operations per page, page 2^61 + 1 starts at -2^63, which the database refuses, and page 2^62 + 1 starts at 0 again |
| OperationsQuery.Window | internal/postgres/reservation.go:38 | `LIMIT n OFFSET k` yields at most n rows: the ones from position k on, in order |
| OperationsQuery.PagesCover | internal/postgres/reservation.go:326-330 | for one fixed order of the rows, and while the offsets fit Go's `int`, pages 1..n together are exactly the first n * pageLimit rows |
| OperationsQuery.PageIsWindowAtOffset | internal/postgres/reservation.go:326-330 | the page Pages reads as page n is the window at Offset(n, pageLimit) |
| OperationsQuery.ChainService | internal/postgres/reservation.go:31-34 | the join finds the service of a row's chain, or none exactly when no chain has that id |
| OperationsQuery.UserCompleted | internal/postgres/reservation.go:31-35 | the listing's rows are exactly the user's completed rows |
| OperationsQuery.Listing | internal/postgres/reservation.go:31-36 | one joined result row per completed row of the user: row i is the projection, through the two joins, of the user's i-th completed row |
| OperationsQuery.Sort | internal/postgres/reservation.go:41-48 | `ORDER BY` time or cost, ascending or descending, yields an ordered permutation of the rows; a NULL time sorts after every time ascending and before every time descending, as PostgreSQL orders NULLs |
| OperationsQuery.ScanOperations | internal/postgres/reservation.go:335-350 | the scan loop yields one operation per result row, in order; NULL service names and comments become empty strings |
| SummaryQuery.WindowIsCalendarMonth | internal/postgres/reservation.go:24-29 | with a month's bounds, a row qualifies exactly when it is an `out` row closed in that month |
| SummaryQuery.ServiceTotalAppend | internal/postgres/reservation.go:24-29 | a new row adds its cost to its service's total when it qualifies, and nothing otherwise |
| SummaryQuery.ServicesIn | internal/postgres/reservation.go:24-29 | the services that appear are exactly those with a `favors` row and at least one qualifying row |
| SummaryQuery.Groups | internal/postgres/reservation.go:29 | `GROUP BY` lists each qualifying service exactly once |
| SummaryQuery.SummaryAnswer | internal/postgres/reservation.go:24-29 | one row per group, in no promised order: each (name, total) occurs exactly as often as there are reported services with that name and that sum of qualifying costs |
| SummaryQuery.ScanSummary | internal/postgres/reservation.go:247-255 | a total that does not fit a uint64 is the wrapped conversion error; otherwise every row is kept, in order |
| ReservationStore.FindChainId | internal/postgres/reservation.go:182-191 | a failed query is a wrapped error, never the sentinel. With no chain for the pair the result is ErrOrderNotFound (both directions); a found id belongs to a matching chain |
| ReservationStore.GetTransactionData | internal/postgres/reservation.go:174-180 | a failed query or a chain without a row is the wrapped error; a working query on a chain with a row succeeds; a result is a row of that chain, with only user, completion and cost filled in |
| ReservationStore.FindTransaction | internal/postgres/reservation.go:193-212 | lookup errors pass through; then closed, wrong user and wrong cost are refused in that order, the first failure winning. A result names a matching chain with an open row of the claimed user and cost |
| ReservationStore.SettledChainRefused | internal/postgres/reservation.go:202-204 | once a validated reservation's chain is closed, the same claim is refused as already closed, as long as the lookup returns the same (first matching) chain |
| ReservationStore.DuplicateChainStaysOpen | internal/postgres/reservation.go:182-191 | with two chains for one order and service, the claim settles the first; after that the second chain still holds an open row of the same user and cost, which the unordered lookup may return |
| ReservationStore.WrongUserPrecedesCostMismatch | internal/postgres/reservation.go:205-210 | once the chain's open transaction belongs to another user, the claim is refused for the user whatever cost it names |
| ReservationStore.ValidatedCostStorable | internal/postgres/reservation.go:153 | a claim that passes FindTransaction names a cost below 2^63, since every stored cost went through the argument converter |
| ReservationStore.TransactionStorage.CreateIn | internal/postgres/reservation.go:131-137 | on success appends one completed, unchained `in` row with the given time, amount and nullable comment. An amount of 2^63 or more is the wrapped argument refusal, another failure the wrapped driver error; either way nothing changes |
| ReservationStore.TransactionStorage.CreateOut | internal/postgres/reservation.go:139-163 | all or nothing: on success one new chain and one open `out` row bound to it. After any failed step, including a cost of 2^63 or more refused at the row's insert, its own wrapped error and no change |
| ReservationStore.TransactionStorage.GetAmountOfReservedCash | internal/postgres/reservation.go:164-172 | the amount is always 0; a failed query is the wrapped error |
| ReservationStore.TransactionStorage.CloseTransaction | internal/postgres/reservation.go:213-236 | on a false ready signal: no reply, nil result, nothing changed. Otherwise it replies whether begin and update succeeded; a failure is its error and changes nothing. On success the chain is closed if the commit succeeds, and the result is nil either way |
| ReservationStore.TransactionStorage.GetMonthSummary | internal/postgres/reservation.go:238-256 | the per-service totals of `out` rows closed in the month, one row per reported service in no promised order; a failed query or a total too large for a uint64 is its wrapped error |
| ReservationStore.TransactionStorage.GetOperations | internal/postgres/reservation.go:284-353 | an unknown key is ErrSortParamNotFound. An unpaged listing is every completed row in the plan's order; a paged one is the window of pageLimit rows at the page's offset. A failed or negative-bound query is the wrapped error |
| Settlement.Fold | internal/service/service.go:140-147 | the reported result is nil exactly when both posted results are nil, and otherwise one of them |
| Settlement.Handshake | internal/service/service.go:132-148 | never two errors; any error means nothing was committed; a committed debit is the balance minus the cost; a committed closure is CloseChain; a failed read is the balance side's error |
| Settlement.DebitIffClosure | internal/service/service.go:132-148 | when both commits go through, the debit persists exactly when the closure does, exactly when the settlement succeeds; a failure reports exactly one error |
| Settlement.ArrivalOrderIrrelevant | internal/service/service.go:140-145 | which participant's result arrives first does not change what is reported |
| Settlement.LostClosureCommit | internal/postgres/reservation.go:233-235 | a failed ledger commit, with a working balance commit and a new balance below 2^63, leaves the debit applied and the reservation open, and reports success |
| Settlement.OverdraftRefused | internal/postgres/user.go:88-101 | settling more than the balance, for a cost below 2^63, wraps the balance in memory to 2^63 or more. Writing it is refused, so the settlement reports the argument refusal and commits neither the debit nor the closure |
| LedgerService.MapLookupError | internal/service/service.go:111-130 | closed, cost mismatch, other user's order and missing order each get their own service error and message; anything else is an internal error |
| LedgerService.IdentityNotTextDecides | internal/service/service.go:114-125 | the two lookup errors that print alike reach the caller with different messages and the same logged error |
| LedgerService.Service.GetUserBalanceLogic | internal/service/service.go:34-48 | an unparsable id is InvalidData; a known user's balance is returned; any store failure is internal |
| LedgerService.Service.AddBalanceLogic | internal/service/service.go:50-78 | a new user gets the amount and an existing one gets old + amount in uint64, written only when below 2^63. The `in` row records the amount, written only when it is below 2^63, and even if the balance write failed. Its error wins over the balance write's |
| LedgerService.Service.CashReservationLogic | internal/service/service.go:80-102 | refused with InsufficientFunds when the balance is below the cost; admitted ones are stored by CreateOut. No balance ever changes. Nothing is stored unless the reservation is admitted, the cost is below 2^63, and every step succeeds |
| LedgerService.Service.RevenueLogic | internal/service/service.go:104-149 | a refused lookup is mapped and changes nothing; a validated one runs the handshake on the first matching chain, and the new tables and the response are the handshake's |
| LedgerService.Service.GetSummaryLogic | internal/service/service.go:151-164 | a month outside 1..12 or a year <= 0 is InvalidDate before any storage access; otherwise the month's totals, one per reported service in no promised order, go to the CSV writer and its file name is returned; failures are internal |
| LedgerService.Service.GetOperations | internal/service/service.go:166-175 | an unknown sort key is InvalidData, other failures are internal. A valid plan with a working query and non-negative bounds succeeds with the plan's ordered listing, or for a paged plan its window of pageLimit rows at the page's offset; page 0 without a key lists every completed row |
| Handlers.RejectionMessages | cmd/api/handlers.go:69-75 | the status table names the internal-error message and not the success message |
| Handlers.HttpCodeByMessage | cmd/api/handlers.go:67-80 | internal error is 500; DifferentCosts and InsufficientFunds are 422; the six rejection messages are 400; any other message gets the default |
| Handlers.DefaultCode | cmd/api/handlers.go:116-170 | add-balance and reserve default to 202, every other endpoint to 200 |
| Handlers.LookupFailureStatus | cmd/api/handlers.go:67-80 | a refused settlement is 400 for the caller's mistakes, 422 for a cost mismatch and 500 otherwise, never the success code |
| Handlers.SuccessAndInternalStatus | cmd/api/handlers.go:67-80 | success keeps the endpoint's default code; an internal failure is always 500 |
| Handlers.Trim | cmd/api/handlers.go:233 | drops only leading and trailing backslashes and double quotes, leaving a middle that neither starts nor ends with one |
| Handlers.TrimIdempotent | cmd/api/handlers.go:233 | trimming an already trimmed parameter changes nothing |
| Handlers.ParseOperationsQuery | cmd/api/handlers.go:218-235 | an unparsable user id, or a present but unparsable page, is InvalidData with its wrapped error; a missing page is 0; sort and direction are trimmed |
| Handlers.ParseFailureStatus | cmd/api/handlers.go:218-232 | a rejected parameter is sent as 400 |
| Handlers.MissingPageAndSortListAll | cmd/api/handlers.go:219-233 | without page and sort (however quoted) the request is the plain unpaged listing |
| Scenarios.SettleOneReservation | internal/service/service_test.go:94-117 | credit 700, reserve 100 and settle it: all succeed and the balance is 600 |
| Scenarios.TwoCredits | internal/service/service_test.go:118-132 | credits of 400 and 1000 to a new user leave 1400 |
| Scenarios.ReservedService | internal/service/service_test.go:165-172 | a credit of 500 and a reservation of 400 leave a balance of 500, one chain and an open `out` row |
| Scenarios.RefusedClaims | internal/service/service_test.go:174-197 | an unknown order, a wrong cost and a wrong user are refused with the test's three expected responses |
| Scenarios.SettleTwice | internal/service/service_test.go:198-213 | the right claim settles, a repeat is refused as already closed, and the balance is 100 |
| Scenarios.Overdraw | internal/service/service_test.go:215-223 | a reservation of 300 against a balance of 100 is refused for insufficient funds and the balance stays 100 |
| Scenarios.OctoberSummary | internal/postgres/reservation.go:240-243 | October's summary counts a reservation closed in October and not one closed at the first instant of November |

## Left out

- SQL text, `database/sql`, prepared statements and connection setup. These become the in-memory tables and the per-step success flags. A failed driver call is always `Db(DriverFault)`, with its own text not modelled. The converter's refusal is `Db(ArgumentFault)`, whose text leaves out the argument's position. The store and service constructors stand for the setup.
- Goroutines, channel blocking and concurrent requests. The settlement handshake is modelled as the one order its unbuffered channels force. Not modelled: the lost-update risk of reading the balance outside the database transaction (internal/postgres/user.go:82), and row locking.
- HTTP routing, body reading, response writing, the report URL built by the summary handler, swagger and the server lifecycle. Of the handlers only the status table and the listing's parameter handling are modelled.
- JSON decoding and `strconv.Atoi`. Their results are inputs, either a value or an error.
- CSV writing and YAML configuration. Both are file I/O. The CSV writer's outcome, a file name or an error, is the `written` input of `GetSummaryLogic`.
- Timestamps are abstract instants (year, month, position in the month) rather than clock readings.
- OperationsQuery.Lower, OperationsQuery.Upper: only characters whose Go case mapping is an ASCII letter are mapped; every other non-ASCII character is kept as it is, where Go would map it to another non-ASCII character. No such character can make the result equal "date", "sum" or "DESC", so the plan chosen is the same as Go's.
- OperationsQuery.Sort: proves only the order and the permutation; how the database orders rows with equal keys is not modelled.
- ReservationStore.TransactionStorage.GetOperations, LedgerService.Service.GetOperations, OperationsQuery.PagesCover: the model fixes one order of the rows. Without a sort key it is storage order, and on equal keys the row stored first comes first. The queries at internal/postgres/reservation.go:30-48 have no `ORDER BY` without a key, and no total order with one. So the database may return the rows in any order that respects the key, and a different order for each page. Consecutive pages can then skip or repeat rows. PagesCover holds for the model's single order, not for the database's.
- ReservationStore.FindChainId: the query may return any of several matching chains. The contract promises only a matching one, even though the body picks the first.
- ReservationStore.SettledChainRefused, LedgerService.Service.RevenueLogic: these rest on the model's lookup always taking the first matching chain. Two chains for the same order and service can exist. With two, the source may return the second chain after the first is settled, settle it, and debit the user again. The model instead refuses the claim as already closed. `ReservationStore.DuplicateChainStaysOpen` exhibits such tables. The refusal to settle twice is therefore a property of the model's choice of chain, and holds in the source only when the pair has one chain.
- ReservationStore.TransactionStorage.GetMonthSummary, ReservationStore.TransactionStorage.GetOperations: the `for rows.Next()` loops at internal/postgres/reservation.go:248, 266 and 337 never check `rows.Err()`. A connection failure while rows are being read just ends the loop, and the rows read so far are returned as a success. Then `GetSummaryLogic` hands a short report to the CSV writer, and `GetOperations` returns a short page under the success message. In the model the scan always receives every row, so this silent truncation is not modelled.
- ReservationStore.GetTransactionData: the query may return any row of the chain. The body picks the first; the contract promises only a row of that chain.
- UserStore.UserStorage.DecreaseBalancePrepare: when a write fails, the source abandons the open database transaction without a rollback. The model records only that it never commits.
- Scenarios.Overdraw: starts from a fresh user credited with 100, not from the end-to-end test's accumulated state after the earlier steps.
- Scenarios.OctoberSummary: uses a small table set of its own, not the database fixture behind the summary test's expected CSV (internal/service/service_test.go:676-707).
- The pagination test (internal/service/service_test.go:578-674) depends on fixture data that is not part of this model. Its rules are stated generally by `GetOperations`, `Window` and `PagesCover`.
