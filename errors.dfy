/**
 * Go errors as the ledger produces and compares them. Sentinels are values
 * created once with `errors.New`; Go compares them by identity, which here is
 * constructor equality, while their text can coincide.
 */
module Errors {
  import Messages
  import opened Wrappers

  /**
   * What `database/sql` reports: `sql.ErrNoRows`, a column value that does not
   * fit its Go destination, a statement argument its converter refuses, or
   * any other driver or server failure.
   */
  datatype DbFault = ErrNoRows | ConvertFault | ArgumentFault | DriverFault

  /** The sentinels of the storage package. */
  datatype StoreSentinel =
    | ErrClosedTransaction
    | ErrDifferentCosts
    | ErrOrderNotFound
    | ErrSortParamNotFound
    | ErrOperationOfDifferentUser

  /** The sentinels of the service package. */
  datatype ServiceSentinel =
    | ErrInsufficientFunds
    | ErrDifferentCosts
    | ErrAlreadyClosedTransaction
    | ErrOrderNotFound
    | ErrUserNotFound
    | ErrInvalidDate

  datatype Error =
    | Db(fault: DbFault)
    | Store(store: StoreSentinel)
    | Service(service: ServiceSentinel)
      /** A failure of JSON decoding or integer parsing, whose details are not modelled. */
    | Input
      /** `errors.Wrap(cause, context)`. */
    | Wrapped(context: string, cause: Error)

  // The texts of the storage package's sentinels.
  const ClosedTransaction := "Transaction is already closed"
  const DifferentCosts := "Different costs"
  const OrderNotFound := "Wrong order"
  const SortParamNotFound := "Wrong sorting param"

  function StoreText(s: StoreSentinel): string {
    match s
    case ErrClosedTransaction => ClosedTransaction
    case ErrDifferentCosts => DifferentCosts
    case ErrOrderNotFound => OrderNotFound
    case ErrSortParamNotFound => SortParamNotFound
    case ErrOperationOfDifferentUser => OrderNotFound
  }

  /** Each service sentinel is created from the message constant of the same name. */
  function ServiceText(s: ServiceSentinel): string {
    match s
    case ErrInsufficientFunds => Messages.InsufficientFunds
    case ErrDifferentCosts => Messages.DifferentCosts
    case ErrAlreadyClosedTransaction => Messages.AlreadyClosedTransaction
    case ErrOrderNotFound => Messages.OrderNotFound
    case ErrUserNotFound => Messages.UserNotFound
    case ErrInvalidDate => Messages.InvalidDate
  }

  /** Recovers the service sentinel whose text a message is, if any. */
  function ServiceSentinelOf(msg: string): (r: Option<ServiceSentinel>)
    ensures r.Some? ==> ServiceText(r.value) == msg
    ensures r.None? ==> forall s :: ServiceText(s) != msg
  {
    if msg == Messages.InsufficientFunds then Some(ErrInsufficientFunds)
    else if msg == Messages.DifferentCosts then Some(ServiceSentinel.ErrDifferentCosts)
    else if msg == Messages.AlreadyClosedTransaction then Some(ErrAlreadyClosedTransaction)
    else if msg == Messages.OrderNotFound then Some(ServiceSentinel.ErrOrderNotFound)
    else if msg == Messages.UserNotFound then Some(ErrUserNotFound)
    else if msg == Messages.InvalidDate then Some(ErrInvalidDate)
    else None
  }

  /** A service sentinel's text identifies it: the texts are pairwise distinct. */
  lemma ServiceTextIdentifies(s: ServiceSentinel)
    ensures ServiceSentinelOf(ServiceText(s)) == Some(s)
  {
  }

  /** `err.Error()`; a driver failure's own text is not modelled beyond being fixed. */
  function Text(e: Error): string {
    match e
    case Db(ErrNoRows) => "sql: no rows in result set"
    case Db(ConvertFault) => "sql: Scan error: value out of range"
    case Db(ArgumentFault) => "sql: converting argument: uint64 values with high bit set are not supported"
    case Db(DriverFault) => "driver failure"
    case Store(s) => StoreText(s)
    case Service(s) => ServiceText(s)
    case Input => "invalid input"
    case Wrapped(ctx, cause) => ctx + ": " + Text(cause)
  }

  /**
   * The wrong-user sentinel of the storage package prints exactly like the
   * order-not-found one, yet Go's `==` tells them apart.
   */
  lemma SameTextDistinctIdentity()
    ensures Text(Store(ErrOperationOfDifferentUser)) == Text(Store(StoreSentinel.ErrOrderNotFound))
    ensures Store(ErrOperationOfDifferentUser) != Store(StoreSentinel.ErrOrderNotFound)
  {
  }

  /** The storage cost-mismatch text differs from the service one, which is what callers are shown. */
  lemma CostMismatchTexts()
    ensures Text(Service(ServiceSentinel.ErrDifferentCosts)) == Messages.DifferentCosts
    ensures Text(Store(StoreSentinel.ErrDifferentCosts)) != Messages.DifferentCosts
  {
  }
}
