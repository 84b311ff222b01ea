/** The caller-facing message texts of the service layer. */
module Messages {

  const OperationSuccessful := "Operation is successful"
  const OperationUnsuccessfulInternalError := "Operation is not successful due to internal error"
  const UserNotFound := "User with current id wasn't found!"
  const InsufficientFunds := "Insufficient funds on the balance!"
  const DifferentCosts := "Order with such parameters has different cost value!"
  const OrderNotFound := "Order with such parameters wasn't found!"
  const InvalidUnmarshalUser := "Can't unmarshal user from input!"
  const InvalidUnmarshalOrder := "Can't unmarshal order from input!"
  const InvalidData := "Data don't fit input format!"
  const InvalidDate := "Invalid data format!"
  const AlreadyClosedTransaction := "Can't get revenue of already closed transaction!"
  const OperationOfDifferentUser := "Operation is bound with different user!"

  /** The twelve messages, in declaration order. */
  function All(): (ms: seq<string>)
    ensures |ms| == 12
    ensures forall i, j :: 0 <= i < j < |ms| ==> ms[i] != ms[j]
  {
    [OperationSuccessful, OperationUnsuccessfulInternalError, UserNotFound, InsufficientFunds,
     DifferentCosts, OrderNotFound, InvalidUnmarshalUser, InvalidUnmarshalOrder,
     InvalidData, InvalidDate, AlreadyClosedTransaction, OperationOfDifferentUser]
  }
}
