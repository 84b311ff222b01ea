/** The outcome of every service call: an error kept for logging, a message for the caller, optional data. */
module Responses {
  import opened Wrappers
  import opened UInt64
  import opened Errors
  import opened Reports

  /** `service.Balance`. */
  datatype Balance = Balance(value: uint64)

  /** The values the service puts in `Response.Data`; `NoData` is Go's nil. */
  datatype Data =
    | NoData
    | BalanceData(balance: Balance)
    | OperationsData(operations: seq<Operation>)
    | ReportFile(name: string)

  datatype Response = Response(error: Option<Error>, message: string, data: Data)

  /** What JSON encoding of a Response shows: the message, and the data unless it is nil. */
  datatype Json = Json(message: string, data: Option<Data>)

  function Serialize(r: Response): (j: Json)
    ensures j.message == r.message
    ensures j.data.None? <==> r.data == NoData
    ensures j.data.Some? ==> j.data.value == r.data
  {
    Json(r.message, if r.data == NoData then None else Some(r.data))
  }

  /** The error field is never serialised: responses differing only in it encode alike. */
  lemma ErrorNotSerialised(r: Response, e: Option<Error>)
    ensures Serialize(r.(error := e)) == Serialize(r)
  {
  }
}
