/**
 * The two pure pieces of the HTTP layer: the status code a response message
 * is sent with, and the defaulting and trimming of the operations listing's
 * query parameters.
 */
module Handlers {
  import opened Wrappers
  import opened Errors
  import M = Messages
  import opened Responses
  import LS = LedgerService
  import OQ = OperationsQuery

  const StatusOK := 200
  const StatusAccepted := 202
  const StatusBadRequest := 400
  const StatusUnprocessableEntity := 422
  const StatusInternalServerError := 500

  /** The messages the status table names; every other message keeps the handler's default. */
  function RejectionMessages(): (ms: set<string>)
    ensures M.OperationSuccessful !in ms
    ensures M.OperationUnsuccessfulInternalError in ms
  {
    {M.OperationUnsuccessfulInternalError, M.DifferentCosts, M.InsufficientFunds,
     M.OrderNotFound, M.UserNotFound, M.InvalidData, M.InvalidDate,
     M.OperationOfDifferentUser, M.AlreadyClosedTransaction}
  }

  /** httpCodeByMessage. */
  function HttpCodeByMessage(msg: string, defaultCode: int): (code: int)
    ensures msg == M.OperationUnsuccessfulInternalError ==> code == StatusInternalServerError
    ensures msg == M.DifferentCosts || msg == M.InsufficientFunds ==> code == StatusUnprocessableEntity
    ensures msg in RejectionMessages() - {M.OperationUnsuccessfulInternalError, M.DifferentCosts, M.InsufficientFunds} ==>
      code == StatusBadRequest
    ensures msg !in RejectionMessages() ==> code == defaultCode
  {
    if msg == M.OperationUnsuccessfulInternalError then StatusInternalServerError
    else if msg == M.DifferentCosts || msg == M.InsufficientFunds then StatusUnprocessableEntity
    else if msg in {M.OrderNotFound, M.UserNotFound, M.InvalidData, M.InvalidDate,
                    M.OperationOfDifferentUser, M.AlreadyClosedTransaction} then StatusBadRequest
    else defaultCode
  }

  /** The endpoints, each with the code it sends a response the status table does not name. */
  datatype Route = GetBalance | AddBalance | GetRevenue | ReserveCash | GetSummary | GetOperations

  function DefaultCode(route: Route): (code: int)
    ensures code == StatusAccepted <==> route == AddBalance || route == ReserveCash
    ensures code == StatusOK || code == StatusAccepted
  {
    match route
    case GetBalance => StatusOK
    case AddBalance => StatusAccepted
    case GetRevenue => StatusOK
    case ReserveCash => StatusAccepted
    case GetSummary => StatusOK
    case GetOperations => StatusOK
  }

  /**
   * The statuses a settlement's failed lookup is sent with: the caller's
   * mistakes are 400, a cost mismatch is 422, and any other failure is 500;
   * never the endpoint's success code.
   */
  lemma LookupFailureStatus(e: Error)
    ensures var code := HttpCodeByMessage(LS.MapLookupError(e).message, DefaultCode(GetRevenue));
      && (e == Store(ErrClosedTransaction) || e == Store(ErrOperationOfDifferentUser) || e == Store(StoreSentinel.ErrOrderNotFound) ==>
            code == StatusBadRequest)
      && (e == Store(StoreSentinel.ErrDifferentCosts) ==> code == StatusUnprocessableEntity)
      && (!e.Store? || e.store == ErrSortParamNotFound ==> code == StatusInternalServerError)
      && code != DefaultCode(GetRevenue)
  {
  }

  /** A successful response keeps the endpoint's default code; an internal failure is always 500. */
  lemma SuccessAndInternalStatus(route: Route, data: Data, e: Error)
    ensures HttpCodeByMessage(LS.Success(data).message, DefaultCode(route)) == DefaultCode(route)
    ensures HttpCodeByMessage(LS.Internal(e).message, DefaultCode(route)) == StatusInternalServerError
  {
  }

  // strings.Trim(x, `\"`): the cut set is the backslash and the double quote

  predicate Cut(c: char) {
    c == '\\' || c == '"'
  }

  /** The length of the leading run of cut characters. */
  function LeadingCuts(s: string): (n: nat)
    ensures n <= |s|
    ensures forall k :: 0 <= k < n ==> Cut(s[k])
    ensures n < |s| ==> !Cut(s[n])
  {
    if s != [] && Cut(s[0]) then 1 + LeadingCuts(s[1..]) else 0
  }

  /** The length of the trailing run of cut characters. */
  function TrailingCuts(s: string): (n: nat)
    ensures n <= |s|
    ensures forall k :: |s| - n <= k < |s| ==> Cut(s[k])
    ensures n < |s| ==> !Cut(s[|s| - 1 - n])
  {
    if s != [] && Cut(s[|s| - 1]) then 1 + TrailingCuts(s[..|s| - 1]) else 0
  }

  /**
   * The middle of `s` once its leading run of cut characters and then the
   * trailing run of the rest are dropped: it neither starts nor ends with a
   * cut character, and only cut characters were dropped.
   */
  function Trim(s: string): (r: string)
    ensures var i := LeadingCuts(s);
      && i + |r| <= |s| && r == s[i..i + |r|]
      && (forall k :: 0 <= k < i ==> Cut(s[k]))
      && (forall k :: i + |r| <= k < |s| ==> Cut(s[k]))
      && (r == [] || (!Cut(r[0]) && !Cut(r[|r| - 1])))
  {
    var i := LeadingCuts(s);
    var rest := s[i..];
    var j := |rest| - TrailingCuts(rest);
    assert forall k :: i + j <= k < |s| ==> Cut(s[k]) by {
      forall k | i + j <= k < |s| ensures Cut(s[k]) {
        assert s[k] == rest[k - i];
      }
    }
    rest[..j]
  }

  /** Trimming is idempotent. */
  lemma TrimIdempotent(s: string)
    ensures Trim(Trim(s)) == Trim(s)
  {
    var t := Trim(s);
    assert LeadingCuts(t) == 0;
  }

  /** The parameters getOperations hands to the service. */
  datatype OperationsRequest = OperationsRequest(userId: int, page: int, sortby: string, direction: string)

  /**
   * getOperations before the service call. `userId` and `page` are the
   * integer parses of the `user_id` and `page` parameters; the page is only
   * parsed when `pageParam` is present, and 0 otherwise.
   */
  function ParseOperationsQuery(userId: Result<int, Error>, pageParam: string, page: Result<int, Error>,
                                sortParam: string, directionParam: string): (r: Result<OperationsRequest, Response>)
    ensures userId.Err? ==> r == Err(Response(Some(Wrapped("can't parse user id", userId.error)), M.InvalidData, NoData))
    ensures userId.Ok? && pageParam != "" && page.Err? ==>
      r == Err(Response(Some(Wrapped("can't parse page", page.error)), M.InvalidData, NoData))
    ensures r.Ok? <==> userId.Ok? && (pageParam == "" || page.Ok?)
    ensures r.Ok? ==> r.value.userId == userId.value
    ensures r.Ok? ==> r.value.page == if pageParam == "" then 0 else page.value
    ensures r.Ok? ==> r.value.sortby == Trim(sortParam) && r.value.direction == Trim(directionParam)
  {
    if userId.Err? then Err(Response(Some(Wrapped("can't parse user id", userId.error)), M.InvalidData, NoData))
    else if pageParam != "" && page.Err? then Err(Response(Some(Wrapped("can't parse page", page.error)), M.InvalidData, NoData))
    else
      var p := if pageParam == "" then 0 else page.value;
      Ok(OperationsRequest(userId.value, p, Trim(sortParam), Trim(directionParam)))
  }

  /** A rejected parameter is sent as 400. */
  lemma ParseFailureStatus(userId: Result<int, Error>, pageParam: string, page: Result<int, Error>,
                           sortParam: string, directionParam: string)
    requires ParseOperationsQuery(userId, pageParam, page, sortParam, directionParam).Err?
    ensures HttpCodeByMessage(ParseOperationsQuery(userId, pageParam, page, sortParam, directionParam).error.message, StatusBadRequest)
         == StatusBadRequest
  {
  }

  /**
   * Without page and sort parameters the listing is the plain unpaged one,
   * however the sort parameter was quoted.
   */
  lemma MissingPageAndSortListAll(userId: int, page: Result<int, Error>, sortParam: string, directionParam: string)
    requires forall i :: 0 <= i < |sortParam| ==> Cut(sortParam[i])
    ensures var r := ParseOperationsQuery(Ok(userId), "", page, sortParam, directionParam);
      r.Ok? && r.value.page == 0 && OQ.SelectPlan(r.value.page, r.value.sortby, r.value.direction) == Ok(OQ.Plan(None, false, false))
  {
  }
}
