/** Convenience helpers of the Go client (goja-client/internal/core/utils.go):
    converting a query response into row objects, its first row and first
    value, validating the success flag, and the QuickQuery/QuickValue
    compositions. The query exchange itself is a parameter. */
module CoreUtils {
  import opened Dynamic
  import opened CoreModels
  import opened CoreErrors

  /** A Go `(value, error)` pair: either a value with a nil error, or an
      error with a nil value. */
  datatype Outcome<T> = Ok(value: T) | Fail(err: GoError)

  /** `ResultToObjects`: an empty, non-nil list when the response carries no
      result, otherwise the row maps of all rows in order (nil when there are
      no rows). It never reports an error. */
  function ResultToObjects(response: QueryResponse): (objects: Option<seq<map<string, Value>>>)
    requires response.result.Some? ==> RowsCoverColumns(response.result.value)
    ensures response.result.None? ==> objects == Some([])
    ensures response.result.Some? ==>
      var qr := response.result.value;
      (objects.None? <==> qr.rows == []) &&
      (objects.Some? ==>
         |objects.value| == |qr.rows| &&
         forall i :: 0 <= i < |qr.rows| ==> objects.value[i] == RowMap(qr.columns, qr.rows[i]))
  {
    match response.result
    case None => Some([])
    case Some(qr) => AppendedSlice(AllRowMaps(qr))
  }

  /** `FirstRow`: nil without a result or without rows, otherwise the map of
      row 0. */
  function FirstRow(response: QueryResponse): (row: Option<map<string, Value>>)
    requires response.result.Some? && response.result.value.rows != [] ==>
      |response.result.value.rows[0]| >= |response.result.value.columns|
    ensures row.None? <==> response.result.None? || response.result.value.rows == []
    ensures row.Some? ==> row.value.Keys == set c | c in response.result.value.columns
  {
    match response.result
    case None => None
    case Some(qr) => if qr.rows == [] then None else Some(RowMap(qr.columns, qr.rows[0]))
  }

  /** The first row is the first of the row objects. */
  lemma FirstRowIsFirstObject(response: QueryResponse)
    requires response.result.Some? && RowsCoverColumns(response.result.value)
    requires response.result.value.rows != []
    ensures ResultToObjects(response).Some?
    ensures FirstRow(response) == Some(ResultToObjects(response).value[0])
  {
  }

  /** `FirstValue`: nil without a result, without rows, or with an empty first
      row; otherwise the first cell of the first row. */
  function FirstValue(response: QueryResponse): (v: Value)
    ensures response.result.None? ==> v == Null
    ensures response.result.Some? ==> v == GetValue(response.result.value, 0, 0)
  {
    match response.result
    case None => Null
    case Some(qr) =>
      if qr.rows == [] then Null
      else if qr.rows[0] == [] then Null
      else qr.rows[0][0]
  }

  /** The error text `fmt.Errorf("[%s] %s", code, message)` produces. */
  function BracketedError(detail: ErrorDetail): string {
    "[" + detail.code + "] " + detail.message
  }

  /** `ValidateResponse`: no error exactly when the response reports success;
      a failed response yields "[code] message" when it carries an error
      detail and "query execution failed" otherwise. */
  function ValidateResponse(response: QueryResponse): (err: Option<GoError>)
    ensures err.None? <==> response.success
    ensures !response.success && response.error.Some? ==> err == Some(Other(BracketedError(response.error.value)))
    ensures !response.success && response.error.None? ==> err == Some(Other("query execution failed"))
  {
    if !response.success then
      match response.error
      case Some(detail) => Some(Other(BracketedError(detail)))
      case None => Some(Other("query execution failed"))
    else None
  }

  /** `AetherClient.QuickQuery`, given the outcome of `ExecuteQuery`: an
      exchange error is returned as is, a failed response yields the
      validation error and no objects, a successful one its row objects. */
  function QuickQuery(executed: Outcome<QueryResponse>): (r: Outcome<Option<seq<map<string, Value>>>>)
    requires executed.Ok? && executed.value.result.Some? ==> RowsCoverColumns(executed.value.result.value)
    ensures executed.Fail? ==> r == Fail(executed.err)
    ensures executed.Ok? && !executed.value.success ==> r == Fail(ValidateResponse(executed.value).value)
    ensures executed.Ok? && executed.value.success ==> r == Ok(ResultToObjects(executed.value))
  {
    match executed
    case Fail(e) => Fail(e)
    case Ok(response) =>
      match ValidateResponse(response)
      case Some(e) => Fail(e)
      case None => Ok(ResultToObjects(response))
  }

  /** `AetherClient.QuickValue`, given the outcome of `ExecuteQuery`: the same
      error handling as QuickQuery, then the first value. */
  function QuickValue(executed: Outcome<QueryResponse>): (r: Outcome<Value>)
    ensures executed.Fail? ==> r == Fail(executed.err)
    ensures executed.Ok? && !executed.value.success ==> r == Fail(ValidateResponse(executed.value).value)
    ensures executed.Ok? && executed.value.success ==> r == Ok(FirstValue(executed.value))
  {
    match executed
    case Fail(e) => Fail(e)
    case Ok(response) =>
      match ValidateResponse(response)
      case Some(e) => Fail(e)
      case None => Ok(FirstValue(response))
  }

  /** A response that reports failure never yields objects or a value, even
      when it carries a result, and the error it yields is a plain error that
      none of the AetherError predicates classifies. */
  lemma FailedResponseYieldsNothing(response: QueryResponse)
    requires !response.success
    requires response.result.Some? ==> RowsCoverColumns(response.result.value)
    ensures QuickQuery(Ok(response)).Fail? && QuickValue(Ok(response)).Fail?
    ensures QuickQuery(Ok(response)).err == QuickValue(Ok(response)).err
    ensures !IsConnectionError(QuickQuery(Ok(response)).err)
    ensures !IsAuthenticationError(QuickQuery(Ok(response)).err)
    ensures !IsValidationError(QuickQuery(Ok(response)).err)
  {
  }
}
