/** The Go client's error taxonomy (goja-client/internal/core/errors.go): the
    `AetherError` record and its text, the predefined errors, the mapping
    from an HTTP status to an error code, the three classification
    predicates, and error wrapping. */
module CoreErrors {
  import opened Dynamic
  import Text

  /** `*AetherError`; an `HTTPCode` of 0 means "no HTTP status". */
  datatype AetherError = AetherError(code: string, message: string, details: Value, httpCode: int)

  /** A Go `error` value: either an `*AetherError` or some other error, known
      only by its `Error()` text. */
  datatype GoError = Aether(e: AetherError) | Other(text: string)

  /** `AetherError.Error()`: "[code] HTTP n: message" when an HTTP status is
      present, "[code] message" otherwise. */
  function ErrorText(e: AetherError): (s: string)
    ensures |s| >= |e.code| + 3 + |e.message|
    ensures Text.StartsWith(s, "[" + e.code + "] ")
    ensures s[|s| - |e.message|..] == e.message
    ensures e.httpCode != 0 ==> s[|e.code| + 3..|s| - |e.message|] == "HTTP " + Text.IntToString(e.httpCode) + ": "
    ensures e.httpCode == 0 ==> |s| == |e.code| + 3 + |e.message|
  {
    var head := "[" + e.code + "] ";
    if e.httpCode != 0 then
      var mid := "HTTP " + Text.IntToString(e.httpCode) + ": ";
      var s := head + mid + e.message;
      assert s[..|head|] == head;
      assert s[|s| - |e.message|..] == e.message;
      assert s[|head|..|s| - |e.message|] == mid;
      s
    else
      var s := head + e.message;
      assert s[..|head|] == head;
      assert s[|s| - |e.message|..] == e.message;
      s
  }

  /** The `Error()` text of any Go error. */
  function GoErrorText(err: GoError): string {
    match err
    case Aether(e) => ErrorText(e)
    case Other(t) => t
  }

  const ErrConnectionFailed := AetherError("CONNECTION_FAILED", "Failed to connect to AetherQuery server", Null, 0)
  const ErrInvalidResponse := AetherError("INVALID_RESPONSE", "Invalid response from server", Null, 0)
  const ErrQueryExecution := AetherError("QUERY_EXECUTION_FAILED", "Query execution failed", Null, 0)
  const ErrAuthentication := AetherError("AUTHENTICATION_FAILED", "Authentication failed", Null, 0)
  const ErrValidation := AetherError("VALIDATION_ERROR", "Request validation failed", Null, 0)
  const ErrTimeout := AetherError("TIMEOUT", "Request timeout", Null, 0)

  /** The status codes ErrorMapper names explicitly. */
  predicate KnownStatus(status: int) {
    status == 400 || status == 401 || status == 403 || status == 404 || status == 422 ||
    status == 429 || status == 500 || status == 502 || status == 503 || status == 504
  }

  /** `ErrorMapper`: the error for an HTTP status, keeping the message and the
      details and recording the status. Each code is produced by exactly the
      statuses listed for it; every other status gives UNKNOWN_ERROR. */
  function ErrorMapper(statusCode: int, message: string, details: Value): (e: AetherError)
    ensures e.message == message && e.details == details && e.httpCode == statusCode
    ensures e.code == "BAD_REQUEST" <==> statusCode == 400
    ensures e.code == "UNAUTHORIZED" <==> statusCode == 401
    ensures e.code == "FORBIDDEN" <==> statusCode == 403
    ensures e.code == "NOT_FOUND" <==> statusCode == 404
    ensures e.code == "VALIDATION_ERROR" <==> statusCode == 422
    ensures e.code == "RATE_LIMITED" <==> statusCode == 429
    ensures e.code == "SERVER_ERROR" <==> statusCode == 500
    ensures e.code == "SERVICE_UNAVAILABLE" <==> statusCode == 502 || statusCode == 503 || statusCode == 504
    ensures e.code == "UNKNOWN_ERROR" <==> !KnownStatus(statusCode)
  {
    var code :=
      if statusCode == 400 then "BAD_REQUEST"
      else if statusCode == 401 then "UNAUTHORIZED"
      else if statusCode == 403 then "FORBIDDEN"
      else if statusCode == 404 then "NOT_FOUND"
      else if statusCode == 422 then "VALIDATION_ERROR"
      else if statusCode == 429 then "RATE_LIMITED"
      else if statusCode == 500 then "SERVER_ERROR"
      else if statusCode == 502 || statusCode == 503 || statusCode == 504 then "SERVICE_UNAVAILABLE"
      else "UNKNOWN_ERROR";
    AetherError(code, message, details, statusCode)
  }

  /** `IsConnectionError`: a network or connection failure, or any status of
      500 and above; never true of an error that is not an AetherError. */
  predicate IsConnectionError(err: GoError) {
    match err
    case Aether(e) => e.code == "NETWORK_ERROR" || e.code == "CONNECTION_FAILED" || e.httpCode >= 500
    case Other(_) => false
  }

  /** `IsAuthenticationError`. */
  predicate IsAuthenticationError(err: GoError) {
    match err
    case Aether(e) =>
      e.code == "UNAUTHORIZED" || e.code == "FORBIDDEN" || e.code == "AUTHENTICATION_FAILED" ||
      e.httpCode == 401 || e.httpCode == 403
    case Other(_) => false
  }

  /** `IsValidationError`. */
  predicate IsValidationError(err: GoError) {
    match err
    case Aether(e) =>
      e.code == "VALIDATION_ERROR" || e.code == "BAD_REQUEST" || e.httpCode == 400 || e.httpCode == 422
    case Other(_) => false
  }

  /** An error that is not an AetherError is never classified. */
  lemma OtherErrorsUnclassified(text: string)
    ensures !IsConnectionError(Other(text))
    ensures !IsAuthenticationError(Other(text))
    ensures !IsValidationError(Other(text))
  {
  }

  /** On the errors ErrorMapper builds, the classification depends only on the
      status: connection errors are exactly the statuses from 500 up,
      authentication errors exactly 401 and 403, validation errors exactly
      400 and 422. */
  lemma MappedErrorClassification(statusCode: int, message: string, details: Value)
    ensures IsConnectionError(Aether(ErrorMapper(statusCode, message, details))) <==> statusCode >= 500
    ensures IsAuthenticationError(Aether(ErrorMapper(statusCode, message, details))) <==>
      statusCode == 401 || statusCode == 403
    ensures IsValidationError(Aether(ErrorMapper(statusCode, message, details))) <==>
      statusCode == 400 || statusCode == 422
  {
    var e := ErrorMapper(statusCode, message, details);
    assert e.code != "NETWORK_ERROR" && e.code != "CONNECTION_FAILED" && e.code != "AUTHENTICATION_FAILED";
  }

  /** The predefined errors fall in their own classes: the connection failure
      is a connection error, the authentication failure an authentication
      error, the validation failure a validation error, and the timeout none
      of the three. */
  lemma PredefinedClassification()
    ensures IsConnectionError(Aether(ErrConnectionFailed))
    ensures IsAuthenticationError(Aether(ErrAuthentication))
    ensures IsValidationError(Aether(ErrValidation))
    ensures !IsConnectionError(Aether(ErrTimeout)) && !IsAuthenticationError(Aether(ErrTimeout)) &&
            !IsValidationError(Aether(ErrTimeout))
  {
  }

  /** `WrapError`: the given code, the message "<message>: <err>" and no HTTP
      status. */
  function WrapError(err: GoError, code: string, message: string): (w: AetherError)
    ensures w.code == code && w.httpCode == 0 && w.details == Null
    ensures w.message == message + ": " + GoErrorText(err)
  {
    AetherError(code, message + ": " + GoErrorText(err), Null, 0)
  }

  /** A wrapped error is classified by its code alone, and its text is
      "[code] message: err". */
  lemma WrappedErrorClassification(err: GoError, code: string, message: string)
    ensures IsConnectionError(Aether(WrapError(err, code, message))) <==>
      code == "NETWORK_ERROR" || code == "CONNECTION_FAILED"
    ensures IsAuthenticationError(Aether(WrapError(err, code, message))) <==>
      code == "UNAUTHORIZED" || code == "FORBIDDEN" || code == "AUTHENTICATION_FAILED"
    ensures IsValidationError(Aether(WrapError(err, code, message))) <==>
      code == "VALIDATION_ERROR" || code == "BAD_REQUEST"
    ensures ErrorText(WrapError(err, code, message)) == "[" + code + "] " + message + ": " + GoErrorText(err)
  {
  }
}
