/** The exception hierarchy of the Python client
    (python/aetherquery/exceptions.py): the base `AetherQueryError` with its
    full message, `__str__` and `to_dict`, and each subclass's message,
    code, default status and details.

    An exception is a value of `PyError`: its class, message, code, details
    (None is `Null`, a dict is an `Obj` in insertion order) and status
    code. Per-subclass attributes that only hold a constructor argument
    (`url`, `reason`, ...) are not kept. A keyword argument left out is
    `Omitted`, so that its default applies. */
module PyExceptions {
  import opened Dynamic
  import Text

  /** A constructor argument: left out, or given (possibly as None). */
  datatype Arg<T> = Omitted | Given(value: T)

  function ArgOr<T>(a: Arg<T>, default: T): T {
    if a.Given? then a.value else default
  }

  datatype Kind =
    | AetherQuery | Connection | Timeout | Authentication | Permission
    | Validation | Query | Server | Configuration

  datatype PyError = PyError(kind: Kind, message: string, code: Option<string>, details: Value,
                             statusCode: Option<int>)

  /** What a constructor call gives: the exception, or the TypeError Python
      raises for a bad keyword argument. */
  datatype Construction = Built(error: PyError) | TypeError

  /** Python truthiness of an optional string and an optional integer. */
  predicate Truthy(s: Option<string>) {
    s.Some? && s.value != ""
  }

  predicate TruthyInt(n: Option<int>) {
    n.Some? && n.value != 0
  }

  /** `str(v)` for the numbers and strings an f-string formats here. */
  function PyStr(v: Value): string
    requires v.Num? || v.Str?
  {
    if v.Num? then Text.IntToString(v.n) else v.s
  }

  /** "HTTP status: " for a truthy status, nothing otherwise. */
  function StatusPrefix(statusCode: Option<int>): (p: string)
    ensures TruthyInt(statusCode) <==> p != []
  {
    if TruthyInt(statusCode) then "HTTP " + Text.IntToString(statusCode.value) + ": " else ""
  }

  /** "[code] " for a truthy code, nothing otherwise. */
  function CodePrefix(code: Option<string>): (p: string)
    ensures Truthy(code) <==> p != []
  {
    if Truthy(code) then "[" + code.value + "] " else ""
  }

  /** The message the base constructor hands to `Exception` (`args[0]`):
      the message, prefixed "[code] " when the code is truthy, and then
      "HTTP status: " when the status is truthy. */
  function FullMessage(e: PyError): (r: string)
    ensures |r| >= |e.message| && r[|r| - |e.message|..] == e.message
    ensures |r| == |e.message| <==> !Truthy(e.code) && !TruthyInt(e.statusCode)
    ensures Text.StartsWith(r, StatusPrefix(e.statusCode))
    ensures Text.StartsWith(r[|StatusPrefix(e.statusCode)|..], CodePrefix(e.code))
  {
    var status, code := StatusPrefix(e.statusCode), CodePrefix(e.code);
    var withCode := code + e.message;
    var full := status + withCode;
    assert full[..|status|] == status;
    assert full[|status|..] == withCode;
    assert withCode[..|code|] == code;
    assert full[|full| - |e.message|..] == e.message;
    full
  }

  /** `__str__`: the message as given. */
  function StrOf(e: PyError): string {
    e.message
  }

  /** `str(e)` is the full message with its prefixes removed, and equals it
      exactly when neither code nor status is truthy. */
  lemma StrIsBareMessage(e: PyError)
    ensures FullMessage(e)[|FullMessage(e)| - |StrOf(e)|..] == StrOf(e)
    ensures FullMessage(e) == StrOf(e) <==> !Truthy(e.code) && !TruthyInt(e.statusCode)
  {
  }

  /** `to_dict`: the message first, then code, details and status code, each
      only when truthy. */
  function ToDict(e: PyError): (r: Value)
    ensures r.Obj? && r.fields != [] && r.fields[0] == ("message", Str(e.message))
  {
    Obj([("message", Str(e.message))] +
        (if Truthy(e.code) then [("code", Str(e.code.value))] else []) +
        (if PyTruthy(e.details) then [("details", e.details)] else []) +
        (if TruthyInt(e.statusCode) then [("status_code", Num(e.statusCode.value))] else []))
  }

  /** What `to_dict` holds under each key. */
  lemma ToDictContents(e: PyError)
    ensures Lookup(ToDict(e).fields, "message") == Some(Str(e.message))
    ensures Lookup(ToDict(e).fields, "code") == if Truthy(e.code) then Some(Str(e.code.value)) else None
    ensures Lookup(ToDict(e).fields, "details") == if PyTruthy(e.details) then Some(e.details) else None
    ensures Lookup(ToDict(e).fields, "status_code") ==
      if TruthyInt(e.statusCode) then Some(Num(e.statusCode.value)) else None
    ensures |ToDict(e).fields| <= 4
  {
    var a: seq<(string, Value)> := [("message", Str(e.message))];
    var b: seq<(string, Value)> := if Truthy(e.code) then [("code", Str(e.code.value))] else [];
    var c: seq<(string, Value)> := if PyTruthy(e.details) then [("details", e.details)] else [];
    var d: seq<(string, Value)> := if TruthyInt(e.statusCode) then [("status_code", Num(e.statusCode.value))] else [];
    assert ToDict(e).fields == a + b + c + d;
    LookupAppend4(a, b, c, d, "message");
    LookupAppend4(a, b, c, d, "code");
    LookupAppend4(a, b, c, d, "details");
    LookupAppend4(a, b, c, d, "status_code");
  }

  lemma LookupAppend4(a: seq<(string, Value)>, b: seq<(string, Value)>, c: seq<(string, Value)>,
                      d: seq<(string, Value)>, key: string)
    ensures Lookup(a + b + c + d, key) ==
      if Lookup(a, key).Some? then Lookup(a, key)
      else if Lookup(b, key).Some? then Lookup(b, key)
      else if Lookup(c, key).Some? then Lookup(c, key)
      else Lookup(d, key)
  {
    LookupAppend(a + b + c, d, key);
    LookupAppend(a + b, c, key);
    LookupAppend(a, b, key);
  }

  /** `details if details else None`: an empty dict becomes None. */
  function DetailsOrNone(fields: seq<(string, Value)>): (r: Value)
    ensures r.Null? <==> fields == []
    ensures r.Obj? ==> r.fields == fields
  {
    if fields == [] then Null else Obj(fields)
  }

  /** The details entry under `key` of an exception, None when its details
      are None or lack the key. */
  function Detail(e: PyError, key: string): Option<Value> {
    if e.details.Obj? then Lookup(e.details.fields, key) else None
  }

  /** A one-entry dict when the condition holds, an empty one otherwise. */
  function Entry(present: bool, key: string, v: Value): seq<(string, Value)> {
    if present then [(key, v)] else []
  }

  /** A details dict of two optional entries under different keys holds
      each entry exactly when it is present. */
  lemma Entries2(p: bool, k1: string, v1: Value, q: bool, k2: string, v2: Value)
    requires k1 != k2
    ensures var d := Entry(p, k1, v1) + Entry(q, k2, v2);
      && Lookup(d, k1) == (if p then Some(v1) else None)
      && Lookup(d, k2) == (if q then Some(v2) else None)
      && (d == [] <==> !p && !q)
  {
    LookupAppend(Entry(p, k1, v1), Entry(q, k2, v2), k1);
    LookupAppend(Entry(p, k1, v1), Entry(q, k2, v2), k2);
  }

  /** The same for three optional entries under pairwise different keys. */
  lemma Entries3(p: bool, k1: string, v1: Value, q: bool, k2: string, v2: Value, r: bool, k3: string, v3: Value)
    requires k1 != k2 && k1 != k3 && k2 != k3
    ensures var d := Entry(p, k1, v1) + Entry(q, k2, v2) + Entry(r, k3, v3);
      && Lookup(d, k1) == (if p then Some(v1) else None)
      && Lookup(d, k2) == (if q then Some(v2) else None)
      && Lookup(d, k3) == (if r then Some(v3) else None)
      && (d == [] <==> !p && !q && !r)
  {
    var ab := Entry(p, k1, v1) + Entry(q, k2, v2);
    Entries2(p, k1, v1, q, k2, v2);
    LookupAppend(ab, Entry(r, k3, v3), k1);
    LookupAppend(ab, Entry(r, k3, v3), k2);
    LookupAppend(ab, Entry(r, k3, v3), k3);
  }

  /** `AetherQueryError(message, code, details, status_code)`. */
  function AetherQueryErrorOf(message: string, code: Option<string>, details: Value, statusCode: Option<int>): (e: PyError)
    ensures e.kind == AetherQuery && e.message == message && e.code == code
    ensures e.details == details && e.statusCode == statusCode
  {
    PyError(AetherQuery, message, code, details, statusCode)
  }

  /** `ConnectionError(message, url, original_error)`: code
      CONNECTION_ERROR and no status; the details hold the url when truthy
      and the text of the original error when one is given, and are None
      when neither is. */
  function ConnectionErrorOf(message: Arg<string>, url: Option<string>, originalError: Option<string>): (e: PyError)
    ensures e.kind == Connection && e.code == Some("CONNECTION_ERROR") && e.statusCode.None?
    ensures e.message == ArgOr(message, "Failed to connect to AetherQuery server")
    ensures e.details.Null? <==> !Truthy(url) && originalError.None?
    ensures Detail(e, "url") == if Truthy(url) then Some(Str(url.value)) else None
    ensures Detail(e, "original_error") == if originalError.Some? then Some(Str(originalError.value)) else None
  {
    var a := Entry(Truthy(url), "url", if url.Some? then Str(url.value) else Null);
    var b := Entry(originalError.Some?, "original_error", if originalError.Some? then Str(originalError.value) else Null);
    Entries2(Truthy(url), "url", if url.Some? then Str(url.value) else Null,
             originalError.Some?, "original_error", if originalError.Some? then Str(originalError.value) else Null);
    PyError(Connection, ArgOr(message, "Failed to connect to AetherQuery server"), Some("CONNECTION_ERROR"),
            DetailsOrNone(a + b), None)
  }

  /** `TimeoutError(timeout, operation, url)`: the message names the timeout
      and the operation ("request" by default), the code is TIMEOUT_ERROR,
      there is no status, and the details always hold the timeout and the
      operation, plus the url when truthy. */
  function TimeoutErrorOf(timeout: Value, operation: Arg<string>, url: Option<string>): (e: PyError)
    requires timeout.Num? || timeout.Str?
    ensures e.kind == Timeout && e.code == Some("TIMEOUT_ERROR") && e.statusCode.None?
    ensures e.message == "Timeout after " + PyStr(timeout) + "s while " + ArgOr(operation, "request")
    ensures Detail(e, "timeout_seconds") == Some(timeout)
    ensures Detail(e, "operation") == Some(Str(ArgOr(operation, "request")))
    ensures Detail(e, "url") == if Truthy(url) then Some(Str(url.value)) else None
  {
    var op := ArgOr(operation, "request");
    var details := Entry(true, "timeout_seconds", timeout) + Entry(true, "operation", Str(op))
      + Entry(Truthy(url), "url", if url.Some? then Str(url.value) else Null);
    Entries3(true, "timeout_seconds", timeout, true, "operation", Str(op),
             Truthy(url), "url", if url.Some? then Str(url.value) else Null);
    PyError(Timeout, "Timeout after " + PyStr(timeout) + "s while " + op, Some("TIMEOUT_ERROR"), Obj(details), None)
  }

  /** `AuthenticationError(message, reason, status_code)`: code
      AUTHENTICATION_ERROR, status 401 unless given, the reason in the
      details when truthy. */
  function AuthenticationErrorOf(message: Arg<string>, reason: Option<string>, statusCode: Arg<Option<int>>): (e: PyError)
    ensures e.kind == Authentication && e.code == Some("AUTHENTICATION_ERROR")
    ensures e.message == ArgOr(message, "Authentication failed")
    ensures statusCode.Omitted? ==> e.statusCode == Some(401)
    ensures statusCode.Given? ==> e.statusCode == statusCode.value
    ensures e.details == if Truthy(reason) then Obj([("reason", Str(reason.value))]) else Null
  {
    PyError(Authentication, ArgOr(message, "Authentication failed"), Some("AUTHENTICATION_ERROR"),
            DetailsOrNone(Entry(Truthy(reason), "reason", if reason.Some? then Str(reason.value) else Null)),
            ArgOr(statusCode, Some(401)))
  }

  /** `PermissionError(message, required_permission, status_code)`: code
      PERMISSION_ERROR, status 403 unless given. */
  function PermissionErrorOf(message: Arg<string>, requiredPermission: Option<string>,
                             statusCode: Arg<Option<int>>): (e: PyError)
    ensures e.kind == Permission && e.code == Some("PERMISSION_ERROR")
    ensures e.message == ArgOr(message, "Insufficient permissions")
    ensures statusCode.Omitted? ==> e.statusCode == Some(403)
    ensures statusCode.Given? ==> e.statusCode == statusCode.value
    ensures e.details ==
      if Truthy(requiredPermission) then Obj([("required_permission", Str(requiredPermission.value))]) else Null
  {
    PyError(Permission, ArgOr(message, "Insufficient permissions"), Some("PERMISSION_ERROR"),
            DetailsOrNone(Entry(Truthy(requiredPermission), "required_permission",
                                if requiredPermission.Some? then Str(requiredPermission.value) else Null)),
            ArgOr(statusCode, Some(403)))
  }

  /** `ValidationError(message, field, value, constraint, status_code)`:
      code VALIDATION_ERROR, status 422 unless given; the field and the
      constraint are kept when truthy, the value whenever it is not None,
      even when it is falsy. */
  function ValidationErrorOf(message: Arg<string>, field: Option<string>, value: Value, constraint: Option<string>,
                             statusCode: Arg<Option<int>>): (e: PyError)
    ensures e.kind == Validation && e.code == Some("VALIDATION_ERROR")
    ensures e.message == ArgOr(message, "Validation failed")
    ensures statusCode.Omitted? ==> e.statusCode == Some(422)
    ensures statusCode.Given? ==> e.statusCode == statusCode.value
    ensures e.details.Null? <==> !Truthy(field) && value.Null? && !Truthy(constraint)
    ensures Detail(e, "field") == if Truthy(field) then Some(Str(field.value)) else None
    ensures Detail(e, "value") == if !value.Null? then Some(value) else None
    ensures Detail(e, "constraint") == if Truthy(constraint) then Some(Str(constraint.value)) else None
  {
    var a := Entry(Truthy(field), "field", if field.Some? then Str(field.value) else Null);
    var b := Entry(!value.Null?, "value", value);
    var c := Entry(Truthy(constraint), "constraint", if constraint.Some? then Str(constraint.value) else Null);
    Entries3(Truthy(field), "field", if field.Some? then Str(field.value) else Null,
             !value.Null?, "value", value,
             Truthy(constraint), "constraint", if constraint.Some? then Str(constraint.value) else Null);
    LookupAppend(a, b, "constraint");
    PyError(Validation, ArgOr(message, "Validation failed"), Some("VALIDATION_ERROR"), DetailsOrNone(a + b + c),
            ArgOr(statusCode, Some(422)))
  }

  /** `QueryError(message, sql, params, position, **kwargs)`: the base is
      called with message, code QUERY_ERROR and details, plus the extra
      keyword arguments, whose names are `kwargs` (`status_code` carrying
      `kwargStatus`). Any extra keyword other than `status_code` is a
      TypeError: message, code or details twice, or one the base does not
      take. The sql and params are kept when truthy, the position whenever
      it is not None. */
  function QueryErrorOf(message: string, sql: Option<string>, params: Value, position: Option<int>,
                        kwargs: seq<string>, kwargStatus: Option<int>): (r: Construction)
    ensures r.Built? <==> forall k :: k in kwargs ==> k == "status_code"
    ensures r.Built? ==> r.error.kind == Query && r.error.message == message && r.error.code == Some("QUERY_ERROR")
    ensures r.Built? ==> r.error.statusCode == if "status_code" in kwargs then kwargStatus else None
    ensures r.Built? ==> (r.error.details.Null? <==> !Truthy(sql) && !PyTruthy(params) && position.None?)
    ensures r.Built? ==> Detail(r.error, "sql") == if Truthy(sql) then Some(Str(sql.value)) else None
    ensures r.Built? ==> Detail(r.error, "params") == if PyTruthy(params) then Some(params) else None
    ensures r.Built? ==> Detail(r.error, "position") == if position.Some? then Some(Num(position.value)) else None
  {
    if exists k :: k in kwargs && k != "status_code" then TypeError
    else
      var a := Entry(Truthy(sql), "sql", if sql.Some? then Str(sql.value) else Null);
      var b := Entry(PyTruthy(params), "params", params);
      var c := Entry(position.Some?, "position", if position.Some? then Num(position.value) else Null);
      Entries3(Truthy(sql), "sql", if sql.Some? then Str(sql.value) else Null,
               PyTruthy(params), "params", params,
               position.Some?, "position", if position.Some? then Num(position.value) else Null);
      Built(PyError(Query, message, Some("QUERY_ERROR"), DetailsOrNone(a + b + c),
                    if "status_code" in kwargs then kwargStatus else None))
  }

  /** `SyntaxError(message, sql, position)` passes code= and status_code=
      on to QueryError, which passes code= again: every call raises
      TypeError. */
  function SyntaxErrorOf(message: Arg<string>, sql: Option<string>, position: Option<int>): (r: Construction)
    ensures r == TypeError
  {
    var kwargs := ["code", "status_code"];
    assert kwargs[0] == "code" && |"code"| != |"status_code"| && kwargs[0] in kwargs;
    QueryErrorOf(ArgOr(message, "SQL syntax error"), sql, Null, position, kwargs, Some(400))
  }

  /** `ExecutionError(message, sql, database_error)` passes details=, code=
      and status_code= on to QueryError: every call raises TypeError. */
  function ExecutionErrorOf(message: Arg<string>, sql: Option<string>, databaseError: Option<string>): (r: Construction)
    ensures r == TypeError
  {
    var kwargs := ["details", "code", "status_code"];
    assert kwargs[1] == "code" && |"code"| != |"status_code"| && kwargs[1] in kwargs;
    QueryErrorOf(ArgOr(message, "Query execution failed"), sql, Null, None, kwargs, Some(400))
  }

  /** `ResourceError(message, resource_type, limit, used)` passes code=,
      details= and status_code= on to QueryError: every call raises
      TypeError. */
  function ResourceErrorOf(message: Arg<string>, resourceType: Option<string>, limit: Option<int>,
                           used: Option<int>): (r: Construction)
    ensures r == TypeError
  {
    var kwargs := ["code", "details", "status_code"];
    assert kwargs[0] == "code" && |"code"| != |"status_code"| && kwargs[0] in kwargs;
    QueryErrorOf(ArgOr(message, "Resource limit exceeded"), None, Null, None, kwargs, Some(429))
  }

  /** `ServerError(message, request_id, status_code)`: code SERVER_ERROR,
      status 500 unless given. */
  function ServerErrorOf(message: Arg<string>, requestId: Option<string>, statusCode: Arg<Option<int>>): (e: PyError)
    ensures e.kind == Server && e.code == Some("SERVER_ERROR")
    ensures e.message == ArgOr(message, "Internal server error")
    ensures statusCode.Omitted? ==> e.statusCode == Some(500)
    ensures statusCode.Given? ==> e.statusCode == statusCode.value
    ensures e.details == if Truthy(requestId) then Obj([("request_id", Str(requestId.value))]) else Null
  {
    PyError(Server, ArgOr(message, "Internal server error"), Some("SERVER_ERROR"),
            DetailsOrNone(Entry(Truthy(requestId), "request_id", if requestId.Some? then Str(requestId.value) else Null)),
            ArgOr(statusCode, Some(500)))
  }

  /** `ConfigurationError(message, config_key, config_value)`: code
      CONFIGURATION_ERROR and no status; the key is kept when truthy, the
      value whenever it is not None. */
  function ConfigurationErrorOf(message: Arg<string>, configKey: Option<string>, configValue: Value): (e: PyError)
    ensures e.kind == Configuration && e.code == Some("CONFIGURATION_ERROR") && e.statusCode.None?
    ensures e.message == ArgOr(message, "Client configuration error")
    ensures e.details.Null? <==> !Truthy(configKey) && configValue.Null?
    ensures Detail(e, "config_key") == if Truthy(configKey) then Some(Str(configKey.value)) else None
    ensures Detail(e, "config_value") == if !configValue.Null? then Some(configValue) else None
  {
    var a := Entry(Truthy(configKey), "config_key", if configKey.Some? then Str(configKey.value) else Null);
    var b := Entry(!configValue.Null?, "config_value", configValue);
    Entries2(Truthy(configKey), "config_key", if configKey.Some? then Str(configKey.value) else Null,
             !configValue.Null?, "config_value", configValue);
    PyError(Configuration, ArgOr(message, "Client configuration error"), Some("CONFIGURATION_ERROR"),
            DetailsOrNone(a + b), None)
  }
}
