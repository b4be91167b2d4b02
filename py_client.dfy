/** The synchronous Python client (python/aetherquery/client.py): the
    normalised base URL, the session headers, the URL join, the timeout
    default of each request, the mapping of request failures to the
    client's exceptions, and the query payload.

    The `requests` session is a parameter: `Exchange` is how one request
    ended, and the session's own default headers are given to the
    constructor. Timeouts are integers of seconds or strings. */
module PyClient {
  import opened Dynamic
  import Text
  import opened PyExceptions

  /** `s.rstrip('/')`: every trailing slash is removed. */
  function RStripSlashes(s: string): (r: string)
    ensures |r| <= |s| && r == s[..|r|]
    ensures r == [] || r[|r| - 1] != '/'
    ensures forall i :: |r| <= i < |s| ==> s[i] == '/'
    decreases |s|
  {
    if |s| > 0 && s[|s| - 1] == '/' then RStripSlashes(s[..|s| - 1]) else s
  }

  /** `s.lstrip('/')`: every leading slash is removed. */
  function LStripSlashes(s: string): (r: string)
    ensures |r| <= |s| && r == s[|s| - |r|..]
    ensures r == [] || r[0] != '/'
    ensures forall i :: 0 <= i < |s| - |r| ==> s[i] == '/'
    decreases |s|
  {
    if |s| > 0 && s[0] == '/' then LStripSlashes(s[1..]) else s
  }

  /** `f"{base_url}/{endpoint.lstrip('/')}"`. */
  function JoinURL(baseURL: string, endpoint: string): string {
    baseURL + "/" + LStripSlashes(endpoint)
  }

  /** With a base URL stripped of its trailing slashes, exactly one slash
      joins it to the endpoint, whatever slashes the endpoint starts with. */
  lemma OneSlashJoins(baseURL: string, endpoint: string)
    ensures var base := RStripSlashes(baseURL);
      var url := JoinURL(base, endpoint);
      url[..|base|] == base && url[|base|] == '/' &&
      (|base| == 0 || url[|base| - 1] != '/') &&
      (|url| == |base| + 1 || url[|base| + 1] != '/') &&
      url[|base| + 1..] == LStripSlashes(endpoint)
  {
    var base := RStripSlashes(baseURL);
    var url := JoinURL(base, endpoint);
    assert url == base + "/" + LStripSlashes(endpoint);
    assert url[|base| + 1..] == LStripSlashes(endpoint);
  }

  /** How one request of the session ended: a timeout, a connection
      failure, another request failure with its text, or a response with
      its status, the text of the exception it raises (the HTTPError for
      an error status, the decoding error for a body that is not JSON) and
      its JSON body (`None` when the body is not JSON). */
  datatype Exchange =
    | TimedOut
    | ConnectionFailed
    | OtherFailure(text: string)
    | Response(status: int, text: string, json: Option<Value>)

  /** How `_request` ends: with the decoded body, or by raising. */
  datatype Outcome = Returned(value: Value) | Raised(error: PyError)

  /** `raise_for_status` raises for client and server error statuses. */
  predicate IsHttpError(status: int) {
    400 <= status < 600
  }

  /** The request `_request` hands to the session. */
  datatype SentRequest = SentRequest(verb: string, url: string, headers: map<string, string>,
                                     kwargs: map<string, Value>)

  /** The exception `_request` raises for an error status: QueryError for
      400 (no status code), AuthenticationError for 401 and for 403 (both
      with the default status 401), the base error without code or status
      for every other error status. */
  function HttpErrorOf(status: int, text: string): (e: PyError)
    requires IsHttpError(status)
    ensures status == 400 <==> e.kind == Query
    ensures status in {401, 403} <==> e.kind == Authentication
    ensures status !in {400, 401, 403} <==> e.kind == AetherQuery
    ensures status == 400 ==> e.message == "Bad request: " + text && e.statusCode.None?
    ensures status == 401 ==> e.message == "Authentication failed: " + text
    ensures status == 403 ==> e.message == "Forbidden: " + text
    ensures status in {401, 403} ==> e.statusCode == Some(401)
    ensures status !in {400, 401, 403} ==>
      e == PyError(AetherQuery, "HTTP error " + Text.IntToString(status) + ": " + text, None, Null, None)
  {
    if status == 400 then QueryErrorOf("Bad request: " + text, None, Null, None, [], None).error
    else if status == 401 then AuthenticationErrorOf(Given("Authentication failed: " + text), None, Omitted)
    else if status == 403 then AuthenticationErrorOf(Given("Forbidden: " + text), None, Omitted)
    else AetherQueryErrorOf("HTTP error " + Text.IntToString(status) + ": " + text, None, Null, None)
  }

  /** How `_request` ends for an exchange: the body of a successful JSON
      response; otherwise the exception its `except` clauses raise. A
      timeout raises TimeoutError with a string as its timeout, so its
      message repeats "timeout after"; a body that is not JSON raises
      ConnectionError. */
  function RequestOutcome(x: Exchange, timeout: Value): (r: Outcome)
    requires timeout.Num? || timeout.Str?
    ensures r.Returned? <==> x.Response? && !IsHttpError(x.status) && x.json.Some?
    ensures r.Returned? ==> r.value == x.json.value
    ensures x.TimedOut? ==>
      (r.Raised? && r.error.kind == Timeout &&
       r.error.message == "Timeout after " + ("Request timeout after " + PyStr(timeout) + "s") + "s while " + "request")
    ensures x.ConnectionFailed? ==> r.Raised? && r.error.kind == Connection && r.error.message == "Connection failed"
    ensures x.OtherFailure? ==> r.Raised? && r.error.kind == Connection && r.error.message == "Request failed: " + x.text
    ensures x.Response? && IsHttpError(x.status) ==> r == Raised(HttpErrorOf(x.status, x.text))
    ensures x.Response? && !IsHttpError(x.status) && x.json.None? ==>
      r.Raised? && r.error.kind == Connection && r.error.message == "Request failed: " + x.text
  {
    match x
    case TimedOut =>
      var t := "Request timeout after " + PyStr(timeout) + "s";
      assert PyStr(Str(t)) == t;
      Raised(TimeoutErrorOf(Str(t), Omitted, None))
    case ConnectionFailed =>
      Raised(ConnectionErrorOf(Given("Connection failed"), None, None))
    case OtherFailure(text) =>
      Raised(ConnectionErrorOf(Given("Request failed: " + text), None, None))
    case Response(status, text, json) =>
      if IsHttpError(status) then Raised(HttpErrorOf(status, text))
      else match json
        case Some(v) => Returned(v)
        case None => Raised(ConnectionErrorOf(Given("Request failed: " + text), None, None))
  }

  /** `kwargs.setdefault('timeout', self.timeout)`: a timeout the caller
      passes is kept, and the client's is added only when there is none. */
  function WithTimeout(kwargs: map<string, Value>, timeout: Value): (args: map<string, Value>)
    ensures args.Keys == kwargs.Keys + {"timeout"}
    ensures forall k :: k in kwargs ==> args[k] == kwargs[k]
    ensures "timeout" !in kwargs ==> args["timeout"] == timeout
  {
    if "timeout" in kwargs then kwargs else kwargs["timeout" := timeout]
  }

  /** The body `query` posts: the SQL, and the parameters only when they
      are truthy (a non-empty list). */
  function QueryPayload(sql: string, params: Value): (payload: Value)
    ensures payload.Obj? && Lookup(payload.fields, "query") == Some(Str(sql))
    ensures Lookup(payload.fields, "params") == if PyTruthy(params) then Some(params) else None
  {
    Obj([("query", Str(sql))] + (if PyTruthy(params) then [("params", params)] else []))
  }

  const UserAgent := "AetherQuery-Python-Client/0.1.0"

  class AetherClient {
    var baseURL: string
    var apiKey: Option<string>
    var timeout: Value
    var headers: map<string, string>

    /** `AetherClient(base_url, api_key, timeout)` over a session whose own
        default headers are `sessionDefaults`: the base URL loses its
        trailing slashes, the timeout defaults to 30 seconds, the session
        sends the client's User-Agent and Accept headers, and a Bearer
        Authorization header exactly when the API key is truthy. */
    constructor (baseURL: string, apiKey: Option<string>, timeout: Arg<Value>, sessionDefaults: map<string, string>)
      ensures this.baseURL == RStripSlashes(baseURL)
      ensures this.apiKey == apiKey
      ensures this.timeout == ArgOr(timeout, Num(30))
      ensures headers.Keys == sessionDefaults.Keys + {"User-Agent", "Accept"} +
        (if Truthy(apiKey) then {"Authorization"} else {})
      ensures headers["User-Agent"] == UserAgent && headers["Accept"] == "application/json"
      ensures Truthy(apiKey) ==> headers["Authorization"] == "Bearer " + apiKey.value
      ensures forall k :: k in sessionDefaults && k !in {"User-Agent", "Accept", "Authorization"} ==>
        headers[k] == sessionDefaults[k]
      ensures !Truthy(apiKey) && "Authorization" in sessionDefaults ==>
        headers["Authorization"] == sessionDefaults["Authorization"]
    {
      this.baseURL := RStripSlashes(baseURL);
      this.apiKey := apiKey;
      this.timeout := ArgOr(timeout, Num(30));
      var session := sessionDefaults;
      session := session + map["User-Agent" := UserAgent, "Accept" := "application/json"];
      if Truthy(apiKey) {
        session := session["Authorization" := "Bearer " + apiKey.value];
      }
      headers := session;
    }

    /** `_request(method, endpoint, **kwargs)`: the request goes to the
        joined URL with the session headers and the client's timeout added
        to the keyword arguments. */
    method Request(verb: string, endpoint: string, kwargs: map<string, Value>, x: Exchange)
      returns (sent: SentRequest, r: Outcome)
      requires timeout.Num? || timeout.Str?
      ensures sent == SentRequest(verb, JoinURL(baseURL, endpoint), headers, WithTimeout(kwargs, timeout))
      ensures r == RequestOutcome(x, timeout)
    {
      var args := kwargs;
      if "timeout" !in args {
        args := args["timeout" := timeout];
      }
      sent := SentRequest(verb, baseURL + "/" + LStripSlashes(endpoint), headers, args);
      r := RequestOutcome(x, timeout);
    }

    /** `health()`: a GET of /health with the client's timeout. */
    method Health(x: Exchange) returns (sent: SentRequest, r: Outcome)
      requires timeout.Num? || timeout.Str?
      ensures sent.verb == "GET" && sent.url == JoinURL(baseURL, "/health")
      ensures sent.kwargs.Keys == {"timeout"} && sent.kwargs["timeout"] == timeout
      ensures r == RequestOutcome(x, timeout)
    {
      sent, r := Request("GET", "/health", map[], x);
    }

    /** `query(sql, params)`: a POST of the payload to /query. */
    method Query(sql: string, params: Value, x: Exchange) returns (sent: SentRequest, r: Outcome)
      requires timeout.Num? || timeout.Str?
      ensures sent.verb == "POST" && sent.url == JoinURL(baseURL, "/query")
      ensures sent.kwargs == map["json" := QueryPayload(sql, params), "timeout" := timeout]
      ensures r == RequestOutcome(x, timeout)
    {
      var payload := QueryPayload(sql, params);
      var kwargs := map["json" := payload];
      assert "timeout" !in kwargs by {
        assert |"json"| != |"timeout"|;
      }
      sent, r := Request("POST", "/query", kwargs, x);
    }
  }
}
