/** The Go client object (goja-client/internal/core/client.go): functional
    options applied in order over the defaults, construction of the HTTP
    client with the authentication headers, `ExecuteQuery` over the HTTP
    layer, and the setters that update the client and its HTTP client in
    place. Encoding and decoding JSON are parameters. */
module CoreClient {
  import opened Dynamic
  import opened CoreModels
  import opened CoreErrors
  import opened CoreUtils
  import opened CoreHttp

  datatype ClientOptions = ClientOptions(
    apiKey: string,
    sqlKey: string,
    timeout: int,
    maxRetries: int,
    retryDelay: int,
    headers: map<string, string>)

  /** What `json.Marshal` or `json.Unmarshal` gives back: a value, or an
      error with its text. */
  datatype Json<T> = Json(value: T) | JsonError(reason: string)

  /** A `ClientOption` closure, named by the constructor that made it. */
  datatype ClientOption =
    | WithAPIKey(apiKey: string)
    | WithSQLKey(sqlKey: string)
    | WithTimeout(timeout: int)
    | WithMaxRetries(retries: int)
    | WithHeader(key: string, value: string)

  /** The options NewClient starts from: 30 s timeout, 3 retries, 1 s retry
      delay, no keys and no extra headers. */
  const DefaultOptions := ClientOptions("", "", 30 * Second, 3, 1 * Second, map[])

  /** Running one option closure on the options: each sets its own field and
      leaves every other one as it was; WithHeader sets exactly one header
      entry. */
  function Apply(option: ClientOption, opts: ClientOptions): (r: ClientOptions)
    ensures option.WithAPIKey? ==> r == opts.(apiKey := option.apiKey)
    ensures option.WithSQLKey? ==> r == opts.(sqlKey := option.sqlKey)
    ensures option.WithTimeout? ==> r == opts.(timeout := option.timeout)
    ensures option.WithMaxRetries? ==> r == opts.(maxRetries := option.retries)
    ensures option.WithHeader? ==> r == opts.(headers := opts.headers[option.key := option.value])
  {
    match option
    case WithAPIKey(k) => opts.(apiKey := k)
    case WithSQLKey(k) => opts.(sqlKey := k)
    case WithTimeout(t) => opts.(timeout := t)
    case WithMaxRetries(n) => opts.(maxRetries := n)
    case WithHeader(k, v) => opts.(headers := opts.headers[k := v])
  }

  /** The options after running `options` left to right. */
  function ApplyAll(options: seq<ClientOption>, opts: ClientOptions): ClientOptions
    decreases |options|
  {
    if options == [] then opts else ApplyAll(options[1..], Apply(options[0], opts))
  }

  /** Applying a list is applying its first part, then the rest. */
  lemma {:induction false} ApplyAllAppend(xs: seq<ClientOption>, ys: seq<ClientOption>, opts: ClientOptions)
    ensures ApplyAll(xs + ys, opts) == ApplyAll(ys, ApplyAll(xs, opts))
    decreases |xs|
  {
    if xs != [] {
      assert (xs + ys)[1..] == xs[1..] + ys;
      ApplyAllAppend(xs[1..], ys, Apply(xs[0], opts));
    } else {
      assert xs + ys == ys;
    }
  }

  /** Options that never set MaxRetries leave it alone. */
  lemma {:induction false} MaxRetriesUntouched(options: seq<ClientOption>, opts: ClientOptions)
    requires forall i :: 0 <= i < |options| ==> !options[i].WithMaxRetries?
    ensures ApplyAll(options, opts).maxRetries == opts.maxRetries
    decreases |options|
  {
    if options != [] {
      MaxRetriesUntouched(options[1..], Apply(options[0], opts));
    }
  }

  /** Options apply left to right: the last WithMaxRetries decides the retry
      count, whatever came before it. */
  lemma LastMaxRetriesWins(options: seq<ClientOption>, i: nat, opts: ClientOptions)
    requires i < |options| && options[i].WithMaxRetries?
    requires forall j :: i < j < |options| ==> !options[j].WithMaxRetries?
    ensures ApplyAll(options, opts).maxRetries == options[i].retries
  {
    assert options == options[..i] + [options[i]] + options[i + 1..];
    ApplyAllAppend(options[..i] + [options[i]], options[i + 1..], opts);
    ApplyAllAppend(options[..i], [options[i]], opts);
    MaxRetriesUntouched(options[i + 1..], ApplyAll(options[..i + 1], opts));
    assert options[..i] + [options[i]] == options[..i + 1];
  }

  /** Options that never set a header for `key` leave its entry alone. */
  lemma {:induction false} HeaderUntouched(options: seq<ClientOption>, opts: ClientOptions, key: string)
    requires forall i :: 0 <= i < |options| ==> !(options[i].WithHeader? && options[i].key == key)
    ensures (key in ApplyAll(options, opts).headers) == (key in opts.headers)
    ensures key in opts.headers ==> ApplyAll(options, opts).headers[key] == opts.headers[key]
    decreases |options|
  {
    if options != [] {
      HeaderUntouched(options[1..], Apply(options[0], opts), key);
    }
  }

  /** The header table an HTTP client starts with: X-API-Key and X-SQL-Key,
      each only when its key is non-empty. */
  function AuthTable(opts: ClientOptions): (t: map<string, string>)
    ensures ("X-API-Key" in t) <==> opts.apiKey != ""
    ensures ("X-SQL-Key" in t) <==> opts.sqlKey != ""
    ensures "X-API-Key" in t ==> t["X-API-Key"] == opts.apiKey
    ensures "X-SQL-Key" in t ==> t["X-SQL-Key"] == opts.sqlKey
    ensures t.Keys <= {"X-API-Key", "X-SQL-Key"}
  {
    var t1: map<string, string> := if opts.apiKey != "" then map["X-API-Key" := opts.apiKey] else map[];
    if opts.sqlKey != "" then t1["X-SQL-Key" := opts.sqlKey] else t1
  }

  /** The header table after SetAuth: a non-empty key sets its header, an
      empty one removes it; every other entry stays. */
  function AuthUpdate(table: map<string, string>, apiKey: string, sqlKey: string): (t: map<string, string>)
    ensures ("X-API-Key" in t) <==> apiKey != ""
    ensures ("X-SQL-Key" in t) <==> sqlKey != ""
    ensures "X-API-Key" in t ==> t["X-API-Key"] == apiKey
    ensures "X-SQL-Key" in t ==> t["X-SQL-Key"] == sqlKey
    ensures forall k :: k != "X-API-Key" && k != "X-SQL-Key" ==>
      (k in t <==> k in table) && (k in t ==> t[k] == table[k])
  {
    var t1 := if apiKey != "" then table["X-API-Key" := apiKey] else table - {"X-API-Key"};
    if sqlKey != "" then t1["X-SQL-Key" := sqlKey] else t1 - {"X-SQL-Key"}
  }

  /** `AetherClient`. */
  class AetherClient {
    var baseURL: string
    var httpClient: HTTPClient
    var options: ClientOptions

    /** `NewClient(baseURL, options...)`: the options are the defaults with
        every option applied in order; the HTTP client gets the base URL,
        the timeouts, the retry count and the option headers, and its header
        table holds the authentication headers for the non-empty keys. */
    constructor (baseURL: string, clientOptions: seq<ClientOption>)
      ensures this.baseURL == baseURL
      ensures options == ApplyAll(clientOptions, DefaultOptions)
      ensures fresh(httpClient)
      ensures httpClient.options ==
        HTTPOptions(baseURL, options.timeout, options.maxRetries, options.retryDelay, options.headers)
      ensures httpClient.headers == AuthTable(options)
    {
      var opts := DefaultOptions;
      var i := 0;
      while i < |clientOptions|
        invariant 0 <= i <= |clientOptions|
        invariant ApplyAll(clientOptions[i..], opts) == ApplyAll(clientOptions, DefaultOptions)
      {
        assert clientOptions[i..][1..] == clientOptions[i + 1..];
        opts := Apply(clientOptions[i], opts);
        i := i + 1;
      }
      var h := new HTTPClient(HTTPOptions(baseURL, opts.timeout, opts.maxRetries, opts.retryDelay, opts.headers));
      if opts.apiKey != "" {
        h.SetHeader("X-API-Key", opts.apiKey);
      }
      if opts.sqlKey != "" {
        h.SetHeader("X-SQL-Key", opts.sqlKey);
      }
      this.baseURL := baseURL;
      httpClient := h;
      options := opts;
    }

    /** `SetBaseURL`: the client's base URL and its HTTP client's base URL
        both change; nothing else does. */
    method SetBaseURL(baseURL: string)
      modifies this, httpClient
      ensures this.baseURL == baseURL
      ensures httpClient == old(httpClient)
      ensures httpClient.options == old(httpClient.options).(baseURL := baseURL)
      ensures httpClient.headers == old(httpClient.headers)
      ensures options == old(options)
    {
      this.baseURL := baseURL;
      httpClient.SetBaseURL(baseURL);
    }

    /** `SetAuth`: both keys are stored in the options; in the header table
        a non-empty key sets its header and an empty one removes it. The
        option headers, where WithHeader entries live, are untouched. */
    method SetAuth(apiKey: string, sqlKey: string)
      modifies this, httpClient
      ensures options == old(options).(apiKey := apiKey, sqlKey := sqlKey)
      ensures baseURL == old(baseURL) && httpClient == old(httpClient)
      ensures httpClient.headers == AuthUpdate(old(httpClient.headers), apiKey, sqlKey)
      ensures httpClient.options == old(httpClient.options)
    {
      options := options.(apiKey := apiKey, sqlKey := sqlKey);
      if apiKey != "" {
        httpClient.SetHeader("X-API-Key", apiKey);
      } else {
        httpClient.RemoveHeader("X-API-Key");
      }
      if sqlKey != "" {
        httpClient.SetHeader("X-SQL-Key", sqlKey);
      } else {
        httpClient.RemoveHeader("X-SQL-Key");
      }
    }

    /** `ExecuteQuery`: the request is marshalled with `marshal` and POSTed
        to /query, visiting the header maps in the given orders, and a
        response body is unmarshalled with `unmarshal`. A marshal failure
        sends nothing; it, an HTTP failure and an unmarshal failure are
        each returned as the error, the JSON ones with their text after
        the prefix; otherwise the decoded response. */
    method ExecuteQuery(query: string, params: seq<Value>, queryOptions: Option<QueryOptions>,
                        marshal: QueryRequest -> Json<string>, transport: nat -> Exchange,
                        unmarshal: string -> Json<QueryResponse>,
                        tableOrder: seq<string>, optionOrder: seq<string>)
      returns (sent: Option<OutgoingRequest>, r: Outcome<QueryResponse>)
      requires Enumerates(tableOrder, httpClient.headers) && Enumerates(optionOrder, httpClient.options.headers)
      ensures var encoded := marshal(QueryRequest(query, params, queryOptions));
        encoded.JsonError? ==> sent == None && r == Fail(Other("failed to marshal request: " + encoded.reason))
      ensures var encoded := marshal(QueryRequest(query, params, queryOptions));
        encoded.Json? ==>
          sent == Some(OutgoingRequest("POST", httpClient.options.baseURL + "/query",
            RequestHeaders(httpClient.headers, tableOrder, httpClient.options.headers, optionOrder),
            Some(encoded.value)))
      ensures var encoded := marshal(QueryRequest(query, params, queryOptions));
        var chain := RequestChain(transport, 0, httpClient.options.maxRetries);
        encoded.Json? ==>
          (chain.result.Failure? ==> r == Fail(Aether(chain.result.err))) &&
          (chain.result.Body? && unmarshal(chain.result.body).JsonError? ==>
             r == Fail(Other("failed to unmarshal response: " + unmarshal(chain.result.body).reason))) &&
          (chain.result.Body? && unmarshal(chain.result.body).Json? ==>
             r == Ok(unmarshal(chain.result.body).value))
    {
      var request := QueryRequest(query, params, queryOptions);
      match marshal(request)
      case JsonError(reason) =>
        return None, Fail(Other("failed to marshal request: " + reason));
      case Json(data) =>
        var request, result, attempts, delays := httpClient.Post("/query", data, transport, tableOrder, optionOrder);
        sent := Some(request);
        match result
        case Failure(e) =>
          return sent, Fail(Aether(e));
        case Body(body) =>
          match unmarshal(body)
          case JsonError(reason) =>
            return sent, Fail(Other("failed to unmarshal response: " + reason));
          case Json(response) =>
            return sent, Ok(response);
    }
  }

  /** The last WithHeader for a key decides that key's option header. */
  lemma {:induction false} LastHeaderWins(options: seq<ClientOption>, i: nat, opts: ClientOptions)
    requires i < |options| && options[i].WithHeader?
    requires forall j :: i < j < |options| ==> !(options[j].WithHeader? && options[j].key == options[i].key)
    ensures options[i].key in ApplyAll(options, opts).headers
    ensures ApplyAll(options, opts).headers[options[i].key] == options[i].value
    decreases |options|
  {
    var rest := options[1..];
    var next := Apply(options[0], opts);
    assert ApplyAll(options, opts) == ApplyAll(rest, next);
    if i == 0 {
      assert forall j :: 0 <= j < |rest| ==> rest[j] == options[j + 1];
      HeaderUntouched(rest, next, options[0].key);
    } else {
      assert rest[i - 1] == options[i];
      assert forall j :: i - 1 < j < |rest| ==> rest[j] == options[j + 1];
      LastHeaderWins(rest, i - 1, next);
    }
  }

  /** A header added with WithHeader travels in the option headers, which
      are set after the header table, so no SetAuth can remove or change
      it: whatever the table holds and whatever order Go visits the maps
      in, its canonical name is on every request with the value of an
      option header of that name, and with the option's own value when no
      other option header differs from its key only in case. */
  lemma WithHeaderSurvivesSetAuth(clientOptions: seq<ClientOption>, i: nat,
                                  table: map<string, string>, tableOrder: seq<string>, optionOrder: seq<string>)
    requires i < |clientOptions| && clientOptions[i].WithHeader?
    requires forall j :: i < j < |clientOptions| ==>
      !(clientOptions[j].WithHeader? && clientOptions[j].key == clientOptions[i].key)
    requires Enumerates(tableOrder, table)
    requires Enumerates(optionOrder, ApplyAll(clientOptions, DefaultOptions).headers)
    ensures var opts := ApplyAll(clientOptions, DefaultOptions);
      var h := RequestHeaders(table, tableOrder, opts.headers, optionOrder);
      var name := CanonicalKey(clientOptions[i].key);
      name in h &&
      (exists k :: k in opts.headers && CanonicalKey(k) == name && h[name] == opts.headers[k]) &&
      (UniqueIn(clientOptions[i].key, opts.headers) ==> h[name] == clientOptions[i].value)
  {
    var opts := ApplyAll(clientOptions, DefaultOptions);
    LastHeaderWins(clientOptions, i, DefaultOptions);
    OptionHeaderValue(table, tableOrder, opts.headers, optionOrder, CanonicalKey(clientOptions[i].key));
    RequestHeadersLayers(table, tableOrder, opts.headers, optionOrder, clientOptions[i].key);
  }
}
