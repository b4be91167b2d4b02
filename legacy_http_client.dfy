/** The legacy TypeScript `HttpClient`
    (javascript/legacy/packages/aetherquery/src/http/HttpClient.ts): option
    defaults, the default and authentication headers, the request
    configuration, the choice between one attempt and `retryWithBackoff`,
    and the setters that update the options and the axios defaults in
    place. Axios itself is a parameter: `execute(k)` is how the k-th
    `executeRequest` call settles. Option fields that are absent or
    `undefined` are `None`. */
module LegacyHttpClient {
  import opened Dynamic
  import opened LegacyRetry

  datatype HttpClientOptions = HttpClientOptions(
    baseURL: string,
    timeout: Option<int>,
    maxRetries: Option<int>,
    retryDelay: Option<int>,
    headers: Option<map<string, string>>,
    apiKey: Option<string>,
    sqlKey: Option<string>)

  /** The parts of the axios instance's defaults the client sets. */
  datatype AxiosDefaults = AxiosDefaults(baseURL: string, timeout: Option<int>, headers: map<string, string>)

  /** Per-call configuration (`RequestConfig`). */
  datatype RequestConfig = RequestConfig(headers: Option<map<string, string>>, timeout: Option<int>, retry: Option<bool>)

  /** The configuration handed to axios for one request. */
  datatype AxiosRequest = AxiosRequest(
    verb: string, url: string, data: Value, params: Value,
    headers: Option<map<string, string>>, timeout: Option<int>)

  /** `{timeout: 30000, maxRetries: 3, retryDelay: 1000, headers: {}, ...options}`:
      every field the caller gives wins, every other one takes its default. */
  function WithDefaults(given: HttpClientOptions): (o: HttpClientOptions)
    ensures o.baseURL == given.baseURL && o.apiKey == given.apiKey && o.sqlKey == given.sqlKey
    ensures o.timeout == if given.timeout.Some? then given.timeout else Some(30000)
    ensures o.maxRetries == if given.maxRetries.Some? then given.maxRetries else Some(3)
    ensures o.retryDelay == if given.retryDelay.Some? then given.retryDelay else Some(1000)
    ensures o.headers == if given.headers.Some? then given.headers else Some(map[])
  {
    given.(
      timeout := if given.timeout.Some? then given.timeout else Some(30000),
      maxRetries := if given.maxRetries.Some? then given.maxRetries else Some(3),
      retryDelay := if given.retryDelay.Some? then given.retryDelay else Some(1000),
      headers := if given.headers.Some? then given.headers else Some(map[]))
  }

  /** A header object, `{}` when absent (`{...undefined}` is `{}`). */
  function HeadersOf(h: Option<map<string, string>>): map<string, string> {
    if h.Some? then h.value else map[]
  }

  /** The axios default headers: Content-Type and User-Agent, each overridden
      by an option header of the same name, plus every other option header. */
  function DefaultHeaders(optionHeaders: Option<map<string, string>>): (h: map<string, string>)
    ensures h.Keys == {"Content-Type", "User-Agent"} + HeadersOf(optionHeaders).Keys
    ensures forall k :: k in HeadersOf(optionHeaders) ==> h[k] == HeadersOf(optionHeaders)[k]
    ensures "Content-Type" !in HeadersOf(optionHeaders) ==> h["Content-Type"] == "application/json"
    ensures "User-Agent" !in HeadersOf(optionHeaders) ==> h["User-Agent"] == "AetherQuery-JS-Client/1.0.0"
  {
    map["Content-Type" := "application/json", "User-Agent" := "AetherQuery-JS-Client/1.0.0"] + HeadersOf(optionHeaders)
  }

  /** JavaScript truthiness of an optional string. */
  predicate Truthy(s: Option<string>) {
    s.Some? && s.value != ""
  }

  /** The request interceptor: X-API-Key and X-SQL-Key are set from truthy
      keys; every other header, and these two when their key is falsy, stay
      as they were. */
  function Authorize(headers: map<string, string>, options: HttpClientOptions): (h: map<string, string>)
    ensures Truthy(options.apiKey) ==> "X-API-Key" in h && h["X-API-Key"] == options.apiKey.value
    ensures Truthy(options.sqlKey) ==> "X-SQL-Key" in h && h["X-SQL-Key"] == options.sqlKey.value
    ensures forall k ::
      (k in headers && !(k == "X-API-Key" && Truthy(options.apiKey)) && !(k == "X-SQL-Key" && Truthy(options.sqlKey)))
      ==> k in h && h[k] == headers[k]
    ensures h.Keys == headers.Keys + (if Truthy(options.apiKey) then {"X-API-Key"} else {}) +
      (if Truthy(options.sqlKey) then {"X-SQL-Key"} else {})
  {
    var h1 := if Truthy(options.apiKey) then headers["X-API-Key" := options.apiKey.value] else headers;
    if Truthy(options.sqlKey) then h1["X-SQL-Key" := options.sqlKey.value] else h1
  }

  /** The headers one request goes out with: the axios default headers,
      overridden by the per-call headers, then the interceptor's keys. */
  function SentHeaders(defaultHeaders: map<string, string>, callHeaders: Option<map<string, string>>,
                       options: HttpClientOptions): (h: map<string, string>)
    ensures h.Keys == defaultHeaders.Keys + HeadersOf(callHeaders).Keys
      + (if Truthy(options.apiKey) then {"X-API-Key"} else {})
      + (if Truthy(options.sqlKey) then {"X-SQL-Key"} else {})
    ensures Truthy(options.apiKey) ==> h["X-API-Key"] == options.apiKey.value
    ensures Truthy(options.sqlKey) ==> h["X-SQL-Key"] == options.sqlKey.value
    ensures forall k ::
      (k in HeadersOf(callHeaders)
        && !(k == "X-API-Key" && Truthy(options.apiKey)) && !(k == "X-SQL-Key" && Truthy(options.sqlKey)))
      ==> h[k] == HeadersOf(callHeaders)[k]
    ensures forall k ::
      (k in defaultHeaders && k !in HeadersOf(callHeaders)
        && !(k == "X-API-Key" && Truthy(options.apiKey)) && !(k == "X-SQL-Key" && Truthy(options.sqlKey)))
      ==> h[k] == defaultHeaders[k]
  {
    Authorize(defaultHeaders + HeadersOf(callHeaders), options)
  }

  /** The axios configuration of one request: GET sends its data as query
      parameters and no body, every other verb sends it as the body and no
      parameters; headers and timeout come from the per-call configuration. */
  function BuildRequest(verb: string, path: string, data: Value, config: Option<RequestConfig>): (r: AxiosRequest)
    ensures r.verb == verb && r.url == path
    ensures verb == "GET" ==> r.data == Undefined && r.params == data
    ensures verb != "GET" ==> r.data == data && r.params == Undefined
    ensures config.None? ==> r.headers.None? && r.timeout.None?
    ensures config.Some? ==> r.headers == config.value.headers && r.timeout == config.value.timeout
  {
    AxiosRequest(verb, path,
      if verb != "GET" then data else Undefined,
      if verb == "GET" then data else Undefined,
      if config.Some? then config.value.headers else None,
      if config.Some? then config.value.timeout else None)
  }

  /** `config?.retry !== false && maxRetries && maxRetries > 0`. */
  predicate UsesRetry(config: Option<RequestConfig>, maxRetries: Option<int>) {
    var shouldRetry := !(config.Some? && config.value.retry == Some(false));
    shouldRetry && maxRetries.Some? && maxRetries.value != 0 && maxRetries.value > 0
  }

  /** The retry wrapper is used exactly when the call does not opt out and
      the retry count is positive (the truthiness test adds nothing). */
  lemma UsesRetryMeaning(config: Option<RequestConfig>, maxRetries: Option<int>)
    ensures UsesRetry(config, maxRetries) <==>
      (config.None? || config.value.retry != Some(false)) && maxRetries.Some? && maxRetries.value > 0
  {
  }

  /** `retryDelay || 1000`. */
  function RetryDelayOrDefault(retryDelay: Option<int>): (d: int)
    ensures retryDelay.Some? && retryDelay.value != 0 ==> d == retryDelay.value
    ensures retryDelay.None? || retryDelay.value == 0 ==> d == 1000
    ensures d != 0
  {
    if retryDelay.Some? && retryDelay.value != 0 then retryDelay.value else 1000
  }

  class HttpClient {
    var options: HttpClientOptions
    var defaults: AxiosDefaults

    /** The options are the caller's over the defaults; axios gets the base
        URL, the timeout and the default headers. */
    constructor (given: HttpClientOptions)
      ensures options == WithDefaults(given)
      ensures defaults == AxiosDefaults(given.baseURL, options.timeout, DefaultHeaders(options.headers))
    {
      var merged := WithDefaults(given);
      options := merged;
      defaults := AxiosDefaults(given.baseURL, merged.timeout, DefaultHeaders(merged.headers));
    }

    /** `request`: builds the axios configuration, then either runs
        `executeRequest` once or hands it to `retryWithBackoff` with the
        configured retry count and delay. Every attempt goes out with the
        same headers, `headers`: the axios defaults under the per-call ones,
        with the keys the interceptor adds. */
    method Request(verb: string, path: string, data: Value, config: Option<RequestConfig>,
                   execute: nat -> Settled<Value>)
      returns (sent: AxiosRequest, headers: map<string, string>, outcome: Outcome<Value>, calls: nat, delays: seq<int>)
      ensures sent == BuildRequest(verb, path, data, config)
      ensures headers == SentHeaders(defaults.headers, sent.headers, options)
      ensures UsesRetry(config, options.maxRetries) ==>
        Run(outcome, calls, delays) ==
          RetryWithBackoffRun(execute, options.maxRetries.value, RetryDelayOrDefault(options.retryDelay))
      ensures !UsesRetry(config, options.maxRetries) ==> calls == 1 && delays == []
      ensures !UsesRetry(config, options.maxRetries) && execute(0).Resolved? ==> outcome == Returned(execute(0).value)
      ensures !UsesRetry(config, options.maxRetries) && execute(0).Rejected? ==> outcome == Threw(Some(execute(0).error))
    {
      sent := BuildRequest(verb, path, data, config);
      headers := SentHeaders(defaults.headers, sent.headers, options);
      var shouldRetry := !(config.Some? && config.value.retry == Some(false));
      if shouldRetry && options.maxRetries.Some? && options.maxRetries.value != 0 && options.maxRetries.value > 0 {
        outcome, calls, delays := RetryWithBackoff(execute, options.maxRetries.value, RetryDelayOrDefault(options.retryDelay));
      } else {
        calls, delays := 1, [];
        match execute(0)
        case Resolved(v) => outcome := Returned(v);
        case Rejected(e) => outcome := Threw(Some(e));
      }
    }

    /** `setBaseURL`: the option and the axios default both change. */
    method SetBaseURL(baseURL: string)
      modifies this
      ensures options == old(options).(baseURL := baseURL)
      ensures defaults == old(defaults).(baseURL := baseURL)
    {
      options := options.(baseURL := baseURL);
      defaults := defaults.(baseURL := baseURL);
    }

    /** `setAuth`: both keys are replaced; a key not passed becomes
        undefined. */
    method SetAuth(apiKey: Option<string>, sqlKey: Option<string>)
      modifies this
      ensures options == old(options).(apiKey := apiKey, sqlKey := sqlKey)
      ensures defaults == old(defaults)
    {
      options := options.(apiKey := apiKey, sqlKey := sqlKey);
    }

    /** `setHeaders`: merged into both the option headers and the axios
        default headers; new names are added, existing ones overwritten,
        and every other entry kept. */
    method SetHeaders(headers: map<string, string>)
      modifies this
      ensures options == old(options).(headers := Some(HeadersOf(old(options.headers)) + headers))
      ensures defaults == old(defaults).(headers := old(defaults.headers) + headers)
      ensures forall k :: k in headers ==> HeadersOf(options.headers)[k] == headers[k] && defaults.headers[k] == headers[k]
      ensures forall k :: k in HeadersOf(old(options.headers)) && k !in headers ==>
        k in HeadersOf(options.headers) && HeadersOf(options.headers)[k] == HeadersOf(old(options.headers))[k]
    {
      options := options.(headers := Some(HeadersOf(options.headers) + headers));
      defaults := defaults.(headers := defaults.headers + headers);
    }

    /** `getBaseURL`. */
    method GetBaseURL() returns (baseURL: string)
      ensures baseURL == options.baseURL
    {
      return options.baseURL;
    }
  }
}
