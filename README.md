# AetherQuery client SDKs and mock servers, modelled in Dafny

AetherQuery is a small SQL-over-HTTP service. Clients written in several
languages send a query to `/query` and get back a JSON response. That
response has a success flag, a `result` holding `columns` and `rows`, or an
error. This project models the behaviour of those clients and of the mock
servers they are tried against, one Dafny module per source file:

- **Go core of the goja client.** `CoreModels` is the query-result accessors.
  `CoreUtils` is the response helpers. `CoreErrors` is the status → error-code
  table and the classification predicates. `CoreHttp` is the HTTP client, with
  Go's header-name canonicalisation, its header layering and its retry
  decision tree. `CoreClient` is the client
  options, the authentication headers and `ExecuteQuery`.
- **JavaScript inside the goja runtime.** `JsAetherQuery` is the
  `AetherQueryClient`, `AetherHTTPClient` and `QueryResult` classes. `JsHttp`
  is the `HTTPResponse` wrapper and the placeholder bindings. `JsUtils` is
  `isObject`. `GojaModules` is the module registry.
- **Legacy TypeScript package.** `LegacyRetry` is retry with exponential
  backoff. `LegacyHttpClient` is the axios wrapper: defaults, the auth
  interceptor, request building and the retry choice. `LegacyAsyncClient` is
  `queryRows`, `queryFirst` and `queryValue`.
- **Python.** `PyExceptions` is the exception hierarchy, with messages,
  `to_dict` and details. `PyClient` is the synchronous client: URL
  normalisation, failure → exception mapping and the query payload.
  `PyTestServer` is the FastAPI test server's query classification, its query
  counter and the bare-socket router.
- **Go mock server (`cmd/server`).** `MockServer` is `contains`, the
  query-type prefix rule, `generateMockData` and the method dispatch of
  `handleQuery`.
- **Go WASM export (`shared.go`).** `SharedQuery` is `ProcessQuery` and
  `HealthCheck`.
- **Rust command-line client.** `RustShell` is batch execution and the
  interactive shell's command dispatch. `RustOutput` is the output renderers,
  each a function from the server's text to the printed lines.
- **C# WASM client.** `WasmLifecycle` is the lifecycle of module handle,
  instance handle and initialised flag.

Two helper modules hold what several files share. `Text` has ASCII case
mapping, whitespace trimming, substring search, join/split and decimal
rendering. `Dynamic` has a JSON-like `Value`, JavaScript and Python
truthiness, JavaScript's conversions to string and to number, and
insertion-ordered objects as association lists.

**What the model does not run.** Nothing that talks to the outside world is
modelled as code. An HTTP exchange, a JSON codec, a native call or the server
behind a client is a parameter. Each is an oracle that gives a response or a
failure, or a function such as `parse` or `stringify`. So is the order in
which Go happens to iterate over a map. Delays are recorded
as values instead of being slept.

**Form.** Code that changes state step by step is imperative Dafny:
- the Go `HTTPClient` and `AetherClient`;
- the legacy `HttpClient`;
- the JavaScript classes;
- `ModuleLoader`;
- the Python client and server state;
- the C# `WasmClient`;
- the loops of `RowToMap`, `AllToMaps`, `GetColumn`, `retryWithBackoff`,
  `generateMockData`, `contains`, `queryRows`/`toObjects`, the batch runner
  and the shell.

Each method is proved against a specification function. The properties of
that function are proved as lemmas. Expression-only code is functions and
lemmas.

## Model

| member | source | states |
|---|---|---|
| CoreModels.RowMap | AetherQuery_Ecosystem/javascript/goja-client/internal/core/models.go:70-74 | the map of a row has exactly the column names as keys |
| CoreModels.RowMapMeaning | AetherQuery_Ecosystem/javascript/goja-client/internal/core/models.go:70-74 | each column name maps to the cell at its last occurrence, so a repeated name keeps the later cell |
| CoreModels.RowMapDistinct | AetherQuery_Ecosystem/javascript/goja-client/internal/core/models.go:70-74 | with distinct column names, column i maps to cell i |
| CoreModels.RowToMap | AetherQuery_Ecosystem/javascript/goja-client/internal/core/models.go:65-75 | nil exactly for a row index below 0 or past the last row; otherwise the loop builds the row's map |
| CoreModels.AllRowMaps | AetherQuery_Ecosystem/javascript/goja-client/internal/core/models.go:78-84 | one map per row, in row order, the i-th being row i's map |
| CoreModels.AllToMaps | AetherQuery_Ecosystem/javascript/goja-client/internal/core/models.go:78-84 | the appending loop gives those maps, and a nil slice when there are no rows |
| CoreModels.GetValue | AetherQuery_Ecosystem/javascript/goja-client/internal/core/models.go:87-95 | the cell when the row index is in range and the column index is inside that row's own length, nil otherwise |
| CoreModels.GetValueAgreesWithRowMap | AetherQuery_Ecosystem/javascript/goja-client/internal/core/models.go:87-95 | with distinct column names, GetValue agrees with the row map under that column's name |
| CoreModels.ColumnCellsMeaning | AetherQuery_Ecosystem/javascript/goja-client/internal/core/models.go:98-106 | a column has at most one cell per row; when every row is long enough, it has exactly GetValue of each row in order |
| CoreModels.GetColumn | AetherQuery_Ecosystem/javascript/goja-client/internal/core/models.go:98-106 | the loop collects, in row order, the cell of every row long enough to have one (nil when none has, and nil for no rows whatever the index) |
| CoreModels.FirstColumnIndex | AetherQuery_Ecosystem/javascript/goja-client/internal/core/models.go:109-116 | the first index holding the name, and none exactly when the name is absent |
| CoreModels.GetColumnByName | AetherQuery_Ecosystem/javascript/goja-client/internal/core/models.go:109-116 | nil for an unknown name; otherwise GetColumn of the first matching column |
| CoreModels.FirstIndexUnique | AetherQuery_Ecosystem/javascript/goja-client/internal/core/models.go:109-116 | any index holding the name with no earlier occurrence is the one chosen |
| CoreUtils.ResultToObjects | AetherQuery_Ecosystem/javascript/goja-client/internal/core/utils.go:6-11 | an empty non-nil list without a result; otherwise the row maps in order (nil when there are no rows) |
| CoreUtils.FirstRow | AetherQuery_Ecosystem/javascript/goja-client/internal/core/utils.go:14-19 | nil exactly when there is no result or no row; otherwise a map keyed by the columns |
| CoreUtils.FirstRowIsFirstObject | AetherQuery_Ecosystem/javascript/goja-client/internal/core/utils.go:14-19 | FirstRow is the first element of ResultToObjects |
| CoreUtils.FirstValue | AetherQuery_Ecosystem/javascript/goja-client/internal/core/utils.go:22-30 | nil without a result, otherwise GetValue(0, 0), which is nil for no rows or an empty first row |
| CoreUtils.ValidateResponse | AetherQuery_Ecosystem/javascript/goja-client/internal/core/utils.go:33-41 | no error exactly on success; a failure gives "[code] message" when an error is present, else "query execution failed" |
| CoreUtils.QuickQuery | AetherQuery_Ecosystem/javascript/goja-client/internal/core/utils.go:44-55 | an execution error passes through, then the validation error, and only a successful response yields objects |
| CoreUtils.QuickValue | AetherQuery_Ecosystem/javascript/goja-client/internal/core/utils.go:58-69 | the same order: execution error, validation error, then the first value |
| CoreUtils.FailedResponseYieldsNothing | AetherQuery_Ecosystem/javascript/goja-client/internal/core/utils.go:44-69 | a failed response gives the same error from both helpers, and that error is in none of the three classes |
| CoreErrors.ErrorText | AetherQuery_Ecosystem/javascript/goja-client/internal/core/errors.go:14-19 | "[code] " then "HTTP n: " only when the HTTP code is non-zero, then the message |
| CoreErrors.ErrorMapper | AetherQuery_Ecosystem/javascript/goja-client/internal/core/errors.go:55-121 | each code holds exactly for its statuses (400, 401, 403, 404, 422, 429, 500, 502-504), UNKNOWN_ERROR for all others; message, details and status kept |
| CoreErrors.OtherErrorsUnclassified | AetherQuery_Ecosystem/javascript/goja-client/internal/core/errors.go:124-154 | an error that is not an AetherError is in none of the three classes |
| CoreErrors.MappedErrorClassification | AetherQuery_Ecosystem/javascript/goja-client/internal/core/errors.go:55-154 | a mapped error is a connection error iff status ≥ 500, authentication iff 401/403, validation iff 400/422 |
| CoreErrors.PredefinedClassification | AetherQuery_Ecosystem/javascript/goja-client/internal/core/errors.go:22-52 | the predefined connection, authentication and validation errors satisfy their predicates; the timeout error satisfies none |
| CoreErrors.WrapError | AetherQuery_Ecosystem/javascript/goja-client/internal/core/errors.go:157-162 | the given code, message "<message>: <err>", HTTP code 0 and no details |
| CoreErrors.WrappedErrorClassification | AetherQuery_Ecosystem/javascript/goja-client/internal/core/errors.go:124-162 | a wrapped error is a connection error iff its code is NETWORK_ERROR or CONNECTION_FAILED, authentication iff UNAUTHORIZED, FORBIDDEN or AUTHENTICATION_FAILED, validation iff VALIDATION_ERROR or BAD_REQUEST; it renders without an HTTP part |
| CoreHttp.ShouldRetryAgreesWithMapper | AetherQuery_Ecosystem/javascript/goja-client/internal/core/http.go:134-138 | retrying happens for 408, 429 and exactly the statuses whose mapped error is a connection error |
| CoreHttp.CanonicalKeyMeaning | AetherQuery_Ecosystem/javascript/goja-client/internal/core/http.go:69-77 | `Header.Set` only changes the case of a name: a name of token bytes becomes upper case at each word start and lower case elsewhere, and any other name is kept |
| CoreHttp.CanonicalKeyIdempotent | AetherQuery_Ecosystem/javascript/goja-client/internal/core/http.go:69-77 | canonicalising twice is canonicalising once |
| CoreHttp.CanonicalKeyIgnoresCase | AetherQuery_Ecosystem/javascript/goja-client/internal/core/http.go:72-77 | two token names that differ only in case set the same header |
| CoreHttp.OnTheWire | AetherQuery_Ecosystem/javascript/goja-client/internal/core/http.go:72-77 | a name is sent under the canonical spelling of its letters |
| CoreHttp.ClientHeaderNames | AetherQuery_Ecosystem/javascript/goja-client/internal/core/http.go:69-70 | Content-Type and User-Agent are sent as written; the table's X-API-Key and X-SQL-Key go out as X-Api-Key and X-Sql-Key |
| CoreHttp.HeadersAfterKeys | AetherQuery_Ecosystem/javascript/goja-client/internal/core/http.go:72-77 | after a loop of Set calls, the names present are the earlier ones and the canonical forms of the keys set |
| CoreHttp.HeadersAfterUntouched | AetherQuery_Ecosystem/javascript/goja-client/internal/core/http.go:72-77 | a name that no key of the loop canonicalises to keeps its value |
| CoreHttp.HeadersAfterLastWins | AetherQuery_Ecosystem/javascript/goja-client/internal/core/http.go:72-77 | the last key visited with a given canonical form decides that header |
| CoreHttp.HeadersAfterHit | AetherQuery_Ecosystem/javascript/goja-client/internal/core/http.go:72-77 | a name some key canonicalises to holds the value of one such key |
| CoreHttp.UniqueKeyWins | AetherQuery_Ecosystem/javascript/goja-client/internal/core/http.go:72-77 | a key that is alone in its layer with its canonical form sets its value, whatever the iteration order |
| CoreHttp.UnnamedKept | AetherQuery_Ecosystem/javascript/goja-client/internal/core/http.go:72-77 | a layer with no key of a name's canonical form leaves that header alone |
| CoreHttp.OrderFree | AetherQuery_Ecosystem/javascript/goja-client/internal/core/http.go:72-77 | when no two keys of a layer differ only in case, the map iteration order does not change the headers |
| CoreHttp.SetAll | AetherQuery_Ecosystem/javascript/goja-client/internal/core/http.go:72-77 | the `for key, value := range` loop of Set calls computes HeadersAfter for the order visited |
| CoreHttp.FixedHeadersAre | AetherQuery_Ecosystem/javascript/goja-client/internal/core/http.go:69-70 | the first two Set calls give exactly Content-Type JSON and the Go client User-Agent |
| CoreHttp.RequestHeadersKeys | AetherQuery_Ecosystem/javascript/goja-client/internal/core/http.go:69-77 | a request carries Content-Type, User-Agent and the canonical forms of the table's and the options' keys, and nothing else; every name is canonical |
| CoreHttp.RequestHeadersLayers | AetherQuery_Ecosystem/javascript/goja-client/internal/core/http.go:69-77 | an option header beats the SetHeader table, which beats the fixed headers, for keys alone in their layer with their canonical form |
| CoreHttp.OptionHeaderValue | AetherQuery_Ecosystem/javascript/goja-client/internal/core/http.go:75-77 | whatever the iteration order, a name an option key canonicalises to carries the value of such an option key |
| CoreHttp.Decide | AetherQuery_Ecosystem/javascript/goja-client/internal/core/http.go:80-128 | retry only with retries left, after a transport failure or an undecoded retryable status; 2xx returns the body; a decoded error is returned at once with the status |
| CoreHttp.RequestChain | AetherQuery_Ecosystem/javascript/goja-client/internal/core/http.go:52-131 | the recursion on the retry counter makes at least one attempt |
| CoreHttp.AttemptsBounded | AetherQuery_Ecosystem/javascript/goja-client/internal/core/http.go:80-127 | at most retries + 1 attempts |
| CoreHttp.PersistentTransportFailure | AetherQuery_Ecosystem/javascript/goja-client/internal/core/http.go:80-90 | a transport that always fails is tried exactly retries + 1 times and ends in NETWORK_ERROR with HTTP code 0 |
| CoreHttp.FirstAnswerDecides | AetherQuery_Ecosystem/javascript/goja-client/internal/core/http.go:103-130 | a 2xx or a decoded error on the first attempt ends the chain there, even for 5xx |
| CoreHttp.ChainResultOrigin | AetherQuery_Ecosystem/javascript/goja-client/internal/core/http.go:103-130 | a returned body is the last answer's 2xx body; an HTTP_ERROR carries the last non-2xx status |
| CoreHttp.HTTPClient.constructor | AetherQuery_Ecosystem/javascript/goja-client/internal/core/http.go:29-39 | the options as given and an empty header table |
| CoreHttp.HTTPClient.SetHeader | AetherQuery_Ecosystem/javascript/goja-client/internal/core/http.go:141-143 | the key maps to the value and nothing else changes |
| CoreHttp.HTTPClient.RemoveHeader | AetherQuery_Ecosystem/javascript/goja-client/internal/core/http.go:146-148 | only that key is removed |
| CoreHttp.HTTPClient.SetBaseURL | AetherQuery_Ecosystem/javascript/goja-client/internal/core/http.go:151-153 | only the base URL changes |
| CoreHttp.HTTPClient.Request | AetherQuery_Ecosystem/javascript/goja-client/internal/core/http.go:52-131 | the URL is base URL + endpoint with no slash handling; the headers are the RequestHeaders of the table and option headers in the orders visited; the retry loop's result and attempt count are those of the recursive chain; one retry delay between attempts |
| CoreHttp.HTTPClient.Post | AetherQuery_Ecosystem/javascript/goja-client/internal/core/http.go:42-44 | a POST of the body to base URL + endpoint with the request headers, at most MaxRetries + 1 attempts |
| CoreHttp.HTTPClient.Get | AetherQuery_Ecosystem/javascript/goja-client/internal/core/http.go:47-49 | a GET without a body to base URL + endpoint with the request headers, at most MaxRetries + 1 attempts |
| CoreClient.Apply | AetherQuery_Ecosystem/javascript/goja-client/internal/core/client.go:66-97 | each With* option sets exactly its own field (WithHeader: exactly that key) |
| CoreClient.ApplyAllAppend | AetherQuery_Ecosystem/javascript/goja-client/internal/core/client.go:36-38 | options apply left to right, so a list is applied as its parts in sequence |
| CoreClient.MaxRetriesUntouched | AetherQuery_Ecosystem/javascript/goja-client/internal/core/client.go:36-38 | without WithMaxRetries the default stays |
| CoreClient.LastMaxRetriesWins | AetherQuery_Ecosystem/javascript/goja-client/internal/core/client.go:36-38 | the last WithMaxRetries wins |
| CoreClient.HeaderUntouched | AetherQuery_Ecosystem/javascript/goja-client/internal/core/client.go:90-97 | a header no option names keeps its presence and value |
| CoreClient.LastHeaderWins | AetherQuery_Ecosystem/javascript/goja-client/internal/core/client.go:90-97 | the last WithHeader for a key sets its value |
| CoreClient.AuthTable | AetherQuery_Ecosystem/javascript/goja-client/internal/core/client.go:49-54 | X-API-Key and X-SQL-Key are present exactly for non-empty keys, and nothing else is |
| CoreClient.AuthUpdate | AetherQuery_Ecosystem/javascript/goja-client/internal/core/client.go:172-187 | a non-empty key sets its header, an empty one removes it, and other headers are untouched |
| CoreClient.AetherClient.constructor | AetherQuery_Ecosystem/javascript/goja-client/internal/core/client.go:27-61 | the options are the defaults with every option applied; the HTTP client gets them, and the auth table goes in its header table |
| CoreClient.AetherClient.SetBaseURL | AetherQuery_Ecosystem/javascript/goja-client/internal/core/client.go:166-169 | both the client's and the HTTP client's base URL change, nothing else |
| CoreClient.AetherClient.SetAuth | AetherQuery_Ecosystem/javascript/goja-client/internal/core/client.go:172-187 | both keys are stored and the header table is updated by AuthUpdate |
| CoreClient.AetherClient.ExecuteQuery | AetherQuery_Ecosystem/javascript/goja-client/internal/core/client.go:100-123 | a marshal failure sends nothing and returns "failed to marshal request: <err>"; otherwise the request {query, params, options} is marshalled and POSTed to base URL + /query with the request headers, and the result is the HTTP chain's error, "failed to unmarshal response: <err>", or the decoded response |
| CoreClient.WithHeaderSurvivesSetAuth | AetherQuery_Ecosystem/javascript/goja-client/internal/core/client.go:40-46 | a WithHeader value travels in the option headers, set after the header table: whatever the table holds and whatever the iteration order, its canonical name carries an option header's value, and the option's own value when no other option key differs from it only in case |
| LegacyRetry.RetryWithBackoff | AetherQuery_Ecosystem/javascript/legacy/packages/aetherquery/src/http/retry.ts:3-35 | the loop's outcome, call count and delays are those of the recursive retry run |
| LegacyRetry.CallsBounded | AetherQuery_Ecosystem/javascript/legacy/packages/aetherquery/src/http/retry.ts:10-34 | at most maxRetries + 1 calls, none exactly when maxRetries < 0 (then the unset last error is thrown), and one delay fewer than calls |
| LegacyRetry.DelaysDoubled | AetherQuery_Ecosystem/javascript/legacy/packages/aetherquery/src/http/retry.ts:29-30 | the wait after attempt k is baseDelay·2^k |
| LegacyRetry.FirstSuccessReturned | AetherQuery_Ecosystem/javascript/legacy/packages/aetherquery/src/http/retry.ts:12 | after retryable failures, the first success is returned and no further call is made |
| LegacyRetry.ClientErrorRethrown | AetherQuery_Ecosystem/javascript/legacy/packages/aetherquery/src/http/retry.ts:17-21 | an AetherQueryError with status 400, 401, 403 or 422 is rethrown at once |
| LegacyRetry.LastErrorThrown | AetherQuery_Ecosystem/javascript/legacy/packages/aetherquery/src/http/retry.ts:24-34 | when every attempt fails, the last attempt's error is thrown after maxRetries + 1 calls |
| LegacyHttpClient.WithDefaults | AetherQuery_Ecosystem/javascript/legacy/packages/aetherquery/src/http/HttpClient.ts:11-17 | timeout 30000, maxRetries 3, retryDelay 1000 and headers {} unless the caller gives each |
| LegacyHttpClient.DefaultHeaders | AetherQuery_Ecosystem/javascript/legacy/packages/aetherquery/src/http/HttpClient.ts:22-26 | Content-Type JSON and the client User-Agent, each overridden by the option headers |
| LegacyHttpClient.Authorize | AetherQuery_Ecosystem/javascript/legacy/packages/aetherquery/src/http/HttpClient.ts:37-44 | X-API-Key and X-SQL-Key are added exactly when their option is truthy; every other header is kept |
| LegacyHttpClient.BuildRequest | AetherQuery_Ecosystem/javascript/legacy/packages/aetherquery/src/http/HttpClient.ts:83-90 | GET puts data in params with no body; other methods send it as the body with no params; headers and timeout come from the config |
| LegacyHttpClient.UsesRetryMeaning | AetherQuery_Ecosystem/javascript/legacy/packages/aetherquery/src/http/HttpClient.ts:92-94 | retry is used iff config.retry is not false and maxRetries > 0 |
| LegacyHttpClient.RetryDelayOrDefault | AetherQuery_Ecosystem/javascript/legacy/packages/aetherquery/src/http/HttpClient.ts:98 | a falsy retry delay falls back to 1000 |
| LegacyHttpClient.HttpClient.constructor | AetherQuery_Ecosystem/javascript/legacy/packages/aetherquery/src/http/HttpClient.ts:10-30 | the options with defaults, and axios defaults from them |
| LegacyHttpClient.SentHeaders | AetherQuery_Ecosystem/javascript/legacy/packages/aetherquery/src/http/HttpClient.ts:34-47 | a request's headers are the axios defaults, overridden by the per-call headers, with X-API-Key and X-SQL-Key set from truthy keys over both |
| LegacyHttpClient.HttpClient.Request | AetherQuery_Ecosystem/javascript/legacy/packages/aetherquery/src/http/HttpClient.ts:77-103 | the request built by BuildRequest, sent with the current defaults and keys as SentHeaders says; with retry the retry run, else one call whose result is returned or thrown as is |
| LegacyHttpClient.HttpClient.SetBaseURL | AetherQuery_Ecosystem/javascript/legacy/packages/aetherquery/src/http/HttpClient.ts:116-119 | the options and axios defaults both take the new base URL |
| LegacyHttpClient.HttpClient.SetAuth | AetherQuery_Ecosystem/javascript/legacy/packages/aetherquery/src/http/HttpClient.ts:121-124 | both keys are replaced, including by undefined |
| LegacyHttpClient.HttpClient.SetHeaders | AetherQuery_Ecosystem/javascript/legacy/packages/aetherquery/src/http/HttpClient.ts:126-132 | new keys are added, given keys overwritten and other keys kept, in the options and the defaults |
| LegacyHttpClient.HttpClient.GetBaseURL | AetherQuery_Ecosystem/javascript/legacy/packages/aetherquery/src/http/HttpClient.ts:134-136 | the base URL last set |
| LegacyAsyncClient.RowsOf | AetherQuery_Ecosystem/javascript/legacy/packages/aetherquery/src/client/AsyncAetherClient.ts:15-37 | "Query failed: <message>" thrown on failure, [] without a result, else one object per row in order |
| LegacyAsyncClient.QueryRows | AetherQuery_Ecosystem/javascript/legacy/packages/aetherquery/src/client/AsyncAetherClient.ts:30-36 | the map loop builds exactly those row objects |
| LegacyAsyncClient.RowObjectsHoldCells | AetherQuery_Ecosystem/javascript/legacy/packages/aetherquery/src/client/AsyncAetherClient.ts:32-34 | in each row object, a column name holds the cell under its last occurrence (undefined past the row's end) |
| LegacyAsyncClient.QueryFirst | AetherQuery_Ecosystem/javascript/legacy/packages/aetherquery/src/client/AsyncAetherClient.ts:42-48 | the first row object, or null exactly when there are no rows |
| LegacyAsyncClient.QueryValue | AetherQuery_Ecosystem/javascript/legacy/packages/aetherquery/src/client/AsyncAetherClient.ts:53-62 | null without a first row, else the object's first value (undefined for an empty object) |
| LegacyAsyncClient.QueryValueIsFirstCell | AetherQuery_Ecosystem/javascript/legacy/packages/aetherquery/src/client/AsyncAetherClient.ts:53-62 | with rows, the value is the first row's cell under the last column named like the first column |
| LegacyAsyncClient.NoResultMeansNull | AetherQuery_Ecosystem/javascript/legacy/packages/aetherquery/src/client/AsyncAetherClient.ts:25-27 | without a result there is no first row and the value is null |
| Dynamic.JsOr | AetherQuery_Ecosystem/javascript/goja-client/internal/js/api/aetherquery.js:129 | `a \|\| b` is a when a is truthy, else b |
| Dynamic.Put | AetherQuery_Ecosystem/javascript/legacy/packages/aetherquery/src/client/AsyncAetherClient.ts:33 | assigning an existing key keeps the key order; a new key is appended |
| Dynamic.LookupPut | AetherQuery_Ecosystem/javascript/legacy/packages/aetherquery/src/client/AsyncAetherClient.ts:33 | after an assignment the key reads back the value and every other key is unchanged |
| Dynamic.ZipObjectStep | AetherQuery_Ecosystem/javascript/legacy/packages/aetherquery/src/client/AsyncAetherClient.ts:32-34 | one more forEach step assigns the next column's cell |
| Dynamic.AssignColumns | AetherQuery_Ecosystem/javascript/goja-client/internal/js/api/aetherquery.js:145-149 | the forEach loop on a fresh object builds the zipped object |
| Dynamic.ZipObjectLookup | AetherQuery_Ecosystem/javascript/legacy/packages/aetherquery/src/client/AsyncAetherClient.ts:32-34 | a column name reads back the cell at its last occurrence |
| Dynamic.ZipObjectAbsent | AetherQuery_Ecosystem/javascript/legacy/packages/aetherquery/src/client/AsyncAetherClient.ts:32-34 | a name that is not a column is absent from the object |
| Dynamic.SpreadLookup | AetherQuery_Ecosystem/javascript/goja-client/internal/js/api/aetherquery.js:12-17 | after `{...target, ...source}` a key reads from the source when it has it, else from the target |
| JsAetherQuery.StripTrailingSlash | AetherQuery_Ecosystem/javascript/goja-client/internal/js/api/aetherquery.js:11 | exactly one trailing slash is removed, and only when there is one |
| JsAetherQuery.OnlyOneSlashStripped | AetherQuery_Ecosystem/javascript/goja-client/internal/js/api/aetherquery.js:11 | of two trailing slashes one stays |
| JsAetherQuery.ClientOptionsDefaults | AetherQuery_Ecosystem/javascript/goja-client/internal/js/api/aetherquery.js:12-17 | a given option wins; timeout 30000, retries 3 and retryDelay 1000 fill the rest; nothing else appears |
| JsAetherQuery.RequestOutcome | AetherQuery_Ecosystem/javascript/goja-client/internal/js/api/aetherquery.js:36-43 | the parsed body exactly for a status below 400 with a parsable body; every failure is an Error prefixed "HTTP request failed: ", the status one naming status and body |
| JsAetherQuery.AetherHTTPClient.constructor | AetherQuery_Ecosystem/javascript/goja-client/internal/js/api/aetherquery.js:10-18 | the base URL without its trailing slash and the options over the defaults |
| JsAetherQuery.AetherHTTPClient.Request | AetherQuery_Ecosystem/javascript/goja-client/internal/js/api/aetherquery.js:20-44 | the call handed to the binding (URL, headers, body only for truthy data, timeout) and the outcome above |
| JsAetherQuery.AetherHTTPClient.Get | AetherQuery_Ecosystem/javascript/goja-client/internal/js/api/aetherquery.js:50-52 | a GET of base URL + endpoint without a body |
| JsAetherQuery.WrapParams | AetherQuery_Ecosystem/javascript/goja-client/internal/js/api/aetherquery.js:69 | an array is kept, a missing value becomes [], anything else a one-element array |
| JsAetherQuery.QueryBody | AetherQuery_Ecosystem/javascript/goja-client/internal/js/api/aetherquery.js:67-70 | the body holds the query and the wrapped params |
| JsAetherQuery.QueryFailure | AetherQuery_Ecosystem/javascript/goja-client/internal/js/api/aetherquery.js:72-77 | a null response throws TypeError; otherwise no failure iff success is truthy, else an AetherQueryError falling back to 'Query failed' and 'QUERY_ERROR' |
| JsAetherQuery.QueryFailureKeepsServerError | AetherQuery_Ecosystem/javascript/goja-client/internal/js/api/aetherquery.js:72-77 | a server error with a message and a truthy code is passed on unchanged |
| JsAetherQuery.ElementOf | AetherQuery_Ecosystem/javascript/goja-client/internal/js/api/aetherquery.js:147 | `row[index]` throws exactly for null or undefined, and indexes an array |
| JsAetherQuery.KeysOf | AetherQuery_Ecosystem/javascript/goja-client/internal/js/api/aetherquery.js:147 | each column becomes its string key |
| JsAetherQuery.CellsOf | AetherQuery_Ecosystem/javascript/goja-client/internal/js/api/aetherquery.js:147 | the first n elements read from the row |
| JsAetherQuery.ObjectsOf | AetherQuery_Ecosystem/javascript/goja-client/internal/js/api/aetherquery.js:143-151 | only TypeError is thrown; objects are returned iff rows is an array that is empty, or columns is an array and every row is readable; one object per row |
| JsAetherQuery.RowToObject | AetherQuery_Ecosystem/javascript/goja-client/internal/js/api/aetherquery.js:144-150 | the per-row callback succeeds iff the row is readable, and then gives the row's object |
| JsAetherQuery.MapRows | AetherQuery_Ecosystem/javascript/goja-client/internal/js/api/aetherquery.js:144-150 | the rows.map loop settles as ObjectsOf, throwing at the first unreadable row |
| JsAetherQuery.ObjectsOfReturns | AetherQuery_Ecosystem/javascript/goja-client/internal/js/api/aetherquery.js:143-151 | readable rows give exactly the objects of each row |
| JsAetherQuery.ObjectsHoldCells | AetherQuery_Ecosystem/javascript/goja-client/internal/js/api/aetherquery.js:146-148 | each object maps a column to the row's element at that column's last occurrence |
| JsAetherQuery.FirstOrNull | AetherQuery_Ecosystem/javascript/goja-client/internal/js/api/aetherquery.js:102 | null for no objects, else the first object |
| JsAetherQuery.FirstCell | AetherQuery_Ecosystem/javascript/goja-client/internal/js/api/aetherquery.js:110 | null for a missing first row or a falsy first cell, else that cell |
| JsAetherQuery.FirstCellOfArrays | AetherQuery_Ecosystem/javascript/goja-client/internal/js/api/aetherquery.js:110 | rows[0][0] when truthy, and null for any falsy value such as 0, '' or false |
| JsAetherQuery.QueryResult.Columns | AetherQuery_Ecosystem/javascript/goja-client/internal/js/api/aetherquery.js:128-130 | the result's columns, [] when falsy |
| JsAetherQuery.QueryResult.Rows | AetherQuery_Ecosystem/javascript/goja-client/internal/js/api/aetherquery.js:132-134 | the result's rows, [] when falsy |
| JsAetherQuery.QueryResult.RowCount | AetherQuery_Ecosystem/javascript/goja-client/internal/js/api/aetherquery.js:136-138 | row_count, 0 when falsy |
| JsAetherQuery.QueryResult.HasData | AetherQuery_Ecosystem/javascript/goja-client/internal/js/api/aetherquery.js:164-166 | true iff row_count, converted to a number as `>` does, is greater than zero, whatever the rows |
| JsAetherQuery.PositiveRowCounts | AetherQuery_Ecosystem/javascript/goja-client/internal/js/api/aetherquery.js:164-166 | a numeric row count, its decimal string, and a one-element array of either are greater than zero exactly when the number is |
| JsAetherQuery.NonPositiveRowCounts | AetherQuery_Ecosystem/javascript/goja-client/internal/js/api/aetherquery.js:164-166 | true counts as 1; null, undefined, false, objects, [], "" and [true] are never greater than zero |
| Dynamic.StringToNumberOfInt | AetherQuery_Ecosystem/javascript/goja-client/internal/js/api/aetherquery.js:165 | `>` reads the decimal rendering of an integer back as that integer |
| Dynamic.SingletonToString | AetherQuery_Ecosystem/javascript/goja-client/internal/js/api/aetherquery.js:165 | a one-element array converts through its element's string, null and undefined giving "" |
| JsAetherQuery.QueryResult.constructor | AetherQuery_Ecosystem/javascript/goja-client/internal/js/api/aetherquery.js:118-126 | fields copied; affected rows and last insert id 0 and the result {} when falsy |
| JsAetherQuery.QueryResult.ToObjects | AetherQuery_Ecosystem/javascript/goja-client/internal/js/api/aetherquery.js:143-151 | settles as ObjectsOf of the rows and columns getters |
| JsAetherQuery.QueryResult.First | AetherQuery_Ecosystem/javascript/goja-client/internal/js/api/aetherquery.js:156-159 | the first object, null without rows, and the TypeError of toObjects |
| JsAetherQuery.AetherQueryClient.constructor | AetherQuery_Ecosystem/javascript/goja-client/internal/js/api/aetherquery.js:59-61 | a fresh HTTP client with the base URL and options |
| JsAetherQuery.AetherQueryClient.Query | AetherQuery_Ecosystem/javascript/goja-client/internal/js/api/aetherquery.js:66-80 | posts the query body to /query; a request failure, then a query failure, is thrown; otherwise a QueryResult of the response |
| JsAetherQuery.AetherQueryClient.FetchObjects | AetherQuery_Ecosystem/javascript/goja-client/internal/js/api/aetherquery.js:92-95 | the query's failures, else the objects of the result |
| JsAetherQuery.AetherQueryClient.FetchOne | AetherQuery_Ecosystem/javascript/goja-client/internal/js/api/aetherquery.js:100-103 | the first object or null |
| JsAetherQuery.AetherQueryClient.FetchValue | AetherQuery_Ecosystem/javascript/goja-client/internal/js/api/aetherquery.js:108-111 | the falsy-to-null first cell |
| JsAetherQuery.AetherQueryClient.Health | AetherQuery_Ecosystem/javascript/goja-client/internal/js/api/aetherquery.js:85-87 | a GET of /health settling as the request does |
| JsHttp.NewHTTPResponse | AetherQuery_Ecosystem/javascript/goja-client/internal/js/api/http.js:6-10 | data and status as given; headers as given when truthy, {} otherwise |
| JsHttp.JsonReturnsData | AetherQuery_Ecosystem/javascript/goja-client/internal/js/api/http.js:12-18 | json() gives back the data it was built from, and text() gives a string data back |
| JsHttp.TextOf | AetherQuery_Ecosystem/javascript/goja-client/internal/js/api/http.js:16-18 | a string is its own text; anything else is serialised |
| JsHttp.Ok | AetherQuery_Ecosystem/javascript/goja-client/internal/js/api/http.js:20-22 | true iff 200 ≤ status < 300, the same range the Go client takes as success |
| JsHttp.PlaceholderPost | AetherQuery_Ecosystem/javascript/goja-client/internal/js/api/http.js:27-30 | always rejects with "HTTP post not implemented in Go bindings" |
| JsHttp.PlaceholderGet | AetherQuery_Ecosystem/javascript/goja-client/internal/js/api/http.js:32-35 | always rejects with "HTTP get not implemented in Go bindings" |
| JsUtils.IsObject | AetherQuery_Ecosystem/javascript/goja-client/internal/js/lib/utils.js:13-15 | true exactly for object values: false for null, undefined, arrays and every primitive |
| GojaModules.ModuleLoader.constructor | AetherQuery_Ecosystem/javascript/goja-client/internal/goja/modules.go:7-11 | no module is registered |
| GojaModules.ModuleLoader.RegisterModule | AetherQuery_Ecosystem/javascript/goja-client/internal/goja/modules.go:13-15 | the name maps to the code, replacing earlier code; every other name is untouched |
| GojaModules.ModuleLoader.GetModule | AetherQuery_Ecosystem/javascript/goja-client/internal/goja/modules.go:17-20 | (code, true) for a registered name, ("", false) otherwise |
| PyExceptions.FullMessage | AetherQuery_Ecosystem/python/aetherquery/exceptions.py:45-51 | "HTTP <status>: " when the status is truthy, then "[code] " when the code is truthy, then the message; the bare message iff neither is truthy |
| PyExceptions.StrIsBareMessage | AetherQuery_Ecosystem/python/aetherquery/exceptions.py:53-54 | str(e) is the bare message, the tail of the full message, and equal to it iff there is no code and no status |
| PyExceptions.ToDict | AetherQuery_Ecosystem/python/aetherquery/exceptions.py:56-65 | the dictionary starts with the message |
| PyExceptions.ToDictContents | AetherQuery_Ecosystem/python/aetherquery/exceptions.py:56-65 | code, details and status_code appear exactly when truthy, with their values |
| PyExceptions.DetailsOrNone | AetherQuery_Ecosystem/python/aetherquery/exceptions.py:89 | an empty details dict becomes None |
| PyExceptions.AetherQueryErrorOf | AetherQuery_Ecosystem/python/aetherquery/exceptions.py:32-51 | every attribute as given |
| PyExceptions.ConnectionErrorOf | AetherQuery_Ecosystem/python/aetherquery/exceptions.py:71-90 | CONNECTION_ERROR, no status; details hold exactly the truthy url and the given original error, None when neither |
| PyExceptions.TimeoutErrorOf | AetherQuery_Ecosystem/python/aetherquery/exceptions.py:96-117 | "Timeout after <t>s while <operation>", TIMEOUT_ERROR; timeout_seconds and operation always, url when truthy |
| PyExceptions.AuthenticationErrorOf | AetherQuery_Ecosystem/python/aetherquery/exceptions.py:123-140 | AUTHENTICATION_ERROR, default status 401, the reason in details when truthy |
| PyExceptions.PermissionErrorOf | AetherQuery_Ecosystem/python/aetherquery/exceptions.py:146-163 | PERMISSION_ERROR, default status 403, the required permission when truthy |
| PyExceptions.ValidationErrorOf | AetherQuery_Ecosystem/python/aetherquery/exceptions.py:169-194 | VALIDATION_ERROR, default status 422; value when not None even if falsy, field and constraint only when truthy |
| PyExceptions.QueryErrorOf | AetherQuery_Ecosystem/python/aetherquery/exceptions.py:200-225 | QUERY_ERROR; built only when the extra keywords are at most status_code; sql and params when truthy, position when not None |
| PyExceptions.SyntaxErrorOf | AetherQuery_Ecosystem/python/aetherquery/exceptions.py:231-243 | construction always raises TypeError, since code= reaches QueryError twice |
| PyExceptions.ExecutionErrorOf | AetherQuery_Ecosystem/python/aetherquery/exceptions.py:249-269 | construction always raises TypeError (code= and details= passed twice) |
| PyExceptions.ResourceErrorOf | AetherQuery_Ecosystem/python/aetherquery/exceptions.py:275-299 | construction always raises TypeError (code= and details= passed twice) |
| PyExceptions.ServerErrorOf | AetherQuery_Ecosystem/python/aetherquery/exceptions.py:305-322 | SERVER_ERROR, default status 500, request_id when truthy |
| PyExceptions.ConfigurationErrorOf | AetherQuery_Ecosystem/python/aetherquery/exceptions.py:328-347 | CONFIGURATION_ERROR, no status; config_key when truthy, config_value when not None |
| PyClient.RStripSlashes | AetherQuery_Ecosystem/python/aetherquery/client.py:33 | the longest prefix not ending in '/', with only slashes removed |
| PyClient.LStripSlashes | AetherQuery_Ecosystem/python/aetherquery/client.py:49 | the longest suffix not starting with '/', with only slashes removed |
| PyClient.OneSlashJoins | AetherQuery_Ecosystem/python/aetherquery/client.py:49 | the URL is the stripped base, exactly one '/', then the endpoint without leading slashes |
| PyClient.HttpErrorOf | AetherQuery_Ecosystem/python/aetherquery/client.py:62-71 | 400 → QueryError, 401/403 → AuthenticationError with default status 401, any other → AetherQueryError "HTTP error <status>: …" |
| PyClient.RequestOutcome | AetherQuery_Ecosystem/python/aetherquery/client.py:54-73 | the JSON exactly for a non-error response with a JSON body; timeout → TimeoutError with the doubled message; connection → ConnectionError; error status → HttpErrorOf; other failures → ConnectionError "Request failed: …" |
| PyClient.WithTimeout | AetherQuery_Ecosystem/python/aetherquery/client.py:52 | a caller's timeout is kept; the client's is added only when absent |
| PyClient.QueryPayload | AetherQuery_Ecosystem/python/aetherquery/client.py:90-92 | the query always, params only when truthy |
| PyClient.AetherClient.constructor | AetherQuery_Ecosystem/python/aetherquery/client.py:19-45 | base URL without trailing slashes, timeout 30 by default; User-Agent and Accept set, Authorization "Bearer <key>" iff the key is truthy |
| PyClient.AetherClient.Request | AetherQuery_Ecosystem/python/aetherquery/client.py:47-73 | the joined URL, the session headers, kwargs with the timeout default, and the outcome above |
| PyClient.AetherClient.Health | AetherQuery_Ecosystem/python/aetherquery/client.py:75-77 | a GET of /health with only the timeout |
| PyClient.AetherClient.Query | AetherQuery_Ecosystem/python/aetherquery/client.py:79-94 | a POST of /query with the payload as json and the timeout |
| PyTestServer.Classify | AetherQuery_Ecosystem/python/aetherquery_server.py:137-165 | on the lower-cased, stripped text: users, then products (both with "select"), then "error", then generic, each excluding the earlier ones |
| PyTestServer.StripIsIrrelevant | AetherQuery_Ecosystem/python/aetherquery_server.py:137 | stripping never changes the classification |
| PyTestServer.ClassifyIgnoresCase | AetherQuery_Ecosystem/python/aetherquery_server.py:137 | letter case never changes the classification |
| PyTestServer.Respond | AetherQuery_Ecosystem/python/aetherquery_server.py:139-175 | echoes the query; fails exactly in the error branch with the fixed message and no data; 3 rows for users and products, 1 for generic |
| PyTestServer.DataRowIds | AetherQuery_Ecosystem/python/aetherquery_server.py:139-165 | the rows are numbered 1 to 3, and the generic row reports one affected row |
| PyTestServer.ServerState.constructor | AetherQuery_Ecosystem/python/aetherquery_server.py:69-72 | no queries yet and healthy |
| PyTestServer.ServerState.ExecuteQuery | AetherQuery_Ecosystem/python/aetherquery_server.py:124-175 | the count goes up by exactly one whatever the answer |
| PyTestServer.ServerState.HealthStatus | AetherQuery_Ecosystem/python/aetherquery_server.py:96 | "healthy" iff the server is healthy |
| PyTestServer.ServerState.Stats | AetherQuery_Ecosystem/python/aetherquery_server.py:177-186 | reports the query count and status "running" |
| PyTestServer.Route | AetherQuery_Ecosystem/python/aetherquery_server.py:239-260 | the health reply iff "GET /health" occurs, the index reply iff "GET /" occurs without it, 404 iff "GET /" does not occur |
| MockServer.ContainsLoop | AetherQuery_Framework/cmd/server/main.go:395-402 | the index loop finds the substring iff it occurs |
| MockServer.ContainsEdgeCases | AetherQuery_Framework/cmd/server/main.go:395-402 | the empty string always occurs, and a longer one never does |
| MockServer.QueryType | AetherQuery_Framework/cmd/server/main.go:296-309 | a write kind iff the query is longer than 6 bytes and starts with its keyword, case-sensitively; SELECT otherwise |
| MockServer.QueryTypeQuirks | AetherQuery_Framework/cmd/server/main.go:296-309 | exactly "DELETE" and lower-case "insert …" count as SELECT |
| MockServer.Limit | AetherQuery_Framework/cmd/server/main.go:362-366 | 5 iff "LIMIT" occurs anywhere, else 10 |
| MockServer.StatusFilterOf | AetherQuery_Framework/cmd/server/main.go:377-385 | the active filter whenever its text occurs, the inactive one only without it |
| MockServer.FilterCharacterised | AetherQuery_Framework/cmd/server/main.go:369-390 | the kept rows are exactly the passing users, in their original order |
| MockServer.FilterLength | AetherQuery_Framework/cmd/server/main.go:369-390 | filtering never adds rows |
| MockServer.MockRowsBound | AetherQuery_Framework/cmd/server/main.go:362-390 | at most the limit, so at most 5 with LIMIT |
| MockServer.ActiveFilterWins | AetherQuery_Framework/cmd/server/main.go:377-385 | with the active filter every row is active, even when the inactive text also occurs |
| MockServer.FilterStep | AetherQuery_Framework/cmd/server/main.go:387-389 | one more user appends it exactly when it passes |
| MockServer.Keeps | AetherQuery_Framework/cmd/server/main.go:374-385 | the include flag is the user passing the query's filter |
| MockServer.GenerateMockData | AetherQuery_Framework/cmd/server/main.go:343-393 | the loop with its limit cut and filter gives the filtered first users |
| MockServer.Answer | AetherQuery_Framework/cmd/server/main.go:311-340 | always success; SELECT gives the rows, their count and the fixed columns; writes give affected_rows 1 and last_insert_id 42 |
| MockServer.ExecuteQuery | AetherQuery_Framework/cmd/server/main.go:291-341 | the answer above, so the failure branch is never taken |
| MockServer.HandleQuery | AetherQuery_Framework/cmd/server/main.go:174-218 | OPTIONS → empty 200; GET runs q or the default query; POST runs the body's query or reports "Invalid JSON: …"; anything else → 405 |
| SharedQuery.KindOf | AetherQuery_Ecosystem/csharp_client/go_server/shared.go:15-20 | SELECT first, then SHOW, then COUNT, case-insensitively, each excluding the earlier ones |
| SharedQuery.KindIgnoresCase | AetherQuery_Ecosystem/csharp_client/go_server/shared.go:15-20 | lower-casing the query never changes its kind |
| SharedQuery.ProcessQuery | AetherQuery_Ecosystem/csharp_client/go_server/shared.go:8-24 | "Empty query" for blank input; otherwise the reply for its kind, quoting the trimmed query |
| SharedQuery.ProcessQueryIgnoresPadding | AetherQuery_Ecosystem/csharp_client/go_server/shared.go:9 | surrounding whitespace never changes the reply |
| SharedQuery.QuotedQueryIsTrimmed | AetherQuery_Ecosystem/csharp_client/go_server/shared.go:16 | the quoted text is a slice of the input, neither starting nor ending with whitespace |
| SharedQuery.HealthCheck | AetherQuery_Ecosystem/csharp_client/go_server/shared.go:26-28 | always the same constant |
| RustShell.ListTablesQuery | AetherQuery_Ecosystem/rust_client/src/main.rs:219-223 | "SHOW TABLES", or the pattern verbatim between quotes after "SHOW TABLES LIKE " |
| RustShell.DescribeQuery | AetherQuery_Ecosystem/rust_client/src/main.rs:241 | "DESCRIBE " followed by the table name |
| RustShell.Segments | AetherQuery_Ecosystem/rust_client/src/main.rs:79-82 | the ';'-separated pieces whose trim is not empty; none contains ';' |
| RustShell.TrimAll | AetherQuery_Ecosystem/rust_client/src/main.rs:90 | each piece trimmed, in order |
| RustShell.StatementsAreClean | AetherQuery_Ecosystem/rust_client/src/main.rs:79-93 | no statement is empty, contains ';', or starts or ends with whitespace |
| RustShell.RunBatch | AetherQuery_Ecosystem/rust_client/src/main.rs:89-112 | statements are sent in file order; with stop_on_error the first failure ends the batch with its error and nothing after it is sent; without it all are sent |
| RustShell.ExecuteBatch | AetherQuery_Ecosystem/rust_client/src/main.rs:70-119 | the same over the file's statements |
| RustShell.Parse | AetherQuery_Ecosystem/rust_client/src/main.rs:136-174 | `\d ` and `\f ` take the trimmed remainder after their three characters; blank exactly for the empty line; SQL never starts with either prefix |
| RustShell.Apply | AetherQuery_Ecosystem/rust_client/src/main.rs:139-186 | quit iff the line is a quit command; only `\?`, `\h` and SQL lines reach the history and are sent as the line |
| RustShell.RunFirstLine | AetherQuery_Ecosystem/rust_client/src/main.rs:132-192 | a quit ends the shell at once, any other line takes effect before the rest is read |
| RustShell.HandleLine | AetherQuery_Ecosystem/rust_client/src/main.rs:139-186 | the loop body's updates are those of Apply |
| RustShell.InteractiveShell | AetherQuery_Ecosystem/rust_client/src/main.rs:122-196 | the loop's final session is the recursive run over the input |
| RustShell.LocalCommandsAreNotSql | AetherQuery_Ecosystem/rust_client/src/main.rs:141-167 | `\t`, `\s`, `\d`, `\f`, quit and blank lines never reach the history; only `\t` and `\d` send their own SQL |
| RustShell.HelpFallsThrough | AetherQuery_Ecosystem/rust_client/src/main.rs:140-186 | `\?` and `\h` show help and then send the line itself as SQL |
| RustShell.UnknownFormatKeepsFormat | AetherQuery_Ecosystem/rust_client/src/main.rs:155-166 | an unknown format keeps the current one but still reports it as changed to |
| RustShell.QuitIgnoresRest | AetherQuery_Ecosystem/rust_client/src/main.rs:141 | lines after a quit command have no effect |
| RustShell.BlankLinesSkipped | AetherQuery_Ecosystem/rust_client/src/main.rs:172-174 | a blank line changes nothing and is not added to the history |
| RustOutput.Success | AetherQuery_Ecosystem/rust_client/src/output.rs:17-21 | printed only when verbose |
| RustOutput.ErrorMessage | AetherQuery_Ecosystem/rust_client/src/output.rs:24-26 | always one line |
| RustOutput.Info | AetherQuery_Ecosystem/rust_client/src/output.rs:29-31 | always one line |
| RustOutput.TableLines | AetherQuery_Ecosystem/rust_client/src/output.rs:95-117 | one line per entry or element between the two borders; other JSON pretty-printed |
| RustOutput.CompactValues | AetherQuery_Ecosystem/rust_client/src/output.rs:128 | the values rendered in key order |
| RustOutput.Separators | AetherQuery_Ecosystem/rust_client/src/output.rs:147 | n cells of "---" |
| RustOutput.UndoubleDouble | AetherQuery_Ecosystem/rust_client/src/output.rs:73 | doubling quotes loses nothing: reading the field back gives the text |
| RustOutput.DisplayResults | AetherQuery_Ecosystem/rust_client/src/output.rs:34-92 | exactly one renderer per format; non-JSON echoed by Table and Json, fenced by Markdown, quoted with doubled quotes by Csv; Raw always echoes |
| RustOutput.CsvFallbackReadsBack | AetherQuery_Ecosystem/rust_client/src/output.rs:73 | the quoted field of the Csv fallback reads back as the server's text |
| RustOutput.CsvObjectReadsBack | AetherQuery_Ecosystem/rust_client/src/output.rs:122-129 | the header splits back into the keys and the value line into the values in key order, when none contains a comma |
| RustOutput.MarkdownSeparatorCells | AetherQuery_Ecosystem/rust_client/src/output.rs:143-148 | the separator row has exactly one "---" cell per key |
| WasmLifecycle.DisposeCalls | AetherQuery_Ecosystem/csharp_client/WasmClient.cs:92-102 | destroy only for a live instance, unload only for a live module, in that order |
| WasmLifecycle.WasmClient.constructor | AetherQuery_Ecosystem/csharp_client/WasmClient.cs:7-9 | both handles zero and not initialised |
| WasmLifecycle.WasmClient.Initialize | AetherQuery_Ecosystem/csharp_client/WasmClient.cs:11-45 | a missing file or a failed read changes nothing; a zero module or instance handle fails after storing it; a native call that throws leaves its handle as it was and its exception is rethrown; initialised only when both are live; a failure keeps the flag |
| WasmLifecycle.WasmClient.Health | AetherQuery_Ecosystem/csharp_client/WasmClient.cs:47-64 | uninitialised: the fixed message with no native call; else the native answer, the pass message for null, or the failure message |
| WasmLifecycle.WasmClient.Query | AetherQuery_Ecosystem/csharp_client/WasmClient.cs:66-88 | the initialisation check before the empty-query check, neither calling native code; null gives "Query executed: <sql>"; a native exception becomes InvalidOperationException |
| WasmLifecycle.WasmClient.Dispose | AetherQuery_Ecosystem/csharp_client/WasmClient.cs:90-106 | both handles zeroed and the flag cleared; a second Dispose makes no native call |

## Left out

- The database-adapter layer (SQLite, MySQL, PostgreSQL, MongoDB, Redis adapters, `DatabaseConfig`, `DatabaseConnection`) is not part of this model: only its tests and examples exist, not its code.
- Transport and server plumbing are oracles: requests sessions, axios, net/http, reqwest, FastAPI/uvicorn, asyncio streams and `ListenAndServe`. So are the clients built only on them: `NativeClient.cs`, `rust_client/src/client.rs`, `go_server/server.go` and the legacy `AetherClient.ts`.
- JSON encoding and decoding (encoding/json, serde_json, `JSON.parse`/`JSON.stringify`, pydantic) are parameters over the `Value` datatype.
- Time and sleeping are left out: retry delays are recorded as values, and durations, uptime, timestamps and execution times are not modelled.
- Floating point is left out. JavaScript numbers are integers here, timeouts are integers or strings, and `TimeoutError`'s rendering of a float timeout is a parameter.
- Native and WASM entry points (`DllImport` in `WasmClient.cs`, syscall/js in `wasm.go`) are results passed in, and the client records the calls it makes.
- The embedded JS runtime (`runtime.go`, `bindings.go`, `console.go`, `fs.go`, goja-client `main.go`), `Program.cs`, the clap declarations in `cli.rs`, the examples and `test_real_server.py` are glue and are not modelled.
- Async, promises, tokio and threads are not modelled: every call settles at once, in sequence.
- Letter case and whitespace are ASCII only: `lower()`, `ToUpper`, `to_lowercase`, `strip()` and `TrimSpace` do no Unicode mapping.
- JavaScript objects are insertion-ordered association lists; the engine's reordering of integer-like keys is not modelled.
- Go maps and header tables are unordered finite maps. Where Go iterates over one, the order it happens to visit the keys in is a parameter.
- CoreHttp.HTTPClient.Request: `sent` is the request of the first attempt. A retry rebuilds the headers with a fresh iteration order; the result can differ only when two keys of a layer differ only in case (see `OrderFree`).
- Invalid header names, which Go rejects when the request is sent, are transport failures here.
- The static endpoints of the mock servers are not modelled. In `cmd/server/main.go` these are `/`, `/health`, `/query/examples`, `/clients` and `/server/info`. In `aetherquery_server.py` they are `/`, `/info`, `/execute`, `/tables` and `/table/{name}`. Each returns fixed data and timestamps.
- The other methods of the Go client, `ExecuteBatch` and `Health` in `client.go`, are not modelled. They follow `ExecuteQuery`'s pattern over other endpoints.
- The JavaScript factory and shortcut functions `createClient`, `query`, `fetchObjects` and `health` are not modelled: each only builds a client and delegates. `AetherHTTPClient.post` is not a member of its own, since `AetherQueryClient.Query` makes the POST through `Request`.
- The legacy `get`/`post`/`put`/`delete` wrappers are not modelled separately: they call `Request` with their verb. The response interceptor's `createErrorFromResponse` lives in `../errors`, which is not part of this model, so rejected calls are oracle outcomes.
- The Python client's `close` and context-manager methods are not modelled, because they only close the session.
- In the Rust client, `main`'s dispatch, `execute_query` (writing to an output file), `check_status` and the verbose progress lines are not modelled. Neither is the rendering of each reply inside the shell, which is recorded as an event naming the text and the format. The I/O errors that `?` propagates from readline and printing are not modelled, and the end of the input list stands for a readline error.
- CoreModels.RowToMap: a row shorter than the column list makes the Go code panic; the model requires such a row to be long enough.
- CoreModels.AllRowMaps: requires every row to cover the columns, for the same panic.
- CoreModels.AllToMaps: requires every row to cover the columns, for the same panic.
- CoreUtils.ResultToObjects: requires every row to cover the columns, for the same panic.
- CoreUtils.QuickQuery: requires every row to cover the columns, for the same panic.
- CoreUtils.FirstRow: requires the first row to cover the columns, for the same panic.
- CoreModels.GetColumn: a negative column index passes the Go guard and panics on the first row; the model requires a non-negative index unless there are no rows, when Go returns nil.
- PyClient.RequestOutcome: requires the client timeout to be a number or a string, because floats are not modelled. Python's default is the float 30.0, so its timeout message reads "after 30.0s" where the model's Num(30) renders "30". `timeout=None`, which requests takes as no timeout, is excluded too.
- PyClient.AetherClient.Request: requires a number or string timeout, as above. `Health` and `Query` carry the same requirement.
- PyExceptions.TimeoutErrorOf: requires a number or string timeout, as above.
- JsAetherQuery.QueryResult.constructor: requires a non-null response. `Query` only builds one after reading `response.success`, which throws the modelled TypeError for null.
- JsAetherQuery.CellsOf: requires a readable row. The callers check this first, modelling the TypeError that `row[0]` throws.
- JsAetherQuery.RowToObject: reads the keys and cells before assigning them rather than interleaving the reads. Both are free of side effects, so the resulting object and the TypeError are the same.
- JsAetherQuery.MapRows: checks that `columns` is an array before the loop. JavaScript fails on the first row instead, with the same TypeError and no other observable effect.
- LegacyHttpClient.WithDefaults: an option passed explicitly as `undefined` is treated as absent. JavaScript's spread would override the default with `undefined`.
- JsAetherQuery.QueryResult.HasData: strings are read as numbers only when they are integers in decimal notation. Fractions, exponents, hexadecimal and "Infinity" are read as NaN, since floating point is not modelled.
- Dynamic.FieldsOf: spreading a string or an array adds no fields here. JavaScript adds their index keys, which would matter for `...this.options.headers` if the headers were a string or an array.
- LegacyHttpClient.SentHeaders: axios's own default headers, such as Accept, are not modelled. Neither is `AxiosHeaders` matching header names case-insensitively when it merges them: names are compared as exact strings.
- WasmLifecycle.WasmClient.Initialize: the console messages of the success and catch paths are not modelled. On an already initialised client, a failed re-initialisation leaves the flag set while a handle may now be zero, as in the C# code. The client invariant is therefore stated only for a client that starts out uninitialised.
