/** The HTTP helpers of the goja client
    (javascript/goja-client/internal/js/api/http.js): the `HTTPResponse`
    wrapper and the placeholder `__aether_http` bindings, which reject
    every call until Go replaces them. `JSON.stringify` is a parameter;
    `None` is the `undefined` it returns for values it cannot serialise. */
module JsHttp {
  import opened Dynamic
  import opened JsAetherQuery
  import CoreHttp

  datatype HTTPResponse = HTTPResponse(data: Value, status: int, headers: Value)

  /** `new HTTPResponse(data, status, headers)`: data and status as given,
      headers `{}` when the argument is falsy or missing. */
  function NewHTTPResponse(data: Value, status: int, headers: Value): (r: HTTPResponse)
    ensures r.data == data && r.status == status
    ensures JsTruthy(r.headers)
    ensures JsTruthy(headers) ==> r.headers == headers
    ensures !JsTruthy(headers) ==> r.headers == Obj([])
  {
    HTTPResponse(data, status, JsOr(headers, Obj([])))
  }

  /** `json()`: the data, unchanged. */
  function Json(response: HTTPResponse): Value {
    response.data
  }

  /** `json()` of a new response gives back the data it was built from,
      and `text()` gives back a string data. */
  lemma JsonReturnsData(data: Value, status: int, headers: Value, stringify: Value -> Option<string>)
    ensures Json(NewHTTPResponse(data, status, headers)) == data
    ensures data.Str? ==> TextOf(NewHTTPResponse(data, status, headers), stringify) == Some(data.s)
  {
  }

  /** `text()`: a string is its own text; anything else is serialised. */
  function TextOf(response: HTTPResponse, stringify: Value -> Option<string>): (r: Option<string>)
    ensures response.data.Str? ==> r == Some(response.data.s)
    ensures !response.data.Str? ==> r == stringify(response.data)
  {
    if TypeOf(response.data) == "string" then Some(response.data.s) else stringify(response.data)
  }

  /** `ok()`: the status is a 2xx status, the same range the Go client
      treats as success. */
  function Ok(response: HTTPResponse): (r: bool)
    ensures r <==> CoreHttp.IsSuccessStatus(response.status)
    ensures r ==> response.status != 199 && response.status != 300
  {
    response.status >= 200 && response.status < 300
  }

  const PostNotImplemented := "HTTP post not implemented in Go bindings"
  const GetNotImplemented := "HTTP get not implemented in Go bindings"

  /** The placeholder `__aether_http.post`: it rejects whatever it is
      given. */
  function PlaceholderPost(url: Value, data: Value, options: Value): (r: Settled<Value>)
    ensures r.Throws? && r.error.Error?
    ensures r.error.message == PostNotImplemented
  {
    Throws(Error(PostNotImplemented))
  }

  /** The placeholder `__aether_http.get`: it rejects whatever it is
      given. */
  function PlaceholderGet(url: Value, options: Value): (r: Settled<Value>)
    ensures r.Throws? && r.error.Error?
    ensures r.error.message == GetNotImplemented
  {
    Throws(Error(GetNotImplemented))
  }
}
