/** The JavaScript API of the goja client
    (javascript/goja-client/internal/js/api/aetherquery.js):
    `AetherHTTPClient` (base URL and option defaults, the request and its
    error wrapping), `AetherQueryClient` (`query`, `fetchObjects`,
    `fetchOne`, `fetchValue`, `health`) and `QueryResult` (its defaults,
    `toObjects`, `first`, `hasData`).

    The `http.request` binding and `JSON` are parameters: `answer` is how
    the binding settled, `parse` is `JSON.parse` and `stringify` is
    `JSON.stringify`. Awaiting is not modelled: each call settles at once. */
module JsAetherQuery {
  import opened Dynamic
  import Text

  /** What the code can throw: an `Error` with its message, the `TypeError`
      of reading a property of null or undefined (or calling `map` or
      `forEach` on something that is not an array), and `AetherQueryError`
      with its message and `code`. */
  datatype JsError =
    | Error(message: string)
    | TypeError
    | AetherQueryError(message: string, code: Value)

  /** How an asynchronous call settles. */
  datatype Settled<T> = Returns(value: T) | Throws(error: JsError)

  /** How the `http.request` binding settled: with a response, or by
      rejecting with an error carrying a message. */
  datatype HttpAnswer = Answered(status: int, body: string) | Rejected(message: string)

  /** How `JSON.parse` settled. */
  datatype Parsed = Parsed(value: Value) | Unparsable(message: string)

  /** The request object handed to `http.request`; an absent body is
      `undefined`. */
  datatype HttpCall = HttpCall(verb: string, url: string, headers: seq<(string, Value)>,
                               body: Option<string>, timeout: Value)

  /** `s.replace(/\/$/, '')`: one trailing slash is removed, and nothing
      else changes. */
  function StripTrailingSlash(s: string): (r: string)
    ensures r + "/" == s <==> (|s| > 0 && s[|s| - 1] == '/')
    ensures !(|s| > 0 && s[|s| - 1] == '/') ==> r == s
  {
    if |s| > 0 && s[|s| - 1] == '/' then s[..|s| - 1] else s
  }

  /** A base URL ending in two slashes keeps one of them. */
  lemma OnlyOneSlashStripped(s: string)
    ensures StripTrailingSlash(s + "//") == s + "/"
  {
    assert (s + "//")[..|s| + 1] == s + "/";
  }

  /** The option defaults, in the order the object literal lists them. */
  const DefaultOptions: seq<(string, Value)> :=
    [("timeout", Num(30000)), ("retries", Num(3)), ("retryDelay", Num(1000))]

  /** `{timeout: 30000, retries: 3, retryDelay: 1000, ...options}`. */
  function ClientOptions(options: Value): seq<(string, Value)> {
    Spread(DefaultOptions, FieldsOf(options))
  }

  /** Every option the caller gives wins, even an explicit undefined; the
      three defaults fill the rest, and no other option appears. */
  lemma ClientOptionsDefaults(options: Value, key: string)
    requires DistinctKeys(FieldsOf(options))
    ensures Lookup(FieldsOf(options), key).Some? ==>
      Lookup(ClientOptions(options), key) == Lookup(FieldsOf(options), key)
    ensures Lookup(FieldsOf(options), key).None? && key == "timeout" ==>
      Lookup(ClientOptions(options), key) == Some(Num(30000))
    ensures Lookup(FieldsOf(options), key).None? && key == "retries" ==>
      Lookup(ClientOptions(options), key) == Some(Num(3))
    ensures Lookup(FieldsOf(options), key).None? && key == "retryDelay" ==>
      Lookup(ClientOptions(options), key) == Some(Num(1000))
    ensures Lookup(FieldsOf(options), key).None? && key != "timeout" && key != "retries" && key != "retryDelay" ==>
      Lookup(ClientOptions(options), key).None?
  {
    SpreadLookup(DefaultOptions, FieldsOf(options), key);
  }

  /** The request `request(verb, endpoint, data)` hands to the binding: the
      URL is the base URL followed by the endpoint, the Content-Type header
      is JSON unless the `headers` option overrides it, a body is sent only
      for truthy data, and the timeout is the `timeout` option. */
  function RequestCall(baseURL: string, options: seq<(string, Value)>, verb: string, endpoint: string,
                       data: Value, stringify: Value -> string): HttpCall
  {
    HttpCall(verb, baseURL + endpoint,
      Spread([("Content-Type", Str("application/json"))], FieldsOf(Prop(Obj(options), "headers"))),
      if JsTruthy(data) then Some(stringify(data)) else None,
      Prop(Obj(options), "timeout"))
  }

  const RequestFailed := "HTTP request failed: "

  /** How `request` settles once the binding has answered: an error status
      (400 and above) becomes an `Error` naming the status and the body,
      and every failure (a rejection, that status error, a body that is
      not JSON) is rethrown as an `Error` whose message is prefixed
      "HTTP request failed: ". Anything else is the parsed body. */
  function RequestOutcome(answer: HttpAnswer, parse: string -> Parsed): (r: Settled<Value>)
    ensures r.Returns? <==> answer.Answered? && answer.status < 400 && parse(answer.body).Parsed?
    ensures r.Returns? ==> r.value == parse(answer.body).value
    ensures r.Throws? ==> r.error.Error? && Text.StartsWith(r.error.message, RequestFailed)
    ensures answer.Rejected? ==> r == Throws(Error(RequestFailed + answer.message))
    ensures answer.Answered? && answer.status >= 400 ==>
      r == Throws(Error(RequestFailed + "HTTP " + Text.IntToString(answer.status) + ": " + answer.body))
    ensures answer.Answered? && answer.status < 400 && parse(answer.body).Unparsable? ==>
      r == Throws(Error(RequestFailed + parse(answer.body).message))
  {
    match answer
    case Rejected(m) => Throws(Error(RequestFailed + m))
    case Answered(status, body) =>
      if status >= 400 then
        Throws(Error(RequestFailed + ("HTTP " + Text.IntToString(status) + ": " + body)))
      else match parse(body)
        case Parsed(v) => Returns(v)
        case Unparsable(m) => Throws(Error(RequestFailed + m))
  }

  class AetherHTTPClient {
    var baseURL: string
    var options: seq<(string, Value)>

    /** `new AetherHTTPClient(baseURL, options)`; an omitted options
        argument is undefined and spreads nothing. */
    constructor (baseURL: string, options: Value)
      ensures this.baseURL == StripTrailingSlash(baseURL)
      ensures this.options == ClientOptions(options)
    {
      this.baseURL := StripTrailingSlash(baseURL);
      this.options := ClientOptions(options);
    }

    /** `request(verb, endpoint, data)`. */
    method Request(verb: string, endpoint: string, data: Value, answer: HttpAnswer,
                   parse: string -> Parsed, stringify: Value -> string)
      returns (call: HttpCall, r: Settled<Value>)
      ensures call == RequestCall(baseURL, options, verb, endpoint, data, stringify)
      ensures r == RequestOutcome(answer, parse)
    {
      call := HttpCall(verb, baseURL + endpoint,
        Spread([("Content-Type", Str("application/json"))], FieldsOf(Prop(Obj(options), "headers"))),
        if JsTruthy(data) then Some(stringify(data)) else None,
        Prop(Obj(options), "timeout"));
      match answer {
        case Rejected(m) =>
          r := Throws(Error(RequestFailed + m));
        case Answered(status, body) =>
          if status >= 400 {
            var inner := "HTTP " + Text.IntToString(status) + ": " + body;
            r := Throws(Error(RequestFailed + inner));
          } else {
            match parse(body) {
              case Parsed(v) => r := Returns(v);
              case Unparsable(m) => r := Throws(Error(RequestFailed + m));
            }
          }
      }
    }

    /** `get(endpoint)`: a request without data, so without a body. */
    method Get(endpoint: string, answer: HttpAnswer, parse: string -> Parsed, stringify: Value -> string)
      returns (call: HttpCall, r: Settled<Value>)
      ensures call.verb == "GET" && call.url == baseURL + endpoint && call.body.None?
      ensures r == RequestOutcome(answer, parse)
    {
      call, r := Request("GET", endpoint, Null, answer, parse, stringify);
    }
  }

  /** `params = []`, then `Array.isArray(params) ? params : [params]`: an
      omitted list is empty, an array is kept, and any other value becomes
      the only element of a new array. */
  function WrapParams(params: Value): (r: Value)
    ensures r.Arr?
    ensures params.Undefined? ==> r == Arr([])
    ensures params.Arr? ==> r == params
    ensures !params.Undefined? && !params.Arr? ==> r == Arr([params])
  {
    if params.Undefined? then Arr([]) else if params.Arr? then params else Arr([params])
  }

  /** The body `query` posts: the SQL and the wrapped parameters. */
  function QueryBody(sql: Value, params: Value): (body: Value)
    ensures JsTruthy(body)
    ensures Prop(body, "query") == sql && Prop(body, "params") == WrapParams(params)
  {
    var fields := [("query", sql), ("params", WrapParams(params))];
    assert fields[0].0 == "query" && fields[1].0 == "params" && |"query"| != |"params"|;
    assert Lookup(fields, "query") == Some(sql) && Lookup(fields, "params") == Some(WrapParams(params));
    Obj(fields)
  }

  /** What `query` throws for a parsed response, `None` when it succeeds:
      reading `success` of null throws a TypeError; a response whose
      `success` is falsy throws an AetherQueryError carrying the error's
      message and code, or 'Query failed' and 'QUERY_ERROR' where those
      are falsy or missing. */
  function QueryFailure(response: Value): (r: Option<JsError>)
    ensures (response.Null? || response.Undefined?) ==> r == Some(TypeError)
    ensures !response.Null? && !response.Undefined? ==>
      (r.None? <==> JsTruthy(Prop(response, "success")))
    ensures r.Some? && r.value.AetherQueryError? ==> JsTruthy(r.value.code)
    ensures r.Some? && r.value.AetherQueryError? && !JsTruthy(Prop(Prop(response, "error"), "message")) ==>
      r.value.message == "Query failed"
    ensures r.Some? && r.value.AetherQueryError? && !JsTruthy(Prop(Prop(response, "error"), "code")) ==>
      r.value.code == Str("QUERY_ERROR")
  {
    if response.Null? || response.Undefined? then Some(TypeError)
    else if JsTruthy(Prop(response, "success")) then None
    else
      var error := Prop(response, "error");
      Some(AetherQueryError(JsToString(JsOr(Prop(error, "message"), Str("Query failed"))),
                            JsOr(Prop(error, "code"), Str("QUERY_ERROR"))))
  }

  /** An error object with a truthy message and code is passed through. */
  lemma QueryFailureKeepsServerError(response: Value, message: string, code: Value)
    requires response.Obj? && !JsTruthy(Prop(response, "success"))
    requires Prop(response, "error") == Obj([("message", Str(message)), ("code", code)])
    requires message != "" && JsTruthy(code)
    ensures QueryFailure(response) == Some(AetherQueryError(message, code))
  {
    assert Lookup([("message", Str(message)), ("code", code)], "code") == Some(code);
  }

  /** `row[index]` for a row of any type: null and undefined throw, an
      array or a string gives its element (undefined past the end), an
      object gives its property named by the index, and anything else gives
      undefined. */
  function ElementOf(row: Value, index: nat): (r: Option<Value>)
    ensures r.None? <==> row.Null? || row.Undefined?
    ensures row.Arr? ==> r == Some(Index(row, index))
  {
    match row
    case Null => None
    case Undefined => None
    case Arr(_) => Some(Index(row, index))
    case Str(s) => Some(if index < |s| then Str([s[index]]) else Undefined)
    case Obj(_) => Some(Prop(row, Text.NatToString(index)))
    case _ => Some(Undefined)
  }

  /** The property keys `obj[column]` uses for the columns. */
  function KeysOf(columns: seq<Value>): (keys: seq<string>)
    ensures |keys| == |columns|
    ensures forall i :: 0 <= i < |columns| ==> keys[i] == JsToString(columns[i])
  {
    seq(|columns|, i requires 0 <= i < |columns| => JsToString(columns[i]))
  }

  /** The first n elements of a readable row. */
  function CellsOf(row: Value, n: nat): (cells: seq<Value>)
    requires !row.Null? && !row.Undefined?
    ensures |cells| == n
    ensures forall i :: 0 <= i < n ==> cells[i] == ElementOf(row, i).value
  {
    seq(n, i requires 0 <= i < n => ElementOf(row, i).value)
  }

  /** A row can be read under every column: there are no columns, or the
      row is neither null nor undefined. */
  predicate Readable(columns: seq<Value>, row: Value) {
    columns == [] || (!row.Null? && !row.Undefined?)
  }

  /** The object the `map` callback builds for one readable row. */
  function RowObject(columns: seq<Value>, row: Value): seq<(string, Value)>
    requires Readable(columns, row)
  {
    if columns == [] then [] else ZipObject(KeysOf(columns), CellsOf(row, |columns|))
  }

  /** What `toObjects` gives for the `rows` and `columns` getters' values:
      a TypeError when rows is not an array, when there is a row and
      columns is not an array, or when some row is null or undefined and
      there is a column; otherwise one object per row. An empty row list
      never reads the columns. */
  function ObjectsOf(rows: Value, columns: Value): (r: Settled<seq<Value>>)
    ensures r.Throws? ==> r.error == TypeError
    ensures r.Returns? ==> rows.Arr? && |r.value| == |rows.items|
    ensures rows == Arr([]) ==> r == Returns([])
    ensures r.Returns? <==>
      (rows.Arr? && (rows.items == [] ||
        (columns.Arr? && forall i :: 0 <= i < |rows.items| ==> Readable(columns.items, rows.items[i]))))
  {
    if !rows.Arr? then Throws(TypeError)
    else if rows.items == [] then Returns([])
    else if !columns.Arr? then Throws(TypeError)
    else if exists i :: 0 <= i < |rows.items| && !Readable(columns.items, rows.items[i]) then Throws(TypeError)
    else Returns(seq(|rows.items|, i requires 0 <= i < |rows.items| => Obj(RowObject(columns.items, rows.items[i]))))
  }

  /** The `map` callback for one row: `columns.forEach` assigning
      `obj[column] = row[index]` into a fresh object. Reading `row[0]` of a
      null or undefined row throws before anything is assigned, which is
      `None` here; with no columns the row is never read. The keys and the
      cells are side-effect-free reads, taken here before the assignments. */
  method RowToObject(columns: seq<Value>, row: Value) returns (r: Option<seq<(string, Value)>>)
    ensures r.Some? <==> Readable(columns, row)
    ensures r.Some? ==> r.value == RowObject(columns, row)
  {
    if columns == [] {
      return Some([]);
    }
    if row.Null? || row.Undefined? {
      return None;
    }
    var obj := AssignColumns(KeysOf(columns), CellsOf(row, |columns|));
    return Some(obj);
  }

  /** `rows.map(row => ...)` for an array of rows, where each call reads the
      `columns` getter (the same value every time): a columns value that is
      not an array has no `forEach`, so the first row throws. */
  method MapRows(rows: seq<Value>, columns: Value) returns (r: Settled<seq<Value>>)
    ensures r == ObjectsOf(Arr(rows), columns)
  {
    if rows == [] {
      return Returns([]);
    }
    if !columns.Arr? {
      ObjectsOfThrows(rows, columns, 0);
      return Throws(TypeError);
    }
    var keys := columns.items;
    var objects: seq<Value> := [];
    var i := 0;
    while i < |rows|
      invariant 0 <= i <= |rows|
      invariant forall k :: 0 <= k < i ==> Readable(keys, rows[k])
      invariant |objects| == i
      invariant forall k :: 0 <= k < i ==> objects[k] == Obj(RowObject(keys, rows[k]))
    {
      var obj := RowToObject(keys, rows[i]);
      if obj.None? {
        ObjectsOfThrows(rows, columns, i);
        return Throws(TypeError);
      }
      objects := objects + [Obj(obj.value)];
      i := i + 1;
    }
    ObjectsOfReturns(rows, keys, objects);
    return Returns(objects);
  }

  /** `toObjects` throws when the columns are not an array or some row
      cannot be read under them. */
  lemma ObjectsOfThrows(rows: seq<Value>, columns: Value, i: nat)
    requires i < |rows| && (!columns.Arr? || !Readable(columns.items, rows[i]))
    ensures ObjectsOf(Arr(rows), columns) == Throws(TypeError)
  {
  }

  /** `toObjects` succeeds with one object per row when every row is
      readable under array columns. */
  lemma ObjectsOfReturns(rows: seq<Value>, columns: seq<Value>, objects: seq<Value>)
    requires rows != [] && |objects| == |rows|
    requires forall k :: 0 <= k < |rows| ==> Readable(columns, rows[k])
    requires forall k :: 0 <= k < |rows| ==> objects[k] == Obj(RowObject(columns, rows[k]))
    ensures ObjectsOf(Arr(rows), Arr(columns)) == Returns(objects)
  {
    assert !(exists i :: 0 <= i < |rows| && !Readable(columns, rows[i]));
    var built := seq(|rows|, i requires 0 <= i < |rows| => Obj(RowObject(columns, rows[i])));
    assert built == objects;
  }

  /** In every object `toObjects` returns, each column's key holds the
      row's element under the last column with that key. */
  lemma ObjectsHoldCells(rows: Value, columns: Value, r: nat, j: nat)
    requires ObjectsOf(rows, columns).Returns? && r < |rows.items|
    requires columns.Arr? && j < |columns.items| && LastOfName(KeysOf(columns.items), j)
    ensures ObjectsOf(rows, columns).value[r].Obj?
    ensures Lookup(ObjectsOf(rows, columns).value[r].fields, JsToString(columns.items[j])) ==
      Some(ElementOf(rows.items[r], j).value)
  {
    var row := rows.items[r];
    assert Readable(columns.items, row);
    ZipObjectLookup(KeysOf(columns.items), CellsOf(row, |columns.items|), j);
  }

  /** `objects[0] || null` over a list of objects. */
  function FirstOrNull(objects: seq<Value>): (r: Value)
    ensures objects == [] ==> r == Null
    ensures objects != [] && objects[0].Obj? ==> r == objects[0]
  {
    if objects != [] then JsOr(objects[0], Null) else Null
  }

  /** `result.rows[0]?.[0] || null`: the first element of the first row,
      except that a falsy one (0, '', false, null, undefined) reads as null. */
  function FirstCell(rows: Value): (r: Value)
    requires JsTruthy(rows)
    ensures var row := ElementOf(rows, 0).value;
      (row.Null? || row.Undefined? ==> r == Null) &&
      (!row.Null? && !row.Undefined? && JsTruthy(ElementOf(row, 0).value) ==> r == ElementOf(row, 0).value) &&
      (!row.Null? && !row.Undefined? && !JsTruthy(ElementOf(row, 0).value) ==> r == Null)
  {
    var row := ElementOf(rows, 0).value;
    if row.Null? || row.Undefined? then Null else JsOr(ElementOf(row, 0).value, Null)
  }

  /** With array rows, the first value is the first cell of the first row
      when it is truthy, and null when it is falsy or there is none. */
  lemma FirstCellOfArrays(first: seq<Value>, more: seq<Value>)
    ensures first != [] && JsTruthy(first[0]) ==> FirstCell(Arr([Arr(first)] + more)) == first[0]
    ensures (first == [] || !JsTruthy(first[0])) ==> FirstCell(Arr([Arr(first)] + more)) == Null
  {
    assert ElementOf(Arr([Arr(first)] + more), 0).value == Arr(first);
  }

  /** `rowCount > 0`: JavaScript converts the row count to a number first,
      and NaN is never greater than zero. */
  predicate Positive(v: Value) {
    var n := JsToNumber(v);
    n.Some? && n.value > 0
  }

  /** A number, its decimal string and a one-element array of either all
      compare with zero as that number. */
  lemma PositiveRowCounts(n: int)
    ensures Positive(Num(n)) <==> n > 0
    ensures Positive(Str(Text.IntToString(n))) <==> n > 0
    ensures Positive(Arr([Num(n)])) <==> n > 0
    ensures Positive(Arr([Str(Text.IntToString(n))])) <==> n > 0
  {
    var s := Text.IntToString(n);
    StringToNumberOfInt(n);
    SingletonToString(Num(n));
    SingletonToString(Str(s));
    assert JsToNumber(Str(s)) == Some(n);
    assert JsToNumber(Arr([Num(n)])) == Some(n);
    assert JsToNumber(Arr([Str(s)])) == Some(n);
  }

  /** `true` compares as 1; null, undefined, `false`, objects, `[]`, the
      blank string and `[true]` are never greater than zero. */
  lemma NonPositiveRowCounts(fields: seq<(string, Value)>)
    ensures Positive(Bool(true)) && !Positive(Bool(false))
    ensures !Positive(Null) && !Positive(Undefined) && !Positive(Obj(fields))
    ensures !Positive(Arr([])) && !Positive(Str("")) && !Positive(Arr([Bool(true)]))
  {
    SingletonToString(Bool(true));
    WordIsNaN("true");
    WordIsNaN("[object Object]");
  }



  class QueryResult {
    var success: Value
    var query: Value
    var executionTime: Value
    var affectedRows: Value
    var lastInsertId: Value
    var result: Value

    /** The fields `new QueryResult(response)` sets: success, query and
        execution time as given, affected rows and last insert id 0 when
        falsy, and the result `{}` when falsy. */
    predicate From(response: Value)
      reads this
    {
      success == Prop(response, "success") &&
      query == Prop(response, "query") &&
      executionTime == Prop(response, "execution_time") &&
      affectedRows == JsOr(Prop(response, "affected_rows"), Num(0)) &&
      lastInsertId == JsOr(Prop(response, "last_insert_id"), Num(0)) &&
      result == JsOr(Prop(response, "result"), Obj([]))
    }

    constructor (response: Value)
      requires !response.Null? && !response.Undefined?
      ensures From(response)
    {
      success := Prop(response, "success");
      query := Prop(response, "query");
      executionTime := Prop(response, "execution_time");
      affectedRows := JsOr(Prop(response, "affected_rows"), Num(0));
      lastInsertId := JsOr(Prop(response, "last_insert_id"), Num(0));
      result := JsOr(Prop(response, "result"), Obj([]));
    }

    /** `columns`: the result's columns, `[]` when falsy or missing. */
    function Columns(): (r: Value)
      reads this
      ensures JsTruthy(r)
      ensures JsTruthy(Prop(result, "columns")) ==> r == Prop(result, "columns")
      ensures !JsTruthy(Prop(result, "columns")) ==> r == Arr([])
    {
      JsOr(Prop(result, "columns"), Arr([]))
    }

    /** `rows`: the result's rows, `[]` when falsy or missing. */
    function Rows(): (r: Value)
      reads this
      ensures JsTruthy(r)
      ensures JsTruthy(Prop(result, "rows")) ==> r == Prop(result, "rows")
      ensures !JsTruthy(Prop(result, "rows")) ==> r == Arr([])
    {
      JsOr(Prop(result, "rows"), Arr([]))
    }

    /** `rowCount`: the result's `row_count`, 0 when falsy or missing. */
    function RowCount(): (r: Value)
      reads this
      ensures JsTruthy(Prop(result, "row_count")) ==> r == Prop(result, "row_count")
      ensures !JsTruthy(Prop(result, "row_count")) ==> r == Num(0)
    {
      JsOr(Prop(result, "row_count"), Num(0))
    }

    /** `hasData()`: decided by the row count alone, whatever the rows are. */
    function HasData(): (r: bool)
      reads this
      ensures r <==> Positive(Prop(result, "row_count"))
    {
      Positive(RowCount())
    }

    /** `toObjects()`: `rows.map` over the rows, with the callback below. */
    method ToObjects() returns (r: Settled<seq<Value>>)
      ensures r == ObjectsOf(Rows(), Columns())
    {
      var rows := Rows();
      if !rows.Arr? {
        return Throws(TypeError);
      }
      r := MapRows(rows.items, Columns());
    }

    /** `first()`: the first row object, null without rows; it throws as
        toObjects does. */
    function First(): (r: Settled<Value>)
      reads this
      ensures ObjectsOf(Rows(), Columns()).Throws? ==> r == Throws(TypeError)
      ensures ObjectsOf(Rows(), Columns()).Returns? ==>
        r == Returns(if Rows().items == [] then Null else ObjectsOf(Rows(), Columns()).value[0])
    {
      match ObjectsOf(Rows(), Columns())
      case Throws(e) => Throws(e)
      case Returns(objects) => Returns(FirstOrNull(objects))
    }
  }

  class AetherQueryClient {
    var http: AetherHTTPClient

    /** `new AetherQueryClient(baseURL, options)`. */
    constructor (baseURL: string, options: Value)
      ensures fresh(http)
      ensures http.baseURL == StripTrailingSlash(baseURL) && http.options == ClientOptions(options)
    {
      http := new AetherHTTPClient(baseURL, options);
    }

    /** `query(sql, params)`: posts the query to /query, then throws what
        the request or the response calls for, or wraps the response in a
        new QueryResult. */
    method Query(sql: Value, params: Value, answer: HttpAnswer, parse: string -> Parsed,
                 stringify: Value -> string)
      returns (call: HttpCall, r: Settled<QueryResult>)
      ensures call == RequestCall(http.baseURL, http.options, "POST", "/query", QueryBody(sql, params), stringify)
      ensures RequestOutcome(answer, parse).Throws? ==> r == Throws(RequestOutcome(answer, parse).error)
      ensures RequestOutcome(answer, parse).Returns? && QueryFailure(RequestOutcome(answer, parse).value).Some? ==>
        r == Throws(QueryFailure(RequestOutcome(answer, parse).value).value)
      ensures RequestOutcome(answer, parse).Returns? && QueryFailure(RequestOutcome(answer, parse).value).None? ==>
        r.Returns? && fresh(r.value) && r.value.From(RequestOutcome(answer, parse).value)
    {
      var posted;
      call, posted := http.Request("POST", "/query", QueryBody(sql, params), answer, parse, stringify);
      match posted {
        case Throws(e) =>
          r := Throws(e);
        case Returns(response) =>
          if response.Null? || response.Undefined? {
            r := Throws(TypeError);
          } else if !JsTruthy(Prop(response, "success")) {
            var error := Prop(response, "error");
            r := Throws(AetherQueryError(JsToString(JsOr(Prop(error, "message"), Str("Query failed"))),
                                         JsOr(Prop(error, "code"), Str("QUERY_ERROR"))));
          } else {
            var result := new QueryResult(response);
            r := Returns(result);
          }
      }
    }

    /** `fetchObjects(sql, params)`: the row objects of the query's result. */
    method FetchObjects(sql: Value, params: Value, answer: HttpAnswer, parse: string -> Parsed,
                        stringify: Value -> string)
      returns (r: Settled<seq<Value>>)
      ensures RequestOutcome(answer, parse).Throws? ==> r == Throws(RequestOutcome(answer, parse).error)
      ensures RequestOutcome(answer, parse).Returns? && QueryFailure(RequestOutcome(answer, parse).value).Some? ==>
        r == Throws(QueryFailure(RequestOutcome(answer, parse).value).value)
      ensures RequestOutcome(answer, parse).Returns? && QueryFailure(RequestOutcome(answer, parse).value).None? ==>
        var result := JsOr(Prop(RequestOutcome(answer, parse).value, "result"), Obj([]));
        r == ObjectsOf(JsOr(Prop(result, "rows"), Arr([])), JsOr(Prop(result, "columns"), Arr([])))
    {
      var call, queried := Query(sql, params, answer, parse, stringify);
      match queried {
        case Throws(e) => r := Throws(e);
        case Returns(result) => r := result.ToObjects();
      }
    }

    /** `fetchOne(sql, params)`: the first row object, null without rows. */
    method FetchOne(sql: Value, params: Value, answer: HttpAnswer, parse: string -> Parsed,
                    stringify: Value -> string)
      returns (r: Settled<Value>)
      ensures RequestOutcome(answer, parse).Throws? ==> r == Throws(RequestOutcome(answer, parse).error)
      ensures RequestOutcome(answer, parse).Returns? && QueryFailure(RequestOutcome(answer, parse).value).Some? ==>
        r == Throws(QueryFailure(RequestOutcome(answer, parse).value).value)
      ensures RequestOutcome(answer, parse).Returns? && QueryFailure(RequestOutcome(answer, parse).value).None? ==>
        var result := JsOr(Prop(RequestOutcome(answer, parse).value, "result"), Obj([]));
        var objects := ObjectsOf(JsOr(Prop(result, "rows"), Arr([])), JsOr(Prop(result, "columns"), Arr([])));
        r == (if objects.Throws? then Throws(objects.error) else Returns(FirstOrNull(objects.value)))
    {
      var objects := FetchObjects(sql, params, answer, parse, stringify);
      match objects {
        case Throws(e) => r := Throws(e);
        case Returns(list) => r := Returns(FirstOrNull(list));
      }
    }

    /** `fetchValue(sql, params)`: the first value of the first row, null
        when it is falsy or missing. */
    method FetchValue(sql: Value, params: Value, answer: HttpAnswer, parse: string -> Parsed,
                      stringify: Value -> string)
      returns (r: Settled<Value>)
      ensures RequestOutcome(answer, parse).Throws? ==> r == Throws(RequestOutcome(answer, parse).error)
      ensures RequestOutcome(answer, parse).Returns? && QueryFailure(RequestOutcome(answer, parse).value).Some? ==>
        r == Throws(QueryFailure(RequestOutcome(answer, parse).value).value)
      ensures RequestOutcome(answer, parse).Returns? && QueryFailure(RequestOutcome(answer, parse).value).None? ==>
        var result := JsOr(Prop(RequestOutcome(answer, parse).value, "result"), Obj([]));
        r == Returns(FirstCell(JsOr(Prop(result, "rows"), Arr([]))))
    {
      var call, queried := Query(sql, params, answer, parse, stringify);
      match queried {
        case Throws(e) => r := Throws(e);
        case Returns(result) => r := Returns(FirstCell(result.Rows()));
      }
    }

    /** `health()`: a GET of /health, settling as the request does. */
    method Health(answer: HttpAnswer, parse: string -> Parsed, stringify: Value -> string)
      returns (call: HttpCall, r: Settled<Value>)
      ensures call.verb == "GET" && call.url == http.baseURL + "/health" && call.body.None?
      ensures r == RequestOutcome(answer, parse)
    {
      call, r := http.Get("/health", answer, parse, stringify);
    }
  }
}
