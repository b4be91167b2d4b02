/** The Python test server (`aetherquery_server.py`): the `/query` handler's
    classification of a query into canned answers, the server state that
    counts queries, and the routing of the bare-socket `SimpleTestServer`. */
module PyTestServer {
  import opened Dynamic
  import opened Text

  /** Which canned answer a query gets. */
  datatype Branch = Users | Products | ErrorQuery | Generic

  /** The if/elif chain of the handler, applied to already normalised text:
      "select" with "users", then "select" with "products", then "error",
      then everything else. */
  function Branches(text: string): Branch {
    if Contains(text, "select") && Contains(text, "users") then Users
    else if Contains(text, "select") && Contains(text, "products") then Products
    else if Contains(text, "error") then ErrorQuery
    else Generic
  }

  /** The handler classifies `query.lower().strip()`. */
  function Classify(query: string): (b: Branch)
    ensures var text := Trim(ToLower(query));
      && (b == Users <==> Contains(text, "select") && Contains(text, "users"))
      && (b == Products <==>
            Contains(text, "select") && !Contains(text, "users") && Contains(text, "products"))
      && (b == ErrorQuery <==>
            !(Contains(text, "select") && (Contains(text, "users") || Contains(text, "products")))
            && Contains(text, "error"))
  {
    Branches(Trim(ToLower(query)))
  }

  /** Stripping is irrelevant to the classification: every keyword is a
      word without surrounding whitespace, so it occurs in the stripped text
      exactly when it occurs in the lower-cased text. */
  lemma StripIsIrrelevant(query: string)
    ensures Classify(query) == Branches(ToLower(query))
  {
    var lower := ToLower(query);
    ContainsTrim(lower, "select");
    ContainsTrim(lower, "users");
    ContainsTrim(lower, "products");
    ContainsTrim(lower, "error");
  }

  /** Letter case is irrelevant to the classification. */
  lemma ClassifyIgnoresCase(query: string)
    ensures Classify(ToUpper(query)) == Classify(query)
  {
    LowerOfUpper(query);
  }

  /** A user row as the handler writes it. */
  function UserRow(id: int, name: string, email: string, createdAt: string): Value {
    Obj([("id", Num(id)), ("name", Str(name)), ("email", Str(email)), ("created_at", Str(createdAt))])
  }

  /** A product row as the handler writes it. */
  function ProductRow(id: int, name: string, price: int, stock: int): Value {
    Obj([("id", Num(id)), ("name", Str(name)), ("price", Num(price)), ("stock", Num(stock))])
  }

  const UsersData: seq<Value> := [
    UserRow(1, "Alice", "alice@example.com", "2024-01-01"),
    UserRow(2, "Bob", "bob@example.com", "2024-01-02"),
    UserRow(3, "Charlie", "charlie@example.com", "2024-01-03")
  ]

  const ProductsData: seq<Value> := [
    ProductRow(1, "Product A", 100, 50),
    ProductRow(2, "Product B", 200, 30),
    ProductRow(3, "Product C", 150, 20)
  ]

  const GenericData: seq<Value> := [
    Obj([("result", Str("success")), ("rows_affected", Num(1)), ("message", Str("Query executed successfully"))])
  ]

  const SimulatedError := "Simulated query error: Syntax error near 'ERROR'"

  /** The handler's `QueryResponse`; `execution_time` is wall-clock time and
      is not modelled. */
  datatype QueryResponse = QueryResponse(success: bool, data: Option<seq<Value>>, error: Option<string>, query: string)

  /** The answer to one `/query` request. */
  function Respond(query: string): (r: QueryResponse)
    ensures r.query == query
    ensures r.success <==> Classify(query) != ErrorQuery
    ensures r.success <==> r.data.Some?
    ensures r.success <==> r.error.None?
    ensures !r.success ==> r.error == Some(SimulatedError)
    ensures Classify(query) in {Users, Products} ==> |r.data.value| == 3
    ensures Classify(query) == Generic ==> |r.data.value| == 1
  {
    match Classify(query)
    case Users => QueryResponse(true, Some(UsersData), None, query)
    case Products => QueryResponse(true, Some(ProductsData), None, query)
    case ErrorQuery => QueryResponse(false, None, Some(SimulatedError), query)
    case Generic => QueryResponse(true, Some(GenericData), None, query)
  }

  /** The rows of the users and products answers are numbered 1, 2, 3; the
      generic row reports one affected row. */
  lemma DataRowIds()
    ensures forall i :: 0 <= i < 3 ==> Prop(UsersData[i], "id") == Num(i + 1)
    ensures forall i :: 0 <= i < 3 ==> Prop(ProductsData[i], "id") == Num(i + 1)
    ensures Prop(GenericData[0], "rows_affected") == Num(1)
  {
    forall i | 0 <= i < 3
      ensures Prop(UsersData[i], "id") == Num(i + 1)
      ensures Prop(ProductsData[i], "id") == Num(i + 1)
    {
      assert UsersData[i].fields[0] == ("id", Num(i + 1));
      assert ProductsData[i].fields[0] == ("id", Num(i + 1));
    }
  }

  /** The server's mutable state. The start time and uptime are wall-clock
      values and are not modelled. */
  class ServerState {
    var queryCount: nat
    var isHealthy: bool

    constructor ()
      ensures queryCount == 0 && isHealthy
    {
      queryCount := 0;
      isHealthy := true;
    }

    /** `POST /query`: counts the call whatever the outcome, then answers. */
    method ExecuteQuery(query: string) returns (r: QueryResponse)
      modifies this
      ensures queryCount == old(queryCount) + 1
      ensures isHealthy == old(isHealthy)
      ensures r == Respond(query)
    {
      queryCount := queryCount + 1;
      r := Respond(query);
    }

    /** The status `GET /health` reports. */
    function HealthStatus(): (r: string)
      reads this
      ensures r == "healthy" <==> isHealthy
    {
      if isHealthy then "healthy" else "unhealthy"
    }

    /** `GET /stats` without the uptime: the number of queries so far and
      the fixed fields. */
    function Stats(): (r: seq<(string, Value)>)
      reads this
      ensures Lookup(r, "query_count") == Some(Num(queryCount))
      ensures Lookup(r, "status") == Some(Str("running"))
    {
      [("query_count", Num(queryCount)), ("status", Str("running")),
       ("memory_usage", Str("simulated")), ("active_connections", Num(1))]
    }
  }

  const HealthReply := "HTTP/1.1 200 OK\r\nContent-Type: application/json\r\n\r\n"
    + "{\"status\": \"healthy\", \"server\": \"AetherQuery\"}"
  const IndexReply := "HTTP/1.1 200 OK\r\nContent-Type: text/plain\r\n\r\n"
    + "AetherQuery Simple Test Server\nEndpoints: /health, /info"
  const NotFoundReply := "HTTP/1.1 404 Not Found\r\nContent-Type: text/plain\r\n\r\nEndpoint not found"

  /** `SimpleTestServer.handle_request` on the decoded request text: a
      substring test for "GET /health", then for "GET /", else 404. Any
      request mentioning the health path also mentions "GET /", so the 404
      answers exactly the requests without "GET /". */
  function Route(request: string): (r: string)
    ensures r == HealthReply <==> Contains(request, "GET /health")
    ensures r == IndexReply <==> Contains(request, "GET /") && !Contains(request, "GET /health")
    ensures r == NotFoundReply <==> !Contains(request, "GET /")
  {
    if Contains(request, "GET /health") then
      ContainsPrefix(request, "GET /health", "GET /");
      HealthReply
    else if Contains(request, "GET /") then IndexReply
    else NotFoundReply
  }
}
