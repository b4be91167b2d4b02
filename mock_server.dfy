/** The Go mock SQL server (`cmd/server/main.go`): its byte-wise `contains`,
    the query-kind switch of `executeQuery`, the canned user table that
    `generateMockData` cuts and filters, and the method dispatch of
    `handleQuery`. A Go string is modelled as a sequence of characters, one
    per byte. */
module MockServer {
  import opened Dynamic
  import opened Text

  /** `contains`: tries every start position from 0 to len(s)-len(substr)
      and compares the slice there; no position is tried when substr is
      longer than s. */
  method ContainsLoop(s: string, substr: string) returns (found: bool)
    ensures found <==> Contains(s, substr)
  {
    ContainsIffOccurs(s, substr);
    var i := 0;
    while i <= |s| - |substr|
      invariant 0 <= i
      invariant |substr| <= |s| ==> i <= |s| - |substr| + 1
      invariant forall j :: 0 <= j < i ==> !OccursAt(s, substr, j)
    {
      if s[i..i + |substr|] == substr {
        assert OccursAt(s, substr, i);
        return true;
      }
      i := i + 1;
    }
    assert forall j :: OccursAt(s, substr, j) ==> j < i;
    return false;
  }

  /** `contains` holds for the empty substring and fails for a substring
      longer than the string. */
  lemma ContainsEdgeCases(s: string, substr: string)
    ensures Contains(s, "")
    ensures |substr| > |s| ==> !Contains(s, substr)
  {
    ContainsBounds(s, "");
    ContainsBounds(s, substr);
  }

  /** What `executeQuery` decides a query is. */
  datatype Kind = Select | Insert | Update | Delete | Create

  /** A query is a write only when it is longer than six bytes and its first
      six bytes spell the keyword exactly, in upper case; everything else
      is a SELECT. */
  function QueryType(query: string): (k: Kind)
    ensures k == Insert <==> |query| > 6 && query[..6] == "INSERT"
    ensures k == Update <==> |query| > 6 && query[..6] == "UPDATE"
    ensures k == Delete <==> |query| > 6 && query[..6] == "DELETE"
    ensures k == Create <==> |query| > 6 && query[..6] == "CREATE"
    ensures k == Select <==> |query| <= 6 || query[..6] !in {"INSERT", "UPDATE", "DELETE", "CREATE"}
  {
    if |query| > 6 then
      var cmd := query[..6];
      if cmd == "INSERT" then Insert
      else if cmd == "UPDATE" then Update
      else if cmd == "DELETE" then Delete
      else if cmd == "CREATE" then Create
      else Select
    else Select
  }

  /** The prefix test is case-sensitive and needs a seventh byte: a bare
      "DELETE" and a lower-case "insert ..." both count as SELECT. */
  lemma QueryTypeQuirks()
    ensures QueryType("DELETE") == Select
    ensures QueryType("insert into t") == Select
    ensures QueryType("INSERT into t") == Insert
  {
    assert "insert into t"[..6] == "insert";
    assert "INSERT into t"[..6] == "INSERT";
  }

  function User(id: int, name: string, email: string, status: string, createdAt: string): Value {
    Obj([("id", Num(id)), ("name", Str(name)), ("email", Str(email)), ("status", Str(status)),
         ("created_at", Str(createdAt))])
  }

  /** The ten canned users, in table order. */
  const Users: seq<Value> := [
    User(1, "Алексей Петров", "alexey@example.com", "active", "2024-01-15"),
    User(2, "Мария Иванова", "maria@example.com", "active", "2024-02-20"),
    User(3, "Иван Сидоров", "ivan@example.com", "inactive", "2024-03-10"),
    User(4, "Ольга Козлова", "olga@example.com", "active", "2024-04-05"),
    User(5, "Дмитрий Фёдоров", "dmitry@example.com", "pending", "2024-05-12"),
    User(6, "Екатерина Морозова", "ekaterina@example.com", "active", "2024-06-18"),
    User(7, "Сергей Николаев", "sergey@example.com", "inactive", "2024-07-22"),
    User(8, "Анна Павлова", "anna@example.com", "active", "2024-08-30"),
    User(9, "Павел Волков", "pavel@example.com", "active", "2024-09-14"),
    User(10, "Наталья Семёнова", "natalia@example.com", "pending", "2024-10-25")
  ]

  const ActiveFilter := "WHERE status = 'active'"
  const InactiveFilter := "WHERE status = 'inactive'"

  /** How many leading users are considered: 5 when "LIMIT" appears
      anywhere in the query, 10 otherwise. */
  function Limit(query: string): (n: nat)
    ensures n <= |Users|
    ensures n == 5 <==> Contains(query, "LIMIT")
  {
    if Contains(query, "LIMIT") then 5 else 10
  }

  /** The status filter a query asks for. */
  datatype StatusFilter = OnlyActive | OnlyInactive | AnyStatus

  /** The 'active' filter is checked first and wins when both appear. */
  function StatusFilterOf(query: string): (f: StatusFilter)
    ensures f == OnlyActive <==> Contains(query, ActiveFilter)
    ensures f == OnlyInactive <==> !Contains(query, ActiveFilter) && Contains(query, InactiveFilter)
  {
    if Contains(query, ActiveFilter) then OnlyActive
    else if Contains(query, InactiveFilter) then OnlyInactive
    else AnyStatus
  }

  /** Whether a user passes a status filter. */
  predicate Passes(f: StatusFilter, user: Value) {
    match f
    case OnlyActive => Prop(user, "status") == Str("active")
    case OnlyInactive => Prop(user, "status") == Str("inactive")
    case AnyStatus => true
  }

  /** The status filter as a test on rows. */
  function Test(f: StatusFilter): Value -> bool {
    user => Passes(f, user)
  }

  /** The users that pass a test, in their order. */
  function Filter(keep: Value -> bool, users: seq<Value>): seq<Value>
    decreases |users|
  {
    if users == [] then []
    else
      var last := users[|users| - 1];
      Filter(keep, users[..|users| - 1]) + (if keep(last) then [last] else [])
  }

  /** The rows `generateMockData` returns: the first `Limit` users, then
      filtered, so the filter never reaches past the cut. */
  function MockRows(query: string): seq<Value> {
    Filter(Test(StatusFilterOf(query)), Users[..Limit(query)])
  }

  /** The positions of the users that pass a test. */
  function FilterIndices(keep: Value -> bool, users: seq<Value>): seq<int>
    decreases |users|
  {
    if users == [] then []
    else
      var n := |users| - 1;
      FilterIndices(keep, users[..n]) + (if keep(users[n]) then [n] else [])
  }

  /** The filter keeps exactly the passing users, in their original order:
      result k is the user at position idx[k], the positions strictly
      increase, and every passing position is among them. */
  lemma {:induction false} FilterCharacterised(keep: Value -> bool, users: seq<Value>)
    ensures var r, idx := Filter(keep, users), FilterIndices(keep, users);
      && |idx| == |r|
      && (forall k :: 0 <= k < |idx| ==> 0 <= idx[k] < |users| && r[k] == users[idx[k]])
      && (forall k :: 0 <= k < |idx| ==> keep(users[idx[k]]))
      && (forall k, l :: 0 <= k < l < |idx| ==> idx[k] < idx[l])
      && (forall j :: 0 <= j < |users| && keep(users[j]) ==> j in idx)
    decreases |users|
  {
    if users != [] {
      var n := |users| - 1;
      var init := users[..n];
      FilterCharacterised(keep, init);
      var prev, prevIdx := Filter(keep, init), FilterIndices(keep, init);
      var r, idx := Filter(keep, users), FilterIndices(keep, users);
      assert r == prev + (if keep(users[n]) then [users[n]] else []);
      assert idx == prevIdx + (if keep(users[n]) then [n] else []);
      forall k | 0 <= k < |prevIdx| ensures idx[k] == prevIdx[k] && r[k] == users[idx[k]] {
        assert init[prevIdx[k]] == users[prevIdx[k]];
      }
      forall j | 0 <= j < n && keep(users[j]) ensures j in idx {
        assert init[j] == users[j];
      }
    }
  }

  /** The filter never adds rows. */
  lemma {:induction false} FilterLength(keep: Value -> bool, users: seq<Value>)
    ensures |Filter(keep, users)| <= |users|
    decreases |users|
  {
    if users != [] {
      FilterLength(keep, users[..|users| - 1]);
    }
  }

  /** At most five rows when the query says LIMIT, at most ten otherwise. */
  lemma MockRowsBound(query: string)
    ensures |MockRows(query)| <= Limit(query)
    ensures Contains(query, "LIMIT") ==> |MockRows(query)| <= 5
  {
    FilterLength(Test(StatusFilterOf(query)), Users[..Limit(query)]);
  }

  /** With the 'active' filter in the query every row is active, even when
      the 'inactive' filter appears too. */
  lemma ActiveFilterWins(query: string)
    requires Contains(query, ActiveFilter)
    ensures forall row :: row in MockRows(query) ==> Prop(row, "status") == Str("active")
  {
    var users := Users[..Limit(query)];
    FilterCharacterised(Test(OnlyActive), users);
    forall row | row in MockRows(query) ensures Prop(row, "status") == Str("active") {
      var k :| 0 <= k < |MockRows(query)| && MockRows(query)[k] == row;
    }
  }

  /** One step of the filter over a prefix of the table. */
  lemma FilterStep(keep: Value -> bool, users: seq<Value>, i: int)
    requires 0 <= i < |users|
    ensures Filter(keep, users[..i + 1]) == Filter(keep, users[..i]) + (if keep(users[i]) then [users[i]] else [])
  {
    assert users[..i + 1][..i] == users[..i];
  }

  /** The status test `generateMockData` applies to one user. */
  method Keeps(query: string, user: Value) returns (keep: bool)
    ensures keep == Passes(StatusFilterOf(query), user)
  {
    keep := true;
    var active := ContainsLoop(query, ActiveFilter);
    if active {
      if Prop(user, "status") != Str("active") {
        keep := false;
      }
    } else {
      var inactive := ContainsLoop(query, InactiveFilter);
      if inactive {
        if Prop(user, "status") != Str("inactive") {
          keep := false;
        }
      }
    }
  }

  /** `generateMockData`: walks the table, stops at the limit, and appends
      each user that passes the status filter. */
  method GenerateMockData(query: string) returns (result: seq<Value>)
    ensures result == MockRows(query)
  {
    result := [];
    var limit := 10;
    var hasLimit := ContainsLoop(query, "LIMIT");
    if hasLimit {
      limit := 5;
    }
    var users := Users;
    ghost var test := Test(StatusFilterOf(query));
    var i := 0;
    while i < |users|
      invariant limit == Limit(query) && limit <= |users|
      invariant 0 <= i <= limit
      invariant result == Filter(test, users[..i])
    {
      if i >= limit {
        break;
      }
      var user := users[i];
      var keep := Keeps(query, user);
      FilterStep(test, users, i);
      if keep {
        result := result + [user];
      }
      i := i + 1;
    }
  }

  /** The payload of a response: the rows of a SELECT, the write summary,
      or nothing. */
  datatype Data = NoData | Rows(rows: seq<Value>) | Affected(affectedRows: int, lastInsertId: int)

  /** `QueryResponse` without the wall-clock `Duration`. */
  datatype QueryResponse = QueryResponse(
    success: bool, query: string, data: Data, error: string, rows: int, columns: seq<string>)

  const SelectColumns: seq<string> := ["id", "name", "email", "status", "created_at"]

  /** The response `executeQuery` builds. Every kind is handled, so the
      "Unsupported query type" failure branch of the source can never be
      taken and the answer always reports success. */
  function Answer(query: string): (r: QueryResponse)
    ensures r.success && r.query == query && r.error == ""
    ensures QueryType(query) == Select ==>
      r.data == Rows(MockRows(query)) && r.rows == |MockRows(query)| && r.columns == SelectColumns
    ensures QueryType(query) != Select ==>
      r.data == Affected(1, 42) && r.rows == 1 && r.columns == []
  {
    if QueryType(query) == Select then
      var data := MockRows(query);
      QueryResponse(true, query, Rows(data), "", |data|, SelectColumns)
    else
      QueryResponse(true, query, Affected(1, 42), "", 1, [])
  }

  /** `executeQuery`; the request parameters are accepted and ignored. */
  method ExecuteQuery(query: string, params: Value) returns (r: QueryResponse)
    ensures r == Answer(query)
  {
    var kind := QueryType(query);
    if kind == Select {
      var data := GenerateMockData(query);
      r := QueryResponse(true, query, Rows(data), "", |data|, SelectColumns);
    } else {
      r := QueryResponse(true, query, Affected(1, 42), "", 1, []);
    }
  }

  /** The result of decoding a POST body as a `QueryRequest`. */
  datatype Decoded = Request(query: string, parameters: Value) | Invalid(message: string)

  /** What `handleQuery` writes back. */
  datatype Reply = EmptyOk | Json(response: QueryResponse) | MethodNotAllowed

  const DefaultQuery := "SELECT * FROM users LIMIT 5"

  /** `handleQuery`: OPTIONS is a bare 200, GET runs the `q` parameter (the
      default query when it is empty), POST runs the decoded body or
      reports it as invalid JSON, and any other method gets 405. */
  method HandleQuery(verb: string, q: string, body: Decoded) returns (reply: Reply)
    ensures verb == "OPTIONS" ==> reply == EmptyOk
    ensures verb == "GET" ==> reply == Json(Answer(if q == "" then DefaultQuery else q))
    ensures verb == "POST" && body.Request? ==> reply == Json(Answer(body.query))
    ensures verb == "POST" && body.Invalid? ==>
      reply == Json(QueryResponse(false, "", NoData, "Invalid JSON: " + body.message, 0, []))
    ensures verb !in {"OPTIONS", "GET", "POST"} ==> reply == MethodNotAllowed
  {
    if verb == "OPTIONS" {
      return EmptyOk;
    }
    if verb == "GET" {
      var query := q;
      if query == "" {
        query := DefaultQuery;
      }
      var response := ExecuteQuery(query, Null);
      return Json(response);
    }
    if verb == "POST" {
      match body
      case Invalid(message) =>
        return Json(QueryResponse(false, "", NoData, "Invalid JSON: " + message, 0, []));
      case Request(query, parameters) =>
        var response := ExecuteQuery(query, parameters);
        return Json(response);
    }
    return MethodNotAllowed;
  }
}
