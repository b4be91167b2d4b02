/** The Go library behind the C# client's test server (`go_server/shared.go`):
    `ProcessQuery` answers a query by case-insensitive keyword tests on its
    trimmed text, and `HealthCheck` answers with a constant. */
module SharedQuery {
  import opened Text

  /** Which answer a trimmed, non-empty query gets. */
  datatype Kind = SelectQuery | ShowQuery | CountQuery | OtherQuery

  /** The keyword tests in order on the upper-cased text: SELECT, then SHOW,
      then COUNT. */
  function KindOf(trimmed: string): (k: Kind)
    ensures k == SelectQuery <==> Contains(ToUpper(trimmed), "SELECT")
    ensures k == ShowQuery <==> !Contains(ToUpper(trimmed), "SELECT") && Contains(ToUpper(trimmed), "SHOW")
    ensures k == CountQuery <==>
      !Contains(ToUpper(trimmed), "SELECT") && !Contains(ToUpper(trimmed), "SHOW")
      && Contains(ToUpper(trimmed), "COUNT")
  {
    var upper := ToUpper(trimmed);
    if Contains(upper, "SELECT") then SelectQuery
    else if Contains(upper, "SHOW") then ShowQuery
    else if Contains(upper, "COUNT") then CountQuery
    else OtherQuery
  }

  /** The keyword tests ignore letter case. */
  lemma KindIgnoresCase(trimmed: string)
    ensures KindOf(ToLower(trimmed)) == KindOf(trimmed)
  {
    UpperOfLower(trimmed);
  }

  /** `ProcessQuery`: a blank query is reported as empty; otherwise the
      answer quotes the trimmed query as written, not upper-cased, except
      for the COUNT answer, which is fixed. */
  function ProcessQuery(query: string): (r: string)
    ensures Trim(query) == [] ==> r == "Empty query"
    ensures Trim(query) != [] ==>
      var t := Trim(query);
      match KindOf(t)
      case SelectQuery => r == "Executed SELECT query: '" + t + "'"
      case ShowQuery => r == "Showing: '" + t + "'"
      case CountQuery => r == "Count result: 42 rows"
      case OtherQuery => r == "Query processed: '" + t + "'"
  {
    var q := Trim(query);
    if q == [] then "Empty query"
    else
      match KindOf(q)
      case SelectQuery => "Executed SELECT query: '" + q + "'"
      case ShowQuery => "Showing: '" + q + "'"
      case CountQuery => "Count result: 42 rows"
      case OtherQuery => "Query processed: '" + q + "'"
  }

  /** Surrounding whitespace never changes the answer. */
  lemma ProcessQueryIgnoresPadding(query: string)
    ensures ProcessQuery(Trim(query)) == ProcessQuery(query)
  {
    TrimIdempotent(query);
  }

  /** The quoted query in a SELECT answer neither starts nor ends with
      whitespace and is a slice of what the caller sent. */
  lemma QuotedQueryIsTrimmed(query: string)
    requires Trim(query) != [] && KindOf(Trim(query)) == SelectQuery
    ensures var r := ProcessQuery(query);
      var quoted := r[|"Executed SELECT query: '"|..|r| - 1];
      && (exists i, j :: 0 <= i <= j <= |query| && quoted == query[i..j])
      && !IsSpace(quoted[0]) && !IsSpace(quoted[|quoted| - 1])
  {
    var t := Trim(query);
    var r := ProcessQuery(query);
    assert r == "Executed SELECT query: '" + t + "'";
    assert r[|"Executed SELECT query: '"|..|r| - 1] == t;
    TrimIsSlice(query);
  }

  /** `HealthCheck`. */
  function HealthCheck(): (r: string)
    ensures r == "Aether Query Server is running"
  {
    "Aether Query Server is running"
  }
}
