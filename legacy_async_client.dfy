/** The row helpers of the legacy TypeScript `AsyncAetherClient`
    (javascript/legacy/packages/aetherquery/src/client/AsyncAetherClient.ts):
    `queryRows` turns a query response into one object per row, keyed by
    column name; `queryFirst` and `queryValue` pick the first row and its
    first value. The response of `executeQuery` is a parameter. */
module LegacyAsyncClient {
  import opened Dynamic

  datatype ErrorInfo = ErrorInfo(message: Option<string>)
  datatype QueryResult = QueryResult(columns: seq<string>, rows: seq<seq<Value>>)
  datatype QueryResponse = QueryResponse(success: bool, error: Option<ErrorInfo>, result: Option<QueryResult>)

  /** An object: its fields in insertion order. */
  type Row = seq<(string, Value)>

  /** How a helper settles: with a value, or by throwing an `Error` with the
      given message. */
  datatype Settled<T> = Returns(value: T) | Throws(message: string)

  /** The text `${response.error?.message}` renders: the message, or
      "undefined" when there is no error or no message. */
  function ErrorMessage(error: Option<ErrorInfo>): string {
    if error.Some? && error.value.message.Some? then error.value.message.value else "undefined"
  }

  /** What `queryRows` produces for a response. */
  function RowsOf(response: QueryResponse): (r: Settled<seq<Row>>)
    ensures !response.success ==> r == Throws("Query failed: " + ErrorMessage(response.error))
    ensures response.success && response.result.None? ==> r == Returns([])
    ensures response.success && response.result.Some? ==>
      r.Returns? && |r.value| == |response.result.value.rows| &&
      forall i :: 0 <= i < |r.value| ==> r.value[i] == ZipObject(response.result.value.columns, response.result.value.rows[i])
  {
    if !response.success then Throws("Query failed: " + ErrorMessage(response.error))
    else match response.result
      case None => Returns([])
      case Some(qr) =>
        Returns(seq(|qr.rows|, i requires 0 <= i < |qr.rows| => ZipObject(qr.columns, qr.rows[i])))
  }

  /** `queryRows`. */
  method QueryRows(response: QueryResponse) returns (r: Settled<seq<Row>>)
    ensures r == RowsOf(response)
  {
    if !response.success {
      return Throws("Query failed: " + ErrorMessage(response.error));
    }
    if response.result.None? {
      return Returns([]);
    }
    var qr := response.result.value;
    var objects: seq<Row> := [];
    var i := 0;
    while i < |qr.rows|
      invariant 0 <= i <= |qr.rows|
      invariant |objects| == i
      invariant forall k :: 0 <= k < i ==> objects[k] == ZipObject(qr.columns, qr.rows[k])
    {
      var obj := AssignColumns(qr.columns, qr.rows[i]);
      objects := objects + [obj];
      i := i + 1;
    }
    assert objects == RowsOf(response).value;
    return Returns(objects);
  }

  /** In every row object each column name holds the cell under the last
      column of that name (undefined past the end of the row). */
  lemma RowObjectsHoldCells(response: QueryResponse, r: nat, i: nat)
    requires response.success && response.result.Some?
    requires r < |response.result.value.rows|
    requires i < |response.result.value.columns| && LastOfName(response.result.value.columns, i)
    ensures RowsOf(response).Returns?
    ensures Lookup(RowsOf(response).value[r], response.result.value.columns[i]) ==
      Some(Cell(response.result.value.rows[r], i))
  {
    ZipObjectLookup(response.result.value.columns, response.result.value.rows[r], i);
  }

  /** `queryFirst`: the first row object, `null` (`None`) when there are no
      rows; a failed query throws as in queryRows. */
  function QueryFirst(response: QueryResponse): (r: Settled<Option<Row>>)
    ensures RowsOf(response).Throws? ==> r == Throws(RowsOf(response).message)
    ensures RowsOf(response).Returns? ==>
      (r.Returns? && (r.value.None? <==> RowsOf(response).value == []) &&
       (r.value.Some? ==> r.value.value == RowsOf(response).value[0]))
  {
    match RowsOf(response)
    case Throws(m) => Throws(m)
    case Returns(rows) => Returns(if rows != [] then Some(rows[0]) else None)
  }

  /** `queryValue`: `null` without a first row; otherwise the first of the
      object's values, `undefined` when it has none. */
  function QueryValue(response: QueryResponse): (r: Settled<Value>)
    ensures QueryFirst(response).Throws? ==> r == Throws(QueryFirst(response).message)
    ensures QueryFirst(response).Returns? && QueryFirst(response).value.None? ==> r == Returns(Null)
    ensures QueryFirst(response).Returns? && QueryFirst(response).value.Some? ==>
      var row := QueryFirst(response).value.value;
      r == Returns(if row == [] then Undefined else Values(row)[0])
  {
    match QueryFirst(response)
    case Throws(m) => Throws(m)
    case Returns(first) =>
      match first
      case None => Returns(Null)
      case Some(row) => Returns(if |Values(row)| > 0 then Values(row)[0] else Undefined)
  }

  /** With rows and columns, queryValue is the cell of the first row under the
      last column named like the first column; so with a first column name
      that does not repeat it is the first cell of the first row. */
  lemma QueryValueIsFirstCell(response: QueryResponse, i: nat)
    requires response.success && response.result.Some?
    requires response.result.value.rows != []
    requires i < |response.result.value.columns|
    requires response.result.value.columns[i] == response.result.value.columns[0]
    requires LastOfName(response.result.value.columns, i)
    ensures QueryValue(response) == Returns(Cell(response.result.value.rows[0], i))
  {
    var qr := response.result.value;
    var obj := ZipObject(qr.columns, qr.rows[0]);
    ZipObjectLookup(qr.columns, qr.rows[0], i);
    assert obj != [] && obj[0].0 == qr.columns[0];
  }

  /** A query without a result gives no rows, no first row and a null value. */
  lemma NoResultMeansNull(response: QueryResponse)
    requires response.success && response.result.None?
    ensures QueryFirst(response) == Returns(None)
    ensures QueryValue(response) == Returns(Null)
  {
  }
}
