/** Dynamically typed values as the Go (`interface{}`), JavaScript and Python
    sources pass them around, and the JavaScript/Python notions built on them:
    truthiness, `typeof`, property access and insertion-ordered objects.
    Numbers are integers; floating point is not modelled. */
module Dynamic {
  import Text

  datatype Option<+T> = None | Some(value: T)

  /** A dynamic value. `Null` is Go's nil, JavaScript's null and Python's
      None; `Undefined` exists only in JavaScript. `Obj` is an object or
      dictionary whose fields are kept in insertion order (JavaScript objects
      and Python dicts iterate in that order); `Func` is a function value,
      identified by a name. */
  datatype Value =
    | Null
    | Undefined
    | Bool(b: bool)
    | Num(n: int)
    | Str(s: string)
    | Arr(items: seq<Value>)
    | Obj(fields: seq<(string, Value)>)
    | Func(name: string)

  /** JavaScript truthiness (`if (v)`, `!v`, `v || d`). */
  predicate JsTruthy(v: Value) {
    match v
    case Null => false
    case Undefined => false
    case Bool(b) => b
    case Num(n) => n != 0
    case Str(s) => s != ""
    case _ => true
  }

  /** Python truthiness: empty containers are false as well. */
  predicate PyTruthy(v: Value) {
    match v
    case Null => false
    case Undefined => false
    case Bool(b) => b
    case Num(n) => n != 0
    case Str(s) => s != ""
    case Arr(items) => items != []
    case Obj(fields) => fields != []
    case Func(_) => true
  }

  /** JavaScript `a || b`. */
  function JsOr(a: Value, b: Value): (r: Value)
    ensures JsTruthy(a) ==> r == a
    ensures !JsTruthy(a) ==> r == b
  {
    if JsTruthy(a) then a else b
  }

  /** JavaScript `typeof`. */
  function TypeOf(v: Value): string {
    match v
    case Null => "object"
    case Undefined => "undefined"
    case Bool(_) => "boolean"
    case Num(_) => "number"
    case Str(_) => "string"
    case Arr(_) => "object"
    case Obj(_) => "object"
    case Func(_) => "function"
  }

  /** The value stored under `key` in an insertion-ordered field list. */
  function Lookup(fields: seq<(string, Value)>, key: string): (r: Option<Value>)
    ensures r.None? <==> forall i :: 0 <= i < |fields| ==> fields[i].0 != key
    ensures r.Some? ==> exists i :: 0 <= i < |fields| && fields[i] == (key, r.value)
  {
    if fields == [] then None
    else if fields[0].0 == key then Some(fields[0].1)
    else Lookup(fields[1..], key)
  }

  /** The field names, in insertion order (`Object.keys`, `dict.keys()`). */
  function Keys(fields: seq<(string, Value)>): (r: seq<string>)
    ensures |r| == |fields|
    ensures forall i :: 0 <= i < |fields| ==> r[i] == fields[i].0
  {
    seq(|fields|, i requires 0 <= i < |fields| => fields[i].0)
  }

  /** The field values, in insertion order (`Object.values`, `dict.values()`). */
  function Values(fields: seq<(string, Value)>): (r: seq<Value>)
    ensures |r| == |fields|
    ensures forall i :: 0 <= i < |fields| ==> r[i] == fields[i].1
  {
    seq(|fields|, i requires 0 <= i < |fields| => fields[i].1)
  }

  /** No field name appears twice. */
  predicate DistinctKeys(fields: seq<(string, Value)>) {
    forall i, j :: 0 <= i < j < |fields| ==> fields[i].0 != fields[j].0
  }

  /** Property assignment `obj[key] = v`: an existing field keeps its place and
      takes the new value, a new field goes at the end. */
  function Put(fields: seq<(string, Value)>, key: string, v: Value): (r: seq<(string, Value)>)
    ensures Lookup(fields, key).Some? ==> |r| == |fields|
    ensures Lookup(fields, key).Some? ==> forall i :: 0 <= i < |r| ==> r[i].0 == fields[i].0
    ensures Lookup(fields, key).None? ==> r == fields + [(key, v)]
  {
    if fields == [] then [(key, v)]
    else if fields[0].0 == key then [(key, v)] + fields[1..]
    else [fields[0]] + Put(fields[1..], key, v)
  }

  /** After `obj[key] = v`, reading `key` gives `v` and every other key reads
      as before. */
  lemma {:induction false} LookupPut(fields: seq<(string, Value)>, key: string, v: Value, other: string)
    ensures Lookup(Put(fields, key, v), key) == Some(v)
    ensures other != key ==> Lookup(Put(fields, key, v), other) == Lookup(fields, other)
  {
    if fields == [] {
      assert Put(fields, key, v) == [(key, v)];
    } else if fields[0].0 == key {
      var r := Put(fields, key, v);
      assert r == [(key, v)] + fields[1..] && r[1..] == fields[1..];
    } else {
      var rest := Put(fields[1..], key, v);
      var r := Put(fields, key, v);
      assert r == [fields[0]] + rest && r[1..] == rest;
      LookupPut(fields[1..], key, v, other);
    }
  }

  /** Reading a key of two field lists laid end to end finds it in the
      first list if it is there, and in the second otherwise. */
  lemma {:induction false} LookupAppend(a: seq<(string, Value)>, b: seq<(string, Value)>, key: string)
    ensures Lookup(a + b, key) == if Lookup(a, key).Some? then Lookup(a, key) else Lookup(b, key)
  {
    if a != [] {
      assert (a + b)[1..] == a[1..] + b;
      LookupAppend(a[1..], b, key);
    } else {
      assert a + b == b;
    }
  }

  /** JavaScript property read `v.key` (or `v?.key`): absent properties, and
      properties of anything that is not an object, read as undefined. */
  function Prop(v: Value, key: string): (r: Value)
    ensures !v.Obj? ==> r == Undefined
    ensures v.Obj? && Lookup(v.fields, key).None? ==> r == Undefined
  {
    if v.Obj? then
      match Lookup(v.fields, key)
      case Some(x) => x
      case None => Undefined
    else Undefined
  }

  /** JavaScript index read `v[i]` (or `v?.[i]`) on an array; out of range and
      non-arrays read as undefined. */
  function Index(v: Value, i: int): (r: Value)
    ensures v.Arr? && 0 <= i < |v.items| ==> r == v.items[i]
    ensures !(v.Arr? && 0 <= i < |v.items|) ==> r == Undefined
  {
    if v.Arr? && 0 <= i < |v.items| then v.items[i] else Undefined
  }

  /** Element `i` of a row, or undefined past its end (JavaScript `row[i]`). */
  function Cell(row: seq<Value>, i: nat): (r: Value)
    ensures i < |row| ==> r == row[i]
    ensures i >= |row| ==> r == Undefined
  {
    if i < |row| then row[i] else Undefined
  }

  /** Column `i` is the last one carrying its name. */
  predicate LastOfName(columns: seq<string>, i: int)
    requires 0 <= i < |columns|
  {
    forall j :: i < j < |columns| ==> columns[j] != columns[i]
  }

  /** The object built by `obj[columns[i]] = row[i]` for i = 0, 1, ... in
      order: a repeated name keeps the place of its first column and the
      value of its last one; cells past the end of the row are undefined. */
  function ZipObject(columns: seq<string>, row: seq<Value>): (fields: seq<(string, Value)>)
    ensures |fields| <= |columns|
    ensures columns != [] ==> fields != [] && fields[0].0 == columns[0]
  {
    if columns == [] then []
    else
      var init := ZipObject(columns[..|columns| - 1], row);
      var r := Put(init, columns[|columns| - 1], Cell(row, |columns| - 1));
      assert |columns| > 1 ==> columns[..|columns| - 1][0] == columns[0];
      r
  }

  /** Adding one more column assigns its cell onto the object built so far. */
  lemma ZipObjectStep(columns: seq<string>, row: seq<Value>, n: int)
    requires 0 <= n < |columns|
    ensures ZipObject(columns[..n + 1], row) == Put(ZipObject(columns[..n], row), columns[n], Cell(row, n))
  {
    assert columns[..n + 1][..n] == columns[..n];
  }

  /** `columns.forEach((column, index) => { obj[column] = row[index] })` on
      a fresh object `obj`: the loop builds exactly the zipped object. */
  method AssignColumns(columns: seq<string>, row: seq<Value>) returns (obj: seq<(string, Value)>)
    ensures obj == ZipObject(columns, row)
  {
    obj := [];
    var index := 0;
    while index < |columns|
      invariant 0 <= index <= |columns|
      invariant obj == ZipObject(columns[..index], row)
    {
      ZipObjectStep(columns, row, index);
      obj := Put(obj, columns[index], Cell(row, index));
      index := index + 1;
    }
    assert columns[..index] == columns;
  }

  /** Every column name is a field of the object, holding the cell under the
      last column of that name. */
  lemma {:induction false} ZipObjectLookup(columns: seq<string>, row: seq<Value>, i: int)
    requires 0 <= i < |columns| && LastOfName(columns, i)
    ensures Lookup(ZipObject(columns, row), columns[i]) == Some(Cell(row, i))
    decreases |columns|
  {
    var n := |columns| - 1;
    var init := columns[..n];
    var prev := ZipObject(init, row);
    assert ZipObject(columns, row) == Put(prev, columns[n], Cell(row, n));
    if i == n {
      LookupPut(prev, columns[n], Cell(row, n), columns[n]);
    } else {
      assert init[i] == columns[i];
      assert LastOfName(init, i) by {
        forall j | i < j < |init| ensures init[j] != init[i] {
          assert init[j] == columns[j];
        }
      }
      ZipObjectLookup(init, row, i);
      assert columns[n] != columns[i];
      LookupPut(prev, columns[n], Cell(row, n), columns[i]);
    }
  }

  /** A name that is not a column is not a field of the object. */
  lemma {:induction false} ZipObjectAbsent(columns: seq<string>, row: seq<Value>, name: string)
    requires name !in columns
    ensures Lookup(ZipObject(columns, row), name).None?
  {
    if columns != [] {
      var n := |columns| - 1;
      assert columns[n] in columns;
      var prev := ZipObject(columns[..n], row);
      assert ZipObject(columns, row) == Put(prev, columns[n], Cell(row, n));
      assert name !in columns[..n];
      ZipObjectAbsent(columns[..n], row, name);
      LookupPut(prev, columns[n], Cell(row, n), name);
    }
  }

  /** The fields of an object value; spreading anything else (`...undefined`,
      `...null`, a number) adds no field. */
  function FieldsOf(v: Value): seq<(string, Value)> {
    if v.Obj? then v.fields else []
  }

  /** `{...target, ...source}`: the source's fields assigned in order onto
      the target's. */
  function Spread(target: seq<(string, Value)>, source: seq<(string, Value)>): seq<(string, Value)>
    decreases |source|
  {
    if source == [] then target else Spread(Put(target, source[0].0, source[0].1), source[1..])
  }

  /** After a spread, a key the source has reads as in the source, and any
      other key reads as in the target. */
  lemma {:induction false} SpreadLookup(target: seq<(string, Value)>, source: seq<(string, Value)>, key: string)
    requires DistinctKeys(source)
    ensures Lookup(source, key).Some? ==> Lookup(Spread(target, source), key) == Lookup(source, key)
    ensures Lookup(source, key).None? ==> Lookup(Spread(target, source), key) == Lookup(target, key)
    decreases |source|
  {
    if source != [] {
      var next := Put(target, source[0].0, source[0].1);
      assert DistinctKeys(source[1..]);
      SpreadLookup(next, source[1..], key);
      LookupPut(target, source[0].0, source[0].1, key);
      if source[0].0 == key {
        assert Lookup(source[1..], key).None?;
      }
    }
  }

  /** JavaScript `String(v)` (also the property key `obj[v]` uses). A
      function renders as its name. */
  function JsToString(v: Value): string
    decreases v
  {
    match v
    case Null => "null"
    case Undefined => "undefined"
    case Bool(b) => if b then "true" else "false"
    case Num(n) => Text.IntToString(n)
    case Str(s) => s
    case Arr(items) =>
      Text.Join(seq(|items|, i requires 0 <= i < |items| =>
        if items[i].Null? || items[i].Undefined? then "" else JsToString(items[i])), ",")
    case Obj(_) => "[object Object]"
    case Func(name) => name
  }

  /** Every character is a decimal digit. */
  predicate AllDigits(s: string) {
    forall k :: 0 <= k < |s| ==> '0' <= s[k] <= '9'
  }

  /** JavaScript `Number(s)` on the strings it reads as integers: surrounding
      whitespace is ignored, a blank string is 0, and digits with an optional
      sign denote their value. Every other string is NaN, written `None`. */
  function StringToNumber(s: string): Option<int> {
    TrimmedToNumber(Text.Trim(s))
  }

  /** `StringToNumber` once the whitespace is gone. */
  function TrimmedToNumber(t: string): Option<int> {
    if t == [] then Some(0)
    else if AllDigits(t) then Some(Text.DigitsValue(t))
    else if |t| > 1 && (t[0] == '+' || t[0] == '-') && AllDigits(t[1..]) then
      Some(if t[0] == '-' then -Text.DigitsValue(t[1..]) else Text.DigitsValue(t[1..]))
    else None
  }

  /** JavaScript `ToNumber` as a relational operator applies it: null is 0,
      booleans are 0 and 1, undefined and functions are NaN (`None`), and
      arrays and objects are compared through their string form. */
  function JsToNumber(v: Value): Option<int> {
    match v
    case Null => Some(0)
    case Undefined => None
    case Bool(b) => Some(if b then 1 else 0)
    case Num(n) => Some(n)
    case Str(s) => StringToNumber(s)
    case Arr(_) => StringToNumber(JsToString(v))
    case Obj(_) => StringToNumber(JsToString(v))
    case Func(_) => None
  }

  /** Reading back the decimal rendering of an integer gives the integer. */
  lemma StringToNumberOfInt(n: int)
    ensures StringToNumber(Text.IntToString(n)) == Some(n)
  {
    if n < 0 {
      NegativeRendering(n);
    } else {
      NatRendering(n);
    }
  }

  lemma NatRendering(m: nat)
    ensures StringToNumber(Text.NatToString(m)) == Some(m)
  {
    Text.NatToStringValue(m);
    DigitsNumber(Text.NatToString(m));
  }

  lemma NegativeRendering(n: int)
    requires n < 0
    ensures StringToNumber(Text.IntToString(n)) == Some(n)
  {
    var d := Text.NatToString(-n);
    Text.NatToStringValue(-n);
    NegativeDigitsNumber(d, -n);
  }

  /** A string of digits is read as the number it denotes. */
  lemma DigitsNumber(d: string)
    requires |d| >= 1 && AllDigits(d)
    ensures StringToNumber(d) == Some(Text.DigitsValue(d))
  {
    assert !Text.IsSpace(d[0]) && !Text.IsSpace(d[|d| - 1]);
    Text.TrimOfTrimmed(d);
  }

  /** A minus sign before a string of digits negates the number. */
  lemma NegativeDigitsNumber(d: string, v: int)
    requires |d| >= 1 && AllDigits(d) && Text.DigitsValue(d) == v
    ensures StringToNumber("-" + d) == Some(-v)
  {
    var s := "-" + d;
    assert !Text.IsSpace(s[0]) && !Text.IsSpace(s[|s| - 1]) by {
      assert s[0] == '-' && s[|s| - 1] == d[|d| - 1];
    }
    Text.TrimOfTrimmed(s);
    NegativeDigitsTrimmed(d, v);
  }

  lemma NegativeDigitsTrimmed(d: string, v: int)
    requires |d| >= 1 && AllDigits(d) && Text.DigitsValue(d) == v
    ensures TrimmedToNumber("-" + d) == Some(-v)
  {
    var s := "-" + d;
    assert s[1..] == d;
    assert !AllDigits(s) by { assert s[0] == '-'; }
  }

  /** A one-element array renders as its element, with null and undefined
      rendered empty. */
  lemma SingletonToString(v: Value)
    ensures JsToString(Arr([v])) == if v.Null? || v.Undefined? then "" else JsToString(v)
  {
    var parts := seq(1, i requires 0 <= i < 1 =>
      if [v][i].Null? || [v][i].Undefined? then "" else JsToString([v][i]));
    assert parts == [if v.Null? || v.Undefined? then "" else JsToString(v)];
  }

  /** Words such as `true` and `[object Object]` are NaN. */
  lemma WordIsNaN(s: string)
    requires |s| > 0 && !('0' <= s[0] <= '9') && s[0] != '+' && s[0] != '-' && !Text.IsSpace(s[0])
    requires !Text.IsSpace(s[|s| - 1])
    ensures StringToNumber(s) == None
  {
    Text.TrimOfTrimmed(s);
    assert !AllDigits(s);
  }
}
