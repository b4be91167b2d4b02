/** The Go client's HTTP layer (goja-client/internal/core/http.go): an
    `HTTPClient` object holding its options and a header table that
    `SetHeader`/`RemoveHeader` update in place, and `request`, which builds
    the request and then retries on transport failures and on retryable
    statuses, counting down from `MaxRetries`.

    The network is a parameter: `transport(k)` is what the k-th attempt
    (from 0) runs into, either a failure at one of the three steps that can
    fail or a response together with the outcome of decoding its body as
    `{"error": ...}`. Sleeping is recorded as the list of requested delays.
    Durations are integers (nanoseconds, as Go's `time.Duration`). */
module CoreHttp {
  import opened Dynamic
  import opened CoreModels
  import opened CoreErrors
  import Text

  const Second := 1_000_000_000

  datatype HTTPOptions = HTTPOptions(
    baseURL: string,
    timeout: int,
    maxRetries: int,
    retryDelay: int,
    headers: map<string, string>)

  /** What one attempt runs into. `decodedError` is `Some(d)` exactly when
      the body decodes as JSON with a non-null "error" member `d`. */
  datatype Exchange =
    | RequestNotCreated(reason: string)
    | TransportFailed(reason: string)
    | ReadFailed(reason: string)
    | Response(status: int, body: string, decodedError: Option<ErrorDetail>)

  /** The request as it is put on the wire. */
  datatype OutgoingRequest = OutgoingRequest(
    verb: string, url: string, headers: map<string, string>, body: Option<string>)

  /** The `([]byte, error)` pair `request` returns. */
  datatype HttpResult = Body(body: string) | Failure(err: AetherError)

  /** What one attempt decides, given how many retries are left. */
  datatype Decision = Finish(result: HttpResult) | RetryAfterDelay

  /** The result of the whole retry chain and the number of attempts made. */
  datatype Exchanged = Exchanged(result: HttpResult, attempts: nat)

  /** `shouldRetry`: 408 Request Timeout, 429 Too Many Requests and every
      server error (500 and up). */
  predicate ShouldRetry(statusCode: int) {
    statusCode == 408 || statusCode == 429 || statusCode >= 500
  }

  /** The retryable statuses are 408, 429 and exactly those whose mapped
      error is a connection error. */
  lemma ShouldRetryAgreesWithMapper(statusCode: int, message: string, details: Value)
    ensures ShouldRetry(statusCode) <==>
      statusCode == 408 || statusCode == 429 || IsConnectionError(Aether(ErrorMapper(statusCode, message, details)))
  {
    MappedErrorClassification(statusCode, message, details);
  }

  predicate IsSuccessStatus(statusCode: int) {
    200 <= statusCode < 300
  }

  /** A byte Go's `textproto` accepts in a header name it canonicalises:
      letters, digits and the punctuation of an HTTP token. */
  predicate TokenChar(c: char) {
    ('a' <= c <= 'z') || ('A' <= c <= 'Z') || ('0' <= c <= '9')
    || c == '!' || c == '#' || c == '$' || c == '%' || c == '&' || c == '\'' || c == '*'
    || c == '+' || c == '-' || c == '.' || c == '^' || c == '_' || c == '`' || c == '|' || c == '~'
  }

  predicate AllToken(s: string) {
    forall i :: 0 <= i < |s| ==> TokenChar(s[i])
  }

  /** Position `i` starts a word of a header name: the first position, or
      one right after a hyphen. */
  predicate StartsWord(s: string, i: int)
    requires 0 <= i < |s|
  {
    i == 0 || s[i - 1] == '-'
  }

  /** The canonical header-name form: upper case at the start of each word,
      lower case everywhere else. */
  predicate Canonical(s: string) {
    forall i :: 0 <= i < |s| ==>
      s[i] == (if StartsWord(s, i) then Text.UpperChar(s[i]) else Text.LowerChar(s[i]))
  }

  /** `textproto.CanonicalMIMEHeaderKey`, which `Header.Set` applies to its
      key: a name made of token bytes is rewritten into canonical form, any
      other name is left as it is. */
  function CanonicalKey(k: string): (r: string)
    ensures |r| == |k|
  {
    if AllToken(k) then seq(|k|, i requires 0 <= i < |k| => CaseAt(k, i)) else k
  }

  /** Byte `i` of `k` in the case its position asks for. */
  function CaseAt(k: string, i: int): char
    requires 0 <= i < |k|
  {
    if StartsWord(k, i) then Text.UpperChar(k[i]) else Text.LowerChar(k[i])
  }

  /** Case changes keep a character's lower-case form and are idempotent. */
  lemma CaseChar(c: char)
    ensures Text.LowerChar(Text.UpperChar(c)) == Text.LowerChar(c)
    ensures Text.LowerChar(Text.LowerChar(c)) == Text.LowerChar(c)
    ensures Text.UpperChar(Text.UpperChar(c)) == Text.UpperChar(c)
  {
  }

  /** Case changes keep token bytes token bytes and hyphens hyphens. */
  lemma TokenCase(c: char)
    ensures TokenChar(c) ==> TokenChar(Text.UpperChar(c)) && TokenChar(Text.LowerChar(c))
    ensures TokenChar(Text.LowerChar(c)) ==> TokenChar(c)
  {
  }

  /** Case changes make no hyphen and keep every hyphen. */
  lemma HyphenCase(c: char)
    ensures Text.LowerChar(c) == '-' <==> c == '-'
    ensures Text.UpperChar(c) == '-' <==> c == '-'
  {
  }

  /** Two characters with the same lower-case form that are both fixed by
      upper-casing, or both fixed by lower-casing, are equal. */
  lemma SameLetter(c: char, d: char)
    requires Text.LowerChar(c) == Text.LowerChar(d)
    ensures c == Text.UpperChar(c) && d == Text.UpperChar(d) ==> c == d
    ensures c == Text.LowerChar(c) && d == Text.LowerChar(d) ==> c == d
  {
  }

  /** Canonicalisation only changes case. */
  lemma CanonicalKeyLower(k: string)
    ensures Text.ToLower(CanonicalKey(k)) == Text.ToLower(k)
  {
    var r := CanonicalKey(k);
    forall i | 0 <= i < |k| ensures Text.LowerChar(r[i]) == Text.LowerChar(k[i]) {
      CaseChar(k[i]);
    }
  }

  /** Position `i` of a canonicalised token name holds a token byte. */
  lemma CanonicalKeyTokenAt(k: string, i: nat)
    requires AllToken(k) && i < |k|
    ensures TokenChar(CanonicalKey(k)[i])
  {
    var c := k[i];
    assert TokenChar(c);
    TokenCase(c);
    assert CanonicalKey(k)[i] in {Text.UpperChar(c), Text.LowerChar(c)};
  }

  /** A canonicalised token name starts its words where the input did. */
  lemma CanonicalKeyWordsAt(k: string, i: nat)
    requires AllToken(k) && i < |k|
    ensures StartsWord(CanonicalKey(k), i) == StartsWord(k, i)
  {
    if i > 0 {
      var p := k[i - 1];
      HyphenCase(p);
      assert CanonicalKey(k)[i - 1] == CaseAt(k, i - 1);
      assert CaseAt(k, i - 1) == '-' <==> p == '-';
    }
  }

  /** Position `i` of a canonicalised token name is in the case its
      position asks for. */
  lemma CanonicalKeyCaseAt(k: string, i: nat)
    requires AllToken(k) && i < |k|
    ensures var r := CanonicalKey(k);
      r[i] == (if StartsWord(r, i) then Text.UpperChar(r[i]) else Text.LowerChar(r[i]))
  {
    CanonicalKeyWordsAt(k, i);
    CaseChar(k[i]);
  }

  /** A name of token bytes comes out in canonical form, still made of
      token bytes. */
  lemma CanonicalKeyCanonical(k: string)
    requires AllToken(k)
    ensures AllToken(CanonicalKey(k)) && Canonical(CanonicalKey(k))
  {
    forall i | 0 <= i < |k|
      ensures TokenChar(CanonicalKey(k)[i])
      ensures CanonicalKey(k)[i] == (if StartsWord(CanonicalKey(k), i)
        then Text.UpperChar(CanonicalKey(k)[i]) else Text.LowerChar(CanonicalKey(k)[i]))
    {
      CanonicalKeyTokenAt(k, i);
      CanonicalKeyCaseAt(k, i);
    }
  }

  /** Canonicalisation only changes case; a token name comes out in
      canonical form and still made of token bytes; any other name is kept. */
  lemma CanonicalKeyMeaning(k: string)
    ensures Text.ToLower(CanonicalKey(k)) == Text.ToLower(k)
    ensures AllToken(k) ==> AllToken(CanonicalKey(k)) && Canonical(CanonicalKey(k))
    ensures !AllToken(k) ==> CanonicalKey(k) == k
  {
    CanonicalKeyLower(k);
    if AllToken(k) {
      CanonicalKeyCanonical(k);
    }
  }

  /** A canonical name is determined by its lower-case form. */
  lemma CanonicalUnique(a: string, b: string)
    requires Canonical(a) && Canonical(b) && Text.ToLower(a) == Text.ToLower(b)
    ensures a == b
  {
    assert |a| == |Text.ToLower(a)| == |b|;
    forall i | 0 <= i < |a| ensures a[i] == b[i] {
      assert Text.LowerChar(a[i]) == Text.ToLower(a)[i] == Text.LowerChar(b[i]);
      if i > 0 {
        assert Text.LowerChar(a[i - 1]) == Text.ToLower(a)[i - 1] == Text.LowerChar(b[i - 1]);
        HyphenCase(a[i - 1]);
        HyphenCase(b[i - 1]);
      }
      assert StartsWord(a, i) == StartsWord(b, i);
      assert a[i] == (if StartsWord(a, i) then Text.UpperChar(a[i]) else Text.LowerChar(a[i]));
      assert b[i] == (if StartsWord(b, i) then Text.UpperChar(b[i]) else Text.LowerChar(b[i]));
      SameLetter(a[i], b[i]);
    }
  }

  /** Canonicalising twice is canonicalising once. */
  lemma CanonicalKeyIdempotent(k: string)
    ensures CanonicalKey(CanonicalKey(k)) == CanonicalKey(k)
  {
    var r := CanonicalKey(k);
    CanonicalKeyMeaning(k);
    if AllToken(k) {
      CanonicalKeyMeaning(r);
      CanonicalUnique(CanonicalKey(r), r);
    }
  }

  /** Names that differ only in case are the same header once set, when
      they are made of token bytes. */
  lemma CanonicalKeyIgnoresCase(a: string, b: string)
    requires Text.ToLower(a) == Text.ToLower(b)
    ensures AllToken(a) ==> CanonicalKey(a) == CanonicalKey(b)
  {
    if AllToken(a) {
      assert |a| == |Text.ToLower(a)| == |b|;
      forall i | 0 <= i < |b| ensures TokenChar(b[i]) {
        assert Text.LowerChar(a[i]) == Text.ToLower(a)[i] == Text.LowerChar(b[i]);
        TokenCase(a[i]);
        TokenCase(b[i]);
      }
      CanonicalKeyMeaning(a);
      CanonicalKeyMeaning(b);
      CanonicalUnique(CanonicalKey(a), CanonicalKey(b));
    }
  }

  /** The names the client sets itself: Content-Type and User-Agent are
      already canonical, while the authentication headers go on the wire as
      X-Api-Key and X-Sql-Key. */
  lemma ClientHeaderNames()
    ensures CanonicalKey("Content-Type") == "Content-Type"
    ensures CanonicalKey("User-Agent") == "User-Agent"
    ensures CanonicalKey("X-API-Key") == "X-Api-Key"
    ensures CanonicalKey("X-SQL-Key") == "X-Sql-Key"
  {
    SpelledAs("Content-Type", "Content-Type");
    SpelledAs("User-Agent", "User-Agent");
    SpelledAs("X-API-Key", "X-Api-Key");
    SpelledAs("X-SQL-Key", "X-Sql-Key");
  }

  /** `k` is set under `w` when `w` spells each byte of `k` in the case its
      position asks for. */
  lemma SpelledAs(k: string, w: string)
    requires |k| == |w|
    requires forall i :: 0 <= i < |k| ==> TokenChar(k[i]) && CaseAt(k, i) == w[i]
    ensures CanonicalKey(k) == w
  {
  }

  /** `k` is set under `w` when `w` is a canonical spelling of `k`. */
  lemma OnTheWire(k: string, w: string)
    requires AllToken(k) && Canonical(w) && Text.ToLower(k) == Text.ToLower(w)
    ensures CanonicalKey(k) == w
  {
    CanonicalKeyMeaning(k);
    CanonicalUnique(CanonicalKey(k), w);
  }

  /** `Header.Set(key, value)`: the canonical name maps to the value alone. */
  function SetCanonical(h: map<string, string>, key: string, value: string): map<string, string> {
    h[CanonicalKey(key) := value]
  }

  /** `order` lists the keys of `m`, each once: the order in which Go's map
      iteration, which is left unspecified, happened to visit them. */
  ghost predicate Enumerates(order: seq<string>, m: map<string, string>) {
    (forall k :: k in m <==> k in order) &&
    (forall i, j :: 0 <= i < j < |order| ==> order[i] != order[j])
  }

  /** The headers after `Header.Set(k, layer[k])` for each `k` of `order`,
      in turn, starting from `h`. */
  function HeadersAfter(h: map<string, string>, layer: map<string, string>, order: seq<string>): map<string, string>
    requires forall i :: 0 <= i < |order| ==> order[i] in layer
    decreases |order|
  {
    if order == [] then h
    else
      var last := order[|order| - 1];
      SetCanonical(HeadersAfter(h, layer, order[..|order| - 1]), last, layer[last])
  }

  /** Some key of `order` is set under `name`. */
  ghost predicate SetsName(order: seq<string>, name: string) {
    exists i :: 0 <= i < |order| && CanonicalKey(order[i]) == name
  }

  /** Some key of `m` canonicalises to `name`. */
  ghost predicate NamedIn(m: map<string, string>, name: string) {
    exists k :: k in m && CanonicalKey(k) == name
  }

  /** `key` is the only key of `m` with its canonical form. */
  predicate UniqueIn(key: string, m: map<string, string>) {
    forall k :: k in m && CanonicalKey(k) == CanonicalKey(key) ==> k == key
  }

  /** Visiting every key of a map sets exactly the names its keys
      canonicalise to. */
  lemma EnumeratedNames(order: seq<string>, m: map<string, string>, name: string)
    requires Enumerates(order, m)
    ensures SetsName(order, name) <==> NamedIn(m, name)
  {
    if NamedIn(m, name) {
      var k :| k in m && CanonicalKey(k) == name;
      var i :| 0 <= i < |order| && order[i] == k;
    }
  }

  /** A key list sets a name when its front part does or its last key
      does. */
  lemma SetsNameSnoc(order: seq<string>, name: string)
    requires order != []
    ensures SetsName(order, name) <==>
      SetsName(order[..|order| - 1], name) || CanonicalKey(order[|order| - 1]) == name
  {
    var init := order[..|order| - 1];
    if SetsName(order, name) && CanonicalKey(order[|order| - 1]) != name {
      var i :| 0 <= i < |order| && CanonicalKey(order[i]) == name;
      assert init[i] == order[i];
    }
    if SetsName(init, name) {
      var i :| 0 <= i < |init| && CanonicalKey(init[i]) == name;
      assert order[i] == init[i];
    }
  }

  /** The names present afterwards are those present before and the
      canonical forms of the keys set. */
  lemma {:induction false} HeadersAfterKeys(h: map<string, string>, layer: map<string, string>, order: seq<string>, name: string)
    requires forall i :: 0 <= i < |order| ==> order[i] in layer
    ensures name in HeadersAfter(h, layer, order) <==> name in h || SetsName(order, name)
    decreases |order|
  {
    if order != [] {
      SetsNameSnoc(order, name);
      HeadersAfterKeys(h, layer, order[..|order| - 1], name);
    }
  }

  /** A name that no key of `order` canonicalises to keeps its entry. */
  lemma {:induction false} HeadersAfterUntouched(h: map<string, string>, layer: map<string, string>, order: seq<string>, name: string)
    requires forall i :: 0 <= i < |order| ==> order[i] in layer
    requires !SetsName(order, name) && name in h
    ensures name in HeadersAfter(h, layer, order) && HeadersAfter(h, layer, order)[name] == h[name]
    decreases |order|
  {
    if order != [] {
      SetsNameSnoc(order, name);
      HeadersAfterUntouched(h, layer, order[..|order| - 1], name);
    }
  }

  /** The last key of `order` with a given canonical form sets that name. */
  lemma {:induction false} HeadersAfterLastWins(h: map<string, string>, layer: map<string, string>, order: seq<string>, j: nat)
    requires forall i :: 0 <= i < |order| ==> order[i] in layer
    requires j < |order|
    requires forall i :: j < i < |order| ==> CanonicalKey(order[i]) != CanonicalKey(order[j])
    ensures CanonicalKey(order[j]) in HeadersAfter(h, layer, order)
    ensures HeadersAfter(h, layer, order)[CanonicalKey(order[j])] == layer[order[j]]
    decreases |order|
  {
    if j < |order| - 1 {
      var init := order[..|order| - 1];
      assert init[j] == order[j];
      HeadersAfterLastWins(h, layer, init, j);
    }
  }

  /** A name some key of `order` canonicalises to ends up holding the value
      of one such key. */
  lemma {:induction false} HeadersAfterHit(h: map<string, string>, layer: map<string, string>, order: seq<string>, name: string)
    requires forall i :: 0 <= i < |order| ==> order[i] in layer
    requires SetsName(order, name)
    ensures name in HeadersAfter(h, layer, order)
    ensures exists k :: k in layer && CanonicalKey(k) == name && HeadersAfter(h, layer, order)[name] == layer[k]
    decreases |order|
  {
    var n := |order| - 1;
    var init, last := order[..n], order[n];
    var prev := HeadersAfter(h, layer, init);
    assert HeadersAfter(h, layer, order) == prev[CanonicalKey(last) := layer[last]];
    if CanonicalKey(last) == name {
      assert last in layer;
    } else {
      SetsNameSnoc(order, name);
      HeadersAfterHit(h, layer, init, name);
      var k :| k in layer && CanonicalKey(k) == name && prev[name] == layer[k];
      assert HeadersAfter(h, layer, order)[name] == layer[k];
    }
  }

  /** A key that is the only one of its layer with its canonical form sets
      that name to its value, whatever order the layer is visited in. */
  lemma UniqueKeyWins(h: map<string, string>, layer: map<string, string>, order: seq<string>, key: string)
    requires Enumerates(order, layer)
    requires key in layer && UniqueIn(key, layer)
    ensures CanonicalKey(key) in HeadersAfter(h, layer, order)
    ensures HeadersAfter(h, layer, order)[CanonicalKey(key)] == layer[key]
  {
    var j :| 0 <= j < |order| && order[j] == key;
    forall i | j < i < |order| ensures CanonicalKey(order[i]) != CanonicalKey(order[j]) {
      assert order[i] in layer && order[i] != order[j];
    }
    HeadersAfterLastWins(h, layer, order, j);
  }

  /** A layer none of whose keys canonicalises to `name` leaves its entry
      as it was. */
  lemma UnnamedKept(h: map<string, string>, layer: map<string, string>, order: seq<string>, name: string)
    requires Enumerates(order, layer)
    requires !NamedIn(layer, name) && name in h
    ensures name in HeadersAfter(h, layer, order) && HeadersAfter(h, layer, order)[name] == h[name]
  {
    EnumeratedNames(order, layer, name);
    HeadersAfterUntouched(h, layer, order, name);
  }

  /** When no two keys of a layer share a canonical form, the order in which
      Go happens to visit them does not matter. */
  lemma OrderFree(h: map<string, string>, layer: map<string, string>, order1: seq<string>, order2: seq<string>)
    requires Enumerates(order1, layer) && Enumerates(order2, layer)
    requires forall k :: k in layer ==> UniqueIn(k, layer)
    ensures HeadersAfter(h, layer, order1) == HeadersAfter(h, layer, order2)
  {
    var r1, r2 := HeadersAfter(h, layer, order1), HeadersAfter(h, layer, order2);
    forall name ensures name in r1 <==> name in r2 {
      HeadersAfterKeys(h, layer, order1, name);
      HeadersAfterKeys(h, layer, order2, name);
      EnumeratedNames(order1, layer, name);
      EnumeratedNames(order2, layer, name);
    }
    forall name | name in r1 ensures r1[name] == r2[name] {
      OrderFreeAt(h, layer, order1, order2, name);
    }
  }

  lemma OrderFreeAt(h: map<string, string>, layer: map<string, string>, order1: seq<string>, order2: seq<string>,
                    name: string)
    requires Enumerates(order1, layer) && Enumerates(order2, layer)
    requires forall k :: k in layer ==> UniqueIn(k, layer)
    requires name in HeadersAfter(h, layer, order1) && name in HeadersAfter(h, layer, order2)
    ensures HeadersAfter(h, layer, order1)[name] == HeadersAfter(h, layer, order2)[name]
  {
    if NamedIn(layer, name) {
      var k :| k in layer && CanonicalKey(k) == name;
      UniqueKeyWins(h, layer, order1, k);
      UniqueKeyWins(h, layer, order2, k);
    } else {
      HeadersAfterKeys(h, layer, order1, name);
      EnumeratedNames(order1, layer, name);
      UnnamedKept(h, layer, order1, name);
      UnnamedKept(h, layer, order2, name);
    }
  }

  /** The headers every request starts from, before the client's own. */
  function FixedHeaders(): map<string, string> {
    SetCanonical(SetCanonical(map[], "Content-Type", "application/json"),
                 "User-Agent", "AetherQuery-Go-Client/1.0.0")
  }

  /** Content-Type and User-Agent, under their own names. */
  lemma FixedHeadersAre()
    ensures FixedHeaders() ==
      map["Content-Type" := "application/json", "User-Agent" := "AetherQuery-Go-Client/1.0.0"]
  {
    ClientHeaderNames();
  }

  /** The header set of a request: Content-Type and User-Agent, then the
      client's header table, then the option headers, each set in the order
      Go's map iteration visits its keys. */
  function RequestHeaders(table: map<string, string>, tableOrder: seq<string>,
                          optionHeaders: map<string, string>, optionOrder: seq<string>): map<string, string>
    requires Enumerates(tableOrder, table) && Enumerates(optionOrder, optionHeaders)
  {
    HeadersAfter(HeadersAfter(FixedHeaders(), table, tableOrder), optionHeaders, optionOrder)
  }

  /** The names a request carries: Content-Type, User-Agent and the
      canonical forms of the table's and the options' keys, every one of
      them in canonical form. */
  lemma RequestHeadersKeys(table: map<string, string>, tableOrder: seq<string>,
                           optionHeaders: map<string, string>, optionOrder: seq<string>, name: string)
    requires Enumerates(tableOrder, table) && Enumerates(optionOrder, optionHeaders)
    ensures name in RequestHeaders(table, tableOrder, optionHeaders, optionOrder) <==>
      (name == "Content-Type" || name == "User-Agent" || NamedIn(table, name) || NamedIn(optionHeaders, name))
    ensures name in RequestHeaders(table, tableOrder, optionHeaders, optionOrder) ==> CanonicalKey(name) == name
  {
    FixedHeadersAre();
    ClientHeaderNames();
    var mid := HeadersAfter(FixedHeaders(), table, tableOrder);
    HeadersAfterKeys(FixedHeaders(), table, tableOrder, name);
    HeadersAfterKeys(mid, optionHeaders, optionOrder, name);
    EnumeratedNames(tableOrder, table, name);
    EnumeratedNames(optionOrder, optionHeaders, name);
    if NamedIn(table, name) {
      var k :| k in table && CanonicalKey(k) == name;
      CanonicalKeyIdempotent(k);
    } else if NamedIn(optionHeaders, name) {
      var k :| k in optionHeaders && CanonicalKey(k) == name;
      CanonicalKeyIdempotent(k);
    }
  }

  /** An option header beats the table, which beats Content-Type and
      User-Agent; within a layer, a key that is the only one with its
      canonical form wins whatever the iteration order. */
  lemma RequestHeadersLayers(table: map<string, string>, tableOrder: seq<string>,
                             optionHeaders: map<string, string>, optionOrder: seq<string>, key: string)
    requires Enumerates(tableOrder, table) && Enumerates(optionOrder, optionHeaders)
    ensures var h := RequestHeaders(table, tableOrder, optionHeaders, optionOrder);
      key in optionHeaders && UniqueIn(key, optionHeaders) ==>
        CanonicalKey(key) in h && h[CanonicalKey(key)] == optionHeaders[key]
    ensures var h := RequestHeaders(table, tableOrder, optionHeaders, optionOrder);
      key in table && UniqueIn(key, table) && !NamedIn(optionHeaders, CanonicalKey(key)) ==>
        CanonicalKey(key) in h && h[CanonicalKey(key)] == table[key]
    ensures var h := RequestHeaders(table, tableOrder, optionHeaders, optionOrder);
      key in FixedHeaders() && !NamedIn(table, key) && !NamedIn(optionHeaders, key) ==>
        key in h && h[key] == FixedHeaders()[key]
  {
    var mid := HeadersAfter(FixedHeaders(), table, tableOrder);
    if key in optionHeaders && UniqueIn(key, optionHeaders) {
      UniqueKeyWins(mid, optionHeaders, optionOrder, key);
    }
    if key in table && UniqueIn(key, table) && !NamedIn(optionHeaders, CanonicalKey(key)) {
      UniqueKeyWins(FixedHeaders(), table, tableOrder, key);
      UnnamedKept(mid, optionHeaders, optionOrder, CanonicalKey(key));
    }
    if key in FixedHeaders() && !NamedIn(table, key) && !NamedIn(optionHeaders, key) {
      UnnamedKept(FixedHeaders(), table, tableOrder, key);
      UnnamedKept(mid, optionHeaders, optionOrder, key);
    }
  }

  /** Whatever the iteration order, a name an option key canonicalises to
      carries the value of some option key with that canonical form. */
  lemma OptionHeaderValue(table: map<string, string>, tableOrder: seq<string>,
                          optionHeaders: map<string, string>, optionOrder: seq<string>, name: string)
    requires Enumerates(tableOrder, table) && Enumerates(optionOrder, optionHeaders)
    requires NamedIn(optionHeaders, name)
    ensures var h := RequestHeaders(table, tableOrder, optionHeaders, optionOrder);
      name in h && exists k :: k in optionHeaders && CanonicalKey(k) == name && h[name] == optionHeaders[k]
  {
    EnumeratedNames(optionOrder, optionHeaders, name);
    HeadersAfterHit(HeadersAfter(FixedHeaders(), table, tableOrder), optionHeaders, optionOrder, name);
  }

  /** The loop `for key, value := range layer { req.Header.Set(key, value) }`
      with the keys visited in `order`. */
  method SetAll(h: map<string, string>, layer: map<string, string>, order: seq<string>)
    returns (r: map<string, string>)
    requires Enumerates(order, layer)
    ensures r == HeadersAfter(h, layer, order)
  {
    r := h;
    for i := 0 to |order|
      invariant r == HeadersAfter(h, layer, order[..i])
    {
      assert order[..i + 1][..i] == order[..i];
      r := r[CanonicalKey(order[i]) := layer[order[i]]];
    }
    assert order[..|order|] == order;
  }

  /** The decision of one attempt. Only a transport failure and an
      undecodable non-2xx response with a retryable status are retried, and
      only while retries remain; a decoded error body ends the chain at once
      whatever its status. */
  function Decide(x: Exchange, retries: int): (d: Decision)
    ensures d.RetryAfterDelay? ==> retries > 0
    ensures d.RetryAfterDelay? <==>
      (retries > 0 &&
       (x.TransportFailed? ||
        (x.Response? && !IsSuccessStatus(x.status) && x.decodedError.None? && ShouldRetry(x.status))))
    ensures x.Response? && IsSuccessStatus(x.status) ==> d == Finish(Body(x.body))
    ensures x.Response? && !IsSuccessStatus(x.status) && x.decodedError.Some? ==>
      d == Finish(Failure(AetherError(x.decodedError.value.code, x.decodedError.value.message,
                                      x.decodedError.value.details, x.status)))
    ensures d.Finish? && d.result.Failure? ==>
      (d.result.err.code in {"REQUEST_ERROR", "NETWORK_ERROR", "READ_ERROR", "HTTP_ERROR"} ||
       (x.Response? && x.decodedError.Some?))
  {
    match x
    case RequestNotCreated(reason) =>
      Finish(Failure(AetherError("REQUEST_ERROR", "Failed to create request: " + reason, Null, 0)))
    case TransportFailed(reason) =>
      if retries > 0 then RetryAfterDelay
      else Finish(Failure(AetherError("NETWORK_ERROR", "Network error: " + reason, Null, 0)))
    case ReadFailed(reason) =>
      Finish(Failure(AetherError("READ_ERROR", "Failed to read response: " + reason, Null, 0)))
    case Response(status, body, decoded) =>
      if status < 200 || status >= 300 then
        match decoded
        case Some(detail) => Finish(Failure(AetherError(detail.code, detail.message, detail.details, status)))
        case None =>
          if retries > 0 && ShouldRetry(status) then RetryAfterDelay
          else Finish(Failure(AetherError("HTTP_ERROR", "HTTP " + Text.IntToString(status) + ": " + body, Null, status)))
      else Finish(Body(body))
  }

  /** The retry chain that starts at attempt `attempt` with `retries` retries
      left, as the recursive `request` runs it. */
  function RequestChain(transport: nat -> Exchange, attempt: nat, retries: int): (r: Exchanged)
    ensures attempt < r.attempts
    decreases if retries > 0 then retries else 0
  {
    match Decide(transport(attempt), retries)
    case Finish(result) => Exchanged(result, attempt + 1)
    case RetryAfterDelay => RequestChain(transport, attempt + 1, retries - 1)
  }

  /** A chain never makes more than one attempt beyond its retries: in total
      at most MaxRetries + 1 attempts, and exactly one when no retries are
      allowed. */
  lemma {:induction false} AttemptsBounded(transport: nat -> Exchange, attempt: nat, retries: int)
    ensures RequestChain(transport, attempt, retries).attempts <= attempt + 1 + (if retries > 0 then retries else 0)
    decreases if retries > 0 then retries else 0
  {
    if Decide(transport(attempt), retries).RetryAfterDelay? {
      AttemptsBounded(transport, attempt + 1, retries - 1);
    }
  }

  /** When every attempt fails in transport, the chain makes every allowed
      attempt and ends with a NETWORK_ERROR that carries no HTTP status. */
  lemma {:induction false} PersistentTransportFailure(transport: nat -> Exchange, attempt: nat, retries: int)
    requires forall k :: attempt <= k ==> transport(k).TransportFailed?
    ensures RequestChain(transport, attempt, retries).attempts == attempt + 1 + (if retries > 0 then retries else 0)
    ensures RequestChain(transport, attempt, retries).result.Failure?
    ensures RequestChain(transport, attempt, retries).result.err.code == "NETWORK_ERROR"
    ensures RequestChain(transport, attempt, retries).result.err.httpCode == 0
    decreases if retries > 0 then retries else 0
  {
    if retries > 0 {
      PersistentTransportFailure(transport, attempt + 1, retries - 1);
    }
  }

  /** An attempt that gets a 2xx response ends the chain with its body, and
      one that gets a non-2xx response with a decodable error ends it with
      that error under the response status, even for a retryable status and
      with retries left. */
  lemma FirstAnswerDecides(transport: nat -> Exchange, attempt: nat, retries: int)
    requires transport(attempt).Response?
    requires IsSuccessStatus(transport(attempt).status) || transport(attempt).decodedError.Some?
    ensures RequestChain(transport, attempt, retries).attempts == attempt + 1
    ensures IsSuccessStatus(transport(attempt).status) ==>
      RequestChain(transport, attempt, retries).result == Body(transport(attempt).body)
    ensures !IsSuccessStatus(transport(attempt).status) ==>
      var d := transport(attempt).decodedError.value;
      RequestChain(transport, attempt, retries).result ==
        Failure(AetherError(d.code, d.message, d.details, transport(attempt).status))
  {
  }

  /** Every body the chain returns came from a 2xx response of the attempt
      that ended it, and every HTTP_ERROR it returns carries the non-2xx
      status of that attempt. */
  lemma {:induction false} ChainResultOrigin(transport: nat -> Exchange, attempt: nat, retries: int)
    ensures var r := RequestChain(transport, attempt, retries);
      var last := transport(r.attempts - 1);
      (r.result.Body? ==> last.Response? && IsSuccessStatus(last.status) && r.result.body == last.body) &&
      (r.result.Failure? && r.result.err.code == "HTTP_ERROR" && last.Response? && last.decodedError.None? ==>
         r.result.err.httpCode == last.status && !IsSuccessStatus(last.status))
    decreases if retries > 0 then retries else 0
  {
    if Decide(transport(attempt), retries).RetryAfterDelay? {
      ChainResultOrigin(transport, attempt + 1, retries - 1);
    }
  }

  /** `HTTPClient`: its options and the header table set through SetHeader. */
  class HTTPClient {
    var options: HTTPOptions
    var headers: map<string, string>

    /** `NewHTTPClient`: the given options and an empty header table. */
    constructor (options: HTTPOptions)
      ensures this.options == options && headers == map[]
    {
      this.options := options;
      headers := map[];
    }

    /** `SetHeader`: the table maps `key` to `value`; every other entry and
        the options are unchanged. */
    method SetHeader(key: string, value: string)
      modifies this
      ensures headers == old(headers)[key := value]
      ensures options == old(options)
    {
      headers := headers[key := value];
    }

    /** `RemoveHeader`: `key` leaves the table; every other entry and the
        options are unchanged. */
    method RemoveHeader(key: string)
      modifies this
      ensures headers == old(headers) - {key}
      ensures options == old(options)
    {
      headers := headers - {key};
    }

    /** `SetBaseURL`: only the base URL changes. */
    method SetBaseURL(baseURL: string)
      modifies this
      ensures options == old(options).(baseURL := baseURL)
      ensures headers == old(headers)
    {
      options := options.(baseURL := baseURL);
    }

    /** `request(verb, endpoint, data, retries)`: the URL is the base URL
        followed by the endpoint, with no separator added; the headers are
        set as RequestHeaders says, visiting the header table in
        `tableOrder` and the option headers in `optionOrder`; the attempts
        run as RequestChain says, with one delay of RetryDelay before each
        retry. */
    method Request(verb: string, endpoint: string, data: Option<string>, retries: int, transport: nat -> Exchange,
                   tableOrder: seq<string>, optionOrder: seq<string>)
      returns (sent: OutgoingRequest, result: HttpResult, attempts: nat, delays: seq<int>)
      requires Enumerates(tableOrder, headers) && Enumerates(optionOrder, options.headers)
      ensures sent == OutgoingRequest(verb, options.baseURL + endpoint,
        RequestHeaders(headers, tableOrder, options.headers, optionOrder), data)
      ensures Exchanged(result, attempts) == RequestChain(transport, 0, retries)
      ensures |delays| == attempts - 1 && forall i :: 0 <= i < |delays| ==> delays[i] == options.retryDelay
    {
      var requestHeaders := SetCanonical(map[], "Content-Type", "application/json");
      requestHeaders := SetCanonical(requestHeaders, "User-Agent", "AetherQuery-Go-Client/1.0.0");
      requestHeaders := SetAll(requestHeaders, headers, tableOrder);
      requestHeaders := SetAll(requestHeaders, options.headers, optionOrder);
      sent := OutgoingRequest(verb, options.baseURL + endpoint, requestHeaders, data);

      var left := retries;
      attempts := 0;
      delays := [];
      while true
        invariant RequestChain(transport, attempts, left) == RequestChain(transport, 0, retries)
        invariant |delays| == attempts && forall i :: 0 <= i < |delays| ==> delays[i] == options.retryDelay
        decreases if left > 0 then left else 0
      {
        match Decide(transport(attempts), left)
        case Finish(r) =>
          result := r;
          attempts := attempts + 1;
          return;
        case RetryAfterDelay =>
          delays := delays + [options.retryDelay];
          attempts := attempts + 1;
          left := left - 1;
      }
    }

    /** `Post`: a POST carrying `data`, with the configured MaxRetries. */
    method Post(endpoint: string, data: string, transport: nat -> Exchange,
                tableOrder: seq<string>, optionOrder: seq<string>)
      returns (sent: OutgoingRequest, result: HttpResult, attempts: nat, delays: seq<int>)
      requires Enumerates(tableOrder, headers) && Enumerates(optionOrder, options.headers)
      ensures sent == OutgoingRequest("POST", options.baseURL + endpoint,
        RequestHeaders(headers, tableOrder, options.headers, optionOrder), Some(data))
      ensures Exchanged(result, attempts) == RequestChain(transport, 0, options.maxRetries)
      ensures 1 <= attempts <= 1 + (if options.maxRetries > 0 then options.maxRetries else 0)
    {
      sent, result, attempts, delays := Request("POST", endpoint, Some(data), options.maxRetries, transport, tableOrder, optionOrder);
      AttemptsBounded(transport, 0, options.maxRetries);
    }

    /** `Get`: a GET without a body, with the configured MaxRetries. */
    method Get(endpoint: string, transport: nat -> Exchange, tableOrder: seq<string>, optionOrder: seq<string>)
      returns (sent: OutgoingRequest, result: HttpResult, attempts: nat, delays: seq<int>)
      requires Enumerates(tableOrder, headers) && Enumerates(optionOrder, options.headers)
      ensures sent == OutgoingRequest("GET", options.baseURL + endpoint,
        RequestHeaders(headers, tableOrder, options.headers, optionOrder), None)
      ensures Exchanged(result, attempts) == RequestChain(transport, 0, options.maxRetries)
      ensures 1 <= attempts <= 1 + (if options.maxRetries > 0 then options.maxRetries else 0)
    {
      sent, result, attempts, delays := Request("GET", endpoint, None, options.maxRetries, transport, tableOrder, optionOrder);
      AttemptsBounded(transport, 0, options.maxRetries);
    }
  }
}
