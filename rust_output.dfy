/** The Rust command-line client's `OutputFormatter` (`rust_client/src/output.rs`):
    the message helpers and the five result renderers. Each renderer is a
    function from the server's text to the lines it prints, one element per
    `println!`. The JSON codec is an oracle. */
module RustOutput {
  import opened Dynamic
  import opened Text

  datatype OutputFormat = Table | Json | Csv | Markdown | Raw

  /** The formatter's settings. */
  datatype Formatter = Formatter(format: OutputFormat, verbose: bool)

  /** The JSON parts the renderers lean on: parsing, compact and pretty
      rendering, and rendering at a minimum width (`{:width}`). */
  datatype Codec = Codec(
    parse: string -> Option<Value>,
    compact: Value -> string,
    pretty: Value -> string,
    padded: (Value, nat) -> string)

  /** `success`: printed only in verbose mode. */
  function Success(f: Formatter, message: string): (lines: seq<string>)
    ensures |lines| == (if f.verbose then 1 else 0)
    ensures f.verbose ==> lines[0] == "✅ " + message
  {
    if f.verbose then ["✅ " + message] else []
  }

  /** `error`: always printed, on standard error. */
  function ErrorMessage(message: string): (lines: seq<string>)
    ensures |lines| == 1 && lines[0] == "❌ " + message
  {
    ["❌ " + message]
  }

  /** `info`: always printed. */
  function Info(message: string): (lines: seq<string>)
    ensures |lines| == 1 && lines[0] == "ℹ️ " + message
  {
    ["ℹ️ " + message]
  }

  const TopBorder := "┌──────────────────────────────────────┐"
  const BottomBorder := "└──────────────────────────────────────┘"

  /** `print_json_as_table`: one line per object entry or array element
      between the two borders; any other JSON value is pretty-printed. */
  function TableLines(json: Value, codec: Codec): (lines: seq<string>)
    ensures json.Obj? ==> |lines| == |json.fields| + 2
    ensures json.Arr? ==> |lines| == |json.items| + 2
    ensures json.Obj? || json.Arr? ==> lines[0] == TopBorder && lines[|lines| - 1] == BottomBorder
    ensures json.Obj? ==> forall i :: 0 <= i < |json.fields| ==>
      StartsWith(lines[i + 1], "│ " + PadRight(json.fields[i].0, 30) + " : ")
    ensures !(json.Obj? || json.Arr?) ==> lines == [codec.pretty(json)]
  {
    match json
    case Obj(fields) =>
      [TopBorder]
      + seq(|fields|, i requires 0 <= i < |fields| =>
          "│ " + PadRight(fields[i].0, 30) + " : " + codec.padded(fields[i].1, 20) + " │")
      + [BottomBorder]
    case Arr(items) =>
      [TopBorder]
      + seq(|items|, i requires 0 <= i < |items| =>
          "│ [" + PadLeft(NatToString(i), 3) + "] : " + codec.padded(items[i], 30) + " │")
      + [BottomBorder]
    case _ => [codec.pretty(json)]
  }

  /** The compact renderings of an object's values, in key order. */
  function CompactValues(fields: seq<(string, Value)>, codec: Codec): (r: seq<string>)
    ensures |r| == |fields|
    ensures forall i :: 0 <= i < |fields| ==> r[i] == codec.compact(fields[i].1)
  {
    seq(|fields|, i requires 0 <= i < |fields| => codec.compact(fields[i].1))
  }

  /** `print_json_as_csv`: an object becomes a header line of its keys and a
      line of its values in the same order, unquoted; anything else is
      quoted as-is, without doubling inner quotes. */
  function CsvLines(json: Value, codec: Codec): (lines: seq<string>)
  {
    match json
    case Obj(fields) => [Join(Keys(fields), ","), Join(CompactValues(fields, codec), ",")]
    case _ => ["Result\n\"" + codec.compact(json) + "\""]
  }

  /** A Markdown separator row's cells. */
  function Separators(n: nat): (r: seq<string>)
    ensures |r| == n && forall i :: 0 <= i < n ==> r[i] == "---"
  {
    seq(n, _ => "---")
  }

  /** `print_json_as_markdown`: header, separator and value rows for an
      object; anything else fenced as a code block. */
  function MarkdownLines(json: Value, codec: Codec): (lines: seq<string>)
  {
    match json
    case Obj(fields) =>
      ["| " + Join(Keys(fields), " | ") + " |",
       "|" + Join(Separators(|fields|), "|") + "|",
       "| " + Join(CompactValues(fields, codec), " | ") + " |"]
    case _ => ["```\n" + codec.compact(json) + "\n```"]
  }

  /** RFC 4180 quoting of a field's text: every double quote doubled. */
  function DoubleQuotes(s: string): string {
    ReplaceChar(s, '"', "\"\"")
  }

  /** Reading a quoted CSV field back: each doubled quote becomes one. */
  function UndoubleQuotes(s: string): string
    decreases |s|
  {
    if |s| >= 2 && s[0] == '"' && s[1] == '"' then "\"" + UndoubleQuotes(s[2..])
    else if s == [] then []
    else [s[0]] + UndoubleQuotes(s[1..])
  }

  /** Doubling quotes loses nothing: reading the field back gives the text. */
  lemma {:induction false} UndoubleDouble(s: string)
    ensures UndoubleQuotes(DoubleQuotes(s)) == s
    decreases |s|
  {
    if s != [] {
      UndoubleDouble(s[1..]);
      var rest := DoubleQuotes(s[1..]);
      if s[0] == '"' {
        assert DoubleQuotes(s) == "\"\"" + rest;
        assert (("\"\"" + rest)[2..]) == rest;
      } else {
        assert DoubleQuotes(s) == [s[0]] + rest;
        assert ([s[0]] + rest)[1..] == rest;
      }
    }
  }

  /** `display_results`: exactly one renderer per format. Text that is not
      JSON is echoed by Table and Json, fenced by Markdown and quoted with
      doubled quotes by Csv; Raw always echoes. */
  function DisplayResults(format: OutputFormat, results: string, codec: Codec): (lines: seq<string>)
    ensures format == Raw ==> lines == [results]
    ensures codec.parse(results).None? && format in {Table, Json} ==> lines == [results]
    ensures codec.parse(results).None? && format == Markdown ==> lines == ["```\n" + results + "\n```"]
    ensures codec.parse(results).None? && format == Csv ==>
      lines == ["Result\n\"" + DoubleQuotes(results) + "\""]
    ensures codec.parse(results).Some? ==>
      var json := codec.parse(results).value;
      match format
      case Table => lines == TableLines(json, codec)
      case Json => lines == [codec.pretty(json)]
      case Csv => lines == CsvLines(json, codec)
      case Markdown => lines == MarkdownLines(json, codec)
      case Raw => lines == [results]
  {
    match format
    case Table =>
      (match codec.parse(results)
       case Some(json) => TableLines(json, codec)
       case None => [results])
    case Json =>
      (match codec.parse(results)
       case Some(json) => [codec.pretty(json)]
       case None => [results])
    case Csv =>
      (match codec.parse(results)
       case Some(json) => CsvLines(json, codec)
       case None => ["Result\n\"" + DoubleQuotes(results) + "\""])
    case Markdown =>
      (match codec.parse(results)
       case Some(json) => MarkdownLines(json, codec)
       case None => ["```\n" + results + "\n```"])
    case Raw => [results]
  }

  /** The quoted field of the Csv fallback reads back as the server's text. */
  lemma CsvFallbackReadsBack(results: string, codec: Codec)
    requires codec.parse(results).None?
    ensures var line := DisplayResults(Csv, results, codec)[0];
      UndoubleQuotes(line[|"Result\n\""|..|line| - 1]) == results
  {
    var line := DisplayResults(Csv, results, codec)[0];
    assert line[|"Result\n\""|..|line| - 1] == DoubleQuotes(results);
    UndoubleDouble(results);
  }

  /** For a non-empty object in Csv, splitting the header line at commas
      gives back the keys, and the value line the values in the same key
      order, provided none of them contains a comma (nothing is quoted). */
  lemma CsvObjectReadsBack(fields: seq<(string, Value)>, codec: Codec)
    requires |fields| >= 1
    ensures var lines := CsvLines(Obj(fields), codec);
      && ((forall i :: 0 <= i < |fields| ==> ',' !in fields[i].0) ==> Split(lines[0], ',') == Keys(fields))
      && ((forall i :: 0 <= i < |fields| ==> ',' !in codec.compact(fields[i].1)) ==>
            Split(lines[1], ',') == CompactValues(fields, codec))
  {
    var keys := Keys(fields);
    var values := CompactValues(fields, codec);
    if forall i :: 0 <= i < |fields| ==> ',' !in fields[i].0 {
      SplitJoin(keys, ',');
    }
    if forall i :: 0 <= i < |fields| ==> ',' !in codec.compact(fields[i].1) {
      SplitJoin(values, ',');
    }
  }

  /** For a non-empty object in Markdown, the separator row holds exactly one
      "---" cell per key. */
  lemma MarkdownSeparatorCells(fields: seq<(string, Value)>, codec: Codec)
    requires |fields| >= 1
    ensures var row := MarkdownLines(Obj(fields), codec)[1];
      && |row| >= 2 && row[0] == '|' && row[|row| - 1] == '|'
      && Split(row[1..|row| - 1], '|') == Separators(|fields|)
  {
    var cells := Separators(|fields|);
    var row := MarkdownLines(Obj(fields), codec)[1];
    assert row == "|" + Join(cells, "|") + "|";
    assert row[1..|row| - 1] == Join(cells, "|");
    SplitJoin(cells, '|');
  }

  /** `display_help`. */
  const HelpLines: seq<string> := [
    "Available commands:",
    "  \\? or \\h      - Show this help",
    "  \\q or \\quit   - Quit",
    "  \\t            - Show tables",
    "  \\d <table>    - Describe table",
    "  \\s            - Show status",
    "  \\f <format>   - Change output format (table, json, csv, markdown, raw)",
    "  SQL query     - Execute SQL statement"
  ]
}
