/** The Rust command-line client's driver (`rust_client/src/main.rs`): the
    SQL built by `list_tables` and `describe_table`, batch files split into
    statements and run with or without stopping at the first error, and the
    interactive shell's meta-command dispatch. The server is an oracle from
    SQL text to a reply. */
module RustShell {
  import opened Text
  import opened RustOutput

  /** What `client.execute_query` (or `check_health`) gives back. */
  datatype Reply = Ok(text: string) | Err(message: string)

  datatype Option<T> = None | Some(value: T)

  const ShowTablesLike := "SHOW TABLES LIKE '"

  /** `list_tables`: the pattern, when there is one, is put between single
      quotes verbatim, without escaping. */
  function ListTablesQuery(pattern: Option<string>): (sql: string)
    ensures pattern.None? ==> sql == "SHOW TABLES"
    ensures pattern.Some? ==>
      |sql| == |ShowTablesLike| + |pattern.value| + 1
      && StartsWith(sql, ShowTablesLike) && sql[|sql| - 1] == '\''
      && sql[|ShowTablesLike|..|sql| - 1] == pattern.value
  {
    match pattern
    case None => "SHOW TABLES"
    case Some(p) => ShowTablesLike + p + "'"
  }

  /** `describe_table`. */
  function DescribeQuery(table: string): (sql: string)
    ensures StartsWith(sql, "DESCRIBE ") && sql[|"DESCRIBE "|..] == table
  {
    "DESCRIBE " + table
  }

  /** The `;`-separated segments whose trim is not empty, untrimmed. */
  function NonBlank(segments: seq<string>): (r: seq<string>)
    ensures |r| <= |segments|
    ensures forall k :: 0 <= k < |r| ==> r[k] in segments && Trim(r[k]) != []
  {
    if segments == [] then []
    else (if Trim(segments[0]) != [] then [segments[0]] else []) + NonBlank(segments[1..])
  }

  /** The queries of a batch file, before trimming. */
  function Segments(content: string): (r: seq<string>)
    ensures forall k :: 0 <= k < |r| ==> ';' !in r[k] && Trim(r[k]) != []
  {
    NonBlank(Split(content, ';'))
  }

  /** Each query trimmed. */
  function TrimAll(queries: seq<string>): (r: seq<string>)
    ensures |r| == |queries| && forall k :: 0 <= k < |queries| ==> r[k] == Trim(queries[k])
  {
    seq(|queries|, k requires 0 <= k < |queries| => Trim(queries[k]))
  }

  /** The statements a batch runs: each non-blank segment, trimmed, in file
      order. */
  function Statements(content: string): seq<string> {
    TrimAll(Segments(content))
  }

  /** No statement is empty, contains ';', or starts or ends with
      whitespace. */
  lemma StatementsAreClean(content: string)
    ensures forall k :: 0 <= k < |Statements(content)| ==>
      var s := Statements(content)[k];
      s != [] && ';' !in s && !IsSpace(s[0]) && !IsSpace(s[|s| - 1])
  {
    var segments := Segments(content);
    forall k | 0 <= k < |segments|
      ensures var s := Trim(segments[k]);
        s != [] && ';' !in s && !IsSpace(s[0]) && !IsSpace(s[|s| - 1])
    {
      TrimIsSlice(segments[k]);
    }
  }

  /** The loop of `execute_batch` over the non-blank segments: each is
      trimmed and sent in order, and every reply is kept. With `stopOnError`
      the first failing statement ends the batch with its error and nothing
      after it is sent; without it every statement is sent and the batch
      succeeds. */
  method RunBatch(queries: seq<string>, stopOnError: bool, execute: string -> Reply)
    returns (sent: seq<string>, replies: seq<Reply>, error: Option<string>)
    ensures |sent| <= |queries| && sent == TrimAll(queries)[..|sent|]
    ensures |replies| == |sent| && forall k :: 0 <= k < |sent| ==> replies[k] == execute(sent[k])
    ensures !stopOnError ==> sent == TrimAll(queries) && error.None?
    ensures stopOnError ==>
      (forall k :: 0 <= k < |sent| - 1 ==> execute(sent[k]).Ok?)
      && (error.None? ==> sent == TrimAll(queries) && forall k :: 0 <= k < |sent| ==> execute(sent[k]).Ok?)
      && (error.Some? ==> sent != [] && execute(sent[|sent| - 1]) == Err(error.value))
  {
    ghost var statements := TrimAll(queries);
    sent, replies, error := [], [], None;
    var i := 0;
    while i < |queries|
      invariant 0 <= i <= |queries|
      invariant sent == statements[..i]
      invariant |replies| == |sent| && forall k :: 0 <= k < |sent| ==> replies[k] == execute(sent[k])
      invariant stopOnError ==> forall k :: 0 <= k < |sent| ==> execute(sent[k]).Ok?
    {
      var query := Trim(queries[i]);
      var reply := execute(query);
      sent := sent + [query];
      replies := replies + [reply];
      assert statements[..i + 1] == statements[..i] + [query];
      if reply.Err? && stopOnError {
        error := Some(reply.message);
        return;
      }
      i := i + 1;
    }
    assert statements[..i] == statements;
  }

  /** `execute_batch` on the text of the file. */
  method ExecuteBatch(content: string, stopOnError: bool, execute: string -> Reply)
    returns (sent: seq<string>, replies: seq<Reply>, error: Option<string>)
    ensures |sent| <= |Statements(content)| && sent == Statements(content)[..|sent|]
    ensures |replies| == |sent| && forall k :: 0 <= k < |sent| ==> replies[k] == execute(sent[k])
    ensures !stopOnError ==> sent == Statements(content) && error.None?
    ensures stopOnError ==>
      (forall k :: 0 <= k < |sent| - 1 ==> execute(sent[k]).Ok?)
      && (error.None? ==> sent == Statements(content) && forall k :: 0 <= k < |sent| ==> execute(sent[k]).Ok?)
      && (error.Some? ==> sent != [] && execute(sent[|sent| - 1]) == Err(error.value))
  {
    var queries := Segments(content);
    sent, replies, error := RunBatch(queries, stopOnError, execute);
  }

  /** The trimmed shell input, as the dispatch `match` sees it. */
  datatype Command =
    | HelpThenSql
    | Quit
    | ShowTables
    | Status
    | Describe(table: string)
    | ChangeFormat(name: string)
    | Blank
    | Sql

  /** The dispatch of `interactive_shell` on a trimmed line. `\d ` and `\f `
      take the trimmed remainder after their three leading characters. */
  function Parse(line: string): (c: Command)
    ensures c.Describe? ==> StartsWith(line, "\\d ") && c.table == Trim(line[3..])
    ensures c.ChangeFormat? ==> StartsWith(line, "\\f ") && c.name == Trim(line[3..])
    ensures c == Blank <==> line == []
    ensures c == Sql ==> line != [] && !StartsWith(line, "\\d ") && !StartsWith(line, "\\f ")
  {
    if line == "\\?" || line == "\\h" then HelpThenSql
    else if line == "\\q" || line == "\\quit" then Quit
    else if line == "\\t" then ShowTables
    else if line == "\\s" then Status
    else if StartsWith(line, "\\d ") then Describe(Trim(line[3..]))
    else if StartsWith(line, "\\f ") then ChangeFormat(Trim(line[3..]))
    else if line == [] then Blank
    else Sql
  }

  /** The format a `\f` name selects, compared in lower case. */
  function FormatNamed(name: string): Option<OutputFormat> {
    var lower := ToLower(name);
    if lower == "table" then Some(Table)
    else if lower == "json" then Some(Json)
    else if lower == "csv" then Some(Csv)
    else if lower == "markdown" then Some(Markdown)
    else if lower == "raw" then Some(Raw)
    else None
  }

  /** What the shell shows. `Shown` is a reply rendered in a format, by
      `RustOutput.DisplayResults`. */
  datatype Event =
    | HelpShown
    | Shown(text: string, format: OutputFormat)
    | Failed(message: string)
    | UnknownFormat
    | FormatIs(format: OutputFormat)
    | Goodbye

  /** The shell's state: the current format, the readline history, what has
      been shown, and every SQL text sent to the server. */
  datatype Session = Session(format: OutputFormat, history: seq<string>, log: seq<Event>, sent: seq<string>)

  /** What a locally handled command's result adds to the log: the reply in
      the formatter's own format, or nothing, since these errors are
      dropped. */
  function Quiet(r: Reply, base: OutputFormat): seq<Event> {
    if r.Ok? then [Shown(r.text, base)] else []
  }

  /** The shell's state after a line, and whether it stops there. */
  datatype Stepped = Stepped(session: Session, quit: bool)

  /** A parsed line's effect. `\t`, `\s`, `\d` and `\f` are handled
      locally and show their results in the formatter's format; `\?` and
      `\h` show help and then go on to run the line as SQL, like any other
      non-blank line, whose result is shown in the current format. */
  function Apply(s: Session, line: string, command: Command, base: OutputFormat,
                 execute: string -> Reply, health: Reply): (r: Stepped)
    ensures r.quit <==> command == Quit
    ensures command !in {HelpThenSql, Sql} ==> r.session.history == s.history
    ensures command in {HelpThenSql, Sql} ==>
      r.session.history == s.history + [line] && r.session.sent == s.sent + [line]
  {
    match command
    case Quit => Stepped(s, true)
    case ShowTables =>
      var sql := ListTablesQuery(None);
      Stepped(s.(log := s.log + Quiet(execute(sql), base), sent := s.sent + [sql]), false)
    case Status => Stepped(s.(log := s.log + Quiet(health, base)), false)
    case Describe(table) =>
      var sql := DescribeQuery(table);
      Stepped(s.(log := s.log + Quiet(execute(sql), base), sent := s.sent + [sql]), false)
    case ChangeFormat(name) =>
      (match FormatNamed(name)
       case Some(f) => Stepped(s.(format := f, log := s.log + [FormatIs(f)]), false)
       case None => Stepped(s.(log := s.log + [UnknownFormat, FormatIs(s.format)]), false))
    case Blank => Stepped(s, false)
    case _ =>
      var help := if command == HelpThenSql then [HelpShown] else [];
      var shown := match execute(line)
        case Ok(text) => Shown(text, s.format)
        case Err(e) => Failed("Error: " + e);
      Stepped(Session(s.format, s.history + [line], s.log + help + [shown], s.sent + [line]), false)
  }

  /** One input line, trimmed and parsed. */
  function Step(s: Session, raw: string, base: OutputFormat, execute: string -> Reply, health: Reply): Stepped {
    Apply(s, Trim(raw), Parse(Trim(raw)), base, execute, health)
  }

  /** The shell over the lines read until input ends or a quit command. */
  function Run(lines: seq<string>, s: Session, base: OutputFormat, execute: string -> Reply, health: Reply): Session
    decreases |lines|
  {
    if lines == [] then s.(log := s.log + [Goodbye])
    else
      var r := Step(s, lines[0], base, execute, health);
      if r.quit then r.session.(log := r.session.log + [Goodbye])
      else Run(lines[1..], r.session, base, execute, health)
  }

  /** The shell's first line: a quit ends it as it stands, any other line
      takes effect before the rest is read. */
  lemma RunFirstLine(lines: seq<string>, s: Session, base: OutputFormat, execute: string -> Reply, health: Reply)
    requires lines != []
    ensures var line := Trim(lines[0]);
      var r := Apply(s, line, Parse(line), base, execute, health);
      && (Parse(line) == Quit ==> Run(lines, s, base, execute, health) == s.(log := s.log + [Goodbye]))
      && (Parse(line) != Quit ==> Run(lines, s, base, execute, health) == Run(lines[1..], r.session, base, execute, health))
  {
  }

  /** The body of the shell loop for one trimmed, parsed line. */
  method HandleLine(line: string, command: Command, base: OutputFormat, execute: string -> Reply, health: Reply,
                    currentFormat: OutputFormat, history: seq<string>, log: seq<Event>, sent: seq<string>)
    returns (format': OutputFormat, history': seq<string>, log': seq<Event>, sent': seq<string>)
    requires command != Quit
    ensures Apply(Session(currentFormat, history, log, sent), line, command, base, execute, health)
      == Stepped(Session(format', history', log', sent'), false)
  {
    format', history', log', sent' := currentFormat, history, log, sent;
    if command == ShowTables {
      var sql := ListTablesQuery(None);
      sent' := sent' + [sql];
      log' := log' + Quiet(execute(sql), base);
    } else if command == Status {
      log' := log' + Quiet(health, base);
    } else if command.Describe? {
      var sql := DescribeQuery(command.table);
      sent' := sent' + [sql];
      log' := log' + Quiet(execute(sql), base);
    } else if command.ChangeFormat? {
      var chosen := FormatNamed(command.name);
      if chosen.Some? {
        format' := chosen.value;
      } else {
        log' := log' + [UnknownFormat];
      }
      log' := log' + [FormatIs(format')];
    } else if command != Blank {
      if command == HelpThenSql {
        log' := log' + [HelpShown];
      }
      history' := history' + [line];
      sent' := sent' + [line];
      var reply := execute(line);
      if reply.Ok? {
        log' := log' + [Shown(reply.text, format')];
      } else {
        log' := log' + [Failed("Error: " + reply.message)];
      }
    }
  }

  /** `interactive_shell`, reading `input` line by line and updating the
      current format and the history as it goes, until the input ends or a
      quit command. */
  method InteractiveShell(input: seq<string>, base: OutputFormat, execute: string -> Reply, health: Reply)
    returns (session: Session)
    ensures session == Run(input, Session(base, [], [], []), base, execute, health)
  {
    var currentFormat := base;
    var history: seq<string> := [];
    var log: seq<Event> := [];
    var sent: seq<string> := [];
    var i := 0;
    while i < |input|
      invariant 0 <= i <= |input|
      invariant Run(input, Session(base, [], [], []), base, execute, health)
        == Run(input[i..], Session(currentFormat, history, log, sent), base, execute, health)
    {
      ghost var before := Session(currentFormat, history, log, sent);
      var line := Trim(input[i]);
      var command := Parse(line);
      RunFirstLine(input[i..], before, base, execute, health);
      assert input[i..][0] == input[i] && input[i..][1..] == input[i + 1..];
      if command == Quit {
        break;
      }
      currentFormat, history, log, sent :=
        HandleLine(line, command, base, execute, health, currentFormat, history, log, sent);
      i := i + 1;
    }
    session := Session(currentFormat, history, log + [Goodbye], sent);
  }

  /** Locally handled commands never reach the history, and the line itself
      is never sent as SQL: `\t` sends "SHOW TABLES", `\d` sends
      "DESCRIBE <table>", the others send nothing. */
  lemma LocalCommandsAreNotSql(s: Session, raw: string, base: OutputFormat, execute: string -> Reply, health: Reply)
    requires Parse(Trim(raw)) in {ShowTables, Status, Quit, Blank} || Parse(Trim(raw)).Describe? || Parse(Trim(raw)).ChangeFormat?
    ensures var next := Step(s, raw, base, execute, health).session;
      && next.history == s.history
      && (next.sent == s.sent
          || (Parse(Trim(raw)) == ShowTables && next.sent == s.sent + ["SHOW TABLES"])
          || (Parse(Trim(raw)).Describe? && next.sent == s.sent + ["DESCRIBE " + Parse(Trim(raw)).table]))
      && (Parse(Trim(raw)) != ShowTables && !Parse(Trim(raw)).Describe? ==> next.sent == s.sent)
  {
  }

  /** `\?` and `\h` show the help and then run the line itself as SQL. */
  lemma HelpFallsThrough(s: Session, raw: string, base: OutputFormat, execute: string -> Reply, health: Reply)
    requires Trim(raw) in {"\\?", "\\h"}
    ensures var r := Step(s, raw, base, execute, health);
      var next := r.session;
      && !r.quit
      && next.history == s.history + [Trim(raw)]
      && next.sent == s.sent + [Trim(raw)]
      && next.log[|s.log|] == HelpShown && |next.log| == |s.log| + 2
  {
  }

  /** An unknown format name keeps the current format but still reports it
      as the format changed to. */
  lemma UnknownFormatKeepsFormat(s: Session, raw: string, base: OutputFormat, execute: string -> Reply, health: Reply)
    requires Parse(Trim(raw)).ChangeFormat? && FormatNamed(Parse(Trim(raw)).name).None?
    ensures var next := Step(s, raw, base, execute, health).session;
      next.format == s.format && next.log == s.log + [UnknownFormat, FormatIs(s.format)]
  {
  }

  /** Lines after a quit command have no effect. */
  lemma {:induction false} QuitIgnoresRest(lines: seq<string>, rest: seq<string>, s: Session,
                                            base: OutputFormat, execute: string -> Reply, health: Reply)
    requires exists k :: 0 <= k < |lines| && Parse(Trim(lines[k])) == Quit
    ensures Run(lines + rest, s, base, execute, health) == Run(lines, s, base, execute, health)
    decreases |lines|
  {
    var all := lines + rest;
    assert all[0] == lines[0];
    assert all[1..] == lines[1..] + rest;
    var r := Step(s, lines[0], base, execute, health);
    assert Run(all, s, base, execute, health) ==
      if r.quit then r.session.(log := r.session.log + [Goodbye])
      else Run(all[1..], r.session, base, execute, health);
    assert Run(lines, s, base, execute, health) ==
      if r.quit then r.session.(log := r.session.log + [Goodbye])
      else Run(lines[1..], r.session, base, execute, health);
    if !r.quit {
      var k :| 0 <= k < |lines| && Parse(Trim(lines[k])) == Quit;
      assert k != 0;
      assert lines[1..][k - 1] == lines[k];
      QuitIgnoresRest(lines[1..], rest, r.session, base, execute, health);
    }
  }

  /** Blank lines change nothing and are not added to the history. */
  lemma BlankLinesSkipped(s: Session, raw: string, base: OutputFormat, execute: string -> Reply, health: Reply)
    requires forall k :: 0 <= k < |raw| ==> IsSpace(raw[k])
    ensures Step(s, raw, base, execute, health) == Stepped(s, false)
  {
    TrimEmptyIffBlank(raw);
  }
}
