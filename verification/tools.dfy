/**
 * The tool layer as the chat handler drives it: a tool name and its
 * arguments go in, one envelope comes out. The handler maps the name to a
 * tool, the tool parses its `content`, builds its statement and runs it,
 * and every exception on the way becomes `{"ok": false, "error": str(exc)}`.
 */
module Tools {
  import opened Values
  import opened Errors
  import opened Sql
  import opened Payload
  import Ddl
  import Dml
  import Catalog

  /** What the database makes of one statement: the rows it returns
      (`RETURNING *` or a SELECT), or the text of the psycopg2 error it
      raises once the transaction has been rolled back. */
  datatype DbReply = Rows(rows: seq<Value>) | Failed(detail: string)

  /** The database, as an oracle from a statement and its parameters to a reply. */
  type Database = Fragment -> DbReply

  /** `cursor.execute(query, params)` followed by `fetchall()`. */
  function Execute(db: Database, stmt: Fragment): (r: Result<seq<Value>>)
    ensures r.Ok? <==> db(stmt).Rows?
    ensures r.Err? ==> r.error == DatabaseError(db(stmt).detail)
  {
    match db(stmt)
    case Rows(rows) => Ok(rows)
    case Failed(detail) => Err(DatabaseError(detail))
  }

  /** The seven tools the model may call. */
  datatype Tool =
    | CreateTable
    | DropTable
    | InsertEntry
    | ReadEntry
    | DeleteEntry
    | UpdateEntry
    | ListTables

  /** The name each tool is declared under. */
  function Name(t: Tool): string {
    match t
    case CreateTable => "create_sql_table"
    case DropTable => "drop_sql_table"
    case InsertEntry => "insert_sql_entry"
    case ReadEntry => "read_sql_entry"
    case DeleteEntry => "delete_sql_entry"
    case UpdateEntry => "update_sql_entry"
    case ListTables => "list_tables"
  }

  /** The `if/elif` chain on the name: exact comparison, no case folding. */
  function ToolOf(name: string): (r: Option<Tool>)
    ensures r.Some? ==> Name(r.value) == name
  {
    if name == "create_sql_table" then Some(CreateTable)
    else if name == "drop_sql_table" then Some(DropTable)
    else if name == "insert_sql_entry" then Some(InsertEntry)
    else if name == "read_sql_entry" then Some(ReadEntry)
    else if name == "delete_sql_entry" then Some(DeleteEntry)
    else if name == "update_sql_entry" then Some(UpdateEntry)
    else if name == "list_tables" then Some(ListTables)
    else None
  }

  /** A name selects a tool exactly when it is that tool's declared name. */
  lemma ToolOfName(name: string, t: Tool)
    ensures ToolOf(name) == Some(t) <==> name == Name(t)
  {
    if name == Name(t) {
      match t
      case CreateTable =>
      case DropTable =>
        assert name != "create_sql_table";
      case InsertEntry =>
        assert name != "create_sql_table" && name != "drop_sql_table";
      case ReadEntry =>
        assert name != "create_sql_table" && name != "drop_sql_table" && name != "insert_sql_entry";
      case DeleteEntry =>
        assert name != "create_sql_table" && name != "drop_sql_table" && name != "insert_sql_entry"
            && name != "read_sql_entry";
      case UpdateEntry =>
        assert name != "create_sql_table" && name != "drop_sql_table" && name != "insert_sql_entry"
            && name != "read_sql_entry" && name != "delete_sql_entry";
      case ListTables =>
        assert name != "create_sql_table" && name != "drop_sql_table" && name != "insert_sql_entry"
            && name != "read_sql_entry" && name != "delete_sql_entry" && name != "update_sql_entry";
    }
  }

  /** `_parse(content)` followed by the tool's builder: the statement the tool
      would hand to `cursor.execute`, before anything reaches the database. */
  function Statement(t: Tool, content: Value, py: Builtins): (r: Result<Fragment>)
    // Nothing but admitted tokens reaches the database, with one
    // parameter per placeholder.
    ensures r.Ok? ==> Parameterised(r.value)
    // `_parse` runs first: its refusal is the tool's refusal.
    ensures Parse(content, py).Err? ==> r == Err(Parse(content, py).error)
  {
    var data :- Parse(content, py);
    match t
    case CreateTable =>
      var ddl :- Ddl.CreateStatement(data);
      Ok(ddl.statement)
    case DropTable =>
      var ddl :- Ddl.DropStatement(data);
      Ok(ddl.statement)
    case InsertEntry => Dml.InsertStatement(data)
    case ReadEntry => Dml.ReadStatement(data)
    case DeleteEntry => Dml.DeleteStatement(data)
    case UpdateEntry => Dml.UpdateStatement(data)
    case ListTables => Catalog.ListStatement(data, py)
  }

  /** The message and data a tool hands back to the dispatcher. */
  datatype Reply = Reply(message: string, data: Option<Value>)

  /** `{count_key: len(rows), rows_key: rows}`. */
  function Counted(countKey: string, rowsKey: string, rows: seq<Value>): Value {
    Dict([(countKey, Int(|rows|)), (rowsKey, List(rows))])
  }

  /** The fixed text each branch of the dispatcher puts in `message`
      (before the tool's own message, for the DDL tools; a drop reports
      its own message alone). */
  function Headline(t: Tool): string {
    match t
    case CreateTable => "Tablo oluşturma sonucu: "
    case DropTable => ""
    case InsertEntry => "Oluşturuldu"
    case ReadEntry => "Bilgiler"
    case DeleteEntry => "Silindi"
    case UpdateEntry => "Güncellendi"
    case ListTables => "Tablolar"
  }

  /** The keys of the dict a row-returning tool gives back. */
  function CountKey(t: Tool): string {
    match t
    case InsertEntry => "inserted"
    case DeleteEntry => "deleted"
    case UpdateEntry => "updated"
    case _ => "count"
  }

  function RowsKey(t: Tool): string {
    if t == ListTables then "tables" else "rows"
  }

  predicate ReturnsRows(t: Tool) {
    !(t == CreateTable || t == DropTable)
  }

  /** The tool function and the branch of the dispatcher that called it:
      parse, build, execute, then shape the reply. */
  function Run(t: Tool, content: Value, py: Builtins, db: Database): (r: Result<Reply>)
    // A statement that cannot be built is never executed: its error is the result.
    ensures Statement(t, content, py).Err? ==> r == Err(Statement(t, content, py).error)
    // A built statement is executed as built, and its reply decides the outcome.
    ensures Statement(t, content, py).Ok? ==>
              (r.Ok? <==> db(Statement(t, content, py).value).Rows?)
    ensures Statement(t, content, py).Ok? && r.Err? ==>
              r.error == DatabaseError(db(Statement(t, content, py).value).detail)
    // The row-returning tools report how many rows came back, and the rows.
    ensures r.Ok? && ReturnsRows(t) ==>
              r.value == Reply(Headline(t), Some(Counted(CountKey(t), RowsKey(t), db(Statement(t, content, py).value).rows)))
    ensures r.Ok? ==> Parse(content, py).Ok?
  {
    var data :- Parse(content, py);
    match t
    case CreateTable =>
      var ddl :- Ddl.CreateStatement(data);
      var rows :- Execute(db, ddl.statement);
      Ok(Reply(Headline(t) + ddl.message, None))
    case DropTable =>
      var ddl :- Ddl.DropStatement(data);
      var rows :- Execute(db, ddl.statement);
      Ok(Reply(Headline(t) + ddl.message, None))
    case _ =>
      var stmt :- Statement(t, content, py);
      var rows :- Execute(db, stmt);
      Ok(Reply(Headline(t), Some(Counted(CountKey(t), RowsKey(t), rows))))
  }

  /** A successful `create_sql_table` returns the headline and its own
      message, and no data. */
  lemma CreateRun(content: Value, py: Builtins, db: Database)
    requires Run(CreateTable, content, py, db).Ok?
    ensures Parse(content, py).Ok? && Ddl.CreateStatement(Parse(content, py).value).Ok?
    ensures Run(CreateTable, content, py, db).value
         == Reply(Headline(CreateTable) + Ddl.CreateStatement(Parse(content, py).value).value.message, None)
  {
    var data := Parse(content, py).value;
    assert Ddl.CreateStatement(data).Ok?;
  }

  /** A successful `drop_sql_table` returns its own message alone, and no data. */
  lemma DropRun(content: Value, py: Builtins, db: Database)
    requires Run(DropTable, content, py, db).Ok?
    ensures Parse(content, py).Ok? && Ddl.DropStatement(Parse(content, py).value).Ok?
    ensures Run(DropTable, content, py, db).value == Reply(Ddl.DropStatement(Parse(content, py).value).value.message, None)
  {
    var data := Parse(content, py).value;
    assert Ddl.DropStatement(data).Ok?;
  }

  /** The envelope sent back to the model as the function response. */
  datatype Envelope = Success(message: string, data: Option<Value>) | Failure(error: string) {
    function AsValue(): (v: Value)
      ensures v.Dict? && Lookup(v.entries, "ok") == Some(Bool(Success?))
      ensures Success? ==> Lookup(v.entries, "message") == Some(Str(message))
      ensures Failure? ==> Lookup(v.entries, "error") == Some(Str(error))
      // `data` is sent exactly when the reply carries data.
      ensures Lookup(v.entries, "data").Some? <==> Success? && data.Some?
      ensures Success? && data.Some? ==> Lookup(v.entries, "data") == Some(data.value)
    {
      match this
      case Success(m, None) => Dict([("ok", Bool(true)), ("message", Str(m))])
      case Success(m, Some(d)) =>
        var es := [("ok", Bool(true)), ("message", Str(m)), ("data", d)];
        assert es[2].0 == "data";
        Dict(es)
      case Failure(e) => Dict([("ok", Bool(false)), ("error", Str(e))])
    }
  }

  /** `args.get("content")`. */
  function Content(args: seq<(string, Value)>): Value {
    match Lookup(args, "content")
    case Some(v) => v
    case None => Null
  }

  /** The `try` block around the name dispatch: every outcome is an envelope. */
  function Dispatch(name: string, args: seq<(string, Value)>, py: Builtins, db: Database): (r: Envelope)
    // `ok` is true exactly when the name is known, its statement could be
    // built, and the database ran it.
    ensures r.Success? <==>
              ToolOf(name).Some? && Statement(ToolOf(name).value, Content(args), py).Ok?
              && db(Statement(ToolOf(name).value, Content(args), py).value).Rows?
    // An unknown name is reported by name and reaches no tool.
    ensures ToolOf(name).None? ==> r == Failure("Bilinmeyen tool: " + name)
    // A known name runs its tool; an exception becomes its `str()`.
    ensures ToolOf(name).Some? && Run(ToolOf(name).value, Content(args), py, db).Err? ==>
              r == Failure(Message(Run(ToolOf(name).value, Content(args), py, db).error, py))
    ensures ToolOf(name).Some? && Run(ToolOf(name).value, Content(args), py, db).Ok? ==>
              r == Success(Run(ToolOf(name).value, Content(args), py, db).value.message,
                           Run(ToolOf(name).value, Content(args), py, db).value.data)
    // A statement the database refuses is reported with the driver's own text.
    ensures ToolOf(name).Some? && Statement(ToolOf(name).value, Content(args), py).Ok?
            && db(Statement(ToolOf(name).value, Content(args), py).value).Failed? ==>
              r == Failure(db(Statement(ToolOf(name).value, Content(args), py).value).detail)
  {
    match ToolOf(name)
    case None => Failure("Bilinmeyen tool: " + name)
    case Some(t) =>
      match Run(t, Content(args), py, db)
      case Ok(reply) => Success(reply.message, reply.data)
      case Err(e) => Failure(Message(e, py))
  }

  /** A refused request never reaches the database: whatever the database
      would have done, the envelope is the builder's error. */
  lemma {:induction false} RefusedBeforeExecution(t: Tool, args: seq<(string, Value)>, py: Builtins, db1: Database, db2: Database)
    requires Statement(t, Content(args), py).Err?
    ensures Dispatch(Name(t), args, py, db1) == Dispatch(Name(t), args, py, db2)
                                                == Failure(Message(Statement(t, Content(args), py).error, py))
  {
    ToolOfName(Name(t), t);
    var e := Statement(t, Content(args), py).error;
    assert Run(t, Content(args), py, db1) == Err(e);
    assert Run(t, Content(args), py, db2) == Err(e);
  }

  /** The database sees one statement only: two databases that answer it
      alike give the same envelope. */
  lemma {:induction false} OnlyTheStatementIsExecuted(t: Tool, args: seq<(string, Value)>, py: Builtins, db1: Database, db2: Database)
    requires Statement(t, Content(args), py).Ok?
    requires db1(Statement(t, Content(args), py).value) == db2(Statement(t, Content(args), py).value)
    ensures Dispatch(Name(t), args, py, db1) == Dispatch(Name(t), args, py, db2)
  {
    ToolOfName(Name(t), t);
    var content := Content(args);
    assert Run(t, content, py, db1) == Run(t, content, py, db2) by {
      var data := Parse(content, py).value;
      match t
      case CreateTable =>
        assert Ddl.CreateStatement(data).value.statement == Statement(t, content, py).value;
      case DropTable =>
        assert Ddl.DropStatement(data).value.statement == Statement(t, content, py).value;
      case _ =>
    }
  }

  /** A call without `content` is refused by `_parse`, whatever the tool. */
  lemma {:induction false} MissingContent(t: Tool, py: Builtins, db: Database)
    ensures Dispatch(Name(t), [], py, db) == Failure("content boş. JSON string bekleniyor.")
  {
    ToolOfName(Name(t), t);
    assert Content([]) == Null;
    assert Parse(Null, py) == Err(EmptyContent);
    assert Statement(t, Null, py) == Err(EmptyContent);
    assert Run(t, Null, py, db) == Err(EmptyContent);
  }

  /** A created table is reported by the name it was given. */
  lemma {:induction false} CreateReport(args: seq<(string, Value)>, py: Builtins, db: Database, table: string)
    requires Parse(Content(args), py).Ok?
    requires Index(Parse(Content(args), py).value, "table") == Ok(Str(table))
    requires Dispatch("create_sql_table", args, py, db).Success?
    ensures Dispatch("create_sql_table", args, py, db)
         == Success("Tablo oluşturma sonucu: " + table + " tablosu oluşturuldu (ya da zaten vardı).", None)
  {
    ToolOfName("create_sql_table", CreateTable);
    assert Run(CreateTable, Content(args), py, db).Ok?;
    CreateReply(Content(args), py, db, table);
  }

  /** The reply of a successful `create_sql_table`. */
  lemma CreateReply(content: Value, py: Builtins, db: Database, table: string)
    requires Parse(content, py).Ok?
    requires Index(Parse(content, py).value, "table") == Ok(Str(table))
    requires Run(CreateTable, content, py, db).Ok?
    ensures Run(CreateTable, content, py, db).value
         == Reply("Tablo oluşturma sonucu: " + table + " tablosu oluşturuldu (ya da zaten vardı).", None)
  {
    CreateRun(content, py, db);
    var ddl := Ddl.CreateStatement(Parse(content, py).value).value;
    assert ddl.message == table + " tablosu oluşturuldu (ya da zaten vardı).";
  }

  /** A drop is reported as done only when IF EXISTS guarded it. */
  lemma {:induction false} DropReport(args: seq<(string, Value)>, py: Builtins, db: Database, table: string, ifExists: Value)
    requires Parse(Content(args), py).Ok?
    requires Index(Parse(Content(args), py).value, "table") == Ok(Str(table))
    requires Get(Parse(Content(args), py).value, "if_exists", Bool(true)) == Ok(ifExists)
    requires Dispatch("drop_sql_table", args, py, db).Success?
    ensures Dispatch("drop_sql_table", args, py, db)
         == Success(table + (if Truthy(ifExists) then " tablosu silindi." else " tablosu drop komutu uygulandı."), None)
  {
    ToolOfName("drop_sql_table", DropTable);
    var run := Run(DropTable, Content(args), py, db);
    assert run.Ok?;
    DropRun(Content(args), py, db);
  }
}
