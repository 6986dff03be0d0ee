/**
 * `create_sql_table` and `drop_sql_table`: the statement each one composes
 * and the message it returns once the statement has run.
 */
module Ddl {
  import opened Values
  import opened Errors
  import opened Patterns
  import opened Sql
  import opened Validators
  import opened Payload

  /** A DDL statement and the text the tool returns after running it. */
  datatype Ddl = Ddl(statement: Fragment, message: string)

  /** One column definition `name TYPE`. The type is checked against the
      allow-list before the name goes through `_ident`. */
  function ColumnDef(column: (string, Value)): (r: Result<seq<Token>>)
    ensures r.Ok? <==> ColumnType(column.1).Ok? && IdentMatch(column.0)
    ensures ColumnType(column.1).Err? ==> r == Err(InvalidColumnType(column.1))
    ensures ColumnType(column.1).Ok? && !IdentMatch(column.0) ==> r == Err(InvalidName(Str(column.0)))
    ensures r.Ok? ==> r.value == [Ident(column.0), Keyword(KwSpace), TypeFrag(column.1.s)] && Safe(r.value)
  {
    match ColumnType(column.1)
    case Err(e) => Err(e)
    case Ok(kind) =>
      match Identifier(Str(column.0))
      case Err(e) => Err(e)
      case Ok(name) => Ok([name, Keyword(KwSpace), kind])
  }

  /** The loop over `columns.items()`, taken up to the last item of `es`:
      one definition per column, in order, or the first refusal. */
  function ColumnDefs(es: seq<(string, Value)>): (r: Result<seq<seq<Token>>>)
    ensures r.Ok? <==> forall i | 0 <= i < |es| :: ColumnDef(es[i]).Ok?
    ensures r.Ok? ==> |r.value| == |es| && forall i | 0 <= i < |es| :: r.value[i] == ColumnDef(es[i]).value
  {
    if es == [] then Ok([])
    else
      var init := es[..|es| - 1];
      assert forall i | 0 <= i < |init| :: init[i] == es[i];
      match ColumnDefs(init)
      case Err(e) => Err(e)
      case Ok(done) =>
        match ColumnDef(es[|es| - 1])
        case Err(e) => Err(e)
        case Ok(def) => Ok(done + [def])
  }

  /** The first column refused is the error, whatever follows it. */
  lemma {:induction false} FirstBadColumn(es: seq<(string, Value)>, k: nat)
    requires k < |es| && ColumnDef(es[k]).Err?
    requires forall j | 0 <= j < k :: ColumnDef(es[j]).Ok?
    ensures ColumnDefs(es) == Err(ColumnDef(es[k]).error)
  {
    var init := es[..|es| - 1];
    if |es| == k + 1 {
      assert forall j | 0 <= j < |init| :: init[j] == es[j];
      assert ColumnDefs(init).Ok?;
    } else {
      assert init[k] == es[k];
      assert forall j | 0 <= j < k :: init[j] == es[j];
      FirstBadColumn(init, k);
    }
  }

  /** Column definitions are admitted and hold no placeholder. */
  lemma ColumnDefsParameterised(es: seq<(string, Value)>)
    requires ColumnDefs(es).Ok?
    ensures AllSafe(ColumnDefs(es).value) && Holes(Join(ColumnDefs(es).value, [Keyword(KwComma)])) == 0
    ensures Safe(Join(ColumnDefs(es).value, [Keyword(KwComma)]))
  {
    var defs := ColumnDefs(es).value;
    forall i | 0 <= i < |defs| ensures Holes(defs[i]) == 0 {
      NoHoles(defs[i]);
    }
    UniformHoles(defs, 0);
    NoHoles([Keyword(KwComma)]);
    JoinHoles(defs, [Keyword(KwComma)]);
    JoinSafe(defs, [Keyword(KwComma)]);
  }

  /** One more valid column extends the definitions by its own. */
  lemma ColumnDefsSnoc(es: seq<(string, Value)>, i: nat)
    requires i < |es| && ColumnDefs(es[..i]).Ok? && ColumnDef(es[i]).Ok?
    ensures ColumnDefs(es[..i + 1]) == Ok(ColumnDefs(es[..i]).value + [ColumnDef(es[i]).value])
  {
    assert es[..i + 1][..i] == es[..i];
  }

  /** `create_sql_table`'s loop as the source runs it, appending one
      definition per column. */
  method ColumnDefinitions(es: seq<(string, Value)>) returns (r: Result<seq<seq<Token>>>)
    ensures r == ColumnDefs(es)
  {
    var defs: seq<seq<Token>> := [];
    var i := 0;
    while i < |es|
      invariant 0 <= i <= |es|
      invariant ColumnDefs(es[..i]) == Ok(defs)
    {
      var (name, kind) := es[i];
      var frag := ColumnType(kind);
      if frag.Err? {
        assert forall j | 0 <= j < i :: es[..i][j] == es[j];
        FirstBadColumn(es, i);
        return Err(frag.error);
      }
      var col := Identifier(Str(name));
      if col.Err? {
        assert forall j | 0 <= j < i :: es[..i][j] == es[j];
        FirstBadColumn(es, i);
        return Err(col.error);
      }
      ColumnDefsSnoc(es, i);
      defs := defs + [[col.value, Keyword(KwSpace), frag.value]];
      i := i + 1;
    }
    assert es[..i] == es;
    return Ok(defs);
  }

  /** The tokens of `CREATE TABLE [IF NOT EXISTS ]name (def, …)`. */
  function CreateTokens(name: Token, defs: seq<seq<Token>>, ifNotExists: bool): seq<Token> {
    [Keyword(KwCreate)] + (if ifNotExists then [Keyword(KwIfNotExists)] else []) + [name, Keyword(KwOpen)]
    + Join(defs, [Keyword(KwComma)]) + [Keyword(KwClose)]
  }

  /** The statement opens with CREATE TABLE, then IF NOT EXISTS when asked
      for, otherwise the name. */
  lemma CreateTokensHead(name: Token, defs: seq<seq<Token>>, ifNotExists: bool)
    ensures |CreateTokens(name, defs, ifNotExists)| > 2
    ensures CreateTokens(name, defs, ifNotExists)[0] == Keyword(KwCreate)
    ensures CreateTokens(name, defs, ifNotExists)[1] == (if ifNotExists then Keyword(KwIfNotExists) else name)
  {
  }

  /** Admitted definitions under an admitted name make an admitted statement
      without placeholders. */
  lemma CreateParameterised(name: Token, defs: seq<seq<Token>>, ifNotExists: bool)
    requires SafeToken(name) && name.Ident?
    requires Safe(Join(defs, [Keyword(KwComma)])) && Holes(Join(defs, [Keyword(KwComma)])) == 0
    ensures Parameterised(Fragment(CreateTokens(name, defs, ifNotExists), []))
  {
    var head := [Keyword(KwCreate)] + (if ifNotExists then [Keyword(KwIfNotExists)] else []) + [name, Keyword(KwOpen)];
    var body := Join(defs, [Keyword(KwComma)]);
    NoHoles(head);
    NoHoles([Keyword(KwClose)]);
    HolesAppend(head, body);
    HolesAppend(head + body, [Keyword(KwClose)]);
    SafeAppend(head, body);
    SafeAppend(head + body, [Keyword(KwClose)]);
  }

  /** `create_sql_table` from the fields it reads: `table`, `columns` and
      `bool(if_not_exists)`. */
  function CreateFrom(table: Value, columns: Value, ifNotExists: bool): (r: Result<Ddl>)
    // A missing, empty or non-dict column map is refused first.
    ensures !(columns.Dict? && columns.entries != []) ==> r == Err(ColumnsRequired)
    // Then every column, in order: the first refusal is the error.
    ensures columns.Dict? && columns.entries != [] && ColumnDefs(columns.entries).Err? ==>
              r == Err(ColumnDefs(columns.entries).error)
    // The table name is checked last.
    ensures columns.Dict? && columns.entries != [] && ColumnDefs(columns.entries).Ok? ==>
              (r.Ok? <==> table.Str? && IdentMatch(table.s))
    ensures columns.Dict? && columns.entries != [] && ColumnDefs(columns.entries).Ok? && r.Err? ==>
              r.error == InvalidName(table)
    // A DDL statement binds nothing and is built from admitted tokens only.
    ensures r.Ok? ==> Parameterised(r.value.statement) && r.value.statement.params == []
    // The statement names the table and lists every column's definition, in order.
    ensures r.Ok? ==>
              r.value.statement.tokens == CreateTokens(Ident(table.s), ColumnDefs(columns.entries).value, ifNotExists)
    ensures r.Ok? ==>
              |r.value.statement.tokens| > 2 && r.value.statement.tokens[0] == Keyword(KwCreate)
              && r.value.statement.tokens[1] == (if ifNotExists then Keyword(KwIfNotExists) else Ident(table.s))
    ensures r.Ok? ==> r.value.message == table.s + " tablosu oluşturuldu (ya da zaten vardı)."
  {
    if !(columns.Dict? && columns.entries != []) then Err(ColumnsRequired)
    else
      match ColumnDefs(columns.entries)
      case Err(e) => Err(e)
      case Ok(defs) =>
        match Identifier(table)
        case Err(e) => Err(e)
        case Ok(name) =>
          ColumnDefsParameterised(columns.entries);
          CreateParameterised(name, defs, ifNotExists);
          CreateTokensHead(name, defs, ifNotExists);
          Ok(Ddl(Fragment(CreateTokens(name, defs, ifNotExists), []), table.s + " tablosu oluşturuldu (ya da zaten vardı)."))
  }

  /** `create_sql_table` once `_parse` has produced `data`. */
  function CreateStatement(data: Payload): (r: Result<Ddl>)
    ensures data.ListPayload? ==> r == Err(ListIndexedByKey)
    ensures data.ObjectPayload? && Lookup(data.entries, "table").None? ==> r == Err(KeyMissing("table"))
    ensures data.ObjectPayload? && Lookup(data.entries, "table").Some? && Lookup(data.entries, "columns").None? ==>
              r == Err(KeyMissing("columns"))
    ensures r.Ok? ==> Parameterised(r.value.statement)
    // IF NOT EXISTS is written unless `if_not_exists` is given and falsy.
    ensures r.Ok? ==> data.ObjectPayload? && |r.value.statement.tokens| > 1
                      && (r.value.statement.tokens[1] == Keyword(KwIfNotExists)
                          <==> Truthy(Get(data, "if_not_exists", Bool(true)).value))
    // The message names the table as the payload spelt it.
    ensures r.Ok? ==> Index(data, "table").Ok? && Index(data, "table").value.Str?
                      && r.value.message == Index(data, "table").value.s + " tablosu oluşturuldu (ya da zaten vardı)."
  {
    var table :- Index(data, "table");
    var columns :- Index(data, "columns");
    var ifNotExists := Get(data, "if_not_exists", Bool(true)).value;
    CreateFrom(table, columns, Truthy(ifNotExists))
  }

  /** With only a table name and its columns the create is guarded by
      IF NOT EXISTS. */
  lemma CreateDefaults(name: string, es: seq<(string, Value)>)
    requires IdentMatch(name) && es != [] && ColumnDefs(es).Ok?
    ensures CreateStatement(ObjectPayload([("table", Str(name)), ("columns", Dict(es))]))
         == Ok(Ddl(Fragment(CreateTokens(Ident(name), ColumnDefs(es).value, true), []),
                   name + " tablosu oluşturuldu (ya da zaten vardı)."))
  {
    var data := ObjectPayload([("table", Str(name)), ("columns", Dict(es))]);
    assert Index(data, "table") == Ok(Str(name));
    assert Index(data, "columns") == Ok(Dict(es)) by {
      assert data.entries[1..] == [("columns", Dict(es))];
      assert Lookup(data.entries[1..], "columns") == Some(Dict(es));
      assert Lookup(data.entries, "columns") == Some(Dict(es));
    }
    assert Get(data, "if_not_exists", Bool(true)) == Ok(Bool(true));
  }

  /** The tokens of `DROP TABLE [IF EXISTS ]name[ CASCADE]`. */
  function DropTokens(name: Token, ifExists: bool, cascade: bool): seq<Token> {
    [Keyword(KwDrop)] + (if ifExists then [Keyword(KwIfExists)] else []) + [name]
    + (if cascade then [Keyword(KwCascade)] else [])
  }

  /** `DROP TABLE [IF EXISTS ]name[ CASCADE]`, from `table`,
      `bool(if_exists)` and `bool(cascade)`. */
  function DropFrom(table: Value, ifExists: bool, cascade: bool): (r: Result<Ddl>)
    ensures r.Ok? <==> table.Str? && IdentMatch(table.s)
    ensures r.Err? ==> r.error == InvalidName(table)
    ensures r.Ok? ==> Parameterised(r.value.statement) && r.value.statement.params == []
    // The statement is DROP TABLE, IF EXISTS when asked, the name, CASCADE when asked.
    ensures r.Ok? ==> r.value.statement.tokens == DropTokens(Ident(table.s), ifExists, cascade)
    ensures r.Ok? ==> Ident(table.s) in r.value.statement.tokens
    ensures r.Ok? ==> (Keyword(KwIfExists) in r.value.statement.tokens <==> ifExists)
    ensures r.Ok? ==> (Keyword(KwCascade) in r.value.statement.tokens <==> cascade)
    // The message says the table was dropped only when IF EXISTS was asked for.
    ensures r.Ok? ==>
              r.value.message == table.s + (if ifExists then " tablosu silindi." else " tablosu drop komutu uygulandı.")
  {
    match Identifier(table)
    case Err(e) => Err(e)
    case Ok(name) =>
      var ts := DropTokens(name, ifExists, cascade);
      NoHoles(ts);
      Ok(Ddl(Fragment(ts, []),
             table.s + (if ifExists then " tablosu silindi." else " tablosu drop komutu uygulandı.")))
  }

  /** `drop_sql_table` once `_parse` has produced `data`; IF EXISTS is
      on and CASCADE off unless the payload says otherwise. */
  function DropStatement(data: Payload): (r: Result<Ddl>)
    ensures data.ListPayload? ==> r == Err(ListIndexedByKey)
    ensures data.ObjectPayload? && Lookup(data.entries, "table").None? ==> r == Err(KeyMissing("table"))
    ensures r.Ok? ==> Parameterised(r.value.statement)
    // The payload's `table`, `if_exists` and `cascade` decide the statement.
    ensures r.Ok? ==> Index(data, "table").Ok? && Index(data, "table").value.Str? && data.ObjectPayload?
                      && r.value.statement.tokens
                         == DropTokens(Ident(Index(data, "table").value.s),
                                       Truthy(Get(data, "if_exists", Bool(true)).value),
                                       Truthy(Get(data, "cascade", Bool(false)).value))
    // The message says the table was dropped only when IF EXISTS was on.
    ensures r.Ok? ==> Index(data, "table").Ok? && Index(data, "table").value.Str? && data.ObjectPayload?
                      && r.value.message == Index(data, "table").value.s
                         + (if Truthy(Get(data, "if_exists", Bool(true)).value) then " tablosu silindi."
                            else " tablosu drop komutu uygulandı.")
  {
    var table :- Index(data, "table");
    var ifExists := Get(data, "if_exists", Bool(true)).value;
    var cascade := Get(data, "cascade", Bool(false)).value;
    DropFrom(table, Truthy(ifExists), Truthy(cascade))
  }

  /** With only a table name the drop is guarded and does not cascade. */
  lemma DropDefaults(name: string)
    requires IdentMatch(name)
    ensures DropStatement(ObjectPayload([("table", Str(name))]))
         == Ok(Ddl(Fragment([Keyword(KwDrop), Keyword(KwIfExists), Ident(name)], []), name + " tablosu silindi."))
  {
    var data := ObjectPayload([("table", Str(name))]);
    assert Index(data, "table") == Ok(Str(name));
    assert Get(data, "if_exists", Bool(true)) == Ok(Bool(true));
    assert Get(data, "cascade", Bool(false)) == Ok(Bool(false));
    var ts := [Keyword(KwDrop)] + [Keyword(KwIfExists)] + [Ident(name)] + [];
    assert ts == [Keyword(KwDrop), Keyword(KwIfExists), Ident(name)];
  }
}
