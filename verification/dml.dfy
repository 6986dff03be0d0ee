/**
 * `insert_sql_entry`, `read_sql_entry`, `delete_sql_entry` and
 * `update_sql_entry`: the statement and positional parameters each one
 * hands to `cursor.execute`.
 */
module Dml {
  import opened Values
  import opened Errors
  import opened Patterns
  import opened Sql
  import opened Validators
  import opened Payload
  import opened Filters

  /** `_ident(v)` for each of `vs` in turn, as a comprehension or a
      generator runs it: the identifiers, or the first refusal. */
  function Identifiers(vs: seq<Value>): (r: Result<seq<Token>>)
    ensures r.Ok? <==> forall i | 0 <= i < |vs| :: vs[i].Str? && IdentMatch(vs[i].s)
    ensures r.Ok? ==> |r.value| == |vs| && forall i | 0 <= i < |vs| :: r.value[i] == Ident(vs[i].s)
  {
    if vs == [] then Ok([])
    else
      match Identifiers(vs[..|vs| - 1])
      case Err(e) => Err(e)
      case Ok(done) =>
        match Identifier(vs[|vs| - 1])
        case Err(e) => Err(e)
        case Ok(t) => Ok(done + [t])
  }

  /** The first value `_ident` refuses is the error, whatever follows it. */
  lemma {:induction false} FirstBadIdentifier(vs: seq<Value>, k: nat)
    requires k < |vs| && Identifier(vs[k]).Err?
    requires forall j | 0 <= j < k :: Identifier(vs[j]).Ok?
    ensures Identifiers(vs) == Err(InvalidName(vs[k]))
  {
    var init := vs[..|vs| - 1];
    if |vs| == k + 1 {
      assert forall j | 0 <= j < |init| :: init[j] == vs[j];
      assert Identifiers(init).Ok?;
    } else {
      assert init[k] == vs[k];
      assert forall j | 0 <= j < k :: init[j] == vs[j];
      FirstBadIdentifier(init, k);
    }
  }

  /** `", ".join(ids)` over identifiers: admitted, no placeholder. */
  lemma IdentifierList(ids: seq<Token>)
    requires forall i | 0 <= i < |ids| :: ids[i].Ident? && IdentMatch(ids[i].name)
    ensures Safe(Join(Singletons(ids), [Keyword(KwComma)]))
    ensures Holes(Join(Singletons(ids), [Keyword(KwComma)])) == 0
  {
    NoHoles(ids);
    CommaList(ids);
  }

  /** `", ".join(?, …)` with `n` placeholders: admitted, `n` holes. */
  lemma MarkList(n: nat)
    ensures Safe(Join(Singletons(Marks(n)), [Keyword(KwComma)]))
    ensures Holes(Join(Singletons(Marks(n)), [Keyword(KwComma)])) == n
  {
    MarksHoles(n);
    CommaList(Marks(n));
  }

  /** Fixed text and identifiers only: admitted, no placeholder. */
  lemma Plain(ts: seq<Token>)
    requires forall i | 0 <= i < |ts| :: ts[i].Keyword? || (ts[i].Ident? && IdentMatch(ts[i].name))
    ensures Safe(ts) && Holes(ts) == 0
  {
    NoHoles(ts);
  }

  /** Holes and admission of a statement assembled from five pieces. */
  lemma Assemble(a: seq<Token>, b: seq<Token>, c: seq<Token>, d: seq<Token>, e: seq<Token>)
    requires Safe(a) && Safe(b) && Safe(c) && Safe(d) && Safe(e)
    ensures Safe(a + b + c + d + e)
    ensures Holes(a + b + c + d + e) == Holes(a) + Holes(b) + Holes(c) + Holes(d) + Holes(e)
  {
    SafeAppend(a, b);
    SafeAppend(a + b, c);
    SafeAppend(a + b + c, d);
    SafeAppend(a + b + c + d, e);
    HolesAppend(a, b);
    HolesAppend(a + b, c);
    HolesAppend(a + b + c, d);
    HolesAppend(a + b + c + d, e);
  }

  // ---------------------------------------------------------------- insert

  function InsertTokens(name: Token, cols: seq<Token>): seq<Token> {
    [Keyword(KwInsert), name, Keyword(KwOpen)] + Join(Singletons(cols), [Keyword(KwComma)])
    + [Keyword(KwValues)] + Join(Singletons(Marks(|cols|)), [Keyword(KwComma)]) + [Keyword(KwCloseReturning)]
  }

  /** `INSERT INTO name (col, …) VALUES (?, …) RETURNING *` from the
      fields `table` and `values`. */
  function InsertFrom(table: Value, values: Value): (r: Result<Fragment>)
    // A missing, empty or non-dict value map is refused first.
    ensures !(values.Dict? && values.entries != []) ==> r == Err(ValuesRequired)
    // Then the column names in order, then the table name.
    ensures values.Dict? && values.entries != [] && Identifiers(KeysOf(values.entries)).Err? ==>
              r == Err(Identifiers(KeysOf(values.entries)).error)
    ensures values.Dict? && values.entries != [] && Identifiers(KeysOf(values.entries)).Ok? ==>
              (r.Ok? <==> table.Str? && IdentMatch(table.s))
              && (r.Err? ==> r.error == InvalidName(table))
    // One placeholder per column, bound to the values in the map's order.
    ensures r.Ok? ==> Parameterised(r.value) && r.value.params == ValuesOf(values.entries)
    // The statement names the table and lists the map's keys, in the same order.
    ensures r.Ok? ==> r.value.tokens == InsertTokens(Ident(table.s), Identifiers(KeysOf(values.entries)).value)
    // Column i is the key of item i, and parameter i is its value.
    ensures r.Ok? ==>
              |Identifiers(KeysOf(values.entries)).value| == |r.value.params| == |values.entries|
              && forall i | 0 <= i < |values.entries| ::
                   Identifiers(KeysOf(values.entries)).value[i] == Ident(values.entries[i].0)
                   && r.value.params[i] == values.entries[i].1
  {
    if !(values.Dict? && values.entries != []) then Err(ValuesRequired)
    else
      match Identifiers(KeysOf(values.entries))
      case Err(e) => Err(e)
      case Ok(cols) =>
        match Identifier(table)
        case Err(e) => Err(e)
        case Ok(name) =>
          var ts := InsertTokens(name, cols);
          IdentifierList(cols);
          MarkList(|cols|);
          Plain([Keyword(KwInsert), name, Keyword(KwOpen)]);
          Plain([Keyword(KwValues)]);
          Plain([Keyword(KwCloseReturning)]);
          Assemble([Keyword(KwInsert), name, Keyword(KwOpen)], Join(Singletons(cols), [Keyword(KwComma)]),
                   [Keyword(KwValues)], Join(Singletons(Marks(|cols|)), [Keyword(KwComma)]), [Keyword(KwCloseReturning)]);
          Ok(Fragment(ts, ValuesOf(values.entries)))
  }

  /** The statement of an insert depends on the table and the column names
      only; the values travel as parameters. */
  lemma InsertIgnoresValues(table: Value, es1: seq<(string, Value)>, es2: seq<(string, Value)>)
    requires |es1| == |es2| && forall i | 0 <= i < |es1| :: es1[i].0 == es2[i].0
    ensures InsertFrom(table, Dict(es1)).Ok? <==> InsertFrom(table, Dict(es2)).Ok?
    ensures InsertFrom(table, Dict(es1)).Ok? ==>
              InsertFrom(table, Dict(es1)).value.tokens == InsertFrom(table, Dict(es2)).value.tokens
  {
    assert KeysOf(es1) == KeysOf(es2);
  }

  /** `insert_sql_entry` once `_parse` has produced `data`. */
  function InsertStatement(data: Payload): (r: Result<Fragment>)
    ensures data.ListPayload? ==> r == Err(ListIndexedByKey)
    ensures data.ObjectPayload? && Lookup(data.entries, "table").None? ==> r == Err(KeyMissing("table"))
    ensures data.ObjectPayload? && Lookup(data.entries, "table").Some? && Lookup(data.entries, "values").None? ==>
              r == Err(KeyMissing("values"))
    ensures r.Ok? ==> Parameterised(r.value)
  {
    var table :- Index(data, "table");
    var values :- Index(data, "values");
    InsertFrom(table, values)
  }

  // ------------------------------------------------------------------ read

  /** The select list: the validated columns joined by commas when
      `columns` is truthy (a string gives its characters, a dict its keys),
      `*` otherwise. */
  function ColumnList(columns: Value): (r: Result<seq<Token>>)
    ensures !Truthy(columns) ==> r == Ok([Keyword(KwStar)])
    ensures Truthy(columns) && Iterate(columns).Err? ==> r == Err(NotIterable(columns))
    ensures Truthy(columns) && Iterate(columns).Ok? ==>
              (r.Ok? <==> Identifiers(Iterate(columns).value).Ok?)
              && (r.Err? ==> r.error == Identifiers(Iterate(columns).value).error)
    // The validated names, in the order iteration yields them, separated by commas.
    ensures Truthy(columns) && r.Ok? ==>
              r.value == Join(Singletons(Identifiers(Iterate(columns).value).value), [Keyword(KwComma)])
    ensures r.Ok? ==> Safe(r.value) && Holes(r.value) == 0
  {
    if !Truthy(columns) then
      Plain([Keyword(KwStar)]);
      Ok([Keyword(KwStar)])
    else
      match Iterate(columns)
      case Err(e) => Err(e)
      case Ok(items) =>
        match Identifiers(items)
        case Err(e) => Err(e)
        case Ok(ids) =>
          IdentifierList(ids);
          Ok(Join(Singletons(ids), [Keyword(KwComma)]))
  }

  /** `SELECT cols FROM name[ WHERE …][ LIMIT n]` from `table`, `columns`,
      `where` and `limit`. */
  function ReadFrom(table: Value, columns: Value, where: Value, limit: Value): (r: Result<Fragment>)
    // The select list first, then the WHERE map, then the table name.
    ensures ColumnList(columns).Err? ==> r == Err(ColumnList(columns).error)
    ensures ColumnList(columns).Ok? && WhereFragment(where).Err? ==> r == Err(WhereFragment(where).error)
    ensures ColumnList(columns).Ok? && WhereFragment(where).Ok? ==>
              (r.Ok? <==> table.Str? && IdentMatch(table.s))
              && (r.Err? ==> r.error == InvalidName(table))
    ensures r.Ok? ==> Parameterised(r.value)
    // The parameters are those of the WHERE map, in its order.
    ensures r.Ok? ==> r.value.params == (if Truthy(where) then Bound(where.entries) else [])
    // The select list, the table, the WHERE clause and the LIMIT, in that order.
    ensures r.Ok? ==>
              r.value.tokens == [Keyword(KwSelect)] + ColumnList(columns).value + [Keyword(KwFrom), Ident(table.s)]
                                + WhereFragment(where).value.tokens + LimitClause(limit)
    ensures r.Ok? ==> |r.value.tokens| > 0 && r.value.tokens[0] == Keyword(KwSelect)
    // The statement ends with the LIMIT suffix.
    ensures r.Ok? ==> |LimitClause(limit)| <= |r.value.tokens|
                      && r.value.tokens[|r.value.tokens| - |LimitClause(limit)|..] == LimitClause(limit)
  {
    match ColumnList(columns)
    case Err(e) => Err(e)
    case Ok(cols) =>
      match WhereFragment(where)
      case Err(e) => Err(e)
      case Ok(filter) =>
        match Identifier(table)
        case Err(e) => Err(e)
        case Ok(name) =>
          var head, mid := [Keyword(KwSelect)], [Keyword(KwFrom), name];
          var ts := head + cols + mid + filter.tokens + LimitClause(limit);
          Plain(head);
          Plain(mid);
          Assemble(head, cols, mid, filter.tokens, LimitClause(limit));
          Ok(Fragment(ts, filter.params))
  }

  /** `read_sql_entry` once `_parse` has produced `data`; `where` defaults
      to `{}`, `columns` and `limit` to None. */
  function ReadStatement(data: Payload): (r: Result<Fragment>)
    ensures data.ListPayload? ==> r == Err(ListIndexedByKey)
    ensures data.ObjectPayload? && Lookup(data.entries, "table").None? ==> r == Err(KeyMissing("table"))
    ensures r.Ok? ==> Parameterised(r.value)
  {
    var table :- Index(data, "table");
    var columns := Get(data, "columns", Null).value;
    var where := Get(data, "where", Dict([])).value;
    var limit := Get(data, "limit", Null).value;
    ReadFrom(table, columns, where, limit)
  }

  /** The statement of a read depends on the WHERE keys and the shape of
      their values only. */
  lemma ReadIgnoresValues(table: Value, columns: Value, limit: Value,
                          w1: seq<(string, Value)>, w2: seq<(string, Value)>)
    requires |w1| == |w2| && forall i | 0 <= i < |w1| :: w1[i].0 == w2[i].0 && SameShape(w1[i].1, w2[i].1)
    ensures ReadFrom(table, columns, Dict(w1), limit).Ok? <==> ReadFrom(table, columns, Dict(w2), limit).Ok?
    ensures ReadFrom(table, columns, Dict(w1), limit).Ok? ==>
              ReadFrom(table, columns, Dict(w1), limit).value.tokens == ReadFrom(table, columns, Dict(w2), limit).value.tokens
  {
    WhereIgnoresValues(w1, w2);
  }

  /** A payload that names only a valid table reads every column of every row. */
  lemma ReadDefaults(name: string)
    requires IdentMatch(name)
    ensures ReadStatement(ObjectPayload([("table", Str(name))]))
         == Ok(Fragment([Keyword(KwSelect), Keyword(KwStar), Keyword(KwFrom), Ident(name)], []))
  {
    var data := ObjectPayload([("table", Str(name))]);
    assert Index(data, "table") == Ok(Str(name));
    assert Get(data, "columns", Null) == Ok(Null);
    assert Get(data, "where", Dict([])) == Ok(Dict([]));
    assert Get(data, "limit", Null) == Ok(Null);
    assert ColumnList(Null) == Ok([Keyword(KwStar)]);
    assert WhereFragment(Dict([])) == Ok(Fragment([], []));
    assert LimitClause(Null) == [];
    assert [Keyword(KwSelect)] + [Keyword(KwStar)] + [Keyword(KwFrom), Ident(name)] + [] + []
        == [Keyword(KwSelect), Keyword(KwStar), Keyword(KwFrom), Ident(name)];
  }

  // ---------------------------------------------------------------- delete

  /** `DELETE FROM name WHERE … RETURNING *` from `table` and `where`. */
  function DeleteFrom(table: Value, where: Value): (r: Result<Fragment>)
    // No WHERE map, no statement.
    ensures !Truthy(where) ==> r == Err(WhereRequired)
    ensures Truthy(where) && WhereFragment(where).Err? ==> r == Err(WhereFragment(where).error)
    ensures Truthy(where) && WhereFragment(where).Ok? ==>
              (r.Ok? <==> table.Str? && IdentMatch(table.s))
              && (r.Err? ==> r.error == InvalidName(table))
    ensures r.Ok? ==> Parameterised(r.value) && r.value.params == Bound(where.entries)
    // A delete is always restricted by a WHERE clause.
    ensures r.Ok? ==> |r.value.tokens| > 2 && r.value.tokens[2] == Keyword(KwWhere)
    // The statement targets the table and carries the WHERE map's clauses.
    ensures r.Ok? ==>
              r.value.tokens == [Keyword(KwDelete), Ident(table.s)] + WhereFragment(where).value.tokens + [Keyword(KwReturning)]
  {
    if !Truthy(where) then Err(WhereRequired)
    else
      match WhereFragment(where)
      case Err(e) => Err(e)
      case Ok(filter) =>
        match Identifier(table)
        case Err(e) => Err(e)
        case Ok(name) =>
          DeleteParameterised(name, filter);
          Ok(Fragment([Keyword(KwDelete), name] + filter.tokens + [Keyword(KwReturning)], filter.params))
  }

  lemma DeleteParameterised(name: Token, filter: Fragment)
    requires name.Ident? && IdentMatch(name.name)
    requires Parameterised(filter) && |filter.tokens| > 0 && filter.tokens[0] == Keyword(KwWhere)
    ensures var ts := [Keyword(KwDelete), name] + filter.tokens + [Keyword(KwReturning)];
            Parameterised(Fragment(ts, filter.params)) && ts[2] == Keyword(KwWhere)
  {
    var head := [Keyword(KwDelete), name];
    Plain(head);
    Plain([Keyword(KwReturning)]);
    Assemble(head, filter.tokens, [Keyword(KwReturning)], [], []);
    assert head + filter.tokens + [Keyword(KwReturning)] + [] + [] == head + filter.tokens + [Keyword(KwReturning)];
  }

  /** The statement of a delete depends on the WHERE keys and the shape of
      their values only. */
  lemma DeleteIgnoresValues(table: Value, w1: seq<(string, Value)>, w2: seq<(string, Value)>)
    requires |w1| == |w2| && forall i | 0 <= i < |w1| :: w1[i].0 == w2[i].0 && SameShape(w1[i].1, w2[i].1)
    ensures DeleteFrom(table, Dict(w1)).Ok? <==> DeleteFrom(table, Dict(w2)).Ok?
    ensures DeleteFrom(table, Dict(w1)).Ok? ==>
              DeleteFrom(table, Dict(w1)).value.tokens == DeleteFrom(table, Dict(w2)).value.tokens
  {
    WhereIgnoresValues(w1, w2);
  }

  /** `delete_sql_entry` once `_parse` has produced `data`. */
  function DeleteStatement(data: Payload): (r: Result<Fragment>)
    ensures data.ListPayload? ==> r == Err(ListIndexedByKey)
    ensures data.ObjectPayload? && Lookup(data.entries, "table").None? ==> r == Err(KeyMissing("table"))
    ensures data.ObjectPayload? && Lookup(data.entries, "table").Some? && Lookup(data.entries, "where").None? ==>
              r == Err(WhereRequired)
    ensures r.Ok? ==> Parameterised(r.value)
  {
    var table :- Index(data, "table");
    var where := Get(data, "where", Null).value;
    DeleteFrom(table, where)
  }

  // ---------------------------------------------------------------- update

  /** The loop over `set_map.items()`, taken up to the last item of `es`:
      one `col = ?` per item, binding the item's value. */
  function SetClauses(es: seq<(string, Value)>): (r: Result<Clauses>)
    ensures r.Ok? <==> forall i | 0 <= i < |es| :: IdentMatch(es[i].0)
    ensures r.Ok? ==> |r.value.parts| == |es| && r.value.params == ValuesOf(es)
    ensures r.Ok? ==>
              forall i | 0 <= i < |es| :: r.value.parts[i] == [Ident(es[i].0), Keyword(KwEquals), Placeholder]
  {
    if es == [] then Ok(Clauses([], []))
    else
      var init, last := es[..|es| - 1], es[|es| - 1];
      match SetClauses(init)
      case Err(e) => Err(e)
      case Ok(done) =>
        match Identifier(Str(last.0))
        case Err(e) => Err(e)
        case Ok(col) =>
          assert ValuesOf(es) == ValuesOf(init) + [last.1];
          Ok(Clauses(done.parts + [[col, Keyword(KwEquals), Placeholder]], done.params + [last.1]))
  }

  /** The first column `_ident` refuses is the error, whatever follows it. */
  lemma {:induction false} FirstBadSetColumn(es: seq<(string, Value)>, k: nat)
    requires k < |es| && !IdentMatch(es[k].0)
    requires forall j | 0 <= j < k :: IdentMatch(es[j].0)
    ensures SetClauses(es) == Err(InvalidName(Str(es[k].0)))
  {
    var init := es[..|es| - 1];
    if |es| == k + 1 {
      assert forall j | 0 <= j < |init| :: init[j] == es[j];
      assert SetClauses(init).Ok?;
    } else {
      assert init[k] == es[k];
      assert forall j | 0 <= j < k :: init[j] == es[j];
      FirstBadSetColumn(init, k);
    }
  }

  /** `col = ?` holds one placeholder. */
  lemma AssignmentHoles(col: string)
    ensures Holes([Ident(col), Keyword(KwEquals), Placeholder]) == 1
  {
    var ts := [Ident(col), Keyword(KwEquals), Placeholder];
    NoHoles(ts[..2]);
  }

  /** The set clauses are admitted and hold one placeholder per value. */
  lemma {:induction false} SetClausesParameterised(es: seq<(string, Value)>)
    requires SetClauses(es).Ok?
    ensures AllSafe(SetClauses(es).value.parts)
    ensures SumHoles(SetClauses(es).value.parts) == |es|
  {
    var parts := SetClauses(es).value.parts;
    forall i | 0 <= i < |es| ensures Safe(parts[i]) && Holes(parts[i]) == 1 {
      assert parts[i] == [Ident(es[i].0), Keyword(KwEquals), Placeholder];
      AssignmentHoles(es[i].0);
    }
    UniformHoles(parts, 1);
  }

  /** One more valid item extends the set clauses by `col = ?` and its value. */
  lemma SetClausesSnoc(es: seq<(string, Value)>, i: nat)
    requires i < |es| && SetClauses(es[..i]).Ok? && IdentMatch(es[i].0)
    ensures SetClauses(es[..i + 1])
         == Ok(Clauses(SetClauses(es[..i]).value.parts + [[Ident(es[i].0), Keyword(KwEquals), Placeholder]],
                       SetClauses(es[..i]).value.params + [es[i].1]))
  {
    assert es[..i + 1][..i] == es[..i];
  }

  /** `update_sql_entry`'s loop as the source runs it, appending one clause
      and one parameter per item. */
  method BuildSetClauses(es: seq<(string, Value)>) returns (r: Result<Clauses>)
    ensures r == SetClauses(es)
  {
    var clauses: seq<seq<Token>> := [];
    var params: seq<Value> := [];
    var i := 0;
    while i < |es|
      invariant 0 <= i <= |es|
      invariant SetClauses(es[..i]) == Ok(Clauses(clauses, params))
    {
      var (key, v) := es[i];
      var col := Identifier(Str(key));
      if col.Err? {
        assert forall j | 0 <= j < i :: es[..i][j] == es[j];
        FirstBadSetColumn(es, i);
        return Err(col.error);
      }
      SetClausesSnoc(es, i);
      clauses := clauses + [[col.value, Keyword(KwEquals), Placeholder]];
      params := params + [v];
      i := i + 1;
    }
    assert es[..i] == es;
    return Ok(Clauses(clauses, params));
  }

  /** `UPDATE name SET col = ?, … WHERE … RETURNING *` from `table`, `set`
      and `where`. */
  function UpdateFrom(table: Value, assignments: Value, where: Value): (r: Result<Fragment>)
    // The set map is checked first, then the presence of a WHERE map.
    ensures !(assignments.Dict? && assignments.entries != []) ==> r == Err(SetRequired)
    ensures assignments.Dict? && assignments.entries != [] && !Truthy(where) ==> r == Err(WhereRequired)
    // Then the set columns, the WHERE keys and the table name, in that order.
    ensures assignments.Dict? && assignments.entries != [] && Truthy(where) && SetClauses(assignments.entries).Err? ==>
              r == Err(SetClauses(assignments.entries).error)
    ensures assignments.Dict? && assignments.entries != [] && Truthy(where) && SetClauses(assignments.entries).Ok? && WhereFragment(where).Err? ==>
              r == Err(WhereFragment(where).error)
    ensures assignments.Dict? && assignments.entries != [] && Truthy(where) && SetClauses(assignments.entries).Ok? && WhereFragment(where).Ok? ==>
              (r.Ok? <==> table.Str? && IdentMatch(table.s))
              && (r.Err? ==> r.error == InvalidName(table))
    ensures r.Ok? ==> Parameterised(r.value)
    // The set values first, in the map's order, then the WHERE values; the
    // placeholders before WHERE are exactly the set values'.
    ensures r.Ok? ==> r.value.params == ValuesOf(assignments.entries) + Bound(where.entries)
    ensures r.Ok? ==>
              exists k | 0 <= k < |r.value.tokens| ::
                r.value.tokens[k] == Keyword(KwWhere)
                && Holes(r.value.tokens[..k]) == |assignments.entries|
                && Holes(r.value.tokens[k..]) == |Bound(where.entries)|
    // `col = ?` per item of the set map, in its order, then the WHERE clause.
    ensures r.Ok? ==>
              r.value.tokens == [Keyword(KwUpdate), Ident(table.s), Keyword(KwSet)]
                                + Join(SetClauses(assignments.entries).value.parts, [Keyword(KwComma)])
                                + WhereFragment(where).value.tokens + [Keyword(KwReturning)]
  {
    if !(assignments.Dict? && assignments.entries != []) then Err(SetRequired)
    else if !Truthy(where) then Err(WhereRequired)
    else
      match SetClauses(assignments.entries)
      case Err(e) => Err(e)
      case Ok(sets) =>
        match WhereFragment(where)
        case Err(e) => Err(e)
        case Ok(filter) =>
          match Identifier(table)
          case Err(e) => Err(e)
          case Ok(name) =>
            var front := [Keyword(KwUpdate), name, Keyword(KwSet)] + Join(sets.parts, [Keyword(KwComma)]);
            var ts := front + (filter.tokens + [Keyword(KwReturning)]);
            SetClausesParameterised(assignments.entries);
            UpdateHead(name, sets.parts, |assignments.entries|, front);
            UpdateLayout(front, filter, ts);
            Ok(Fragment(ts, sets.params + filter.params))
  }

  /** `head, assignments WHERE … RETURNING *`: the placeholders before the
      WHERE keyword are the assignments', those after it the filter's. */
  lemma {:induction false} UpdateLayout(front: seq<Token>, filter: Fragment, ts: seq<Token>)
    requires Safe(front)
    requires Parameterised(filter) && |filter.tokens| > 0 && filter.tokens[0] == Keyword(KwWhere)
    requires ts == front + (filter.tokens + [Keyword(KwReturning)])
    ensures Safe(ts) && Holes(ts) == Holes(front) + |filter.params|
    ensures |front| < |ts| && ts[|front|] == Keyword(KwWhere)
    ensures Holes(ts[..|front|]) == Holes(front) && Holes(ts[|front|..]) == |filter.params|
  {
    var back := filter.tokens + [Keyword(KwReturning)];
    NoHoles([Keyword(KwReturning)]);
    HolesAppend(filter.tokens, [Keyword(KwReturning)]);
    SafeAppend(filter.tokens, [Keyword(KwReturning)]);
    HolesAppend(front, back);
    SafeAppend(front, back);
    assert ts[..|front|] == front;
    assert ts[|front|..] == back;
  }

  /** `UPDATE name SET col = ?, …`: admitted, one placeholder per item. */
  lemma {:induction false} UpdateHead(name: Token, parts: seq<seq<Token>>, n: nat, front: seq<Token>)
    requires SafeToken(name) && name.Ident?
    requires AllSafe(parts) && SumHoles(parts) == n
    requires front == [Keyword(KwUpdate), name, Keyword(KwSet)] + Join(parts, [Keyword(KwComma)])
    ensures Safe(front) && Holes(front) == n
  {
    var head := [Keyword(KwUpdate), name, Keyword(KwSet)];
    NoHoles(head);
    NoHoles([Keyword(KwComma)]);
    JoinHoles(parts, [Keyword(KwComma)]);
    JoinSafe(parts, [Keyword(KwComma)]);
    HolesAppend(head, Join(parts, [Keyword(KwComma)]));
    SafeAppend(head, Join(parts, [Keyword(KwComma)]));
  }

  /** `update_sql_entry` once `_parse` has produced `data`. */
  function UpdateStatement(data: Payload): (r: Result<Fragment>)
    ensures data.ListPayload? ==> r == Err(ListIndexedByKey)
    ensures data.ObjectPayload? && Lookup(data.entries, "table").None? ==> r == Err(KeyMissing("table"))
    ensures data.ObjectPayload? && Lookup(data.entries, "table").Some? && Lookup(data.entries, "set").None? ==>
              r == Err(SetRequired)
    ensures r.Ok? ==> Parameterised(r.value)
  {
    var table :- Index(data, "table");
    var assignments := Get(data, "set", Null).value;
    var where := Get(data, "where", Null).value;
    UpdateFrom(table, assignments, where)
  }

  /** The statement of an update depends on the names and the shape of the
      WHERE values only; no value of `set` or `where` becomes SQL text. */
  lemma UpdateIgnoresValues(table: Value, s1: seq<(string, Value)>, s2: seq<(string, Value)>,
                            w1: seq<(string, Value)>, w2: seq<(string, Value)>)
    requires |s1| == |s2| && forall i | 0 <= i < |s1| :: s1[i].0 == s2[i].0
    requires |w1| == |w2| && forall i | 0 <= i < |w1| :: w1[i].0 == w2[i].0 && SameShape(w1[i].1, w2[i].1)
    ensures UpdateFrom(table, Dict(s1), Dict(w1)).Ok? <==> UpdateFrom(table, Dict(s2), Dict(w2)).Ok?
    ensures UpdateFrom(table, Dict(s1), Dict(w1)).Ok? ==>
              UpdateFrom(table, Dict(s1), Dict(w1)).value.tokens == UpdateFrom(table, Dict(s2), Dict(w2)).value.tokens
  {
    WhereIgnoresValues(w1, w2);
    SetIgnoresValues(s1, s2);
  }

  lemma SetIgnoresValues(s1: seq<(string, Value)>, s2: seq<(string, Value)>)
    requires |s1| == |s2| && forall i | 0 <= i < |s1| :: s1[i].0 == s2[i].0
    ensures SetClauses(s1).Ok? <==> SetClauses(s2).Ok?
    ensures SetClauses(s1).Ok? ==> SetClauses(s1).value.parts == SetClauses(s2).value.parts
  {
    if SetClauses(s1).Ok? {
      assert SetClauses(s2).Ok? by {
        forall i | 0 <= i < |s2| ensures IdentMatch(s2[i].0) {
          assert s1[i].0 == s2[i].0;
        }
      }
    }
  }
}
