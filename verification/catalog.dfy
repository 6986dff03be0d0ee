/**
 * `list_tables`: a query on `information_schema.tables` narrowed by
 * optional conditions, each one bound to a parameter.
 */
module Catalog {
  import opened Values
  import opened Errors
  import opened Sql
  import opened Payload
  import opened Filters

  /** `any(ch in pattern for ch in ("%", "_"))`: a character of a string,
      an item of a list, a key of a dict; other values cannot be searched. */
  function HasWildcard(pattern: Value): (r: Result<bool>)
    ensures r.Err? <==> pattern.Null? || pattern.Bool? || pattern.Int? || pattern.Float?
    ensures r.Err? ==> r.error == NotContainer(pattern)
    ensures pattern.Str? ==> r == Ok('%' in pattern.s || '_' in pattern.s)
    ensures pattern.List? ==> r == Ok(Str("%") in pattern.items || Str("_") in pattern.items)
    ensures pattern.Dict? ==> r == Ok(Lookup(pattern.entries, "%").Some? || Lookup(pattern.entries, "_").Some?)
  {
    match pattern
    case Str(s) => Ok('%' in s || '_' in s)
    case List(xs) => Ok(Str("%") in xs || Str("_") in xs)
    case Dict(es) => Ok(Lookup(es, "%").Some? || Lookup(es, "_").Some?)
    case _ => Err(NotContainer(pattern))
  }

  /** The ILIKE argument: the pattern itself when it already holds a
      wildcard, otherwise its text wrapped in `%…%`. */
  function SearchPattern(pattern: Value, py: Builtins): (r: Result<Value>)
    ensures HasWildcard(pattern).Err? ==> r == Err(HasWildcard(pattern).error)
    ensures HasWildcard(pattern) == Ok(true) ==> r == Ok(pattern)
    ensures HasWildcard(pattern) == Ok(false) ==> r == Ok(Str("%" + Show(pattern, py) + "%"))
  {
    var wild :- HasWildcard(pattern);
    if wild then Ok(pattern) else Ok(Str("%" + Show(pattern, py) + "%"))
  }

  /** A plain name is searched as a substring; a name with a wildcard is
      taken as the user's own pattern. */
  lemma SearchPatternOfText(s: string, py: Builtins)
    ensures '%' !in s && '_' !in s ==> SearchPattern(Str(s), py) == Ok(Str("%" + s + "%"))
    ensures '%' in s || '_' in s ==> SearchPattern(Str(s), py) == Ok(Str(s))
  {
  }

  /** The conditions `list_tables` joins with AND: `1=1`, the base-table
      filter unless views are included, the schema test and the name test. */
  function ConditionParts(includeViews: bool, bySchema: bool, byName: bool): (parts: seq<seq<Token>>)
    ensures |parts| > 0 && parts[0] == [Keyword(KwAlways)]
  {
    [[Keyword(KwAlways)]] + (if includeViews then [] else [[Keyword(KwBaseTable)]])
    + (if bySchema then [[Keyword(KwSchemaIs), Placeholder]] else [])
    + (if byName then [[Keyword(KwNameLike), Placeholder]] else [])
  }

  /** Each condition is present exactly when its option asks for it. */
  lemma {:induction false} ConditionsPresent(includeViews: bool, bySchema: bool, byName: bool)
    ensures [Keyword(KwBaseTable)] in ConditionParts(includeViews, bySchema, byName) <==> !includeViews
    ensures [Keyword(KwSchemaIs), Placeholder] in ConditionParts(includeViews, bySchema, byName) <==> bySchema
    ensures [Keyword(KwNameLike), Placeholder] in ConditionParts(includeViews, bySchema, byName) <==> byName
  {
    var parts := ConditionParts(includeViews, bySchema, byName);
    var base := if includeViews then [] else [[Keyword(KwBaseTable)]];
    var schema := if bySchema then [[Keyword(KwSchemaIs), Placeholder]] else [];
    var name := if byName then [[Keyword(KwNameLike), Placeholder]] else [];
    assert parts == [[Keyword(KwAlways)]] + base + schema + name;
    if !includeViews {
      assert parts[1] == [Keyword(KwBaseTable)];
    }
    if bySchema {
      assert parts[|parts| - 1 - |name|] == [Keyword(KwSchemaIs), Placeholder];
    }
    if byName {
      assert parts[|parts| - 1] == [Keyword(KwNameLike), Placeholder];
    }
  }

  /** A condition present only when `b` holds. */
  lemma OptionalCondition(b: bool, p: seq<Token>)
    requires Safe(p)
    ensures AllSafe(if b then [p] else [])
    ensures SumHoles(if b then [p] else []) == if b then Holes(p) else 0
  {
    if b {
      assert [p][..0] == [];
    }
  }

  /** `text {}` with a placeholder: admitted, one hole. */
  lemma BoundCondition(k: Kw)
    ensures Safe([Keyword(k), Placeholder]) && Holes([Keyword(k), Placeholder]) == 1
  {
    NoHoles([Keyword(k), Placeholder][..1]);
  }

  /** The conditions are admitted and hold one placeholder per condition
      that binds a value. */
  lemma {:induction false} ConditionHoles(includeViews: bool, bySchema: bool, byName: bool)
    ensures AllSafe(ConditionParts(includeViews, bySchema, byName))
    ensures SumHoles(ConditionParts(includeViews, bySchema, byName))
         == (if bySchema then 1 else 0) + (if byName then 1 else 0)
  {
    var always := [[Keyword(KwAlways)]];
    var base := if includeViews then [] else [[Keyword(KwBaseTable)]];
    var schema := if bySchema then [[Keyword(KwSchemaIs), Placeholder]] else [];
    var name := if byName then [[Keyword(KwNameLike), Placeholder]] else [];
    assert ConditionParts(includeViews, bySchema, byName) == always + base + schema + name;
    NoHoles([Keyword(KwAlways)]);
    NoHoles([Keyword(KwBaseTable)]);
    BoundCondition(KwSchemaIs);
    BoundCondition(KwNameLike);
    OptionalCondition(true, [Keyword(KwAlways)]);
    OptionalCondition(!includeViews, [Keyword(KwBaseTable)]);
    OptionalCondition(bySchema, [Keyword(KwSchemaIs), Placeholder]);
    OptionalCondition(byName, [Keyword(KwNameLike), Placeholder]);
    SumHolesAppend(always, base);
    SumHolesAppend(always + base, schema);
    SumHolesAppend(always + base + schema, name);
    AllSafeAppend(always, base);
    AllSafeAppend(always + base, schema);
    AllSafeAppend(always + base + schema, name);
  }

  /** The conditions of `list_tables` and their parameters: the schema
      binds first, the pattern second; only the pattern can fail. */
  function CatalogConditions(includeViews: bool, schema: Value, pattern: Value, py: Builtins): (r: Result<Clauses>)
    ensures r.Err? <==> Truthy(pattern) && HasWildcard(pattern).Err?
    ensures r.Err? ==> r.error == NotContainer(pattern)
    ensures r.Ok? ==> r.value.parts == ConditionParts(includeViews, Truthy(schema), Truthy(pattern))
    ensures r.Ok? ==>
              r.value.params
              == (if Truthy(schema) then [schema] else [])
                 + (if Truthy(pattern) then [SearchPattern(pattern, py).value] else [])
    ensures r.Ok? ==> AllSafe(r.value.parts) && SumHoles(r.value.parts) == |r.value.params|
  {
    var schemaParams := if Truthy(schema) then [schema] else [];
    ConditionHoles(includeViews, Truthy(schema), Truthy(pattern));
    if Truthy(pattern) then
      match SearchPattern(pattern, py)
      case Err(e) => Err(e)
      case Ok(pat) => Ok(Clauses(ConditionParts(includeViews, Truthy(schema), true), schemaParams + [pat]))
    else
      Ok(Clauses(ConditionParts(includeViews, Truthy(schema), false), schemaParams))
  }

  /** The appends of `list_tables` as the source runs them. */
  method CatalogFilters(includeViews: bool, schema: Value, pattern: Value, py: Builtins) returns (r: Result<Clauses>)
    ensures r == CatalogConditions(includeViews, schema, pattern, py)
  {
    var conditions := [[Keyword(KwAlways)]];
    var params: seq<Value> := [];
    if !includeViews {
      conditions := conditions + [[Keyword(KwBaseTable)]];
    }
    assert conditions == ConditionParts(includeViews, false, false);
    if Truthy(schema) {
      conditions := conditions + [[Keyword(KwSchemaIs), Placeholder]];
      params := params + [schema];
    }
    assert conditions == ConditionParts(includeViews, Truthy(schema), false);
    assert params == if Truthy(schema) then [schema] else [];
    if Truthy(pattern) {
      var pat := SearchPattern(pattern, py);
      if pat.Err? {
        return Err(pat.error);
      }
      conditions := conditions + [[Keyword(KwNameLike), Placeholder]];
      params := params + [pat.value];
    }
    assert conditions == ConditionParts(includeViews, Truthy(schema), Truthy(pattern));
    return Ok(Clauses(conditions, params));
  }

  /** `SELECT … FROM information_schema.tables WHERE c AND … ORDER BY …[ LIMIT n]`. */
  function ListFrom(schema: Value, includeViews: bool, pattern: Value, limit: Value, py: Builtins): (r: Result<Fragment>)
    ensures r.Err? <==> Truthy(pattern) && HasWildcard(pattern).Err?
    ensures r.Err? ==> r.error == NotContainer(pattern)
    ensures r.Ok? ==> Parameterised(r.value)
    ensures r.Ok? ==> r.value.params == CatalogConditions(includeViews, schema, pattern, py).value.params
    // The conditions asked for, joined with AND, between the catalog query and its ordering.
    ensures r.Ok? ==>
              r.value.tokens == [Keyword(KwCatalog)]
                                + Join(ConditionParts(includeViews, Truthy(schema), Truthy(pattern)), [Keyword(KwAnd)])
                                + [Keyword(KwOrderBy)] + LimitClause(limit)
    ensures r.Ok? ==> |r.value.tokens| > 0 && r.value.tokens[0] == Keyword(KwCatalog)
    // The statement ends with the LIMIT suffix.
    ensures r.Ok? ==> |LimitClause(limit)| <= |r.value.tokens|
                      && r.value.tokens[|r.value.tokens| - |LimitClause(limit)|..] == LimitClause(limit)
  {
    match CatalogConditions(includeViews, schema, pattern, py)
    case Err(e) => Err(e)
    case Ok(cs) =>
      var body := Join(cs.parts, [Keyword(KwAnd)]);
      var ts := [Keyword(KwCatalog)] + body + [Keyword(KwOrderBy)] + LimitClause(limit);
      ListParameterised(cs, limit, ts);
      Ok(Fragment(ts, cs.params))
  }

  /** Neither the schema nor the pattern becomes SQL text: the statement
      depends only on whether each was given. */
  lemma ListIgnoresValues(includeViews: bool, limit: Value, py: Builtins,
                          schema1: Value, schema2: Value, pattern1: Value, pattern2: Value)
    requires Truthy(schema1) == Truthy(schema2) && Truthy(pattern1) == Truthy(pattern2)
    requires HasWildcard(pattern1).Err? == HasWildcard(pattern2).Err?
    ensures ListFrom(schema1, includeViews, pattern1, limit, py).Ok? <==> ListFrom(schema2, includeViews, pattern2, limit, py).Ok?
    ensures ListFrom(schema1, includeViews, pattern1, limit, py).Ok? ==>
              ListFrom(schema1, includeViews, pattern1, limit, py).value.tokens
              == ListFrom(schema2, includeViews, pattern2, limit, py).value.tokens
  {
  }

  /** Views are left out of the listing unless `include_views` asks for them. */
  lemma BaseTablesUnlessViews(schema: Value, includeViews: bool, pattern: Value, limit: Value, py: Builtins)
    requires ListFrom(schema, includeViews, pattern, limit, py).Ok?
    ensures Keyword(KwBaseTable) in ListFrom(schema, includeViews, pattern, limit, py).value.tokens <==> !includeViews
  {
    BaseTableInQuery(includeViews, Truthy(schema), Truthy(pattern), limit);
  }

  /** The catalog query holds the base-table filter exactly when views are excluded. */
  lemma {:induction false} BaseTableInQuery(includeViews: bool, bySchema: bool, byName: bool, limit: Value)
    ensures Keyword(KwBaseTable) in [Keyword(KwCatalog)] + Join(ConditionParts(includeViews, bySchema, byName), [Keyword(KwAnd)])
                                    + [Keyword(KwOrderBy)] + LimitClause(limit)
            <==> !includeViews
  {
    BaseTableInConditions(includeViews, bySchema, byName);
    assert Keyword(KwBaseTable) !in LimitClause(limit);
  }

  /** The conditions joined with AND hold the base-table filter exactly when
      views are excluded. */
  lemma {:induction false} BaseTableInConditions(includeViews: bool, bySchema: bool, byName: bool)
    ensures Keyword(KwBaseTable) in Join(ConditionParts(includeViews, bySchema, byName), [Keyword(KwAnd)]) <==> !includeViews
  {
    var parts := ConditionParts(includeViews, bySchema, byName);
    JoinMember(parts, [Keyword(KwAnd)], Keyword(KwBaseTable));
    ConditionsPresent(includeViews, bySchema, byName);
    ConditionShapes(includeViews, bySchema, byName);
    if !includeViews {
      var i :| 0 <= i < |parts| && parts[i] == [Keyword(KwBaseTable)];
      assert Keyword(KwBaseTable) in parts[i];
    }
  }

  /** The only condition holding the base-table filter is that filter. */
  lemma {:induction false} ConditionShapes(includeViews: bool, bySchema: bool, byName: bool)
    ensures forall i | 0 <= i < |ConditionParts(includeViews, bySchema, byName)| ::
              Keyword(KwBaseTable) in ConditionParts(includeViews, bySchema, byName)[i]
              ==> ConditionParts(includeViews, bySchema, byName)[i] == [Keyword(KwBaseTable)]
  {
    var parts := ConditionParts(includeViews, bySchema, byName);
    var base := if includeViews then [] else [[Keyword(KwBaseTable)]];
    var schema := if bySchema then [[Keyword(KwSchemaIs), Placeholder]] else [];
    var name := if byName then [[Keyword(KwNameLike), Placeholder]] else [];
    assert parts == [[Keyword(KwAlways)]] + base + schema + name;
    forall i | 0 <= i < |parts|
      ensures parts[i] in {[Keyword(KwAlways)], [Keyword(KwBaseTable)], [Keyword(KwSchemaIs), Placeholder], [Keyword(KwNameLike), Placeholder]}
    {
      assert parts[i] in [[Keyword(KwAlways)]] + base + schema + name;
    }
  }

  lemma {:induction false} ListParameterised(cs: Clauses, limit: Value, ts: seq<Token>)
    requires AllSafe(cs.parts) && SumHoles(cs.parts) == |cs.params|
    requires ts == [Keyword(KwCatalog)] + Join(cs.parts, [Keyword(KwAnd)]) + [Keyword(KwOrderBy)] + LimitClause(limit)
    ensures Safe(ts) && Holes(ts) == |cs.params|
  {
    var body := Join(cs.parts, [Keyword(KwAnd)]);
    NoHoles([Keyword(KwAnd)]);
    NoHoles([Keyword(KwCatalog)]);
    NoHoles([Keyword(KwOrderBy)]);
    JoinHoles(cs.parts, [Keyword(KwAnd)]);
    JoinSafe(cs.parts, [Keyword(KwAnd)]);
    HolesAppend([Keyword(KwCatalog)], body);
    HolesAppend([Keyword(KwCatalog)] + body, [Keyword(KwOrderBy)]);
    HolesAppend([Keyword(KwCatalog)] + body + [Keyword(KwOrderBy)], LimitClause(limit));
    SafeAppend([Keyword(KwCatalog)], body);
    SafeAppend([Keyword(KwCatalog)] + body, [Keyword(KwOrderBy)]);
    SafeAppend([Keyword(KwCatalog)] + body + [Keyword(KwOrderBy)], LimitClause(limit));
  }

  /** `list_tables` once `_parse` has produced `data`: every field is
      optional; views are excluded and the limit is 200 by default. */
  function ListStatement(data: Payload, py: Builtins): (r: Result<Fragment>)
    ensures data.ListPayload? ==> r == Err(NoAttribute(data.AsValue(), "get"))
    // Every field is optional: a dict payload fails only on a pattern that
    // cannot be searched for a wildcard.
    ensures data.ObjectPayload? ==>
              (r.Err? <==> Truthy(Get(data, "pattern", Null).value) && HasWildcard(Get(data, "pattern", Null).value).Err?)
    ensures data.ObjectPayload? && r.Err? ==> r.error == NotContainer(Get(data, "pattern", Null).value)
    ensures r.Ok? ==> Parameterised(r.value)
  {
    var schema :- Get(data, "schema", Null);
    var includeViews := Get(data, "include_views", Bool(false)).value;
    var pattern := Get(data, "pattern", Null).value;
    var limit := Get(data, "limit", Int(200)).value;
    ListFrom(schema, Truthy(includeViews), pattern, limit, py)
  }

  /** The statement with every option at its default. */
  lemma ListFromDefaults(py: Builtins)
    ensures ListFrom(Null, false, Null, Int(200), py)
         == Ok(Fragment([Keyword(KwCatalog), Keyword(KwAlways), Keyword(KwAnd), Keyword(KwBaseTable),
                         Keyword(KwOrderBy), Keyword(KwLimit), IntLiteral(200)], []))
  {
    var parts := [[Keyword(KwAlways)], [Keyword(KwBaseTable)]];
    assert ConditionParts(false, false, false) == parts;
    assert CatalogConditions(false, Null, Null, py) == Ok(Clauses(parts, []));
    assert parts[..1] == [[Keyword(KwAlways)]];
    var body := [Keyword(KwAlways), Keyword(KwAnd), Keyword(KwBaseTable)];
    assert Join(parts, [Keyword(KwAnd)]) == body;
    assert LimitClause(Int(200)) == [Keyword(KwLimit), IntLiteral(200)];
    assert [Keyword(KwCatalog)] + body + [Keyword(KwOrderBy)] + [Keyword(KwLimit), IntLiteral(200)]
        == [Keyword(KwCatalog), Keyword(KwAlways), Keyword(KwAnd), Keyword(KwBaseTable),
            Keyword(KwOrderBy), Keyword(KwLimit), IntLiteral(200)];
  }

  /** An empty request lists base tables only, 200 at most, binding nothing. */
  lemma ListDefaults(py: Builtins)
    ensures ListStatement(ObjectPayload([]), py)
         == Ok(Fragment([Keyword(KwCatalog), Keyword(KwAlways), Keyword(KwAnd), Keyword(KwBaseTable),
                         Keyword(KwOrderBy), Keyword(KwLimit), IntLiteral(200)], []))
  {
    assert Get(ObjectPayload([]), "schema", Null) == Ok(Null);
    assert Get(ObjectPayload([]), "include_views", Bool(false)) == Ok(Bool(false));
    assert Get(ObjectPayload([]), "pattern", Null) == Ok(Null);
    assert Get(ObjectPayload([]), "limit", Int(200)) == Ok(Int(200));
    ListFromDefaults(py);
  }
}
