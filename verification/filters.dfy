/**
 * `_build_where_simple` and the LIMIT suffix: the two pieces the statement
 * builders share.
 */
module Filters {
  import opened Values
  import opened Errors
  import opened Patterns
  import opened Sql
  import opened Validators

  /** The clause for one `where` item, given its validated column:
      None gives `col IS NULL`, an empty list the always-false `FALSE`,
      a non-empty list `col IN (?, …)` and anything else `col = ?`. */
  function Clause(col: Token, v: Value): seq<Token> {
    match v
    case Null => [col, Keyword(KwIsNull)]
    case List(xs) =>
      if xs == [] then [Keyword(KwFalse)]
      else [col, Keyword(KwIn)] + Join(Singletons(Marks(|xs|)), [Keyword(KwComma)]) + [Keyword(KwClose)]
    case _ => [col, Keyword(KwEquals), Placeholder]
  }

  /** The parameters one `where` item binds, in order. */
  function ClauseParams(v: Value): seq<Value> {
    match v
    case Null => []
    case List(xs) => xs
    case _ => [v]
  }

  /** `col IN (?, …)` with `n` placeholders is admitted and holds `n` of them. */
  lemma InClauseParameterised(col: Token, n: nat)
    requires SafeToken(col) && !col.Placeholder?
    ensures var ts := [col, Keyword(KwIn)] + Join(Singletons(Marks(n)), [Keyword(KwComma)]) + [Keyword(KwClose)];
            Safe(ts) && Holes(ts) == n
  {
    var marks := Join(Singletons(Marks(n)), [Keyword(KwComma)]);
    CommaList(Marks(n));
    MarksHoles(n);
    var head := [col, Keyword(KwIn)];
    NoHoles(head);
    NoHoles([Keyword(KwClose)]);
    HolesAppend(head, marks);
    HolesAppend(head + marks, [Keyword(KwClose)]);
    SafeAppend(head, marks);
    SafeAppend(head + marks, [Keyword(KwClose)]);
  }

  /** Each clause is admitted and has one placeholder per parameter it binds. */
  lemma ClauseParameterised(col: Token, v: Value)
    requires SafeToken(col) && !col.Placeholder?
    ensures Safe(Clause(col, v)) && Holes(Clause(col, v)) == |ClauseParams(v)|
  {
    if v.Null? {
      NoHoles([col, Keyword(KwIsNull)]);
    } else if v.List? {
      if v.items == [] {
        NoHoles([Keyword(KwFalse)]);
      } else {
        InClauseParameterised(col, |v.items|);
      }
    } else {
      var ts := [col, Keyword(KwEquals), Placeholder];
      NoHoles(ts[..2]);
      assert Clause(col, v) == ts;
    }
  }

  /** Two values the builder cannot tell apart: both None, both lists of one
      length, or both something else. */
  predicate SameShape(v: Value, w: Value) {
    (v.Null? <==> w.Null?) && (v.List? <==> w.List?) && (v.List? && w.List? ==> |v.items| == |w.items|)
  }

  lemma ClauseSeesOnlyShape(col: Token, v: Value, w: Value)
    requires SameShape(v, w)
    ensures Clause(col, v) == Clause(col, w)
  {
  }

  datatype Clauses = Clauses(parts: seq<seq<Token>>, params: seq<Value>)

  /** The parameters of the items `es`, item after item. */
  function Bound(es: seq<(string, Value)>): seq<Value> {
    if es == [] then [] else Bound(es[..|es| - 1]) + ClauseParams(es[|es| - 1].1)
  }

  /** The loop of `_build_where_simple` over `where.items()`, taken up to the
      last item of `es`: one clause per item, binding the item's values. */
  function WhereClauses(es: seq<(string, Value)>): (r: Result<Clauses>)
    ensures r.Ok? <==> forall i | 0 <= i < |es| :: IdentMatch(es[i].0)
    ensures r.Ok? ==> |r.value.parts| == |es| && r.value.params == Bound(es)
    ensures r.Ok? ==> forall i | 0 <= i < |es| :: r.value.parts[i] == Clause(Ident(es[i].0), es[i].1)
  {
    if es == [] then Ok(Clauses([], []))
    else
      var init, last := es[..|es| - 1], es[|es| - 1];
      assert forall i | 0 <= i < |init| :: init[i] == es[i];
      match WhereClauses(init)
      case Err(e) => Err(e)
      case Ok(done) =>
        match Identifier(Str(last.0))
        case Err(e) => Err(e)
        case Ok(col) =>
          var parts := done.parts + [Clause(col, last.1)];
          assert forall i | 0 <= i < |init| :: parts[i] == done.parts[i];
          Ok(Clauses(parts, done.params + ClauseParams(last.1)))
  }

  /** Every clause is admitted, and the clauses hold exactly as many
      placeholders as the loop collects parameters. */
  lemma {:induction false} ClausesParameterised(es: seq<(string, Value)>)
    requires WhereClauses(es).Ok?
    ensures AllSafe(WhereClauses(es).value.parts)
    ensures SumHoles(WhereClauses(es).value.parts) == |WhereClauses(es).value.params|
  {
    var parts := WhereClauses(es).value.parts;
    forall i | 0 <= i < |es| ensures Safe(parts[i]) {
      ClauseParameterised(Ident(es[i].0), es[i].1);
    }
    if es != [] {
      var init := es[..|es| - 1];
      assert forall i | 0 <= i < |init| :: init[i] == es[i];
      ClausesParameterised(init);
      var last := es[|es| - 1];
      ClauseParameterised(Ident(last.0), last.1);
      assert parts == WhereClauses(init).value.parts + [Clause(Ident(last.0), last.1)];
      SumHolesSnoc(WhereClauses(init).value.parts, Clause(Ident(last.0), last.1));
    }
  }

  /** The first key that `_ident` refuses is the error, whatever follows it. */
  lemma {:induction false} FirstInvalidKey(es: seq<(string, Value)>, k: nat)
    requires k < |es| && !IdentMatch(es[k].0)
    requires forall j | 0 <= j < k :: IdentMatch(es[j].0)
    ensures WhereClauses(es) == Err(InvalidName(Str(es[k].0)))
  {
    var init := es[..|es| - 1];
    if |es| == k + 1 {
      assert forall j | 0 <= j < |init| :: init[j] == es[j];
      assert WhereClauses(init).Ok?;
    } else {
      assert init[k] == es[k];
      assert forall j | 0 <= j < k :: init[j] == es[j];
      FirstInvalidKey(init, k);
    }
  }

  /** One more valid item extends the clauses by its clause and its parameters. */
  lemma WhereClausesSnoc(es: seq<(string, Value)>, i: nat)
    requires i < |es| && WhereClauses(es[..i]).Ok? && IdentMatch(es[i].0)
    ensures WhereClauses(es[..i + 1])
         == Ok(Clauses(WhereClauses(es[..i]).value.parts + [Clause(Ident(es[i].0), es[i].1)],
                       WhereClauses(es[..i]).value.params + ClauseParams(es[i].1)))
  {
    assert es[..i + 1][..i] == es[..i];
  }

  /** `_build_where_simple(where)`: the WHERE fragment and its parameters. */
  function WhereFragment(where: Value): (r: Result<Fragment>)
    // An empty or absent map adds nothing.
    ensures !Truthy(where) ==> r == Ok(Fragment([], []))
    // A non-empty value that is not a dict has no `.items()`.
    ensures Truthy(where) && !where.Dict? ==> r == Err(NoAttribute(where, "items"))
    ensures where.Dict? ==> (r.Ok? <==> forall i | 0 <= i < |where.entries| :: IdentMatch(where.entries[i].0))
    // Otherwise one clause per item, prefixed by WHERE, binding the items' values in order.
    ensures r.Ok? && Truthy(where) ==>
              && |r.value.tokens| > 0 && r.value.tokens[0] == Keyword(KwWhere)
              && r.value.params == Bound(where.entries)
    ensures r.Ok? ==> Parameterised(r.value)
  {
    if !Truthy(where) then Ok(Fragment([], []))
    else if !where.Dict? then Err(NoAttribute(where, "items"))
    else
      var cs :- WhereClauses(where.entries);
      if cs.parts == [] then Ok(Fragment([], []))
      else
        var sep := [Keyword(KwAnd)];
        NoHoles(sep);
        NoHoles([Keyword(KwWhere)]);
        ClausesParameterised(where.entries);
        JoinSafe(cs.parts, sep);
        JoinHoles(cs.parts, sep);
        SafeAppend([Keyword(KwWhere)], Join(cs.parts, sep));
        HolesAppend([Keyword(KwWhere)], Join(cs.parts, sep));
        Ok(Fragment([Keyword(KwWhere)] + Join(cs.parts, sep), cs.params))
  }

  /** `_build_where_simple`, run as the source runs it: a loop that appends
      one clause and its parameters per item. */
  method BuildWhere(where: Value) returns (r: Result<Fragment>)
    ensures r == WhereFragment(where)
  {
    if !Truthy(where) {
      return Ok(Fragment([], []));
    }
    if !where.Dict? {
      return Err(NoAttribute(where, "items"));
    }
    var es := where.entries;
    var clauses: seq<seq<Token>> := [];
    var params: seq<Value> := [];
    var i := 0;
    while i < |es|
      invariant 0 <= i <= |es|
      invariant WhereClauses(es[..i]) == Ok(Clauses(clauses, params))
    {
      var (key, v) := es[i];
      var col := Identifier(Str(key));
      if col.Err? {
        assert forall j | 0 <= j < i :: es[..i][j] == es[j];
        FirstInvalidKey(es, i);
        return Err(col.error);
      }
      WhereClausesSnoc(es, i);
      clauses := clauses + [Clause(col.value, v)];
      params := params + ClauseParams(v);
      i := i + 1;
    }
    assert es[..i] == es;
    if clauses == [] {
      r := Ok(Fragment([], []));
    } else {
      r := Ok(Fragment([Keyword(KwWhere)] + Join(clauses, [Keyword(KwAnd)]), params));
    }
  }

  /** The clauses depend on the keys and on the shape of each value only. */
  lemma {:induction false} ClausesIgnoreValues(es1: seq<(string, Value)>, es2: seq<(string, Value)>)
    requires |es1| == |es2|
    requires forall i | 0 <= i < |es1| :: es1[i].0 == es2[i].0 && SameShape(es1[i].1, es2[i].1)
    ensures WhereClauses(es1).Ok? <==> WhereClauses(es2).Ok?
    ensures WhereClauses(es1).Ok? ==> WhereClauses(es1).value.parts == WhereClauses(es2).value.parts
  {
    if WhereClauses(es1).Ok? {
      assert WhereClauses(es2).Ok? by {
        forall i | 0 <= i < |es2| ensures IdentMatch(es2[i].0) {
          assert es1[i].0 == es2[i].0;
        }
      }
      var p1, p2 := WhereClauses(es1).value.parts, WhereClauses(es2).value.parts;
      forall i | 0 <= i < |es1| ensures p1[i] == p2[i] {
        ClauseSeesOnlyShape(Ident(es1[i].0), es1[i].1, es2[i].1);
      }
    }
  }

  /** A non-empty map whose keys all pass: WHERE, then the clauses joined by AND. */
  lemma WhereOfClauses(es: seq<(string, Value)>)
    requires es != [] && WhereClauses(es).Ok?
    ensures WhereFragment(Dict(es))
         == Ok(Fragment([Keyword(KwWhere)] + Join(WhereClauses(es).value.parts, [Keyword(KwAnd)]),
                        WhereClauses(es).value.params))
  {
    assert Truthy(Dict(es));
    assert WhereClauses(es).value.parts != [];
  }

  /** The tokens of a WHERE fragment depend on the keys and on the shape of
      each value only: no value ever becomes SQL text. */
  lemma WhereIgnoresValues(es1: seq<(string, Value)>, es2: seq<(string, Value)>)
    requires |es1| == |es2|
    requires forall i | 0 <= i < |es1| :: es1[i].0 == es2[i].0 && SameShape(es1[i].1, es2[i].1)
    ensures WhereFragment(Dict(es1)).Ok? <==> WhereFragment(Dict(es2)).Ok?
    ensures WhereFragment(Dict(es1)).Ok? ==>
              WhereFragment(Dict(es1)).value.tokens == WhereFragment(Dict(es2)).value.tokens
              && |WhereFragment(Dict(es1)).value.params| == |WhereFragment(Dict(es2)).value.params|
  {
    ClausesIgnoreValues(es1, es2);
    if WhereClauses(es1).Ok? && es1 != [] {
      WhereOfClauses(es1);
      WhereOfClauses(es2);
    }
  }

  /** A single-item map: WHERE followed by the item's clause, binding the
      item's parameters. */
  lemma WhereOneItem(key: string, v: Value)
    requires IdentMatch(key)
    ensures WhereFragment(Dict([(key, v)])) == Ok(Fragment([Keyword(KwWhere)] + Clause(Ident(key), v), ClauseParams(v)))
  {
    var es := [(key, v)];
    assert es[..0] == [];
    assert WhereClauses(es[..0]) == Ok(Clauses([], []));
    var parts := WhereClauses(es).value.parts;
    assert parts == [Clause(Ident(key), v)];
    assert Bound(es) == ClauseParams(v);
  }

  lemma WhereNullExample()
    ensures WhereFragment(Dict([("a", Null)]))
         == Ok(Fragment([Keyword(KwWhere), Ident("a"), Keyword(KwIsNull)], []))
  {
    assert IdentShape("a");
    WhereOneItem("a", Null);
    var clause := [Ident("a"), Keyword(KwIsNull)];
    assert Clause(Ident("a"), Null) == clause;
    assert [Keyword(KwWhere)] + clause == [Keyword(KwWhere), Ident("a"), Keyword(KwIsNull)];
  }

  lemma WhereListExample()
    ensures WhereFragment(Dict([("a", List([Int(1), Int(2)]))]))
         == Ok(Fragment([Keyword(KwWhere), Ident("a"), Keyword(KwIn), Placeholder, Keyword(KwComma),
                         Placeholder, Keyword(KwClose)], [Int(1), Int(2)]))
  {
    assert IdentShape("a");
    WhereOneItem("a", List([Int(1), Int(2)]));
    var marks := Singletons(Marks(2));
    assert marks == [[Placeholder], [Placeholder]];
    assert marks[..1] == [[Placeholder]];
    assert Join(marks, [Keyword(KwComma)]) == [Placeholder, Keyword(KwComma), Placeholder];
    var clause := [Ident("a"), Keyword(KwIn), Placeholder, Keyword(KwComma), Placeholder, Keyword(KwClose)];
    assert Clause(Ident("a"), List([Int(1), Int(2)])) == clause;
    assert [Keyword(KwWhere)] + clause
        == [Keyword(KwWhere), Ident("a"), Keyword(KwIn), Placeholder, Keyword(KwComma), Placeholder, Keyword(KwClose)];
  }

  lemma WhereEmptyListExample()
    ensures WhereFragment(Dict([("a", List([]))])) == Ok(Fragment([Keyword(KwWhere), Keyword(KwFalse)], []))
  {
    assert IdentShape("a");
    WhereOneItem("a", List([]));
    assert Clause(Ident("a"), List([])) == [Keyword(KwFalse)];
    assert [Keyword(KwWhere)] + [Keyword(KwFalse)] == [Keyword(KwWhere), Keyword(KwFalse)];
  }

  /** A string full of SQL syntax is still only a parameter. */
  lemma WhereTwoKeysExample()
    ensures WhereFragment(Dict([("a", Int(1)), ("b", Str("x'; --"))]))
         == Ok(Fragment([Keyword(KwWhere), Ident("a"), Keyword(KwEquals), Placeholder, Keyword(KwAnd),
                         Ident("b"), Keyword(KwEquals), Placeholder], [Int(1), Str("x'; --")]))
  {
    assert IdentShape("a") && IdentShape("b");
    var es := [("a", Int(1)), ("b", Str("x'; --"))];
    assert es[..1] == [("a", Int(1))];
    assert es[..1][..0] == [];
    var ca := [Ident("a"), Keyword(KwEquals), Placeholder];
    var cb := [Ident("b"), Keyword(KwEquals), Placeholder];
    assert WhereClauses(es[..1][..0]) == Ok(Clauses([], []));
    var parts := WhereClauses(es).value.parts;
    assert parts == [ca, cb];
    assert parts[..1] == [ca];
    assert Bound(es[..1]) == [Int(1)];
    assert Bound(es) == [Int(1), Str("x'; --")];
    var sep := [Keyword(KwAnd)];
    assert parts[..1][0] == ca;
    assert Join(parts[..1], sep) == ca;
    assert Join(parts, sep) == ca + sep + cb;
    assert [Keyword(KwWhere)] + (ca + sep + cb)
        == [Keyword(KwWhere), Ident("a"), Keyword(KwEquals), Placeholder, Keyword(KwAnd),
            Ident("b"), Keyword(KwEquals), Placeholder];
  }

  /** The ` LIMIT n` suffix, added only when `isinstance(limit, int) and
      limit > 0`; to Python a bool is an int and True > 0. */
  function LimitClause(limit: Value): (ts: seq<Token>)
    ensures Safe(ts) && Holes(ts) == 0
    ensures ts != [] <==> (limit.Int? && limit.i > 0) || limit == Bool(true)
    ensures limit.Int? && limit.i > 0 ==> ts == [Keyword(KwLimit), IntLiteral(limit.i)]
    ensures limit == Bool(true) ==> ts == [Keyword(KwLimit), BoolLiteral(true)]
  {
    var ts := match limit
      case Int(n) => if n > 0 then [Keyword(KwLimit), IntLiteral(n)] else []
      case Bool(b) => if b then [Keyword(KwLimit), BoolLiteral(true)] else []
      case _ => [];
    NoHoles(ts);
    ts
  }
}
