/**
 * SQL as psycopg2's `sql` module composes it, abstracted to a sequence of
 * tokens: fixed `sql.SQL` text, `sql.Identifier`, a column-type fragment
 * passed through `sql.SQL` after the allow-list check, `sql.Placeholder`
 * and the `sql.Literal` of a LIMIT. Values travel beside the tokens in a
 * positional parameter list.
 */
module Sql {
  import opened Values
  import opened Patterns

  datatype Token =
    | Keyword(kw: Kw)
    | Ident(name: string)
    | TypeFrag(text: string)
    | Placeholder
    | IntLiteral(n: int)
    | BoolLiteral(b: bool)

  /** A composed statement (or a piece of one) and the parameters it binds. */
  datatype Fragment = Fragment(tokens: seq<Token>, params: seq<Value>)

  /** The fixed pieces of SQL text the builders write, each one a literal
      of the source; no caller input can produce a keyword. */
  datatype Kw =
    | KwWhere
    | KwAnd
    | KwIsNull
    | KwFalse
    | KwIn
    | KwComma
    | KwClose
    | KwEquals
    | KwCreate
    | KwIfNotExists
    | KwOpen
    | KwSpace
    | KwDrop
    | KwIfExists
    | KwCascade
    | KwInsert
    | KwValues
    | KwCloseReturning
    | KwSelect
    | KwStar
    | KwFrom
    | KwLimit
    | KwDelete
    | KwReturning
    | KwUpdate
    | KwSet
    | KwCatalog
    | KwAlways
    | KwBaseTable
    | KwSchemaIs
    | KwNameLike
    | KwOrderBy

  /** The text each keyword stands for. */
  function Text(k: Kw): string {
    match k
    case KwWhere => " WHERE "
    case KwAnd => " AND "
    case KwIsNull => " IS NULL"
    case KwFalse => "FALSE"
    case KwIn => " IN ("
    case KwComma => ", "
    case KwClose => ")"
    case KwEquals => " = "
    case KwCreate => "CREATE TABLE "
    case KwIfNotExists => "IF NOT EXISTS "
    case KwOpen => " ("
    case KwSpace => " "
    case KwDrop => "DROP TABLE "
    case KwIfExists => "IF EXISTS "
    case KwCascade => " CASCADE"
    case KwInsert => "INSERT INTO "
    case KwValues => ") VALUES ("
    case KwCloseReturning => ") RETURNING *"
    case KwSelect => "SELECT "
    case KwStar => "*"
    case KwFrom => " FROM "
    case KwLimit => " LIMIT "
    case KwDelete => "DELETE FROM "
    case KwReturning => " RETURNING *"
    case KwUpdate => "UPDATE "
    case KwSet => " SET "
    case KwCatalog => "SELECT table_schema, table_name, table_type FROM information_schema.tables WHERE "
    case KwAlways => "1=1"
    case KwBaseTable => "table_type = 'BASE TABLE'"
    case KwSchemaIs => "table_schema = "
    case KwNameLike => "table_name ILIKE "
    case KwOrderBy => " ORDER BY table_schema, table_name"
  }

  /** A token the safety argument admits: fixed text from the source, an
      identifier that passed `_ident`, a type fragment that passed the
      allow-list, a placeholder, or a positive LIMIT literal. No caller
      value can take any of these forms. */
  predicate SafeToken(t: Token) {
    match t
    case Keyword(_) => true
    case Ident(name) => IdentMatch(name)
    case TypeFrag(text) => TypeMatch(Upper(text))
    case Placeholder => true
    case IntLiteral(n) => n > 0
    case BoolLiteral(b) => b
  }

  predicate Safe(ts: seq<Token>) {
    forall i | 0 <= i < |ts| :: SafeToken(ts[i])
  }

  predicate AllSafe(parts: seq<seq<Token>>) {
    forall i | 0 <= i < |parts| :: Safe(parts[i])
  }

  /** The number of placeholders in a token sequence. */
  function Holes(ts: seq<Token>): nat {
    if ts == [] then 0
    else Holes(ts[..|ts| - 1]) + (if ts[|ts| - 1].Placeholder? then 1 else 0)
  }

  function SumHoles(parts: seq<seq<Token>>): nat {
    if parts == [] then 0 else SumHoles(parts[..|parts| - 1]) + Holes(parts[|parts| - 1])
  }

  /** The statement is built only from admitted tokens, and binds exactly
      as many parameters as it has placeholders. */
  predicate Parameterised(f: Fragment) {
    Safe(f.tokens) && Holes(f.tokens) == |f.params|
  }

  /** `sep.join(parts)` for composables. */
  function Join(parts: seq<seq<Token>>, sep: seq<Token>): seq<Token> {
    if |parts| == 0 then []
    else if |parts| == 1 then parts[0]
    else Join(parts[..|parts| - 1], sep) + sep + parts[|parts| - 1]
  }

  /** Each token as a composable of its own. */
  function Singletons(ts: seq<Token>): seq<seq<Token>>
  {
    seq(|ts|, i requires 0 <= i < |ts| => [ts[i]])
  }

  /** `n` placeholders. */
  function Marks(n: nat): seq<Token>
  {
    seq(n, i => Placeholder)
  }

  lemma {:induction false} HolesAppend(a: seq<Token>, b: seq<Token>)
    ensures Holes(a + b) == Holes(a) + Holes(b)
  {
    if b != [] {
      assert (a + b)[..|a + b| - 1] == a + b[..|b| - 1];
      HolesAppend(a, b[..|b| - 1]);
    } else {
      assert a + b == a;
    }
  }

  /** Text without placeholders binds nothing. */
  lemma {:induction false} NoHoles(ts: seq<Token>)
    requires forall i | 0 <= i < |ts| :: !ts[i].Placeholder?
    ensures Holes(ts) == 0
  {
    if ts != [] {
      NoHoles(ts[..|ts| - 1]);
    }
  }

  lemma SafeAppend(a: seq<Token>, b: seq<Token>)
    requires Safe(a) && Safe(b)
    ensures Safe(a + b)
  {
    forall i | 0 <= i < |a + b| ensures SafeToken((a + b)[i]) {
      if i >= |a| { assert (a + b)[i] == b[i - |a|]; }
    }
  }

  lemma SumHolesSnoc(parts: seq<seq<Token>>, p: seq<Token>)
    ensures SumHoles(parts + [p]) == SumHoles(parts) + Holes(p)
  {
    assert (parts + [p])[..|parts|] == parts;
  }

  lemma AllSafeAppend(a: seq<seq<Token>>, b: seq<seq<Token>>)
    requires AllSafe(a) && AllSafe(b)
    ensures AllSafe(a + b)
  {
    forall i | 0 <= i < |a + b| ensures Safe((a + b)[i]) {
      if i >= |a| {
        assert (a + b)[i] == b[i - |a|];
      }
    }
  }

  lemma {:induction false} SumHolesAppend(a: seq<seq<Token>>, b: seq<seq<Token>>)
    ensures SumHoles(a + b) == SumHoles(a) + SumHoles(b)
    decreases |b|
  {
    if b == [] {
      assert a + b == a;
    } else {
      var init := b[..|b| - 1];
      SumHolesAppend(a, init);
      assert (a + b)[..|a + b| - 1] == a + init;
    }
  }

  /** Pieces of `k` placeholders each hold `k` placeholders per piece. */
  lemma {:induction false} UniformHoles(parts: seq<seq<Token>>, k: nat)
    requires forall i | 0 <= i < |parts| :: Holes(parts[i]) == k
    ensures SumHoles(parts) == k * |parts|
  {
    if parts != [] {
      UniformHoles(parts[..|parts| - 1], k);
    }
  }

  /** Joining with a separator that has no placeholders adds none. */
  lemma {:induction false} JoinHoles(parts: seq<seq<Token>>, sep: seq<Token>)
    requires Holes(sep) == 0
    ensures Holes(Join(parts, sep)) == SumHoles(parts)
  {
    if |parts| == 1 {
      assert parts[..0] == [];
    } else if |parts| > 1 {
      var init := parts[..|parts| - 1];
      JoinHoles(init, sep);
      HolesAppend(Join(init, sep), sep);
      HolesAppend(Join(init, sep) + sep, parts[|parts| - 1]);
    }
  }

  /** A token that is not in the separator occurs in the join exactly when
      it occurs in one of the parts. */
  lemma {:induction false} JoinMember(parts: seq<seq<Token>>, sep: seq<Token>, t: Token)
    requires t !in sep
    ensures t in Join(parts, sep) <==> exists i | 0 <= i < |parts| :: t in parts[i]
  {
    if |parts| == 1 {
      assert t in parts[0] ==> exists i | 0 <= i < |parts| :: t in parts[i];
    } else if |parts| > 1 {
      var init := parts[..|parts| - 1];
      JoinMember(init, sep, t);
      if t in Join(parts, sep) {
        if t !in parts[|parts| - 1] {
          assert t in Join(init, sep);
          var i :| 0 <= i < |init| && t in init[i];
          assert parts[i] == init[i];
        }
      } else {
        forall i | 0 <= i < |parts| ensures t !in parts[i] {
          if i < |init| {
            assert parts[i] == init[i];
          }
        }
      }
    }
  }

  /** Joining admitted tokens with an admitted separator admits the result. */
  lemma {:induction false} JoinSafe(parts: seq<seq<Token>>, sep: seq<Token>)
    requires AllSafe(parts) && Safe(sep)
    ensures Safe(Join(parts, sep))
  {
    if |parts| > 1 {
      var init := parts[..|parts| - 1];
      JoinSafe(init, sep);
      SafeAppend(Join(init, sep), sep);
      SafeAppend(Join(init, sep) + sep, parts[|parts| - 1]);
    }
  }

  lemma {:induction false} SingletonHoles(ts: seq<Token>)
    ensures SumHoles(Singletons(ts)) == Holes(ts)
  {
    if ts != [] {
      var init := ts[..|ts| - 1];
      SingletonHoles(init);
      assert Singletons(ts)[..|ts| - 1] == Singletons(init);
      assert Holes([ts[|ts| - 1]]) == Holes([ts[|ts| - 1]][..0]) + (if ts[|ts| - 1].Placeholder? then 1 else 0);
    }
  }

  lemma {:induction false} MarksHoles(n: nat)
    ensures Holes(Marks(n)) == n
  {
    if n > 0 {
      MarksHoles(n - 1);
      assert Marks(n)[..n - 1] == Marks(n - 1);
    }
  }

  /** A comma-separated list of admitted tokens is admitted, and holds as many
      placeholders as the tokens do. */
  lemma CommaList(ts: seq<Token>)
    requires Safe(ts)
    ensures Safe(Join(Singletons(ts), [Keyword(KwComma)]))
    ensures Holes(Join(Singletons(ts), [Keyword(KwComma)])) == Holes(ts)
  {
    JoinSafe(Singletons(ts), [Keyword(KwComma)]);
    assert Holes([Keyword(KwComma)]) == 0 by {
      assert [Keyword(KwComma)][..0] == [];
    }
    JoinHoles(Singletons(ts), [Keyword(KwComma)]);
    SingletonHoles(ts);
  }
}
