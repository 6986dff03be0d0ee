/**
 * `_ident` and the column-type allow-list. Each runs its regular expression
 * as a scan over the characters; lemmas tie each scan to the pattern's
 * meaning stated in Patterns.
 */
module Validators {
  import opened Values
  import opened Errors
  import opened Patterns
  import opened Sql

  /** States of a left-to-right match of `^[A-Za-z_][A-Za-z0-9_]*$`. */
  datatype Scan = Start | Body | Newline | Reject

  function Step(st: Scan, c: char): Scan {
    match st
    case Start => if IdentStart(c) then Body else Reject
    case Body => if IdentChar(c) then Body else if c == '\n' then Newline else Reject
    case Newline => Reject
    case Reject => Reject
  }

  function Run(s: string): Scan {
    if s == [] then Start else Step(Run(s[..|s| - 1]), s[|s| - 1])
  }

  /** The match succeeds when the scan ends inside an identifier, or just
      after the single newline that `$` tolerates. */
  predicate Accepts(s: string) {
    Run(s) == Body || Run(s) == Newline
  }

  lemma ShapeSnoc(p: string, c: char)
    ensures IdentShape(p + [c]) <==> (p == [] && IdentStart(c)) || (IdentShape(p) && IdentChar(c))
  {
    var s := p + [c];
    if p == [] {
      assert s == [c];
    } else {
      assert s[0] == p[0] && s[|p|] == c;
      assert forall i | 1 <= i < |p| :: s[i] == p[i];
      if IdentShape(s) {
        assert forall i | 1 <= i < |p| :: IdentChar(p[i]) by {
          forall i | 1 <= i < |p| ensures IdentChar(p[i]) { assert s[i] == p[i]; }
        }
      }
    }
  }

  /** A string ending in a newline is not an identifier. */
  lemma NewlineEndsShape(s: string)
    requires |s| > 0 && s[|s| - 1] == '\n'
    ensures !IdentShape(s)
  {
    if |s| > 1 { assert !IdentChar(s[|s| - 1]); }
  }

  /** Each scan state means a set of prefixes. */
  lemma {:induction false} RunMeaning(s: string)
    ensures Run(s) == Start <==> s == []
    ensures Run(s) == Body <==> IdentShape(s)
    ensures Run(s) == Newline <==> NewlineTail(s)
  {
    if s != [] {
      var p, c := s[..|s| - 1], s[|s| - 1];
      assert s == p + [c];
      RunMeaning(p);
      ShapeSnoc(p, c);
      if c == '\n' {
        NewlineEndsShape(s);
      }
      if Run(p) == Newline {
        NewlineEndsShape(p);
      }
    }
  }

  lemma AcceptsMeansMatch(s: string)
    ensures Accepts(s) <==> IdentMatch(s)
  {
    RunMeaning(s);
  }

  /** `_ident(name)`: accepts exactly the strings the identifier pattern
      matches and wraps them unchanged; anything else, including a value that
      is not a string, raises with the offending value. */
  function Identifier(name: Value): (r: Result<Token>)
    ensures r.Ok? <==> name.Str? && IdentMatch(name.s)
    ensures r.Ok? ==> r.value == Ident(name.s) && SafeToken(r.value)
    ensures r.Err? ==> r.error == InvalidName(name)
  {
    if name.Str? then AcceptsMeansMatch(name.s); (if Accepts(name.s) then Ok(Ident(name.s)) else Err(InvalidName(name)))
    else Err(InvalidName(name))
  }

  /** The character-class scan behind `^[A-Z0-9_(),\s]+$`. */
  function ScanTypeChars(u: string): bool {
    u == [] || (TypeChar(u[0]) && ScanTypeChars(u[1..]))
  }

  lemma {:induction false} ScanTypeCharsMeaning(u: string)
    ensures ScanTypeChars(u) <==> forall i | 0 <= i < |u| :: TypeChar(u[i])
  {
    if u != [] {
      ScanTypeCharsMeaning(u[1..]);
      assert forall i | 1 <= i < |u| :: u[i] == u[1..][i - 1];
    }
  }

  /** The allow-list check of one column type: it accepts exactly the strings
      whose upper-cased text the type pattern matches, and keeps the original
      text, casing included; anything else raises with the offending value. */
  function ColumnType(t: Value): (r: Result<Token>)
    ensures r.Ok? <==> t.Str? && TypeMatch(Upper(t.s))
    ensures r.Ok? ==> r.value == TypeFrag(t.s) && SafeToken(r.value)
    ensures r.Err? ==> r.error == InvalidColumnType(t)
  {
    if t.Str? then
      var u := Upper(t.s);
      ScanTypeCharsMeaning(u);
      if u != [] && ScanTypeChars(u) then Ok(TypeFrag(t.s)) else Err(InvalidColumnType(t))
    else Err(InvalidColumnType(t))
  }

  /** A type fragment that passes cannot end the statement, open a string or
      quoted name, or start a comment. */
  lemma {:induction false} TypeFragmentCannotEscape(s: string)
    requires ColumnType(Str(s)).Ok?
    ensures ';' !in s && '\'' !in s && '"' !in s && '-' !in s && '/' !in s && '*' !in s
  {
    var u := Upper(s);
    assert TypeMatch(u);
    forall i | 0 <= i < |s|
      ensures s[i] != ';' && s[i] != '\'' && s[i] != '"' && s[i] != '-' && s[i] != '/' && s[i] != '*'
    {
      assert TypeChar(u[i]);
      assert u[i] == UpperChar(s[i]);
    }
  }

  /** Lower case passes because the check looks at the upper-cased text. */
  lemma LowerCaseTypesPass()
    ensures ColumnType(Str("varchar(255)")) == Ok(TypeFrag("varchar(255)"))
  {
    assert Upper("varchar(255)") == "VARCHAR(255)";
    assert TypeMatch("VARCHAR(255)");
  }

  /** Blanks are in the class, so a type may carry a constraint. */
  lemma ConstraintTypesPass()
    ensures ColumnType(Str("INT PRIMARY KEY")) == Ok(TypeFrag("INT PRIMARY KEY"))
  {
    assert TypeMatch(Upper("INT PRIMARY KEY"));
  }

  /** An empty type and a type carrying a second statement are refused. */
  lemma UnsafeTypesRefused()
    ensures ColumnType(Str("")) == Err(InvalidColumnType(Str("")))
    ensures ColumnType(Str("INT; DROP TABLE t")) == Err(InvalidColumnType(Str("INT; DROP TABLE t")))
  {
    assert !TypeChar(Upper("INT; DROP TABLE t")[3]);
  }

  /** The trailing-newline quirk of `$`: "abc\n" is accepted and wrapped with
      its newline, while a newline anywhere else, a leading digit or a blank
      is rejected. */
  lemma IdentifierExamples()
    ensures Identifier(Str("abc\n")) == Ok(Ident("abc\n"))
    ensures Identifier(Str("abc\n\n")).Err?
    ensures Identifier(Str("\n")).Err?
    ensures Identifier(Str("1abc")).Err?
    ensures Identifier(Str("a b")).Err?
    ensures Identifier(Str("")).Err?
    ensures Identifier(Int(1)) == Err(InvalidName(Int(1)))
  {
    assert IdentShape("abc");
    assert "abc\n"[..3] == "abc";
    assert NewlineTail("abc\n");
    assert !IdentShape("abc\n\n") by { assert !IdentChar("abc\n\n"[3]); }
    assert !IdentShape("abc\n") by { assert !IdentChar("abc\n"[3]); }
    assert "abc\n\n"[..4] == "abc\n";
    assert !IdentShape("a b") by { assert !IdentChar("a b"[1]); }
    assert "a b"[..2] == "a ";
    assert !IdentShape("a ") by { assert !IdentChar("a "[1]); }
    assert "\n"[..0] == "";
  }
}
