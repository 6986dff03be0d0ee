# Safe dynamic SQL for a chat-driven database assistant

This project models the SQL-construction layer and the tool dispatcher of
`main.py`. A language model picks one of seven tools and passes a JSON
`content` argument. The tool turns that untrusted payload into a single
parameterised statement, runs it, and the dispatcher wraps whatever happens
into an `{"ok": …}` envelope.

The model keeps the two channels of psycopg2's `sql` module apart.

- **Structure** is a sequence of tokens:
  - fixed text written in the source (`Sql.Kw`);
  - identifiers that passed `_ident`;
  - column-type fragments that passed the type allow-list;
  - placeholders;
  - the literal of a `LIMIT`.
- **Values** travel in a positional parameter list beside the tokens.

The central invariant is `Sql.Parameterised`. Every token of a statement is
admitted, and the statement has exactly one placeholder per parameter.
`Tools.Statement` proves this for every statement any tool can hand to the
database. For every statement that binds values, a lemma proves that the
values bound as parameters never reach the tokens: with the other fields held
fixed, the tokens depend only on names and on the shape of those values. The
lemmas are `Filters.WhereIgnoresValues`, `Dml.InsertIgnoresValues`,
`Dml.ReadIgnoresValues`, `Dml.DeleteIgnoresValues`, `Dml.UpdateIgnoresValues`
and `Catalog.ListIgnoresValues`.

Besides table and column names, which become `sql.Identifier` only once
`_ident` admits them (`Validators.Identifier`), a caller's value becomes SQL
text in two places only, each after a check:

- a column type of `create_sql_table`, once the allow-list has admitted it
  (`Validators.TypeFragmentCannotEscape`);
- the `limit` of `read_sql_entry` and `list_tables`, written as a literal
  only when it is an int greater than 0 or `True` (`Filters.LimitClause`,
  and `Sql.SafeToken` for `IntLiteral` and `BoolLiteral`).

Modules, leaves first:

- `Values`: Python values as JSON produces them, with truthiness.
- `Errors`: the exceptions and the text `str(exc)` gives for each.
- `Patterns`: what the two regular expressions accept.
- `Sql`: tokens, placeholder counting, `join`.
- `Validators`: `_ident` and the column-type check.
- `Payload`: `_parse`, `data[key]`, `data.get`, iteration.
- `Filters`: `_build_where_simple` and the `LIMIT` suffix.
- `Ddl`: create and drop.
- `Dml`: insert, read, delete, update.
- `Catalog`: `list_tables`.
- `Tools`: execution against a database oracle, and the dispatcher.

Where the code does something step by step, the model does too:

- `Filters.BuildWhere` builds the WHERE clauses;
- `Ddl.ColumnDefinitions` builds the column definitions;
- `Dml.BuildSetClauses` builds the SET clauses;
- `Catalog.CatalogFilters` builds the `list_tables` conditions.

Each of these methods is proved equal to the function that specifies it.
The properties are proved about that function.

Python behaviours the model keeps:

- An unknown tool name is reported as `Bilinmeyen tool: <name>`.
- `_parse` passes a pre-decoded list through unchanged. Such a payload then fails at `data["table"]` with a `TypeError`, or at `data.get` with an `AttributeError` in `list_tables`.
- `_ident` also accepts a name followed by one final newline. This is because `re.match` lets `$` match before a trailing `\n`, and the name is wrapped with its newline.
- `isinstance(limit, int)` holds for `True`, so `"limit": true` adds `LIMIT true`.
- The select list is built from any truthy `columns` value. A string contributes its characters and a dict its keys.
- `list_tables` returns its rows under `tables`, not `rows`.

## Model

| member | source | states |
|---|---|---|
| `Patterns.Upper` | main.py:106 | the length is kept; no ASCII lower-case letter remains, each one becomes its capital, and every other character is unchanged |
| `Validators.RunMeaning` | main.py:43 | the left-to-right scan ends in its accepting states exactly on `[A-Za-z_][A-Za-z0-9_]*` and on such a string plus one final newline |
| `Validators.AcceptsMeansMatch` | main.py:43 | the scan `_ident` runs accepts exactly the strings `re.match` accepts with the identifier pattern |
| `Validators.Identifier` | main.py:47-50 | `_ident` succeeds iff the value is a string the pattern matches; it wraps the name unchanged; otherwise the error carries the offending value |
| `Validators.ScanTypeCharsMeaning` | main.py:45 | the character scan holds exactly when every character is in `[A-Z0-9_(),\s]` |
| `Validators.ColumnType` | main.py:106-107 | a column type passes iff it is a non-empty string whose upper-cased text is all allow-listed characters; the original casing is kept; otherwise the error carries the value |
| `Validators.TypeFragmentCannotEscape` | main.py:45 | an admitted type contains no `;`, quote, double quote, `-`, `/` or `*`, so it cannot end a statement, open a literal or start a comment |
| `Validators.LowerCaseTypesPass` | main.py:106 | `varchar(255)` passes, and keeps its own casing |
| `Validators.ConstraintTypesPass` | main.py:106 | `INT PRIMARY KEY` passes: blanks are in the allowed class, so a type may carry a constraint |
| `Validators.UnsafeTypesRefused` | main.py:106-107 | the empty string and `INT; DROP TABLE t` are refused as invalid column types |
| `Validators.IdentifierExamples` | main.py:43-50 | `abc\n` is accepted with its newline; `abc\n\n`, `\n`, `1abc`, `a b`, the empty string and a number are refused |
| `Payload.Parse` | main.py:52-63 | None and `""` are refused; a dict or list passes unchanged; a text that decodes to an object gives that object, one that decodes to anything else is refused, and one `json.loads` cannot decode gives the decoder's own error; a number or bool fails inside `json.loads` |
| `Payload.Index` | main.py:97-98 | `data[key]` yields the key's value, raises `KeyError(key)` when absent, and fails on a list payload |
| `Payload.Get` | main.py:99 | `data.get(key, d)` never fails on a dict; it yields the value when the key is present and `d` otherwise; a list has no `get` |
| `Payload.Iterate` | main.py:175 | iteration yields a string's characters, a list's items or a dict's keys; it fails exactly on None, bools and numbers |
| `Sql.JoinHoles` | main.py:84 | joining with a separator that has no placeholder adds none |
| `Sql.JoinSafe` | main.py:84 | joining admitted pieces with an admitted separator is admitted |
| `Sql.JoinMember` | main.py:84 | a token not in the separator occurs in a join exactly when it occurs in one of the pieces |
| `Sql.CommaList` | main.py:78 | a comma-separated list of admitted tokens is admitted and has as many placeholders as the tokens |
| `Filters.InClauseParameterised` | main.py:77-80 | `col IN (?, …)` with n placeholders is admitted and has exactly n placeholders |
| `Filters.ClauseParameterised` | main.py:72-83 | each clause (IS NULL, FALSE, IN, `=`) is admitted and has one placeholder per value it binds |
| `Filters.ClauseSeesOnlyShape` | main.py:72-83 | a clause depends on the value only through None / list length / other |
| `Filters.WhereClauses` | main.py:69-83 | the loop succeeds iff every key is an identifier; then there is one clause per item, in order, and the items' values are bound in order |
| `Filters.ClausesParameterised` | main.py:69-83 | the clauses are admitted and their placeholders equal the collected parameters |
| `Filters.FirstInvalidKey` | main.py:70-71 | the first key `_ident` refuses is the error, whatever follows |
| `Filters.WhereFragment` | main.py:65-84 | an empty or absent map gives the empty fragment and no parameters; a truthy non-dict has no `items`; otherwise it succeeds iff every key is valid, starts with WHERE, binds the items' values in order, and is parameterised |
| `Filters.BuildWhere` | main.py:65-84 | the loop that appends clauses and parameters computes `WhereFragment` |
| `Filters.ClausesIgnoreValues` | main.py:70-83 | maps with the same keys and value shapes give the same clauses |
| `Filters.WhereOfClauses` | main.py:84 | a non-empty valid map gives WHERE followed by its clauses joined by AND |
| `Filters.WhereIgnoresValues` | main.py:65-84 | the WHERE tokens depend on keys and value shapes only, so no value becomes SQL text |
| `Filters.WhereOneItem` | main.py:69-84 | a one-item map gives WHERE plus that item's clause and parameters |
| `Filters.WhereNullExample` | main.py:72-73 | `{"a": None}` gives `WHERE a IS NULL` with no parameters |
| `Filters.WhereListExample` | main.py:76-80 | `{"a": [1, 2]}` gives `WHERE a IN (?, ?)` with parameters `[1, 2]` |
| `Filters.WhereEmptyListExample` | main.py:75-76 | `{"a": []}` gives `WHERE FALSE` with no parameters |
| `Filters.WhereTwoKeysExample` | main.py:82-84 | two keys are joined by AND, and a value full of SQL syntax is only a parameter |
| `Filters.LimitClause` | main.py:179-181 | the LIMIT suffix is present iff the limit is a positive int or `True`; it carries the number, or the literal `true` for `True`, and binds nothing |
| `Ddl.ColumnDef` | main.py:106-108 | a column definition succeeds iff its type passes and then its name passes; the type is checked first; the result is `name TYPE` |
| `Ddl.ColumnDefs` | main.py:103-108 | the definitions succeed iff every column does, one per column in order |
| `Ddl.FirstBadColumn` | main.py:104-107 | the first refused column is the error, whatever follows |
| `Ddl.ColumnDefsParameterised` | main.py:113 | the joined definitions are admitted and have no placeholder |
| `Ddl.ColumnDefinitions` | main.py:103-108 | the loop that appends definitions computes `ColumnDefs` |
| `Ddl.CreateParameterised` | main.py:110-114 | `CREATE TABLE [IF NOT EXISTS ]name (defs)` is admitted and binds nothing |
| `Ddl.CreateFrom` | main.py:100-117 | a missing or empty column map is refused first, then the first bad column, then the table name; the statement names the table and holds every column's definition in order, with IF NOT EXISTS exactly as asked; the message names the table |
| `Ddl.CreateStatement` | main.py:96-117 | `table` is read, then `columns`; a missing key or a list payload fails; IF NOT EXISTS is written unless `if_not_exists` is given and falsy; every statement is parameterised; the message names the table |
| `Ddl.CreateDefaults` | main.py:96-117 | with only a valid table and valid columns the statement is `CREATE TABLE IF NOT EXISTS t (defs)` and binds nothing |
| `Ddl.DropFrom` | main.py:132-139 | succeeds iff the table name passes; the statement is exactly `DROP TABLE [IF EXISTS ]name[ CASCADE]` in that order, with each option present exactly when asked; it binds nothing; the message depends on IF EXISTS |
| `Ddl.DropStatement` | main.py:128-131 | `table` is required, and a list payload fails; the statement is `DropTokens` of the table's identifier, `if_exists` (default True) and `cascade` (default False) by truthiness; every statement is parameterised |
| `Ddl.DropDefaults` | main.py:130-139 | with only a table the statement is `DROP TABLE IF EXISTS t` and the message says the table was dropped |
| `Dml.Identifiers` | main.py:151 | `_ident` over a sequence succeeds iff every item is a valid name; it gives one identifier per item, in order |
| `Dml.FirstBadIdentifier` | main.py:151 | the first refused name is the error |
| `Dml.IdentifierList` | main.py:156 | a comma list of identifiers is admitted and has no placeholder |
| `Dml.MarkList` | main.py:153 | a comma list of n placeholders has n placeholders |
| `Dml.InsertFrom` | main.py:148-157 | an empty or non-dict value map is refused first, then column names, then the table; the statement names the table and lists the map's keys in order; column i is the key of item i and parameter i its value |
| `Dml.InsertIgnoresValues` | main.py:151-157 | the insert statement depends on the table and column names only |
| `Dml.InsertStatement` | main.py:146-147 | `table`, then `values`, are required; a list payload fails; every statement is parameterised |
| `Dml.ColumnList` | main.py:175 | a falsy `columns` gives `*`; a non-iterable fails; otherwise every iterated item must be a valid name, and the select list is those names in order, separated by commas |
| `Dml.ReadFrom` | main.py:175-181 | the select list is checked, then WHERE, then the table; the statement is `SELECT list FROM table`, then the WHERE clause and the LIMIT suffix; only WHERE binds parameters |
| `Dml.ReadIgnoresValues` | main.py:175-181 | the read statement depends on the WHERE keys and value shapes only |
| `Dml.ReadStatement` | main.py:173-179 | a missing `table` or a list payload fails; every statement is parameterised |
| `Dml.ReadDefaults` | main.py:173-181 | only `table` is required: a payload holding just a valid table builds `SELECT * FROM t` with no parameters |
| `Dml.DeleteFrom` | main.py:194-199 | a falsy `where` is refused before anything is built; then WHERE keys, then the table; the statement is `DELETE FROM table`, the WHERE map's clauses and `RETURNING *`, so WHERE is always its third token |
| `Dml.DeleteParameterised` | main.py:199 | `DELETE FROM name WHERE … RETURNING *` is parameterised |
| `Dml.DeleteIgnoresValues` | main.py:194-199 | the delete statement depends on the WHERE keys and value shapes only |
| `Dml.DeleteStatement` | main.py:193-194 | a missing `table` fails; a missing `where` is refused; every statement is parameterised |
| `Dml.SetClauses` | main.py:220-224 | the SET loop succeeds iff every column is valid; one `col = ?` per item, values bound in map order |
| `Dml.FirstBadSetColumn` | main.py:222-223 | the first refused column is the error |
| `Dml.SetClausesParameterised` | main.py:220-224 | the SET clauses are admitted, with one placeholder per item |
| `Dml.BuildSetClauses` | main.py:220-224 | the loop that appends clauses and parameters computes `SetClauses` |
| `Dml.UpdateFrom` | main.py:215-235 | the errors come in the source's order (SET required, WHERE required, set columns, where keys, table); the statement is `UPDATE table SET`, one `col = ?` per item of the set map in its order, then the WHERE clause; the parameters are the set values then the WHERE values, and the placeholders before WHERE are exactly the set values' |
| `Dml.UpdateLayout` | main.py:227-233 | in `front WHERE … RETURNING *` the placeholders split at the WHERE keyword |
| `Dml.UpdateHead` | main.py:228-229 | `UPDATE name SET col = ?, …` is admitted with one placeholder per item |
| `Dml.UpdateStatement` | main.py:211-213 | a missing `table` fails; a missing `set` is refused; every statement is parameterised |
| `Dml.UpdateIgnoresValues` | main.py:220-235 | the update statement depends on names and WHERE value shapes only |
| `Dml.SetIgnoresValues` | main.py:222-224 | the SET clauses depend on the column names only |
| `Catalog.HasWildcard` | main.py:262 | the wildcard test on a string, a list and a dict; it fails exactly on None, bools and numbers |
| `Catalog.SearchPattern` | main.py:262 | a pattern with a wildcard is used as is; otherwise its text is wrapped in `%…%` |
| `Catalog.SearchPatternOfText` | main.py:260-262 | a plain name is searched as a substring; a name with `%` or `_` is used verbatim |
| `Catalog.ConditionParts` | main.py:250-264 | the conditions always start with `1=1` |
| `Catalog.ConditionsPresent` | main.py:253-264 | the base-table, schema and name conditions are present exactly when their options ask for them |
| `Catalog.ConditionHoles` | main.py:250-264 | the conditions are admitted and have one placeholder per bound option |
| `Catalog.CatalogConditions` | main.py:250-264 | fails only on an unsearchable truthy pattern; the schema binds first, the pattern second |
| `Catalog.CatalogFilters` | main.py:250-264 | the appends compute `CatalogConditions` |
| `Catalog.ListFrom` | main.py:250-273 | fails only on an unsearchable truthy pattern; the statement is the catalog query, the conditions asked for joined with AND, the ordering and the LIMIT suffix; it is parameterised |
| `Catalog.BaseTablesUnlessViews` | main.py:253-254 | the statement filters to base tables exactly when `include_views` is falsy |
| `Catalog.ListIgnoresValues` | main.py:256-264 | the schema and pattern values never become SQL text: the statement depends only on whether each was given |
| `Catalog.ListParameterised` | main.py:266-273 | the assembled catalog query is admitted with one placeholder per parameter |
| `Catalog.ListStatement` | main.py:244-248 | every field is optional: a dict payload fails only on a truthy pattern that cannot be searched for a wildcard; a list payload has no `get`; every statement is parameterised |
| `Catalog.ListFromDefaults` | main.py:250-273 | with no schema, no pattern, views excluded and limit 200, the statement selects base tables, orders them and binds nothing |
| `Catalog.ListDefaults` | main.py:244-273 | an empty request lists base tables only, at most 200, binding nothing |
| `Tools.Execute` | main.py:158-160 | a database reply of rows is the result; a driver error becomes its text |
| `Tools.ToolOf` | main.py:420-441 | a recognised name maps to the tool declared under it |
| `Tools.ToolOfName` | main.py:420-441 | a name selects a tool iff it is exactly that tool's name |
| `Tools.Statement` | main.py:96-276 | every statement a tool can execute is parameterised; a `_parse` refusal comes first |
| `Tools.Run` | main.py:420-438 | an unbuildable statement is never executed; a built one succeeds iff the database returns rows, and otherwise fails with the driver's text; row tools report the count and the rows under their own keys |
| `Tools.CreateRun` | main.py:420-422 | a successful `create_sql_table` returns the headline followed by the tool's own message, and no data |
| `Tools.DropRun` | main.py:423-425 | a successful `drop_sql_table` returns the tool's own message alone, and no data |
| `Tools.Envelope.AsValue` | main.py:420-444 | the envelope's `ok` is true exactly on success and carries `message` or `error`; `data` is present exactly when the reply carries data |
| `Tools.Dispatch` | main.py:419-444 | an unknown name reports `Bilinmeyen tool: name`; an exception becomes its text, and a statement the database refuses is reported with the driver's own text; `ok` holds iff the name is known, the statement builds and the database returns rows |
| `Tools.RefusedBeforeExecution` | main.py:419-444 | a refused request gives the same envelope whatever the database would do |
| `Tools.OnlyTheStatementIsExecuted` | main.py:419-444 | the envelope depends on the database only through its answer to the built statement |
| `Tools.MissingContent` | main.py:56-57 | a call without `content` is refused by `_parse`, whatever the tool |
| `Tools.CreateReport` | main.py:420-422 | a successful create reports the table name and carries no data |
| `Tools.CreateReply` | main.py:420-422 | the reply of a successful `create_sql_table` is the fixed headline followed by the table name, with no data |
| `Tools.DropReport` | main.py:423-425 | a successful drop reports "silindi" exactly when IF EXISTS was on |

## Left out

- The database connection, commit, rollback and cursor handling (main.py:12-40) are not modelled. The database is an oracle from a statement to rows or an error message, so state across calls and rollback are not modelled.
- The rendering and quoting inside psycopg2 are represented by tokens, not text. `Sql.Text` records the fixed text each keyword stands for.
- The language-model client, the tool declarations, the chat loop and the Django views are outside this model. So are the extraction of the function call, the `.strip()` of the name and the conversion of `args` to a dict: the dispatcher receives the name and the items of `args` as given.
- `json.loads`, `str()` of non-string values and `repr()` of any value (a string column type included) are passed in as `Values.Builtins`. They are not defined here.
- Python dicts never repeat a key. The model's item lists do not enforce this, and a lookup takes the first item.
- Row contents and counts come from the database oracle. Nothing is proved about them beyond how they are reported.
- Floats are `real`: NaN and infinities, which JSON can carry in Python, are not represented.
- `Patterns.Upper`: upper-cases ASCII letters only. Python's `str.upper` also maps a few non-ASCII letters (such as `ß`, `ı`, `ſ`) into ASCII letters, so the source accepts a few column types that the model refuses.
- Exceptions other than those the core raises (for example a `KeyboardInterrupt`, which `except Exception` does not catch) are not modelled.
