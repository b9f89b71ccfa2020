# fize MySQL statement builder, modelled in Dafny

This project models the SQL text builder of the fize ORM, `fize/orm/mysql.py`.
It has two halves.

**`Query`** is the chainable condition builder. It keeps four things:
- an optional target column, back-quoted by default;
- the SQL fragment built so far;
- the list of bind values;
- the combinator, `AND` unless `combine_logic` changes it.

Every helper (`eq`, `gt`, `like`, `between`, `is_in`, `exists`, …) appends
one fragment through `__add_part`. `&` and `|` build a fresh `Query` that
puts both operands in parentheses and concatenates their bind lists.

**`OrmMysql`** holds the clause state of one statement: table and prefix,
alias, joins, WHERE text and binds, GROUP BY, HAVING, unions, ORDER BY, LIMIT
and the field list. Its setters update that state. `__build_sql` renders one
DELETE, INSERT, REPLACE, SELECT, TRUNCATE or UPDATE statement with its
positional parameter list. `__clear_environment` resets the clause state. The
terminal actions `add`, `replace`, `select`, `find`, `delete`, `update` and
`truncate` each build a statement, hand it to the database, and then clear.

The project has three files:
- `sql_text.dfy` (module `SqlText`) holds the text helpers and the model of
  the driver. `Holders` counts `%s` placeholders. `Substitute` is the
  positional substitution the MySQL driver applies when it executes a
  statement with a bind list. How the driver renders one value (quoting,
  escaping) is the parameter `lit`. It also models Python's `str()`,
  `str.join`, ASCII `str.upper` and integer printing with its parse-back.
- `mysql_query.dfy` (module `MysqlQuery`) holds class `Query`, whose methods
  update its fields in place.
- `mysql_orm.dfy` (module `MysqlOrm`) holds class `OrmMysql`.
  - `Render` is the specification of `__build_sql`: the statement and binds
    that a clause state renders to.
  - `BuildSql` is the imperative builder with the source's loops. It is proved
    to produce `Render`.
  - The terminal actions other than `Truncate` take the database as a
    function parameter `run`. `Truncate` returns the statement it sends; the
    executor's result is dropped there, as `truncate` drops it.

The central property is alignment. Suppose identifiers, keys and the plain
clause texts contain no `%`. Suppose also that every `%` in a WHERE or HAVING
text or in a Query fragment opens a `%s` (`SqlText.OnlyHolders`). Suppose
finally that each WHERE or HAVING text and each Query fragment holds one `%s`
per bind of its own (`TrailerWellFormed`, `AppendHolders`). Then a
rendered statement holds exactly one `%s` per bind, and it has no other `%`
conversion. Substituting the binds fills each clause with its own values, in
text order. This holds for Query fragments, for `&` and `|`, for `IN` lists,
for INSERT/REPLACE value lists, for UPDATE SET lists, and for the WHERE/HAVING
trailer.

## Model

| member | source | states |
|---|---|---|
| SqlText.HoldersConcat | fize/orm/mysql.py:44-58 | The placeholders of a concatenation are those of each side, plus one exactly when the seam spells `%s`. |
| SqlText.HoldersPlain | fize/orm/mysql.py:44-53 | Text without `%` holds no placeholder. |
| SqlText.SubstituteNoHolders | fize/orm/mysql.py:44-53 | Substitution leaves text without placeholders unchanged. |
| SqlText.SubstituteConcat | fize/orm/mysql.py:44-58 | Substituting `pa + pb` into `a + b` fills `a` from `pa` and `b` from `pb`. So binds appended after text fill that text. |
| SqlText.SubstituteAround | fize/orm/mysql.py:44-58 | A placeholder-free link between two aligned texts keeps each side's binds on its own side. |
| SqlText.JoinSlotsAligned | fize/orm/mysql.py:526-530 | A `,`-joined list of `pre + "%s"` items holds one placeholder per value. Substitution puts the k-th value after the k-th prefix. |
| SqlText.JoinHoldersAligned | fize/orm/mysql.py:157-158 | A joined list of bare `%s` holds one placeholder per value. Substitution yields the joined literals in order. |
| SqlText.JoinPlain | fize/orm/mysql.py:403-404 | Joining `%`-free parts with a `%`-free separator gives `%`-free text. |
| SqlText.Upper | fize/orm/mysql.py:34 | Upper-casing keeps the length and maps every character by its ASCII upper case. |
| SqlText.UpperHasNoHolders | fize/orm/mysql.py:34 | An upper-cased combinator can never spell `%s`. |
| SqlText.Repr | fize/orm/mysql.py:83-89 | `str()` of an integer or a boolean is non-empty and free of `%`, so inlining it adds no conversion. |
| SqlText.PlainOnlyHolders | fize/orm/mysql.py:44-53 | Text without `%` has only `%s` conversions, because it has none. |
| SqlText.OnlyHoldersConcat | fize/orm/mysql.py:44-58 | Two texts whose only conversions are `%s` concatenate to such a text. No stray `%` can form a new conversion at the seam. |
| SqlText.JoinOnlyHolders | fize/orm/mysql.py:157-158 | Joining such texts with a `%`-free separator gives such a text. |
| SqlText.IntToString | fize/orm/mysql.py:427-430 | `str(i)` is non-empty and contains neither `%` nor `,`. |
| SqlText.NatToStringRoundTrip | fize/orm/mysql.py:427-430 | The decimal digits of a natural number read back as that number. |
| SqlText.IntToStringRoundTrip | fize/orm/mysql.py:427-430 | `str(i)` reads back as `i`, sign included. |
| MysqlQuery.Connective | fize/orm/mysql.py:44-53 | `__add_part` inserts nothing between the text and the fragment exactly when this is the first fragment and there is no target. |
| MysqlQuery.ConditionPart | fize/orm/mysql.py:78-89 | The fragment `condition` hands to `exp` starts with `judge` and a space. Its binds are: none for `bind=False`; the value alone when there is no bind and the value is a string, and none otherwise; the given bind in every other case. |
| MysqlQuery.HolderList | fize/orm/mysql.py:157-158 | The `%s, %s, …` list has no `%` conversion other than its placeholders. |
| MysqlQuery.InPart | fize/orm/mysql.py:156-163 | The `IN` fragment always starts with the keyword and `(`, and ends with `)`. It binds the list, or nothing for a text. |
| MysqlQuery.Bound | fize/orm/mysql.py:54-58 | The values `__add_part` adds to params: the list itself, the single value, or nothing for `None`. |
| MysqlQuery.ExistsBind | fize/orm/mysql.py:134-135 | `exists` and `not_exists` bind nothing for `bind=False`, and otherwise pass the bind on unchanged. |
| MysqlQuery.ConnectiveCases | fize/orm/mysql.py:44-53 | Lists the four shapes `__add_part` gives the text: first or later fragment, with or without a target. |
| MysqlQuery.Query.constructor | fize/orm/mysql.py:8-26 | The target is back-quoted only when requested. The text and binds are taken as given. The combinator is `AND`. |
| MysqlQuery.Query.CombineLogic | fize/orm/mysql.py:28-35 | The combinator is stored upper-cased and never spells a placeholder. |
| MysqlQuery.Query.AddPart | fize/orm/mysql.py:37-58 | The old text is kept as a prefix. The new fragment follows the combinator (except on the first fragment) and the target. The binds become the old binds plus the bind argument. A balanced query stays balanced when the fragment carries one placeholder per bind. A text whose only conversions are `%s` keeps that property when the fragment has it. |
| MysqlQuery.Query.Exp | fize/orm/mysql.py:60-68 | Appends the expression and its binds exactly as `AddPart` does. |
| MysqlQuery.Query.Condition | fize/orm/mysql.py:70-89 | With `bind=False` nothing is bound. With no bind, a string value is bound through `%s` and any other value is inlined. Any other bind argument is appended as given. |
| MysqlQuery.Query.Between | fize/orm/mysql.py:91-101 | Appends `BETWEEN %s AND %s` and binds both values in order. |
| MysqlQuery.Query.NotBetween | fize/orm/mysql.py:196-206 | Appends `NOT BETWEEN %s AND %s` and binds both values in order. |
| MysqlQuery.Query.Egt | fize/orm/mysql.py:103-109 | A `>=` condition, auto-bound: it binds the value exactly when the value is a string. |
| MysqlQuery.Query.Elt | fize/orm/mysql.py:111-117 | A `<=` condition, auto-bound. |
| MysqlQuery.Query.Eq | fize/orm/mysql.py:119-125 | An `=` condition, auto-bound. |
| MysqlQuery.Query.Gt | fize/orm/mysql.py:142-148 | A `>` condition, auto-bound. |
| MysqlQuery.Query.Lt | fize/orm/mysql.py:180-186 | A `<` condition, auto-bound. |
| MysqlQuery.Query.Neq | fize/orm/mysql.py:188-194 | A `<>` condition, auto-bound. |
| MysqlQuery.Query.Like | fize/orm/mysql.py:172-178 | A `LIKE` condition, auto-bound. |
| MysqlQuery.Query.NotLike | fize/orm/mysql.py:238-244 | A `NOT LIKE` condition, auto-bound. |
| MysqlQuery.Query.Exists | fize/orm/mysql.py:127-140 | Appends `EXISTS(…)` with no target in front. The target is the same afterwards. `bind=False` binds nothing. |
| MysqlQuery.Query.NotExists | fize/orm/mysql.py:208-221 | Appends `NOT EXISTS(…)` under the same rules as `Exists`. |
| MysqlQuery.Query.IsIn | fize/orm/mysql.py:150-163 | A list appends `IN(%s, %s, …)` and extends the binds with the list in order. A text is wrapped in parentheses unless it already has them, and binds nothing. |
| MysqlQuery.Query.NotIn | fize/orm/mysql.py:223-236 | The same as `IsIn`, with `NOT IN`. |
| MysqlQuery.Query.IsNull | fize/orm/mysql.py:165-170 | Appends `IS NULL` and binds nothing. |
| MysqlQuery.Query.NotNull | fize/orm/mysql.py:246-251 | Appends `IS NOT NULL` and binds nothing. |
| MysqlQuery.Query.And | fize/orm/mysql.py:268-276 | The result is a fresh query: text `(a) AND (b)`, binds `a.params + b.params`, no target, combinator `AND`. The operands are unchanged. |
| MysqlQuery.Query.Or | fize/orm/mysql.py:278-286 | The same as `And`, with `OR`. Both keep the property that the only conversions are `%s`. |
| MysqlQuery.ConnectiveShape | fize/orm/mysql.py:44-53 | The text `__add_part` inserts between fragments holds no placeholder. It starts with a space after the first fragment and ends with a space when it is not empty. |
| MysqlQuery.AppendHolders | fize/orm/mysql.py:37-58 | Appending a fragment with one placeholder per bind keeps the count of placeholders equal to the count of binds. |
| MysqlQuery.AppendAligned | fize/orm/mysql.py:37-58 | After an append, substituting all binds equals substituting the old text and the new fragment separately: bind order follows text order. |
| MysqlQuery.AppendOnlyHolders | fize/orm/mysql.py:37-58 | Appending a fragment whose only conversions are `%s`, with a `%`-free combinator and target, keeps that property for the query's text. |
| MysqlQuery.CombineOnlyHolders | fize/orm/mysql.py:268-286 | `(a) AND (b)` and `(a) OR (b)` keep the property when both operands have it. |
| MysqlQuery.CombineAligned | fize/orm/mysql.py:268-286 | `(a) AND (b)` and `(a) OR (b)` stay aligned. Substitution fills `a` with `a`'s binds and `b` with `b`'s. |
| MysqlQuery.ConditionAutoBind | fize/orm/mysql.py:84-89 | With no bind, a string adds `judge %s` and exactly that one bind. Any other value is inlined by `str()` and adds none. Either way the filled text is `judge` followed by the value. |
| MysqlQuery.ConditionNotBound | fize/orm/mysql.py:78-83 | With `bind=False` nothing is bound, and string values are single-quoted. |
| MysqlQuery.HolderListAligned | fize/orm/mysql.py:157-158 | The placeholder list holds one `%s` per value, separated by `", "`, and fills with the values in order. |
| MysqlQuery.InListAligned | fize/orm/mysql.py:156-158 | `IN(…)` with a list binds exactly the list, holds one placeholder per element, and fills in list order. |
| MysqlQuery.InTextParenthesesOptional | fize/orm/mysql.py:159-163 | A text with or without its surrounding parentheses renders the same `IN(…)`, with no binds. |
| MysqlOrm.OrmMysql.constructor | fize/orm/mysql.py:294-326 | Every clause, bind list and SQL text starts empty, and no table is chosen. |
| MysqlOrm.OrmMysql.Table | fize/orm/mysql.py:342-354 | Sets the table name. The prefix is the given one, or empty when none is given. Nothing else changes. |
| MysqlOrm.OrmMysql.Alias | fize/orm/mysql.py:356-363 | Replaces the alias. Nothing else changes. |
| MysqlOrm.OrmMysql.JoinTable | fize/orm/mysql.py:365-377 | Appends `" " + type + " " + table + on` to the joins, so joins accumulate in call order. |
| MysqlOrm.OrmMysql.LeftJoin | fize/orm/mysql.py:379-386 | Appends a `LEFT JOIN`. |
| MysqlOrm.OrmMysql.RightJoin | fize/orm/mysql.py:388-395 | Appends a `RIGHT JOIN`. |
| MysqlOrm.OrmMysql.Group | fize/orm/mysql.py:397-409 | Sets GROUP BY to the field text when it was empty, or else appends `,` and the text. |
| MysqlOrm.OrmMysql.Order | fize/orm/mysql.py:411-418 | Replaces ORDER BY. |
| MysqlOrm.OrmMysql.Limit | fize/orm/mysql.py:420-431 | LIMIT becomes `str(rows)`, or `str(offset) + "," + str(rows)`. |
| MysqlOrm.OrmMysql.Page | fize/orm/mysql.py:433-442 | LIMIT becomes `str((index-1)*size) + "," + str(size)`. |
| MysqlOrm.OrmMysql.Union | fize/orm/mysql.py:444-455 | Appends ` UNION (…)` or ` UNION ALL (…)`. The union text keeps its leading space. |
| MysqlOrm.OrmMysql.Where | fize/orm/mysql.py:457-470 | A text condition replaces the WHERE text and its binds. |
| MysqlOrm.OrmMysql.WhereQuery | fize/orm/mysql.py:457-466 | A `Query` condition sets WHERE to the query's text and binds. A balanced query leaves the WHERE clause aligned. |
| MysqlOrm.OrmMysql.Having | fize/orm/mysql.py:472-473 | Changes nothing. |
| MysqlOrm.OrmMysql.Field | fize/orm/mysql.py:475-486 | Sets the field list: `*` when none is given, otherwise the joined list or the text. |
| MysqlOrm.OrmMysql.BuildSql | fize/orm/mysql.py:488-560 | The returned and stored SQL is `Render`. DELETE/SELECT params become where+having. INSERT/REPLACE append the values in key order, and UPDATE appends the values, then where, then having. TRUNCATE and unknown actions keep params. Only DELETE, SELECT and UPDATE update `last_sql`. |
| MysqlOrm.OrmMysql.AppendTrailer | fize/orm/mysql.py:535-549 | Appends alias, joins, WHERE, GROUP BY, HAVING, unions, ORDER BY and LIMIT in that order, each only when non-empty. |
| MysqlOrm.OrmMysql.ClearEnvironment | fize/orm/mysql.py:562-585 | Every clause, the field list, the SQL text and all bind lists become empty. The table, prefix and `last_sql` are kept. |
| MysqlOrm.OrmMysql.Add | fize/orm/mysql.py:611-620 | Sends the rendered INSERT with its binds and returns the executor's result. It then clears, leaving `last_sql` untouched. |
| MysqlOrm.OrmMysql.Replace | fize/orm/mysql.py:622-631 | The same as `Add`, for REPLACE. |
| MysqlOrm.OrmMysql.Select | fize/orm/mysql.py:633-643 | Sets the fields, sends the rendered SELECT, returns the rows, and clears. `last_sql` becomes the sent SQL. |
| MysqlOrm.OrmMysql.Find | fize/orm/mysql.py:645-659 | Like `Select` with LIMIT 1. It returns the first row, or none when there is no row. |
| MysqlOrm.OrmMysql.Delete | fize/orm/mysql.py:661-669 | Sends the rendered DELETE and returns the affected count. It then clears. |
| MysqlOrm.OrmMysql.Truncate | fize/orm/mysql.py:671-678 | Sends `TRUNCATE TABLE` with no binds, then clears. The source returns nothing; the model returns the statement it sends, and the executor's result is dropped. |
| MysqlOrm.OrmMysql.Update | fize/orm/mysql.py:680-689 | Sends the rendered UPDATE and returns the affected count. It then clears. |
| MysqlOrm.NamesText | fize/orm/mysql.py:403-404 | The text of a `group` or `field` argument: a list joined by `,`, or the text itself. |
| MysqlOrm.GroupStep | fize/orm/mysql.py:405-408 | One `group` call: the new text when GROUP BY was empty, otherwise the old text, a `,` and the new text. |
| MysqlOrm.ClauseShape | fize/orm/mysql.py:535-549 | `Clause`: a trailer clause is absent exactly when its text is empty, and otherwise it is the keyword followed by the text. |
| MysqlOrm.Head | fize/orm/mysql.py:495-531 | The part of the statement `__build_sql` writes for the action: the whole statement for INSERT, REPLACE and TRUNCATE, the part before the trailer otherwise. Its properties are `HeadStartsWithAction`, `HeadOnlyHolders`, `InsertAligned` and `UpdateHeadAligned`. |
| MysqlOrm.WithTrailer | fize/orm/mysql.py:535-549 | The head followed by alias, joins, WHERE, GROUP BY, HAVING, unions, ORDER BY and LIMIT, in that order. Its properties are `TrailerKeepsHead`, `TrailerAligned` and `TrailerOnlyHolders`. |
| MysqlOrm.Binds | fize/orm/mysql.py:495-531 | The binds of the statement, in placeholder order. Its properties are `BindsOrder` and the alignment lemmas. |
| MysqlOrm.Render | fize/orm/mysql.py:488-552 | The statement and binds `__build_sql` produces from a clause state. `BuildSql` is proved to produce it; its properties are `RenderStartsWithAction`, `RenderAligned` and `RenderOnlyHolders`. |
| MysqlOrm.HeadStartsWithAction | fize/orm/mysql.py:495-531 | `Head`, the part `__build_sql` writes before the trailer, starts with the action's verb. |
| MysqlOrm.TrailerKeepsHead | fize/orm/mysql.py:535-549 | `WithTrailer` only appends: the head is a prefix of the statement. |
| MysqlOrm.RenderStartsWithAction | fize/orm/mysql.py:488-552 | `Render`, the statement `__build_sql` returns, is empty exactly for an unknown action. Otherwise it starts with the action's verb, the prefix `query` dispatches on. |
| MysqlOrm.BindsOrder | fize/orm/mysql.py:495-531 | `Binds`: INSERT, REPLACE and UPDATE bind the data values first, in key order. DELETE, SELECT and UPDATE end with the WHERE binds, then the HAVING binds. TRUNCATE and unknown actions bind nothing. |
| MysqlOrm.Cleared | fize/orm/mysql.py:562-585 | The cleared clause state keeps the table name and prefix, and it is a well-formed trailer. |
| MysqlOrm.LimitText | fize/orm/mysql.py:427-430 | The LIMIT text is never empty and contains no `%`. |
| MysqlOrm.ClauseStep | fize/orm/mysql.py:535-549 | Each `if text != "": sql += keyword + text` step appends exactly `Clause(keyword, text)`. |
| MysqlOrm.PlainClauseAligned | fize/orm/mysql.py:535-549 | A `%`-free clause appended to aligned text keeps it aligned and passes through substitution unchanged. |
| MysqlOrm.BoundClauseAligned | fize/orm/mysql.py:539-544 | A WHERE or HAVING clause appended with its binds keeps the statement aligned and is filled with its own binds. |
| MysqlOrm.TrailerAligned | fize/orm/mysql.py:531-549 | Head, then trailer: placeholders equal head binds, then where, then having. Substitution fills the head and each clause with its own binds. |
| MysqlOrm.InsertAligned | fize/orm/mysql.py:498-517 | INSERT/REPLACE bind the values in key order, one `%s` each, and fill the VALUES list with them. |
| MysqlOrm.UpdateHeadAligned | fize/orm/mysql.py:525-530 | The SET list holds one placeholder per key, each filled by that key's value. |
| MysqlOrm.UpdateAligned | fize/orm/mysql.py:525-531 | UPDATE params are the set values, then where-params, then having-params. They match the placeholders one for one, in text order. |
| MysqlOrm.FilterAligned | fize/orm/mysql.py:495-520 | DELETE/SELECT params are where then having. They match the placeholders, and the head takes none. |
| MysqlOrm.RenderAligned | fize/orm/mysql.py:488-552 | For every action, the rendered statement holds exactly as many `%s` as it has binds. |
| MysqlOrm.RenderOnlyHolders | fize/orm/mysql.py:488-552 | Suppose the WHERE and HAVING texts have only `%s` conversions. Then every rendered statement has only `%s` conversions, so the driver formats it the way `Substitute` does. |
| MysqlOrm.HeadOnlyHolders | fize/orm/mysql.py:495-531 | Every statement head has no `%` conversion other than its `%s` placeholders. |
| MysqlOrm.ClauseOnlyHolders | fize/orm/mysql.py:535-549 | Appending a clause keyword and its text to a statement keeps the property that the only conversions are `%s`. |
| MysqlOrm.TrailerOnlyHolders | fize/orm/mysql.py:535-549 | The trailer adds no `%` conversion beyond those of the WHERE and HAVING texts. |
| MysqlOrm.TruncateIgnoresClauses | fize/orm/mysql.py:521-524 | TRUNCATE renders only the table: alias, joins, where, order and data do not matter. |
| MysqlOrm.ClearedTrailerEmpty | fize/orm/mysql.py:562-585 | After a clear, every statement renders as its head alone. |
| MysqlOrm.JoinDoubleSpace | fize/orm/mysql.py:365-377 | On an unaliased table, a join follows the head after two spaces. |
| MysqlOrm.LimitRoundTrip | fize/orm/mysql.py:420-431 | The LIMIT text reads back as the offset (when given) and the row count. |
| MysqlOrm.PageRoundTrip | fize/orm/mysql.py:433-442 | `page(i, s)` reads back as offset `(i-1)*s` and row count `s`. |
| MysqlOrm.GroupStepsJoin | fize/orm/mysql.py:397-409 | Starting from an empty GROUP BY, when the first text is not empty, repeated `group` calls give the comma-separated list of their texts, in call order. |

## Left out

- The pymysql connection is left out: connect in `__init__`, close in `__del__`, `prototype`, and the cursor handling in `query`. It is network I/O through a library outside this model. The terminal actions take the executor as the parameter `run`, and its results (row id, rows, affected count) are opaque. `Truncate` takes none: it returns the statement it sends, because `truncate` drops the executor's result (line 677).
- The driver's value rendering is left out. It is the parameter `lit`.
- SqlText.Substitute: only `%s` conversions are modelled. `Holders` and `Substitute` treat any other `%` sequence (`%%`, `%d`, `%(`) as plain text, while the driver's Python `%` formatting reads it as a conversion of its own. The two agree on text where every `%` opens a `%s` (`SqlText.OnlyHolders`). The Query lemmas (`AppendAligned`, `CombineAligned`, `SubstituteConcat`) are facts about `Substitute` for any text. `AppendOnlyHolders` and `CombineOnlyHolders` show that a query stays in the driver's domain, and `RenderOnlyHolders` shows that every rendered statement does. `TrailerWellFormed` asks it of the WHERE and HAVING texts.
- Python list aliasing is left out. The source has class-level lists for `__params`, `__whereParams` and `__havingParams` that all instances share. `where(Query)` stores the query's own list, so a later clear also empties that query's binds. The model keeps per-instance value sequences instead.
- `OrmMysql` holds its clause attributes in one record field, `clauses`. Each setter still changes exactly the attribute the source changes, and its contract says which.
- MysqlQuery.Query.Between: the branch where neither value is a string is excluded by a precondition. There the source concatenates `value1 + " AND " + value2`, which raises a TypeError for non-strings. The same holds for `NotBetween`.
- MysqlQuery.Query.IsIn: a text argument must be non-empty, since the source reads `values[0]`. The same holds for `NotIn`.
- MysqlOrm.OrmMysql.BuildSql: for a known action it requires a table name. Without one the source raises a TypeError while concatenating `None`.
- MysqlOrm.OrmMysql.BuildSql: INSERT, REPLACE and UPDATE append to the old params, as in the source. The terminal actions require params to be empty on entry, which holds initially and after every clear.
- MysqlOrm.OrmMysql.Add: a failing database call is not modelled. The same holds for `Replace`, `Select`, `Find`, `Delete`, `Update` and `Truncate`. In the source, when `self.query(...)` raises (lines 618, 629, 641, 654, 667, 677, 687), `__clear_environment` is skipped. The clause text, the WHERE binds and any params appended for INSERT, REPLACE or UPDATE then carry into the next statement. The executor `run` is total, and `Valid()` assumes every earlier action cleared.
- MysqlOrm.OrmMysql.BuildSql: `datadict=None` for INSERT, REPLACE or UPDATE is not modelled. The source raises AttributeError at `datadict.items()` (lines 501, 511, 527), and the model's `data` is always a sequence.
- `datadict` is modelled as a sequence of key/value pairs in the order `items()` yields them.
- `str.upper` is ASCII only. Non-ASCII case mapping is left out.
- The `__str__` and `params` properties of `Query` are read through the fields `sql` and `bind`. The `last_sql` property is read through the field `lastSql`.
- `fize/utils/cache.py` and `fize/decorator/logit.py` are not part of this model. They are filesystem, clock and logging side effects.
