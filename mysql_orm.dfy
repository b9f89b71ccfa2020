/** The clause-accumulating statement builder `OrmMysql` of
    fize/orm/mysql.py, without its database connection: chained setters fill
    clause fields, `BuildSql` renders one statement and its positional bind
    list, `ClearEnvironment` resets the clauses, and each terminal action is
    build, then execute (an executor passed in), then clear. */
module MysqlOrm {
  import opened SqlText
  import MysqlQuery

  /** A statement as handed to the connection: text plus positional binds. */
  datatype Statement = Statement(sql: string, params: seq<Value>)

  /** The argument of `group` and `field`: a list of names or a ready-made text. */
  datatype Names = List(items: seq<string>) | Text(s: string)

  /** `",".join(names)` for a list, the text itself otherwise. */
  function NamesText(n: Names): string {
    match n
    case List(items) => Join(",", items)
    case Text(s) => s
  }

  /** The clause state a statement is rendered from. */
  datatype Clauses = Clauses(prefix: string, name: Option<string>, alias: string, join: string,
                             whereClause: string, group: string, having: string, union: string,
                             order: string, limit: string, fields: string,
                             whereParams: seq<Value>, havingParams: seq<Value>)

  /** A trailer clause is written only when its text is not empty. */
  function Clause(keyword: string, text: string): string {
    if text == "" then "" else keyword + text
  }

  /** A clause is absent exactly when its text is empty; otherwise it is the
      keyword followed by the text. */
  lemma ClauseShape(keyword: string, text: string)
    ensures Clause(keyword, text) == "" <==> text == ""
    ensures text != "" ==> keyword <= Clause(keyword, text) && Clause(keyword, text)[|keyword|..] == text
  {
  }

  /** `head` followed by the clause trailer in its fixed order: alias, joins,
      WHERE, GROUP BY, HAVING, unions (always appended), ORDER BY, LIMIT. */
  function WithTrailer(head: string, c: Clauses): string {
    head + Clause(" AS ", c.alias) + Clause(" ", c.join) + Clause(" WHERE ", c.whereClause)
    + Clause(" GROUP BY ", c.group) + Clause(" HAVING ", c.having) + c.union
    + Clause(" ORDER BY ", c.order) + Clause(" LIMIT ", c.limit)
  }

  predicate IsAction(action: string) {
    action == "DELETE" || action == "INSERT" || action == "REPLACE"
    || action == "SELECT" || action == "TRUNCATE" || action == "UPDATE"
  }

  /** The keys of `datadict.items()`, in order. */
  function Keys(data: seq<(string, Value)>): (r: seq<string>)
    ensures |r| == |data| && forall i :: 0 <= i < |data| ==> r[i] == data[i].0
  {
    seq(|data|, i requires 0 <= i < |data| => data[i].0)
  }

  /** The values of `datadict.items()`, in order. */
  function Values(data: seq<(string, Value)>): (r: seq<Value>)
    ensures |r| == |data| && forall i :: 0 <= i < |data| ==> r[i] == data[i].1
  {
    seq(|data|, i requires 0 <= i < |data| => data[i].1)
  }

  /** The left-hand sides "`key`=" of an UPDATE's SET list. */
  function SetTargets(keys: seq<string>): (r: seq<string>)
    ensures |r| == |keys| && forall i :: 0 <= i < |keys| ==> r[i] == "`" + keys[i] + "`="
  {
    seq(|keys|, i requires 0 <= i < |keys| => "`" + keys[i] + "`=")
  }

  /** The actions whose statement is followed by the clause trailer. */
  predicate HasTrailer(action: string) {
    action == "DELETE" || action == "SELECT" || action == "UPDATE"
  }

  /** The part of the statement that depends on the action: the whole
      statement for INSERT, REPLACE and TRUNCATE, the part before the trailer
      for the others. */
  function Head(c: Clauses, action: string, data: seq<(string, Value)>): string
    requires IsAction(action) && c.name.Some?
  {
    if action == "DELETE" then
      "DELETE FROM `" + c.prefix + c.name.value + "`"
    else if action == "INSERT" || action == "REPLACE" then
      action + " INTO `" + c.prefix + c.name.value + "` (`" + Join("`,`", Keys(data))
      + "`) VALUES (" + Join(",", Repeat("%s", |data|)) + ")"
    else if action == "SELECT" then
      "SELECT " + c.fields + " FROM `" + c.prefix + c.name.value + "`"
    else if action == "TRUNCATE" then
      "TRUNCATE TABLE `" + c.prefix + c.name.value + "`"
    else
      "UPDATE `" + c.prefix + c.name.value + "` SET "
      + Join(",", Slots(SetTargets(Keys(data)), Repeat("%s", |data|)))
  }

  /** The binds the statement takes, in placeholder order. */
  function Binds(c: Clauses, action: string, data: seq<(string, Value)>): seq<Value> {
    if action == "DELETE" || action == "SELECT" then c.whereParams + c.havingParams
    else if action == "INSERT" || action == "REPLACE" then Values(data)
    else if action == "UPDATE" then Values(data) + (c.whereParams + c.havingParams)
    else []
  }

  /** The statement `__build_sql(action, datadict)` renders from clause
      state `c`, with the binds it contributes; an unknown action gives an
      empty statement. */
  function Render(c: Clauses, action: string, data: seq<(string, Value)>): Statement
    requires IsAction(action) ==> c.name.Some?
  {
    if !IsAction(action) then Statement("", [])
    else if HasTrailer(action) then Statement(WithTrailer(Head(c, action, data), c), Binds(c, action, data))
    else Statement(Head(c, action, data), Binds(c, action, data))
  }

  /** A known action renders a statement that starts with its own verb, the
      prefix `query` dispatches on; an unknown action renders nothing. */
  lemma RenderStartsWithAction(c: Clauses, action: string, data: seq<(string, Value)>)
    requires IsAction(action) ==> c.name.Some?
    ensures Render(c, action, data).sql == "" <==> !IsAction(action)
    ensures IsAction(action) ==> action <= Render(c, action, data).sql
  {
    if IsAction(action) {
      HeadStartsWithAction(c, action, data);
      if HasTrailer(action) {
        TrailerKeepsHead(Head(c, action, data), c);
      }
    }
  }

  /** Every head starts with its action's verb. */
  lemma HeadStartsWithAction(c: Clauses, action: string, data: seq<(string, Value)>)
    requires IsAction(action) && c.name.Some?
    ensures action <= Head(c, action, data)
  {
  }

  /** The trailer only ever appends: the head is a prefix of the statement. */
  lemma TrailerKeepsHead(head: string, c: Clauses)
    ensures head <= WithTrailer(head, c)
  {
  }

  /** The order of binds: the data values first (INSERT, REPLACE, UPDATE),
      the WHERE then HAVING binds last (DELETE, SELECT, UPDATE), none for
      TRUNCATE or an unknown action. */
  lemma BindsOrder(c: Clauses, action: string, data: seq<(string, Value)>)
    ensures HasTrailer(action) ==>
              (|c.whereParams + c.havingParams| <= |Binds(c, action, data)|
               && Binds(c, action, data)[|Binds(c, action, data)| - |c.whereParams + c.havingParams|..]
                  == c.whereParams + c.havingParams)
    ensures (action == "INSERT" || action == "REPLACE" || action == "UPDATE") ==>
              (|data| <= |Binds(c, action, data)| && Binds(c, action, data)[..|data|] == Values(data))
    ensures !IsAction(action) || action == "TRUNCATE" ==> Binds(c, action, data) == []
  {
  }

  /** The clause state `__clear_environment` leaves: every clause and bind list
      empty, the table name and prefix kept. */
  function Cleared(c: Clauses): (r: Clauses)
    ensures r.prefix == c.prefix && r.name == c.name
    ensures TrailerWellFormed(r)
  {
    Clauses(c.prefix, c.name, "", "", "", "", "", "", "", "", "", [], [])
  }

  /** `limit(rows, offset)`'s text: "rows" or "offset,rows". */
  function LimitText(rows: int, offset: Option<int>): (r: string)
    ensures r != "" && Plain(r)
  {
    if offset.None? then IntToString(rows) else IntToString(offset.value) + "," + IntToString(rows)
  }

  function IndexOf(s: string, c: char): (k: nat)
    ensures k <= |s|
    ensures forall i :: 0 <= i < k ==> s[i] != c
    ensures k < |s| ==> s[k] == c
  {
    if s == [] then 0 else if s[0] == c then 0 else 1 + IndexOf(s[1..], c)
  }

  /** How MySQL reads a LIMIT argument back: optional offset, then row count. */
  function ParseLimit(s: string): Option<(Option<int>, int)> {
    var k := IndexOf(s, ',');
    if k == |s| then
      match ParseInt(s)
      case Some(r) => Some((None, r))
      case None => None
    else
      match (ParseInt(s[..k]), ParseInt(s[k + 1..]))
      case (Some(o), Some(r)) => Some((Some(o), r))
      case _ => None
  }

  class OrmMysql {
    /** The clause attributes of the builder, one record member per attribute. */
    var clauses: Clauses
    /** The bind list of the statement being built. */
    var params: seq<Value>
    /** The statement being built. */
    var sql: string
    /** The last statement built with a trailer, as `last_sql` reports it. */
    var lastSql: string

    /** Between terminal actions the working statement and its binds are
        empty, HAVING is never populated, and the union text starts with a
        space. */
    ghost predicate Valid()
      reads this
    {
      params == [] && sql == "" && clauses.having == "" && clauses.havingParams == []
      && (clauses.union == "" || clauses.union[0] == ' ')
    }

    /** The attribute defaults of the class; opening the connection is not modelled. */
    constructor()
      ensures Valid() && lastSql == ""
      ensures clauses == Clauses("", None, "", "", "", "", "", "", "", "", "", [], [])
    {
      clauses := Clauses("", None, "", "", "", "", "", "", "", "", "", [], []);
      params, sql, lastSql := [], "", "";
    }

    method Table(name: string, prefix: Option<string>)
      modifies this`clauses
      ensures clauses == old(clauses).(name := Some(name), prefix := if prefix.Some? then prefix.value else "")
    {
      clauses := clauses.(name := Some(name));
      if prefix.Some? {
        clauses := clauses.(prefix := prefix.value);
      } else {
        clauses := clauses.(prefix := "");
      }
    }

    method Alias(a: string)
      modifies this`clauses
      ensures clauses == old(clauses).(alias := a)
    {
      clauses := clauses.(alias := a);
    }

    /** Joins accumulate in call order, each starting with a space. */
    method JoinTable(table: string, on: string, joinType: string)
      modifies this`clauses
      ensures clauses == old(clauses).(join := old(clauses).join + " " + joinType + " " + table + on)
    {
      var piece := " " + joinType + " " + table;
      if on != "" {
        piece := piece + on;
      }
      clauses := clauses.(join := clauses.join + piece);
    }

    method LeftJoin(table: string, on: string)
      modifies this`clauses
      ensures clauses == old(clauses).(join := old(clauses).join + " LEFT JOIN " + table + on)
    {
      JoinTable(table, on, "LEFT JOIN");
    }

    method RightJoin(table: string, on: string)
      modifies this`clauses
      ensures clauses == old(clauses).(join := old(clauses).join + " RIGHT JOIN " + table + on)
    {
      JoinTable(table, on, "RIGHT JOIN");
    }

    method Group(names: Names)
      modifies this`clauses
      ensures clauses == old(clauses).(group := GroupStep(old(clauses).group, NamesText(names)))
    {
      var text := NamesText(names);
      if clauses.group == "" {
        clauses := clauses.(group := text);
      } else {
        clauses := clauses.(group := clauses.group + "," + text);
      }
    }

    method Order(o: string)
      modifies this`clauses
      ensures clauses == old(clauses).(order := o)
    {
      clauses := clauses.(order := o);
    }

    method Limit(rows: int, offset: Option<int>)
      modifies this`clauses
      ensures clauses == old(clauses).(limit := LimitText(rows, offset))
    {
      if offset.None? {
        clauses := clauses.(limit := IntToString(rows));
      } else {
        clauses := clauses.(limit := IntToString(offset.value) + "," + IntToString(rows));
      }
    }

    /** 1-based page `index` of `size` rows. */
    method Page(index: int, size: int)
      modifies this`clauses
      ensures clauses == old(clauses).(limit := LimitText(size, Some((index - 1) * size)))
    {
      var rows := size;
      var offset := (index - 1) * size;
      Limit(rows, Some(offset));
    }

    method Union(text: string, all: bool)
      modifies this`clauses
      ensures clauses == old(clauses).(union := old(clauses).union + (if all then " UNION ALL (" else " UNION (") + text + ")")
      ensures old(clauses).union == "" || old(clauses).union[0] == ' ' ==> clauses.union[0] == ' '
    {
      if all {
        clauses := clauses.(union := clauses.union + " UNION ALL (" + text + ")");
      } else {
        clauses := clauses.(union := clauses.union + " UNION (" + text + ")");
      }
    }

    /** `where(stat, *args)` with a text. */
    method Where(stat: string, args: seq<Value>)
      modifies this`clauses
      ensures clauses == old(clauses).(whereClause := stat, whereParams := args)
    {
      clauses := clauses.(whereClause := stat, whereParams := args);
    }

    /** `where(query)`: adopts the query's text and binds, so a balanced
        query gives a balanced WHERE clause. */
    method WhereQuery(q: MysqlQuery.Query)
      modifies this`clauses
      ensures clauses == old(clauses).(whereClause := q.sql, whereParams := q.bind)
      ensures q.Balanced() ==> Holders(clauses.whereClause) == |clauses.whereParams|
    {
      clauses := clauses.(whereClause := q.sql, whereParams := q.bind);
    }

    /** `having(sql)` returns the builder and changes nothing. */
    method Having(text: string)
      ensures unchanged(this)
    {
    }

    method Field(names: Option<Names>)
      modifies this`clauses
      ensures clauses == old(clauses).(fields := if names.None? then "*" else NamesText(names.value))
    {
      if names.None? {
        clauses := clauses.(fields := "*");
      } else {
        clauses := clauses.(fields := NamesText(names.value));
      }
    }

    method BuildSql(action: string, data: seq<(string, Value)>) returns (r: string)
      requires IsAction(action) ==> clauses.name.Some?
      modifies this`params, this`sql, this`lastSql
      ensures r == sql == Render(clauses, action, data).sql
      ensures action == "DELETE" || action == "SELECT" ==> params == Binds(clauses, action, data)
      ensures action == "INSERT" || action == "REPLACE" || action == "UPDATE"
              ==> params == old(params) + Binds(clauses, action, data)
      ensures !IsAction(action) || action == "TRUNCATE" ==> params == old(params)
      ensures lastSql == (if HasTrailer(action) then r else old(lastSql))
    {
      var c := clauses;
      var s: string;
      if action == "DELETE" {
        s := "DELETE FROM `" + c.prefix + c.name.value + "`";
        params := c.whereParams + c.havingParams;
      } else if action == "INSERT" || action == "REPLACE" {
        // the source spells out the same loop for INSERT and for REPLACE
        var keys: seq<string> := [];
        var holder: seq<string> := [];
        for i := 0 to |data|
          invariant keys == Keys(data[..i])
          invariant holder == Repeat("%s", i)
          invariant params == old(params) + Values(data[..i])
          invariant lastSql == old(lastSql)
        {
          KeysValuesStep(data, i);
          keys := keys + [data[i].0];
          params := params + [data[i].1];
          holder := holder + ["%s"];
        }
        assert data[..|data|] == data;
        s := action + " INTO `" + c.prefix + c.name.value + "` (`" + Join("`,`", keys)
             + "`) VALUES (" + Join(",", holder) + ")";
        sql := s;
        return s;
      } else if action == "SELECT" {
        s := "SELECT " + c.fields + " FROM `" + c.prefix + c.name.value + "`";
        params := c.whereParams + c.havingParams;
      } else if action == "TRUNCATE" {
        s := "TRUNCATE TABLE `" + c.prefix + c.name.value + "`";
        sql := s;
        return s;
      } else if action == "UPDATE" {
        var parts: seq<string> := [];
        for i := 0 to |data|
          invariant parts == Slots(SetTargets(Keys(data[..i])), Repeat("%s", i))
          invariant params == old(params) + Values(data[..i])
        {
          SetPartsStep(data, i);
          KeysValuesStep(data, i);
          parts := parts + ["`" + data[i].0 + "`=" + "%s"];
          params := params + [data[i].1];
        }
        assert data[..|data|] == data;
        s := "UPDATE `" + c.prefix + c.name.value + "` SET " + Join(",", parts);
        ghost var before := params;
        params := params + (c.whereParams + c.havingParams);
        assert params == old(params) + Binds(c, action, data) by {
          assert before == old(params) + Values(data);
        }
      } else {
        sql := "";
        return "";
      }
      assert s == Head(c, action, data);
      s := AppendTrailer(s);
      sql := s;
      lastSql := s;
      r := s;
    }

    /** The clause trailer of `__build_sql`, appended in its fixed order. */
    method AppendTrailer(head: string) returns (s: string)
      ensures s == WithTrailer(head, clauses)
    {
      var c := clauses;
      s := head;
      ghost var s0 := s;
      if c.alias != "" {
        s := s + " AS " + c.alias;
      }
      ClauseStep(s0, " AS ", c.alias, s);
      s0 := s;
      if c.join != "" {
        s := s + " " + c.join;
      }
      ClauseStep(s0, " ", c.join, s);
      s0 := s;
      if c.whereClause != "" {
        s := s + " WHERE " + c.whereClause;
      }
      ClauseStep(s0, " WHERE ", c.whereClause, s);
      s0 := s;
      if c.group != "" {
        s := s + " GROUP BY " + c.group;
      }
      ClauseStep(s0, " GROUP BY ", c.group, s);
      s0 := s;
      if c.having != "" {
        s := s + " HAVING " + c.having;
      }
      ClauseStep(s0, " HAVING ", c.having, s);
      s := s + c.union;
      s0 := s;
      if c.order != "" {
        s := s + " ORDER BY " + c.order;
      }
      ClauseStep(s0, " ORDER BY ", c.order, s);
      s0 := s;
      if c.limit != "" {
        s := s + " LIMIT " + c.limit;
      }
      ClauseStep(s0, " LIMIT ", c.limit, s);
    }

    /** `__clear_environment`: empties every clause and bind list; the table,
        its prefix and the last statement survive. */
    method ClearEnvironment()
      modifies this`clauses, this`sql, this`params
      ensures clauses == Cleared(old(clauses))
      ensures params == [] && sql == ""
    {
      clauses := clauses.(alias := "", join := "", whereClause := "", group := "", having := "",
                          fields := "", order := "", limit := "", union := "");
      sql := "";
      clauses := clauses.(havingParams := [], whereParams := []);
      params := [];
    }

    /** `add(datadict)`: INSERT, execute, clear; returns the generated id. */
    method Add(data: seq<(string, Value)>, run: Statement -> int) returns (sent: Statement, newId: int)
      requires Valid() && clauses.name.Some?
      modifies this
      ensures Valid()
      ensures sent == Render(old(clauses), "INSERT", data) && newId == run(sent)
      ensures clauses == Cleared(old(clauses)) && lastSql == old(lastSql)
    {
      var text := BuildSql("INSERT", data);
      sent := Statement(sql, params);
      newId := run(sent);
      ClearEnvironment();
    }

    /** `replace(datadict)`: REPLACE, execute, clear; returns the generated id. */
    method Replace(data: seq<(string, Value)>, run: Statement -> int) returns (sent: Statement, newId: int)
      requires Valid() && clauses.name.Some?
      modifies this
      ensures Valid()
      ensures sent == Render(old(clauses), "REPLACE", data) && newId == run(sent)
      ensures clauses == Cleared(old(clauses)) && lastSql == old(lastSql)
    {
      var text := BuildSql("REPLACE", data);
      sent := Statement(sql, params);
      newId := run(sent);
      ClearEnvironment();
    }

    /** `select(fields)`: SELECT, execute, clear; returns the rows. */
    method Select<Row>(names: Option<Names>, run: Statement -> seq<Row>) returns (sent: Statement, rows: seq<Row>)
      requires Valid() && clauses.name.Some?
      modifies this
      ensures Valid()
      ensures sent == Render(old(clauses).(fields := if names.None? then "*" else NamesText(names.value)), "SELECT", [])
      ensures rows == run(sent)
      ensures clauses == Cleared(old(clauses)) && lastSql == sent.sql
    {
      Field(names);
      var text := BuildSql("SELECT", []);
      sent := Statement(sql, params);
      rows := run(sent);
      ClearEnvironment();
    }

    /** `find(fields)`: SELECT with LIMIT 1, execute, clear; returns the first
        row or nothing. */
    method Find<Row>(names: Option<Names>, run: Statement -> seq<Row>) returns (sent: Statement, row: Option<Row>)
      requires Valid() && clauses.name.Some?
      modifies this
      ensures Valid()
      ensures sent == Render(old(clauses).(fields := if names.None? then "*" else NamesText(names.value),
                                           limit := "1"), "SELECT", [])
      ensures row == (if |run(sent)| > 0 then Some(run(sent)[0]) else None)
      ensures clauses == Cleared(old(clauses)) && lastSql == sent.sql
    {
      Field(names);
      Limit(1, None);
      assert IntToString(1) == "1";
      var text := BuildSql("SELECT", []);
      sent := Statement(sql, params);
      var rows := run(sent);
      ClearEnvironment();
      if |rows| > 0 {
        row := Some(rows[0]);
      } else {
        row := None;
      }
    }

    /** `delete()`: DELETE, execute, clear; returns the affected-row count. */
    method Delete(run: Statement -> int) returns (sent: Statement, affected: int)
      requires Valid() && clauses.name.Some?
      modifies this
      ensures Valid()
      ensures sent == Render(old(clauses), "DELETE", []) && affected == run(sent)
      ensures clauses == Cleared(old(clauses)) && lastSql == sent.sql
    {
      var text := BuildSql("DELETE", []);
      sent := Statement(sql, params);
      affected := run(sent);
      ClearEnvironment();
    }

    /** `truncate()`: TRUNCATE, execute without binds, clear. */
    method Truncate() returns (sent: Statement)
      requires Valid() && clauses.name.Some?
      modifies this
      ensures Valid()
      ensures sent == Render(old(clauses), "TRUNCATE", [])
      ensures clauses == Cleared(old(clauses)) && lastSql == old(lastSql)
    {
      var text := BuildSql("TRUNCATE", []);
      sent := Statement(sql, []);
      ClearEnvironment();
    }

    /** `update(datadict)`: UPDATE, execute, clear; returns the affected-row count. */
    method Update(data: seq<(string, Value)>, run: Statement -> int) returns (sent: Statement, affected: int)
      requires Valid() && clauses.name.Some?
      modifies this
      ensures Valid()
      ensures sent == Render(old(clauses), "UPDATE", data) && affected == run(sent)
      ensures clauses == Cleared(old(clauses)) && lastSql == sent.sql
    {
      var text := BuildSql("UPDATE", data);
      sent := Statement(sql, params);
      affected := run(sent);
      ClearEnvironment();
    }
  }

  /** What `group` makes of the text so far and a new group text. */
  function GroupStep(acc: string, text: string): (r: string)
    ensures acc == "" ==> r == text
    ensures acc != "" ==> acc + "," <= r && r[|acc| + 1..] == text
  {
    if acc == "" then text else acc + "," + text
  }

  function GroupSteps(acc: string, texts: seq<string>): string
    decreases |texts|
  {
    if texts == [] then acc else GroupSteps(GroupStep(acc, texts[0]), texts[1..])
  }

  lemma KeysValuesStep(data: seq<(string, Value)>, i: nat)
    requires i < |data|
    ensures Keys(data[..i + 1]) == Keys(data[..i]) + [data[i].0]
    ensures Values(data[..i + 1]) == Values(data[..i]) + [data[i].1]
  {
  }

  lemma SetPartsStep(data: seq<(string, Value)>, i: nat)
    requires i < |data|
    ensures Slots(SetTargets(Keys(data[..i + 1])), Repeat("%s", i + 1))
         == Slots(SetTargets(Keys(data[..i])), Repeat("%s", i)) + ["`" + data[i].0 + "`=" + "%s"]
  {
    KeysValuesStep(data, i);
  }

  /** One step of the trailer: the clause is appended only if its text is
      not empty. */
  lemma ClauseStep(s0: string, keyword: string, text: string, s1: string)
    requires s1 == (if text == "" then s0 else s0 + keyword + text)
    ensures s1 == s0 + Clause(keyword, text)
  {
    if text == "" {
      assert s0 + "" == s0;
    } else {
      Assoc(s0, keyword, text);
    }
  }

  /** The clause texts other than WHERE and HAVING are `%`-free, WHERE and
      HAVING hold one placeholder per bind and no other `%` conversion, and a
      union text starts with a space. */
  predicate TrailerWellFormed(c: Clauses) {
    Plain(c.alias) && Plain(c.join)
    && Holders(c.whereClause) == |c.whereParams| && OnlyHolders(c.whereClause)
    && Plain(c.group) && Holders(c.having) == |c.havingParams| && OnlyHolders(c.having)
    && Plain(c.union) && (c.union == "" || c.union[0] == ' ')
    && Plain(c.order) && Plain(c.limit)
  }

  /** A clause whose binds have been substituted into its text. */
  function FilledClause(keyword: string, text: string, binds: seq<Value>, lit: Value -> string): string {
    if text == "" then "" else keyword + Substitute(text, binds, lit)
  }

  /** The trailer as the server reads it once the connection has substituted
      the binds: WHERE and HAVING filled from their own binds, each clause in
      its place. */
  function FilledTrailer(head: string, c: Clauses, lit: Value -> string): string {
    head + Clause(" AS ", c.alias) + Clause(" ", c.join)
    + FilledClause(" WHERE ", c.whereClause, c.whereParams, lit)
    + Clause(" GROUP BY ", c.group) + FilledClause(" HAVING ", c.having, c.havingParams, lit) + c.union
    + Clause(" ORDER BY ", c.order) + Clause(" LIMIT ", c.limit)
  }

  /** `%`-free text starting with a space passes through substitution. */
  lemma PlainSuffixAligned(acc: string, pa: seq<Value>, piece: string, lit: Value -> string)
    requires Holders(acc) == |pa| && Plain(piece) && (piece == "" || piece[0] == ' ')
    ensures Holders(acc + piece) == |pa|
    ensures Substitute(acc + piece, pa, lit) == Substitute(acc, pa, lit) + piece
  {
    HoldersPlain(piece);
    SubstituteSuffix(acc, piece, pa, lit);
  }

  lemma PlainClauseAligned(acc: string, pa: seq<Value>, keyword: string, text: string, lit: Value -> string)
    requires Holders(acc) == |pa| && Plain(keyword) && Plain(text) && keyword != "" && keyword[0] == ' '
    ensures Holders(acc + Clause(keyword, text)) == |pa|
    ensures Substitute(acc + Clause(keyword, text), pa, lit) == Substitute(acc, pa, lit) + Clause(keyword, text)
  {
    PlainSuffixAligned(acc, pa, Clause(keyword, text), lit);
  }

  /** A clause with binds: its binds follow those of the text before it. */
  lemma BoundClauseAligned(acc: string, pa: seq<Value>, keyword: string, text: string, pt: seq<Value>,
                           lit: Value -> string)
    requires Holders(acc) == |pa| && Holders(text) == |pt|
    requires Plain(keyword) && keyword != "" && keyword[0] == ' '
    ensures Holders(acc + Clause(keyword, text)) == |pa + pt|
    ensures Substitute(acc + Clause(keyword, text), pa + pt, lit)
         == Substitute(acc, pa, lit) + FilledClause(keyword, text, pt, lit)
  {
    if text == "" {
      assert pt == [] && pa + pt == pa;
      assert acc + Clause(keyword, text) == acc;
      assert Substitute(acc, pa, lit) + FilledClause(keyword, text, pt, lit) == Substitute(acc, pa, lit);
    } else {
      HoldersPlain(keyword);
      PlainNoStraddle(keyword, text);
      SubstitutePrefix(keyword, text, pt, lit);
      SubstituteGlue(acc, keyword + text, pa, pt, lit);
    }
  }

  /** Bind order follows text order through the trailer: the head's binds,
      then WHERE's, then HAVING's, and substituting them all fills each clause
      from its own binds. */
  lemma TrailerAligned(head: string, ph: seq<Value>, c: Clauses, lit: Value -> string)
    requires Holders(head) == |ph| && TrailerWellFormed(c)
    ensures Holders(WithTrailer(head, c)) == |ph + c.whereParams + c.havingParams|
    ensures Substitute(WithTrailer(head, c), ph + c.whereParams + c.havingParams, lit)
         == FilledTrailer(Substitute(head, ph, lit), c, lit)
  {
    TrailerFrontAligned(head, ph, c, lit);
    TrailerBackAligned(head + Clause(" AS ", c.alias) + Clause(" ", c.join) + Clause(" WHERE ", c.whereClause),
                       ph + c.whereParams, c, lit);
  }

  /** Alias, joins and WHERE. */
  lemma TrailerFrontAligned(head: string, ph: seq<Value>, c: Clauses, lit: Value -> string)
    requires Holders(head) == |ph| && TrailerWellFormed(c)
    ensures Holders(head + Clause(" AS ", c.alias) + Clause(" ", c.join) + Clause(" WHERE ", c.whereClause))
         == |ph + c.whereParams|
    ensures Substitute(head + Clause(" AS ", c.alias) + Clause(" ", c.join) + Clause(" WHERE ", c.whereClause),
                       ph + c.whereParams, lit)
         == Substitute(head, ph, lit) + Clause(" AS ", c.alias) + Clause(" ", c.join)
            + FilledClause(" WHERE ", c.whereClause, c.whereParams, lit)
  {
    var a1 := head + Clause(" AS ", c.alias);
    PlainClauseAligned(head, ph, " AS ", c.alias, lit);
    PlainClauseAligned(a1, ph, " ", c.join, lit);
    BoundClauseAligned(a1 + Clause(" ", c.join), ph, " WHERE ", c.whereClause, c.whereParams, lit);
  }

  /** GROUP BY, HAVING, unions, ORDER BY and LIMIT. */
  lemma TrailerBackAligned(acc: string, pa: seq<Value>, c: Clauses, lit: Value -> string)
    requires Holders(acc) == |pa| && TrailerWellFormed(c)
    ensures Holders(acc + Clause(" GROUP BY ", c.group) + Clause(" HAVING ", c.having) + c.union
                    + Clause(" ORDER BY ", c.order) + Clause(" LIMIT ", c.limit))
         == |pa + c.havingParams|
    ensures Substitute(acc + Clause(" GROUP BY ", c.group) + Clause(" HAVING ", c.having) + c.union
                       + Clause(" ORDER BY ", c.order) + Clause(" LIMIT ", c.limit), pa + c.havingParams, lit)
         == Substitute(acc, pa, lit) + Clause(" GROUP BY ", c.group)
            + FilledClause(" HAVING ", c.having, c.havingParams, lit) + c.union
            + Clause(" ORDER BY ", c.order) + Clause(" LIMIT ", c.limit)
  {
    var a4 := acc + Clause(" GROUP BY ", c.group);
    PlainClauseAligned(acc, pa, " GROUP BY ", c.group, lit);
    var a5 := a4 + Clause(" HAVING ", c.having);
    BoundClauseAligned(a4, pa, " HAVING ", c.having, c.havingParams, lit);
    var p5 := pa + c.havingParams;
    var a6 := a5 + c.union;
    PlainSuffixAligned(a5, p5, c.union, lit);
    var a7 := a6 + Clause(" ORDER BY ", c.order);
    PlainClauseAligned(a6, p5, " ORDER BY ", c.order, lit);
    PlainClauseAligned(a7, p5, " LIMIT ", c.limit, lit);
  }

  /** A `%`-free prefix, then a comma-separated placeholder per bind, then a
      closing parenthesis: the binds fill the placeholders in order. */
  lemma ValuesListAligned(pre: string, ps: seq<Value>, lit: Value -> string)
    requires Plain(pre)
    ensures Holders(pre + Join(",", Repeat("%s", |ps|)) + ")") == |ps|
    ensures Substitute(pre + Join(",", Repeat("%s", |ps|)) + ")", ps, lit)
         == pre + Join(",", Literals(ps, lit)) + ")"
  {
    var h := Join(",", Repeat("%s", |ps|));
    JoinHoldersAligned(",", ps, lit);
    HoldersPlain(")");
    HoldersPlain(pre);
    PlainNoStraddle(pre, h + ")");
    SubstituteSuffix(h, ")", ps, lit);
    SubstitutePrefix(pre, h + ")", ps, lit);
    Assoc(pre, h, ")");
    Assoc(pre, Join(",", Literals(ps, lit)), ")");
  }

  /** INSERT and REPLACE: one placeholder per key, and the values bind to
      them in key order. */
  lemma InsertAligned(c: Clauses, action: string, data: seq<(string, Value)>, lit: Value -> string)
    requires action == "INSERT" || action == "REPLACE"
    requires c.name.Some? && Plain(c.prefix) && Plain(c.name.value)
    requires forall i :: 0 <= i < |data| ==> Plain(data[i].0)
    ensures Render(c, action, data).params == Values(data)
    ensures Holders(Render(c, action, data).sql) == |data|
    ensures Substitute(Render(c, action, data).sql, Values(data), lit)
         == action + " INTO `" + c.prefix + c.name.value + "` (`" + Join("`,`", Keys(data))
            + "`) VALUES (" + Join(",", Literals(Values(data), lit)) + ")"
  {
    JoinPlain("`,`", Keys(data));
    ValuesListAligned(action + " INTO `" + c.prefix + c.name.value + "` (`" + Join("`,`", Keys(data)) + "`) VALUES (",
                      Values(data), lit);
  }

  /** The SET list of UPDATE: one placeholder per key, each bound to that
      key's own value. */
  lemma SetListAligned(data: seq<(string, Value)>, lit: Value -> string)
    requires forall i :: 0 <= i < |data| ==> Plain(data[i].0)
    ensures Holders(Join(",", Slots(SetTargets(Keys(data)), Repeat("%s", |data|)))) == |data|
    ensures Substitute(Join(",", Slots(SetTargets(Keys(data)), Repeat("%s", |data|))), Values(data), lit)
         == Join(",", Slots(SetTargets(Keys(data)), Literals(Values(data), lit)))
  {
    var targets := SetTargets(Keys(data));
    forall i | 0 <= i < |targets|
      ensures Plain(targets[i])
    {
      assert targets[i] == "`" + data[i].0 + "`=";
    }
    JoinSlotsAligned(",", targets, Values(data), lit);
  }

  /** The head of UPDATE holds the SET list's placeholders and nothing else. */
  lemma UpdateHeadAligned(c: Clauses, data: seq<(string, Value)>, lit: Value -> string)
    requires c.name.Some? && Plain(c.prefix) && Plain(c.name.value)
    requires forall i :: 0 <= i < |data| ==> Plain(data[i].0)
    ensures Holders(Head(c, "UPDATE", data)) == |Values(data)|
    ensures Substitute(Head(c, "UPDATE", data), Values(data), lit)
         == "UPDATE `" + c.prefix + c.name.value + "` SET "
            + Join(",", Slots(SetTargets(Keys(data)), Literals(Values(data), lit)))
  {
    var pre := "UPDATE `" + c.prefix + c.name.value + "` SET ";
    var setList := Join(",", Slots(SetTargets(Keys(data)), Repeat("%s", |data|)));
    SetListAligned(data, lit);
    HoldersPlain(pre);
    PlainNoStraddle(pre, setList);
    SubstitutePrefix(pre, setList, Values(data), lit);
  }

  /** UPDATE: the set values bind first, then the WHERE binds, then the
      HAVING binds, each to its own placeholders. */
  lemma UpdateAligned(c: Clauses, data: seq<(string, Value)>, lit: Value -> string)
    requires c.name.Some? && Plain(c.prefix) && Plain(c.name.value) && TrailerWellFormed(c)
    requires forall i :: 0 <= i < |data| ==> Plain(data[i].0)
    ensures Render(c, "UPDATE", data).params == Values(data) + c.whereParams + c.havingParams
    ensures Holders(Render(c, "UPDATE", data).sql) == |Render(c, "UPDATE", data).params|
    ensures Substitute(Render(c, "UPDATE", data).sql, Render(c, "UPDATE", data).params, lit)
         == FilledTrailer("UPDATE `" + c.prefix + c.name.value + "` SET "
                          + Join(",", Slots(SetTargets(Keys(data)), Literals(Values(data), lit))), c, lit)
  {
    UpdateHeadAligned(c, data, lit);
    TrailerAligned(Head(c, "UPDATE", data), Values(data), c, lit);
    BindsAssoc(Values(data), c.whereParams, c.havingParams);
  }

  /** The heads of DELETE and SELECT hold no placeholder. */
  lemma FilterHeadPlain(c: Clauses, action: string, lit: Value -> string)
    requires action == "DELETE" || action == "SELECT"
    requires c.name.Some? && Plain(c.prefix) && Plain(c.name.value) && Plain(c.fields)
    ensures Holders(Head(c, action, [])) == 0
    ensures Substitute(Head(c, action, []), [], lit) == Head(c, action, [])
  {
    HoldersPlain(Head(c, action, []));
    SubstituteNoHolders(Head(c, action, []), [], lit);
  }

  /** DELETE and SELECT: the WHERE binds, then the HAVING binds, each to its
      own placeholders; the head holds none. */
  lemma FilterAligned(c: Clauses, action: string, lit: Value -> string)
    requires action == "DELETE" || action == "SELECT"
    requires c.name.Some? && Plain(c.prefix) && Plain(c.name.value) && Plain(c.fields) && TrailerWellFormed(c)
    ensures Render(c, action, []).params == c.whereParams + c.havingParams
    ensures Holders(Render(c, action, []).sql) == |Render(c, action, []).params|
    ensures Substitute(Render(c, action, []).sql, Render(c, action, []).params, lit)
         == FilledTrailer(Head(c, action, []), c, lit)
  {
    var head := Head(c, action, []);
    FilterRender(c, action);
    FilterHeadPlain(c, action, lit);
    TrailerAligned(head, [], c, lit);
    NoBindsFirst(c.whereParams);
  }

  lemma BindsAssoc(a: seq<Value>, b: seq<Value>, d: seq<Value>)
    ensures a + (b + d) == a + b + d
  {
  }

  lemma NoBindsFirst(ps: seq<Value>)
    ensures [] + ps == ps
  {
  }

  lemma FilterRender(c: Clauses, action: string)
    requires action == "DELETE" || action == "SELECT"
    requires c.name.Some?
    ensures Render(c, action, []) == Statement(WithTrailer(Head(c, action, []), c), c.whereParams + c.havingParams)
  {
  }

  /** Every statement `__build_sql` renders has exactly as many `%s`
      placeholders as it has binds. */
  lemma RenderAligned(c: Clauses, action: string, data: seq<(string, Value)>)
    requires IsAction(action)
    requires c.name.Some? && Plain(c.prefix) && Plain(c.name.value) && Plain(c.fields) && TrailerWellFormed(c)
    requires forall i :: 0 <= i < |data| ==> Plain(data[i].0)
    ensures Holders(Render(c, action, data).sql) == |Render(c, action, data).params|
  {
    var lit := (v: Value) => Repr(v);
    if action == "INSERT" || action == "REPLACE" {
      InsertAligned(c, action, data, lit);
    } else if action == "UPDATE" {
      UpdateAligned(c, data, lit);
    } else if action == "TRUNCATE" {
      HoldersPlain(Head(c, action, data));
    } else {
      assert Render(c, action, data) == Render(c, action, []);
      FilterAligned(c, action, lit);
    }
  }

  /** Every statement `__build_sql` renders is of the driver's shape: its
      only `%` conversions are the `%s` placeholders its binds fill. */
  lemma RenderOnlyHolders(c: Clauses, action: string, data: seq<(string, Value)>)
    requires IsAction(action)
    requires c.name.Some? && Plain(c.prefix) && Plain(c.name.value) && Plain(c.fields) && TrailerWellFormed(c)
    requires forall i :: 0 <= i < |data| ==> Plain(data[i].0)
    ensures OnlyHolders(Render(c, action, data).sql)
  {
    HeadOnlyHolders(c, action, data);
    if HasTrailer(action) {
      TrailerOnlyHolders(Head(c, action, data), c);
    }
  }

  lemma HeadOnlyHolders(c: Clauses, action: string, data: seq<(string, Value)>)
    requires IsAction(action)
    requires c.name.Some? && Plain(c.prefix) && Plain(c.name.value) && Plain(c.fields)
    requires forall i :: 0 <= i < |data| ==> Plain(data[i].0)
    ensures OnlyHolders(Head(c, action, data))
  {
    var holder := Repeat("%s", |data|);
    assert OnlyHolders("%s") by {
      assert "%s"[2..] == "";
    }
    if action == "INSERT" || action == "REPLACE" {
      JoinPlain("`,`", Keys(data));
      var pre := action + " INTO `" + c.prefix + c.name.value + "` (`" + Join("`,`", Keys(data)) + "`) VALUES (";
      JoinOnlyHolders(",", holder);
      PlainOnlyHolders(pre);
      PlainOnlyHolders(")");
      OnlyHoldersConcat(pre, Join(",", holder));
      OnlyHoldersConcat(pre + Join(",", holder), ")");
    } else if action == "UPDATE" {
      var targets := SetTargets(Keys(data));
      var parts := Slots(targets, holder);
      forall i | 0 <= i < |parts|
        ensures OnlyHolders(parts[i])
      {
        assert targets[i] == "`" + data[i].0 + "`=";
        PlainOnlyHolders(targets[i]);
        OnlyHoldersConcat(targets[i], "%s");
      }
      var pre := "UPDATE `" + c.prefix + c.name.value + "` SET ";
      JoinOnlyHolders(",", parts);
      PlainOnlyHolders(pre);
      OnlyHoldersConcat(pre, Join(",", parts));
    } else {
      assert Plain(Head(c, action, data));
      PlainOnlyHolders(Head(c, action, data));
    }
  }

  /** A clause with a `%`-free keyword keeps its text's shape. */
  lemma ClauseOnlyHolders(acc: string, keyword: string, text: string)
    requires OnlyHolders(acc) && Plain(keyword) && OnlyHolders(text)
    ensures OnlyHolders(acc + Clause(keyword, text))
  {
    PlainOnlyHolders(keyword);
    OnlyHoldersConcat(keyword, text);
    OnlyHoldersConcat(acc, Clause(keyword, text));
  }

  lemma TrailerOnlyHolders(head: string, c: Clauses)
    requires OnlyHolders(head) && TrailerWellFormed(c)
    ensures OnlyHolders(WithTrailer(head, c))
  {
    PlainOnlyHolders(c.alias);
    PlainOnlyHolders(c.join);
    PlainOnlyHolders(c.group);
    PlainOnlyHolders(c.union);
    PlainOnlyHolders(c.order);
    PlainOnlyHolders(c.limit);
    var a1 := head + Clause(" AS ", c.alias);
    ClauseOnlyHolders(head, " AS ", c.alias);
    var a2 := a1 + Clause(" ", c.join);
    ClauseOnlyHolders(a1, " ", c.join);
    var a3 := a2 + Clause(" WHERE ", c.whereClause);
    ClauseOnlyHolders(a2, " WHERE ", c.whereClause);
    var a4 := a3 + Clause(" GROUP BY ", c.group);
    ClauseOnlyHolders(a3, " GROUP BY ", c.group);
    var a5 := a4 + Clause(" HAVING ", c.having);
    ClauseOnlyHolders(a4, " HAVING ", c.having);
    var a6 := a5 + c.union;
    OnlyHoldersConcat(a5, c.union);
    var a7 := a6 + Clause(" ORDER BY ", c.order);
    ClauseOnlyHolders(a6, " ORDER BY ", c.order);
    ClauseOnlyHolders(a7, " LIMIT ", c.limit);
  }

  /** TRUNCATE renders only the table: every other clause is ignored. */
  lemma TruncateIgnoresClauses(c: Clauses, d: Clauses, data: seq<(string, Value)>)
    requires c.name.Some? && d.name == c.name && d.prefix == c.prefix
    ensures Render(c, "TRUNCATE", data) == Render(d, "TRUNCATE", [])
         == Statement("TRUNCATE TABLE `" + c.prefix + c.name.value + "`", [])
  {
  }

  /** After `__clear_environment` the trailer is empty: a statement renders
      as its head alone. */
  lemma {:induction false} ClearedTrailerEmpty(head: string, c: Clauses)
    ensures WithTrailer(head, Cleared(c)) == head
  {
    var e := Cleared(c);
    assert Clause(" AS ", e.alias) == "" && Clause(" ", e.join) == "" && Clause(" WHERE ", e.whereClause) == "";
    assert Clause(" GROUP BY ", e.group) == "" && Clause(" HAVING ", e.having) == "" && e.union == "";
    assert Clause(" ORDER BY ", e.order) == "" && Clause(" LIMIT ", e.limit) == "";
    assert head + "" == head;
  }

  /** A join on an unaliased table follows the head after two spaces: `join`
      writes one before the join type and the trailer writes another. */
  lemma JoinDoubleSpace(head: string, c: Clauses, joinType: string, rest: string)
    requires c.alias == "" && c.join == " " + joinType + " " + rest
    ensures head + "  " + joinType + " " <= WithTrailer(head, c)
  {
    var front := head + Clause(" AS ", c.alias) + Clause(" ", c.join);
    assert front == head + "  " + joinType + " " + rest;
    Assoc(head + "  " + joinType + " ", rest, "");
    var tail := Clause(" WHERE ", c.whereClause) + Clause(" GROUP BY ", c.group) + Clause(" HAVING ", c.having)
                + c.union + Clause(" ORDER BY ", c.order) + Clause(" LIMIT ", c.limit);
    assert WithTrailer(head, c) == front + tail;
  }

  /** The offset of `limit` and `page` comes first, separated by a comma, and
      both numbers read back as given. */
  lemma LimitRoundTrip(rows: int, offset: Option<int>)
    ensures ParseLimit(LimitText(rows, offset)) == Some((offset, rows))
  {
    IntToStringRoundTrip(rows);
    var r := IntToString(rows);
    if offset.None? {
      IndexOfAbsent(r, ',');
    } else {
      IntToStringRoundTrip(offset.value);
      var o := IntToString(offset.value);
      var s := o + "," + r;
      IndexOfFirst(o, r, ',');
      assert s[..|o|] == o;
      assert s[|o| + 1..] == r;
    }
  }

  lemma {:induction false} IndexOfAbsent(s: string, c: char)
    requires c !in s
    ensures IndexOf(s, c) == |s|
    decreases |s|
  {
    if s != [] {
      assert s[0] in s;
      assert forall x :: x in s[1..] ==> x in s;
      IndexOfAbsent(s[1..], c);
    }
  }

  lemma {:induction false} IndexOfFirst(a: string, b: string, c: char)
    requires c !in a
    ensures IndexOf(a + [c] + b, c) == |a|
    decreases |a|
  {
    if a == [] {
      assert a + [c] + b == [c] + b;
    } else {
      assert a[0] in a;
      assert forall x :: x in a[1..] ==> x in a;
      assert (a + [c] + b)[1..] == a[1..] + [c] + b;
      IndexOfFirst(a[1..], b, c);
    }
  }

  /** `page(index, size)` asks for `size` rows after skipping the
      `index - 1` pages before it. */
  lemma PageRoundTrip(index: int, size: int)
    ensures ParseLimit(LimitText(size, Some((index - 1) * size))) == Some((Some((index - 1) * size), size))
  {
    LimitRoundTrip(size, Some((index - 1) * size));
  }

  /** Repeated `group` calls give the comma-separated list of their texts,
      provided the first text is not empty. */
  lemma {:induction false} GroupStepsJoin(texts: seq<string>)
    requires texts == [] || texts[0] != ""
    ensures GroupSteps("", texts) == Join(",", texts)
  {
    if texts != [] {
      assert GroupSteps("", texts) == GroupSteps(texts[0], texts[1..]);
      GroupStepsFrom(texts[0], texts[1..]);
      if |texts| > 1 {
        assert Join(",", texts) == texts[0] + "," + Join(",", texts[1..]);
      }
    }
  }

  lemma {:induction false} GroupStepsFrom(acc: string, texts: seq<string>)
    requires acc != ""
    ensures GroupSteps(acc, texts) == if texts == [] then acc else acc + "," + Join(",", texts)
    decreases |texts|
  {
    if texts != [] {
      var next := acc + "," + texts[0];
      assert GroupStep(acc, texts[0]) == next;
      GroupStepsFrom(next, texts[1..]);
      if |texts| > 1 {
        Assoc(next, ",", Join(",", texts[1..]));
        Assoc(acc + ",", texts[0], "," + Join(",", texts[1..]));
        Assoc(acc, ",", texts[0] + ("," + Join(",", texts[1..])));
        Assoc(texts[0], ",", Join(",", texts[1..]));
      }
    }
  }
}
