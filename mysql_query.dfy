/** The chainable predicate builder `Query` of fize/orm/mysql.py: it keeps an
    optional target identifier, the SQL fragment built so far, the bind list
    and the combinator used between fragments, and every helper appends one
    fragment through `AddPart`. */
module MysqlQuery {
  import opened SqlText

  /** The `bind` argument of `exp`, `condition`, `exists`: absent (None), one
      value (which the fragment appends), or a list (which it extends with). */
  datatype Bind = NoBind | One(v: Value) | Many(vs: seq<Value>)

  /** `bind=False`, the sentinel `condition` reads as "inline, do not bind". */
  const NOT_BOUND: Bind := One(Bool(false))

  /** The values `__add_part` adds to the bind list for a `bind` argument. */
  function Bound(b: Bind): seq<Value> {
    match b
    case NoBind => []
    case One(v) => [v]
    case Many(vs) => vs
  }

  /** What `__add_part` writes between the text so far and a new fragment:
      the combinator unless this is the first fragment, then the target. */
  function Connective(first: bool, obj: Option<string>, logic: string): (r: string)
    ensures r == "" <==> first && obj.None?
  {
    (if first then "" else " " + logic + " ") + (if obj.Some? then obj.value + " " else "")
  }

  /** The four shapes `__add_part` gives the text, spelled out. */
  lemma ConnectiveCases(text: string, obj: Option<string>, logic: string, statement: string)
    ensures text + Connective(text == "", obj, logic) + statement
         == if text == "" then (if obj.None? then statement else obj.value + " " + statement)
            else if obj.None? then text + " " + logic + " " + statement
            else text + " " + logic + " " + obj.value + " " + statement
  {
  }

  /** The fragment `condition(judge, value, bind)` hands to `exp`. */
  function ConditionPart(judge: string, value: Value, b: Bind): (r: (string, Bind))
    ensures judge + " " <= r.0
    ensures Bound(r.1) == if b == NOT_BOUND then [] else if b == NoBind then (if value.Str? then [value] else []) else Bound(b)
  {
    if b == NOT_BOUND then
      if value.Str? then (judge + " '" + value.s + "'", NoBind)
      else (judge + " " + Repr(value), NoBind)
    else if b == NoBind && value.Str? then (judge + " %s", Many([value]))
    else (judge + " " + Repr(value), b)
  }

  /** The argument of `is_in`/`not_in`: a list of values or a ready-made text. */
  datatype InArg = List(vs: seq<Value>) | Text(s: string)

  /** The `%s` list `str(holders).replace("'", "")[1:-1]` spells. */
  function HolderList(n: nat): (r: string)
    ensures OnlyHolders(r)
  {
    assert OnlyHolders("%s") by {
      assert "%s"[2..] == "";
    }
    JoinOnlyHolders(", ", Repeat("%s", n));
    Join(", ", Repeat("%s", n))
  }

  /** The fragment `is_in` (keyword "IN") or `not_in` ("NOT IN") hands to `exp`. */
  function InPart(keyword: string, arg: InArg): (r: (string, Bind))
    requires arg.Text? ==> arg.s != ""
    ensures keyword + "(" <= r.0 && r.0[|r.0| - 1] == ')'
    ensures Bound(r.1) == if arg.List? then arg.vs else []
  {
    match arg
    case List(vs) => (keyword + "(" + HolderList(|vs|) + ")", Many(vs))
    case Text(s) =>
      if s[0] == '(' && s[|s| - 1] == ')' then (keyword + s, NoBind)
      else (keyword + "(" + s + ")", NoBind)
  }

  /** The bind `exists`/`not_exists` pass on: `False` counts as none. */
  function ExistsBind(b: Bind): (r: Bind)
    ensures Bound(r) == if b == NOT_BOUND then [] else Bound(b)
  {
    if b == NOT_BOUND then NoBind else b
  }

  class Query {
    var obj: Option<string>
    var sql: string
    var bind: seq<Value>
    var logic: string

    /** The combinator never spells a placeholder. */
    ghost predicate Valid()
      reads this
    {
      Holders(logic) == 0
    }

    /** The text holds exactly one placeholder per bind. */
    ghost predicate Balanced()
      reads this
    {
      Holders(sql) == |bind|
    }

    constructor(name: Option<string>, addQuotes: bool, text: string, binds: seq<Value>)
      ensures Valid()
      ensures obj == (if name.None? then None else if addQuotes then Some("`" + name.value + "`") else name)
      ensures sql == text && bind == binds && logic == "AND"
    {
      if name.Some? {
        if addQuotes {
          obj := Some("`" + name.value + "`");
        } else {
          obj := name;
        }
      } else {
        obj := None;
      }
      sql := text;
      bind := binds;
      logic := "AND";
      assert Holders("AND") == 0 by { HoldersPlain("AND"); }
    }

    method CombineLogic(l: string)
      modifies this`logic
      ensures logic == Upper(l) && Valid()
    {
      logic := Upper(l);
      UpperHasNoHolders(l);
    }

    method AddPart(statement: string, b: Bind)
      modifies this`sql, this`bind
      ensures sql == old(sql) + Connective(old(sql) == "", obj, logic) + statement
      ensures bind == old(bind) + Bound(b)
      ensures (Valid() && old(Balanced()) && Holders(statement) == |Bound(b)|
               && (obj.Some? ==> Plain(obj.value))) ==> Balanced()
      ensures (old(OnlyHolders(sql)) && OnlyHolders(statement) && Plain(logic)
               && (obj.Some? ==> Plain(obj.value))) ==> OnlyHolders(sql)
    {
      if sql == "" {
        if obj.None? {
          sql := statement;
        } else {
          sql := obj.value + " " + statement;
        }
      } else {
        if obj.None? {
          sql := sql + " " + logic + " " + statement;
        } else {
          sql := sql + " " + logic + " " + obj.value + " " + statement;
        }
      }
      ConnectiveCases(old(sql), obj, logic, statement);
      match b {
        case NoBind =>
        case Many(vs) => bind := bind + vs;
        case One(v) => bind := bind + [v];
      }
      if Valid() && Holders(old(sql)) == |old(bind)| && Holders(statement) == |Bound(b)|
         && (obj.Some? ==> Plain(obj.value)) {
        AppendHolders(old(sql), old(bind), obj, logic, statement, Bound(b));
      }
      if OnlyHolders(old(sql)) && OnlyHolders(statement) && Plain(logic) && (obj.Some? ==> Plain(obj.value)) {
        AppendOnlyHolders(old(sql), obj, logic, statement);
      }
    }

    method Exp(expression: string, b: Bind)
      modifies this`sql, this`bind
      ensures sql == old(sql) + Connective(old(sql) == "", obj, logic) + expression
      ensures bind == old(bind) + Bound(b)
    {
      AddPart(expression, b);
    }

    method Condition(judge: string, value: Value, b: Bind)
      modifies this`sql, this`bind
      ensures sql == old(sql) + Connective(old(sql) == "", obj, logic) + ConditionPart(judge, value, b).0
      ensures b == NOT_BOUND ==> bind == old(bind)
      ensures b == NoBind ==> bind == old(bind) + (if value.Str? then [value] else [])
      ensures b != NOT_BOUND && b != NoBind ==> bind == old(bind) + Bound(b)
    {
      var part := ConditionPart(judge, value, b);
      Exp(part.0, part.1);
    }

    method Between(value1: Value, value2: Value)
      requires value1.Str? || value2.Str?
      modifies this`sql, this`bind
      ensures sql == old(sql) + Connective(old(sql) == "", obj, logic) + "BETWEEN %s AND %s"
      ensures bind == old(bind) + [value1, value2]
    {
      Exp("BETWEEN %s AND %s", Many([value1, value2]));
    }

    method NotBetween(value1: Value, value2: Value)
      requires value1.Str? || value2.Str?
      modifies this`sql, this`bind
      ensures sql == old(sql) + Connective(old(sql) == "", obj, logic) + "NOT BETWEEN %s AND %s"
      ensures bind == old(bind) + [value1, value2]
    {
      Exp("NOT BETWEEN %s AND %s", Many([value1, value2]));
    }

    method Egt(value: Value)
      modifies this`sql, this`bind
      ensures sql == old(sql) + Connective(old(sql) == "", obj, logic) + ConditionPart(">=", value, NoBind).0
      ensures bind == old(bind) + (if value.Str? then [value] else [])
    {
      Condition(">=", value, NoBind);
    }

    method Elt(value: Value)
      modifies this`sql, this`bind
      ensures sql == old(sql) + Connective(old(sql) == "", obj, logic) + ConditionPart("<=", value, NoBind).0
      ensures bind == old(bind) + (if value.Str? then [value] else [])
    {
      Condition("<=", value, NoBind);
    }

    method Eq(value: Value)
      modifies this`sql, this`bind
      ensures sql == old(sql) + Connective(old(sql) == "", obj, logic) + ConditionPart("=", value, NoBind).0
      ensures bind == old(bind) + (if value.Str? then [value] else [])
    {
      Condition("=", value, NoBind);
    }

    method Gt(value: Value)
      modifies this`sql, this`bind
      ensures sql == old(sql) + Connective(old(sql) == "", obj, logic) + ConditionPart(">", value, NoBind).0
      ensures bind == old(bind) + (if value.Str? then [value] else [])
    {
      Condition(">", value, NoBind);
    }

    method Lt(value: Value)
      modifies this`sql, this`bind
      ensures sql == old(sql) + Connective(old(sql) == "", obj, logic) + ConditionPart("<", value, NoBind).0
      ensures bind == old(bind) + (if value.Str? then [value] else [])
    {
      Condition("<", value, NoBind);
    }

    method Neq(value: Value)
      modifies this`sql, this`bind
      ensures sql == old(sql) + Connective(old(sql) == "", obj, logic) + ConditionPart("<>", value, NoBind).0
      ensures bind == old(bind) + (if value.Str? then [value] else [])
    {
      Condition("<>", value, NoBind);
    }

    method Like(value: Value)
      modifies this`sql, this`bind
      ensures sql == old(sql) + Connective(old(sql) == "", obj, logic) + ConditionPart("LIKE", value, NoBind).0
      ensures bind == old(bind) + (if value.Str? then [value] else [])
    {
      Condition("LIKE", value, NoBind);
    }

    method NotLike(value: Value)
      modifies this`sql, this`bind
      ensures sql == old(sql) + Connective(old(sql) == "", obj, logic) + ConditionPart("NOT LIKE", value, NoBind).0
      ensures bind == old(bind) + (if value.Str? then [value] else [])
    {
      Condition("NOT LIKE", value, NoBind);
    }

    method Exists(expression: string, b: Bind)
      modifies this`sql, this`bind, this`obj
      ensures obj == old(obj)
      ensures sql == old(sql) + Connective(old(sql) == "", None, logic) + "EXISTS(" + expression + ")"
      ensures bind == old(bind) + Bound(ExistsBind(b))
    {
      var saved := obj;
      obj := None;
      Exp("EXISTS(" + expression + ")", ExistsBind(b));
      obj := saved;
    }

    method NotExists(expression: string, b: Bind)
      modifies this`sql, this`bind, this`obj
      ensures obj == old(obj)
      ensures sql == old(sql) + Connective(old(sql) == "", None, logic) + "NOT EXISTS(" + expression + ")"
      ensures bind == old(bind) + Bound(ExistsBind(b))
    {
      var saved := obj;
      obj := None;
      Exp("NOT EXISTS(" + expression + ")", ExistsBind(b));
      obj := saved;
    }

    method IsIn(values: InArg)
      requires values.Text? ==> values.s != ""
      modifies this`sql, this`bind
      ensures sql == old(sql) + Connective(old(sql) == "", obj, logic) + InPart("IN", values).0
      ensures bind == old(bind) + (if values.List? then values.vs else [])
    {
      var part := InPart("IN", values);
      Exp(part.0, part.1);
    }

    method NotIn(values: InArg)
      requires values.Text? ==> values.s != ""
      modifies this`sql, this`bind
      ensures sql == old(sql) + Connective(old(sql) == "", obj, logic) + InPart("NOT IN", values).0
      ensures bind == old(bind) + (if values.List? then values.vs else [])
    {
      var part := InPart("NOT IN", values);
      Exp(part.0, part.1);
    }

    method IsNull()
      modifies this`sql, this`bind
      ensures sql == old(sql) + Connective(old(sql) == "", obj, logic) + "IS NULL"
      ensures bind == old(bind)
    {
      Exp("IS NULL", NoBind);
    }

    method NotNull()
      modifies this`sql, this`bind
      ensures sql == old(sql) + Connective(old(sql) == "", obj, logic) + "IS NOT NULL"
      ensures bind == old(bind)
    {
      Exp("IS NOT NULL", NoBind);
    }

    /** `self & other`: a fresh query; neither operand changes. */
    method And(other: Query) returns (r: Query)
      ensures fresh(r) && r.Valid()
      ensures r.sql == "(" + sql + ") AND (" + other.sql + ")"
      ensures r.bind == bind + other.bind
      ensures r.obj == None && r.logic == "AND"
      ensures OnlyHolders(sql) && OnlyHolders(other.sql) ==> OnlyHolders(r.sql)
    {
      r := new Query(None, true, "(" + sql + ") AND (" + other.sql + ")", bind + other.bind);
      if OnlyHolders(sql) && OnlyHolders(other.sql) {
        CombineOnlyHolders(sql, "AND", other.sql);
        assert "(" + sql + ") AND (" + other.sql + ")" == "(" + sql + ") " + "AND" + " (" + other.sql + ")";
      }
    }

    /** `self | other`: a fresh query; neither operand changes. */
    method Or(other: Query) returns (r: Query)
      ensures fresh(r) && r.Valid()
      ensures r.sql == "(" + sql + ") OR (" + other.sql + ")"
      ensures r.bind == bind + other.bind
      ensures r.obj == None && r.logic == "AND"
      ensures OnlyHolders(sql) && OnlyHolders(other.sql) ==> OnlyHolders(r.sql)
    {
      r := new Query(None, true, "(" + sql + ") OR (" + other.sql + ")", bind + other.bind);
      if OnlyHolders(sql) && OnlyHolders(other.sql) {
        CombineOnlyHolders(sql, "OR", other.sql);
        assert "(" + sql + ") OR (" + other.sql + ")" == "(" + sql + ") " + "OR" + " (" + other.sql + ")";
      }
    }
  }

  /** The connective never spells a placeholder, ends in a space when it is
      not empty, and starts with a space after the first fragment. */
  lemma ConnectiveShape(first: bool, obj: Option<string>, logic: string)
    requires Holders(logic) == 0 && (obj.Some? ==> Plain(obj.value))
    ensures Holders(Connective(first, obj, logic)) == 0
    ensures Connective(first, obj, logic) != "" ==> Connective(first, obj, logic)[|Connective(first, obj, logic)| - 1] == ' '
    ensures !first ==> Connective(first, obj, logic)[0] == ' '
  {
    var lead := if first then "" else " " + logic + " ";
    var target := if obj.Some? then obj.value + " " else "";
    assert Connective(first, obj, logic) == lead + target;
    assert Holders(lead) == 0 by {
      if !first {
        HoldersPlain(" ");
        HoldersConcat(" ", logic);
        HoldersConcat(" " + logic, " ");
      }
    }
    assert Holders(target) == 0 by {
      if obj.Some? {
        HoldersPlain(obj.value + " ");
      }
    }
    HoldersConcat(lead, target);
  }

  /** Appending a fragment to a balanced text keeps it balanced. */
  lemma AppendHolders(text: string, binds: seq<Value>, obj: Option<string>, logic: string,
                      statement: string, added: seq<Value>)
    requires Holders(text) == |binds| && Holders(statement) == |added|
    requires Holders(logic) == 0 && (obj.Some? ==> Plain(obj.value))
    ensures Holders(text + Connective(text == "", obj, logic) + statement) == |binds + added|
  {
    var link := Connective(text == "", obj, logic);
    ConnectiveShape(text == "", obj, logic);
    HoldersConcat(link, statement);
    assert !Straddles(text, link + statement);
    HoldersConcat(text, link + statement);
    Assoc(text, link, statement);
  }

  /** Appending a fragment keeps text and binds aligned: the new text has one
      placeholder per bind, and substituting the binds fills the old text from
      the old binds and the fragment from the fragment's binds. */
  lemma AppendAligned(text: string, binds: seq<Value>, obj: Option<string>, logic: string,
                      statement: string, added: seq<Value>, lit: Value -> string)
    requires Holders(text) == |binds| && Holders(statement) == |added|
    requires Holders(logic) == 0 && (obj.Some? ==> Plain(obj.value))
    ensures Holders(text + Connective(text == "", obj, logic) + statement) == |binds + added|
    ensures Substitute(text + Connective(text == "", obj, logic) + statement, binds + added, lit)
         == Substitute(text, binds, lit) + Connective(text == "", obj, logic) + Substitute(statement, added, lit)
  {
    var link := Connective(text == "", obj, logic);
    ConnectiveShape(text == "", obj, logic);
    assert !Straddles(text, link + statement);
    SubstituteAround(text, link, statement, binds, added, lit);
  }

  /** Appending a fragment of the driver's shape, with a `%`-free combinator
      and target, keeps the text of the driver's shape. */
  lemma AppendOnlyHolders(text: string, obj: Option<string>, logic: string, statement: string)
    requires OnlyHolders(text) && OnlyHolders(statement)
    requires Plain(logic) && (obj.Some? ==> Plain(obj.value))
    ensures OnlyHolders(text + Connective(text == "", obj, logic) + statement)
  {
    var link := Connective(text == "", obj, logic);
    ConnectivePlain(text == "", obj, logic);
    PlainOnlyHolders(link);
    OnlyHoldersConcat(text, link);
    OnlyHoldersConcat(text + link, statement);
  }

  lemma ConnectivePlain(first: bool, obj: Option<string>, logic: string)
    requires Plain(logic) && (obj.Some? ==> Plain(obj.value))
    ensures Plain(Connective(first, obj, logic))
  {
  }

  /** `a & b` and `a | b` of operands of the driver's shape are of the
      driver's shape. */
  lemma CombineOnlyHolders(a: string, op: string, b: string)
    requires OnlyHolders(a) && OnlyHolders(b)
    requires op == "AND" || op == "OR"
    ensures OnlyHolders("(" + a + ") " + op + " (" + b + ")")
  {
    var mid := ") " + op + " (";
    PlainOnlyHolders("(");
    PlainOnlyHolders(mid);
    PlainOnlyHolders(")");
    OnlyHoldersConcat("(", a);
    OnlyHoldersConcat("(" + a, mid);
    OnlyHoldersConcat("(" + a + mid, b);
    OnlyHoldersConcat("(" + a + mid + b, ")");
    Regroup(a, op, b);
    Assoc("(" + a, mid, b + ")");
    Assoc("(" + a + mid, b, ")");
  }

  /** `a & b` and `a | b` keep text and binds aligned: substituting the merged
      bind list into the merged text gives the two substituted operands, each
      in its own parentheses, left before right. */
  lemma CombineAligned(a: string, pa: seq<Value>, op: string, b: string, pb: seq<Value>, lit: Value -> string)
    requires Holders(a) == |pa| && Holders(b) == |pb|
    requires op == "AND" || op == "OR"
    ensures Holders("(" + a + ") " + op + " (" + b + ")") == |pa + pb|
    ensures Substitute("(" + a + ") " + op + " (" + b + ")", pa + pb, lit)
         == "(" + Substitute(a, pa, lit) + ") " + op + " (" + Substitute(b, pb, lit) + ")"
  {
    var mid := ") " + op + " (";
    HoldersPlain("(");
    HoldersPlain(mid);
    HoldersPlain(")");
    SubstitutePrefix("(", a, pa, lit);
    SubstituteSuffix(b, ")", pb, lit);
    SubstitutePrefix(mid, b + ")", pb, lit);
    SubstituteGlue("(" + a, mid + (b + ")"), pa, pb, lit);
    Regroup(a, op, b);
    Regroup(Substitute(a, pa, lit), op, Substitute(b, pb, lit));
  }

  lemma Regroup(x: string, op: string, y: string)
    ensures "(" + x + ") " + op + " (" + y + ")" == ("(" + x) + ((") " + op + " (") + (y + ")"))
  {
    var px := "(" + x;
    Assoc(px + ") " + op + " (", y, ")");
    Assoc(px, ") ", op);
    Assoc(px, ") " + op, " (");
    Assoc(px, ") " + op + " (", y + ")");
  }

  /** Auto-binding in `condition`: a string value becomes one placeholder
      bound to exactly that value, any other value is inlined as str(value);
      either way the fragment is aligned, and after substitution the value
      sits where the placeholder was. */
  lemma ConditionAutoBind(judge: string, value: Value, lit: Value -> string)
    requires Plain(judge)
    requires !value.Str? ==> Plain(Repr(value))
    ensures Bound(ConditionPart(judge, value, NoBind).1) == (if value.Str? then [value] else [])
    ensures Holders(ConditionPart(judge, value, NoBind).0) == |Bound(ConditionPart(judge, value, NoBind).1)|
    ensures Substitute(ConditionPart(judge, value, NoBind).0, Bound(ConditionPart(judge, value, NoBind).1), lit)
         == judge + " " + (if value.Str? then lit(value) else Repr(value))
  {
    if value.Str? {
      assert Plain(judge + " ");
      SubstituteOneHolder(judge + " ", value, lit);
      assert judge + " %s" == judge + " " + "%s";
    } else {
      var t := judge + " " + Repr(value);
      HoldersPlain(t);
      SubstituteNoHolders(t, [], lit);
    }
  }

  /** `condition(..., bind=False)` never binds; a string value is inlined
      between single quotes, anything else as str(value). */
  lemma ConditionNotBound(judge: string, value: Value)
    ensures Bound(ConditionPart(judge, value, NOT_BOUND).1) == []
    ensures ConditionPart(judge, value, NOT_BOUND).0
         == judge + " " + (if value.Str? then "'" + value.s + "'" else Repr(value))
  {
  }

  /** The `%s` list holds one placeholder per value and takes the values in order. */
  lemma HolderListAligned(vs: seq<Value>, lit: Value -> string)
    ensures Holders(HolderList(|vs|)) == |vs|
    ensures Substitute(HolderList(|vs|), vs, lit) == Join(", ", Literals(vs, lit))
  {
    JoinHoldersAligned(", ", vs, lit);
  }

  /** `is_in`/`not_in` with a list: one placeholder per element, bound in
      order, so after substitution the list reads `(v1, v2, ...)`. */
  lemma InListAligned(keyword: string, vs: seq<Value>, lit: Value -> string)
    requires Plain(keyword)
    ensures Bound(InPart(keyword, List(vs)).1) == vs
    ensures Holders(InPart(keyword, List(vs)).0) == |vs|
    ensures Substitute(InPart(keyword, List(vs)).0, vs, lit) == keyword + "(" + Join(", ", Literals(vs, lit)) + ")"
  {
    var h := HolderList(|vs|);
    HolderListAligned(vs, lit);
    HoldersPlain(keyword + "(");
    HoldersPlain(")");
    SubstituteSuffix(h, ")", vs, lit);
    SubstitutePrefix(keyword + "(", h + ")", vs, lit);
    Assoc(keyword + "(", h, ")");
  }

  /** `is_in`/`not_in` with text: parentheses are optional; the text is
      wrapped unless it already starts with `(` and ends with `)`, and nothing
      is bound. */
  lemma InTextParenthesesOptional(keyword: string, s: string)
    requires s != "" && !(s[0] == '(' && s[|s| - 1] == ')')
    ensures InPart(keyword, Text("(" + s + ")")) == InPart(keyword, Text(s)) == (keyword + "(" + s + ")", NoBind)
  {
    var wrapped := "(" + s + ")";
    assert wrapped[0] == '(' && wrapped[|wrapped| - 1] == ')';
    assert keyword + wrapped == keyword + "(" + s + ")";
  }
}
