/** Text helpers shared by the condition builder and the statement builder:
    Python's str() of a bind value, str.join, str.upper, str() of an integer,
    the count of `%s` placeholders in SQL text, and the positional substitution
    a MySQL driver performs when it executes that text with a bind list. */
module SqlText {

  datatype Option<T> = None | Some(value: T)

  /** A bind value. The builder only ever asks "is this a str?"; integers and
      booleans are kept apart so that their str() rendering is exact, and every
      other Python object is represented by its str(). */
  datatype Value = Str(s: string) | Int(i: int) | Bool(b: bool) | Other(repr: string)

  /** Python's `str(v)`. */
  function Repr(v: Value): (r: string)
    ensures v.Int? || v.Bool? ==> r != "" && Plain(r)
  {
    match v
    case Str(s) => s
    case Int(i) => IntToString(i)
    case Bool(b) => if b then "True" else "False"
    case Other(r) => r
  }

  /** Text with no `%` at all: the driver formats the statement with Python's
      `%` operator, so such text passes through it untouched. */
  predicate Plain(s: string) {
    '%' !in s
  }

  predicate StartsHolder(s: string) {
    |s| >= 2 && s[0] == '%' && s[1] == 's'
  }

  /** Number of `%s` placeholders in `s`, scanned left to right. */
  function Holders(s: string): nat
    decreases |s|
  {
    if s == [] then 0
    else if StartsHolder(s) then 1 + Holders(s[2..])
    else Holders(s[1..])
  }

  /** Every `%` in `s` opens a `%s`. The driver formats the statement with
      Python's `%` operator, which reads `%%`, `%d`, `%(` and the like as
      conversions of their own; on text of this shape the only conversions
      are the `%s` that `Holders` counts and `Substitute` fills. */
  predicate OnlyHolders(s: string)
    decreases |s|
  {
    if s == [] then true
    else if s[0] == '%' then StartsHolder(s) && OnlyHolders(s[2..])
    else OnlyHolders(s[1..])
  }

  /** Gluing `a` and `b` forms a placeholder across the seam. */
  predicate Straddles(a: string, b: string) {
    |a| > 0 && |b| > 0 && a[|a| - 1] == '%' && b[0] == 's'
  }

  /** The positional substitution the connection performs: the k-th `%s`
      becomes the rendering of the k-th bind. How a value is rendered
      (escaping, quoting) is the driver's business, so it is a parameter. */
  function Substitute(s: string, ps: seq<Value>, lit: Value -> string): string
    decreases |s|
  {
    if s == [] then ""
    else if StartsHolder(s) && ps != [] then lit(ps[0]) + Substitute(s[2..], ps[1..], lit)
    else [s[0]] + Substitute(s[1..], ps, lit)
  }

  /** Placeholders of a concatenation: those of each side, plus one if the
      seam itself spells `%s`. */
  lemma {:induction false} HoldersConcat(a: string, b: string)
    ensures Holders(a + b) == Holders(a) + Holders(b) + (if Straddles(a, b) then 1 else 0)
    decreases |a|
  {
    if a == [] {
      assert a + b == b;
    } else if StartsHolder(a) {
      assert StartsHolder(a + b);
      assert (a + b)[2..] == a[2..] + b;
      HoldersConcat(a[2..], b);
    } else if Straddles(a, b) && |a| == 1 {
      assert StartsHolder(a + b);
      assert (a + b)[2..] == b[1..];
      assert !StartsHolder(b);
    } else {
      assert !StartsHolder(a + b);
      assert (a + b)[1..] == a[1..] + b;
      HoldersConcat(a[1..], b);
    }
  }

  /** Text with no `%` has no placeholder. */
  lemma {:induction false} HoldersPlain(s: string)
    requires Plain(s)
    ensures Holders(s) == 0
    decreases |s|
  {
    if s != [] {
      assert !StartsHolder(s);
      assert Plain(s[1..]) by { assert forall i :: 0 <= i < |s[1..]| ==> s[1..][i] == s[i + 1]; }
      HoldersPlain(s[1..]);
    }
  }

  /** Text with no lower-case `s` has no placeholder either. */
  lemma {:induction false} HoldersWithoutS(s: string)
    requires 's' !in s
    ensures Holders(s) == 0
    decreases |s|
  {
    if s != [] {
      assert !StartsHolder(s);
      assert 's' !in s[1..] by { assert forall i :: 0 <= i < |s[1..]| ==> s[1..][i] == s[i + 1]; }
      HoldersWithoutS(s[1..]);
    }
  }

  /** Substitution leaves text without placeholders as it is. */
  lemma {:induction false} SubstituteNoHolders(s: string, ps: seq<Value>, lit: Value -> string)
    requires Holders(s) == 0
    ensures Substitute(s, ps, lit) == s
    decreases |s|
  {
    if s != [] {
      assert !StartsHolder(s);
      SubstituteNoHolders(s[1..], ps, lit);
    }
  }

  /** Binds line up with placeholders in text order: when `a` holds exactly
      the placeholders for `pa`, substituting `pa + pb` into `a + b` fills `a`
      from `pa` and `b` from `pb`. */
  lemma {:induction false} SubstituteConcat(a: string, b: string, pa: seq<Value>, pb: seq<Value>, lit: Value -> string)
    requires Holders(a) == |pa|
    requires !Straddles(a, b)
    ensures Substitute(a + b, pa + pb, lit) == Substitute(a, pa, lit) + Substitute(b, pb, lit)
    decreases |a|
  {
    if a == [] {
      assert a + b == b;
      assert pa + pb == pb;
    } else if StartsHolder(a) {
      assert StartsHolder(a + b);
      assert (a + b)[2..] == a[2..] + b;
      assert (pa + pb)[0] == pa[0];
      assert (pa + pb)[1..] == pa[1..] + pb;
      SubstituteConcat(a[2..], b, pa[1..], pb, lit);
    } else {
      assert !StartsHolder(a + b);
      assert (a + b)[1..] == a[1..] + b;
      SubstituteConcat(a[1..], b, pa, pb, lit);
    }
  }

  /** A glued text whose seam is safe has the placeholders of both sides, and
      substitution distributes over it. */
  lemma SubstituteGlue(a: string, b: string, pa: seq<Value>, pb: seq<Value>, lit: Value -> string)
    requires Holders(a) == |pa| && Holders(b) == |pb|
    requires !Straddles(a, b)
    ensures Holders(a + b) == |pa + pb|
    ensures Substitute(a + b, pa + pb, lit) == Substitute(a, pa, lit) + Substitute(b, pb, lit)
  {
    HoldersConcat(a, b);
    SubstituteConcat(a, b, pa, pb, lit);
  }

  lemma Assoc(a: string, b: string, c: string)
    ensures a + b + c == a + (b + c)
  {
  }

  /** Placeholder-free text in front of `b` passes through substitution. */
  lemma SubstitutePrefix(a: string, b: string, pb: seq<Value>, lit: Value -> string)
    requires Holders(a) == 0 && !Straddles(a, b)
    ensures Holders(a + b) == Holders(b)
    ensures Substitute(a + b, pb, lit) == a + Substitute(b, pb, lit)
  {
    HoldersConcat(a, b);
    SubstituteConcat(a, b, [], pb, lit);
    SubstituteNoHolders(a, [], lit);
    assert [] + pb == pb;
  }

  /** Placeholder-free text after `a` passes through substitution. */
  lemma SubstituteSuffix(a: string, b: string, pa: seq<Value>, lit: Value -> string)
    requires Holders(a) == |pa| && Holders(b) == 0 && !Straddles(a, b)
    ensures Holders(a + b) == |pa|
    ensures Substitute(a + b, pa, lit) == Substitute(a, pa, lit) + b
  {
    HoldersConcat(a, b);
    SubstituteConcat(a, b, pa, [], lit);
    SubstituteNoHolders(b, [], lit);
    assert pa + [] == pa;
  }

  /** Placeholder-free text between two aligned texts: the binds of the
      left text come first, those of the right text after. */
  lemma SubstituteAround(left: string, link: string, right: string, pl: seq<Value>, pr: seq<Value>, lit: Value -> string)
    requires Holders(left) == |pl| && Holders(link) == 0 && Holders(right) == |pr|
    requires !Straddles(link, right) && !Straddles(left, link + right)
    ensures Holders(left + link + right) == |pl + pr|
    ensures Substitute(left + link + right, pl + pr, lit) == Substitute(left, pl, lit) + link + Substitute(right, pr, lit)
  {
    SubstitutePrefix(link, right, pr, lit);
    SubstituteGlue(left, link + right, pl, pr, lit);
    Assoc(left, link, right);
  }

  /** Python's `sep.join(parts)`. */
  function Join(sep: string, parts: seq<string>): string {
    if |parts| == 0 then ""
    else if |parts| == 1 then parts[0]
    else parts[0] + sep + Join(sep, parts[1..])
  }

  /** `n` copies of `x`, as the builder's `[... for value in values]`. */
  function Repeat(x: string, n: nat): (r: seq<string>)
    ensures |r| == n && forall i :: 0 <= i < n ==> r[i] == x
  {
    seq(n, _ => x)
  }

  /** Element-wise `pres[i] + fills[i]`. */
  function Slots(pres: seq<string>, fills: seq<string>): (r: seq<string>)
    requires |pres| == |fills|
    ensures |r| == |pres| && forall i :: 0 <= i < |r| ==> r[i] == pres[i] + fills[i]
  {
    seq(|pres|, i requires 0 <= i < |pres| => pres[i] + fills[i])
  }

  /** The driver's rendering of each bind. */
  function Literals(ps: seq<Value>, lit: Value -> string): (r: seq<string>)
    ensures |r| == |ps| && forall i :: 0 <= i < |ps| ==> r[i] == lit(ps[i])
  {
    seq(|ps|, i requires 0 <= i < |ps| => lit(ps[i]))
  }

  lemma SubstituteOneHolder(pre: string, p: Value, lit: Value -> string)
    requires Plain(pre)
    ensures Holders(pre + "%s") == 1
    ensures Substitute(pre + "%s", [p], lit) == pre + lit(p)
  {
    HoldersPlain(pre);
    assert Holders("%s") == 1 by { assert StartsHolder("%s"); assert "%s"[2..] == ""; }
    assert Substitute("%s", [p], lit) == lit(p) by {
      assert StartsHolder("%s");
      assert "%s"[2..] == "";
      assert [p][1..] == [];
    }
    SubstituteNoHolders(pre, [], lit);
    SubstituteGlue(pre, "%s", [], [p], lit);
    assert [] + [p] == [p];
  }

  /** A joined list of slots `pre + "%s"` holds one placeholder per slot, and
      the binds land in the slots in order. */
  lemma {:induction false} JoinSlotsAligned(sep: string, pres: seq<string>, ps: seq<Value>, lit: Value -> string)
    requires Plain(sep) && |pres| == |ps|
    requires forall i :: 0 <= i < |pres| ==> Plain(pres[i])
    ensures Holders(Join(sep, Slots(pres, Repeat("%s", |ps|)))) == |ps|
    ensures Substitute(Join(sep, Slots(pres, Repeat("%s", |ps|))), ps, lit)
         == Join(sep, Slots(pres, Literals(ps, lit)))
    decreases |ps|
  {
    if |ps| == 1 {
      SubstituteOneHolder(pres[0], ps[0], lit);
      assert ps == [ps[0]];
    } else if |ps| > 1 {
      JoinSlotsAligned(sep, pres[1..], ps[1..], lit);
      SlotsTail(pres, ps, lit);
      var rest := Join(sep, Slots(pres[1..], Repeat("%s", |ps| - 1)));
      var restFilled := Join(sep, Slots(pres[1..], Literals(ps[1..], lit)));
      SlotStep(sep, pres[0], ps[0], rest, restFilled, ps[1..], lit);
      assert ps == [ps[0]] + ps[1..];
    }
  }

  lemma SlotsTail(pres: seq<string>, ps: seq<Value>, lit: Value -> string)
    requires |pres| == |ps| > 0
    ensures Slots(pres, Repeat("%s", |ps|))[1..] == Slots(pres[1..], Repeat("%s", |ps| - 1))
    ensures Slots(pres, Literals(ps, lit))[1..] == Slots(pres[1..], Literals(ps[1..], lit))
  {
  }

  /** One slot in front of a joined rest: the slot's bind comes first. */
  lemma SlotStep(sep: string, pre: string, p: Value, rest: string, restFilled: string, ps: seq<Value>,
                 lit: Value -> string)
    requires Plain(sep) && Plain(pre) && Holders(rest) == |ps| && Substitute(rest, ps, lit) == restFilled
    ensures Holders(pre + "%s" + sep + rest) == |[p] + ps|
    ensures Substitute(pre + "%s" + sep + rest, [p] + ps, lit) == pre + lit(p) + sep + restFilled
  {
    SubstituteOneHolder(pre, p, lit);
    HoldersPlain(sep);
    PlainNoStraddle(sep, rest);
    SubstitutePrefix(sep, rest, ps, lit);
    SubstituteGlue(pre + "%s", sep + rest, [p], ps, lit);
    Assoc(pre + "%s", sep, rest);
    Assoc(pre + lit(p), sep, restFilled);
  }

  lemma SlotsWithoutPrefixes(fills: seq<string>)
    ensures Slots(Repeat("", |fills|), fills) == fills
  {
    var r := Slots(Repeat("", |fills|), fills);
    forall i | 0 <= i < |fills|
      ensures r[i] == fills[i]
    {
      assert Repeat("", |fills|)[i] == "";
      assert "" + fills[i] == fills[i];
    }
  }

  /** A separator-joined run of placeholders, one per bind, takes the binds
      in order. */
  lemma JoinHoldersAligned(sep: string, ps: seq<Value>, lit: Value -> string)
    requires Plain(sep)
    ensures Holders(Join(sep, Repeat("%s", |ps|))) == |ps|
    ensures Substitute(Join(sep, Repeat("%s", |ps|)), ps, lit) == Join(sep, Literals(ps, lit))
  {
    SlotsWithoutPrefixes(Repeat("%s", |ps|));
    SlotsWithoutPrefixes(Literals(ps, lit));
    JoinSlotsAligned(sep, Repeat("", |ps|), ps, lit);
  }

  /** Text without `%` cannot end half of a placeholder. */
  lemma PlainNoStraddle(a: string, b: string)
    requires Plain(a)
    ensures !Straddles(a, b)
  {
    if |a| > 0 {
      assert a[|a| - 1] in a;
    }
  }

  /** `%`-free text is trivially of the driver's shape. */
  lemma {:induction false} PlainOnlyHolders(s: string)
    requires Plain(s)
    ensures OnlyHolders(s)
    decreases |s|
  {
    if s != [] {
      assert s[0] in s;
      assert forall x :: x in s[1..] ==> x in s;
      PlainOnlyHolders(s[1..]);
    }
  }

  /** Text of the driver's shape stays so under concatenation: it cannot end
      in a lone `%`, so no new conversion forms across the seam. */
  lemma {:induction false} OnlyHoldersConcat(a: string, b: string)
    requires OnlyHolders(a) && OnlyHolders(b)
    ensures OnlyHolders(a + b)
    decreases |a|
  {
    if a == [] {
      assert a + b == b;
    } else if a[0] == '%' {
      assert (a + b)[2..] == a[2..] + b;
      OnlyHoldersConcat(a[2..], b);
    } else {
      assert (a + b)[1..] == a[1..] + b;
      OnlyHoldersConcat(a[1..], b);
    }
  }

  /** A join of parts of the driver's shape with a `%`-free separator is of
      the driver's shape. */
  lemma {:induction false} JoinOnlyHolders(sep: string, parts: seq<string>)
    requires Plain(sep)
    requires forall i :: 0 <= i < |parts| ==> OnlyHolders(parts[i])
    ensures OnlyHolders(Join(sep, parts))
    decreases |parts|
  {
    if |parts| == 0 {
      PlainOnlyHolders("");
    } else if |parts| > 1 {
      JoinOnlyHolders(sep, parts[1..]);
      PlainOnlyHolders(sep);
      OnlyHoldersConcat(parts[0], sep);
      OnlyHoldersConcat(parts[0] + sep, Join(sep, parts[1..]));
    }
  }

  /** A join of `%`-free parts with a `%`-free separator is `%`-free. */
  lemma {:induction false} JoinPlain(sep: string, parts: seq<string>)
    requires Plain(sep)
    requires forall i :: 0 <= i < |parts| ==> Plain(parts[i])
    ensures Plain(Join(sep, parts))
    decreases |parts|
  {
    if |parts| > 1 {
      JoinPlain(sep, parts[1..]);
    }
  }

  function UpperChar(c: char): char {
    if 'a' <= c <= 'z' then (c as int - 32) as char else c
  }

  /** Python's `str.upper()`, restricted to ASCII letters. */
  function Upper(s: string): (r: string)
    ensures |r| == |s|
    ensures forall i :: 0 <= i < |s| ==> r[i] == UpperChar(s[i])
    ensures forall i :: 0 <= i < |r| ==> !('a' <= r[i] <= 'z')
  {
    if s == [] then [] else [UpperChar(s[0])] + Upper(s[1..])
  }

  /** An upper-cased word never spells a placeholder. */
  lemma UpperHasNoHolders(s: string)
    ensures Holders(Upper(s)) == 0
  {
    var r := Upper(s);
    assert 's' !in r by {
      forall i | 0 <= i < |r| ensures r[i] != 's' { }
    }
    HoldersWithoutS(r);
  }

  predicate IsDigit(c: char) {
    '0' <= c <= '9'
  }

  predicate AllDigits(s: string) {
    forall i :: 0 <= i < |s| ==> IsDigit(s[i])
  }

  function DigitChar(d: nat): (c: char)
    requires d < 10
    ensures IsDigit(c)
  {
    ('0' as int + d) as char
  }

  /** Python's `str(n)` for a non-negative integer. */
  function NatToString(n: nat): (r: string)
    ensures |r| > 0 && AllDigits(r)
    decreases n
  {
    if n < 10 then [DigitChar(n)] else NatToString(n / 10) + [DigitChar(n % 10)]
  }

  /** Python's `str(i)`. */
  function IntToString(i: int): (r: string)
    ensures |r| > 0 && Plain(r) && ',' !in r
  {
    if i < 0 then "-" + NatToString(-i) else NatToString(i)
  }

  function DigitsValue(s: string): nat
    requires AllDigits(s)
  {
    if s == [] then 0
    else 10 * DigitsValue(s[..|s| - 1]) + (s[|s| - 1] as int - '0' as int)
  }

  /** Reads back `str(i)`: an optional `-` followed by decimal digits. */
  function ParseInt(s: string): Option<int> {
    if s != [] && AllDigits(s) then Some(DigitsValue(s))
    else if |s| > 1 && s[0] == '-' && AllDigits(s[1..]) then Some(-(DigitsValue(s[1..]) as int))
    else None
  }

  lemma {:induction false} NatToStringRoundTrip(n: nat)
    ensures DigitsValue(NatToString(n)) == n
    decreases n
  {
    if n >= 10 {
      var s := NatToString(n);
      assert s[..|s| - 1] == NatToString(n / 10);
      NatToStringRoundTrip(n / 10);
    }
  }

  /** Reading back `str(i)` gives `i`. */
  lemma IntToStringRoundTrip(i: int)
    ensures ParseInt(IntToString(i)) == Some(i)
  {
    if i < 0 {
      var s := IntToString(i);
      assert s[1..] == NatToString(-i);
      assert !AllDigits(s) by { assert !IsDigit(s[0]); }
      NatToStringRoundTrip(-i);
    } else {
      NatToStringRoundTrip(i);
    }
  }
}
