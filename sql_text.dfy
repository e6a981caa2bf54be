/**
 * The pieces every statement of the library is assembled from: PHP's
 * `implode`, `array_fill`, MySQL backtick quoting, the conjunctive WHERE
 * clause of `buildWhereClause` and the ORDER BY suffix of `orderParam`.
 */
module SqlText {
  import opened PhpArrays

  /** A query text and the values bound to its `?` placeholders, in order. */
  datatype Statement = Statement(text: string, binds: seq<Value>)

  /** `implode(sep, parts)` */
  function Join(parts: seq<string>, sep: string): string
    decreases |parts|
  {
    if |parts| == 0 then ""
    else if |parts| == 1 then parts[0]
    else Join(parts[..|parts| - 1], sep) + sep + parts[|parts| - 1]
  }

  /** `implode(sep, array_fill(0, n, '?'))` */
  function Placeholders(n: nat, sep: string): string {
    Join(seq(n, _ => "?"), sep)
  }

  /** MySQL identifier quoting, applied without escaping. */
  function Quote(name: string): string {
    "`" + name + "`"
  }

  /** The number of `?` characters in `s`. */
  function CountQ(s: string): nat {
    if |s| == 0 then 0 else (if s[0] == '?' then 1 else 0) + CountQ(s[1..])
  }

  /** An identifier that cannot be mistaken for a placeholder. */
  predicate Plain(name: string) {
    '?' !in name
  }

  predicate PlainKeys(w: seq<Entry>) {
    forall i | 0 <= i < |w| :: Plain(w[i].key)
  }

  /** The total number of `?` in a list of strings. */
  function SumQ(parts: seq<string>): nat {
    if |parts| == 0 then 0 else SumQ(parts[..|parts| - 1]) + CountQ(parts[|parts| - 1])
  }

  lemma {:induction false} CountQAppend(a: string, b: string)
    ensures CountQ(a + b) == CountQ(a) + CountQ(b)
  {
    if |a| > 0 {
      assert (a + b)[1..] == a[1..] + b;
      CountQAppend(a[1..], b);
    } else {
      assert a + b == b;
    }
  }

  lemma {:induction false} CountQPlain(s: string)
    requires Plain(s)
    ensures CountQ(s) == 0
  {
    if |s| > 0 {
      assert s == [s[0]] + s[1..];
      CountQPlain(s[1..]);
    }
  }

  /** A separator without `?` adds no placeholder to a joined list. */
  lemma {:induction false} CountQJoin(parts: seq<string>, sep: string)
    requires Plain(sep)
    ensures CountQ(Join(parts, sep)) == SumQ(parts)
    decreases |parts|
  {
    if |parts| == 1 {
      assert SumQ(parts) == SumQ(parts[..0]) + CountQ(parts[0]);
    } else if |parts| > 1 {
      var init := parts[..|parts| - 1];
      CountQJoin(init, sep);
      CountQAppend(Join(init, sep), sep);
      CountQAppend(Join(init, sep) + sep, parts[|parts| - 1]);
      CountQPlain(sep);
    }
  }

  /** `n` placeholders joined by a `?`-free separator hold exactly `n` of them. */
  lemma {:induction false} CountQPlaceholders(n: nat, sep: string)
    requires Plain(sep)
    ensures CountQ(Placeholders(n, sep)) == n
  {
    CountQJoin(seq(n, _ => "?"), sep);
    SumQRepeat(n);
  }

  lemma {:induction false} SumQRepeat(n: nat)
    ensures SumQ(seq(n, _ => "?")) == n
  {
    if n > 0 {
      assert seq(n, _ => "?")[..n - 1] == seq(n - 1, _ => "?");
      SumQRepeat(n - 1);
    }
  }

  lemma JoinSnoc(parts: seq<string>, x: string, sep: string)
    requires |parts| > 0
    ensures Join(parts + [x], sep) == Join(parts, sep) + sep + x
  {
    assert (parts + [x])[..|parts|] == parts;
  }

  // ---------------------------------------------------------------------
  // WHERE clauses (buildWhereClause)

  /** What follows the quoted column in a condition. */
  function Operator(v: Value): string {
    match v
    case Null => "IS NULL"
    case List(xs) => "IN(" + Placeholders(|xs|, ",") + ")"
    case _ => "= ?"
  }

  /** The condition one entry of a where map contributes. */
  function Condition(e: Entry): string {
    Quote(e.key) + " " + Operator(e.value)
  }

  /** The values one entry binds: none for null, the elements of a list, else the value. */
  function Bindings(v: Value): seq<Value> {
    match v
    case Null => []
    case List(xs) => xs
    case _ => [v]
  }

  function Conditions(w: seq<Entry>): (cs: seq<string>)
    ensures |cs| == |w|
  {
    seq(|w|, i requires 0 <= i < |w| => Condition(w[i]))
  }

  /** The clause text: one condition per entry, in map order, joined by AND. */
  function WhereText(w: seq<Entry>): string {
    Join(Conditions(w), " AND ")
  }

  /** The bound values: each entry's bindings, in map order. */
  function WhereBinds(w: seq<Entry>): seq<Value> {
    if |w| == 0 then [] else WhereBinds(w[..|w| - 1]) + Bindings(w[|w| - 1].value)
  }

  /** `AbstractModel::buildWhereClause`: the clause text and its bound values. */
  method BuildWhereClause(w: Row) returns (clause: string, binds: seq<Value>)
    ensures clause == WhereText(w)
    ensures binds == WhereBinds(w)
  {
    clause, binds := "", [];
    var i := 0;
    while i < |w|
      invariant 0 <= i <= |w|
      invariant clause == ClauseSoFar(w, i)
      invariant binds == WhereBinds(w[..i])
    {
      var e := w[i];
      // `$key !== $last`: keys are unique, so only the last entry is the last key
      var notLast := i != |w| - 1;
      var operator, hasBind := "= ?", true;
      if e.value == Null {
        operator, hasBind := "IS NULL", false;
      }
      var multipleValuesMode := e.value.List?;
      if multipleValuesMode {
        operator := "IN(" + Placeholders(|e.value.items|, ",") + ")";
      }
      assert operator == Operator(e.value);
      clause := clause + (Quote(e.key) + " " + operator);
      if notLast {
        clause := clause + " AND ";
      }
      ClauseStep(w, i);
      if multipleValuesMode {
        binds := binds + e.value.items;
      } else if hasBind {
        binds := binds + [e.value];
      }
      assert w[..i + 1][..i] == w[..i];
      i := i + 1;
    }
    assert w[..i] == w;
  }

  /** The clause text after `i` entries: a separator follows every condition but the last. */
  function ClauseSoFar(w: seq<Entry>, i: nat): string
    requires i <= |w|
  {
    WhereText(w[..i]) + (if 0 < i < |w| then " AND " else "")
  }

  lemma ClauseStep(w: seq<Entry>, i: nat)
    requires i < |w|
    ensures ClauseSoFar(w, i) + Condition(w[i]) + (if i != |w| - 1 then " AND " else "")
      == ClauseSoFar(w, i + 1)
  {
    WhereStep(w, i);
    var c := Condition(w[i]);
    var sep := if i != |w| - 1 then " AND " else "";
    assert ClauseSoFar(w, i + 1) == WhereText(w[..i + 1]) + sep;
    if i == 0 {
      assert ClauseSoFar(w, i) == "";
      assert "" + c == c;
    } else {
      var t := WhereText(w[..i]);
      assert ClauseSoFar(w, i) == t + " AND ";
      assert WhereText(w[..i + 1]) == t + " AND " + c;
    }
  }

  /** Extending a where map by one entry extends its clause and bindings by that entry's. */
  lemma WhereStep(w: seq<Entry>, i: nat)
    requires i < |w|
    ensures WhereText(w[..i + 1]) == if i == 0 then Condition(w[i]) else WhereText(w[..i]) + " AND " + Condition(w[i])
    ensures WhereBinds(w[..i + 1]) == WhereBinds(w[..i]) + Bindings(w[i].value)
  {
    assert w[..i + 1][..i] == w[..i];
    assert Conditions(w[..i + 1]) == Conditions(w[..i]) + [Condition(w[i])];
    if i > 0 {
      JoinSnoc(Conditions(w[..i]), Condition(w[i]), " AND ");
    }
  }

  /** A condition holds as many `?` as it binds values, when its key holds none. */
  lemma CountQCondition(e: Entry)
    requires Plain(e.key)
    ensures CountQ(Condition(e)) == |Bindings(e.value)|
  {
    CountQPlain(Quote(e.key) + " ");
    CountQAppend(Quote(e.key) + " ", Operator(e.value));
    CountQOperator(e.value);
  }

  lemma CountQOperator(v: Value)
    ensures CountQ(Operator(v)) == |Bindings(v)|
  {
    match v
    case Null =>
      CountQPlain("IS NULL");
    case List(xs) =>
      CountQPlaceholders(|xs|, ",");
      CountQAppend("IN(", Placeholders(|xs|, ","));
      CountQAppend("IN(" + Placeholders(|xs|, ","), ")");
    case _ =>
      assert CountQ("= ?") == 1;
  }

  lemma {:induction false} SumQConditions(w: seq<Entry>)
    requires PlainKeys(w)
    ensures SumQ(Conditions(w)) == |WhereBinds(w)|
  {
    if |w| > 0 {
      var init := w[..|w| - 1];
      assert Conditions(w)[..|w| - 1] == Conditions(init);
      SumQConditions(init);
      CountQCondition(w[|w| - 1]);
    }
  }

  /**
   * Every where clause has exactly as many placeholders as bound values,
   * provided no column name itself contains a `?`.
   */
  lemma WhereBalanced(w: seq<Entry>)
    requires PlainKeys(w)
    ensures CountQ(WhereText(w)) == |WhereBinds(w)|
  {
    CountQJoin(Conditions(w), " AND ");
    SumQConditions(w);
  }

  /**
   * A null value is matched with IS NULL and binds nothing; a two-element
   * list is matched with IN(?,?) and binds both elements in order.
   */
  lemma NullAndListConditions(x: Key, a: Value, b: Value)
    ensures WhereText([Entry(x, Null)]) == "`" + x + "`" + " IS NULL"
    ensures WhereBinds([Entry(x, Null)]) == []
    ensures WhereText([Entry(x, List([a, b]))]) == "`" + x + "`" + " IN(?,?)"
    ensures WhereBinds([Entry(x, List([a, b]))]) == [a, b]
  {
    var qs := seq(2, _ => "?");
    assert qs == ["?", "?"];
    assert qs[..1] == ["?"];
    assert Join(qs, ",") == "?" + "," + "?";
    assert "?" + "," + "?" == "?,?";
    assert "IN(" + "?,?" + ")" == "IN(?,?)";
    assert " " + "IN(?,?)" == " IN(?,?)";
    assert " " + "IS NULL" == " IS NULL";
    assert WhereBinds([Entry(x, List([a, b]))]) == WhereBinds([]) + [a, b];
  }

  // ---------------------------------------------------------------------
  // ORDER BY (orderParam)

  /** One entry of the `$order` map: a column and the direction text placed after it. */
  datatype Ordering = Ordering(column: Key, direction: string)

  function OrderTerm(o: Ordering): string {
    Quote(o.column) + " " + o.direction
  }

  function OrderTerms(os: seq<Ordering>): (ts: seq<string>)
    ensures |ts| == |os|
  {
    seq(|os|, i requires 0 <= i < |os| => OrderTerm(os[i]))
  }

  /** The ORDER BY suffix: empty for an empty map. */
  function OrderText(os: seq<Ordering>): string {
    if |os| == 0 then "" else " ORDER BY " + Join(OrderTerms(os), ", ")
  }

  /** `AbstractModel::orderParam` */
  method OrderParam(os: seq<Ordering>) returns (s: string)
    ensures s == OrderText(os)
  {
    if |os| == 0 {
      return "";
    }
    var terms: seq<string> := [];
    for i := 0 to |os|
      invariant terms == OrderTerms(os[..i])
    {
      assert os[..i + 1][..i] == os[..i];
      terms := terms + [Quote(os[i].column) + " " + os[i].direction];
    }
    assert os[..|os|] == os;
    s := " ORDER BY " + Join(terms, ", ");
  }
}
