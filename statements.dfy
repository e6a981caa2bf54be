/**
 * The exact statements `AbstractModel` sends, as functions of the model's
 * table, primary key and fields, and the fact that each of them carries as
 * many `?` placeholders as bound values.
 */
module Statements {
  import opened Common
  import opened PhpArrays
  import opened SqlText
  import opened Records

  /** `$primaryKey`: one column (a string) or several (an array). */
  datatype PrimaryKey = Column(name: Key) | Columns(names: seq<Key>)

  /** A single column is normalised to a one-element list. */
  function KeyNames(pk: PrimaryKey): seq<Key> {
    match pk
    case Column(k) => [k]
    case Columns(ks) => ks
  }

  /**
   * The where map of `getPrimaryKeyClause`: each key column that exists in
   * the fields (even holding null), with its current value.
   */
  function PkWhere(names: seq<Key>, data: Row): Row {
    if |names| == 0 then []
    else
      var w := PkWhere(names[..|names| - 1], data);
      var k := names[|names| - 1];
      if k in KeysOf(data) then Put(w, k, Current(data, k)) else w
  }

  /** The primary-key where map holds exactly the key columns present in the fields, with their values. */
  lemma {:induction false} PkWhereLookup(names: seq<Key>, data: Row, k: Key)
    ensures Lookup(PkWhere(names, data), k) ==
      if k in names && k in KeysOf(data) then Lookup(data, k) else None
    decreases |names|
  {
    if |names| > 0 {
      var init, last := names[..|names| - 1], names[|names| - 1];
      PkWhereLookup(init, data, k);
      assert names == init + [last];
      if last in KeysOf(data) {
        PutLookup(PkWhere(init, data), last, Current(data, last), k);
      }
    }
  }

  /** A single-column key present with a null value is matched with IS NULL and binds nothing. */
  lemma PkWhereNull(k: Key, data: Row)
    requires Lookup(data, k) == Some(Null)
    ensures WhereText(PkWhere([k], data)) == Quote(k) + " IS NULL"
    ensures WhereBinds(PkWhere([k], data)) == []
  {
    assert PkWhere([k], data) == [Entry(k, Null)];
  }

  /** `save`: every field, keys unquoted, one `?` per value. */
  function InsertStatement(table: string, data: Row): Statement {
    Statement(
      "INSERT INTO `" + table + "` (" + Join(KeysOf(data), ", ") + ")"
        + " VALUES (" + Placeholders(|ValuesOf(data)|, ", ") + ");",
      ValuesOf(data))
  }

  /** All values of all rows, row after row. */
  function Flatten(rows: seq<seq<Value>>): seq<Value> {
    if |rows| == 0 then [] else Flatten(rows[..|rows| - 1]) + rows[|rows| - 1]
  }

  function BatchGroup(width: nat): string {
    " (" + Placeholders(width, ", ") + ")"
  }

  /** `saveBatch`: the first instance's keys, one placeholder group per row. */
  function BatchInsertStatement(table: string, keys: seq<Key>, rows: seq<seq<Value>>): Statement {
    Statement(
      "INSERT INTO `" + table + "` (" + Join(keys, ", ") + ") VALUES"
        + Join(seq(|rows|, _ => BatchGroup(|keys|)), ","),
      Flatten(rows))
  }

  function SetTerms(dirty: seq<Key>): (ts: seq<string>)
    ensures |ts| == |dirty|
  {
    seq(|dirty|, i requires 0 <= i < |dirty| => Quote(dirty[i]) + " = ?")
  }

  /** The current values of the dirty keys, a key missing from the fields reading as null. */
  function DirtyValues(data: Row, dirty: seq<Key>): (vs: seq<Value>)
    ensures |vs| == |dirty|
    ensures forall i | 0 <= i < |dirty| :: vs[i] == Current(data, dirty[i])
  {
    seq(|dirty|, i requires 0 <= i < |dirty| => Current(data, dirty[i]))
  }

  /** `update`: SET over exactly the dirty keys, then the primary-key clause. */
  function UpdateStatement(table: string, pk: PrimaryKey, rec: Record): Statement {
    var w := PkWhere(KeyNames(pk), rec.data);
    Statement(
      "UPDATE `" + table + "` SET " + Join(SetTerms(rec.dirty), ", ") + " WHERE " + WhereText(w) + ";",
      DirtyValues(rec.data, rec.dirty) + WhereBinds(w))
  }

  /** `findWhere`, `refresh` (with LIMIT 1) and `collectWhere` (without). */
  function SelectWhereStatement(table: string, w: seq<Entry>, limitOne: bool): Statement {
    Statement(
      "SELECT * FROM `" + table + "` WHERE " + WhereText(w) + (if limitOne then " LIMIT 1;" else ";"),
      WhereBinds(w))
  }

  /** `fetchAll` */
  function SelectAllStatement(table: string, order: seq<Ordering>): Statement {
    Statement("SELECT * FROM `" + table + "`" + OrderText(order) + ";", [])
  }

  /** `deleteWhere` and `delete` */
  function DeleteWhereStatement(table: string, w: seq<Entry>): Statement {
    Statement("DELETE FROM `" + table + "` WHERE " + WhereText(w) + ";", WhereBinds(w))
  }

  /** `deleteAll` */
  function DeleteAllStatement(table: string): Statement {
    Statement("DELETE FROM `" + table + "`;", [])
  }

  // ---------------------------------------------------------------------
  // Every statement has one placeholder per bound value

  predicate Balanced(st: Statement) {
    CountQ(st.text) == |st.binds|
  }

  predicate AllPlain(names: seq<string>) {
    forall i | 0 <= i < |names| :: Plain(names[i])
  }

  lemma {:induction false} SumQPlain(names: seq<string>)
    requires AllPlain(names)
    ensures SumQ(names) == 0
    decreases |names|
  {
    if |names| > 0 {
      SumQPlain(names[..|names| - 1]);
      CountQPlain(names[|names| - 1]);
    }
  }

  /** Text without `?` around a part adds no placeholder to it. */
  lemma CountQAround(a: string, b: string, c: string)
    requires Plain(a) && Plain(c)
    ensures CountQ(a + b + c) == CountQ(b)
  {
    CountQAppend(a + b, c);
    CountQAppend(a, b);
    CountQPlain(a);
    CountQPlain(c);
  }

  /** Appending text without `?` adds no placeholder. */
  lemma CountQPlainSuffix(a: string, b: string)
    requires Plain(b)
    ensures CountQ(a + b) == CountQ(a)
  {
    CountQAppend(a, b);
    CountQPlain(b);
  }

  /** Appending a `?`-free list of names joined by a `?`-free separator adds no placeholder. */
  lemma CountQNamesSuffix(a: string, names: seq<string>, sep: string)
    requires AllPlain(names) && Plain(sep)
    ensures CountQ(a + Join(names, sep)) == CountQ(a)
  {
    CountQAppend(a, Join(names, sep));
    CountQJoin(names, sep);
    SumQPlain(names);
  }

  lemma InsertBalanced(table: string, data: Row)
    requires Plain(table) && PlainKeys(data)
    ensures Balanced(InsertStatement(table, data))
  {
    var n := |ValuesOf(data)|;
    var s1 := "INSERT INTO `" + table + "` (";
    CountQPlain(s1);
    assert AllPlain(KeysOf(data));
    CountQNamesSuffix(s1, KeysOf(data), ", ");
    var s2 := s1 + Join(KeysOf(data), ", ");
    CountQPlainSuffix(s2, ")");
    CountQPlainSuffix(s2 + ")", " VALUES (");
    var s4 := s2 + ")" + " VALUES (";
    CountQAppend(s4, Placeholders(n, ", "));
    CountQPlaceholders(n, ", ");
    CountQPlainSuffix(s4 + Placeholders(n, ", "), ");");
  }

  /** Every row has as many values as there are keys. */
  predicate Uniform(rows: seq<seq<Value>>, width: nat) {
    forall i | 0 <= i < |rows| :: |rows[i]| == width
  }

  lemma {:induction false} FlattenLength(rows: seq<seq<Value>>, width: nat)
    requires Uniform(rows, width)
    ensures |Flatten(rows)| == |rows| * width
    decreases |rows|
  {
    if |rows| > 0 {
      FlattenLength(rows[..|rows| - 1], width);
    }
  }

  lemma {:induction false} SumQGroups(n: nat, width: nat)
    ensures SumQ(seq(n, _ => BatchGroup(width))) == n * width
  {
    if n > 0 {
      assert seq(n, _ => BatchGroup(width))[..n - 1] == seq(n - 1, _ => BatchGroup(width));
      SumQGroups(n - 1, width);
      CountQPlaceholders(width, ", ");
      CountQAround(" (", Placeholders(width, ", "), ")");
    }
  }

  /** A batch insert is balanced when every instance has as many values as the first has keys. */
  lemma BatchBalanced(table: string, keys: seq<Key>, rows: seq<seq<Value>>)
    requires Plain(table) && AllPlain(keys) && Uniform(rows, |keys|)
    ensures Balanced(BatchInsertStatement(table, keys, rows))
  {
    var head := "INSERT INTO `" + table + "` (" + Join(keys, ", ") + ") VALUES";
    var groups := seq(|rows|, _ => BatchGroup(|keys|));
    SumQPlain(keys);
    CountQJoin(keys, ", ");
    CountQAround("INSERT INTO `" + table + "` (", Join(keys, ", "), ") VALUES");
    CountQJoin(groups, ",");
    SumQGroups(|rows|, |keys|);
    CountQAppend(head, Join(groups, ","));
    FlattenLength(rows, |keys|);
  }

  lemma {:induction false} SumQSetTerms(dirty: seq<Key>)
    requires AllPlain(dirty)
    ensures SumQ(SetTerms(dirty)) == |dirty|
    decreases |dirty|
  {
    if |dirty| > 0 {
      var n := |dirty| - 1;
      assert SetTerms(dirty)[..n] == SetTerms(dirty[..n]);
      SumQSetTerms(dirty[..n]);
      CountQPlain(Quote(dirty[n]));
      CountQAppend(Quote(dirty[n]), " = ?");
      assert CountQ(" = ?") == 1;
    }
  }

  /** The primary-key where map only holds column names that the fields hold. */
  lemma PkWherePlain(names: seq<Key>, data: Row)
    requires PlainKeys(data)
    ensures PlainKeys(PkWhere(names, data))
  {
    var w := PkWhere(names, data);
    forall i | 0 <= i < |w| ensures Plain(w[i].key) {
      PkWhereLookup(names, data, w[i].key);
      LookupAt(w, i);
      var j := IndexOf(data, w[i].key);
    }
  }

  lemma UpdateBalanced(table: string, pk: PrimaryKey, rec: Record)
    requires Plain(table) && AllPlain(rec.dirty) && PlainKeys(rec.data)
    ensures Balanced(UpdateStatement(table, pk, rec))
  {
    var w := PkWhere(KeyNames(pk), rec.data);
    PkWherePlain(KeyNames(pk), rec.data);
    WhereBalanced(w);
    var s1 := "UPDATE `" + table + "` SET ";
    CountQPlain(s1);
    CountQAppend(s1, Join(SetTerms(rec.dirty), ", "));
    CountQJoin(SetTerms(rec.dirty), ", ");
    SumQSetTerms(rec.dirty);
    var s2 := s1 + Join(SetTerms(rec.dirty), ", ");
    CountQPlainSuffix(s2, " WHERE ");
    CountQAppend(s2 + " WHERE ", WhereText(w));
    CountQPlainSuffix(s2 + " WHERE " + WhereText(w), ";");
    assert |DirtyValues(rec.data, rec.dirty) + WhereBinds(w)| == |rec.dirty| + |WhereBinds(w)|;
  }

  lemma SelectWhereBalanced(table: string, w: seq<Entry>, limitOne: bool)
    requires Plain(table) && PlainKeys(w)
    ensures Balanced(SelectWhereStatement(table, w, limitOne))
  {
    WhereBalanced(w);
    CountQAround("SELECT * FROM `" + table + "` WHERE ", WhereText(w), if limitOne then " LIMIT 1;" else ";");
  }

  lemma DeleteWhereBalanced(table: string, w: seq<Entry>)
    requires Plain(table) && PlainKeys(w)
    ensures Balanced(DeleteWhereStatement(table, w))
  {
    WhereBalanced(w);
    CountQAround("DELETE FROM `" + table + "` WHERE ", WhereText(w), ";");
  }

  /** Order terms built from `?`-free columns and directions are `?`-free. */
  lemma OrderTermsPlain(order: seq<Ordering>)
    requires forall i | 0 <= i < |order| :: Plain(order[i].column) && Plain(order[i].direction)
    ensures AllPlain(OrderTerms(order))
  {
    forall i | 0 <= i < |order| ensures Plain(OrderTerms(order)[i]) {
      var o := order[i];
      assert OrderTerms(order)[i] == "`" + o.column + "`" + " " + o.direction;
    }
  }

  lemma SelectAllBalanced(table: string, order: seq<Ordering>)
    requires Plain(table)
    requires forall i | 0 <= i < |order| :: Plain(order[i].column) && Plain(order[i].direction)
    ensures Balanced(SelectAllStatement(table, order))
  {
    var s1 := "SELECT * FROM `" + table + "`";
    CountQPlain(s1);
    OrderTextPlain(order);
    CountQAppend(s1, OrderText(order));
    CountQPlainSuffix(s1 + OrderText(order), ";");
  }

  /** The ORDER BY suffix of `?`-free columns and directions has no placeholder. */
  lemma OrderTextPlain(order: seq<Ordering>)
    requires forall i | 0 <= i < |order| :: Plain(order[i].column) && Plain(order[i].direction)
    ensures CountQ(OrderText(order)) == 0
  {
    if |order| > 0 {
      var terms := OrderTerms(order);
      OrderTermsPlain(order);
      CountQJoin(terms, ", ");
      SumQPlain(terms);
      CountQAppend(" ORDER BY ", Join(terms, ", "));
    }
  }
}
