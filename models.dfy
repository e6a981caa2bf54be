/**
 * `AbstractModel`: a model instance with its fields and dirty keys, and the
 * static operations of a concrete model class. Every operation that talks
 * to the database goes through the main connection's `query`; the driver's
 * answer is an input (`answer`), and `sent` is the statement handed to
 * `query` (`None` when the operation never got that far).
 */
module Models {
  import opened Common
  import opened PhpArrays
  import opened SqlText
  import opened Records
  import opened Statements
  import opened Connections

  /**
   * What a concrete model class declares: its table, its primary key and its
   * `transform` hook (the identity unless overridden).
   */
  datatype Schema = Schema(table: string, primaryKey: PrimaryKey, transform: Row -> Row)

  /** The sample model of `examples/User.php`. */
  function UsersSchema(): Schema {
    Schema("users", Column("user_uuid"), row => row)
  }

  /** What `Database::getInstance()->query(...)` yields, given the driver's answer. */
  function Outcome(reg: Registry, answer: Answer): (r: Result<Reply, Error>)
    reads reg, reg.instances.Values
    ensures r.Ok? <==> (MAIN_CONNECTION in reg.instances
      && reg.instances[MAIN_CONNECTION].connection.Some? && answer.Replied?)
  {
    if MAIN_CONNECTION !in reg.instances then Err(NeverCreated(MAIN_CONNECTION))
    else if reg.instances[MAIN_CONNECTION].connection.None? then Err(NotConnected)
    else Delivered(answer)
  }

  /** The statement reaches `query` whenever the main instance exists. */
  function SentTo(reg: Registry, st: Statement): (sent: Option<Statement>)
    reads reg
    ensures sent.Some? <==> MAIN_CONNECTION in reg.instances
    ensures sent.Some? ==> sent.value == st
  {
    if MAIN_CONNECTION in reg.instances then Some(st) else None
  }

  /** `rowCount() === n` on a reply; an exception propagates. */
  function RowCountIs(o: Result<Reply, Error>, n: int): Result<bool, Error> {
    match o
    case Err(e) => Err(e)
    case Ok(rep) => Ok(rep.rowCount == n)
  }

  /** `errorCode() === '00000'` on a reply; an exception propagates. */
  function NoErrorCode(o: Result<Reply, Error>): Result<bool, Error> {
    match o
    case Err(e) => Err(e)
    case Ok(rep) => Ok(rep.errorCode == "00000")
  }

  /**
   * `Database::getInstance()->query($text, $binds)` on the main slot.
   */
  method Dispatch(reg: Registry, st: Statement, answer: Answer) returns (sent: Option<Statement>, r: Result<Reply, Error>)
    ensures sent == SentTo(reg, st)
    ensures r == Outcome(reg, answer)
  {
    var instance := reg.GetInstance(MAIN_CONNECTION);
    if instance.Err? {
      return None, Err(instance.error);
    }
    sent := Some(st);
    r := instance.value.Query(st.text, st.binds, answer);
  }

  /**
   * The back-fill after `save`: the inserted id (as the driver's string) goes
   * into a single-column key that is unset or null, unless the id is '0'.
   */
  function BackFilled(data: Row, pk: PrimaryKey, insertedId: string): Row {
    if insertedId != "0" && pk.Column? && Current(data, pk.name) == Null
    then Put(data, pk.name, Str(insertedId))
    else data
  }

  /**
   * The back-fill writes at most the key column, and writes it exactly when
   * the id is not '0', the key is a single column and its value is unset or null.
   */
  lemma BackFillEffect(data: Row, pk: PrimaryKey, insertedId: string, k: Key)
    ensures var filled := insertedId != "0" && pk.Column? && Current(data, pk.name) == Null;
      Lookup(BackFilled(data, pk, insertedId), k) ==
        if filled && k == pk.name then Some(Str(insertedId)) else Lookup(data, k)
  {
    if insertedId != "0" && pk.Column? && Current(data, pk.name) == Null {
      PutLookup(data, pk.name, Str(insertedId), k);
    }
  }

  /** The value rows of a list of instances (`getValues` of each). */
  function ValueRows(instances: seq<Model>): (rows: seq<seq<Value>>)
    reads instances
    ensures |rows| == |instances|
    ensures forall i | 0 <= i < |instances| :: rows[i] == ValuesOf(instances[i].data)
  {
    if |instances| == 0 then []
    else ValueRows(instances[..|instances| - 1]) + [ValuesOf(instances[|instances| - 1].data)]
  }

  class Model {
    const schema: Schema
    var data: Row
    var keysToModify: KeyList

    /** `new static()`: no fields, nothing dirty. */
    constructor (schema: Schema)
      ensures this.schema == schema && data == [] && keysToModify == []
    {
      this.schema := schema;
      data, keysToModify := [], [];
    }

    function Rec(): Record
      reads this
    {
      Record(data, keysToModify)
    }

    /** `getKeys` */
    function GetKeys(): (ks: seq<Key>)
      reads this
      ensures |ks| == |data| && forall i | 0 <= i < |data| :: ks[i] == data[i].key
    {
      KeysOf(data)
    }

    /** `getValues` */
    function GetValues(): (vs: seq<Value>)
      reads this
      ensures |vs| == |data| && forall i | 0 <= i < |data| :: vs[i] == data[i].value
    {
      ValuesOf(data)
    }

    /** `getValue`: the value under `k`, null when the key is missing. */
    function GetValue(k: Key): (v: Value)
      reads this
      ensures forall i | 0 <= i < |data| && data[i].key == k :: v == data[i].value
      ensures k !in KeysOf(data) ==> v == Null
    {
      forall i | 0 <= i < |data| && data[i].key == k ensures Current(data, k) == data[i].value {
        LookupAt(data, i);
      }
      Current(data, k)
    }

    /** `toArray` */
    function ToArray(): (r: Row)
      reads this
      ensures KeysOf(r) == GetKeys() && ValuesOf(r) == GetValues()
    {
      data
    }

    /** `hasChanges` */
    function HasChanges(): (b: bool)
      reads this
      ensures b <==> Records.HasChanges(Rec())
    {
      |keysToModify| > 0
    }

    /** `getChangedKeys`: the dirty keys, in the order they were first marked. */
    function GetChangedKeys(): (ks: seq<Key>)
      reads this
      ensures ks == Rec().dirty
    {
      keysToModify
    }

    /** `getTable` */
    /** `getTable`: the table the concrete model class declares. */
    function GetTable(): (t: string)
      ensures t == schema.table
    {
      schema.table
    }

    /** `getKey`: the single key column's value (null when missing); refused for a composite key. */
    function GetKey(): (r: Result<Value, Error>)
      reads this
      ensures schema.primaryKey.Columns? <==> r == Err(MultipleKey)
      ensures schema.primaryKey.Column? ==> r == Ok(GetValue(schema.primaryKey.name))
    {
      match schema.primaryKey
      case Columns(_) => Err(MultipleKey)
      case Column(k) => Ok(Current(data, k))
    }

    /** `set` */
    method Set(k: Key, v: Value)
      modifies this`data, this`keysToModify
      ensures Rec() == Setting(old(Rec()), k, v)
    {
      if Current(data, k) == v {
        return; // no changes to apply
      }
      data := Put(data, k, v);
      keysToModify := Mark(keysToModify, k);
    }

    /** `mergeData` */
    method MergeData(d: Row)
      modifies this`data, this`keysToModify
      ensures Rec() == Merging(old(Rec()), d)
    {
      for i := 0 to |d|
        invariant Rec() == Merging(old(Rec()), d[..i])
      {
        assert d[..i + 1][..i] == d[..i];
        Set(d[i].key, d[i].value);
      }
      assert d[..|d|] == d;
    }

    /** `setData` */
    method SetData(d: Row)
      modifies this`data
      ensures Rec() == Replacing(old(Rec()), d)
    {
      data := d;
    }

    /** `getPrimaryKeyClause` */
    method GetPrimaryKeyClause() returns (clause: string, binds: seq<Value>)
      ensures clause == WhereText(PkWhere(KeyNames(schema.primaryKey), data))
      ensures binds == WhereBinds(PkWhere(KeyNames(schema.primaryKey), data))
    {
      var keyNames := KeyNames(schema.primaryKey);
      var dataWhere: Row := [];
      for i := 0 to |keyNames|
        invariant dataWhere == PkWhere(keyNames[..i], data)
      {
        assert keyNames[..i + 1][..i] == keyNames[..i];
        var keyName := keyNames[i];
        if keyName in KeysOf(data) {
          dataWhere := Put(dataWhere, keyName, Current(data, keyName));
        }
      }
      assert keyNames[..|keyNames|] == keyNames;
      clause, binds := BuildWhereClause(dataWhere);
    }

    /** `save` */
    method Save(reg: Registry, answer: Answer) returns (sent: Option<Statement>, r: Result<bool, Error>)
      modifies this`data
      ensures sent == SentTo(reg, InsertStatement(schema.table, old(data)))
      ensures r == RowCountIs(Outcome(reg, answer), 1)
      ensures data == match Outcome(reg, answer)
        case Err(_) => old(data)
        case Ok(rep) => BackFilled(old(data), schema.primaryKey, rep.lastInsertId)
    {
      var keys := Join(GetKeys(), ", ");
      var values := ValuesOf(data);
      var valuesPlaceholders := Placeholders(|values|, ", ");
      var query := "INSERT INTO `" + schema.table + "` (" + keys + ")"
        + " VALUES (" + valuesPlaceholders + ");";
      var outcome;
      sent, outcome := Dispatch(reg, Statement(query, values), answer);
      if outcome.Err? {
        return sent, Err(outcome.error);
      }
      var insertedId := outcome.value.lastInsertId;
      // '0' is what the driver returns when it could not give an id
      if insertedId != "0" && schema.primaryKey.Column? && Current(data, schema.primaryKey.name) == Null {
        data := Put(data, schema.primaryKey.name, Str(insertedId));
      }
      r := Ok(outcome.value.rowCount == 1);
    }

    /** `update` */
    method Update(reg: Registry, answer: Answer) returns (sent: Option<Statement>, r: Result<bool, Error>)
      modifies this`keysToModify
      ensures old(keysToModify) == [] ==> sent == None && r == Ok(false)
      ensures old(keysToModify) != [] ==>
        sent == SentTo(reg, UpdateStatement(schema.table, schema.primaryKey, old(Rec())))
        && r == RowCountIs(Outcome(reg, answer), 1)
      ensures keysToModify == if r == Ok(true) then [] else old(keysToModify)
    {
      if !HasChanges() {
        return None, Ok(false);
      }
      var pkClause, pkBinds := GetPrimaryKeyClause();
      var values: seq<Value> := [];
      var valuesPlaceholders: seq<string> := [];
      for i := 0 to |keysToModify|
        invariant valuesPlaceholders == SetTerms(keysToModify[..i])
        invariant values == DirtyValues(data, keysToModify[..i])
      {
        var key := keysToModify[i];
        valuesPlaceholders := valuesPlaceholders + [Quote(key) + " = ?"];
        values := values + [Current(data, key)];
      }
      assert keysToModify[..|keysToModify|] == keysToModify;
      values := values + pkBinds;
      var query := "UPDATE `" + schema.table + "` SET "
        + Join(valuesPlaceholders, ", ") + " WHERE " + pkClause + ";";
      var outcome;
      sent, outcome := Dispatch(reg, Statement(query, values), answer);
      if outcome.Err? {
        return sent, Err(outcome.error);
      }
      if outcome.value.rowCount == 1 {
        keysToModify := [];
        return sent, Ok(true);
      }
      r := Ok(false);
    }

    /** `delete`: success means the driver reported no error, not that a row went away. */
    method Delete(reg: Registry, answer: Answer) returns (sent: Option<Statement>, r: Result<bool, Error>)
      ensures sent == SentTo(reg, DeleteWhereStatement(schema.table, PkWhere(KeyNames(schema.primaryKey), data)))
      ensures r == NoErrorCode(Outcome(reg, answer))
    {
      var pkClause, pkBinds := GetPrimaryKeyClause();
      var query := "DELETE FROM `" + GetTable() + "` WHERE " + pkClause + ";";
      var outcome;
      sent, outcome := Dispatch(reg, Statement(query, pkBinds), answer);
      if outcome.Err? {
        return sent, Err(outcome.error);
      }
      r := Ok(outcome.value.errorCode == "00000");
    }

    /** `refresh`: the first row found replaces the fields; the dirty keys stay. */
    method Refresh(reg: Registry, answer: Answer) returns (sent: Option<Statement>, r: Result<bool, Error>)
      modifies this`data
      ensures sent == SentTo(reg, SelectWhereStatement(schema.table, PkWhere(KeyNames(schema.primaryKey), old(data)), true))
      ensures r == match Outcome(reg, answer)
        case Err(e) => Err(e)
        case Ok(rep) => Ok(|rep.rows| > 0)
      ensures data == if r == Ok(true) then schema.transform(Outcome(reg, answer).value.rows[0]) else old(data)
    {
      var pkClause, pkBinds := GetPrimaryKeyClause();
      var query := "SELECT * FROM `" + GetTable() + "` WHERE " + pkClause + " LIMIT 1;";
      var outcome;
      sent, outcome := Dispatch(reg, Statement(query, pkBinds), answer);
      if outcome.Err? {
        return sent, Err(outcome.error);
      }
      if |outcome.value.rows| == 0 {
        return sent, Ok(false);
      }
      var row := schema.transform(outcome.value.rows[0]);
      SetData(row);
      r := Ok(true);
    }
  }

  // -----------------------------------------------------------------------
  // The static operations of a concrete model class

  /** `buildOneFromQuery`: the first row, through `transform` and `setData`, if any. */
  method BuildOneFromQuery(schema: Schema, st: Statement, reg: Registry, answer: Answer)
    returns (sent: Option<Statement>, r: Result<Option<Model>, Error>)
    ensures sent == SentTo(reg, st)
    ensures Outcome(reg, answer).Err? ==> r == Err(Outcome(reg, answer).error)
    ensures Outcome(reg, answer).Ok? ==> r.Ok? && (r.value.Some? <==> |Outcome(reg, answer).value.rows| > 0)
    ensures r.Ok? && r.value.Some? ==> var m := r.value.value;
      fresh(m) && m.schema == schema && m.keysToModify == []
      && m.data == schema.transform(Outcome(reg, answer).value.rows[0])
  {
    var outcome;
    sent, outcome := Dispatch(reg, st, answer);
    if outcome.Err? {
      return sent, Err(outcome.error);
    }
    if |outcome.value.rows| == 0 {
      return sent, Ok(None);
    }
    var newRow := new Model(schema);
    newRow.SetData(schema.transform(outcome.value.rows[0]));
    r := Ok(Some(newRow));
  }

  /** `buildMultipleFromQuery`: every row, in order, through `transform` and `setData`. */
  method BuildMultipleFromQuery(schema: Schema, st: Statement, reg: Registry, answer: Answer)
    returns (sent: Option<Statement>, r: Result<seq<Model>, Error>)
    ensures sent == SentTo(reg, st)
    ensures Outcome(reg, answer).Err? ==> r == Err(Outcome(reg, answer).error)
    ensures Outcome(reg, answer).Ok? ==> r.Ok? && |r.value| == |Outcome(reg, answer).value.rows|
    ensures r.Ok? ==> forall i | 0 <= i < |r.value| ::
      fresh(r.value[i]) && r.value[i].schema == schema && r.value[i].keysToModify == []
      && r.value[i].data == schema.transform(Outcome(reg, answer).value.rows[i])
  {
    var outcome;
    sent, outcome := Dispatch(reg, st, answer);
    if outcome.Err? {
      return sent, Err(outcome.error);
    }
    var rows := outcome.value.rows;
    var models: seq<Model> := [];
    for i := 0 to |rows|
      invariant |models| == i
      invariant forall j | 0 <= j < i ::
        fresh(models[j]) && models[j].schema == schema && models[j].keysToModify == []
        && models[j].data == schema.transform(rows[j])
    {
      var newRow := new Model(schema);
      newRow.SetData(schema.transform(rows[i]));
      models := models + [newRow];
    }
    r := Ok(models);
  }

  /** `findWhere` */
  method FindWhere(schema: Schema, w: Row, reg: Registry, answer: Answer)
    returns (sent: Option<Statement>, r: Result<Option<Model>, Error>)
    ensures sent == SentTo(reg, SelectWhereStatement(schema.table, w, true))
    ensures Outcome(reg, answer).Err? ==> r == Err(Outcome(reg, answer).error)
    ensures Outcome(reg, answer).Ok? ==> r.Ok? && (r.value.Some? <==> |Outcome(reg, answer).value.rows| > 0)
    ensures r.Ok? && r.value.Some? ==> var m := r.value.value;
      fresh(m) && m.schema == schema && m.keysToModify == []
      && m.data == schema.transform(Outcome(reg, answer).value.rows[0])
  {
    var whereClauseString, valuesToBind := BuildWhereClause(w);
    var query := "SELECT * FROM `" + schema.table + "` WHERE " + whereClauseString + " LIMIT 1;";
    sent, r := BuildOneFromQuery(schema, Statement(query, valuesToBind), reg, answer);
  }

  /** `findById`: refused before any query for a composite key. */
  method FindById(schema: Schema, pkValue: Value, reg: Registry, answer: Answer)
    returns (sent: Option<Statement>, r: Result<Option<Model>, Error>)
    ensures schema.primaryKey.Columns? ==> sent == None && r == Err(FindByIdOnCompositeKey)
    ensures schema.primaryKey.Column? ==>
      sent == SentTo(reg, SelectWhereStatement(schema.table, [Entry(schema.primaryKey.name, pkValue)], true))
      && (Outcome(reg, answer).Err? ==> r == Err(Outcome(reg, answer).error))
      && (Outcome(reg, answer).Ok? ==> r.Ok? && (r.value.Some? <==> |Outcome(reg, answer).value.rows| > 0))
    ensures r.Ok? && r.value.Some? ==> var m := r.value.value;
      fresh(m) && m.schema == schema && m.keysToModify == []
      && m.data == schema.transform(Outcome(reg, answer).value.rows[0])
  {
    if schema.primaryKey.Columns? {
      return None, Err(FindByIdOnCompositeKey);
    }
    sent, r := FindWhere(schema, [Entry(schema.primaryKey.name, pkValue)], reg, answer);
  }

  /** `collectWhere` (and the materialised form of `collectCursorWhere`) */
  method CollectWhere(schema: Schema, w: Row, reg: Registry, answer: Answer)
    returns (sent: Option<Statement>, r: Result<seq<Model>, Error>)
    ensures sent == SentTo(reg, SelectWhereStatement(schema.table, w, false))
    ensures Outcome(reg, answer).Err? ==> r == Err(Outcome(reg, answer).error)
    ensures Outcome(reg, answer).Ok? ==> r.Ok? && |r.value| == |Outcome(reg, answer).value.rows|
    ensures r.Ok? ==> forall i | 0 <= i < |r.value| ::
      fresh(r.value[i]) && r.value[i].schema == schema && r.value[i].keysToModify == []
      && r.value[i].data == schema.transform(Outcome(reg, answer).value.rows[i])
  {
    var whereClauseString, valuesToBind := BuildWhereClause(w);
    var query := "SELECT * FROM `" + schema.table + "` WHERE " + whereClauseString + ";";
    sent, r := BuildMultipleFromQuery(schema, Statement(query, valuesToBind), reg, answer);
  }

  /** `fetchAll` */
  method FetchAll(schema: Schema, order: seq<Ordering>, reg: Registry, answer: Answer)
    returns (sent: Option<Statement>, r: Result<seq<Model>, Error>)
    ensures sent == SentTo(reg, SelectAllStatement(schema.table, order))
    ensures Outcome(reg, answer).Err? ==> r == Err(Outcome(reg, answer).error)
    ensures Outcome(reg, answer).Ok? ==> r.Ok? && |r.value| == |Outcome(reg, answer).value.rows|
    ensures r.Ok? ==> forall i | 0 <= i < |r.value| ::
      fresh(r.value[i]) && r.value[i].schema == schema && r.value[i].keysToModify == []
      && r.value[i].data == schema.transform(Outcome(reg, answer).value.rows[i])
  {
    var orderBy := OrderParam(order);
    var query := "SELECT * FROM `" + schema.table + "`" + orderBy + ";";
    sent, r := BuildMultipleFromQuery(schema, Statement(query, []), reg, answer);
  }

  /** `deleteWhere` */
  method DeleteWhere(schema: Schema, w: Row, reg: Registry, answer: Answer)
    returns (sent: Option<Statement>, r: Result<bool, Error>)
    ensures sent == SentTo(reg, DeleteWhereStatement(schema.table, w))
    ensures r == NoErrorCode(Outcome(reg, answer))
  {
    var whereClauseString, valuesToBind := BuildWhereClause(w);
    var query := "DELETE FROM `" + schema.table + "` WHERE " + whereClauseString + ";";
    var outcome;
    sent, outcome := Dispatch(reg, Statement(query, valuesToBind), answer);
    if outcome.Err? {
      return sent, Err(outcome.error);
    }
    r := Ok(outcome.value.errorCode == "00000");
  }

  /** `deleteWherePrimary`: refused before any query for a composite key. */
  method DeleteWherePrimary(schema: Schema, pkValue: Value, reg: Registry, answer: Answer)
    returns (sent: Option<Statement>, r: Result<bool, Error>)
    ensures schema.primaryKey.Columns? ==> sent == None && r == Err(DeleteByIdOnCompositeKey)
    ensures schema.primaryKey.Column? ==>
      sent == SentTo(reg, DeleteWhereStatement(schema.table, [Entry(schema.primaryKey.name, pkValue)]))
      && r == NoErrorCode(Outcome(reg, answer))
  {
    if schema.primaryKey.Columns? {
      return None, Err(DeleteByIdOnCompositeKey);
    }
    sent, r := DeleteWhere(schema, [Entry(schema.primaryKey.name, pkValue)], reg, answer);
  }

  /** `deleteAll` */
  method DeleteAll(schema: Schema, reg: Registry, answer: Answer)
    returns (sent: Option<Statement>, r: Result<bool, Error>)
    ensures sent == SentTo(reg, DeleteAllStatement(schema.table))
    ensures r == NoErrorCode(Outcome(reg, answer))
  {
    var query := "DELETE FROM `" + schema.table + "`;";
    var outcome;
    sent, outcome := Dispatch(reg, Statement(query, []), answer);
    if outcome.Err? {
      return sent, Err(outcome.error);
    }
    r := Ok(outcome.value.errorCode == "00000");
  }

  /** `i` copies of `s`. */
  function Repeat(s: string, i: nat): (r: seq<string>)
    ensures |r| == i && forall j | 0 <= j < i :: r[j] == s
  {
    if i == 0 then [] else Repeat(s, i - 1) + [s]
  }

  /** The batch insert text after `i` of `n` groups: a separator follows every group but the last. */
  function BatchText(head: string, group: string, i: nat, n: nat): string {
    head + Join(Repeat(group, i), ",") + (if 0 < i < n then "," else "")
  }

  lemma BatchTextStep(head: string, group: string, i: nat, n: nat)
    requires i < n
    ensures BatchText(head, group, i, n) + group + (if i != n - 1 then "," else "")
      == BatchText(head, group, i + 1, n)
  {
    if i > 0 {
      JoinSnoc(Repeat(group, i), group, ",");
    }
  }

  lemma FlattenStep(rows: seq<seq<Value>>, i: nat)
    requires i < |rows|
    ensures Flatten(rows[..i + 1]) == Flatten(rows[..i]) + rows[i]
  {
    assert rows[..i + 1][..i] == rows[..i];
  }

  /** The multi-row insert `saveBatch` builds for a non-empty list of instances. */
  method BatchQuery(instances: seq<Model>) returns (st: Statement)
    requires |instances| > 0
    ensures st == BatchInsertStatement(instances[0].schema.table, KeysOf(instances[0].data), ValueRows(instances))
  {
    var keyNames := instances[0].GetKeys();
    var keys := Join(keyNames, ", ");
    var valuesPlaceholders := Placeholders(|keyNames|, ", ");
    var head := "INSERT INTO `" + instances[0].GetTable() + "` (" + keys + ") VALUES";
    var query := head;
    var values: seq<Value> := [];
    var n := |instances|;
    var group := " (" + valuesPlaceholders + ")";
    ghost var rows := ValueRows(instances);
    for i := 0 to n
      invariant query == BatchText(head, group, i, n)
      invariant values == Flatten(rows[..i])
    {
      query := query + group;
      if i != n - 1 {
        query := query + ",";
      }
      BatchTextStep(head, group, i, n);
      FlattenStep(rows, i);
      values := values + instances[i].GetValues();
    }
    assert rows[..n] == rows;
    var width := |keyNames|;
    assert group == BatchGroup(width);
    assert Repeat(group, n) == seq(n, _ => BatchGroup(width));
    st := Statement(query, values);
  }

  /**
   * `saveBatch`: nothing is sent for no instances; otherwise one multi-row
   * insert with the first instance's table and keys, and success means the
   * driver reports one affected row per instance.
   */
  method SaveBatch(instances: seq<Model>, reg: Registry, answer: Answer)
    returns (sent: Option<Statement>, r: Result<bool, Error>)
    ensures |instances| == 0 ==> sent == None && r == Ok(true)
    ensures |instances| > 0 ==>
      sent == SentTo(reg, BatchInsertStatement(instances[0].schema.table, KeysOf(instances[0].data), ValueRows(instances)))
      && r == RowCountIs(Outcome(reg, answer), |instances|)
  {
    if |instances| == 0 {
      return None, Ok(true);
    }
    var st := BatchQuery(instances);
    var outcome;
    sent, outcome := Dispatch(reg, st, answer);
    if outcome.Err? {
      return sent, Err(outcome.error);
    }
    r := Ok(outcome.value.rowCount == |instances|);
  }

  // -----------------------------------------------------------------------
  // The sample `User` model

  /** `User::create`: the four fields, in this order; absent optional fields are null. */
  function UserRow(userUuid: string, firstName: string, lastName: Option<string>, dob: Option<string>): (r: Row)
    ensures KeysOf(r) == ["user_uuid", "first_name", "last_name", "date_of_birth"]
  {
    [Entry("user_uuid", Str(userUuid)),
     Entry("first_name", Str(firstName)),
     Entry("last_name", if lastName.Some? then Str(lastName.value) else Null),
     Entry("date_of_birth", if dob.Some? then Str(dob.value) else Null)]
  }

  lemma UserColumnList()
    ensures Join(["user_uuid", "first_name", "last_name", "date_of_birth"], ", ")
      == "user_uuid, first_name, last_name, date_of_birth"
  {
    var keys := ["user_uuid", "first_name", "last_name", "date_of_birth"];
    assert keys[..3] == ["user_uuid", "first_name", "last_name"];
    assert keys[..3][..2] == ["user_uuid", "first_name"];
    assert keys[..3][..2][..1] == ["user_uuid"];
    assert Join(keys[..3][..2], ", ") == "user_uuid, first_name";
    assert Join(keys[..3], ", ") == "user_uuid, first_name, last_name";
  }

  lemma FourPlaceholders()
    ensures Placeholders(4, ", ") == "?, ?, ?, ?"
  {
    var qs := seq(4, _ => "?");
    assert qs[..3] == ["?", "?", "?"];
    assert qs[..3][..2] == ["?", "?"];
    assert qs[..3][..2][..1] == ["?"];
    assert Join(qs[..3][..2], ", ") == "?, ?";
    assert Join(qs[..3], ", ") == "?, ?, ?";
  }

  /** Saving a freshly created user sends the insert the user tests expect. */
  lemma UserInsertStatement(userUuid: string, firstName: string, lastName: string)
    ensures InsertStatement(UsersSchema().table, UserRow(userUuid, firstName, Some(lastName), None))
      == Statement(
        "INSERT INTO `users` (" + "user_uuid, first_name, last_name, date_of_birth"
          + ") VALUES (" + "?, ?, ?, ?" + ");",
        [Str(userUuid), Str(firstName), Str(lastName), Null])
  {
    UserColumnList();
    FourPlaceholders();
    var data := UserRow(userUuid, firstName, Some(lastName), None);
    assert ValuesOf(data) == [Str(userUuid), Str(firstName), Str(lastName), Null];
    var text := InsertStatement(UsersSchema().table, data).text;
    assert text == "INSERT INTO `users` (" + "user_uuid, first_name, last_name, date_of_birth"
      + ")" + " VALUES (" + "?, ?, ?, ?" + ");";
    assert ")" + " VALUES (" == ") VALUES (";
  }

  /**
   * A client of the model class, following the user tests: nothing is sent
   * while nothing is dirty, an unchanged value marks nothing, a changed one
   * marks its key.
   */
  method DirtyTrackingScenario(reg: Registry, answer: Answer) {
    var user := new Model(UsersSchema());
    user.SetData(UserRow("5c8169b1-d6ef-4415-8c39-e1664df8b954", "Gwénola", Some("Etheve"), None));
    var sent, r := user.Update(reg, answer);
    assert sent == None && r == Ok(false);

    LookupAt(user.data, 2);
    user.Set("last_name", Str("Etheve"));
    assert !user.HasChanges();
    user.Set("last_name", Str("ETHEVE"));
    assert user.GetChangedKeys() == ["last_name"];
    assert user.GetValue("last_name") == Str("ETHEVE");
  }
}
