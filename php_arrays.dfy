/** PHP values and the ordered arrays ("maps") that hold a model's fields. */
module PhpArrays {
  import opened Common

  /**
   * A column value. Dafny's equality on this type is PHP's strict `===`:
   * `Int(1)` and `Str("1")` differ, lists compare element by element.
   */
  datatype Value = Null | Bool(b: bool) | Int(i: int) | Str(s: string) | List(items: seq<Value>)

  type Key = string

  datatype Entry = Entry(key: Key, value: Value)

  predicate Distinct(ks: seq<Key>) {
    forall i, j | 0 <= i < j < |ks| :: ks[i] != ks[j]
  }

  /** An ordered PHP array with string keys: insertion order, no key twice. */
  type Row = es: seq<Entry> | Distinct(KeysOf(es)) witness []

  /** The keys of a PHP array used as an ordered set (`$keysToModify`). */
  type KeyList = ks: seq<Key> | Distinct(ks) witness []

  /** `array_keys` */
  function KeysOf(es: seq<Entry>): (ks: seq<Key>)
    ensures |ks| == |es|
    ensures forall i | 0 <= i < |es| :: ks[i] == es[i].key
  {
    seq(|es|, i requires 0 <= i < |es| => es[i].key)
  }

  /** `array_values` */
  function ValuesOf(es: seq<Entry>): (vs: seq<Value>)
    ensures |vs| == |es|
    ensures forall i | 0 <= i < |es| :: vs[i] == es[i].value
  {
    seq(|es|, i requires 0 <= i < |es| => es[i].value)
  }

  /** The position of the first entry with key `k`, or `|es|` when there is none. */
  function Find(es: seq<Entry>, k: Key): (i: nat)
    ensures i <= |es|
    ensures i < |es| ==> es[i].key == k
    ensures forall j | 0 <= j < i :: es[j].key != k
  {
    if |es| == 0 then 0
    else if es[0].key == k then 0
    else 1 + Find(es[1..], k)
  }

  /** The position of `k` among the keys. */
  function IndexOf(es: seq<Entry>, k: Key): (i: nat)
    requires k in KeysOf(es)
    ensures i < |es| && es[i].key == k
  {
    Find(es, k)
  }

  /** The value stored under `k`, if the key exists. */
  function Lookup(es: seq<Entry>, k: Key): (v: Option<Value>)
    ensures v.Some? <==> k in KeysOf(es)
  {
    if k in KeysOf(es) then Some(es[IndexOf(es, k)].value) else None
  }

  lemma LookupAt(r: Row, i: nat)
    requires i < |r|
    ensures Lookup(r, r[i].key) == Some(r[i].value)
  {
    var j := IndexOf(r, r[i].key);
    assert KeysOf(r)[i] == KeysOf(r)[j];
  }

  /** Dropping the last entry of an array leaves an array (no key twice). */
  lemma InitIsRow(r: Row)
    requires |r| > 0
    ensures Distinct(KeysOf(r[..|r| - 1]))
  {
    assert KeysOf(r[..|r| - 1]) == KeysOf(r)[..|r| - 1];
  }

  /** Every key but the last reads in an array as it does without its last entry. */
  lemma LookupInit(r: Row, k: Key)
    requires |r| > 0
    ensures Lookup(r, k) ==
      if k == r[|r| - 1].key then Some(r[|r| - 1].value) else Lookup(r[..|r| - 1], k)
  {
    var n := |r| - 1;
    InitIsRow(r);
    var init: Row := r[..n];
    assert KeysOf(r) == KeysOf(init) + [r[n].key];
    if k == r[n].key {
      LookupAt(r, n);
    } else if k in KeysOf(init) {
      var i := IndexOf(init, k);
      LookupAt(init, i);
      LookupAt(r, i);
    }
  }

  /** Reading `$array[$k]`: a missing key reads as null (PHP warns and goes on). */
  function Current(es: seq<Entry>, k: Key): Value {
    Lookup(es, k).GetOr(Null)
  }

  /**
   * `$array[$k] = $v`: an existing key keeps its position and takes the new
   * value, a new key is appended at the end.
   */
  function Put(r: Row, k: Key, v: Value): (r': Row)
    ensures KeysOf(r') == if k in KeysOf(r) then KeysOf(r) else KeysOf(r) + [k]
  {
    if k in KeysOf(r) then
      var r': seq<Entry> := r[IndexOf(r, k) := Entry(k, v)];
      assert KeysOf(r') == KeysOf(r);
      r'
    else
      var r': seq<Entry> := r + [Entry(k, v)];
      assert KeysOf(r') == KeysOf(r) + [k];
      r'
  }

  /** After `$array[$k] = $v`, `$k` holds `$v` and every other key reads as before. */
  lemma PutLookup(r: Row, k: Key, v: Value, k': Key)
    ensures Lookup(Put(r, k, v), k') == if k' == k then Some(v) else Lookup(r, k')
  {
    var r' := Put(r, k, v);
    if k' in KeysOf(r) {
      LookupAt(r, IndexOf(r, k'));
      LookupAt(r', IndexOf(r, k'));
    }
    if k' == k {
      LookupAt(r', IndexOf(r', k));
    }
  }

  /** `$set[$k] = true` on an ordered set: appended only when not yet present. */
  function Mark(ks: KeyList, k: Key): (ks': KeyList)
    ensures k in ks'
    ensures ks' == ks || ks' == ks + [k]
  {
    if k in ks then ks else ks + [k]
  }
}
