/**
 * Change tracking of a model instance, as values: its field array and its
 * ordered set of dirty keys, and what `set`, `mergeData` and `setData` make
 * of them.
 */
module Records {
  import opened Common
  import opened PhpArrays

  /** `$data` and the keys of `$keysToModify`, in first-marked order. */
  datatype Record = Record(data: Row, dirty: KeyList)

  /** `set(k, v)`: a no-op when the current value is strictly equal to `v`. */
  function Setting(rec: Record, k: Key, v: Value): Record {
    if Current(rec.data, k) == v then rec
    else Record(Put(rec.data, k, v), Mark(rec.dirty, k))
  }

  /** `mergeData(d)`: `set` applied to each entry of `d` in order. */
  function Merging(rec: Record, d: seq<Entry>): Record {
    if |d| == 0 then rec
    else Setting(Merging(rec, d[..|d| - 1]), d[|d| - 1].key, d[|d| - 1].value)
  }

  /** `setData(d)`: the fields are replaced, the dirty keys are left as they were. */
  function Replacing(rec: Record, d: Row): (r: Record)
    ensures r.data == d && r.dirty == rec.dirty
  {
    Record(d, rec.dirty)
  }

  /** `hasChanges` */
  predicate HasChanges(rec: Record) {
    |rec.dirty| > 0
  }

  /** `ks` starts with `prefix`. */
  predicate IsPrefix(prefix: seq<Key>, ks: seq<Key>) {
    |prefix| <= |ks| && ks[..|prefix|] == prefix
  }

  /**
   * `set` changes something exactly when the value differs strictly from
   * the current one (a missing key reads as null); then the key holds the
   * new value and is dirty, no other key of the fields changes, and the
   * dirty keys only gain this key, at the end, if it was not dirty yet.
   */
  lemma SetEffect(rec: Record, k: Key, v: Value)
    ensures Setting(rec, k, v) == rec <==> Current(rec.data, k) == v
    ensures Current(Setting(rec, k, v).data, k) == v
    ensures forall k' | k' != k :: Lookup(Setting(rec, k, v).data, k') == Lookup(rec.data, k')
    ensures Current(rec.data, k) != v ==> Setting(rec, k, v).dirty == Mark(rec.dirty, k)
    ensures Current(rec.data, k) != v ==> HasChanges(Setting(rec, k, v))
  {
    forall k' ensures Lookup(Put(rec.data, k, v), k') == if k' == k then Some(v) else Lookup(rec.data, k') {
      PutLookup(rec.data, k, v, k');
    }
  }

  /** Setting the same value twice is the same as setting it once. */
  lemma SetIdempotent(rec: Record, k: Key, v: Value)
    ensures Setting(Setting(rec, k, v), k, v) == Setting(rec, k, v)
  {
    SetEffect(rec, k, v);
  }

  /**
   * After `mergeData(d)` every key of `d` holds its value from `d`, and every
   * key not in `d` reads as before.
   */
  lemma {:induction false} MergeValues(rec: Record, d: Row)
    ensures forall i | 0 <= i < |d| :: Current(Merging(rec, d).data, d[i].key) == d[i].value
    ensures forall k | k !in KeysOf(d) :: Lookup(Merging(rec, d).data, k) == Lookup(rec.data, k)
    decreases |d|
  {
    if |d| > 0 {
      var n := |d| - 1;
      InitIsRow(d);
      var init: Row := d[..n];
      var before := Merging(rec, init);
      MergeValues(rec, init);
      SetEffect(before, d[n].key, d[n].value);
      assert KeysOf(d) == KeysOf(init) + [d[n].key];
      forall i | 0 <= i < n
        ensures Current(Merging(rec, d).data, d[i].key) == d[i].value
      {
        assert KeysOf(d)[i] != KeysOf(d)[n];
      }
    }
  }

  /**
   * After `mergeData(d)` the dirty keys are the earlier ones, in their order,
   * followed by keys of `d`; a key is dirty exactly when it was before or
   * `d` gives it a value strictly different from its current one.
   */
  lemma {:induction false} MergeDirty(rec: Record, d: Row)
    ensures IsPrefix(rec.dirty, Merging(rec, d).dirty)
    ensures forall k :: k in Merging(rec, d).dirty <==>
      k in rec.dirty || (k in KeysOf(d) && Current(rec.data, k) != Current(d, k))
    decreases |d|
  {
    if |d| > 0 {
      var n := |d| - 1;
      InitIsRow(d);
      var init: Row := d[..n];
      var before := Merging(rec, init);
      var k0, v0 := d[n].key, d[n].value;
      MergeDirty(rec, init);
      MergeValues(rec, init);
      assert KeysOf(d) == KeysOf(init) + [k0];
      assert k0 !in KeysOf(init);
      assert Current(before.data, k0) == Current(rec.data, k0);
      forall k ensures Current(d, k) == if k == k0 then v0 else Current(init, k) {
        LookupInit(d, k);
      }
      var after := Setting(before, k0, v0);
      assert IsPrefix(before.dirty, after.dirty);
      assert after.dirty[..|rec.dirty|] == before.dirty[..|rec.dirty|];
    }
  }

  /** Merging values that are all already current changes nothing. */
  lemma {:induction false} MergeUnchanged(rec: Record, d: seq<Entry>)
    requires forall i | 0 <= i < |d| :: Current(rec.data, d[i].key) == d[i].value
    ensures Merging(rec, d) == rec
    decreases |d|
  {
    if |d| > 0 {
      MergeUnchanged(rec, d[..|d| - 1]);
    }
  }

  /** Merging the same array twice is the same as merging it once. */
  lemma MergeIdempotent(rec: Record, d: Row)
    ensures Merging(Merging(rec, d), d) == Merging(rec, d)
  {
    MergeValues(rec, d);
    MergeUnchanged(Merging(rec, d), d);
  }
}
