/** A table keyed by its unique constraint. */
module Tables {

  /** `bulk_create(..., ignore_conflicts=True)`: the first row with a key stays. */
  function InsertIgnore<K, V>(rows: map<K, V>, batch: seq<(K, V)>): map<K, V> {
    if batch == [] then rows
    else
      var before, last := InsertIgnore(rows, batch[..|batch| - 1]), batch[|batch| - 1];
      if last.0 in before then before else before[last.0 := last.1]
  }

  lemma {:induction false} InsertIgnoreRows<K, V>(rows: map<K, V>, batch: seq<(K, V)>)
    ensures InsertIgnore(rows, batch).Keys == rows.Keys + set p | p in batch :: p.0
    ensures forall k :: k in rows ==> InsertIgnore(rows, batch)[k] == rows[k]
    ensures forall k :: k in InsertIgnore(rows, batch) && k !in rows ==> (k, InsertIgnore(rows, batch)[k]) in batch
  {
    if batch != [] {
      var init, last := batch[..|batch| - 1], batch[|batch| - 1];
      InsertIgnoreRows(rows, init);
      assert batch == init + [last];
      assert (last.0, last.1) == last;
    }
  }
}
