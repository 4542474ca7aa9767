/** Sums over finite tables, the arithmetic behind every VRAM conservation law. */
module Ledger {
  import opened Common

  ghost function SumOf(m: map<ObjectId, nat>): nat
    decreases |m|
  {
    if m == map[] then 0
    else
      var k :| k in m;
      m[k] + SumOf(m - {k})
  }

  /** The sum does not depend on which entry is taken out first. */
  lemma {:induction false} SumTakeOut(m: map<ObjectId, nat>, k: ObjectId)
    requires k in m
    ensures SumOf(m) == m[k] + SumOf(m - {k})
    decreases |m|
  {
    var j :| j in m && SumOf(m) == m[j] + SumOf(m - {j});
    if j != k {
      SumTakeOut(m - {j}, k);
      SumTakeOut(m - {k}, j);
      assert m - {j} - {k} == m - {k} - {j};
    }
  }

  lemma SumInsert(m: map<ObjectId, nat>, k: ObjectId, x: nat)
    requires k !in m
    ensures SumOf(m[k := x]) == SumOf(m) + x
  {
    SumTakeOut(m[k := x], k);
    assert m[k := x] - {k} == m;
  }

  ghost function Within(m: map<ObjectId, nat>, keys: set<ObjectId>): map<ObjectId, nat> {
    map k | k in m && k in keys :: m[k]
  }

  /** Splitting the entries in two splits the sum. */
  lemma {:induction false} SumSplit(m: map<ObjectId, nat>, keys: set<ObjectId>)
    ensures SumOf(m) == SumOf(Within(m, keys)) + SumOf(m - keys)
    decreases |m|
  {
    if m == map[] {
      assert Within(m, keys) == map[] && m - keys == map[];
    } else {
      var k :| k in m;
      var rest := m - {k};
      SumSplit(rest, keys);
      SumTakeOut(m, k);
      if k in keys {
        SumTakeOut(Within(m, keys), k);
        assert Within(m, keys) - {k} == Within(rest, keys);
        assert rest - keys == m - keys;
      } else {
        SumTakeOut(m - keys, k);
        assert Within(m, keys) == Within(rest, keys);
        assert rest - keys == (m - keys) - {k};
      }
    }
  }
}
