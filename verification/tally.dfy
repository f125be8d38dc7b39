/**
 * Counting occurrences of string keys, as the summary builds its
 * per-group and per-category tables: one left-to-right pass that adds one to
 * the count of each key it meets, starting the count at zero.
 */
module Tally {

  /** The table after folding over `ks` from left to right. */
  function Tally(ks: seq<string>): map<string, nat>
    decreases |ks|
  {
    if |ks| == 0 then map[]
    else
      var m := Tally(ks[..|ks| - 1]);
      var k := ks[|ks| - 1];
      m[k := (if k in m then m[k] else 0) + 1]
  }

  /**
   * The keys of a tally are exactly the distinct keys of `ks`, and each maps
   * to how often it occurs.
   */
  lemma {:induction false} TallyCounts(ks: seq<string>)
    ensures Tally(ks).Keys == set k | k in ks
    ensures forall k :: k in Tally(ks) ==> Tally(ks)[k] == multiset(ks)[k]
    decreases |ks|
  {
    if |ks| > 0 {
      var init := ks[..|ks| - 1];
      assert ks == init + [ks[|ks| - 1]];
      TallyCounts(init);
    }
  }

  /** Folding over one more key adds one to that key's count, starting from zero. */
  lemma TallySnoc(ks: seq<string>, k: string)
    ensures var m := Tally(ks);
            Tally(ks + [k]) == m[k := (if k in m then m[k] else 0) + 1]
  {
    assert (ks + [k])[..|ks|] == ks;
  }

  /** Some key of a non-empty table. */
  ghost function PickKey(m: map<string, nat>): string
    requires m != map[]
  {
    var k :| k in m; k
  }

  /** The sum of all counts in a table. */
  ghost function MapSum(m: map<string, nat>): nat
    decreases |m|
  {
    if m == map[] then 0
    else
      var k := PickKey(m);
      assert |m - {k}| < |m| by { RemoveShrinks(m, k); }
      m[k] + MapSum(m - {k})
  }

  /** Removing a present key makes a table one entry smaller. */
  lemma RemoveShrinks(m: map<string, nat>, k: string)
    requires k in m
    ensures |m - {k}| == |m| - 1
  {
    assert (m - {k}).Keys == m.Keys - {k};
  }

  /** The sum of a table is any one count plus the sum of the rest. */
  lemma {:induction false} MapSumRemove(m: map<string, nat>, k: string)
    requires k in m
    ensures MapSum(m) == m[k] + MapSum(m - {k})
    decreases |m|
  {
    var j := PickKey(m);
    if j != k {
      RemoveShrinks(m, j);
      RemoveShrinks(m, k);
      var mj := m - {j};
      var mk := m - {k};
      MapSumRemove(mj, k);
      MapSumRemove(mk, j);
      assert mj - {k} == mk - {j};
    }
  }

  /** The counts of a tally add up to the number of keys folded over. */
  lemma {:induction false} TallySum(ks: seq<string>)
    ensures MapSum(Tally(ks)) == |ks|
    decreases |ks|
  {
    if |ks| > 0 {
      var init := ks[..|ks| - 1];
      var k := ks[|ks| - 1];
      var m := Tally(init);
      var m' := Tally(ks);
      TallySum(init);
      assert m' == m[k := (if k in m then m[k] else 0) + 1];
      MapSumRemove(m', k);
      assert m' - {k} == m - {k};
      if k in m {
        MapSumRemove(m, k);
      } else {
        assert m - {k} == m;
      }
    }
  }
}
