/** Sums over the values of a map. */
module Totals {

  ghost function Total(m: map<string, nat>): nat
    decreases |m|
  {
    if m == map[] then 0
    else
      var k :| k in m;
      m[k] + Total(m - {k})
  }

  /** The sum does not depend on the order in which the keys are taken. */
  lemma {:induction false} TotalSplit(m: map<string, nat>, k: string)
    requires k in m
    ensures Total(m) == m[k] + Total(m - {k})
    decreases |m|
  {
    var j :| j in m && Total(m) == m[j] + Total(m - {j});
    if j != k {
      TotalSplit(m - {j}, k);
      TotalSplit(m - {k}, j);
      assert m - {j} - {k} == m - {k} - {j};
    }
  }

  lemma TotalUpdate(m: map<string, nat>, k: string, n: nat)
    ensures Total(m[k := n]) == Total(m - {k}) + n
    ensures k !in m ==> Total(m - {k}) == Total(m)
    ensures k in m ==> Total(m - {k}) == Total(m) - m[k]
  {
    TotalSplit(m[k := n], k);
    assert m[k := n] - {k} == m - {k};
    if k in m {
      TotalSplit(m, k);
    } else {
      assert m - {k} == m;
    }
  }
}
