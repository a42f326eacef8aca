/** Adding up what a finite number of goroutines have left to do. */
module Totals {

  ghost function Total<P>(m: map<nat, P>, work: P -> nat): nat
    decreases |m|
  {
    if m == map[] then 0
    else
      var t :| t in m;
      assert (m - {t}).Keys == m.Keys - {t};
      work(m[t]) + Total(m - {t}, work)
  }

  lemma {:induction false} TotalSplits<P>(m: map<nat, P>, work: P -> nat, t: nat)
    requires t in m
    ensures Total(m, work) == work(m[t]) + Total(m - {t}, work)
    decreases |m|
  {
    var u :| u in m && Total(m, work) == work(m[u]) + Total(m - {u}, work);
    if u != t {
      assert (m - {u}).Keys == m.Keys - {u} && (m - {t}).Keys == m.Keys - {t};
      assert m - {u} - {t} == m - {t} - {u};
      TotalSplits(m - {u}, work, t);
      TotalSplits(m - {t}, work, u);
    }
  }

  /** If one of them has less left and the others are as they were, all together have less left. */
  lemma LessForOne<P>(m: map<nat, P>, m': map<nat, P>, work: P -> nat, t: nat)
    requires t in m && m'.Keys == m.Keys && work(m'[t]) < work(m[t])
    requires forall u :: u in m && u != t ==> m'[u] == m[u]
    ensures Total(m', work) < Total(m, work)
  {
    TotalSplits(m, work, t);
    TotalSplits(m', work, t);
    assert m' - {t} == m - {t};
  }
}
