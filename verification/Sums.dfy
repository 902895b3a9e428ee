/** Differences that stop at 0, and totals over the threads of a state. */
module Sums {

  function Minus(a: nat, b: nat): nat {
    if a < b then 0 else a - b
  }

  ghost function Sum(m: map<nat, nat>): nat {
    if m == map[] then 0 else var k :| k in m; m[k] + Sum(m - {k})
  }

  lemma {:induction false} SumSplits(m: map<nat, nat>, k: nat)
    requires k in m
    ensures Sum(m) == m[k] + Sum(m - {k})
  {
    var j :| j in m && Sum(m) == m[j] + Sum(m - {j});
    if j != k {
      SumSplits(m - {j}, k);
      SumSplits(m - {k}, j);
      assert m - {j} - {k} == m - {k} - {j};
    }
  }

  lemma SumUpdated(m: map<nat, nat>, k: nat, v: nat)
    ensures Sum(m[k := v]) == v + Sum(m - {k})
  {
    assert m[k := v] - {k} == m - {k};
    SumSplits(m[k := v], k);
  }

  lemma {:induction false} SumAtMost(a: map<nat, nat>, b: map<nat, nat>)
    requires a.Keys == b.Keys && forall k :: k in a ==> a[k] <= b[k]
    ensures Sum(a) <= Sum(b)
  {
    if k :| k in a {
      SumSplits(a, k);
      SumSplits(b, k);
      assert (a - {k}).Keys == (b - {k}).Keys;
      SumAtMost(a - {k}, b - {k});
    } else {
      assert a == map[] && b == map[];
    }
  }

  lemma SumLess(a: map<nat, nat>, b: map<nat, nat>, k: nat)
    requires a.Keys == b.Keys && (forall j :: j in a ==> a[j] <= b[j]) && k in a && a[k] < b[k]
    ensures Sum(a) < Sum(b)
  {
    SumSplits(a, k);
    SumSplits(b, k);
    assert (a - {k}).Keys == (b - {k}).Keys;
    SumAtMost(a - {k}, b - {k});
  }

  predicate Falls(m: seq<nat>, k: nat)
    requires k + 1 < |m|
  {
    m[k + 1] < m[k]
  }

  lemma FallsAreShort(m: seq<nat>, i: nat, j: nat)
    requires i <= j < |m| && forall k :: i <= k < j ==> Falls(m, k)
    ensures j + m[j] <= i + m[i]
  {
    for k := i to j
      invariant k + m[k] <= i + m[i]
    {
      assert Falls(m, k);
    }
  }
}
