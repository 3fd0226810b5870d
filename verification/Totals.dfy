/** Sums of a weight over the entries of a table, and how they follow its updates. */
module Totals {

  ghost function Total<V>(m: map<nat, V>, f: V -> nat): nat
  {
    if m == map[] then 0 else
      var k :| k in m;
      f(m[k]) + Total(m - {k}, f)
  }

  /** Any entry may be split off. */
  lemma {:induction false} Split<V>(m: map<nat, V>, f: V -> nat, k: nat)
    requires k in m
    ensures Total(m, f) == f(m[k]) + Total(m - {k}, f)
    decreases |m|
  {
    var j :| j in m && Total(m, f) == f(m[j]) + Total(m - {j}, f);
    if j != k {
      Split(m - {j}, f, k);
      Split(m - {k}, f, j);
      assert (m - {j}) - {k} == (m - {k}) - {j};
    }
  }

  lemma Put<V>(m: map<nat, V>, f: V -> nat, k: nat, v: V)
    ensures Total(m[k := v], f) == Total(m - {k}, f) + f(v)
    ensures k !in m ==> Total(m[k := v], f) == Total(m, f) + f(v)
    ensures k in m ==> Total(m[k := v], f) + f(m[k]) == Total(m, f) + f(v)
  {
    Split(m[k := v], f, k);
    assert m[k := v] - {k} == m - {k};
    if k in m {
      Split(m, f, k);
    } else {
      assert m - {k} == m;
    }
  }

  /** Dropping entries without weight changes nothing. */
  lemma {:induction false} Drop<V>(m: map<nat, V>, f: V -> nat, ks: set<nat>)
    requires forall k :: k in ks && k in m ==> f(m[k]) == 0
    ensures Total(m - ks, f) == Total(m, f)
    decreases |ks|
  {
    if ks == {} {
      assert m - ks == m;
    } else {
      var k :| k in ks;
      Drop(m, f, ks - {k});
      var rest := m - (ks - {k});
      assert rest - {k} == m - ks;
      if k in m {
        Split(rest, f, k);
      } else {
        assert rest - {k} == rest;
      }
    }
  }

  /** No weight anywhere, no total; and conversely. */
  lemma {:induction false} Nothing<V>(m: map<nat, V>, f: V -> nat)
    ensures Total(m, f) == 0 <==> forall k :: k in m ==> f(m[k]) == 0
    decreases |m|
  {
    if m != map[] {
      var k :| k in m && Total(m, f) == f(m[k]) + Total(m - {k}, f);
      Nothing(m - {k}, f);
      assert forall j :: j in m <==> j == k || j in m - {k};
      assert forall j :: j in m - {k} ==> (m - {k})[j] == m[j];
    }
  }

  lemma AtLeast<V>(m: map<nat, V>, f: V -> nat, k: nat)
    requires k in m
    ensures f(m[k]) <= Total(m, f)
  {
    Split(m, f, k);
  }

  /** Tables with the same keys and weights have the same total. */
  lemma {:induction false} Same<V>(m: map<nat, V>, n: map<nat, V>, f: V -> nat)
    requires m.Keys == n.Keys && forall k :: k in m ==> f(m[k]) == f(n[k])
    ensures Total(m, f) == Total(n, f)
    decreases |m|
  {
    if m != map[] {
      var k :| k in m && Total(m, f) == f(m[k]) + Total(m - {k}, f);
      assert (m - {k}).Keys == (n - {k}).Keys;
      Same(m - {k}, n - {k}, f);
      Split(n, f, k);
    } else {
      assert n == map[];
    }
  }
}
