/** How many elements some finite sets have. */
module Counting {

  lemma Disjoint(a: set<nat>, b: set<nat>)
    requires a !! b
    ensures |a + b| == |a| + |b|
  {
  }

  lemma OneLess(m: map<nat, nat>, k: nat)
    requires k in m
    ensures |m - {k}| == |m| - 1
  {
    assert m.Keys - {k} == (m - {k}).Keys;
    assert |m.Keys - {k}| == |m.Keys| - 1;
  }

  lemma SomeKey(m: map<nat, nat>) returns (k: nat)
    requires m != map[]
    ensures k in m
  {
    k :| k in m;
  }

  ghost function Image(m: map<nat, nat>): set<nat> {
    set k | k in m :: m[k]
  }

  /** A one-to-one map has as many values as keys. */
  lemma {:induction false} DistinctImage(m: map<nat, nat>)
    requires forall a, b | a in m && b in m && m[a] == m[b] :: a == b
    ensures |Image(m)| == |m|
    decreases |m|
  {
    if m == map[] {
      assert Image(m) == {};
    } else {
      var a := SomeKey(m);
      var rest := m - {a};
      OneLess(m, a);
      DistinctImage(rest);
      forall k | k in m ensures m[k] in Image(rest) + {m[a]} {
        assert k != a ==> k in rest && rest[k] == m[k];
      }
      forall k | k in rest ensures rest[k] in Image(m) {
        assert k in m && m[k] == rest[k];
      }
      assert Image(m) == Image(rest) + {m[a]};
      assert m[a] !in Image(rest);
    }
  }

  /** All values of a map added up. */
  ghost function Sum(m: map<nat, nat>): nat
    decreases |m|
  {
    if m == map[] then 0
    else
      var k :| k in m;
      OneLess(m, k);
      m[k] + Sum(m - {k})
  }

  lemma {:induction false} SumWithout(m: map<nat, nat>, k: nat)
    requires k in m
    ensures Sum(m) == m[k] + Sum(m - {k})
    decreases |m|
  {
    var j :| j in m && Sum(m) == m[j] + Sum(m - {j});
    if j != k {
      OneLess(m, j);
      OneLess(m, k);
      SumWithout(m - {j}, k);
      SumWithout(m - {k}, j);
      assert m - {j} - {k} == m - {k} - {j};
    }
  }

  lemma SumNew(m: map<nat, nat>, k: nat, v: nat)
    requires k !in m
    ensures Sum(m[k := v]) == Sum(m) + v
  {
    SumWithout(m[k := v], k);
    assert m[k := v] - {k} == m;
  }

  lemma SumOne(m: map<nat, nat>, k: nat, v: nat)
    requires k in m
    ensures Sum(m[k := v]) == Sum(m) - m[k] + v
  {
    SumWithout(m, k);
    SumWithout(m[k := v], k);
    assert m[k := v] - {k} == m - {k};
  }
}
