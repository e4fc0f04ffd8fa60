/** Finite sums over tables. */
module Sums {

  /** The entry at `k`, and 0 where the table has none. */
  function At(m: map<nat, int>, k: nat): int {
    if k in m then m[k] else 0
  }

  ghost function Pick(m: map<nat, int>): (k: nat)
    requires m != map[]
    ensures k in m
  {
    var k :| k in m;
    k
  }

  ghost function Sum(m: map<nat, int>): int
    decreases |m|
  {
    if m == map[] then 0 else m[Pick(m)] + Sum(m - {Pick(m)})
  }

  lemma {:induction false} SumAt(m: map<nat, int>, k: nat)
    ensures Sum(m) == At(m, k) + Sum(m - {k})
    decreases |m|
  {
    if k !in m {
      assert m - {k} == m;
    } else if m != map[] && Pick(m) != k {
      var p := Pick(m);
      SumAt(m - {p}, k);
      SumAt(m - {k}, p);
      assert m - {p} - {k} == m - {k} - {p};
    }
  }

  lemma SumUpdate(m: map<nat, int>, k: nat, v: int)
    ensures Sum(m[k := v]) == Sum(m) - At(m, k) + v
  {
    SumAt(m, k);
    SumAt(m[k := v], k);
    assert m[k := v] - {k} == m - {k};
  }

  /** Pointwise smaller tables have smaller sums, whatever their keys. */
  lemma {:induction false} SumLe(a: map<nat, int>, b: map<nat, int>)
    requires forall k :: At(a, k) <= At(b, k)
    ensures Sum(a) <= Sum(b)
    decreases a.Keys + b.Keys
  {
    if a == map[] && b == map[] {
    } else {
      var k := if a != map[] then Pick(a) else Pick(b);
      SumAt(a, k);
      SumAt(b, k);
      assert At(a, k) <= At(b, k);
      forall j ensures At(a - {k}, j) <= At(b - {k}, j) {
        assert At(a, j) <= At(b, j);
      }
      assert k in a.Keys + b.Keys;
      SumLe(a - {k}, b - {k});
    }
  }

  lemma SumNonNegative(m: map<nat, int>)
    requires forall k :: k in m ==> m[k] >= 0
    ensures Sum(m) >= 0
  {
    var none: map<nat, int> := map[];
    forall k ensures At(none, k) <= At(m, k) {
    }
    SumLe(none, m);
  }

  lemma SumAgree(a: map<nat, int>, b: map<nat, int>)
    requires forall k :: At(a, k) == At(b, k)
    ensures Sum(a) == Sum(b)
  {
    SumLe(a, b);
    SumLe(b, a);
  }

  /** Tables that add up pointwise have sums that add up. */
  lemma {:induction false} SumAdd(a: map<nat, int>, b: map<nat, int>, c: map<nat, int>)
    requires forall k :: At(a, k) + At(b, k) == At(c, k)
    ensures Sum(a) + Sum(b) == Sum(c)
    decreases a.Keys + b.Keys + c.Keys
  {
    if a == map[] && b == map[] && c == map[] {
    } else {
      var k := if a != map[] then Pick(a) else if b != map[] then Pick(b) else Pick(c);
      SumAt(a, k);
      SumAt(b, k);
      SumAt(c, k);
      assert At(a, k) + At(b, k) == At(c, k);
      forall j ensures At(a - {k}, j) + At(b - {k}, j) == At(c - {k}, j) {
        assert At(a, j) + At(b, j) == At(c, j);
      }
      assert k in a.Keys + b.Keys + c.Keys;
      SumAdd(a - {k}, b - {k}, c - {k});
    }
  }

  /** `f` renames the keys of `a` one to one into those of `b`, and keeps every entry. */
  ghost predicate Renames(a: map<nat, int>, b: map<nat, int>, f: map<nat, nat>) {
    && f.Keys == a.Keys
    && (forall k {:trigger f[k]} :: k in f ==> f[k] in b && k in a && b[f[k]] == a[k])
    && (forall j, k {:trigger f[j], f[k]} :: j in f && k in f && f[j] == f[k] ==> j == k)
    && (forall v {:trigger v in b} :: v in b ==> v in f.Values)
  }

  lemma {:induction false} SumRenamed(a: map<nat, int>, b: map<nat, int>, f: map<nat, nat>)
    requires Renames(a, b, f)
    ensures Sum(a) == Sum(b)
    decreases a.Keys
  {
    if a == map[] {
      assert f.Values == {};
      assert b == map[];
    } else {
      var k := Pick(a);
      assert k in f.Keys;
      var a', b', f' := a - {k}, b - {f[k]}, f - {k};
      SumAt(a, k);
      SumAt(b, f[k]);
      forall v | v in b' ensures v in f'.Values {
        assert v in f.Values;
        var j :| j in f && f[j] == v;
        assert j in f' && f'[j] == v;
      }
      assert f'.Keys == f.Keys - {k} && a'.Keys == a.Keys - {k};
      SumRenamed(a', b', f');
    }
  }
}
