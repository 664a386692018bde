/** Counting the entries of a finite map that satisfy a predicate. */
module Counting {

  ghost function Matching<K, V>(m: map<K, V>, p: V -> bool): set<K> {
    set k | k in m && p(m[k])
  }

  ghost function Count<K, V>(m: map<K, V>, p: V -> bool): nat {
    |Matching(m, p)|
  }

  ghost function Bit(b: bool): nat {
    if b then 1 else 0
  }

  lemma CountEmpty<K, V>(p: V -> bool)
    ensures Count<K, V>(map[], p) == 0
  {
    assert Matching<K, V>(map[], p) == {};
  }

  lemma CountRemove<K, V>(m: map<K, V>, k: K, p: V -> bool)
    ensures Count(m - {k}, p) == Count(m, p) - Bit(k in m && p(m[k]))
  {
    assert Matching(m - {k}, p) == Matching(m, p) - {k};
  }

  lemma CountUpdate<K, V>(m: map<K, V>, k: K, v: V, p: V -> bool)
    ensures Count(m[k := v], p) == Count(m, p) - Bit(k in m && p(m[k])) + Bit(p(v))
  {
    var before, after := Matching(m, p), Matching(m[k := v], p);
    assert after - {k} == before - {k};
    assert k in before <==> k in m && p(m[k]);
    assert k in after <==> p(v);
    SizeWithout(before, k);
    SizeWithout(after, k);
  }

  lemma SizeWithout<T>(s: set<T>, x: T)
    ensures |s - {x}| == |s| - Bit(x in s)
  {
    if x !in s {
      assert s - {x} == s;
    }
  }

  lemma CountAtMostSize<K, V>(m: map<K, V>, p: V -> bool)
    ensures Count(m, p) <= |m|
  {
    SubsetSize(Matching(m, p), m.Keys);
  }

  lemma CountMonotone<K, V>(m: map<K, V>, p: V -> bool, q: V -> bool)
    requires forall k :: k in m && p(m[k]) ==> q(m[k])
    ensures Count(m, p) <= Count(m, q)
  {
    SubsetSize(Matching(m, p), Matching(m, q));
  }

  lemma {:induction false} SubsetSize<T>(a: set<T>, b: set<T>)
    requires a <= b
    ensures |a| <= |b|
  {
    assert a + (b - a) == b;
  }

  lemma SizeUpdate<K, V>(m: map<K, V>, k: K, v: V)
    ensures |m[k := v]| == |m| + Bit(k !in m)
  {
    assert m[k := v].Keys == m.Keys + {k};
  }

  lemma SizeRemove<K, V>(m: map<K, V>, k: K)
    ensures |m - {k}| == |m| - Bit(k in m)
  {
    assert (m - {k}).Keys == m.Keys - {k};
  }

  lemma Overwrite<K, V>(m: map<K, V>, k: K, a: V, b: V)
    ensures m[k := a][k := b] == m[k := b]
  {
  }

  // ---- sums ----

  ghost function Sum<K, V>(m: map<K, V>, f: V -> int): int
    decreases |m|
  {
    if m == map[] then 0 else
      var k :| k in m;
      SizeRemove(m, k);
      f(m[k]) + Sum(m - {k}, f)
  }

  lemma {:induction false} SumRemove<K, V>(m: map<K, V>, k: K, f: V -> int)
    requires k in m
    ensures Sum(m, f) == f(m[k]) + Sum(m - {k}, f)
    decreases |m|
  {
    var j :| j in m && Sum(m, f) == f(m[j]) + Sum(m - {j}, f);
    if j != k {
      SizeRemove(m, j);
      SizeRemove(m, k);
      SumRemove(m - {j}, k, f);
      SumRemove(m - {k}, j, f);
      assert m - {j} - {k} == m - {k} - {j};
    }
  }

  lemma SumUpdate<K, V>(m: map<K, V>, k: K, v: V, f: V -> int)
    ensures Sum(m[k := v], f) == Sum(m, f) - (if k in m then f(m[k]) else 0) + f(v)
  {
    SumRemove(m[k := v], k, f);
    if k in m {
      SumRemove(m, k, f);
      assert m[k := v] - {k} == m - {k};
    } else {
      assert m[k := v] - {k} == m;
    }
  }

  lemma {:induction false} SumZero<K, V>(m: map<K, V>, f: V -> int)
    requires forall k :: k in m ==> f(m[k]) == 0
    ensures Sum(m, f) == 0
    decreases |m|
  {
    if m != map[] {
      var k :| k in m;
      SizeRemove(m, k);
      SumRemove(m, k, f);
      SumZero(m - {k}, f);
    }
  }

  /** Entries with different names drawn from a set are no more than the set. */
  lemma {:induction false} CountNamed<K, V, N>(m: map<K, V>, p: V -> bool, name: V -> N, names: set<N>)
    requires forall k :: k in m && p(m[k]) ==> name(m[k]) in names
    requires forall j, k :: j in m && k in m && p(m[j]) && p(m[k]) && name(m[j]) == name(m[k]) ==> j == k
    ensures Count(m, p) <= |names|
    decreases |names|
  {
    if Matching(m, p) != {} {
      var k :| k in Matching(m, p);
      CountRemove(m, k, p);
      CountNamed(m - {k}, p, name, names - {name(m[k])});
    }
  }
}
