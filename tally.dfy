/** Sums over the values of a finite map, used to state the counting invariants
    of both match aggregators (total deaths, total kills, kills by means). */
module Tally {

  /** The value stored under `k`, or Go's zero value 0 when `k` is absent. */
  function Get<K>(m: map<K, int>, k: K): int
  {
    if k in m then m[k] else 0
  }

  /** The sum of all values of `m`, in no particular order. */
  ghost function Sum<K>(m: map<K, int>): int
    decreases m.Keys
  {
    if m == map[] then 0
    else
      var k :| k in m;
      m[k] + Sum(m - {k})
  }

  /** Applies `f` to every value of `m`, keeping the keys. */
  function Project<K, V>(m: map<K, V>, f: V -> int): (r: map<K, int>)
    ensures r.Keys == m.Keys
    ensures forall k :: k in m ==> r[k] == f(m[k])
  {
    map k | k in m :: f(m[k])
  }

  /** Whichever key the definition of Sum picks, any key can be split off. */
  lemma {:induction false} SumRemove<K>(m: map<K, int>, k: K)
    requires k in m
    ensures Sum(m) == m[k] + Sum(m - {k})
    decreases m.Keys
  {
    var x :| x in m && Sum(m) == m[x] + Sum(m - {x});
    if x != k {
      SumRemove(m - {x}, k);
      SumRemove(m - {k}, x);
      assert m - {x} - {k} == m - {k} - {x};
    }
  }

  /** Overwriting or inserting one entry changes the sum by the difference. */
  lemma SumUpdate<K>(m: map<K, int>, k: K, v: int)
    ensures Sum(m[k := v]) == Sum(m) - Get(m, k) + v
  {
    SumRemove(m[k := v], k);
    if k in m {
      SumRemove(m, k);
      assert m[k := v] - {k} == m - {k};
    } else {
      assert m[k := v] - {k} == m;
    }
  }

  /** Updating one entry of `m` updates one entry of its projection. */
  lemma ProjectUpdate<K, V>(m: map<K, V>, f: V -> int, k: K, v: V)
    ensures Project(m[k := v], f) == Project(m, f)[k := f(v)]
    ensures Sum(Project(m[k := v], f)) ==
            Sum(Project(m, f)) - (if k in m then f(m[k]) else 0) + f(v)
  {
    assert Project(m[k := v], f) == Project(m, f)[k := f(v)];
    SumUpdate(Project(m, f), k, f(v));
  }

  /** `order` lists every element of `keys` exactly once: an iteration
      order of a Go map with those keys. */
  ghost predicate Enumerates<K(!new)>(order: seq<K>, keys: set<K>)
  {
    && (forall i, j :: 0 <= i < j < |order| ==> order[i] != order[j])
    && (forall x :: x in order <==> x in keys)
  }
}
