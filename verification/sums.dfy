/** Sums over sequences and maps, and the running per-key totals the services keep in a JavaScript Map. */
module Sums {

  /** Sum of f over a sequence. */
  function SumBy<T>(s: seq<T>, f: T -> int): int
  {
    if s == [] then 0 else SumBy(s[..|s| - 1], f) + f(s[|s| - 1])
  }

  lemma {:induction false} SumBySnoc<T>(s: seq<T>, x: T, f: T -> int)
    ensures SumBy(s + [x], f) == SumBy(s, f) + f(x)
  {
    assert (s + [x])[..|s|] == s;
  }

  lemma {:induction false} SumByConcat<T>(s: seq<T>, t: seq<T>, f: T -> int)
    ensures SumBy(s + t, f) == SumBy(s, f) + SumBy(t, f)
  {
    if t == [] {
      assert s + t == s;
    } else {
      var n := |t| - 1;
      assert (s + t)[..|s + t| - 1] == s + t[..n];
      SumByConcat(s, t[..n], f);
    }
  }

  lemma {:induction false} SumByPrefix<T>(s: seq<T>, i: nat, f: T -> int)
    requires i < |s|
    ensures SumBy(s[..i + 1], f) == SumBy(s[..i], f) + f(s[i])
  {
    assert s[..i + 1][..i] == s[..i];
  }

  lemma {:induction false} SumByUpdate<T>(s: seq<T>, i: nat, x: T, f: T -> int)
    requires i < |s|
    ensures SumBy(s[i := x], f) == SumBy(s, f) - f(s[i]) + f(x)
  {
    assert s[i := x] == s[..i] + ([x] + s[i + 1..]);
    assert s == s[..i] + ([s[i]] + s[i + 1..]);
    SumByConcat(s[..i], [x] + s[i + 1..], f);
    SumByConcat(s[..i], [s[i]] + s[i + 1..], f);
    SumByConcat([x], s[i + 1..], f);
    SumByConcat([s[i]], s[i + 1..], f);
    SumBySnoc([], x, f);
    SumBySnoc([], s[i], f);
    assert [] + [x] == [x] && [] + [s[i]] == [s[i]];
  }

  lemma {:induction false} SumByNonNegative<T>(s: seq<T>, f: T -> int)
    requires forall x :: x in s ==> 0 <= f(x)
    ensures 0 <= SumBy(s, f)
    ensures SumBy(s, f) == 0 ==> forall x :: x in s ==> f(x) == 0
  {
    if s != [] {
      SumByNonNegative(s[..|s| - 1], f);
    }
  }

  /** Sum of the values of a map. */
  ghost function SumMap<K>(m: map<K, int>): int
    decreases |m|
  {
    if m == map[] then 0
    else
      var k :| k in m;
      m[k] + SumMap(m - {k})
  }

  lemma {:induction false} SumMapRemove<K>(m: map<K, int>, k: K)
    requires k in m
    ensures SumMap(m) == m[k] + SumMap(m - {k})
    decreases |m|
  {
    var c :| c in m && SumMap(m) == m[c] + SumMap(m - {c});
    if c != k {
      SumMapRemove(m - {c}, k);
      SumMapRemove(m - {k}, c);
      assert m - {c} - {k} == m - {k} - {c};
    }
  }

  lemma {:induction false} SumMapUpdate<K>(m: map<K, int>, k: K, v: int)
    ensures SumMap(m[k := v]) == SumMap(m) + v - (if k in m then m[k] else 0)
  {
    SumMapRemove(m[k := v], k);
    if k in m {
      SumMapRemove(m, k);
      assert m[k := v] - {k} == m - {k};
    } else {
      assert m[k := v] - {k} == m;
    }
  }

  /** Running totals per key, in first-seen order. */
  type Tally<K> = seq<(K, int)>

  function Amount<K>(entry: (K, int)): int { entry.1 }

  function Total<K>(t: Tally<K>): int { SumBy(t, Amount) }

  function IndexOf<K(==)>(t: Tally<K>, k: K): (i: nat)
    ensures i <= |t|
    ensures i < |t| ==> t[i].0 == k
    ensures forall j :: 0 <= j < i ==> t[j].0 != k
  {
    if t == [] then 0
    else if t[0].0 == k then 0
    else
      var i := IndexOf(t[1..], k);
      assert forall j :: 1 <= j < i + 1 ==> t[j] == t[1..][j - 1];
      i + 1
  }

  /** map.get(k) ?? 0 */
  function Get<K(==)>(t: Tally<K>, k: K): int
  {
    var i := IndexOf(t, k);
    if i < |t| then t[i].1 else 0
  }

  /** map.set(k, (map.get(k) ?? 0) + v) */
  function Add<K(==)>(t: Tally<K>, k: K, v: int): Tally<K>
  {
    var i := IndexOf(t, k);
    if i < |t| then t[i := (k, t[i].1 + v)] else t + [(k, v)]
  }

  predicate Distinct<K(==)>(t: Tally<K>)
  {
    forall i, j :: 0 <= i < j < |t| ==> t[i].0 != t[j].0
  }

  lemma {:induction false} IndexOfFound<K>(t: Tally<K>, j: nat)
    requires Distinct(t) && j < |t|
    ensures IndexOf(t, t[j].0) == j
  {
    var i := IndexOf(t, t[j].0);
    assert i <= j;
  }

  lemma {:induction false} AddGet<K>(t: Tally<K>, k: K, v: int, j: K)
    requires Distinct(t)
    ensures Get(Add(t, k, v), j) == Get(t, j) + if j == k then v else 0
  {
    var x, u := IndexOf(t, j), Add(t, k, v);
    var y := IndexOf(u, j);
    if x < |t| {
      assert u[x].0 == j;
    } else if j == k {
      assert u == t + [(k, v)] && u[|t|].0 == k;
      assert y == |t|;
    } else {
      assert y == |u|;
    }
  }

  /** Adding to one key changes that key's total, the grand total, and nothing else. */
  lemma {:induction false} AddEffect<K>(t: Tally<K>, k: K, v: int)
    requires Distinct(t)
    ensures Distinct(Add(t, k, v))
    ensures Total(Add(t, k, v)) == Total(t) + v
    ensures forall j :: Get(Add(t, k, v), j) == Get(t, j) + if j == k then v else 0
  {
    var i := IndexOf(t, k);
    if i < |t| {
      SumByUpdate(t, i, (k, t[i].1 + v), Amount);
    } else {
      SumBySnoc(t, (k, v), Amount);
    }
    forall j ensures Get(Add(t, k, v), j) == Get(t, j) + if j == k then v else 0 {
      AddGet(t, k, v, j);
    }
  }

  lemma {:induction false} LastEntry<K>(t: Tally<K>, a: K)
    requires Distinct(t) && t != []
    ensures Get(t, a) == if a == t[|t| - 1].0 then t[|t| - 1].1 else Get(t[..|t| - 1], a)
    ensures a == t[|t| - 1].0 ==> Get(t[..|t| - 1], a) == 0
  {
    var before, e := t[..|t| - 1], t[|t| - 1];
    var i := IndexOf(before, a);
    if a == e.0 {
      IndexOfFound(t, |t| - 1);
    } else if i < |before| {
      IndexOfFound(t, i);
    } else {
      assert IndexOf(t, a) == |t|;
    }
  }
}
