/**
 * Balance tables: maps from an account to an integer in which a missing account
 * reads as zero, and their sums.
 */
module Sums {

  type Table = map<string, int>

  /** `balances.get(account) ?? 0n` */
  function Get(m: Table, k: string): int {
    if k in m then m[k] else 0
  }

  /** `balances.set(account, (balances.get(account) ?? 0n) + delta)` */
  function Add(m: Table, k: string, delta: int): Table {
    m[k := Get(m, k) + delta]
  }

  /** Two tables that no reader can tell apart. */
  ghost predicate SameReads(a: Table, b: Table) {
    forall k: string :: Get(a, k) == Get(b, k)
  }

  ghost function Total<K>(m: map<K, int>): int {
    if m == map[] then 0 else
      var k :| k in m;
      m[k] + Total(m - {k})
  }

  lemma {:induction false} TotalWithout<K>(m: map<K, int>, k: K)
    requires k in m
    ensures Total(m) == m[k] + Total(m - {k})
    decreases m
  {
    var p :| p in m && Total(m) == m[p] + Total(m - {p});
    if p != k {
      TotalWithout(m - {p}, k);
      TotalWithout(m - {k}, p);
      assert m - {p} - {k} == m - {k} - {p};
    }
  }

  lemma {:induction false} TotalSet<K>(m: map<K, int>, k: K, v: int)
    ensures Total(m[k := v]) == Total(m) - (if k in m then m[k] else 0) + v
  {
    TotalWithout(m[k := v], k);
    if k in m {
      TotalWithout(m, k);
      assert m[k := v] - {k} == m - {k};
    } else {
      assert m[k := v] - {k} == m;
    }
  }

  lemma {:induction false} TotalAdd(m: Table, k: string, delta: int)
    ensures Total(Add(m, k, delta)) == Total(m) + delta
  {
    TotalSet(m, k, Get(m, k) + delta);
  }

  ghost predicate NonNegative(m: Table) {
    forall k :: k in m ==> m[k] >= 0
  }

  lemma {:induction false} AddKeeps(m: Table, k: string, delta: int)
    requires NonNegative(m) && Get(m, k) + delta >= 0
    ensures NonNegative(Add(m, k, delta)) && Total(Add(m, k, delta)) == Total(m) + delta
  {
    TotalAdd(m, k, delta);
  }

  lemma {:induction false} TotalDrop(m: Table, k: string)
    ensures Total(m) == Get(m, k) + Total(m - {k})
  {
    if k in m { TotalWithout(m, k); } else { assert m - {k} == m; }
  }

  lemma {:induction false} GetDrop(m: Table, k: string, x: string)
    ensures Get(m - {k}, x) == if x == k then 0 else Get(m, x)
  {
  }

  /** Zero entries do not matter: tables that read the same add up to the same. */
  lemma {:induction false} SameReadsSameTotal(a: Table, b: Table)
    requires SameReads(a, b)
    ensures Total(a) == Total(b)
    decreases a.Keys + b.Keys
  {
    if k :| k in a.Keys + b.Keys {
      TotalDrop(a, k);
      TotalDrop(b, k);
      assert (a - {k}).Keys + (b - {k}).Keys == a.Keys + b.Keys - {k};
      hide Get, Total;
      forall j: string ensures Get(a - {k}, j) == Get(b - {k}, j) {
        GetDrop(a, k, j);
        GetDrop(b, k, j);
      }
      SameReadsSameTotal(a - {k}, b - {k});
    } else {
      assert forall k :: k in a || k in b ==> k in a.Keys + b.Keys;
      assert a == map[] && b == map[];
    }
  }

  lemma {:induction false} Smaller<K, V>(m: map<K, V>, k: K)
    requires k in m
    ensures |m - {k}| == |m| - 1
  {
  }

  /** A table that is nowhere less than another does not add up to less. */
  lemma {:induction false} TotalBound<K>(m: map<K, int>, lo: map<K, int>)
    requires m.Keys == lo.Keys
    requires forall k :: k in m ==> lo[k] <= m[k]
    ensures Total(lo) <= Total(m)
    decreases m
  {
    if k :| k in m {
      TotalWithout(m, k);
      TotalWithout(lo, k);
      TotalBound(m - {k}, lo - {k});
    } else {
      assert m == map[] && lo == map[];
    }
  }

  lemma {:induction false} TotalNonNegative<K>(m: map<K, int>)
    requires forall k :: k in m ==> m[k] >= 0
    ensures Total(m) >= 0
  {
    var zeros := map k | k in m :: 0;
    TotalZero(zeros);
    TotalBound(m, zeros);
  }

  lemma {:induction false} TotalZero<K>(m: map<K, int>)
    requires forall k :: k in m ==> m[k] == 0
    ensures Total(m) == 0
    decreases m
  {
    if k :| k in m {
      TotalWithout(m, k);
      TotalZero(m - {k});
    } else {
      assert m == map[];
    }
  }
}
