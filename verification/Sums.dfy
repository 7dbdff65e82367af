/** Totals over sequences and maps, and how single changes move them. */
module Sums {

  function Sum<T>(f: T -> int, s: seq<T>): int
  {
    if s == [] then 0 else Sum(f, s[..|s| - 1]) + f(s[|s| - 1])
  }

  lemma {:induction false} SumConcat<T>(f: T -> int, s: seq<T>, t: seq<T>)
    ensures Sum(f, s + t) == Sum(f, s) + Sum(f, t)
  {
    if t == [] {
      assert s + t == s;
    } else {
      assert (s + t)[..|s + t| - 1] == s + t[..|t| - 1];
      SumConcat(f, s, t[..|t| - 1]);
    }
  }

  lemma SumNone<T>(f: T -> int)
    ensures Sum(f, []) == 0
  {
  }

  lemma SumOne<T>(f: T -> int, x: T)
    ensures Sum(f, [x]) == f(x)
  {
    assert [x][..0] == [];
  }

  lemma SumFirst<T>(f: T -> int, s: seq<T>)
    requires s != []
    ensures Sum(f, s) == f(s[0]) + Sum(f, s[1..])
  {
    assert s == [s[0]] + s[1..];
    SumConcat(f, [s[0]], s[1..]);
    assert [s[0]][..0] == [];
  }

  lemma SumSplit<T>(f: T -> int, s: seq<T>, i: nat)
    requires i < |s|
    ensures Sum(f, s) == Sum(f, s[..i]) + f(s[i]) + Sum(f, s[i + 1..])
  {
    assert s == s[..i] + [s[i]] + s[i + 1..];
    SumConcat(f, s[..i] + [s[i]], s[i + 1..]);
    SumConcat(f, s[..i], [s[i]]);
  }

  lemma SumUpdate<T>(f: T -> int, s: seq<T>, i: nat, x: T)
    requires i < |s|
    ensures Sum(f, s[i := x]) == Sum(f, s) - f(s[i]) + f(x)
  {
    SumSplit(f, s, i);
    SumSplit(f, s[i := x], i);
    assert s[i := x][..i] == s[..i] && s[i := x][i + 1..] == s[i + 1..];
  }

  lemma SumRemove<T>(f: T -> int, s: seq<T>, i: nat)
    requires i < |s|
    ensures Sum(f, s[..i] + s[i + 1..]) == Sum(f, s) - f(s[i])
  {
    SumSplit(f, s, i);
    SumConcat(f, s[..i], s[i + 1..]);
  }

  lemma SumInsert<T>(f: T -> int, s: seq<T>, i: nat, x: T)
    requires i <= |s|
    ensures Sum(f, s[..i] + [x] + s[i..]) == Sum(f, s) + f(x)
  {
    assert s == s[..i] + s[i..];
    SumConcat(f, s[..i], s[i..]);
    SumConcat(f, s[..i] + [x], s[i..]);
    SumConcat(f, s[..i], [x]);
  }

  lemma {:induction false} SumNonNegative<T>(f: T -> int, s: seq<T>)
    requires forall x <- s :: f(x) >= 0
    ensures Sum(f, s) >= 0
    ensures forall x <- s :: f(x) <= Sum(f, s)
  {
    if s != [] {
      var t := s[..|s| - 1];
      SumNonNegative(f, t);
      forall x <- s ensures f(x) <= Sum(f, s) { if x !in t { assert x == s[|s| - 1]; } }
    }
  }

  // -------------------------------------------------------------------- maps

  /** The value at `k`; a missing entry reads as zero. */
  function At<K>(m: map<K, int>, k: K): int
  {
    if k in m then m[k] else 0
  }

  ghost function Total<K>(m: map<K, int>): int
  {
    if m == map[] then 0 else var k :| k in m; m[k] + Total(m - {k})
  }

  lemma {:induction false} TotalRemove<K>(m: map<K, int>, k: K)
    requires k in m
    ensures Total(m - {k}) == Total(m) - m[k]
    decreases |m|
  {
    var j :| j in m && Total(m) == m[j] + Total(m - {j});
    if j != k {
      TotalRemove(m - {j}, k);
      TotalRemove(m - {k}, j);
      assert m - {j} - {k} == m - {k} - {j};
    }
  }

  lemma TotalUpdate<K>(m: map<K, int>, k: K, v: int)
    ensures Total(m[k := v]) == Total(m) - At(m, k) + v
  {
    TotalRemove(m[k := v], k);
    assert m[k := v] - {k} == m - {k};
    if k in m { TotalRemove(m, k); } else { assert m - {k} == m; }
  }

  lemma {:induction false} TotalNonNegative<K>(m: map<K, int>)
    requires forall k <- m :: m[k] >= 0
    ensures Total(m) >= 0
    decreases |m|
  {
    if m != map[] {
      var k :| k in m;
      TotalRemove(m, k);
      TotalNonNegative(m - {k});
    }
  }

  lemma TotalBounds<K>(m: map<K, int>, k: K)
    requires forall k <- m :: m[k] >= 0
    ensures 0 <= At(m, k) <= Total(m)
  {
    TotalNonNegative(m);
    if k in m {
      TotalRemove(m, k);
      TotalNonNegative(m - {k});
    }
  }
}
