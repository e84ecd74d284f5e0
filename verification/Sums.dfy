/**
 Finite sums over maps and sequences, with the laws by which an in-place update
 of one entry changes the sum.
 */
module Sums {

  ghost function SumMap<K>(m: map<K, nat>): nat {
    if m == map[] then 0 else
      var k :| k in m;
      m[k] + SumMap(m - {k})
  }

  /** The choice made by `SumMap` does not matter. */
  lemma {:induction false} SumMapRemove<K>(m: map<K, nat>, k: K)
    requires k in m
    ensures SumMap(m) == m[k] + SumMap(m - {k})
    decreases |m|
  {
    var j :| j in m && SumMap(m) == m[j] + SumMap(m - {j});
    if j != k {
      SumMapRemove(m - {j}, k);
      SumMapRemove(m - {k}, j);
      assert m - {j} - {k} == m - {k} - {j};
    }
  }

  lemma SumMapUpdate<K>(m: map<K, nat>, k: K, v: nat)
    ensures SumMap(m[k := v]) == SumMap(m) - (if k in m then m[k] else 0) + v
  {
    SumMapRemove(m[k := v], k);
    if k in m {
      SumMapRemove(m, k);
      assert m[k := v] - {k} == m - {k};
    } else {
      assert m[k := v] - {k} == m;
    }
  }

  /** One entry is part of the sum. */
  lemma SumMapAtLeast<K>(m: map<K, nat>, k: K)
    requires k in m
    ensures m[k] <= SumMap(m)
  {
    SumMapRemove(m, k);
  }

  lemma Distribute(c: int, x: int, y: int)
    ensures c * (x + y) == c * x + c * y
  {
  }

  lemma {:induction false} SumMapScale<K>(m: map<K, nat>, n: map<K, nat>, c: nat)
    requires m.Keys == n.Keys
    requires forall k :: k in m ==> n[k] == c * m[k]
    ensures SumMap(n) == c * SumMap(m)
    decreases |m|
  {
    if m != map[] {
      var k :| k in m;
      SumMapRemove(m, k);
      SumMapRemove(n, k);
      SumMapScale(m - {k}, n - {k}, c);
      Distribute(c, m[k], SumMap(m - {k}));
    } else {
      assert n == map[];
    }
  }

  lemma {:induction false} SumMapPlus<K>(m: map<K, nat>, n: map<K, nat>, r: map<K, nat>)
    requires m.Keys == n.Keys == r.Keys
    requires forall k :: k in m ==> r[k] == m[k] + n[k]
    ensures SumMap(r) == SumMap(m) + SumMap(n)
    decreases |m|
  {
    if m != map[] {
      var k :| k in m;
      SumMapRemove(m, k);
      SumMapRemove(n, k);
      SumMapRemove(r, k);
      SumMapPlus(m - {k}, n - {k}, r - {k});
    } else {
      assert n == map[] && r == map[];
    }
  }

  function SumSeq(s: seq<int>): int {
    if s == [] then 0 else SumSeq(s[..|s| - 1]) + s[|s| - 1]
  }

  lemma SumSeqAppend(s: seq<int>, x: int)
    ensures SumSeq(s + [x]) == SumSeq(s) + x
  {
    assert (s + [x])[..|s|] == s;
  }

  lemma {:induction false} SumSeqUpdate(s: seq<int>, i: nat, x: int)
    requires i < |s|
    ensures SumSeq(s[i := x]) == SumSeq(s) - s[i] + x
  {
    var n := |s| - 1;
    if i == n {
      assert s[i := x][..n] == s[..n];
    } else {
      SumSeqUpdate(s[..n], i, x);
      assert s[i := x][..n] == s[..n][i := x];
    }
  }

  lemma {:induction false} SumSeqAtLeast(s: seq<int>, i: nat)
    requires i < |s|
    requires forall j :: 0 <= j < |s| ==> 0 <= s[j]
    ensures s[i] <= SumSeq(s)
  {
    var n := |s| - 1;
    if i < n {
      SumSeqAtLeast(s[..n], i);
    } else {
      SumSeqNonNegative(s[..n]);
    }
  }

  lemma {:induction false} SumSeqNonNegative(s: seq<int>)
    requires forall j :: 0 <= j < |s| ==> 0 <= s[j]
    ensures 0 <= SumSeq(s)
  {
    if s != [] {
      SumSeqNonNegative(s[..|s| - 1]);
    }
  }

  /** A part of a sum of non-negative terms is not more than the whole. */
  lemma {:induction false} SumSeqPrefix(s: seq<int>, n: nat)
    requires n <= |s|
    requires forall j :: 0 <= j < |s| ==> 0 <= s[j]
    ensures SumSeq(s[..n]) <= SumSeq(s)
  {
    if n < |s| {
      SumSeqPrefix(s[..|s| - 1], n);
      assert s[..|s| - 1][..n] == s[..n];
    } else {
      assert s[..n] == s;
    }
  }

  /** Sums are linear. */
  lemma {:induction false} SumSeqLinear(s: seq<int>, t: seq<int>, c: int, r: seq<int>)
    requires |s| == |t| == |r|
    requires forall j :: 0 <= j < |s| ==> r[j] == s[j] + c * t[j]
    ensures SumSeq(r) == SumSeq(s) + c * SumSeq(t)
  {
    if s != [] {
      var n := |s| - 1;
      SumSeqLinear(s[..n], t[..n], c, r[..n]);
      assert c * (SumSeq(t[..n]) + t[n]) == c * SumSeq(t[..n]) + c * t[n];
    }
  }
}
