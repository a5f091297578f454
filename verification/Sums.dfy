/** Sums over finite maps and sequences, whatever the order in which a map is walked. */
module Sums {

  function SumSeq(s: seq<int>): int {
    if s == [] then 0 else SumSeq(s[..|s| - 1]) + s[|s| - 1]
  }

  lemma SumSeqAppend(s: seq<int>, v: int)
    ensures SumSeq(s + [v]) == SumSeq(s) + v
  {
    assert (s + [v])[..|s|] == s;
  }

  ghost function SumMap<K(!new)>(m: map<K, int>): int
    decreases |m.Keys|
  {
    if m.Keys == {} then 0
    else
      var k :| k in m.Keys;
      m[k] + SumMap(m - {k})
  }

  /** Any key may be split off. */
  lemma {:induction false} SumMapSplit<K(!new)>(m: map<K, int>, k: K)
    requires k in m.Keys
    ensures SumMap(m) == m[k] + SumMap(m - {k})
    decreases |m.Keys|
  {
    var j :| j in m.Keys && SumMap(m) == m[j] + SumMap(m - {j});
    if j != k {
      SumMapSplit(m - {j}, k);
      SumMapSplit(m - {k}, j);
      assert m - {j} - {k} == m - {k} - {j};
    }
  }

  /** A map that is pointwise below another has the smaller sum. */
  lemma {:induction false} SumMapMonotone<K(!new)>(m1: map<K, int>, m2: map<K, int>)
    requires m1.Keys == m2.Keys
    requires forall k :: k in m1.Keys ==> m1[k] <= m2[k]
    ensures SumMap(m1) <= SumMap(m2)
    decreases |m1.Keys|
  {
    if m1.Keys == {} {
    } else {
      var k :| k in m1.Keys;
      SumMapSplit(m1, k);
      SumMapSplit(m2, k);
      SumMapMonotone(m1 - {k}, m2 - {k});
    }
  }

  lemma {:induction false} SumMapZero<K(!new)>(m: map<K, int>)
    requires forall k :: k in m.Keys ==> m[k] == 0
    ensures SumMap(m) == 0
    decreases |m.Keys|
  {
    if m.Keys == {} {
    } else {
      var k :| k in m.Keys;
      SumMapSplit(m, k);
      SumMapZero(m - {k});
    }
  }

  /** Entries of 0 do not count. */
  lemma {:induction false} SumMapExtend<K(!new)>(m: map<K, int>, larger: map<K, int>)
    requires m.Keys <= larger.Keys
    requires forall k :: k in larger.Keys ==> larger[k] == if k in m.Keys then m[k] else 0
    ensures SumMap(larger) == SumMap(m)
    decreases |m.Keys|
  {
    if m.Keys == {} {
      SumMapZero(larger);
    } else {
      var k :| k in m.Keys;
      SumMapSplit(m, k);
      SumMapSplit(larger, k);
      SumMapExtend(m - {k}, larger - {k});
    }
  }

  /** Adding up a map along any enumeration of its keys gives the map's sum. */
  lemma {:induction false} SumMapAlong<K(!new)>(m: map<K, int>, order: seq<K>)
    requires forall i, j :: 0 <= i < j < |order| ==> order[i] != order[j]
    requires forall k :: k in order <==> k in m.Keys
    ensures SumMap(m) == SumSeq(seq(|order|, i requires 0 <= i < |order| => m[order[i]]))
    decreases |order|
  {
    var values := seq(|order|, i requires 0 <= i < |order| => m[order[i]]);
    if order == [] {
      assert m.Keys == {};
    } else {
      var n := |order| - 1;
      var k := order[n];
      var init, rest := order[..n], m - {k};
      assert order == init + [k];
      assert k !in init;
      SumMapSplit(m, k);
      SumMapAlong(rest, init);
      assert values[..n] == seq(|init|, i requires 0 <= i < |init| => rest[init[i]]);
    }
  }
}
