/** APQNs found on a node, and the comparison of two lists of them. */
module Apqns {

  /** An AP queue: adapter and domain number, card generation, card mode and online state. */
  datatype Apqn = Apqn(adapter: nat, domain: nat, gen: string, mode: string, online: bool)

  predicate SameQueue(a: Apqn, b: Apqn) {
    a.adapter == b.adapter && a.domain == b.domain
  }

  /** No two entries name the same queue: what a scan of sysfs directories yields. */
  ghost predicate DistinctQueues(l: seq<Apqn>) {
    forall i, j :: 0 <= i < j < |l| ==> !SameQueue(l[i], l[j])
  }

  ghost predicate IsPermutation<T>(l1: seq<T>, l2: seq<T>) {
    multiset(l1) == multiset(l2)
  }

  /** The first entry of the list for a's queue is a itself. */
  ghost predicate FirstHit(l: seq<Apqn>, a: Apqn) {
    exists j :: 0 <= j < |l| && l[j] == a && forall j' :: 0 <= j' < j ==> !SameQueue(l[j'], a)
  }

  /** What apEqualAPQNLists computes. */
  ghost predicate Matches(l1: seq<Apqn>, l2: seq<Apqn>) {
    |l1| == |l2| && forall i :: 0 <= i < |l1| ==> FirstHit(l2, l1[i])
  }

  method EqualLists(l1: seq<Apqn>, l2: seq<Apqn>) returns (equal: bool)
    ensures equal <==> Matches(l1, l2)
    ensures DistinctQueues(l1) ==> (equal <==> IsPermutation(l1, l2))
  {
    if DistinctQueues(l1) {
      MatchesIsPermutation(l1, l2);
    }
    if |l1| != |l2| {
      return false;
    }
    for i := 0 to |l1|
      invariant forall k :: 0 <= k < i ==> FirstHit(l2, l1[k])
    {
      var a1 := l1[i];
      var found := false;
      for j := 0 to |l2|
        invariant !found
        invariant forall j' :: 0 <= j' < j ==> !SameQueue(l2[j'], a1)
      {
        var a2 := l2[j];
        if a1.adapter == a2.adapter && a1.domain == a2.domain {
          if a1.gen != a2.gen {
            return false;
          }
          if a1.mode != a2.mode {
            return false;
          }
          if a1.online != a2.online {
            return false;
          }
          found := true;
          break;
        }
      }
      if !found {
        return false;
      }
    }
    return true;
  }

  function Remove<T>(l: seq<T>, j: nat): seq<T>
    requires j < |l|
  {
    l[..j] + l[j + 1..]
  }

  lemma RemoveFromMultiset<T>(l: seq<T>, j: nat)
    requires j < |l|
    ensures multiset(l) == multiset(Remove(l, j)) + multiset{l[j]}
  {
    assert l == l[..j] + [l[j]] + l[j + 1..];
  }

  lemma MatchesAfterRemove(l1: seq<Apqn>, l2: seq<Apqn>, j: nat)
    requires l1 != [] && DistinctQueues(l1) && Matches(l1, l2)
    requires j < |l2| && l2[j] == l1[0]
    ensures Matches(l1[1..], Remove(l2, j))
  {
    var r := Remove(l2, j);
    forall i | 0 <= i < |l1[1..]|
      ensures FirstHit(r, l1[1..][i])
    {
      var a := l1[i + 1];
      assert !SameQueue(l1[0], a);
      var k :| 0 <= k < |l2| && l2[k] == a && forall j' :: 0 <= j' < k ==> !SameQueue(l2[j'], a);
      var k' := if k < j then k else k - 1;
      assert r[k'] == a;
      assert forall j' :: 0 <= j' < k' ==> r[j'] == (if j' < j then l2[j'] else l2[j' + 1]);
    }
  }

  lemma {:induction false} MatchesGivesPermutation(l1: seq<Apqn>, l2: seq<Apqn>)
    requires DistinctQueues(l1) && Matches(l1, l2)
    ensures IsPermutation(l1, l2)
  {
    if l1 == [] {
    } else {
      assert FirstHit(l2, l1[0]);
      var j :| 0 <= j < |l2| && l2[j] == l1[0];
      MatchesAfterRemove(l1, l2, j);
      MatchesGivesPermutation(l1[1..], Remove(l2, j));
      RemoveFromMultiset(l2, j);
      assert l1 == [l1[0]] + l1[1..];
    }
  }

  lemma PermutationGivesMatches(l1: seq<Apqn>, l2: seq<Apqn>)
    requires DistinctQueues(l1) && IsPermutation(l1, l2)
    ensures Matches(l1, l2)
  {
    assert |l1| == |multiset(l1)| == |multiset(l2)| == |l2|;
    forall i | 0 <= i < |l1|
      ensures FirstHit(l2, l1[i])
    {
      var a := l1[i];
      assert a in multiset(l2);
      var n :| 0 <= n < |l2| && l2[n] == a;
      var j := 0;
      while !SameQueue(l2[j], a)
        invariant 0 <= j <= n
        invariant forall j' :: 0 <= j' < j ==> !SameQueue(l2[j'], a)
        decreases n - j
      {
        j := j + 1;
      }
      assert l2[j] in multiset(l2);
      assert l2[j] in l1;
    }
  }

  lemma MatchesIsPermutation(l1: seq<Apqn>, l2: seq<Apqn>)
    requires DistinctQueues(l1)
    ensures Matches(l1, l2) <==> IsPermutation(l1, l2)
  {
    if Matches(l1, l2) {
      MatchesGivesPermutation(l1, l2);
    }
    if IsPermutation(l1, l2) {
      PermutationGivesMatches(l1, l2);
    }
  }

  /** A queue number the list does not use. */
  function Unused(l: seq<Apqn>): (n: nat)
    ensures forall i :: 0 <= i < |l| ==> l[i].adapter < n
  {
    if l == [] then 0
    else
      var n := Unused(l[1..]);
      if l[0].adapter < n then n else l[0].adapter + 1
  }

  /** A list that names a queue twice is mistaken for a list that is no permutation of it, or rejects itself. */
  lemma DuplicateMisleads(l: seq<Apqn>, i: nat, j: nat) returns (other: seq<Apqn>)
    requires i < j < |l| && SameQueue(l[i], l[j])
    ensures Matches(l, other) != IsPermutation(l, other)
  {
    if Matches(l, l) {
      var stranger := l[j].(adapter := Unused(l));
      other := l[j := stranger];
      assert l[i] == l[j];
      forall k | 0 <= k < |l|
        ensures FirstHit(other, l[k])
      {
        assert FirstHit(l, l[k]);
        var n :| 0 <= n < |l| && l[n] == l[k] && forall n' :: 0 <= n' < n ==> !SameQueue(l[n'], l[k]);
        assert n != j;
        assert other[n] == l[k];
      }
      assert stranger !in l;
      assert other[j] in multiset(other);
    } else {
      other := l;
    }
  }

  /** The comparison decides permutation against every second list exactly when the first list names no queue twice. */
  lemma DecidesPermutationIffDistinct(l1: seq<Apqn>)
    ensures (forall l2: seq<Apqn> :: Matches(l1, l2) <==> IsPermutation(l1, l2)) <==> DistinctQueues(l1)
  {
    if DistinctQueues(l1) {
      forall l2: seq<Apqn>
        ensures Matches(l1, l2) <==> IsPermutation(l1, l2)
      {
        MatchesIsPermutation(l1, l2);
      }
    } else {
      var i, j :| 0 <= i < j < |l1| && SameQueue(l1[i], l1[j]);
      var other := DuplicateMisleads(l1, i, j);
    }
  }
}
