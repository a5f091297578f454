/**
 Which of a node's APQNs a config set is given, the plug-in devices made from them, and what
 verification buys: the sets split the node's APQNs and no two devices share an id.
 */
module Partition {
  import opened Wrappers
  import opened DeviceIds
  import opened Apqns
  import opened CryptoConfig

  /** Comparison of strings as Go's operator < does it. */
  predicate StringLess(s: string, t: string) {
    t != "" && (s == "" || s[0] < t[0] || (s[0] == t[0] && StringLess(s[1..], t[1..])))
  }

  predicate GenTooOld(gen: string, minGen: string) {
    minGen != "" && StringLess(gen, minGen)
  }

  /** The definition assigns this APQN of the machine to its set. */
  predicate Takes(s: SetDef, machineId: string, a: Apqn, c: ApqnDef) {
    Covers(c, machineId, a.adapter, a.domain) && !GenTooOld(a.gen, s.minCexGen)
  }

  /** The APQN, once for every definition in the list that takes it. */
  function Copies(s: SetDef, machineId: string, a: Apqn, cs: seq<ApqnDef>): seq<Apqn> {
    if cs == [] then []
    else Copies(s, machineId, a, cs[..|cs| - 1]) + if Takes(s, machineId, a, cs[|cs| - 1]) then [a] else []
  }

  /** The APQNs of a scan that the set is given, in scan order. */
  function Eligible(s: SetDef, machineId: string, scan: seq<Apqn>): seq<Apqn> {
    if scan == [] then []
    else Eligible(s, machineId, scan[..|scan| - 1]) + Copies(s, machineId, scan[|scan| - 1], s.apqns)
  }

  datatype Device = Device(id: string, healthy: bool)

  /** The first n devices of an APQN. */
  function Block(a: Apqn, n: nat): (r: seq<Device>)
    ensures |r| == n
  {
    if n == 0 then [] else Block(a, n - 1) + [Device(DeviceId(a.adapter, a.domain, n - 1), a.online)]
  }

  /** n devices for each APQN. */
  function DevicesFor(l: seq<Apqn>, n: nat): seq<Device> {
    if l == [] then [] else DevicesFor(l[..|l| - 1], n) + Block(l[|l| - 1], n)
  }

  ghost predicate DistinctIds(devices: seq<Device>) {
    forall p, q :: 0 <= p < q < |devices| ==> devices[p].id != devices[q].id
  }

  /** At most one definition of the list takes the APQN when all definitions are pairwise compatible. */
  lemma {:induction false} AtMostOneCopy(s: SetDef, machineId: string, a: Apqn, cs: seq<ApqnDef>)
    requires forall i, j :: 0 <= i < j < |cs| ==> Compatible(cs[i], cs[j])
    ensures Copies(s, machineId, a, cs) ==
            if exists c :: c in cs && Takes(s, machineId, a, c) then [a] else []
  {
    if cs == [] {
    } else {
      var init, c := cs[..|cs| - 1], cs[|cs| - 1];
      AtMostOneCopy(s, machineId, a, init);
      assert forall c' :: c' in cs <==> c' in init || c' == c;
      if Takes(s, machineId, a, c) {
        forall i | 0 <= i < |init|
          ensures !Takes(s, machineId, a, init[i])
        {
          CompatibleIffNoCommonQueue(cs[i], c);
        }
      }
    }
  }

  /** The APQN's queue is covered by the set and its card generation suffices. */
  predicate Assigned(s: SetDef, machineId: string, a: Apqn) {
    CoveredBySet(s, machineId, a.adapter, a.domain) && !GenTooOld(a.gen, s.minCexGen)
  }

  ghost predicate PairwiseCompatible(s: SetDef) {
    forall i, j :: 0 <= i < j < |s.apqns| ==> Compatible(s.apqns[i], s.apqns[j])
  }

  lemma CopiesOfAssigned(s: SetDef, machineId: string, a: Apqn)
    requires PairwiseCompatible(s)
    ensures Copies(s, machineId, a, s.apqns) == if Assigned(s, machineId, a) then [a] else []
  {
    AtMostOneCopy(s, machineId, a, s.apqns);
    if Assigned(s, machineId, a) {
      var c :| c in s.apqns && Covers(c, machineId, a.adapter, a.domain);
      assert Takes(s, machineId, a, c);
    }
  }

  /** A set of an accepted configuration is given exactly the scanned APQNs assigned to it, each once. */
  lemma {:induction false} EligibleExactly(s: SetDef, machineId: string, scan: seq<Apqn>)
    requires PairwiseCompatible(s) && DistinctQueues(scan)
    ensures DistinctQueues(Eligible(s, machineId, scan))
    ensures forall a :: a in Eligible(s, machineId, scan) <==> a in scan && Assigned(s, machineId, a)
  {
    if scan == [] {
    } else {
      var init, a := scan[..|scan| - 1], scan[|scan| - 1];
      EligibleExactly(s, machineId, init);
      CopiesOfAssigned(s, machineId, a);
      assert forall b :: b in scan <==> b in init || b == a;
      var r := Eligible(s, machineId, init);
      forall i | 0 <= i < |r|
        ensures !SameQueue(r[i], a)
      {
        assert r[i] in init;
      }
    }
  }

  lemma VerifiedIsPairwiseCompatible(defs: seq<SetDef>, isQualifiedName: string -> bool, i: nat)
    requires Verified(defs, isQualifiedName) && i < |defs|
    ensures PairwiseCompatible(defs[i])
  {
    assert ValidSet(defs, i, isQualifiedName);
    forall k, n | 0 <= k < n < |defs[i].apqns|
      ensures Compatible(defs[i].apqns[k], defs[i].apqns[n])
    {
      assert NoConflict(defs, i, k);
    }
  }

  /** Every set's list names no queue twice, and no queue is in the lists of two sets. */
  lemma SetsPartitionApqns(defs: seq<SetDef>, isQualifiedName: string -> bool, machineId: string, scan: seq<Apqn>)
    requires Verified(defs, isQualifiedName) && DistinctQueues(scan)
    ensures forall i :: 0 <= i < |defs| ==> DistinctQueues(Eligible(defs[i], machineId, scan))
    ensures forall i, j, a, b | 0 <= i < |defs| && 0 <= j < |defs|
              && a in Eligible(defs[i], machineId, scan) && b in Eligible(defs[j], machineId, scan) && SameQueue(a, b)
              :: i == j
  {
    forall i | 0 <= i < |defs|
      ensures DistinctQueues(Eligible(defs[i], machineId, scan))
      ensures forall a :: a in Eligible(defs[i], machineId, scan) ==> Assigned(defs[i], machineId, a)
    {
      VerifiedIsPairwiseCompatible(defs, isQualifiedName, i);
      EligibleExactly(defs[i], machineId, scan);
    }
    forall i, j, a, b | 0 <= i < |defs| && 0 <= j < |defs|
      && a in Eligible(defs[i], machineId, scan) && b in Eligible(defs[j], machineId, scan) && SameQueue(a, b)
      ensures i == j
    {
      LookupForApqnFinds(defs, isQualifiedName, i, machineId, a.adapter, a.domain);
      LookupForApqnFinds(defs, isQualifiedName, j, machineId, a.adapter, a.domain);
      LookupFinds(defs, i, isQualifiedName);
      assert ValidSet(defs, i, isQualifiedName) && UniqueName(defs, i);
    }
  }

  /** The id is one of the n ids of an APQN in the list. */
  ghost predicate IdOf(l: seq<Apqn>, n: nat, id: string) {
    exists a, i :: a in l && 0 <= i < n && id == DeviceId(a.adapter, a.domain, i)
  }

  lemma {:induction false} BlockIds(a: Apqn, n: nat)
    ensures forall p :: 0 <= p < n ==> Block(a, n)[p] == Device(DeviceId(a.adapter, a.domain, p), a.online)
  {
    if n == 0 {
    } else {
      BlockIds(a, n - 1);
    }
  }

  lemma {:induction false} DevicesHaveIds(l: seq<Apqn>, n: nat)
    ensures forall d :: d in DevicesFor(l, n) ==> IdOf(l, n, d.id)
  {
    if l == [] {
    } else {
      var init, a := l[..|l| - 1], l[|l| - 1];
      DevicesHaveIds(init, n);
      BlockIds(a, n);
      forall d | d in DevicesFor(l, n)
        ensures IdOf(l, n, d.id)
      {
        if d in DevicesFor(init, n) {
          assert IdOf(init, n, d.id);
          var b, i :| b in init && 0 <= i < n && d.id == DeviceId(b.adapter, b.domain, i);
          assert b in l;
        } else {
          var p :| 0 <= p < n && Block(a, n)[p] == d;
          assert a in l;
        }
      }
    }
  }

  lemma {:induction false} DevicesHaveDistinctIds(l: seq<Apqn>, n: nat)
    requires DistinctQueues(l)
    ensures DistinctIds(DevicesFor(l, n))
  {
    if l == [] {
    } else {
      var init, a := l[..|l| - 1], l[|l| - 1];
      DevicesHaveDistinctIds(init, n);
      DevicesHaveIds(init, n);
      BlockIds(a, n);
      var front, back := DevicesFor(init, n), Block(a, n);
      forall p, q | 0 <= p < |front| && 0 <= q < n
        ensures front[p].id != back[q].id
      {
        assert front[p] in front && IdOf(init, n, front[p].id);
        var b, i :| b in init && 0 <= i < n && front[p].id == DeviceId(b.adapter, b.domain, i);
        if front[p].id == back[q].id {
          DeviceIdInjective(b.adapter, b.domain, i, a.adapter, a.domain, q);
        }
      }
      forall p, q | 0 <= p < q < n
        ensures back[p].id != back[q].id
      {
        if back[p].id == back[q].id {
          DeviceIdInjective(a.adapter, a.domain, p, a.adapter, a.domain, q);
        }
      }
    }
  }

  /** The devices set i announces when each of its APQNs is offered n times. */
  function SetDevices(s: SetDef, machineId: string, scan: seq<Apqn>, n: nat): seq<Device> {
    DevicesFor(Eligible(s, machineId, scan), n)
  }

  /** Device ids are unique within every set and across the sets of an accepted configuration. */
  lemma DeviceIdsGloballyUnique(defs: seq<SetDef>, isQualifiedName: string -> bool, machineId: string,
                                scan: seq<Apqn>, counts: seq<nat>)
    requires Verified(defs, isQualifiedName) && DistinctQueues(scan) && |counts| == |defs|
    ensures forall i :: 0 <= i < |defs| ==> DistinctIds(SetDevices(defs[i], machineId, scan, counts[i]))
    ensures forall i, j, d, e | 0 <= i < |defs| && 0 <= j < |defs|
              && d in SetDevices(defs[i], machineId, scan, counts[i])
              && e in SetDevices(defs[j], machineId, scan, counts[j]) && d.id == e.id
              :: i == j
  {
    SetsPartitionApqns(defs, isQualifiedName, machineId, scan);
    forall i | 0 <= i < |defs|
      ensures DistinctIds(SetDevices(defs[i], machineId, scan, counts[i]))
      ensures forall d :: d in SetDevices(defs[i], machineId, scan, counts[i]) ==>
                IdOf(Eligible(defs[i], machineId, scan), counts[i], d.id)
    {
      DevicesHaveDistinctIds(Eligible(defs[i], machineId, scan), counts[i]);
      DevicesHaveIds(Eligible(defs[i], machineId, scan), counts[i]);
    }
    forall i, j, d, e | 0 <= i < |defs| && 0 <= j < |defs|
      && d in SetDevices(defs[i], machineId, scan, counts[i])
      && e in SetDevices(defs[j], machineId, scan, counts[j]) && d.id == e.id
      ensures i == j
    {
      var a, p :| a in Eligible(defs[i], machineId, scan) && 0 <= p < counts[i]
        && d.id == DeviceId(a.adapter, a.domain, p);
      var b, q :| b in Eligible(defs[j], machineId, scan) && 0 <= q < counts[j]
        && e.id == DeviceId(b.adapter, b.domain, q);
      DeviceIdInjective(a.adapter, a.domain, p, b.adapter, b.domain, q);
      assert SameQueue(a, b);
    }
  }

  /**
     The pod lister's way back: scanning an announced id yields the device's queue, and the reverse
     lookup of that queue finds exactly the set whose plug-in announced the device.
   */
  lemma ReverseLookupInvertsAnnouncement(defs: seq<SetDef>, isQualifiedName: string -> bool, i: nat,
                                         machineId: string, scan: seq<Apqn>, n: nat, d: Device)
    requires Verified(defs, isQualifiedName) && DistinctQueues(scan) && i < |defs| && IsInt64(n)
    requires d in SetDevices(defs[i], machineId, scan, n)
    ensures Scan(d.id).Some?
    ensures var t := Scan(d.id).value;
            && 0 <= t.index < n
            && DeviceId(t.adapter, t.domain, t.index) == d.id
            && LookupForApqn(defs, t.adapter, t.domain, machineId) == Some(defs[i])
            && exists a :: a in scan && a.adapter == t.adapter && a.domain == t.domain && a.online == d.healthy
  {
    var l := Eligible(defs[i], machineId, scan);
    VerifiedIsPairwiseCompatible(defs, isQualifiedName, i);
    EligibleExactly(defs[i], machineId, scan);
    var a, p := DeviceOrigin(l, n, d);
    var c :| c in defs[i].apqns && Covers(c, machineId, a.adapter, a.domain);
    assert ValidSet(defs, i, isQualifiedName);
    assert InRange(c);
    RoundTrip(a.adapter, a.domain, p);
    LookupForApqnFinds(defs, isQualifiedName, i, machineId, a.adapter, a.domain);
  }

  lemma {:induction false} DeviceOrigin(l: seq<Apqn>, n: nat, d: Device) returns (a: Apqn, i: nat)
    requires d in DevicesFor(l, n)
    ensures a in l && i < n && d == Device(DeviceId(a.adapter, a.domain, i), a.online)
  {
    var init := l[..|l| - 1];
    if d in DevicesFor(init, n) {
      a, i := DeviceOrigin(init, n, d);
    } else {
      a := l[|l| - 1];
      BlockIds(a, n);
      i :| 0 <= i < n && Block(a, n)[i] == d;
    }
  }

  lemma {:induction false} DevicesLength(l: seq<Apqn>, n: nat)
    ensures |DevicesFor(l, n)| == |l| * n
  {
    if l == [] {
    } else {
      DevicesLength(l[..|l| - 1], n);
      assert |l| * n == (|l| - 1) * n + n;
    }
  }

  /** Each APQN of the list is offered limit times, under the indices from 0, and is healthy if it is online. */
  ghost predicate Offers(l: seq<Apqn>, limit: nat, devices: seq<Device>) {
    && |devices| == |l| * limit
    && (forall k, i :: 0 <= k < |l| && 0 <= i < limit ==>
          Device(DeviceId(l[k].adapter, l[k].domain, i), l[k].online) in devices)
    && forall d :: d in devices ==>
         exists k, i :: 0 <= k < |l| && 0 <= i < limit
                        && d == Device(DeviceId(l[k].adapter, l[k].domain, i), l[k].online)
  }

  lemma DevicesOffer(l: seq<Apqn>, n: nat)
    ensures Offers(l, n, DevicesFor(l, n))
  {
    DevicesLength(l, n);
    forall k, i | 0 <= k < |l| && 0 <= i < n
      ensures Device(DeviceId(l[k].adapter, l[k].domain, i), l[k].online) in DevicesFor(l, n)
    {
      DeviceOffered(l, n, k, i);
    }
    forall d | d in DevicesFor(l, n)
      ensures exists k, i :: 0 <= k < |l| && 0 <= i < n
                && d == Device(DeviceId(l[k].adapter, l[k].domain, i), l[k].online)
    {
      var a, i := DeviceOrigin(l, n, d);
      var k :| 0 <= k < |l| && l[k] == a;
    }
  }

  lemma {:induction false} DeviceOffered(l: seq<Apqn>, n: nat, k: nat, i: nat)
    requires k < |l| && i < n
    ensures Device(DeviceId(l[k].adapter, l[k].domain, i), l[k].online) in DevicesFor(l, n)
  {
    var m := |l| - 1;
    if k == m {
      BlockIds(l[m], n);
      assert Block(l[m], n)[i] in DevicesFor(l, n);
    } else {
      DeviceOffered(l[..m], n, k, i);
    }
  }

  lemma {:induction false} DevicesOfConcat(l1: seq<Apqn>, l2: seq<Apqn>, n: nat)
    ensures DevicesFor(l1 + l2, n) == DevicesFor(l1, n) + DevicesFor(l2, n)
  {
    if l2 == [] {
      assert l1 + [] == l1;
    } else {
      var init, a := l2[..|l2| - 1], l2[|l2| - 1];
      assert init + [a] == l2;
      DevicesOfConcat(l1, init, n);
      ConcatStep(l1, init, a, n);
    }
  }

  lemma ConcatAssociative<T>(x: seq<T>, y: seq<T>, z: seq<T>)
    ensures x + (y + z) == (x + y) + z
  {
  }

  lemma ConcatStep(l1: seq<Apqn>, init: seq<Apqn>, a: Apqn, n: nat)
    requires DevicesFor(l1 + init, n) == DevicesFor(l1, n) + DevicesFor(init, n)
    ensures DevicesFor(l1 + (init + [a]), n) == DevicesFor(l1, n) + DevicesFor(init + [a], n)
  {
    ConcatAssociative(l1, init, [a]);
    DevicesOfAppend(l1 + init, a, n);
    DevicesOfAppend(init, a, n);
    ConcatAssociative(DevicesFor(l1, n), DevicesFor(init, n), Block(a, n));
  }

  lemma DevicesOfAppend(l: seq<Apqn>, a: Apqn, n: nat)
    ensures DevicesFor(l + [a], n) == DevicesFor(l, n) + Block(a, n)
  {
    assert (l + [a])[..|l|] == l;
  }

  /** The devices of a reordered list are the reordered devices. */
  lemma {:induction false} DevicesOfPermutation(l1: seq<Apqn>, l2: seq<Apqn>, n: nat)
    requires IsPermutation(l1, l2)
    ensures IsPermutation(DevicesFor(l1, n), DevicesFor(l2, n))
  {
    if l1 == [] {
      assert |l2| == |multiset(l2)|;
    } else {
      var a, tail := l1[0], l1[1..];
      assert a in multiset(l2);
      var j :| 0 <= j < |l2| && l2[j] == a;
      RemoveFromMultiset(l1, 0);
      RemoveFromMultiset(l2, j);
      assert multiset(Remove(l1, 0)) == multiset(l1) - multiset{a} == multiset(Remove(l2, j));
      DevicesOfPermutation(Remove(l1, 0), Remove(l2, j), n);
      DevicesAfterRemove(l1, 0, n);
      DevicesAfterRemove(l2, j, n);
    }
  }

  lemma DevicesAfterRemove(l: seq<Apqn>, j: nat, n: nat)
    requires j < |l|
    ensures multiset(DevicesFor(l, n)) == multiset(DevicesFor(Remove(l, j), n)) + multiset(Block(l[j], n))
  {
    var front, back := l[..j], l[j + 1..];
    assert l == (front + [l[j]]) + back;
    DevicesOfConcat(front + [l[j]], back, n);
    DevicesOfAppend(front, l[j], n);
    DevicesOfConcat(front, back, n);
  }

  lemma StrictProduct(k: nat, m: nat, n: nat)
    requires k > 0 && m != n
    ensures k * m != k * n
  {
    if m < n {
      assert k * (n - m) > 0;
    } else {
      assert k * (m - n) > 0;
    }
  }

  /** Offering the same APQNs a different number of times gives different devices, unless there are no APQNs. */
  lemma DifferentCountDifferentDevices(l1: seq<Apqn>, n1: nat, l2: seq<Apqn>, n2: nat)
    requires IsPermutation(l1, l2)
    ensures IsPermutation(DevicesFor(l1, n1), DevicesFor(l2, n2)) <==> n1 == n2 || l1 == []
  {
    assert |l1| == |multiset(l1)| == |multiset(l2)| == |l2|;
    if n1 == n2 {
      DevicesOfPermutation(l1, l2, n1);
    } else if l1 != [] {
      StrictProduct(|l1|, n1, n2);
      DevicesLength(l1, n1);
      DevicesLength(l2, n2);
      assert |multiset(DevicesFor(l1, n1))| != |multiset(DevicesFor(l2, n2))|;
    }
  }

  // Card generations are compared as strings.

  /**
     A card of generation n passes a set's minimum m (one of "cex4" to "cex9") by the number exactly
     when it does so by the string, unless n has more than one digit and starts with a smaller one.
   */
  lemma GenerationsCompareByNumber(n: nat, m: nat)
    requires 4 <= m <= 9
    ensures (GenTooOld("cex" + FormatNat(n), "cex" + FormatNat(m)) <==> n < m)
            <==> n < 10 || DigitValue(FormatNat(n)[0]) >= m
  {
    var s, t := FormatNat(n), FormatNat(m);
    assert t == [Digit(m)];
    StringLessAfterPrefix(s, t);
    assert s[0] < t[0] <==> DigitValue(s[0]) < m;
    if n >= 10 {
      assert |FormatNat(n / 10)| > 0;
      assert |s| > 1;
    }
  }

  lemma StringLessAfterPrefix(s: string, t: string)
    ensures StringLess("cex" + s, "cex" + t) == StringLess(s, t)
  {
    var s3, t3 := "cex" + s, "cex" + t;
    assert s3[1..] == "ex" + s && t3[1..] == "ex" + t;
    assert ("ex" + s)[1..] == "x" + s && ("ex" + t)[1..] == "x" + t;
    assert ("x" + s)[1..] == s && ("x" + t)[1..] == t;
    assert StringLess("x" + s, "x" + t) == StringLess(s, t);
    assert StringLess("ex" + s, "ex" + t) == StringLess("x" + s, "x" + t);
  }
}
