/** What the metrics tables promise over many notices and polls. */
module MetricsLaws {
  import opened Wrappers
  import DeviceIds
  import opened Apqns
  import opened Sums
  import opened Counts
  import opened Metrics

  ghost predicate SmallDomains(l: seq<Apqn>) {
    forall a :: a in l ==> a.domain < 256
  }

  /** The key stands for its adapter and domain exactly when the domain is below 256. */
  lemma KeyDecodesIffSmallDomain(a: Apqn)
    ensures Listed([a], Key(a)) <==> a.domain < 256
  {
    if a.domain < 256 {
      assert a in [a] && Key(a) / 256 == a.adapter;
    }
  }

  lemma KeysAreListed(l: seq<Apqn>, k: nat)
    requires SmallDomains(l)
    ensures k in Keys(l) <==> Listed(l, k)
  {
    if k in Keys(l) {
      var a :| a in l && Key(a) == k;
      assert a.adapter == k / 256 && a.domain == k % 256;
    }
    if Listed(l, k) {
      var a :| a in l && a.adapter == k / 256 && a.domain == k % 256;
      assert Key(a) == k;
    }
  }

  /** For domains 0..255 the table holds exactly the listed APQNs, and those that stay keep their counts. */
  lemma SyncedApqnsExactly(was: map<nat, ApqnCount>, l: seq<Apqn>, read: Counters, k: nat)
    requires SmallDomains(l)
    ensures var now := SyncedApqns(was, l, read);
            && (k in now <==> exists a :: a in l && a.adapter == k / 256 && a.domain == k % 256)
            && (k in now && k in was ==> now[k] == was[k])
            && (k in now && k !in was ==> now[k] == ApqnCount(Reading(read, k), 0))
  {
    KeysAreListed(l, k);
  }

  /** A list of the same APQNs, in any order, changes nothing. */
  lemma SyncOfSameApqnsIsIdentity(was: map<nat, ApqnCount>, l: seq<Apqn>, read: Counters)
    requires SmallDomains(l) && Keys(l) == was.Keys
    ensures SyncedApqns(was, l, read) == was
  {
    forall k | k in was.Keys
      ensures Listed(l, k)
    {
      KeysAreListed(l, k);
    }
  }

  /** The number of devices in use never exceeds the number of devices. */
  lemma UsedAtMostTotal(setName: string, e: CsetEntry)
    ensures 0 <= CountsOf(setName, e).used <= CountsOf(setName, e).total
  {
    assert UsedDevs(e.plugindevs) <= e.plugindevs.Keys;
    SubsetSize(UsedDevs(e.plugindevs), e.plugindevs.Keys);
  }

  lemma {:induction false} SubsetSize<T>(a: set<T>, b: set<T>)
    requires a <= b
    ensures |a| <= |b|
  {
    if a == {} {
    } else {
      var x :| x in a;
      SubsetSize(a - {x}, b - {x});
    }
  }

  // ----- request counts over a run of polls -----

  /** The APQN counts after one poll for each element of polls. */
  ghost function Rounds(m: map<nat, ApqnCount>, polls: seq<Counters>): map<nat, ApqnCount> {
    if polls == [] then m else PolledAll(Rounds(m, polls[..|polls| - 1]), polls[|polls| - 1])
  }

  ghost function RequestCount(m: map<nat, ApqnCount>): int {
    SumMap(Deltas(m))
  }

  ghost predicate Succeeds(read: Counters, k: nat) {
    read(k / 256, k % 256).Some?
  }

  /** Reads of the set's counters succeed, and the hardware counters only grow. */
  ghost predicate Growing(m: map<nat, ApqnCount>, polls: seq<Counters>) {
    && (forall i, k :: 0 <= i < |polls| && k in m ==> Succeeds(polls[i], k))
    && (forall i, j, k :: 0 <= i < j < |polls| && k in m ==> Reading(polls[i], k) <= Reading(polls[j], k))
  }

  /** The stored start values were read no later than the first poll, or are 0 because that reading failed. */
  ghost predicate Started(m: map<nat, ApqnCount>, polls: seq<Counters>) {
    forall k :: k in m && polls != [] ==> 0 <= m[k].start <= Reading(polls[0], k)
  }

  /** The readings of one APQN's counter over the polls. */
  function ReadingsOf(polls: seq<Counters>, k: nat): seq<nat> {
    seq(|polls|, i requires 0 <= i < |polls| => Reading(polls[i], k))
  }

  /** One APQN polled with the given readings, starting from its entry. */
  ghost function PolledRun(c: ApqnCount, readings: seq<nat>): ApqnCount {
    if readings == [] then c else Polled(PolledRun(c, readings[..|readings| - 1]), readings[|readings| - 1])
  }

  lemma {:induction false} RoundsKeepKeys(m: map<nat, ApqnCount>, polls: seq<Counters>)
    ensures Rounds(m, polls).Keys == m.Keys
  {
    if polls == [] {
    } else {
      RoundsKeepKeys(m, polls[..|polls| - 1]);
    }
  }

  /** How the polls of a set come down to each of its APQNs. */
  lemma {:induction false} RoundsPointwise(m: map<nat, ApqnCount>, polls: seq<Counters>, k: nat)
    requires k in m
    ensures k in Rounds(m, polls)
    ensures Rounds(m, polls)[k] == PolledRun(m[k], ReadingsOf(polls, k))
  {
    if polls == [] {
    } else {
      var init := polls[..|polls| - 1];
      RoundsPointwise(m, init, k);
      assert ReadingsOf(polls, k)[..|polls| - 1] == ReadingsOf(init, k);
    }
  }

  predicate NonDecreasing(readings: seq<nat>) {
    forall i, j :: 0 <= i < j < |readings| ==> readings[i] <= readings[j]
  }

  lemma {:induction false} StartStaysBelow(c: ApqnCount, readings: seq<nat>)
    requires readings != [] && NonDecreasing(readings) && 0 <= c.start <= readings[0]
    ensures var r := PolledRun(c, readings); 0 <= r.start <= r.current == readings[|readings| - 1]
  {
    var init := readings[..|readings| - 1];
    if init == [] {
    } else {
      StartStaysBelow(c, init);
    }
  }

  lemma ReadingsGrow(m: map<nat, ApqnCount>, polls: seq<Counters>, k: nat)
    requires Growing(m, polls) && k in m
    ensures NonDecreasing(ReadingsOf(polls, k))
  {
    var readings := ReadingsOf(polls, k);
    forall i, j | 0 <= i < j < |readings|
      ensures readings[i] <= readings[j]
    {
      assert Reading(polls[i], k) <= Reading(polls[j], k);
    }
  }

  lemma AfterRoundsAt(m: map<nat, ApqnCount>, polls: seq<Counters>, k: nat)
    requires Growing(m, polls) && Started(m, polls) && polls != [] && k in m
    ensures k in Rounds(m, polls)
    ensures 0 <= Rounds(m, polls)[k].start <= Rounds(m, polls)[k].current == Reading(polls[|polls| - 1], k)
  {
    ReadingsGrow(m, polls, k);
    RoundsPointwise(m, polls, k);
    StartStaysBelow(m[k], ReadingsOf(polls, k));
  }

  lemma AfterRounds(m: map<nat, ApqnCount>, polls: seq<Counters>)
    requires Growing(m, polls) && Started(m, polls) && polls != []
    ensures Rounds(m, polls).Keys == m.Keys
    ensures forall k :: k in m ==>
              0 <= Rounds(m, polls)[k].start <= Rounds(m, polls)[k].current == Reading(polls[|polls| - 1], k)
  {
    RoundsKeepKeys(m, polls);
    forall k | k in m
      ensures 0 <= Rounds(m, polls)[k].start <= Rounds(m, polls)[k].current == Reading(polls[|polls| - 1], k)
    {
      AfterRoundsAt(m, polls, k);
    }
  }

  lemma CountNotNegative(m: map<nat, ApqnCount>, polls: seq<Counters>)
    requires Growing(m, polls) && Started(m, polls) && polls != []
    ensures 0 <= RequestCount(Rounds(m, polls))
  {
    AfterRounds(m, polls);
    var zeros := map k | k in m :: 0;
    SumMapZero(zeros);
    SumMapMonotone(zeros, Deltas(Rounds(m, polls)));
  }

  lemma CountStep(m: map<nat, ApqnCount>, polls: seq<Counters>)
    requires Growing(m, polls) && Started(m, polls) && |polls| >= 2
    ensures RequestCount(Rounds(m, polls[..|polls| - 1])) <= RequestCount(Rounds(m, polls))
  {
    var init := polls[..|polls| - 1];
    AfterRounds(m, init);
    var before, after := Rounds(m, init), Rounds(m, polls);
    forall k | k in before
      ensures Deltas(before)[k] <= Deltas(after)[k]
    {
      assert Reading(polls[|polls| - 2], k) <= Reading(polls[|polls| - 1], k);
    }
    SumMapMonotone(Deltas(before), Deltas(after));
  }

  /** The count sent for a set is never negative and never falls from one poll to the next. */
  lemma {:induction false} RequestCountsNeverFall(m: map<nat, ApqnCount>, polls: seq<Counters>, i: nat)
    requires Growing(m, polls) && Started(m, polls)
    requires 0 < i <= |polls|
    ensures 0 <= RequestCount(Rounds(m, polls[..i])) <= RequestCount(Rounds(m, polls))
    decreases |polls|
  {
    if i == |polls| {
      assert polls[..i] == polls;
      CountNotNegative(m, polls);
    } else {
      var init := polls[..|polls| - 1];
      assert init[..i] == polls[..i];
      RequestCountsNeverFall(m, init, i);
      CountStep(m, polls);
    }
  }

  lemma {:induction false} StartAfterRun(h: nat, readings: seq<nat>)
    requires readings != []
    requires forall i :: 0 <= i < |readings| ==> h <= readings[i]
    requires NonDecreasing(readings)
    ensures var c := PolledRun(ApqnCount(h, 0), readings);
            && c.current == readings[|readings| - 1]
            && (h > 0 ==> c.start == h)
            && (h == 0 ==> (c.start == 0 <==> c.current == 0))
  {
    var init := readings[..|readings| - 1];
    if init == [] {
    } else {
      StartAfterRun(h, init);
    }
  }

  /**
     An APQN first seen with counter value h: what is reported is the number of requests since then,
     exactly when h was not 0 or nothing was requested yet. A queue that starts at 0 loses what
     it served before the first poll that finds it busy.
   */
  lemma ReportedCountIsTrueIff(h: nat, readings: seq<nat>)
    requires readings != []
    requires forall i :: 0 <= i < |readings| ==> h <= readings[i]
    requires NonDecreasing(readings)
    ensures var c := PolledRun(ApqnCount(h, 0), readings);
            var last := readings[|readings| - 1];
            c.current - c.start == last - h <==> h != 0 || last == 0
  {
    StartAfterRun(h, readings);
  }

  /** A poll whose read fails reports the set's start values as negative counts; these are the only ones below 0. */
  lemma PollNegativeIff(m: map<nat, ApqnCount>, read: Counters, k: nat)
    requires k in m && 0 <= m[k].start
    requires Succeeds(read, k) ==> m[k].start <= Reading(read, k)
    ensures Deltas(PolledAll(m, read))[k] < 0 <==> !Succeeds(read, k) && m[k].start > 0
  {
    assert !Succeeds(read, k) ==> Reading(read, k) == 0;
  }

  // ----- the node's own request counter -----

  ghost predicate NonNegative(s: seq<int>) {
    forall i :: 0 <= i < |s| ==> 0 <= s[i]
  }

  lemma {:induction false} SumNonNegative(s: seq<int>)
    requires NonNegative(s)
    ensures 0 <= SumSeq(s)
  {
    if s == [] {
    } else {
      SumNonNegative(s[..|s| - 1]);
    }
  }

  lemma {:induction false} PrefixTotalNonNegative(s: seq<int>)
    requires NonNegative(s)
    ensures SumSeq(s) <= PrefixTotal(s)
    ensures PrefixTotal(s) == 0 ==> SumSeq(s) == 0
  {
    if s == [] {
    } else {
      PrefixTotalNonNegative(s[..|s| - 1]);
      SumNonNegative(s[..|s| - 1]);
    }
  }

  /**
     One set's contribution is at least its sum, and is that sum exactly when all its APQNs but the last served
     nothing.
   */
  lemma SetCounterIsSumIff(s: seq<int>)
    requires NonNegative(s) && s != []
    ensures SumSeq(s) <= PrefixTotal(s)
    ensures PrefixTotal(s) == SumSeq(s) <==> SumSeq(s[..|s| - 1]) == 0
  {
    PrefixTotalNonNegative(s[..|s| - 1]);
    PrefixTotalNonNegative(s);
    SumNonNegative(s[..|s| - 1]);
    if SumSeq(s[..|s| - 1]) == 0 {
      ZeroSumZeroPrefixes(s[..|s| - 1]);
    }
  }

  lemma {:induction false} ZeroSumZeroPrefixes(s: seq<int>)
    requires NonNegative(s) && SumSeq(s) == 0
    ensures PrefixTotal(s) == 0
  {
    if s == [] {
    } else {
      SumNonNegative(s[..|s| - 1]);
      ZeroSumZeroPrefixes(s[..|s| - 1]);
    }
  }

  /** All APQNs of the visit but the last one served nothing. */
  predicate OnlyLastServed(s: seq<int>) {
    s != [] ==> SumSeq(s[..|s| - 1]) == 0
  }

  ghost predicate AllNonNegative(visits: seq<seq<int>>) {
    forall i :: 0 <= i < |visits| ==> NonNegative(visits[i])
  }

  function FlatTotal(visits: seq<seq<int>>): int {
    if visits == [] then 0 else FlatTotal(visits[..|visits| - 1]) + SumSeq(visits[|visits| - 1])
  }

  lemma OneVisit(s: seq<int>)
    requires NonNegative(s)
    ensures SumSeq(s) <= PrefixTotal(s)
    ensures PrefixTotal(s) == SumSeq(s) <==> OnlyLastServed(s)
  {
    if s != [] {
      SetCounterIsSumIff(s);
    }
  }

  lemma {:induction false} VisitsAddUpIff(visits: seq<seq<int>>)
    requires AllNonNegative(visits)
    ensures FlatTotal(visits) <= PrefixTotals(visits)
    ensures PrefixTotals(visits) == FlatTotal(visits) <==> forall i :: 0 <= i < |visits| ==> OnlyLastServed(visits[i])
  {
    if visits == [] {
      assert FlatTotal(visits) == PrefixTotals(visits) == 0;
    } else {
      var init, s := visits[..|visits| - 1], visits[|visits| - 1];
      VisitsAddUpIff(init);
      OneVisit(s);
      assert forall i :: 0 <= i < |init| ==> init[i] == visits[i];
    }
  }

  ghost predicate RequestsNonNegative(t: CsetTable) {
    forall s, k :: s in t && k in t[s].apqns ==> 0 <= Deltas(t[s].apqns)[k]
  }

  lemma {:induction false} FlatTotalIsSum(t: CsetTable, csets: seq<CsetCounts>, visits: seq<seq<int>>)
    requires VisitsAgree(t, csets, visits)
    ensures FlatTotal(visits) == SumOf(csets, Requests)
  {
    if visits == [] {
      assert csets == [];
    } else {
      var n := |visits| - 1;
      FlatTotalIsSum(t, csets[..n], visits[..n]);
    }
  }

  lemma VisitsAreNonNegative(t: CsetTable, csets: seq<CsetCounts>, visits: seq<seq<int>>)
    requires RequestsNonNegative(t) && VisitsAgree(t, csets, visits)
    ensures AllNonNegative(visits)
  {
    forall i | 0 <= i < |visits|
      ensures NonNegative(visits[i])
    {
      var s := csets[i].setName;
      var order :| Along(Deltas(t[s].apqns), order, visits[i]);
      forall j | 0 <= j < |order|
        ensures 0 <= visits[i][j]
      {
        assert order[j] in order;
      }
    }
  }

  /**
     The node's counter, as it adds up the sets' running totals over a walk through the tables: it is at least the
     sum of all requests, and is that sum exactly when in every set all APQNs but the last one visited served none.
   */
  lemma NodeCounterIsSumIff(t: CsetTable, csets: seq<CsetCounts>, visits: seq<seq<int>>)
    requires RequestsNonNegative(t) && VisitsAgree(t, csets, visits)
    ensures SumOf(csets, Requests) <= PrefixTotals(visits)
    ensures PrefixTotals(visits) == SumOf(csets, Requests) <==> forall i :: 0 <= i < |visits| ==>
              OnlyLastServed(visits[i])
  {
    VisitsAreNonNegative(t, csets, visits);
    VisitsAddUpIff(visits);
    FlatTotalIsSum(t, csets, visits);
  }

  lemma {:induction false} PartOfSum(s: seq<int>, j: nat)
    requires NonNegative(s) && j < |s|
    ensures s[j] <= SumSeq(s)
  {
    var n := |s| - 1;
    if j == n {
      SumNonNegative(s[..n]);
    } else {
      PartOfSum(s[..n], j);
      assert s[..n][j] == s[j];
    }
  }

  lemma AlongCons(m: map<nat, int>, order: seq<nat>, values: seq<int>, k: nat)
    requires k in m && Along(m - {k}, order, values)
    ensures Along(m, [k] + order, [m[k]] + values)
  {
    forall j
      ensures j in [k] + order <==> j in m
    {
      assert j in [k] + order <==> j == k || j in order;
    }
  }

  lemma {:induction false} SomeOrder(m: map<nat, int>) returns (order: seq<nat>, values: seq<int>)
    ensures Along(m, order, values) && |values| == |m|
    decreases |m|
  {
    if m == map[] {
      order, values := [], [];
    } else {
      var k :| k in m;
      order, values := OrderFrom(m, k);
    }
  }

  /** An order of the keys that begins with the given one. */
  lemma {:induction false} OrderFrom(m: map<nat, int>, k: nat) returns (order: seq<nat>, values: seq<int>)
    requires k in m
    ensures Along(m, order, values) && |values| == |m| && values[0] == m[k]
    decreases |m|, 0
  {
    assert (m - {k}).Keys == m.Keys - {k};
    order, values := SomeOrder(m - {k});
    AlongCons(m, order, values, k);
    order, values := [k] + order, [m[k]] + values;
  }

  /** A visit of a set's APQNs; it begins with the given one, if that is among them. */
  lemma VisitFrom(m: map<nat, int>, k: nat) returns (values: seq<int>)
    ensures Visits(m, values) && |values| == |m| && SumSeq(values) == SumMap(m)
    ensures k in m ==> |values| > 0 && values[0] == m[k]
  {
    var order;
    if k in m {
      order, values := OrderFrom(m, k);
    } else {
      order, values := SomeOrder(m);
    }
    SumAlong(m, order, values);
  }

  lemma WalkOneMore(t: CsetTable, csets: seq<CsetCounts>, visits: seq<seq<int>>, c: CsetCounts, values: seq<int>)
    requires VisitsAgree(t, csets, visits) && VisitAgrees(t, c, values)
    ensures VisitsAgree(t, csets + [c], visits + [values])
  {
  }

  lemma VisitOfRecord(t: CsetTable, c: CsetCounts, values: seq<int>)
    requires c.setName in t && c == CountsOf(c.setName, t[c.setName])
    requires var deltas := Deltas(t[c.setName].apqns);
             Visits(deltas, values) && |values| == |deltas| && SumSeq(values) == SumMap(deltas)
    ensures VisitAgrees(t, c, values)
  {
    var apqns := t[c.setName].apqns;
    assert Deltas(apqns).Keys == apqns.Keys;
    assert |Deltas(apqns)| == |Deltas(apqns).Keys| && |apqns| == |apqns.Keys|;
  }

  /** The visit begins with the APQN k, if the record's set has it. */
  ghost predicate BeginsWith(t: CsetTable, c: CsetCounts, visit: seq<int>, k: nat) {
    c.setName in t && k in t[c.setName].apqns ==> |visit| > 0 && visit[0] == Deltas(t[c.setName].apqns)[k]
  }

  ghost predicate AllReported(t: CsetTable, csets: seq<CsetCounts>) {
    forall i :: 0 <= i < |csets| ==>
      csets[i].setName in t && csets[i] == CountsOf(csets[i].setName, t[csets[i].setName])
  }

  lemma VisitOfRecordFrom(t: CsetTable, c: CsetCounts, k: nat) returns (values: seq<int>)
    requires c.setName in t && c == CountsOf(c.setName, t[c.setName])
    ensures VisitAgrees(t, c, values) && BeginsWith(t, c, values, k)
  {
    values := VisitFrom(Deltas(t[c.setName].apqns), k);
    VisitOfRecord(t, c, values);
  }

  /** A walk through the tables that visits the APQN k of a set before all others of the set. */
  lemma {:induction false} WalkFrom(t: CsetTable, csets: seq<CsetCounts>, k: nat) returns (visits: seq<seq<int>>)
    requires AllReported(t, csets)
    ensures VisitsAgree(t, csets, visits)
    ensures forall i :: 0 <= i < |csets| ==> BeginsWith(t, csets[i], visits[i], k)
  {
    if csets == [] {
      visits := [];
    } else {
      var init, c := csets[..|csets| - 1], csets[|csets| - 1];
      assert csets == init + [c];
      visits := WalkFrom(t, init, k);
      var values := VisitOfRecordFrom(t, c, k);
      WalkOneMore(t, init, visits, c, values);
      visits := visits + [values];
    }
  }

  lemma IdleVisit(s: seq<int>)
    requires NonNegative(s) && (|s| <= 1 || SumSeq(s) == 0)
    ensures OnlyLastServed(s)
  {
    if |s| >= 2 {
      SumNonNegative(s[..|s| - 1]);
    }
  }

  lemma BusyFirst(s: seq<int>)
    requires NonNegative(s) && |s| >= 2 && s[0] > 0
    ensures !OnlyLastServed(s)
  {
    PartOfSum(s[..|s| - 1], 0);
  }

  ghost predicate SharedSetsIdle(t: CsetTable) {
    forall s :: s in t && |t[s].apqns| >= 2 ==> RequestCount(t[s].apqns) == 0
  }

  lemma IdleSetsAddUp(t: CsetTable, csets: seq<CsetCounts>, visits: seq<seq<int>>)
    requires RequestsNonNegative(t) && Reports(t, csets) && VisitsAgree(t, csets, visits) && SharedSetsIdle(t)
    ensures PrefixTotals(visits) == SumOf(csets, Requests)
  {
    NodeCounterIsSumIff(t, csets, visits);
    VisitsAreNonNegative(t, csets, visits);
    forall i | 0 <= i < |visits|
      ensures OnlyLastServed(visits[i])
    {
      assert csets[i] in csets;
      IdleVisit(visits[i]);
    }
  }

  lemma BusySetOvercounts(t: CsetTable, csets: seq<CsetCounts>, s: string) returns (visits: seq<seq<int>>)
    requires RequestsNonNegative(t) && Reports(t, csets)
    requires s in t && |t[s].apqns| >= 2 && RequestCount(t[s].apqns) != 0
    ensures VisitsAgree(t, csets, visits) && PrefixTotals(visits) != SumOf(csets, Requests)
  {
    var deltas := Deltas(t[s].apqns);
    if forall k :: k in deltas.Keys ==> deltas[k] == 0 {
      SumMapZero(deltas);
      assert false;
    }
    var k :| k in deltas.Keys && deltas[k] != 0;
    assert forall i :: 0 <= i < |csets| ==> csets[i] in csets;
    visits := WalkFrom(t, csets, k);
    var i :| 0 <= i < |csets| && csets[i].setName == s;
    assert VisitAgrees(t, csets[i], visits[i]) && BeginsWith(t, csets[i], visits[i], k);
    VisitsAreNonNegative(t, csets, visits);
    BusyFirst(visits[i]);
    NodeCounterIsSumIff(t, csets, visits);
  }

  /**
     The node's counter is the sum of all requests in every order of visits exactly when only sets with one APQN
     served any.
   */
  lemma NodeCounterIsSumInEveryOrderIff(t: CsetTable, csets: seq<CsetCounts>)
    requires RequestsNonNegative(t) && Reports(t, csets)
    ensures (forall visits :: VisitsAgree(t, csets, visits) ==> PrefixTotals(visits) == SumOf(csets, Requests)) <==>
            SharedSetsIdle(t)
  {
    if SharedSetsIdle(t) {
      forall visits | VisitsAgree(t, csets, visits)
        ensures PrefixTotals(visits) == SumOf(csets, Requests)
      {
        IdleSetsAddUp(t, csets, visits);
      }
    } else {
      var s :| s in t && |t[s].apqns| >= 2 && RequestCount(t[s].apqns) != 0;
      var visits := BusySetOvercounts(t, csets, s);
    }
  }

  /** Two APQNs of one set that served 5 and 3 requests: the set's record says 8, the node's counter 13. */
  lemma NodeCounterOvercounts()
    ensures var t := map["s" := CsetEntry(map[], map[0 := ApqnCount(1, 6), 1 := ApqnCount(1, 4)])];
            var csets := [CsetCounts("s", 0, 0, 8)];
            Reports(t, csets) && VisitsAgree(t, csets, [[5, 3]]) && PrefixTotals([[5, 3]]) == 13
  {
    var e := CsetEntry(map[], map[0 := ApqnCount(1, 6), 1 := ApqnCount(1, 4)]);
    FiveAndThree(e.apqns);
    assert UsedDevs(e.plugindevs) == {};
    OneSetReports("s", e, CsetCounts("s", 0, 0, 8), [5, 3]);
    PrefixTotalsAppend([], [5, 3]);
    assert [] + [[5, 3]] == [[5, 3]];
  }

  /** A table of one set, its record and a visit of it. */
  lemma OneSetReports(s: string, e: CsetEntry, c: CsetCounts, values: seq<int>)
    requires c == CountsOf(s, e) && Visits(Deltas(e.apqns), values) && |values| == |Deltas(e.apqns)|
    requires SumSeq(values) == SumMap(Deltas(e.apqns))
    ensures Reports(map[s := e], [c]) && VisitsAgree(map[s := e], [c], [values])
  {
    VisitOfRecord(map[s := e], c, values);
    assert [c][0].setName == s;
  }

  lemma FiveAndThree(m: map<nat, ApqnCount>)
    requires m == map[0 := ApqnCount(1, 6), 1 := ApqnCount(1, 4)]
    ensures Visits(Deltas(m), [5, 3]) && SumMap(Deltas(m)) == SumSeq([5, 3]) == 8 && |Deltas(m)| == 2
    ensures PrefixTotal([5, 3]) == 13
  {
    var deltas := Deltas(m);
    assert deltas == map[0 := 5, 1 := 3];
    VisitZeroOne(deltas, 5, 3);
    SumsOfTwo(5, 3);
  }

  lemma VisitZeroOne(m: map<nat, int>, v: int, w: int)
    requires m == map[0 := v, 1 := w]
    ensures Visits(m, [v, w]) && SumMap(m) == SumSeq([v, w]) && |m| == 2
  {
    var order: seq<nat> := [0, 1];
    assert forall k :: k in order <==> k == 0 || k == 1;
    assert Along(m, order, [v, w]);
    SumAlong(m, order, [v, w]);
    AlongSize(m, order, [v, w]);
  }

  lemma SumsOfTwo(v: int, w: int)
    ensures SumSeq([v, w]) == v + w && PrefixTotal([v, w]) == v + v + w
  {
    assert [v][..0] == [] && SumSeq([v]) == v && PrefixTotal([v]) == v;
    assert [v, w][..1] == [v] && SumSeq([v, w]) == v + w;
  }

  lemma {:induction false} AlongSize(m: map<nat, int>, order: seq<nat>, values: seq<int>)
    requires Along(m, order, values)
    ensures |order| == |m|
  {
    if order == [] {
      assert m.Keys == {};
    } else {
      var n := |order| - 1;
      var k := order[n];
      assert order == order[..n] + [k];
      assert k !in order[..n];
      AlongSize(m - {k}, order[..n], values[..n]);
    }
  }

  // ----- devices in use -----

  /** A set's device table after a list: exactly the listed ones, kept as they were, new ones unused. */
  lemma SyncedDevsExactly(was: map<string, PluginDev>, ids: seq<string>, d: string)
    ensures var now := SyncedDevs(was, ids);
            && (d in now <==> d in ids)
            && (d in now && d in was ==> now[d] == was[d])
            && (d in now && d !in was ==> !now[d].inUse && now[d].seen.None?)
  {
  }

  /** The number of used devices sent for a set is that of its devices in use. */
  lemma UsedCountsFlags(setName: string, e: CsetEntry)
    ensures CountsOf(setName, e).used == |set d | d in e.plugindevs && e.plugindevs[d].inUse|
    ensures CountsOf(setName, e).total == |e.plugindevs|
  {
    assert UsedDevs(e.plugindevs) == set d | d in e.plugindevs && e.plugindevs[d].inUse;
  }

  /** A notice about a listed device sets its flag and time, and makes the set count one more unless it did before. */
  lemma MarkingCounts(t: CsetTable, setName: string, dev: string, now: int)
    requires Holds(t, setName, dev) && DeviceIds.Scan(dev).Some?
    ensures var t' := MarkedInUse(t, setName, dev, now);
            && Holds(t', setName, dev) && t'[setName].plugindevs[dev].inUse
            && t'[setName].plugindevs[dev].seen == Some(now)
            && CountsOf(setName, t'[setName]).total == CountsOf(setName, t[setName]).total
            && CountsOf(setName, t'[setName]).used ==
               CountsOf(setName, t[setName]).used + if t[setName].plugindevs[dev].inUse then 0 else 1
  {
    var devs := t[setName].plugindevs;
    var devs' := devs[dev := PluginDev(true, Some(now))];
    assert UsedDevs(devs') == UsedDevs(devs) + {dev};
    assert devs'.Keys == devs.Keys;
  }

  /** A poll leaves a flag set exactly if the device was last seen no longer ago than the deadline. */
  lemma PollKeepsFlagIff(m: map<string, PluginDev>, deadline: int, dev: string)
    requires dev in m
    ensures var m' := ExpiredAll(m, deadline);
            && dev in m' && m'[dev].seen == m[dev].seen
            && (m'[dev].inUse <==> m[dev].inUse && m[dev].seen.Some? && m[dev].seen.value >= deadline)
  {
  }

  /** A device noted at some time stays in use in a poll until twice the pod lister's interval has passed. */
  method MarkThenPoll(mc: MetricsColl, setName: string, dev: string, now: int, polledAt: int, interval: nat,
                      read: Counters)
    requires Holds(mc.csetmap, setName, dev) && DeviceIds.Scan(dev).Some?
    modifies mc
    ensures Holds(mc.csetmap, setName, dev)
    ensures mc.csetmap[setName].plugindevs[dev].inUse <==> polledAt - now <= 2 * interval
  {
    MarkingCounts(mc.csetmap, setName, dev, now);
    mc.MarkInUse(setName, dev, now);
    PollKeepsFlagIff(mc.csetmap[setName].plugindevs, polledAt - 2 * interval, dev);
    mc.Poll(s => polledAt, interval, read);
  }

  /** For domains below 256 an APQN's key leads to its own counter. */
  lemma ReadingOfApqn(read: Counters, a: Apqn)
    requires a.domain < 256
    ensures Reading(read, Key(a)) == match read(a.adapter, a.domain) { case None => 0 case Some(n) => n }
  {
    assert Key(a) / 256 == a.adapter && Key(a) % 256 == a.domain;
  }
}
