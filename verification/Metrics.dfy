/**
 The metrics collector of a node: a table of plug-in devices and APQN request counts for each
 config set, kept in step with the plug-ins, polled, and summed up for the exporter.
 */
module Metrics {
  import opened Wrappers
  import opened DeviceIds
  import opened Apqns
  import opened Sums
  import opened Counts

  /** A plug-in device; seen is the time of the last notice about a container using it. */
  datatype PluginDev = PluginDev(inUse: bool, seen: Option<int>)

  datatype ApqnCount = ApqnCount(start: int, current: int)

  /** The APQNs of a set are found under the key 256 * adapter + domain. */
  datatype CsetEntry = CsetEntry(plugindevs: map<string, PluginDev>, apqns: map<nat, ApqnCount>)

  type CsetTable = map<string, CsetEntry>

  /** Reading the request counter of an adapter and domain; None when that fails. */
  type Counters = (nat, nat) -> Option<nat>

  const EMPTY := CsetEntry(map[], map[])

  function EntryOf(t: CsetTable, setName: string): CsetEntry {
    if setName in t then t[setName] else EMPTY
  }

  function Key(a: Apqn): nat {
    256 * a.adapter + a.domain
  }

  /** The reading stored for a key, where a failed one counts as 0. */
  function Reading(read: Counters, k: nat): nat {
    read(k / 256, k % 256).GetOr(0)
  }

  ghost function Keys(l: seq<Apqn>): set<nat> {
    set a | a in l :: Key(a)
  }

  /** The adapter and domain recovered from the key are in the list. */
  ghost predicate Listed(l: seq<Apqn>, k: nat) {
    exists a :: a in l && a.adapter == k / 256 && a.domain == k % 256
  }

  /** The APQN entries of a set after it was given a list: the listed ones, with the state they had. */
  ghost function SyncedApqns(was: map<nat, ApqnCount>, l: seq<Apqn>, read: Counters): map<nat, ApqnCount> {
    map k | k in Keys(l) :: if k in was && Listed(l, k) then was[k] else ApqnCount(Reading(read, k), 0)
  }

  /** The device entries of a set after it was given a list of ids. */
  ghost function SyncedDevs(was: map<string, PluginDev>, ids: seq<string>): map<string, PluginDev> {
    map d | d in ids :: if d in was then was[d] else PluginDev(false, None)
  }

  /** Every set entry but the named one is as before. */
  ghost predicate OthersKept(t: CsetTable, t': CsetTable, setName: string) {
    t' - {setName} == t - {setName}
  }

  /** Every set lists the devices and APQNs it did. */
  ghost predicate KeysKept(t: CsetTable, t': CsetTable) {
    && t'.Keys == t.Keys
    && forall s :: s in t ==> t'[s].plugindevs.Keys == t[s].plugindevs.Keys && t'[s].apqns.Keys == t[s].apqns.Keys
  }

  ghost function MarkedInUse(t: CsetTable, setName: string, dev: string, now: int): CsetTable {
    if Scan(dev).Some? && setName in t && dev in t[setName].plugindevs
    then t[setName := t[setName].(plugindevs := t[setName].plugindevs[dev := PluginDev(true, Some(now))])]
    else t
  }

  ghost function ReleasedIn(t: CsetTable, setName: string, dev: string): CsetTable
    requires setName in t && dev in t[setName].plugindevs
  {
    var devs := t[setName].plugindevs;
    t[setName := t[setName].(plugindevs := devs[dev := devs[dev].(inUse := false)])]
  }

  ghost predicate Holds(t: CsetTable, setName: string, dev: string) {
    setName in t && dev in t[setName].plugindevs
  }

  /** No device id stands in the tables of two sets. */
  ghost predicate DisjointDevs(t: CsetTable) {
    forall s1, s2, d :: Holds(t, s1, d) && Holds(t, s2, d) ==> s1 == s2
  }

  predicate Before(seen: Option<int>, t: int) {
    seen.None? || seen.value < t
  }

  /** A device no container was seen with since the deadline is not in use any more. */
  function Expired(p: PluginDev, deadline: int): PluginDev {
    if p.inUse && Before(p.seen, deadline) then p.(inUse := false) else p
  }

  /** One poll of an APQN; a start value of 0 is replaced by the polled value. */
  function Polled(c: ApqnCount, reading: nat): ApqnCount {
    ApqnCount(if c.start == 0 then reading else c.start, reading)
  }

  ghost function PolledAll(m: map<nat, ApqnCount>, read: Counters): map<nat, ApqnCount> {
    map k | k in m :: Polled(m[k], Reading(read, k))
  }

  ghost function ExpiredAll(m: map<string, PluginDev>, deadline: int): map<string, PluginDev> {
    map d | d in m :: Expired(m[d], deadline)
  }

  // ----- what is sent -----

  datatype NodeData = NodeData(nodeName: string, total: int, used: int, requests: int, csets: seq<CsetCounts>)

  ghost function UsedDevs(m: map<string, PluginDev>): set<string> {
    set d | d in m && m[d].inUse
  }

  /** The requests each APQN served since it was first seen. */
  ghost function Deltas(m: map<nat, ApqnCount>): map<nat, int> {
    map k | k in m :: m[k].current - m[k].start
  }

  ghost function CountsOf(setName: string, e: CsetEntry): CsetCounts {
    CsetCounts(setName, |e.plugindevs|, |UsedDevs(e.plugindevs)|, SumMap(Deltas(e.apqns)))
  }

  /** The sum of all prefix sums. */
  ghost function PrefixTotal(s: seq<int>): int {
    if s == [] then 0 else PrefixTotal(s[..|s| - 1]) + SumSeq(s)
  }

  ghost function PrefixTotals(ss: seq<seq<int>>): int {
    if ss == [] then 0 else PrefixTotals(ss[..|ss| - 1]) + PrefixTotal(ss[|ss| - 1])
  }

  /** The records are those of the table's sets, each once. */
  ghost predicate Reports(t: CsetTable, csets: seq<CsetCounts>) {
    && DistinctNames(csets)
    && (forall c :: c in csets ==> c.setName in t && c == CountsOf(c.setName, t[c.setName]))
    && (forall s :: s in t ==> exists i :: 0 <= i < |csets| && csets[i].setName == s)
  }

  /** The values of a map along an order of its keys. */
  ghost predicate Along(m: map<nat, int>, order: seq<nat>, values: seq<int>) {
    && (forall i, j :: 0 <= i < j < |order| ==> order[i] != order[j])
    && (forall k :: k in order <==> k in m)
    && |values| == |order| && forall i :: 0 <= i < |order| ==> values[i] == m[order[i]]
  }

  /** The values are those of the map, in the order in which its keys happen to be visited. */
  ghost predicate Visits(m: map<nat, int>, values: seq<int>) {
    exists order :: Along(m, order, values)
  }

  /** The visit lists the request numbers of the record's APQNs. */
  ghost predicate VisitAgrees(t: CsetTable, c: CsetCounts, visit: seq<int>) {
    && c.setName in t
    && Visits(Deltas(t[c.setName].apqns), visit)
    && |visit| == |t[c.setName].apqns|
    && SumSeq(visit) == c.requests
  }

  ghost predicate VisitsAgree(t: CsetTable, csets: seq<CsetCounts>, visits: seq<seq<int>>) {
    |visits| == |csets| && forall i :: 0 <= i < |visits| ==> VisitAgrees(t, csets[i], visits[i])
  }

  class MetricsColl {
    var csetmap: CsetTable

    constructor ()
      ensures csetmap == map[]
    {
      csetmap := map[];
    }

    /** The set's APQN entries become exactly those of the list; listed ones keep their counts. */
    method SyncApqns(setName: string, l: seq<Apqn>, read: Counters)
      modifies this
      ensures setName in csetmap && OthersKept(old(csetmap), csetmap, setName)
      ensures csetmap[setName].plugindevs == EntryOf(old(csetmap), setName).plugindevs
      ensures csetmap[setName].apqns == SyncedApqns(EntryOf(old(csetmap), setName).apqns, l, read)
    {
      if setName !in csetmap {
        csetmap := csetmap[setName := EMPTY];
      }
      var cse := csetmap[setName];
      var kept := DropUnlisted(cse.apqns, l);
      var apqns := AddListed(kept, l, read);
      assert apqns == SyncedApqns(cse.apqns, l, read) by {
        SyncMeets(cse.apqns, kept, apqns, l, read);
      }
      csetmap := csetmap[setName := cse.(apqns := apqns)];
    }

    /** The set's device entries become exactly those of the list; listed ones keep their state. */
    method SyncPluginDevs(setName: string, ids: seq<string>)
      modifies this
      ensures setName in csetmap && OthersKept(old(csetmap), csetmap, setName)
      ensures csetmap[setName].apqns == EntryOf(old(csetmap), setName).apqns
      ensures csetmap[setName].plugindevs == SyncedDevs(EntryOf(old(csetmap), setName).plugindevs, ids)
    {
      if setName !in csetmap {
        csetmap := csetmap[setName := EMPTY];
      }
      var cse := csetmap[setName];
      var kept := DropUnlistedDevs(cse.plugindevs, ids);
      var devs := AddListedDevs(kept, ids);
      assert devs == SyncedDevs(cse.plugindevs, ids);
      csetmap := csetmap[setName := cse.(plugindevs := devs)];
    }

    /** A device of a set is in use now; notices about unknown sets or devices are dropped. */
    method MarkInUse(setName: string, dev: string, now: int)
      modifies this
      ensures csetmap == MarkedInUse(old(csetmap), setName, dev, now)
      ensures KeysKept(old(csetmap), csetmap)
    {
      if Scan(dev).None? {
        return;
      }
      if setName !in csetmap {
        return;
      }
      var cse := csetmap[setName];
      if dev !in cse.plugindevs {
        return;
      }
      csetmap := csetmap[setName := cse.(plugindevs := cse.plugindevs[dev := PluginDev(true, Some(now))])];
    }

    /** The device's node was destroyed: the first set found to hold the device, in any order, releases it. */
    method NotifyAboutDestroyNode(dev: string)
      modifies this
      ensures if exists s :: Holds(old(csetmap), s, dev)
              then exists s :: Holds(old(csetmap), s, dev) && csetmap == ReleasedIn(old(csetmap), s, dev)
              else csetmap == old(csetmap)
      ensures DisjointDevs(old(csetmap)) ==> forall s :: Holds(old(csetmap), s, dev) ==>
                csetmap == ReleasedIn(old(csetmap), s, dev)
      ensures KeysKept(old(csetmap), csetmap)
    {
      var todo := csetmap.Keys;
      while todo != {}
        invariant csetmap == old(csetmap)
        invariant forall s :: Holds(csetmap, s, dev) ==> s in todo
        invariant todo <= csetmap.Keys
        decreases todo
      {
        var s :| s in todo;
        todo := todo - {s};
        var cse := csetmap[s];
        if dev in cse.plugindevs {
          assert Holds(old(csetmap), s, dev);
          csetmap := csetmap[s := cse.(plugindevs := cse.plugindevs[dev := cse.plugindevs[dev].(inUse := false)])];
          return;
        }
      }
    }

    /**
     One poll of all sets. Times tells when each set is visited; a device not seen for twice the
     pod lister's interval is released, and every APQN counter is read.
     */
    method Poll(times: string -> int, podListerInterval: nat, read: Counters)
      modifies this
      ensures csetmap.Keys == old(csetmap).Keys
      ensures forall s :: s in csetmap ==>
                && csetmap[s].plugindevs == ExpiredAll(old(csetmap)[s].plugindevs, times(s) - 2 * podListerInterval)
                && csetmap[s].apqns == PolledAll(old(csetmap)[s].apqns, read)
    {
      var todo := csetmap.Keys;
      while todo != {}
        invariant todo <= csetmap.Keys == old(csetmap).Keys
        invariant forall s :: s in todo ==> csetmap[s] == old(csetmap)[s]
        invariant forall s :: s in csetmap && s !in todo ==>
            && csetmap[s].plugindevs == ExpiredAll(old(csetmap)[s].plugindevs, times(s) - 2 * podListerInterval)
            && csetmap[s].apqns == PolledAll(old(csetmap)[s].apqns, read)
        decreases todo
      {
        var s :| s in todo;
        todo := todo - {s};
        var devs := ExpireDevs(csetmap[s].plugindevs, times(s) - 2 * podListerInterval);
        var apqns := PollApqns(csetmap[s].apqns, read);
        csetmap := csetmap[s := CsetEntry(devs, apqns)];
      }
    }

    /**
     The data for the exporter. Set records and the node's device numbers are exact. The node's own
     request counter adds up running prefixes, in the order the APQNs happen to be visited.
     */
    method PrepPromExpData(nodeName: string) returns (data: NodeData, ghost visits: seq<seq<int>>)
      ensures data.nodeName == nodeName
      ensures Reports(csetmap, data.csets)
      ensures data.total == SumOf(data.csets, Total)
      ensures data.used == SumOf(data.csets, Used)
      ensures VisitsAgree(csetmap, data.csets, visits) && data.requests == PrefixTotals(visits)
    {
      data, visits := CountAll(csetmap, nodeName);
    }
  }

  method CountAll(t: CsetTable, nodeName: string) returns (data: NodeData, ghost visits: seq<seq<int>>)
    ensures data.nodeName == nodeName
    ensures Summed(t, data.csets, visits, data.total, data.used, data.requests)
  {
    var csets: seq<CsetCounts> := [];
    var total, used, requests := 0, 0, 0;
    visits := [];
    var todo := t.Keys;
    while todo != {}
      invariant todo <= t.Keys
      invariant Summed(t - todo, csets, visits, total, used, requests)
      decreases todo
    {
      var s :| s in todo;
      var c, prefixes, deltas := CountCset(s, t[s]);
      DoneOneMore(t, todo, s);
      SummedStep(t - todo, csets, visits, total, used, requests, s, t[s], deltas, prefixes);
      todo := todo - {s};
      total, used, requests := total + c.total, used + c.used, requests + prefixes;
      csets, visits := csets + [c], visits + [deltas];
    }
    assert t - {} == t;
    data := NodeData(nodeName, total, used, requests, csets);
  }

  /** The part of a map that a walk has done, one key later. */
  lemma DoneOneMore<K, V>(m: map<K, V>, todo: set<K>, k: K)
    requires k in todo && k in m
    ensures m - (todo - {k}) == (m - todo)[k := m[k]] && k !in m - todo
  {
  }

  /** The records and numbers for the sets of a table. */
  ghost predicate Summed(t: CsetTable, csets: seq<CsetCounts>, visits: seq<seq<int>>, total: int, used: int,
                         requests: int) {
    && Reports(t, csets) && VisitsAgree(t, csets, visits)
    && total == SumOf(csets, Total) && used == SumOf(csets, Used) && requests == PrefixTotals(visits)
  }

  lemma SummedStep(t: CsetTable, csets: seq<CsetCounts>, visits: seq<seq<int>>, total: int, used: int, requests: int,
                   s: string, e: CsetEntry, deltas: seq<int>, prefixes: int)
    requires Summed(t, csets, visits, total, used, requests) && s !in t
    requires |deltas| == |e.apqns| && SumSeq(deltas) == CountsOf(s, e).requests && Visits(Deltas(e.apqns), deltas)
    requires prefixes == PrefixTotal(deltas)
    ensures var c := CountsOf(s, e);
            Summed(t[s := e], csets + [c], visits + [deltas], total + c.total, used + c.used, requests + prefixes)
  {
    ReportsStep(t, csets, s, e);
    VisitsStep(t, csets, visits, s, e, deltas);
    PrefixTotalsAppend(visits, deltas);
    SumOfAppend(csets, CountsOf(s, e), Total);
    SumOfAppend(csets, CountsOf(s, e), Used);
  }

  /** A poll's effect leaves every set's lists as they were. */
  lemma PollKeepsKeys(t: CsetTable, t': CsetTable, times: string -> int, podListerInterval: nat, read: Counters)
    requires t'.Keys == t.Keys
    requires forall s :: s in t ==>
               && t'[s].plugindevs == ExpiredAll(t[s].plugindevs, times(s) - 2 * podListerInterval)
               && t'[s].apqns == PolledAll(t[s].apqns, read)
    ensures KeysKept(t, t')
  {
  }

  // ----- the loops over one set's entries -----

  method DropUnlisted(was: map<nat, ApqnCount>, l: seq<Apqn>) returns (kept: map<nat, ApqnCount>)
    ensures kept == map k | k in was && Listed(l, k) :: was[k]
  {
    var todo := was.Keys;
    kept := was;
    while todo != {}
      invariant todo <= was.Keys
      invariant kept == map k | k in was && (k in todo || Listed(l, k)) :: was[k]
      decreases todo
    {
      var k :| k in todo;
      todo := todo - {k};
      var ap, dom := k / 256, k % 256;
      var found := false;
      for i := 0 to |l|
        invariant !found
        invariant forall j :: 0 <= j < i ==> !(l[j].adapter == ap && l[j].domain == dom)
      {
        if ap == l[i].adapter && dom == l[i].domain {
          found := true;
          break;
        }
      }
      if !found {
        kept := kept - {k};
      }
    }
  }

  method AddListed(kept: map<nat, ApqnCount>, l: seq<Apqn>, read: Counters) returns (apqns: map<nat, ApqnCount>)
    ensures apqns.Keys == kept.Keys + Keys(l)
    ensures forall k :: k in apqns ==> apqns[k] == if k in kept then kept[k] else ApqnCount(Reading(read, k), 0)
  {
    apqns := kept;
    for i := 0 to |l|
      invariant apqns.Keys == kept.Keys + Keys(l[..i])
      invariant forall k :: k in apqns ==> apqns[k] == if k in kept then kept[k] else ApqnCount(Reading(read, k), 0)
    {
      assert l[..i + 1] == l[..i] + [l[i]];
      var k := Key(l[i]);
      if k !in apqns {
        apqns := apqns[k := ApqnCount(Reading(read, k), 0)];
      }
    }
    assert l[..|l|] == l;
  }

  lemma SyncMeets(was: map<nat, ApqnCount>, kept: map<nat, ApqnCount>, apqns: map<nat, ApqnCount>,
                  l: seq<Apqn>, read: Counters)
    requires kept == map k | k in was && Listed(l, k) :: was[k]
    requires apqns.Keys == kept.Keys + Keys(l)
    requires forall k :: k in apqns ==> apqns[k] == if k in kept then kept[k] else ApqnCount(Reading(read, k), 0)
    ensures apqns == SyncedApqns(was, l, read)
  {
    forall k | k in kept
      ensures k in Keys(l)
    {
      var a :| a in l && a.adapter == k / 256 && a.domain == k % 256;
      assert Key(a) == k;
    }
    assert apqns.Keys == SyncedApqns(was, l, read).Keys;
  }

  method DropUnlistedDevs(was: map<string, PluginDev>, ids: seq<string>) returns (kept: map<string, PluginDev>)
    ensures kept == map d | d in was && d in ids :: was[d]
  {
    var todo := was.Keys;
    kept := was;
    while todo != {}
      invariant todo <= was.Keys
      invariant kept == map d | d in was && (d in todo || d in ids) :: was[d]
      decreases todo
    {
      var d :| d in todo;
      todo := todo - {d};
      if d !in ids {
        kept := kept - {d};
      }
    }
  }

  method AddListedDevs(kept: map<string, PluginDev>, ids: seq<string>) returns (devs: map<string, PluginDev>)
    ensures forall d :: d in devs <==> d in kept || d in ids
    ensures forall d :: d in devs ==> devs[d] == if d in kept then kept[d] else PluginDev(false, None)
  {
    devs := kept;
    for i := 0 to |ids|
      invariant forall d :: d in devs <==> d in kept || d in ids[..i]
      invariant forall d :: d in devs ==> devs[d] == if d in kept then kept[d] else PluginDev(false, None)
    {
      assert ids[..i + 1] == ids[..i] + [ids[i]];
      if ids[i] !in devs {
        devs := devs[ids[i] := PluginDev(false, None)];
      }
    }
    assert ids[..|ids|] == ids;
  }

  method ExpireDevs(m: map<string, PluginDev>, deadline: int) returns (r: map<string, PluginDev>)
    ensures r == ExpiredAll(m, deadline)
  {
    r := m;
    var todo := m.Keys;
    while todo != {}
      invariant todo <= m.Keys == r.Keys
      invariant forall d :: d in m ==> r[d] == if d in todo then m[d] else Expired(m[d], deadline)
      decreases todo
    {
      var d :| d in todo;
      todo := todo - {d};
      if r[d].inUse && Before(r[d].seen, deadline) {
        r := r[d := r[d].(inUse := false)];
      }
    }
  }

  method PollApqns(m: map<nat, ApqnCount>, read: Counters) returns (r: map<nat, ApqnCount>)
    ensures r == PolledAll(m, read)
  {
    r := m;
    var todo := m.Keys;
    while todo != {}
      invariant todo <= m.Keys == r.Keys
      invariant forall k :: k in m ==> r[k] == if k in todo then m[k] else Polled(m[k], Reading(read, k))
      decreases todo
    {
      var k :| k in todo;
      todo := todo - {k};
      var ae := r[k].(current := read(k / 256, k % 256).GetOr(0));
      if ae.start == 0 {
        ae := ae.(start := ae.current);
      }
      r := r[k := ae];
    }
  }

  method CountUsed(m: map<string, PluginDev>) returns (used: nat)
    ensures used == |UsedDevs(m)|
  {
    used := 0;
    var todo := m.Keys;
    while todo != {}
      invariant todo <= m.Keys
      invariant used == |UsedDevs(m) - todo|
      decreases todo
    {
      var d :| d in todo;
      if m[d].inUse {
        used := used + 1;
        assert UsedDevs(m) - (todo - {d}) == (UsedDevs(m) - todo) + {d};
      } else {
        assert UsedDevs(m) - (todo - {d}) == UsedDevs(m) - todo;
      }
      todo := todo - {d};
    }
    assert UsedDevs(m) - todo == UsedDevs(m);
  }

  /** The requests of one set's APQNs, and the sum of the running totals on the way. */
  method CountRequests(m: map<nat, ApqnCount>) returns (requests: int, prefixes: int, ghost deltas: seq<int>)
    ensures requests == SumMap(Deltas(m)) == SumSeq(deltas)
    ensures |deltas| == |m| && prefixes == PrefixTotal(deltas) && Visits(Deltas(m), deltas)
  {
    requests, prefixes, deltas := 0, 0, [];
    var todo := m.Keys;
    ghost var order: seq<nat>, done: map<nat, ApqnCount> := [], map[];
    while todo != {}
      invariant todo <= m.Keys && done == map k | k in m && k !in todo :: m[k]
      invariant Along(Deltas(done), order, deltas)
      invariant |deltas| + |todo| == |m|
      invariant requests == SumSeq(deltas) && prefixes == PrefixTotal(deltas)
      decreases todo
    {
      var k :| k in todo;
      var delta := m[k].current - m[k].start;
      DeltasOneMore(done, order, deltas, k, m[k]);
      SumSeqAppend(deltas, delta);
      PrefixTotalAppend(deltas, delta);
      done := done[k := m[k]];
      todo, order, deltas := todo - {k}, order + [k], deltas + [delta];
      requests := requests + delta;
      prefixes := prefixes + requests;
    }
    assert done == m;
    SumAlong(Deltas(m), order, deltas);
  }

  lemma DeltasOneMore(m: map<nat, ApqnCount>, order: seq<nat>, values: seq<int>, k: nat, c: ApqnCount)
    requires Along(Deltas(m), order, values) && k !in m
    ensures Along(Deltas(m[k := c]), order + [k], values + [c.current - c.start])
  {
    AlongOneMore(Deltas(m), order, values, k, c.current - c.start);
    assert Deltas(m[k := c]) == Deltas(m)[k := c.current - c.start];
  }

  lemma SumAlong(m: map<nat, int>, order: seq<nat>, values: seq<int>)
    requires Along(m, order, values)
    ensures SumMap(m) == SumSeq(values)
  {
    SumMapAlong(m, order);
    assert values == seq(|order|, i requires 0 <= i < |order| => m[order[i]]);
  }

  lemma AlongOneMore(m: map<nat, int>, order: seq<nat>, values: seq<int>, k: nat, v: int)
    requires Along(m, order, values) && k !in m
    ensures Along(m[k := v], order + [k], values + [v])
  {
    forall j | j in order + [k]
      ensures j in m[k := v]
    {
      assert j in order || j == k;
    }
    forall j | j in m[k := v]
      ensures j in order + [k]
    {
      if j == k {
        assert (order + [k])[|order|] == k;
      } else {
        assert j in order;
      }
    }
  }

  /** The record of one set; prefixes is what the set adds to the node's own request counter. */
  method CountCset(setName: string, e: CsetEntry) returns (c: CsetCounts, prefixes: int, ghost deltas: seq<int>)
    ensures c == CountsOf(setName, e)
    ensures SumSeq(deltas) == c.requests && |deltas| == |e.apqns| && prefixes == PrefixTotal(deltas)
    ensures Visits(Deltas(e.apqns), deltas)
  {
    var used := CountUsed(e.plugindevs);
    var requests;
    requests, prefixes, deltas := CountRequests(e.apqns);
    c := CsetCounts(setName, |e.plugindevs|, used, requests);
  }

  lemma PrefixTotalAppend(s: seq<int>, v: int)
    ensures PrefixTotal(s + [v]) == PrefixTotal(s) + SumSeq(s) + v
  {
    assert (s + [v])[..|s|] == s;
    SumSeqAppend(s, v);
  }

  lemma PrefixTotalsAppend(ss: seq<seq<int>>, s: seq<int>)
    ensures PrefixTotals(ss + [s]) == PrefixTotals(ss) + PrefixTotal(s)
  {
    assert (ss + [s])[..|ss|] == ss;
  }

  lemma VisitsStep(t: CsetTable, csets: seq<CsetCounts>, visits: seq<seq<int>>,
                   s: string, e: CsetEntry, deltas: seq<int>)
    requires VisitsAgree(t, csets, visits) && s !in t
    requires |deltas| == |e.apqns| && SumSeq(deltas) == CountsOf(s, e).requests && Visits(Deltas(e.apqns), deltas)
    ensures VisitsAgree(t[s := e], csets + [CountsOf(s, e)], visits + [deltas])
  {
    forall i | 0 <= i < |visits|
      ensures VisitAgrees(t[s := e], csets[i], visits[i])
    {
      assert VisitAgrees(t, csets[i], visits[i]);
    }
    assert VisitAgrees(t[s := e], CountsOf(s, e), deltas);
  }

  lemma ReportsStep(t: CsetTable, csets: seq<CsetCounts>, s: string, e: CsetEntry)
    requires Reports(t, csets) && s !in t
    ensures Reports(t[s := e], csets + [CountsOf(s, e)])
  {
    var t', csets' := t[s := e], csets + [CountsOf(s, e)];
    forall s' | s' in t'
      ensures exists i :: 0 <= i < |csets'| && csets'[i].setName == s'
    {
      if s' == s {
        assert csets'[|csets|].setName == s;
      } else {
        var i :| 0 <= i < |csets| && csets[i].setName == s';
        assert csets'[i].setName == s';
      }
    }
    forall c | c in csets'
      ensures c.setName in t' && c == CountsOf(c.setName, t'[c.setName])
    {
      if c in csets {
        assert c.setName in t;
      }
    }
  }
}
