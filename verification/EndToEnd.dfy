/**
 The numbers the exporter shows for the whole cluster, traced back to the APQNs of every node and
 the configuration of every set.
 */
module EndToEnd {
  import opened Wrappers
  import opened Apqns
  import opened CryptoConfig
  import opened Partition
  import opened ConfigWatcher
  import opened Plugin
  import opened Sums
  import opened Counts
  import opened Metrics
  import opened Grouping

  function OnlineCount(l: seq<Apqn>): nat {
    if l == [] then 0 else OnlineCount(l[..|l| - 1]) + if l[|l| - 1].online then 1 else 0
  }

  function HealthyCount(devices: seq<Device>): nat {
    if devices == [] then 0
    else HealthyCount(devices[..|devices| - 1]) + if devices[|devices| - 1].healthy then 1 else 0
  }

  lemma {:induction false} HealthyIdSetSize(devices: seq<Device>)
    requires DistinctIds(devices)
    ensures |HealthyIdSet(devices)| == HealthyCount(devices)
  {
    if devices == [] {
      assert HealthyIdSet(devices) == {};
    } else {
      var init, d := devices[..|devices| - 1], devices[|devices| - 1];
      HealthyIdSetSize(init);
      assert devices == init + [d];
      if d.healthy {
        assert d.id !in HealthyIdSet(init);
        assert HealthyIdSet(devices) == HealthyIdSet(init) + {d.id};
      } else {
        assert HealthyIdSet(devices) == HealthyIdSet(init);
      }
    }
  }

  lemma {:induction false} HealthyCountOfConcat(d1: seq<Device>, d2: seq<Device>)
    ensures HealthyCount(d1 + d2) == HealthyCount(d1) + HealthyCount(d2)
  {
    if d2 == [] {
      assert d1 + d2 == d1;
    } else {
      HealthyCountOfConcat(d1, d2[..|d2| - 1]);
      assert (d1 + d2)[..|d1 + d2| - 1] == d1 + d2[..|d2| - 1];
    }
  }

  lemma {:induction false} HealthyCountOfBlock(a: Apqn, n: nat)
    ensures HealthyCount(Block(a, n)) == if a.online then n else 0
  {
    if n == 0 {
    } else {
      HealthyCountOfBlock(a, n - 1);
      assert Block(a, n)[..n - 1] == Block(a, n - 1);
    }
  }

  lemma HealthyCountOfLast(l: seq<Apqn>, n: nat)
    requires l != []
    ensures HealthyCount(DevicesFor(l, n)) ==
            HealthyCount(DevicesFor(l[..|l| - 1], n)) + if l[|l| - 1].online then n else 0
  {
    HealthyCountOfBlock(l[|l| - 1], n);
    HealthyCountOfConcat(DevicesFor(l[..|l| - 1], n), Block(l[|l| - 1], n));
  }

  lemma {:induction false} HealthyCountOfDevices(l: seq<Apqn>, n: nat)
    ensures HealthyCount(DevicesFor(l, n)) == OnlineCount(l) * n
  {
    if l == [] {
    } else {
      var before, last := OnlineCount(l[..|l| - 1]), if l[|l| - 1].online then 1 else 0;
      HealthyCountOfDevices(l[..|l| - 1], n);
      HealthyCountOfLast(l, n);
      AddProduct(before, last, n, HealthyCount(DevicesFor(l[..|l| - 1], n)), HealthyCount(DevicesFor(l, n)),
                 OnlineCount(l));
    }
  }

  lemma AddProduct(before: nat, last: nat, n: nat, healthyBefore: nat, healthy: nat, online: nat)
    requires last <= 1 && online == before + last
    requires healthyBefore == before * n && healthy == healthyBefore + if last == 1 then n else 0
    ensures healthy == online * n
  {
  }

  /** The number of devices a set of an accepted configuration should count: online eligible APQNs times the limit. */
  function Expected(s: SetDef, env: Defaults, machineId: string, scan: seq<Apqn>): nat {
    OnlineCount(Eligible(s, machineId, scan)) * Copied(s, env)
  }

  /** The scanned APQNs that are assigned to the set and online. */
  ghost function OnlineOf(s: SetDef, machineId: string, scan: seq<Apqn>): set<Apqn> {
    set a | a in scan && Assigned(s, machineId, a) && a.online
  }

  lemma {:induction false} OnlineCountIsSize(l: seq<Apqn>)
    requires DistinctQueues(l)
    ensures OnlineCount(l) == |set a | a in l && a.online|
  {
    if l == [] {
      assert (set a | a in l && a.online) == {};
    } else {
      OnlineCountIsSize(l[..|l| - 1]);
      OneMoreOnline(l, l[..|l| - 1], l[|l| - 1]);
    }
  }

  lemma OneMoreOnline(l: seq<Apqn>, init: seq<Apqn>, last: Apqn)
    requires l == init + [last] && last !in init
    ensures |set a | a in l && a.online| == |set a | a in init && a.online| + if last.online then 1 else 0
  {
    var online := set a | a in init && a.online;
    assert (set a | a in l && a.online) == if last.online then online + {last} else online;
  }

  /** The expected number, in terms of the scan and the file. */
  lemma ExpectedMeans(s: SetDef, env: Defaults, machineId: string, scan: seq<Apqn>)
    requires PairwiseCompatible(s) && DistinctQueues(scan)
    ensures var limit := if s.overcommit.Some? then s.overcommit.value else env.overcommit;
            Expected(s, env, machineId, scan) ==
            |OnlineOf(s, machineId, scan)| * (if limit >= 1 then limit else 1)
  {
    var l := Eligible(s, machineId, scan);
    EligibleExactly(s, machineId, scan);
    OnlineCountIsSize(l);
    assert (set a | a in l && a.online) == OnlineOf(s, machineId, scan);
  }

  /** A set whose devices are those made from scratch, in any order, counts the expected number of healthy ones. */
  lemma SetCountsExpected(s: SetDef, env: Defaults, machineId: string, scan: seq<Apqn>, devices: seq<Device>)
    requires PairwiseCompatible(s) && DistinctQueues(scan)
    requires IsPermutation(devices, Recomputed(Some(s), env, machineId, scan))
    ensures |HealthyIdSet(devices)| == Expected(s, env, machineId, scan)
    ensures var limit := if s.overcommit.Some? then s.overcommit.value else env.overcommit;
            |HealthyIdSet(devices)| == |OnlineOf(s, machineId, scan)| * (if limit >= 1 then limit else 1)
  {
    ExpectedMeans(s, env, machineId, scan);
    var l, n := Eligible(s, machineId, scan), Copied(s, env);
    var scratch := DevicesFor(l, n);
    EligibleExactly(s, machineId, scan);
    DevicesHaveDistinctIds(l, n);
    HealthyIdSetSize(scratch);
    HealthyCountOfDevices(l, n);
    SameElements(devices, scratch);
  }

  lemma SameElements(d1: seq<Device>, d2: seq<Device>)
    requires IsPermutation(d1, d2)
    ensures HealthyIdSet(d1) == HealthyIdSet(d2)
  {
    SameDevices(d1, d2);
  }

  /** A node: its machine, environment, configuration and scan, and its metrics table. */
  datatype NodeView = NodeView(machineId: string, env: Defaults, defs: seq<SetDef>, scan: seq<Apqn>, table: CsetTable)

  /** The set's device entries are the healthy ones of devices made from scratch, in any order. */
  ghost predicate SetInStep(n: NodeView, s: SetDef) {
    && s.setName in n.table
    && exists devices ::
         && IsPermutation(devices, Recomputed(Some(s), n.env, n.machineId, n.scan))
         && n.table[s.setName].plugindevs.Keys == HealthyIdSet(devices)
  }

  /** Every set of the node is in step, and sets that are no longer configured have no devices left. */
  ghost predicate InStep(n: NodeView, isQualifiedName: string -> bool) {
    && Verified(n.defs, isQualifiedName) && DistinctQueues(n.scan)
    && (forall s :: s in n.defs ==> SetInStep(n, s))
    && (forall name :: name in n.table && Lookup(n.defs, name).None? ==> n.table[name].plugindevs == map[])
  }

  /** What a plug-in has after its last refresh, and how it came to it. */
  datatype PluginState = PluginState(apqns: seq<Apqn>, devices: seq<Device>, reported: bool, startOvercommit: int)

  /** What the refresh loop ensures for a plug-in after a tick with the node's scan, where the limit was used. */
  ghost predicate Settled(n: NodeView, tag: Option<Tag>, name: string, p: PluginState) {
    var r := Role(name, n.machineId, n.env);
    && Exact(r, n.scan, tag, p.devices, p.reported, p.startOvercommit)
    && LimitUsed(r, n.scan, tag, p.reported, p.startOvercommit)
    && Lists(n.table, name, p.apqns, p.devices)
  }

  /** The plug-in of a configured set keeps its set in step. */
  lemma SettledIsInStep(n: NodeView, tag: Option<Tag>, s: SetDef, p: PluginState)
    requires CurrentDef(s.setName, tag) == Some(s) && Settled(n, tag, s.setName, p)
    ensures SetInStep(n, s)
  {
    assert IsPermutation(p.devices, Recomputed(Some(s), n.env, n.machineId, n.scan));
  }

  /** The plug-in of a set that was removed from the configuration has no devices left. */
  lemma SettledIsEmpty(n: NodeView, tag: Option<Tag>, name: string, p: PluginState)
    requires CurrentDef(name, tag).None? && Settled(n, tag, name, p)
    ensures n.table[name].plugindevs == map[]
  {
    assert IsPermutation(p.devices, []);
    assert |p.devices| == 0;
    assert HealthyIdSet(p.devices) == {};
  }

  /**
     A node is in step when each configured set has a plug-in that was refreshed with the node's configuration and scan
     and used its limit, and each other entry of the metrics table belongs to a plug-in that was so
     refreshed or to one that was stopped.
   */
  lemma RefreshedNodeIsInStep(n: NodeView, isQualifiedName: string -> bool, tag: Tag, plugins: map<string, PluginState>)
    requires tag.file.parsed == Some(n.defs) && Verified(n.defs, isQualifiedName) && DistinctQueues(n.scan)
    requires forall s :: s in n.defs ==> s.setName in plugins
    requires forall name :: name in plugins ==> Settled(n, Some(tag), name, plugins[name])
    requires forall name :: name in n.table && name !in plugins ==> Lists(n.table, name, [], [])
    ensures InStep(n, isQualifiedName)
  {
    forall s | s in n.defs
      ensures SetInStep(n, s)
    {
      var i :| 0 <= i < |n.defs| && n.defs[i] == s;
      LookupFinds(n.defs, i, isQualifiedName);
      SettledIsInStep(n, Some(tag), s, plugins[s.setName]);
    }
    forall name | name in n.table && Lookup(n.defs, name).None?
      ensures n.table[name].plugindevs == map[]
    {
      if name in plugins {
        SettledIsEmpty(n, Some(tag), name, plugins[name]);
      } else {
        assert HealthyIdSet([]) == {};
        assert n.table[name].plugindevs.Keys == {};
      }
    }
  }

  ghost function SetNamesOf(defs: seq<SetDef>): set<string> {
    set s | s in defs :: s.setName
  }

  /** The expected number of devices of each configured set of a node. */
  ghost function ExpectedOf(n: NodeView): map<string, int> {
    map name | name in SetNamesOf(n.defs) :: ExpectedFor(n, name)
  }

  function ExpectedFor(n: NodeView, name: string): int {
    match Lookup(n.defs, name)
    case None => 0
    case Some(s) => Expected(s, n.env, n.machineId, n.scan)
  }

  /** The requests of each set in a node's metrics table: for each of its APQNs, current minus start. */
  ghost function RequestsOf(n: NodeView): map<string, int> {
    map name | name in n.table :: SumMap(Deltas(n.table[name].apqns))
  }

  lemma {:induction false} SumOfAsSumSeq(cs: seq<CsetCounts>, k: Counter)
    ensures SumOf(cs, k) == SumSeq(seq(|cs|, i requires 0 <= i < |cs| => Get(cs[i], k)))
  {
    var values := seq(|cs|, i requires 0 <= i < |cs| => Get(cs[i], k));
    if cs == [] {
    } else {
      var init := cs[..|cs| - 1];
      SumOfAsSumSeq(init, k);
      assert values[..|values| - 1] == seq(|init|, i requires 0 <= i < |init| => Get(init[i], k));
    }
  }

  /** One number of every set of a table. */
  ghost function NumbersOf(t: CsetTable, k: Counter): map<string, int> {
    map s | s in t :: Get(CountsOf(s, t[s]), k)
  }

  function SetNames(csets: seq<CsetCounts>): seq<string> {
    seq(|csets|, i requires 0 <= i < |csets| => csets[i].setName)
  }

  lemma ReportEnumerates(t: CsetTable, csets: seq<CsetCounts>)
    requires Reports(t, csets)
    ensures forall s :: s in SetNames(csets) <==> s in t
    ensures forall i, j :: 0 <= i < j < |csets| ==> SetNames(csets)[i] != SetNames(csets)[j]
  {
    var order := SetNames(csets);
    forall s | s in t
      ensures s in order
    {
      var i :| 0 <= i < |csets| && csets[i].setName == s;
      assert order[i] == s;
    }
    forall s | s in order
      ensures s in t
    {
      var i :| 0 <= i < |order| && order[i] == s;
      assert csets[i] in csets;
    }
  }

  lemma RecordNumber(t: CsetTable, csets: seq<CsetCounts>, i: nat, k: Counter)
    requires Reports(t, csets) && i < |csets|
    ensures csets[i].setName in NumbersOf(t, k).Keys && NumbersOf(t, k)[csets[i].setName] == Get(csets[i], k)
  {
    assert csets[i] in csets;
  }

  lemma SumAlongNames(m: map<string, int>, csets: seq<CsetCounts>, k: Counter)
    requires forall s :: s in SetNames(csets) <==> s in m
    requires forall i, j :: 0 <= i < j < |csets| ==> SetNames(csets)[i] != SetNames(csets)[j]
    requires forall i :: 0 <= i < |csets| ==> csets[i].setName in m.Keys && m[csets[i].setName] == Get(csets[i], k)
    ensures SumOf(csets, k) == SumMap(m)
  {
    var order := SetNames(csets);
    SumMapAlong(m, order);
    SumOfAsSumSeq(csets, k);
    assert seq(|order|, i requires 0 <= i < |order| => m[order[i]]) ==
      seq(|csets|, i requires 0 <= i < |csets| => Get(csets[i], k));
  }

  /** What a node sends adds up to the numbers of its table's sets. */
  lemma ReportAddsUp(t: CsetTable, csets: seq<CsetCounts>, k: Counter)
    requires Reports(t, csets)
    ensures SumOf(csets, k) == SumMap(NumbersOf(t, k))
  {
    ReportEnumerates(t, csets);
    forall i | 0 <= i < |csets|
      ensures csets[i].setName in NumbersOf(t, k).Keys && NumbersOf(t, k)[csets[i].setName] == Get(csets[i], k)
    {
      RecordNumber(t, csets, i, k);
    }
    SumAlongNames(NumbersOf(t, k), csets, k);
  }

  lemma TotalsAreExpected(n: NodeView)
    requires forall name :: name in n.table ==> |n.table[name].plugindevs| == ExpectedFor(n, name)
    requires forall s :: s in n.defs ==> s.setName in n.table
    ensures SumMap(NumbersOf(n.table, Total)) == SumMap(ExpectedOf(n))
  {
    var numbers, expected := NumbersOf(n.table, Total), ExpectedOf(n);
    forall name | name in n.table
      ensures numbers[name] == if name in expected.Keys then expected[name] else 0
    {
      TotalNumber(n.table, name);
      NamedWhenFound(n.defs, name);
    }
    SumMapExtend(expected, numbers);
  }

  lemma NamedWhenFound(defs: seq<SetDef>, name: string)
    ensures name in SetNamesOf(defs) <==> Lookup(defs, name).Some?
  {
    if Lookup(defs, name).Some? {
      assert Lookup(defs, name).value in defs;
    }
  }

  lemma TotalNumber(t: CsetTable, name: string)
    requires name in t
    ensures NumbersOf(t, Total)[name] == |t[name].plugindevs|
  {
  }

  lemma RequestNumbers(n: NodeView)
    ensures NumbersOf(n.table, Requests) == RequestsOf(n)
  {
    forall name | name in n.table
      ensures NumbersOf(n.table, Requests)[name] == RequestsOf(n)[name]
    {
      assert Get(CountsOf(name, n.table[name]), Requests) == SumMap(Deltas(n.table[name].apqns));
    }
    assert NumbersOf(n.table, Requests).Keys == n.table.Keys == RequestsOf(n).Keys;
  }

  lemma NodeTotals(n: NodeView, isQualifiedName: string -> bool, csets: seq<CsetCounts>)
    requires InStep(n, isQualifiedName) && Reports(n.table, csets)
    ensures SumOf(csets, Total) == SumMap(ExpectedOf(n))
    ensures SumOf(csets, Requests) == SumMap(RequestsOf(n))
  {
    ReportAddsUp(n.table, csets, Total);
    ReportAddsUp(n.table, csets, Requests);
    forall name | name in n.table
      ensures |n.table[name].plugindevs| == ExpectedFor(n, name)
    {
      SetTotal(n, isQualifiedName, name);
    }
    TotalsAreExpected(n);
    RequestNumbers(n);
  }

  lemma SetTotal(n: NodeView, isQualifiedName: string -> bool, name: string)
    requires InStep(n, isQualifiedName) && name in n.table
    ensures |n.table[name].plugindevs| == ExpectedFor(n, name)
  {
    match Lookup(n.defs, name)
    case None =>
      assert |n.table[name].plugindevs| == 0;
    case Some(s) =>
      var i :| 0 <= i < |n.defs| && n.defs[i] == s;
      VerifiedIsPairwiseCompatible(n.defs, isQualifiedName, i);
      assert SetInStep(n, s);
      var devices :| IsPermutation(devices, Recomputed(Some(s), n.env, n.machineId, n.scan))
                     && n.table[name].plugindevs.Keys == HealthyIdSet(devices);
      SetCountsExpected(s, n.env, n.machineId, n.scan, devices);
      assert |n.table[name].plugindevs| == |n.table[name].plugindevs.Keys|;
  }

  type ClusterView = map<string, NodeView>

  /** The expected number of devices of each node: over its sets, online eligible APQNs times the set's limit. */
  ghost function ExpectedByNode(cluster: ClusterView): map<string, int> {
    map ip | ip in cluster :: SumMap(ExpectedOf(cluster[ip]))
  }

  /** The requests of each node: over its sets and their APQNs, current minus start. */
  ghost function RequestsByNode(cluster: ClusterView): map<string, int> {
    map ip | ip in cluster :: SumMap(RequestsOf(cluster[ip]))
  }

  /** Every node is in step, and its latest report is in the exporter's table. */
  ghost predicate Reported(cluster: ClusterView, isQualifiedName: string -> bool, reports: NodeValues) {
    && reports.Keys == cluster.Keys
    && forall ip :: ip in cluster ==> InStep(cluster[ip], isQualifiedName) && Reports(cluster[ip].table, reports[ip])
  }

  lemma NodeAddsUp(cluster: ClusterView, isQualifiedName: string -> bool, reports: NodeValues, ip: string)
    requires Reported(cluster, isQualifiedName, reports) && ip in reports
    ensures SumOf(reports[ip], Total) == ExpectedByNode(cluster)[ip]
    ensures SumOf(reports[ip], Requests) == RequestsByNode(cluster)[ip]
  {
    NodeTotals(cluster[ip], isQualifiedName, reports[ip]);
  }

  lemma FlatSumIs(t: NodeValues, k: Counter, m: map<string, int>)
    requires m.Keys == t.Keys && forall ip :: ip in t ==> m[ip] == SumOf(t[ip], k)
    ensures FlatSum(t, k) == SumMap(m)
  {
    assert m == map ip | ip in t :: SumOf(t[ip], k);
  }

  lemma NodesAddUp(cluster: ClusterView, isQualifiedName: string -> bool, reports: NodeValues)
    requires Reported(cluster, isQualifiedName, reports)
    ensures ExpectedByNode(cluster).Keys == reports.Keys == RequestsByNode(cluster).Keys
    ensures forall ip :: ip in reports ==> ExpectedByNode(cluster)[ip] == SumOf(reports[ip], Total)
    ensures forall ip :: ip in reports ==> RequestsByNode(cluster)[ip] == SumOf(reports[ip], Requests)
  {
    assert reports.Keys == cluster.Keys;
    forall ip | ip in reports
      ensures SumOf(reports[ip], Total) == ExpectedByNode(cluster)[ip]
      ensures SumOf(reports[ip], Requests) == RequestsByNode(cluster)[ip]
    {
      NodeAddsUp(cluster, isQualifiedName, reports, ip);
    }
  }

  /**
     When every node's plug-ins are in step and every node's latest report is in the exporter's table, the
     cluster's total of devices is the sum, over all nodes and sets, of the online eligible APQNs times
     the set's limit, and its request counter is the sum over all APQNs of current minus start.
     The nodes' own request counters play no part.
   */
  lemma ClusterNumbersAreExact(cluster: ClusterView, isQualifiedName: string -> bool, reports: NodeValues,
                               groups: seq<CsetCounts>)
    requires Reported(cluster, isQualifiedName, reports) && Aggregates(groups, reports)
    ensures SumOf(groups, Total) == SumMap(ExpectedByNode(cluster))
    ensures SumOf(groups, Requests) == SumMap(RequestsByNode(cluster))
  {
    NodesAddUp(cluster, isQualifiedName, reports);
    FlatSumIs(reports, Total, ExpectedByNode(cluster));
    FlatSumIs(reports, Requests, RequestsByNode(cluster));
  }
}
