/**
 The exporter's data: the latest report of every node, kept as objects, and the cluster's records
 built from them into fresh objects.
 */
module Disposer {
  import opened Wrappers
  import opened Clocks
  import opened Counts
  import opened Grouping

  /** One set's counters, updated in place while they are added up. */
  class CsetData {
    var setName: string
    var total: int
    var used: int
    var requests: int

    constructor (setName: string)
      ensures Value() == Fresh(setName)
    {
      this.setName := setName;
      total, used, requests := 0, 0, 0;
    }

    ghost function Value(): CsetCounts
      reads this
    {
      CsetCounts(setName, total, used, requests)
    }
  }

  /** A node's report and the time it was received, in nanoseconds. */
  datatype Report = Report(timestamp: int, csets: seq<CsetData>)

  datatype Cluster = Cluster(total: int, used: int, requests: int, csets: seq<CsetData>)

  const LIFETIME := 60_000_000_000

  type NodeTable = map<string, Report>

  ghost function Values(csets: seq<CsetData>): seq<CsetCounts>
    reads csets
  {
    seq(|csets|, i requires 0 <= i < |csets| reads csets => csets[i].Value())
  }

  ghost predicate Distinct(csets: seq<CsetData>) {
    forall i, j :: 0 <= i < j < |csets| ==> csets[i] != csets[j]
  }

  class DataDisposer {
    var nodes: NodeTable
    var cluster: Option<Cluster>

    constructor ()
      ensures nodes == map[] && cluster == None
    {
      nodes, cluster := map[], None;
    }

    /** Drops the reports that are older than their lifetime when their turn comes, in any order. */
    method PurgeExpired(clock: Clock)
      modifies this`nodes, clock
      ensures clock.now >= old(clock.now)
      ensures forall ip :: ip in nodes ==> ip in old(nodes) && nodes[ip] == old(nodes)[ip]
      ensures forall ip :: ip in nodes ==> old(clock.now) <= nodes[ip].timestamp + LIFETIME
      ensures forall ip :: ip in old(nodes) && ip !in nodes ==> old(nodes)[ip].timestamp + LIFETIME < clock.now
    {
      var todo := nodes.Keys;
      while todo != {}
        invariant clock.now >= old(clock.now) && todo <= nodes.Keys
        invariant forall ip :: ip in nodes ==> ip in old(nodes) && nodes[ip] == old(nodes)[ip]
        invariant forall ip :: ip in nodes && ip !in todo ==> old(clock.now) <= nodes[ip].timestamp + LIFETIME
        invariant forall ip :: ip in old(nodes) && ip !in nodes ==> old(nodes)[ip].timestamp + LIFETIME < clock.now
        decreases todo
      {
        var ip :| ip in todo;
        todo := todo - {ip};
        var now := clock.Read();
        if nodes[ip].timestamp + LIFETIME < now {
          nodes := nodes - {ip};
        }
      }
    }

    /** Adds all reports up into fresh records, in any order of the nodes. */
    method AddUp(ghost table: NodeValues) returns (cset: seq<CsetData>)
      requires table.Keys == nodes.Keys && forall ip :: ip in nodes ==> table[ip] == Values(nodes[ip].csets)
      ensures Distinct(cset) && forall i :: 0 <= i < |cset| ==> fresh(cset[i])
      ensures Aggregates(Values(cset), table)
    {
      cset := [];
      ghost var order: seq<string>, entries: seq<CsetCounts> := [], [];
      ghost var done: set<string> := {};
      var todo := nodes.Keys;
      while todo != {}
        invariant done + todo == nodes.Keys && done !! todo
        invariant Distinct(cset) && forall i :: 0 <= i < |cset| ==> fresh(cset[i])
        invariant Progress(Values(cset), entries, table, order, done)
        decreases todo
      {
        var ip :| ip in todo;
        assert ip in nodes.Keys;
        assert Values(nodes[ip].csets) == old(Values(nodes[ip].csets)) == table[ip];
        cset := AddNode(cset, ip, entries, table, order, done);
        todo, done, order, entries := todo - {ip}, done + {ip}, order + [ip], entries + table[ip];
      }
      ProgressEnds(Values(cset), entries, table, order);
    }

    /** Adds the report of one node to the records of those before it. */
    method AddNode(was: seq<CsetData>, ip: string, ghost entries: seq<CsetCounts>, ghost table: NodeValues,
                   ghost order: seq<string>, ghost done: set<string>) returns (cset: seq<CsetData>)
      requires ip in nodes && Distinct(was) && NoneOf(nodes[ip].csets, was)
      requires ip in table && table[ip] == Values(nodes[ip].csets) && ip !in done
      requires Progress(Values(was), entries, table, order, done)
      modifies was
      ensures Distinct(cset) && |cset| >= |was| && cset[..|was|] == was
      ensures forall i :: |was| <= i < |cset| ==> fresh(cset[i])
      ensures Progress(Values(cset), entries + table[ip], table, order + [ip], done + {ip})
    {
      ghost var values := Values(was);
      cset := AddReport(was, nodes[ip].csets);
      ProgressOneMore(values, Values(cset), entries, table, order, done, ip);
    }

    /**
     One run of the update: expired reports are dropped, the remaining ones are added up by set, and
     the result replaces the cluster's data. Table is what the remaining reports say, then and now.
     */
    method UpdateClusterMcData(clock: Clock) returns (ghost table: NodeValues)
      modifies this, clock
      ensures clock.now >= old(clock.now)
      ensures forall ip :: ip in nodes ==> ip in old(nodes) && nodes[ip] == old(nodes)[ip]
      ensures forall ip :: ip in nodes ==> old(clock.now) <= nodes[ip].timestamp + LIFETIME
      ensures forall ip :: ip in old(nodes) && ip !in nodes ==> old(nodes)[ip].timestamp + LIFETIME < clock.now
      ensures table.Keys == nodes.Keys
      ensures forall ip :: ip in nodes ==> table[ip] == old(Values(nodes[ip].csets)) == Values(nodes[ip].csets)
      ensures cluster.Some? && Publishes(cluster.value, table)
      ensures forall i :: 0 <= i < |cluster.value.csets| ==> fresh(cluster.value.csets[i])
    {
      PurgeExpired(clock);
      table := BuildCluster();
    }

    /** The cluster's data from the reports there are. */
    method BuildCluster() returns (ghost table: NodeValues)
      modifies this`cluster
      ensures table.Keys == nodes.Keys
      ensures forall ip :: ip in nodes ==> table[ip] == old(Values(nodes[ip].csets))
      ensures cluster.Some? && Publishes(cluster.value, table)
      ensures forall i :: 0 <= i < |cluster.value.csets| ==> fresh(cluster.value.csets[i])
    {
      table := map ip | ip in nodes :: Values(nodes[ip].csets);
      var cset := AddUp(table);
      var total, used, requests := AddTotals(cset);
      AggregateTotals(Values(cset), table);
      cluster := Some(Cluster(total, used, requests, cset));
    }

    /** A node's report replaces the one it sent before, and the cluster's data are updated. */
    method StoreNodeMetricsData(ip: string, report: Report, clock: Clock) returns (ghost table: NodeValues)
      modifies this, clock
      ensures forall i :: i in nodes ==> i in old(nodes)[ip := report] && nodes[i] == old(nodes)[ip := report][i]
      ensures table.Keys == nodes.Keys && forall i :: i in nodes ==> table[i] == Values(nodes[i].csets)
      ensures clock.now <= report.timestamp + LIFETIME ==> ip in nodes && table[ip] == Values(report.csets)
      ensures cluster.Some? && Publishes(cluster.value, table)
    {
      nodes := nodes[ip := report];
      table := UpdateClusterMcData(clock);
    }
  }

  /** The cluster's records are the exact group-by of the table, and its totals are the flat sums. */
  ghost predicate Publishes(c: Cluster, t: NodeValues)
    reads c.csets
  {
    && Aggregates(Values(c.csets), t)
    && c.total == FlatSum(t, Total)
    && c.used == FlatSum(t, Used)
    && c.requests == FlatSum(t, Requests)
  }

  /** The record of a set; the length of the list when there is none. */
  method FindRecord(cset: seq<CsetData>, setName: string) returns (i: nat)
    ensures i == IndexOf(Values(cset), setName)
  {
    i := 0;
    while i < |cset| && cset[i].setName != setName
      invariant i <= |cset| && forall j :: 0 <= j < i ==> cset[j].setName != setName
    {
      i := i + 1;
    }
    ghost var vs := Values(cset);
    assert forall j :: 0 <= j < |vs| ==> vs[j].setName == cset[j].setName;
  }

  /** Adds the numbers of one record to another. */
  method AddInto(s: CsetData, c: CsetData)
    requires s != c && s.setName == c.setName
    modifies s
    ensures s.Value() == Plus(old(s.Value()), c.Value())
  {
    s.total := s.total + c.total;
    s.used := s.used + c.used;
    s.requests := s.requests + c.requests;
  }

  /** Adds one record to the record of its set, which is made when there is none yet. */
  method AddRecord(was: seq<CsetData>, c: CsetData) returns (cset: seq<CsetData>)
    requires Distinct(was) && c !in was
    modifies was
    ensures Distinct(cset) && (cset == was || (|cset| == |was| + 1 && cset[..|was|] == was && fresh(cset[|was|])))
    ensures Values(cset) == Merge(old(Values(was)), c.Value())
  {
    ghost var values := Values(was);
    var i := FindRecord(was, c.setName);
    if i < |was| {
      AddInto(was[i], c);
      cset := was;
      assert Values(cset) == values[i := Plus(values[i], c.Value())];
    } else {
      var s := new CsetData(c.setName);
      AddInto(s, c);
      cset := was + [s];
      assert Values(cset) == values + [Plus(Fresh(c.setName), c.Value())];
    }
  }

  ghost predicate NoneOf(report: seq<CsetData>, cset: seq<CsetData>) {
    forall i, j :: 0 <= i < |report| && 0 <= j < |cset| ==> report[i] != cset[j]
  }

  /** Adds one node's report to the records; its own records stay as they are. */
  method AddReport(was: seq<CsetData>, report: seq<CsetData>) returns (cset: seq<CsetData>)
    requires Distinct(was) && NoneOf(report, was)
    modifies was
    ensures Distinct(cset) && |cset| >= |was| && cset[..|was|] == was
    ensures forall i :: |was| <= i < |cset| ==> fresh(cset[i])
    ensures Values(cset) == MergeAll(old(Values(was)), Values(report))
  {
    cset := was;
    ghost var values, start := Values(report), Values(was);
    for n := 0 to |report|
      invariant Distinct(cset) && NoneOf(report, cset) && |cset| >= |was| && cset[..|was|] == was
      invariant forall i :: |was| <= i < |cset| ==> fresh(cset[i])
      invariant Values(report) == values
      invariant Values(cset) == MergeAll(start, values[..n])
    {
      MergeAllStep(start, values, n);
      cset := AddNext(cset, report, n);
    }
    assert values[..|values|] == values;
  }

  /** Adds record n of a report; the report's records stay as they are. */
  method AddNext(was: seq<CsetData>, report: seq<CsetData>, n: nat) returns (cset: seq<CsetData>)
    requires Distinct(was) && NoneOf(report, was) && n < |report|
    modifies was
    ensures Distinct(cset) && NoneOf(report, cset)
    ensures cset == was || (|cset| == |was| + 1 && cset[..|was|] == was && fresh(cset[|was|]))
    ensures Values(report) == old(Values(report))
    ensures Values(cset) == Merge(old(Values(was)), old(Values(report))[n])
  {
    cset := AddRecord(was, report[n]);
  }

  /** The records are the groups of the entries of the nodes done so far, walked in this order. */
  ghost predicate Progress(values: seq<CsetCounts>, entries: seq<CsetCounts>, t: NodeValues, order: seq<string>,
                           done: set<string>) {
    && Enumerates(order, done) && done <= t.Keys
    && entries == Walk(t, order) && values == Grouped(entries)
  }

  lemma ProgressOneMore(was: seq<CsetCounts>, values: seq<CsetCounts>, entries: seq<CsetCounts>, t: NodeValues,
                        order: seq<string>, done: set<string>, ip: string)
    requires Progress(was, entries, t, order, done)
    requires ip in t && ip !in done && values == MergeAll(was, t[ip])
    ensures Progress(values, entries + t[ip], t, order + [ip], done + {ip})
  {
    MergeAllIsGrouped(entries, t[ip]);
    WalkAppend(t, order, ip);
  }

  lemma ProgressEnds(values: seq<CsetCounts>, entries: seq<CsetCounts>, t: NodeValues, order: seq<string>)
    requires Progress(values, entries, t, order, t.Keys)
    ensures Aggregates(values, t)
  {
    GroupedAggregates(t, order);
  }

  lemma AggregateTotals(groups: seq<CsetCounts>, t: NodeValues)
    requires Aggregates(groups, t)
    ensures SumOf(groups, Total) == FlatSum(t, Total)
    ensures SumOf(groups, Used) == FlatSum(t, Used)
    ensures SumOf(groups, Requests) == FlatSum(t, Requests)
  {
  }

  lemma WalkAppend(t: NodeValues, order: seq<string>, ip: string)
    requires (forall i :: i in order ==> i in t) && ip in t
    ensures Walk(t, order + [ip]) == Walk(t, order) + t[ip]
  {
    assert (order + [ip])[..|order|] == order;
  }

  method AddTotals(cset: seq<CsetData>) returns (total: int, used: int, requests: int)
    ensures total == SumOf(Values(cset), Total)
    ensures used == SumOf(Values(cset), Used)
    ensures requests == SumOf(Values(cset), Requests)
  {
    total, used, requests := 0, 0, 0;
    ghost var values := Values(cset);
    for i := 0 to |cset|
      invariant total == SumOf(values[..i], Total)
      invariant used == SumOf(values[..i], Used)
      invariant requests == SumOf(values[..i], Requests)
    {
      assert values[..i + 1] == values[..i] + [values[i]];
      SumOfAppend(values[..i], values[i], Total);
      SumOfAppend(values[..i], values[i], Used);
      SumOfAppend(values[..i], values[i], Requests);
      total := total + cset[i].total;
      used := used + cset[i].used;
      requests := requests + cset[i].requests;
    }
    assert values[..|values|] == values;
  }

  /** A report expires when it is older than 60 seconds. */
  lemma LifetimeIsAMinute(received: int, now: int)
    ensures received + LIFETIME < now ==> Seconds(received, now) >= 60
    ensures now <= received + LIFETIME ==> Seconds(received, now) <= 60
    ensures received + LIFETIME < now <==> now - received > 60 * 1_000_000_000
  {
    SecondsAreSeconds(received, now, Seconds(received, now));
  }
}
