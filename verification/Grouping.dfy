/** Adding the records of many nodes up by set name. */
module Grouping {
  import opened Counts
  import opened Sums

  /** A record without counts for a set not met before. */
  function Fresh(setName: string): CsetCounts {
    CsetCounts(setName, 0, 0, 0)
  }

  function Plus(a: CsetCounts, b: CsetCounts): CsetCounts {
    CsetCounts(a.setName, a.total + b.total, a.used + b.used, a.requests + b.requests)
  }

  /** The position of a set's record; the length of the list when there is none. */
  function IndexOf(groups: seq<CsetCounts>, setName: string): (i: nat)
    ensures i <= |groups|
    ensures i < |groups| ==> groups[i].setName == setName
    ensures forall j :: 0 <= j < i ==> groups[j].setName != setName
  {
    if groups == [] || groups[0].setName == setName then 0 else 1 + IndexOf(groups[1..], setName)
  }

  /** Adds a record to the group of its set. */
  function Merge(groups: seq<CsetCounts>, c: CsetCounts): seq<CsetCounts> {
    var i := IndexOf(groups, c.setName);
    if i < |groups| then groups[i := Plus(groups[i], c)] else groups + [Plus(Fresh(c.setName), c)]
  }

  /** The groups of a list of records, in the order in which their sets are met. */
  function Grouped(entries: seq<CsetCounts>): seq<CsetCounts> {
    if entries == [] then [] else Merge(Grouped(entries[..|entries| - 1]), entries[|entries| - 1])
  }

  /** Merges a list of records into groups, one after the other. */
  function MergeAll(groups: seq<CsetCounts>, cs: seq<CsetCounts>): seq<CsetCounts> {
    if cs == [] then groups else Merge(MergeAll(groups, cs[..|cs| - 1]), cs[|cs| - 1])
  }

  lemma {:induction false} MergeAllIsGrouped(entries: seq<CsetCounts>, cs: seq<CsetCounts>)
    ensures MergeAll(Grouped(entries), cs) == Grouped(entries + cs)
  {
    if cs == [] {
      assert entries + cs == entries;
    } else {
      var init, c := cs[..|cs| - 1], cs[|cs| - 1];
      MergeAllIsGrouped(entries, init);
      assert (entries + cs)[..|entries + cs| - 1] == entries + init;
    }
  }

  lemma MergeAllStep(groups: seq<CsetCounts>, cs: seq<CsetCounts>, n: nat)
    requires n < |cs|
    ensures MergeAll(groups, cs[..n + 1]) == Merge(MergeAll(groups, cs[..n]), cs[n])
  {
    assert cs[..n + 1][..n] == cs[..n];
  }

  /** One group for each set that occurs, with the exact sums of its records. */
  ghost predicate IsGroupBy(groups: seq<CsetCounts>, entries: seq<CsetCounts>) {
    && DistinctNames(groups)
    && Names(groups) == Names(entries)
    && forall g, k :: g in groups ==> Get(g, k) == SumNamed(entries, g.setName, k)
  }

  lemma NamesAppend(cs: seq<CsetCounts>, c: CsetCounts)
    ensures Names(cs + [c]) == Names(cs) + {c.setName}
  {
    assert forall d :: d in cs + [c] <==> d in cs || d == c;
  }

  lemma NamesAt(cs: seq<CsetCounts>, i: nat)
    requires i < |cs|
    ensures cs[i].setName in Names(cs)
  {
    assert cs[i] in cs;
  }

  lemma NamesUpdate(cs: seq<CsetCounts>, i: nat, c: CsetCounts)
    requires i < |cs| && c.setName == cs[i].setName
    ensures Names(cs[i := c]) == Names(cs)
  {
    var cs' := cs[i := c];
    forall n | n in Names(cs)
      ensures n in Names(cs')
    {
      var j :| 0 <= j < |cs| && cs[j].setName == n;
      assert cs'[j] in cs' && cs'[j].setName == n;
    }
    forall n | n in Names(cs')
      ensures n in Names(cs)
    {
      var j :| 0 <= j < |cs'| && cs'[j].setName == n;
      assert cs[j] in cs && cs[j].setName == n;
    }
  }

  lemma MergeKeepsGroupBy(groups: seq<CsetCounts>, entries: seq<CsetCounts>, c: CsetCounts)
    requires IsGroupBy(groups, entries)
    ensures IsGroupBy(Merge(groups, c), entries + [c])
  {
    var i := IndexOf(groups, c.setName);
    var groups' := Merge(groups, c);
    NamesAppend(entries, c);
    if i < |groups| {
      NamesAt(groups, i);
      NamesUpdate(groups, i, Plus(groups[i], c));
    } else {
      NamesAppend(groups, Plus(Fresh(c.setName), c));
    }
    forall j, k | 0 <= j < |groups'|
      ensures Get(groups'[j], k) == SumNamed(entries + [c], groups'[j].setName, k)
    {
      SumNamedAppend(entries, c, groups'[j].setName, k);
      if j < |groups| {
        assert groups[j] in groups;
      } else {
        assert c.setName !in Names(groups);
        SumNamedAbsent(entries, c.setName, k);
      }
    }
  }

  lemma {:induction false} GroupedIsGroupBy(entries: seq<CsetCounts>)
    ensures IsGroupBy(Grouped(entries), entries)
  {
    if entries == [] {
    } else {
      var init, c := entries[..|entries| - 1], entries[|entries| - 1];
      GroupedIsGroupBy(init);
      MergeKeepsGroupBy(Grouped(init), init, c);
      assert entries == init + [c];
    }
  }

  lemma {:induction false} SumOfUpdate(cs: seq<CsetCounts>, i: nat, c: CsetCounts, k: Counter)
    requires i < |cs|
    ensures SumOf(cs[i := c], k) == SumOf(cs, k) - Get(cs[i], k) + Get(c, k)
  {
    var n := |cs| - 1;
    if i < n {
      SumOfUpdate(cs[..n], i, c, k);
      assert cs[i := c][..n] == cs[..n][i := c];
    } else {
      assert cs[i := c][..n] == cs[..n];
    }
  }

  lemma MergeAddsUp(groups: seq<CsetCounts>, c: CsetCounts, k: Counter)
    ensures SumOf(Merge(groups, c), k) == SumOf(groups, k) + Get(c, k)
  {
    var i := IndexOf(groups, c.setName);
    if i < |groups| {
      SumOfUpdate(groups, i, Plus(groups[i], c), k);
    } else {
      SumOfAppend(groups, Plus(Fresh(c.setName), c), k);
    }
  }

  /** Grouping loses and invents nothing: the groups add up to the flat sum. */
  lemma {:induction false} GroupedConserves(entries: seq<CsetCounts>, k: Counter)
    ensures SumOf(Grouped(entries), k) == SumOf(entries, k)
  {
    if entries == [] {
    } else {
      GroupedConserves(entries[..|entries| - 1], k);
      MergeAddsUp(Grouped(entries[..|entries| - 1]), entries[|entries| - 1], k);
    }
  }

  // ----- tables of nodes -----

  /** The latest records of each node. */
  type NodeValues = map<string, seq<CsetCounts>>

  ghost predicate Enumerates<K(!new)>(order: seq<K>, keys: set<K>) {
    && (forall i, j :: 0 <= i < j < |order| ==> order[i] != order[j])
    && (forall k :: k in order <==> k in keys)
  }

  /** All records of a table, node by node along the order. */
  function Walk(t: NodeValues, order: seq<string>): seq<CsetCounts>
    requires forall ip :: ip in order ==> ip in t
  {
    if order == [] then [] else Walk(t, order[..|order| - 1]) + t[order[|order| - 1]]
  }

  ghost function FlatSum(t: NodeValues, k: Counter): int {
    SumMap(map ip | ip in t :: SumOf(t[ip], k))
  }

  ghost function NamedSum(t: NodeValues, setName: string, k: Counter): int {
    SumMap(map ip | ip in t :: SumNamed(t[ip], setName, k))
  }

  ghost function NamesOfTable(t: NodeValues): set<string> {
    set ip, c | ip in t && c in t[ip] :: c.setName
  }

  lemma WalkOfSmaller(t: NodeValues, t': NodeValues, order: seq<string>)
    requires forall ip :: ip in order ==> ip in t && ip in t' && t[ip] == t'[ip]
    ensures Walk(t, order) == Walk(t', order)
  {
  }

  lemma SplitOrder(t: NodeValues, order: seq<string>)
    requires Enumerates(order, t.Keys) && order != []
    ensures var ip := order[|order| - 1];
            Enumerates(order[..|order| - 1], (t - {ip}).Keys) && ip in t
  {
    var init, ip := order[..|order| - 1], order[|order| - 1];
    assert order == init + [ip];
    assert ip in order;
    assert ip !in init;
  }

  /** Walking the table in any order adds up to the table's sums. */
  lemma {:induction false} WalkSums(t: NodeValues, order: seq<string>, setName: string, k: Counter)
    requires Enumerates(order, t.Keys)
    ensures SumOf(Walk(t, order), k) == FlatSum(t, k)
    ensures SumNamed(Walk(t, order), setName, k) == NamedSum(t, setName, k)
    decreases |order|
  {
    if order == [] {
      assert t.Keys == {};
    } else {
      var init, ip := order[..|order| - 1], order[|order| - 1];
      var rest := t - {ip};
      SplitOrder(t, order);
      WalkSums(rest, init, setName, k);
      WalkOfSmaller(t, rest, init);
      SumOfConcat(Walk(t, init), t[ip], k);
      SumNamedConcat(Walk(t, init), t[ip], setName, k);
      SplitFlatSum(t, ip, k);
      SplitNamedSum(t, ip, setName, k);
    }
  }

  lemma SplitFlatSum(t: NodeValues, ip: string, k: Counter)
    requires ip in t
    ensures FlatSum(t, k) == SumOf(t[ip], k) + FlatSum(t - {ip}, k)
  {
    var rest := t - {ip};
    var flat := map i | i in t :: SumOf(t[i], k);
    SumMapSplit(flat, ip);
    assert flat - {ip} == map i | i in rest :: SumOf(rest[i], k);
  }

  lemma SplitNamedSum(t: NodeValues, ip: string, setName: string, k: Counter)
    requires ip in t
    ensures NamedSum(t, setName, k) == SumNamed(t[ip], setName, k) + NamedSum(t - {ip}, setName, k)
  {
    var rest := t - {ip};
    var named := map i | i in t :: SumNamed(t[i], setName, k);
    SumMapSplit(named, ip);
    assert named - {ip} == map i | i in rest :: SumNamed(rest[i], setName, k);
  }

  lemma {:induction false} WalkNames(t: NodeValues, order: seq<string>)
    requires Enumerates(order, t.Keys)
    ensures Names(Walk(t, order)) == NamesOfTable(t)
    decreases |order|
  {
    if order == [] {
      assert t.Keys == {};
    } else {
      var init, ip := order[..|order| - 1], order[|order| - 1];
      var rest := t - {ip};
      SplitOrder(t, order);
      WalkNames(rest, init);
      WalkOfSmaller(t, rest, init);
      var front := Walk(t, init);
      assert forall c :: c in front + t[ip] <==> c in front || c in t[ip];
      assert Names(front + t[ip]) == Names(front) + Names(t[ip]);
      assert NamesOfTable(t) == NamesOfTable(rest) + Names(t[ip]);
    }
  }

  /** The cluster's records for a table of nodes. */
  ghost predicate Aggregates(groups: seq<CsetCounts>, t: NodeValues) {
    && DistinctNames(groups)
    && Names(groups) == NamesOfTable(t)
    && (forall g, k :: g in groups ==> Get(g, k) == NamedSum(t, g.setName, k))
    && forall k :: SumOf(groups, k) == FlatSum(t, k)
  }

  /** Grouping a table's records along any order of its nodes gives its aggregate. */
  lemma GroupedAggregates(t: NodeValues, order: seq<string>)
    requires Enumerates(order, t.Keys)
    ensures Aggregates(Grouped(Walk(t, order)), t)
  {
    var entries := Walk(t, order);
    var groups := Grouped(entries);
    GroupedIsGroupBy(entries);
    WalkNames(t, order);
    forall g, k | g in groups
      ensures Get(g, k) == NamedSum(t, g.setName, k)
    {
      WalkSums(t, order, g.setName, k);
    }
    forall k
      ensures SumOf(groups, k) == FlatSum(t, k)
    {
      GroupedConserves(entries, k);
      WalkSums(t, order, "", k);
    }
  }

  /** Two aggregates of the same table hold the same records. */
  lemma AggregateIsUnique(g1: seq<CsetCounts>, g2: seq<CsetCounts>, t: NodeValues)
    requires Aggregates(g1, t) && Aggregates(g2, t)
    ensures forall g :: g in g1 <==> g in g2
  {
    forall g | g in g1
      ensures g in g2
    {
      SameRecord(g1, g2, t, g);
    }
    forall g | g in g2
      ensures g in g1
    {
      SameRecord(g2, g1, t, g);
    }
  }

  lemma SameRecord(g1: seq<CsetCounts>, g2: seq<CsetCounts>, t: NodeValues, g: CsetCounts)
    requires Aggregates(g1, t) && Aggregates(g2, t) && g in g1
    ensures g in g2
  {
    assert g.setName in Names(g1);
    var h :| h in g2 && h.setName == g.setName;
    assert Get(g, Total) == Get(h, Total) && Get(g, Used) == Get(h, Used) && Get(g, Requests) == Get(h, Requests);
  }

  /** A node's new report replaces its old one in every sum. */
  lemma ReportReplaces(t: NodeValues, ip: string, cs: seq<CsetCounts>, setName: string, k: Counter)
    ensures FlatSum(t[ip := cs], k) == FlatSum(t - {ip}, k) + SumOf(cs, k)
    ensures NamedSum(t[ip := cs], setName, k) == NamedSum(t - {ip}, setName, k) + SumNamed(cs, setName, k)
  {
    SplitFlatSum(t[ip := cs], ip, k);
    SplitNamedSum(t[ip := cs], ip, setName, k);
    assert t[ip := cs] - {ip} == t - {ip};
  }
}
