/**
 Many connections at once: each handler stores its report and adds the table up under one lock, and
 publishes the outcome under another, so that handlers interleave between the two.
 */
module Publishing {
  import opened Wrappers
  import opened Counts
  import opened Grouping

  /** A handler has stored its report, or has added the table up and not published yet. */
  datatype Phase = Stored | Added(groups: seq<CsetCounts>)

  datatype State = State(table: NodeValues, handlers: map<nat, Phase>, published: Option<seq<CsetCounts>>)

  const INIT := State(map[], map[], None)

  datatype Step =
    | Store(h: nat, ip: string, report: seq<CsetCounts>)
    // drops the expired reports and adds the rest up along the order
    | Add(h: nat, expired: set<string>, order: seq<string>)
    | Publish(h: nat)

  ghost predicate Enabled(s: State, step: Step) {
    match step
    case Store(h, _, _) => h !in s.handlers
    case Add(h, expired, order) => h in s.handlers && s.handlers[h].Stored?
      && Enumerates(order, (s.table - expired).Keys)
    case Publish(h) => h in s.handlers && s.handlers[h].Added?
  }

  ghost function Apply(s: State, step: Step): State
    requires Enabled(s, step)
  {
    match step
    case Store(h, ip, report) => s.(table := s.table[ip := report], handlers := s.handlers[h := Stored])
    case Add(h, expired, order) =>
      var left := s.table - expired;
      s.(table := left, handlers := s.handlers[h := Added(Grouped(Walk(left, order)))])
    case Publish(h) => s.(published := Some(s.handlers[h].groups), handlers := s.handlers - {h})
  }

  /** A run: the states between the steps. */
  ghost predicate IsRun(states: seq<State>, steps: seq<Step>) {
    && |states| == |steps| + 1 && states[0] == INIT
    && forall i :: 0 <= i < |steps| ==> Enabled(states[i], steps[i]) && states[i + 1] == Apply(states[i], steps[i])
  }

  /** The records are the exact aggregate of the table at some moment not after i. */
  ghost predicate WasCurrent(states: seq<State>, i: nat, groups: seq<CsetCounts>)
    requires i < |states|
  {
    exists j :: 0 <= j <= i && Aggregates(groups, states[j].table)
  }

  lemma WasCurrentLater(states: seq<State>, i: nat, groups: seq<CsetCounts>)
    requires i + 1 < |states| && WasCurrent(states, i, groups)
    ensures WasCurrent(states, i + 1, groups)
  {
    var j :| 0 <= j <= i && Aggregates(groups, states[j].table);
    assert 0 <= j <= i + 1;
  }

  /**
     In every interleaving, whatever is published is the exact aggregate of the table at one single
     earlier moment; so is what any handler is about to publish.
   */
  lemma {:induction false} PublishedIsASnapshot(states: seq<State>, steps: seq<Step>, i: nat)
    requires IsRun(states, steps) && i < |states|
    ensures states[i].published.Some? ==> WasCurrent(states, i, states[i].published.value)
    ensures forall h :: h in states[i].handlers && states[i].handlers[h].Added? ==>
              WasCurrent(states, i, states[i].handlers[h].groups)
  {
    if i == 0 {
    } else {
      var was, now, step := states[i - 1], states[i], steps[i - 1];
      PublishedIsASnapshot(states, steps, i - 1);
      if now.published.Some? {
        assert WasCurrent(states, i - 1, now.published.value);
        WasCurrentLater(states, i - 1, now.published.value);
      }
      forall h | h in now.handlers && now.handlers[h].Added?
        ensures WasCurrent(states, i, now.handlers[h].groups)
      {
        if step.Add? && step.h == h {
          GroupedAggregates(now.table, step.order);
          assert Aggregates(now.handlers[h].groups, states[i].table);
        } else {
          assert WasCurrent(states, i - 1, was.handlers[h].groups);
          WasCurrentLater(states, i - 1, now.handlers[h].groups);
        }
      }
    }
  }

  /** Handler h has been at work without a break since its report was stored at step st. */
  ghost predicate AtWorkSince(states: seq<State>, steps: seq<Step>, i: nat, h: nat, st: nat)
    requires |states| == |steps| + 1 && i < |states|
  {
    && st < i && steps[st].Store? && steps[st].h == h
    && forall m :: st < m <= i ==> h in states[m].handlers
  }

  /**
     The records are the exact aggregate of the table that handler h added up at step ad, after it stored its report.
   */
  ghost predicate AddedAt(states: seq<State>, steps: seq<Step>, i: nat, h: nat, st: nat, ad: nat,
                          groups: seq<CsetCounts>)
    requires |states| == |steps| + 1 && i < |states|
  {
    st < ad < i && steps[ad].Add? && steps[ad].h == h && Aggregates(groups, states[ad + 1].table)
  }

  /** How a handler at work came to where it is. */
  lemma {:induction false} HandlerHistory(states: seq<State>, steps: seq<Step>, i: nat, h: nat)
    requires IsRun(states, steps) && i < |states| && h in states[i].handlers
    ensures exists st :: AtWorkSince(states, steps, i, h, st)
              && (states[i].handlers[h].Added? ==> exists ad ::
                  AddedAt(states, steps, i, h, st, ad, states[i].handlers[h].groups))
  {
    if i == 0 {
      assert false;
    } else {
      var was, now, step := states[i - 1], states[i], steps[i - 1];
      assert Enabled(was, step) && now == Apply(was, step);
      if step.Store? && step.h == h {
        assert AtWorkSince(states, steps, i, h, i - 1);
      } else {
        var j: nat := i - 1;
        HandlerHistory(states, steps, j, h);
        var st :| AtWorkSince(states, steps, j, h, st)
                  && (was.handlers[h].Added? ==> exists ad ::
                      AddedAt(states, steps, j, h, st, ad, was.handlers[h].groups));
        assert AtWorkSince(states, steps, i, h, st);
        if step.Add? && step.h == h {
          GroupedAggregates(now.table, step.order);
          assert AddedAt(states, steps, i, h, st, i - 1, now.handlers[h].groups);
        } else if now.handlers[h].Added? {
          var ad :| AddedAt(states, steps, j, h, st, ad, was.handlers[h].groups);
          assert AddedAt(states, steps, i, h, st, ad, now.handlers[h].groups);
        }
      }
    }
  }

  /** Two tables with the same sets and the same sums. */
  ghost predicate SameSums(t: NodeValues, t': NodeValues) {
    && NamesOfTable(t) == NamesOfTable(t')
    && (forall name, k :: name in NamesOfTable(t) ==> NamedSum(t, name, k) == NamedSum(t', name, k))
    && forall k :: FlatSum(t, k) == FlatSum(t', k)
  }

  lemma AggregatesBothIff(groups: seq<CsetCounts>, t: NodeValues, t': NodeValues)
    requires Aggregates(groups, t)
    ensures Aggregates(groups, t') <==> SameSums(t, t')
  {
    if Aggregates(groups, t') {
      forall name, k | name in NamesOfTable(t)
        ensures NamedSum(t, name, k) == NamedSum(t', name, k)
      {
        assert name in Names(groups);
        var g :| g in groups && g.setName == name;
        assert Get(g, k) == NamedSum(t, g.setName, k);
      }
      forall k
        ensures FlatSum(t, k) == FlatSum(t', k)
      {
        assert SumOf(groups, k) == FlatSum(t, k);
      }
    }
    if SameSums(t, t') {
      forall g | g in groups
        ensures g.setName in NamesOfTable(t)
      {
        assert g.setName in Names(groups);
      }
    }
  }

  /**
     What a handler publishes is the aggregate of the table at a moment after it stored its own report. It is
     the aggregate of the table as it is by then exactly when whatever reports were stored or expired since
     have left the sets and their sums as they were.
   */
  lemma PublishedIsCurrentIff(states: seq<State>, steps: seq<Step>, i: nat)
    requires IsRun(states, steps) && i < |steps| && steps[i].Publish?
    ensures var groups := states[i + 1].published;
            groups.Some? &&
            exists st, ad :: AtWorkSince(states, steps, i, steps[i].h, st)
              && AddedAt(states, steps, i, steps[i].h, st, ad, groups.value)
              && (Aggregates(groups.value, states[i + 1].table) <==>
                  SameSums(states[ad + 1].table, states[i + 1].table))
  {
    var h := steps[i].h;
    assert Enabled(states[i], steps[i]) && states[i + 1] == Apply(states[i], steps[i]);
    HandlerHistory(states, steps, i, h);
    var groups := states[i].handlers[h].groups;
    var st :| AtWorkSince(states, steps, i, h, st) && exists ad :: AddedAt(states, steps, i, h, st, ad, groups);
    var ad :| AddedAt(states, steps, i, h, st, ad, groups);
    AggregatesBothIff(groups, states[ad + 1].table, states[i + 1].table);
  }

  ghost predicate Reachable(s: State) {
    exists states, steps :: IsRun(states, steps) && states[|steps|] == s
  }

  lemma ReachableNext(s: State, step: Step)
    requires Reachable(s) && Enabled(s, step)
    ensures Reachable(Apply(s, step))
  {
    var states, steps :| IsRun(states, steps) && states[|steps|] == s;
    var states', steps' := states + [Apply(s, step)], steps + [step];
    assert IsRun(states', steps') && states'[|steps'|] == Apply(s, step);
  }

  lemma OneAdded()
    ensures Reachable(State(map["a" := []], map[0 := Added([])], None))
  {
    assert IsRun([INIT], []) && [INIT][0] == INIT;
    WalkOne("a", []);
    ReachableNext(INIT, Store(0, "a", []));
    var empty: NodeValues := map["a" := []];
    assert empty - {} == empty;
    ReachableNext(State(empty, map[0 := Stored], None), Add(0, {}, ["a"]));
  }

  /**
     Two handlers for reports of one node: both have stored and added up, one before and one after the second report.
   */
  lemma BothAdded(r: seq<CsetCounts>)
    ensures Reachable(State(map["a" := r], map[0 := Added([]), 1 := Added(Grouped(r))], None))
  {
    OneAdded();
    WalkOne("a", r);
    ReachableNext(State(map["a" := []], map[0 := Added([])], None), Store(1, "a", r));
    var table: NodeValues := map["a" := r];
    assert table - {} == table;
    ReachableNext(State(table, map[0 := Added([]), 1 := Stored], None), Add(1, {}, ["a"]));
  }

  lemma WalkOne(ip: string, r: seq<CsetCounts>)
    ensures Walk(map[ip := r], [ip]) == r && Enumerates([ip], map[ip := r].Keys)
  {
    assert [ip][..0] == [] && [] + r == r;
  }

  /**
     Stale data can stay up with no handler left at work: the one that added up first publishes last, without the
     report that the other has stored in between.
   */
  lemma StaleDataStaysUp(r: seq<CsetCounts>)
    requires SumOf(r, Total) != 0
    ensures exists s :: Reachable(s) && s.handlers == map[] && s.published.Some?
              && !Aggregates(s.published.value, s.table)
  {
    BothAdded(r);
    var s := State(map["a" := r], map[0 := Added([]), 1 := Added(Grouped(r))], None);
    ReachableNext(s, Publish(1));
    assert s.handlers - {1} == map[0 := Added([])];
    ReachableNext(State(map["a" := r], map[0 := Added([])], Some(Grouped(r))), Publish(0));
    var last := State(map["a" := r], map[], Some([]));
    assert map[0 := Added([])] - {0} == map[];
    assert Reachable(last);
    SplitFlatSum(last.table, "a", Total);
    assert last.table - {"a"} == map[];
  }

  /**
     When one other report comes in between a handler's two locks, the sum it
     then publishes is the table's exactly when that report left the table's sum as it was.
   */
  lemma ReportInBetweenIsMissedIff(s: State, h: nat, other: nat, ip: string, report: seq<CsetCounts>, k: Counter)
    requires h in s.handlers && s.handlers[h].Added? && Aggregates(s.handlers[h].groups, s.table)
    requires other !in s.handlers
    ensures var stored := Apply(s, Store(other, ip, report));
            Enabled(stored, Publish(h)) &&
            var last := Apply(stored, Publish(h));
            SumOf(last.published.value, k) == FlatSum(last.table, k) <==>
            SumOf(report, k) == if ip in s.table then SumOf(s.table[ip], k) else 0
  {
    ReportReplaces(s.table, ip, report, "", k);
    if ip in s.table {
      SplitFlatSum(s.table, ip, k);
    } else {
      assert s.table - {ip} == s.table;
    }
  }
}
