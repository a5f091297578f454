/** The device nodes over any sequence of allocation requests and rounds of the pod lister. */
module NodeRuns {
  import opened Wrappers
  import opened CryptoConfig
  import opened ConfigWatcher
  import opened Plugin
  import opened DeviceIds
  import opened Clocks
  import opened Tracking
  import opened Zcrypt
  import opened Metrics
  import opened Allocation
  import opened PodLister

  datatype Event =
    | Request(resource: string, livesysfs: int, containers: seq<seq<string>>,
              shadowWorks: nat -> bool, liveWorks: nat -> bool, now: int)
    | Collect(cc: seq<SetDef>, round: Round)

  /**
     Any number of requests, of any plug-ins, and collector rounds. No device node ever reaches another queue than
     its own; and as long as destroying works, every device node has exactly its adapter, its domain and
     all ioctls after every event.
   */
  method RunEvents(z: ZcryptNodes, metrics: MetricsColl, lister: Lister, events: seq<Event>)
    returns (ghost tables: seq<NodeTable>)
    requires lister.Valid() && lister.znodes == z && lister.metrics == metrics
    modifies z, metrics, lister.clock, lister.nodes, lister.shadows
    ensures lister.Valid() && z.steps >= old(z.steps)
    ensures |tables| == |events| + 1 && tables[0] == old(z.nodes) && tables[|events|] == z.nodes
    ensures Confined(old(z.nodes)) ==> forall i :: 0 <= i <= |events| ==> Confined(tables[i])
    ensures Isolated(old(z.nodes)) && z.DestroysWork(old(z.steps)) ==> forall i :: 0 <= i <= |events| ==>
              Isolated(tables[i])
  {
    tables := [z.nodes];
    for i := 0 to |events|
      invariant lister.Valid() && z.steps >= old(z.steps)
      invariant |tables| == i + 1 && tables[0] == old(z.nodes) && tables[i] == z.nodes
      invariant Confined(old(z.nodes)) ==> forall k :: 0 <= k <= i ==> Confined(tables[k])
      invariant Isolated(old(z.nodes)) && z.DestroysWork(old(z.steps)) ==> forall k :: 0 <= k <= i ==>
                  Isolated(tables[k])
    {
      OneEvent(z, metrics, lister, events[i]);
      tables := tables + [z.nodes];
    }
  }

  method OneEvent(z: ZcryptNodes, metrics: MetricsColl, lister: Lister, event: Event)
    requires lister.Valid() && lister.znodes == z && lister.metrics == metrics
    modifies z, metrics, lister.clock, lister.nodes, lister.shadows
    ensures lister.Valid() && z.steps >= old(z.steps)
    ensures Confined(old(z.nodes)) ==> Confined(z.nodes)
    ensures Isolated(old(z.nodes)) && z.DestroysWork(old(z.steps)) ==> Isolated(z.nodes)
  {
    match event
    case Request(resource, livesysfs, containers, shadowWorks, liveWorks, now) =>
      var rsp := Allocate(z, metrics, resource, livesysfs, containers, shadowWorks, liveWorks, now);
    case Collect(cc, round) =>
      var ok, removed, sweptAt := lister.DoLoop(cc, round);
  }

  /**
     A request to a plug-in is served in the live mode stored in its set, which is the one that holds for the set
     exactly when it was filled in, given in the file, or the default is not live.
   */
  method AllocateFrom(p: ResPlugin, z: ZcryptNodes, containers: seq<seq<string>>,
                      shadowWorks: nat -> bool, liveWorks: nat -> bool, now: int)
    returns (rsp: Option<seq<ContainerResponse>>)
    requires p.Valid() && p.ccset != null
    modifies z, p.metrics
    ensures p.Valid() && p.Current() == old(p.Current())
    ensures rsp.Some? ==> ServedAs(containers, p.ccset.livesysfs, rsp.value)
    ensures (p.ccset.livesysfs > 0 <==> Effective(p.ccset.def.livesysfs, p.env.livesysfs) > 0) <==>
            p.ccset.livesysfs >= 0 || p.env.livesysfs == 0
    ensures Confined(old(z.nodes)) ==> Confined(z.nodes)
    ensures Isolated(old(z.nodes)) && z.DestroysWork(old(z.steps)) ==> Isolated(z.nodes)
    ensures old(p.Told()) ==> p.Told()
  {
    StoredLiveModeHoldsIff(p.ccset.def, p.env, p.ccset.livesysfs);
    ghost var t := p.metrics.csetmap;
    rsp := Allocate(z, p.metrics, p.resource, p.ccset.livesysfs, containers, shadowWorks, liveWorks, now);
  }

  /** The pod lister got all it asked for. */
  predicate Complete(round: Round) {
    round.connected && round.nodes.Some? && round.shadows.Some? && round.pods.Some?
  }

  lemma UsedNode(ids: seq<string>, id: string)
    ensures NodeOf(id) in NodesOf(ids) <==> id in ids
  {
    forall other | NodeOf(other) == NodeOf(id)
      ensures other == id
    {
      assert NodeOf(other)[7..] == other && NodeOf(id)[7..] == id;
    }
  }

  /** The node of a device and the pod lister's name for it are the same. */
  lemma NodeOfDevice(t: Triple)
    ensures NodeOf(DeviceId(t.adapter, t.domain, t.index)) == NameOf(t)
  {
  }

  /**
     A device is handed out, and the pod lister's next round follows. Handing out does not touch the lister's table, so
     an old entry still counts: if the round takes no longer than the limits, the node just handed out is
     destroyed only when its entry is overdue and no pod holds the device yet; and if so, and destroying
     works, it is destroyed.
   */
  method HandOutThenRound(z: ZcryptNodes, metrics: MetricsColl, lister: Lister, resource: string, livesysfs: int,
                          t: Triple, shadowWorks: bool, liveWorks: bool, now: int, cc: seq<SetDef>, round: Round)
    returns (rsp: Option<ContainerResponse>, ok: bool)
    requires lister.Valid() && lister.znodes == z && lister.metrics == metrics
    requires IsInt64(t.adapter) && IsInt64(t.domain) && IsInt64(t.index) && Complete(round)
    modifies z, metrics, lister.clock, lister.nodes, lister.shadows
    ensures lister.Valid()
    ensures var id, limits := DeviceId(t.adapter, t.domain, t.index), lister.nodes.limits;
            var was, took := old(lister.nodes.entries), Seconds(old(lister.clock.now), lister.clock.now);
            && (rsp.Some? && NameOf(t) !in z.nodes && took <= limits.neverUsed && took <= limits.afterUse ==>
                  && NameOf(t) in was && Overdue(was[NameOf(t)], limits, lister.clock.now)
                  && !InUse(round.pods.value, id))
            && (NameOf(t) in was && Overdue(was[NameOf(t)], limits, old(lister.clock.now))
                && !InUse(round.pods.value, id) && z.DestroysWork(old(z.steps)) ==>
                  NameOf(t) !in z.nodes)
  {
    ghost var id, name := DeviceId(t.adapter, t.domain, t.index), NameOf(t);
    ghost var was, log, begun := lister.nodes.entries, lister.nodes.log, lister.clock.now;
    RoundTrip(t.adapter, t.domain, t.index);
    NodeOfDevice(t);
    rsp := AllocateContainer(z, metrics, resource, livesysfs, [DeviceId(t.adapter, t.domain, t.index)], shadowWorks,
                             liveWorks, now);
    assert rsp.Some? ==> name in z.nodes;
    ghost var sweptAt, removed;
    ok, removed, sweptAt := lister.DoLoop(cc, round);
    ghost var ids := IdsOfPods(round.pods.value);
    UsedNode(ids, id);
    IdsOfPodsExactly(round.pods.value, id);
    RoundReclaims(was, lister.nodes.entries, log, lister.nodes.log, lister.nodes.limits, round.nodes.value,
                  NodesOf(ids),
                  begun, sweptAt, lister.clock.now, name);
  }

  /** What a round can and must reclaim, in one. */
  lemma RoundReclaims(was: map<string, Entry>, now: map<string, Entry>, log: Log, log': Log, limits: AgeLimits,
                      seen: seq<string>, used: set<string>, begunAt: int, sweptAt: int, endedAt: int, n: string)
    requires RoundDone(was, now, log, log', limits, seen, used, begunAt, sweptAt)
    requires Agree(was, log) && Agree(now, log') && Faithful(log', limits) && LoggedBy(log', endedAt)
    ensures Seconds(begunAt, endedAt) <= limits.neverUsed && Seconds(begunAt, endedAt) <= limits.afterUse
            && HasDeletion(log', |log|, n) ==>
              n in was && Overdue(was[n], limits, endedAt) && n !in used
    ensures n in was && Overdue(was[n], limits, begunAt) && n !in used ==> HasDeletion(log', |log|, n)
  {
    if Seconds(begunAt, endedAt) <= limits.neverUsed && Seconds(begunAt, endedAt) <= limits.afterUse
       && HasDeletion(log', |log|, n) {
      ReclaimedInShortRound(was, now, log, log', limits, seen, used, begunAt, sweptAt, endedAt, n);
    }
    if n in was && Overdue(was[n], limits, begunAt) && n !in used {
      OverdueLater(was[n], limits, begunAt, sweptAt);
      ReclaimedWhenOverdue(was, now, log, log', limits, seen, used, begunAt, sweptAt, n);
    }
  }

  lemma OverdueLater(e: Entry, limits: AgeLimits, t: int, t': int)
    requires t <= t' && Overdue(e, limits, t)
    ensures Overdue(e, limits, t')
  {
    SecondsMonotone(e.first, e.first, t, t');
    if e.last.Some? {
      SecondsMonotone(e.last.value, e.last.value, t, t');
    }
  }

  /** Plug-in and pod lister call a device's node and shadow by the same names. */
  lemma NamesAgree(t: Triple, id: string)
    ensures NodeOf(DeviceId(t.adapter, t.domain, t.index)) == NameOf(t)
    ensures ShadowOf(id) == ShadowDir(id)
  {
    NodeOfDevice(t);
  }
}
