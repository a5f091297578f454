/**
 The pod lister's round: it tracks device nodes and shadow directories, marks those that running
 containers use, and reclaims those that have not been used for too long.
 */
module PodLister {
  import opened Wrappers
  import opened DeviceIds
  import opened Clocks
  import opened CryptoConfig
  import opened Tracking
  import opened Metrics
  import opened Zcrypt

  datatype ContainerDevices = ContainerDevices(resourceName: string, ids: seq<string>)

  datatype Container = Container(devices: seq<ContainerDevices>)

  datatype Pod = Pod(namespace: string, containers: seq<Container>)

  const RESOURCE_PREFIX := "cex.s390.ibm.com/"

  predicate HasPrefix(s: string, prefix: string) {
    prefix <= s
  }

  /** The id is one of a plug-in device and can be scanned. */
  predicate IsPluginDevice(id: string) {
    HasPrefix(id, DeviceIds.PREFIX) && Scan(id).Some?
  }

  /** A container of the pods holds the device. */
  ghost predicate InUse(pods: seq<Pod>, id: string) {
    exists p, c, d :: p in pods && c in p.containers && d in c.devices && Holding(d, id)
  }

  predicate Holding(d: ContainerDevices, id: string) {
    HasPrefix(d.resourceName, RESOURCE_PREFIX) && id in d.ids && IsPluginDevice(id)
  }

  function NodeOf(id: string): string {
    "zcrypt-" + id
  }

  function ShadowOf(id: string): string {
    "sysfs-" + id
  }

  /** Notices only switch use flags: sets, devices and request counts stay. */
  ghost predicate OnlyFlagsDiffer(t: CsetTable, t': CsetTable) {
    && t'.Keys == t.Keys
    && forall s :: s in t ==> t'[s].plugindevs.Keys == t[s].plugindevs.Keys && t'[s].apqns == t[s].apqns
  }

  /** One device's entry: its flag is only set when it was used, and only dropped when its node was destroyed. */
  predicate FlagBy(was: PluginDev, now: PluginDev, dev: string, used: set<string>, destroyed: set<string>) {
    && (dev !in used && NodeOf(dev) !in destroyed ==> now == was)
    && (now.inUse && !was.inUse ==> dev in used)
    && (was.inUse && !now.inUse ==> NodeOf(dev) in destroyed)
  }

  /** Notices about used devices and destroyed nodes: nothing but the flags of just these devices differs. */
  ghost predicate FlagsBy(t: CsetTable, t': CsetTable, used: set<string>, destroyed: set<string>) {
    && OnlyFlagsDiffer(t, t')
    && forall s, d :: Holds(t, s, d) ==> FlagBy(t[s].plugindevs[d], t'[s].plugindevs[d], d, used, destroyed)
  }

  /** The set to which a device's queue belongs on a machine. */
  function OwnerOf(cc: seq<SetDef>, machineId: string, id: string): Option<string> {
    if Scan(id).None? then None
    else
      var s := LookupForApqn(cc, Scan(id).value.adapter, Scan(id).value.domain, machineId);
      if s.None? then None else Some(s.value.setName)
  }

  /** If its set lists the device, it is in use there. */
  ghost predicate InUseAt(t: CsetTable, cc: seq<SetDef>, machineId: string, id: string) {
    var owner := OwnerOf(cc, machineId, id);
    owner.Some? && Holds(t, owner.value, id) ==> t[owner.value].plugindevs[id].inUse
  }

  ghost predicate AllInUse(t: CsetTable, cc: seq<SetDef>, machineId: string, ids: set<string>) {
    forall id :: id in ids ==> InUseAt(t, cc, machineId, id)
  }

  /** No set shows a device of a destroyed node as in use. */
  ghost predicate Released(t: CsetTable, destroyed: set<string>) {
    forall s, d :: Holds(t, s, d) && NodeOf(d) in destroyed ==> !t[s].plugindevs[d].inUse
  }

  /** A flag that was set stays so unless the node was destroyed, and one that was not is only set for used devices. */
  lemma InUseStays(t: CsetTable, t': CsetTable, used: set<string>, destroyed: set<string>, cc: seq<SetDef>,
                   machineId: string,
                   id: string)
    requires FlagsBy(t, t', used, destroyed) && InUseAt(t, cc, machineId, id)
    ensures InUseAt(t', cc, machineId, id) || NodeOf(id) in destroyed
  {
    var owner := OwnerOf(cc, machineId, id);
    if owner.Some? && Holds(t', owner.value, id) {
      assert Holds(t, owner.value, id);
    }
  }

  lemma FlagsCompose(t: CsetTable, t1: CsetTable, t2: CsetTable, used1: set<string>, destroyed1: set<string>,
                     used2: set<string>, destroyed2: set<string>, used: set<string>, destroyed: set<string>)
    requires FlagsBy(t, t1, used1, destroyed1) && FlagsBy(t1, t2, used2, destroyed2)
    requires used1 <= used && used2 <= used && destroyed1 <= destroyed && destroyed2 <= destroyed
    ensures FlagsBy(t, t2, used, destroyed)
  {
    forall s, d | Holds(t, s, d)
      ensures FlagBy(t[s].plugindevs[d], t2[s].plugindevs[d], d, used, destroyed)
    {
      assert Holds(t1, s, d);
      assert FlagBy(t[s].plugindevs[d], t1[s].plugindevs[d], d, used1, destroyed1);
      assert FlagBy(t1[s].plugindevs[d], t2[s].plugindevs[d], d, used2, destroyed2);
    }
  }

  lemma ReleaseIsFlags(t: CsetTable, t': CsetTable, name: string)
    requires if HasPrefix(name, "zcrypt-") && exists s :: Holds(t, s, name[7..])
             then exists s :: Holds(t, s, name[7..]) && t' == ReleasedIn(t, s, name[7..])
             else t' == t
    ensures FlagsBy(t, t', {}, {name})
  {
    if HasPrefix(name, "zcrypt-") {
      assert name == NodeOf(name[7..]);
    }
  }

  lemma ReleaseReleases(t: CsetTable, t': CsetTable, name: string)
    requires if HasPrefix(name, "zcrypt-") && exists s :: Holds(t, s, name[7..])
             then exists s :: Holds(t, s, name[7..]) && t' == ReleasedIn(t, s, name[7..])
             else t' == t
    ensures DisjointDevs(t) ==> Released(t', {name})
  {
    forall s, d | Holds(t', s, d) && NodeOf(d) == name && DisjointDevs(t)
      ensures !t'[s].plugindevs[d].inUse
    {
      assert name[7..] == d;
      assert Holds(t, s, d);
    }
  }

  lemma DisjointStays(t: CsetTable, t': CsetTable)
    requires OnlyFlagsDiffer(t, t') && DisjointDevs(t)
    ensures DisjointDevs(t')
  {
    forall s1, s2, d | Holds(t', s1, d) && Holds(t', s2, d)
      ensures s1 == s2
    {
      assert Holds(t, s1, d) && Holds(t, s2, d);
    }
  }

  lemma ReleasedGrows(t: CsetTable, t': CsetTable, released: set<string>, more: set<string>)
    requires Released(t, released) && FlagsBy(t, t', {}, more) && Released(t', more)
    ensures Released(t', released + more)
  {
    forall s, d | Holds(t', s, d) && NodeOf(d) in released
      ensures !t'[s].plugindevs[d].inUse
    {
      assert Holds(t, s, d);
    }
  }

  /** The scannable plug-in device ids of a list. */
  function PluginDeviceIds(ids: seq<string>): seq<string> {
    if ids == [] then []
    else PluginDeviceIds(ids[..|ids| - 1]) + if IsPluginDevice(ids[|ids| - 1]) then [ids[|ids| - 1]] else []
  }

  function IdsOfResource(d: ContainerDevices): seq<string> {
    if HasPrefix(d.resourceName, RESOURCE_PREFIX) then PluginDeviceIds(d.ids) else []
  }

  function IdsOfDevices(ds: seq<ContainerDevices>): seq<string> {
    if ds == [] then [] else IdsOfDevices(ds[..|ds| - 1]) + IdsOfResource(ds[|ds| - 1])
  }

  function IdsOfContainers(cs: seq<Container>): seq<string> {
    if cs == [] then [] else IdsOfContainers(cs[..|cs| - 1]) + IdsOfDevices(cs[|cs| - 1].devices)
  }

  /** The device ids in use, as often as they are. */
  function IdsOfPods(pods: seq<Pod>): seq<string> {
    if pods == [] then [] else IdsOfPods(pods[..|pods| - 1]) + IdsOfContainers(pods[|pods| - 1].containers)
  }

  lemma PluginDeviceIdsAppend(ids: seq<string>, id: string)
    ensures PluginDeviceIds(ids + [id]) ==
              if IsPluginDevice(id) then PluginDeviceIds(ids) + [id] else PluginDeviceIds(ids)
  {
    assert (ids + [id])[..|ids|] == ids;
  }

  /** The queue and index of a plug-in device id; None for any other id. */
  method Recognise(id: string) returns (t: Option<Triple>)
    ensures t.Some? <==> IsPluginDevice(id)
    ensures t.Some? ==> t == Scan(id)
  {
    if !HasPrefix(id, DeviceIds.PREFIX) {
      return None;
    }
    t := Scan(id);
  }

  lemma {:induction false} PluginDeviceIdsExactly(ids: seq<string>, id: string)
    ensures id in PluginDeviceIds(ids) <==> id in ids && IsPluginDevice(id)
  {
    if ids == [] {
    } else {
      PluginDeviceIdsExactly(ids[..|ids| - 1], id);
      assert ids == ids[..|ids| - 1] + [ids[|ids| - 1]];
    }
  }

  lemma IdsOfResourceExactly(d: ContainerDevices, id: string)
    ensures id in IdsOfResource(d) <==> Holding(d, id)
  {
    PluginDeviceIdsExactly(d.ids, id);
  }

  lemma SplitLast<T>(s: seq<T>)
    requires s != []
    ensures forall x :: x in s <==> x in s[..|s| - 1] || x == s[|s| - 1]
  {
    assert s == s[..|s| - 1] + [s[|s| - 1]];
  }

  lemma {:induction false} IdsOfDevicesExactly(ds: seq<ContainerDevices>, id: string)
    ensures id in IdsOfDevices(ds) <==> exists d :: d in ds && Holding(d, id)
  {
    if ds == [] {
    } else {
      var init, d := ds[..|ds| - 1], ds[|ds| - 1];
      IdsOfDevicesExactly(init, id);
      IdsOfResourceExactly(d, id);
      SplitLast(ds);
    }
  }

  lemma {:induction false} IdsOfContainersExactly(cs: seq<Container>, id: string)
    ensures id in IdsOfContainers(cs) <==> exists c, d :: c in cs && d in c.devices && Holding(d, id)
  {
    if cs == [] {
    } else {
      var init, c := cs[..|cs| - 1], cs[|cs| - 1];
      IdsOfContainersExactly(init, id);
      IdsOfDevicesExactly(c.devices, id);
      SplitLast(cs);
    }
  }

  /** The walk over pods, containers and devices meets exactly the ids in use. */
  lemma {:induction false} IdsOfPodsExactly(pods: seq<Pod>, id: string)
    ensures id in IdsOfPods(pods) <==> InUse(pods, id)
  {
    if pods == [] {
    } else {
      var init, p := pods[..|pods| - 1], pods[|pods| - 1];
      IdsOfPodsExactly(init, id);
      IdsOfContainersExactly(p.containers, id);
      SplitLast(pods);
    }
  }

  /** What one round of the loop gets to see; None stands for a call that failed. */
  datatype Round = Round(connected: bool, nodes: Option<seq<string>>, shadows: Option<seq<string>>,
                         pods: Option<seq<Pod>>)

  class Lister {
    const machineId: string
    const metrics: MetricsColl
    const clock: Clock
    const znodes: ZcryptNodes
    const nodes: Tracker
    const shadows: Tracker

    ghost predicate Valid()
      reads this, clock, nodes, shadows
    {
      && nodes != shadows && nodes.Valid() && shadows.Valid()
      && LoggedBy(nodes.log, clock.now) && LoggedBy(shadows.log, clock.now)
    }

    constructor (machineId: string, metrics: MetricsColl, clock: Clock, znodes: ZcryptNodes, limits: AgeLimits)
      ensures Valid() && nodes.entries == map[] && shadows.entries == map[]
      ensures nodes.limits == limits && shadows.limits == limits
      ensures this.metrics == metrics && this.clock == clock && this.znodes == znodes && this.machineId == machineId
      ensures fresh(nodes) && fresh(shadows)
    {
      this.machineId, this.metrics, this.clock, this.znodes := machineId, metrics, clock, znodes;
      nodes := new Tracker(limits);
      shadows := new Tracker(limits);
    }

    ghost function Now(): Snapshot
      reads this, clock, nodes, shadows, metrics
    {
      Snapshot(clock.now, nodes.entries, nodes.log, shadows.entries, shadows.log, metrics.csetmap)
    }

    /** The metrics of the set to which the queue belongs on this machine are told about the running container. */
    method NoteRunning(cc: seq<SetDef>, id: string, adapter: int, domain: int)
      requires Valid() && Scan(id).Some? && Scan(id).value.adapter == adapter && Scan(id).value.domain == domain
      modifies metrics, clock
      ensures Valid() && clock.now >= old(clock.now)
      ensures match LookupForApqn(cc, adapter, domain, machineId)
              case None => metrics.csetmap == old(metrics.csetmap)
              case Some(s) => metrics.csetmap == MarkedInUse(old(metrics.csetmap), s.setName, id, clock.now)
      ensures FlagsBy(old(metrics.csetmap), metrics.csetmap, {id}, {})
      ensures InUseAt(metrics.csetmap, cc, machineId, id)
    {
      var ccset := LookupForApqn(cc, adapter, domain, machineId);
      if ccset.Some? {
        var now := clock.Read();
        metrics.MarkInUse(ccset.value.setName, id, now);
      }
    }

    /** The device's node and shadow are marked. */
    method MarkBoth(id: string)
      requires Valid()
      modifies clock, nodes, shadows
      ensures Valid() && clock.now >= old(clock.now)
      ensures Marks(old(nodes.entries), nodes.entries, old(nodes.log), nodes.log, {NodeOf(id)}, old(clock.now))
      ensures Marks(old(shadows.entries), shadows.entries, old(shadows.log), shadows.log, {ShadowOf(id)},
                    old(clock.now))
    {
      nodes.Mark(NodeOf(id), clock);
      MarkIsMarks(old(nodes.entries), nodes.entries, old(nodes.log), nodes.log, NodeOf(id), clock.now, old(clock.now));
      shadows.Mark(ShadowOf(id), clock);
      MarkIsMarks(old(shadows.entries), shadows.entries, old(shadows.log), shadows.log, ShadowOf(id), clock.now,
                  old(clock.now));
    }

    /** One device id of a running container: its set's metrics, its node and its shadow are marked. */
    method UseDevice(cc: seq<SetDef>, id: string, adapter: int, domain: int)
      requires Valid() && Scan(id).Some? && Scan(id).value.adapter == adapter && Scan(id).value.domain == domain
      modifies metrics, clock, nodes, shadows
      ensures Valid() && Uses(cc, machineId, old(Now()), Now(), [id])
    {
      ghost var start := Now();
      NoteRunning(cc, id, adapter, domain);
      ghost var noted := Now();
      MarkBoth(id);
      UseIsUses(cc, machineId, start, noted, Now(), id);
    }

    method UseIds(cc: seq<SetDef>, ids: seq<string>)
      requires Valid()
      modifies metrics, clock, nodes, shadows
      ensures Valid() && Uses(cc, machineId, old(Now()), Now(), PluginDeviceIds(ids))
    {
      ghost var start := Now();
      UsesNothing(cc, machineId, start);
      for i := 0 to |ids|
        invariant Valid() && Uses(cc, machineId, start, Now(), PluginDeviceIds(ids[..i]))
      {
        assert ids[..i + 1] == ids[..i] + [ids[i]];
        PluginDeviceIdsAppend(ids[..i], ids[i]);
        var t := Recognise(ids[i]);
        if t.None? {
          continue;
        }
        ghost var before := Now();
        UseDevice(cc, ids[i], t.value.adapter, t.value.domain);
        UsesCompose(cc, machineId, start, before, Now(), PluginDeviceIds(ids[..i]), [ids[i]]);
      }
      assert ids[..|ids|] == ids;
    }

    method UseResource(cc: seq<SetDef>, d: ContainerDevices)
      requires Valid()
      modifies metrics, clock, nodes, shadows
      ensures Valid() && Uses(cc, machineId, old(Now()), Now(), IdsOfResource(d))
    {
      if HasPrefix(d.resourceName, RESOURCE_PREFIX) {
        UseIds(cc, d.ids);
      } else {
        UsesNothing(cc, machineId, Now());
      }
    }

    method UseContainer(cc: seq<SetDef>, ds: seq<ContainerDevices>)
      requires Valid()
      modifies metrics, clock, nodes, shadows
      ensures Valid() && Uses(cc, machineId, old(Now()), Now(), IdsOfDevices(ds))
    {
      ghost var start := Now();
      UsesNothing(cc, machineId, start);
      for i := 0 to |ds|
        invariant Valid() && Uses(cc, machineId, start, Now(), IdsOfDevices(ds[..i]))
      {
        assert ds[..i + 1][..i] == ds[..i];
        ghost var before := Now();
        UseResource(cc, ds[i]);
        UsesCompose(cc, machineId, start, before, Now(), IdsOfDevices(ds[..i]), IdsOfResource(ds[i]));
      }
      assert ds[..|ds|] == ds;
    }

    method UsePod(cc: seq<SetDef>, cs: seq<Container>)
      requires Valid()
      modifies metrics, clock, nodes, shadows
      ensures Valid() && Uses(cc, machineId, old(Now()), Now(), IdsOfContainers(cs))
    {
      ghost var start := Now();
      UsesNothing(cc, machineId, start);
      for i := 0 to |cs|
        invariant Valid() && Uses(cc, machineId, start, Now(), IdsOfContainers(cs[..i]))
      {
        assert cs[..i + 1][..i] == cs[..i];
        ghost var before := Now();
        UseContainer(cc, cs[i].devices);
        UsesCompose(cc, machineId, start, before, Now(), IdsOfContainers(cs[..i]), IdsOfDevices(cs[i].devices));
      }
      assert cs[..|cs|] == cs;
    }

    /** Marks the nodes and shadows of all devices that running containers hold. */
    method UsePods(cc: seq<SetDef>, pods: seq<Pod>)
      requires Valid()
      modifies metrics, clock, nodes, shadows
      ensures Valid() && Uses(cc, machineId, old(Now()), Now(), IdsOfPods(pods))
    {
      ghost var start := Now();
      UsesNothing(cc, machineId, start);
      for i := 0 to |pods|
        invariant Valid() && Uses(cc, machineId, start, Now(), IdsOfPods(pods[..i]))
      {
        assert pods[..i + 1][..i] == pods[..i];
        ghost var before := Now();
        UsePod(cc, pods[i].containers);
        UsesCompose(cc, machineId, start, before, Now(), IdsOfPods(pods[..i]), IdsOfContainers(pods[i].containers));
      }
      assert pods[..|pods|] == pods;
    }

    /** The metrics collector is told about a device node, and the node is destroyed. */
    method TellAndDestroy(name: string)
      modifies metrics, znodes
      ensures FlagsBy(old(metrics.csetmap), metrics.csetmap, {}, {name})
      ensures if HasPrefix(name, "zcrypt-") && exists s :: Holds(old(metrics.csetmap), s, name[7..])
              then exists s :: Holds(old(metrics.csetmap), s, name[7..])
                               && metrics.csetmap == ReleasedIn(old(metrics.csetmap), s, name[7..])
              else metrics.csetmap == old(metrics.csetmap)
      ensures HasPrefix(name, "zcrypt-") && DisjointDevs(old(metrics.csetmap)) ==>
                forall s :: Holds(old(metrics.csetmap), s, name[7..]) ==>
                  metrics.csetmap == ReleasedIn(old(metrics.csetmap), s, name[7..])
      ensures DisjointDevs(old(metrics.csetmap)) ==> Released(metrics.csetmap, {name})
      ensures znodes.steps == old(znodes.steps) + 1
      ensures znodes.nodes ==
                if znodes.destroys(old(znodes.steps)) then old(znodes.nodes) - {name} else old(znodes.nodes)
    {
      if HasPrefix(name, "zcrypt-") {
        metrics.NotifyAboutDestroyNode(name[7..]);
      }
      ReleaseIsFlags(old(metrics.csetmap), metrics.csetmap, name);
      ReleaseReleases(old(metrics.csetmap), metrics.csetmap, name);
      znodes.DestroyNode(name);
    }

    /** Drops and destroys a tracked node that is expired now. */
    method SweepNode(name: string) returns (gone: bool)
      requires Valid() && name in nodes.entries
      modifies metrics, clock, nodes, znodes
      ensures Valid() && clock.now >= old(clock.now) && shadows.entries == old(shadows.entries)
                && shadows.log == old(shadows.log)
      ensures gone <==> Overdue(old(nodes.entries)[name], nodes.limits, clock.now)
      ensures nodes.entries == if gone then old(nodes.entries) - {name} else old(nodes.entries)
      ensures nodes.log == if gone then old(nodes.log) + [Deleted(name, clock.now)] else old(nodes.log)
      ensures znodes.steps == if gone then old(znodes.steps) + 1 else old(znodes.steps)
      ensures znodes.nodes == if gone && znodes.destroys(old(znodes.steps)) then old(znodes.nodes) - {name}
                else old(znodes.nodes)
      ensures ReleasedBy(old(metrics.csetmap), metrics.csetmap, if gone then {name} else {})
    {
      gone := nodes.ExpireOne(name, clock);
      if gone {
        TellAndDestroy(name);
      }
    }

    /** Destroys every tracked node that is expired when its turn comes, in any order. */
    method SweepNodes()
      requires Valid()
      modifies metrics, clock, nodes, znodes
      ensures Valid() && clock.now >= old(clock.now)
      ensures Swept(old(nodes.entries), nodes.entries, old(nodes.log), nodes.log, nodes.limits, old(clock.now))
      ensures shadows.entries == old(shadows.entries) && shadows.log == old(shadows.log)
      ensures znodes.steps >= old(znodes.steps)
      ensures Destroyed(old(znodes.nodes), znodes.nodes, old(nodes.entries), nodes.entries,
                        znodes.DestroysWork(old(znodes.steps)))
      ensures ReleasedBy(old(metrics.csetmap), metrics.csetmap, old(nodes.entries).Keys - nodes.entries.Keys)
    {
      ghost var start, kernel := Now(), znodes.nodes;
      var todo := nodes.entries.Keys;
      SweepBegins(start, kernel, nodes.limits, znodes.DestroysWork(znodes.steps), todo);
      while todo != {}
        invariant Valid() && todo <= nodes.entries.Keys && znodes.steps >= old(znodes.steps)
        invariant Sweeping(start, kernel, Now(), znodes.nodes, nodes.limits, znodes.DestroysWork(old(znodes.steps)),
                           todo)
        decreases todo
      {
        var name :| name in todo;
        ghost var before, nodesBefore, steps, worked :=
          Now(), znodes.nodes, znodes.steps, znodes.DestroysWork(old(znodes.steps));
        var gone := SweepNode(name);
        SweepingOneMore(start, kernel, before, nodesBefore, Now(), znodes.nodes, nodes.limits, worked,
                        znodes.DestroysWork(old(znodes.steps)), todo, name, gone, znodes.destroys(steps));
        todo := todo - {name};
      }
    }

    /** Removes every tracked shadow directory that is expired when its turn comes, in any order. */
    method SweepShadows() returns (removed: seq<string>)
      requires Valid()
      modifies clock, shadows
      ensures Valid() && clock.now >= old(clock.now)
      ensures Swept(old(shadows.entries), shadows.entries, old(shadows.log), shadows.log, shadows.limits,
                    old(clock.now))
      ensures nodes.entries == old(nodes.entries) && nodes.log == old(nodes.log)
      ensures forall n :: n in removed <==> n in old(shadows.entries) && n !in shadows.entries
    {
      removed := [];
      var todo := shadows.entries.Keys;
      while todo != {}
        invariant Valid() && clock.now >= old(clock.now) && todo <= shadows.entries.Keys
        invariant SweptBut(old(shadows.entries), shadows.entries, old(shadows.log), shadows.log, shadows.limits,
                           old(clock.now), todo)
        invariant forall n :: n in removed <==> n in old(shadows.entries) && n !in shadows.entries
        decreases todo
      {
        var name :| name in todo;
        todo := todo - {name};
        ghost var entries, log := shadows.entries, shadows.log;
        var gone := shadows.ExpireOne(name, clock);
        SweptOneMore(old(shadows.entries), entries, shadows.entries, old(shadows.log), log, shadows.log, shadows.limits,
                     old(clock.now), clock.now, todo + {name}, name);
        if gone {
          removed := removed + [name];
        }
      }
    }

    /** Marks what the pods use, then sweeps both tables; used is the state in between. */
    method UseAndSweep(cc: seq<SetDef>, pods: seq<Pod>) returns (removed: seq<string>, ghost used: Snapshot)
      requires Valid()
      modifies metrics, clock, nodes, shadows, znodes
      ensures Valid() && used.now <= clock.now && znodes.steps >= old(znodes.steps)
      ensures Uses(cc, machineId, old(Now()), used, IdsOfPods(pods))
      ensures Swept(used.nodes, nodes.entries, used.nodeLog, nodes.log, nodes.limits, used.now)
      ensures Swept(used.shadows, shadows.entries, used.shadowLog, shadows.log, shadows.limits, used.now)
      ensures forall n :: n in removed <==> n in used.shadows && n !in shadows.entries
      ensures Destroyed(old(znodes.nodes), znodes.nodes, used.nodes, nodes.entries,
                        znodes.DestroysWork(old(znodes.steps)))
      ensures ReleasedBy(used.metrics, metrics.csetmap, used.nodes.Keys - nodes.entries.Keys)
    {
      UsePods(cc, pods);
      used := Now();
      SweepNodes();
      ghost var swept := Now();
      removed := SweepShadows();
      SweptEarlier(used.shadows, shadows.entries, used.shadowLog, shadows.log, shadows.limits, used.now, swept.now);
    }

    /**
     One round. Once it completes, every entry left was within its limit when the sweep began, everything
     seen or tracked is still tracked or was reclaimed with a log entry, exactly the resources of
     running containers were marked, and the nodes left in the kernel are as isolated as before.
     */
    method DoLoop(cc: seq<SetDef>, round: Round) returns (ok: bool, removedShadows: seq<string>, ghost sweptAt: int)
      requires Valid()
      modifies metrics, clock, nodes, shadows, znodes
      ensures Valid() && clock.now >= old(clock.now) && old(nodes.log) <= nodes.log && old(shadows.log) <= shadows.log
      ensures znodes.steps >= old(znodes.steps)
      ensures ok <==> round.connected && (round.nodes.Some? && round.shadows.Some? ==> round.pods.Some?)
      ensures round.connected && round.nodes.Some? && round.shadows.Some? && round.pods.Some? ==>
                var ids := IdsOfPods(round.pods.value);
                && old(clock.now) <= sweptAt <= clock.now
                && RoundDone(old(nodes.entries), nodes.entries, old(nodes.log), nodes.log, nodes.limits,
                             round.nodes.value, NodesOf(ids), old(clock.now), sweptAt)
                && RoundDone(old(shadows.entries), shadows.entries, old(shadows.log), shadows.log, shadows.limits,
                             round.shadows.value, ShadowsOf(ids), old(clock.now), sweptAt)
                && (forall n :: n in removedShadows <==> HasDeletion(shadows.log, |old(shadows.log)|, n))
                && FlagsBy(old(metrics.csetmap), metrics.csetmap, IdSet(ids), DeletedSince(nodes.log, |old(nodes.log)|))
                && (forall id :: id in ids ==>
                      InUseAt(metrics.csetmap, cc, machineId, id)
                        || HasDeletion(nodes.log, |old(nodes.log)|, NodeOf(id)))
                && (DisjointDevs(old(metrics.csetmap)) ==>
                      Released(metrics.csetmap, DeletedSince(nodes.log, |old(nodes.log)|)))
                && (znodes.DestroysWork(old(znodes.steps)) ==>
                      forall n :: HasDeletion(nodes.log, |old(nodes.log)|, n) ==> n !in znodes.nodes)
      ensures !(round.connected && round.nodes.Some? && round.shadows.Some? && round.pods.Some?) ==>
                && znodes.nodes == old(znodes.nodes) && removedShadows == [] && metrics.csetmap == old(metrics.csetmap)
                && (forall k :: |old(nodes.log)| <= k < |nodes.log| ==> nodes.log[k].Added?)
                && (forall k :: |old(shadows.log)| <= k < |shadows.log| ==> shadows.log[k].Added?)
      ensures forall n :: n in znodes.nodes ==> n in old(znodes.nodes) && znodes.nodes[n] == old(znodes.nodes)[n]
      ensures forall n :: n in old(znodes.nodes) && n !in znodes.nodes ==> HasDeletion(nodes.log, |old(nodes.log)|, n)
      ensures Isolated(old(znodes.nodes)) ==> Isolated(znodes.nodes)
      ensures Confined(old(znodes.nodes)) ==> Confined(znodes.nodes)
      ensures OnlyFlagsDiffer(old(metrics.csetmap), metrics.csetmap)
    {
      sweptAt, removedShadows := clock.now, [];
      if !round.connected {
        return false, [], sweptAt;
      }
      if round.nodes.None? {
        return true, [], sweptAt;
      }
      nodes.NoteActive(round.nodes.value, clock);
      if round.shadows.None? {
        return true, [], sweptAt;
      }
      shadows.NoteActive(round.shadows.value, clock);
      if round.pods.None? {
        return false, [], sweptAt;
      }
      ghost var noted := Now();
      ghost var used;
      removedShadows, used := UseAndSweep(cc, round.pods.value);
      DestroyingKeepsIsolation(old(znodes.nodes), znodes.nodes);
      sweptAt := used.now;
      ok := true;
      ghost var ids := IdsOfPods(round.pods.value);
      TableOfRound(old(nodes.entries), noted.nodes, used.nodes, nodes.entries, old(nodes.log), noted.nodeLog,
                   used.nodeLog, nodes.log, nodes.limits, round.nodes.value, NodesOf(ids), old(clock.now), noted.now,
                   used.now);
      TableOfRound(old(shadows.entries), noted.shadows, used.shadows, shadows.entries, old(shadows.log),
                   noted.shadowLog, used.shadowLog, shadows.log, shadows.limits, round.shadows.value, ShadowsOf(ids),
                   old(clock.now), noted.now, used.now);
      FlagsOfRound(old(metrics.csetmap), used.metrics, metrics.csetmap, ids, used.nodes, nodes.entries, nodes.log,
                   |old(nodes.log)|);
      UseOfRound(old(metrics.csetmap), used.metrics, metrics.csetmap, cc, machineId, ids, used.nodes, nodes.entries,
                 nodes.log, |old(nodes.log)|);
    }
  }

  /** What a round did to one table, and that its deletions are those of its sweep. */
  lemma TableOfRound(e0: map<string, Entry>, e1: map<string, Entry>, e2: map<string, Entry>, e3: map<string, Entry>,
                     l0: Log, l1: Log, l2: Log, l3: Log, limits: AgeLimits, seen: seq<string>, used: set<string>,
                     begunAt: int, since: int, sweptAt: int)
    requires l0 <= l1 && e1.Keys == e0.Keys + set n | n in seen
    requires begunAt <= since <= sweptAt
    requires forall k :: |l0| <= k < |l1| ==> l1[k].Added? && l1[k].name in seen && begunAt <= l1[k].at
    requires Marks(e1, e2, l1, l2, used, since) && Swept(e2, e3, l2, l3, limits, sweptAt)
    ensures RoundDone(e0, e3, l0, l3, limits, seen, used, begunAt, sweptAt)
    ensures forall n :: HasDeletion(l3, |l0|, n) <==> n in e2 && n !in e3
  {
    RoundIsDone(e0, e1, e2, e3, l0, l1, l2, l3, limits, seen, used, begunAt, since, sweptAt);
    forall n
      ensures HasDeletion(l3, |l0|, n) <==> n in e2 && n !in e3
    {
      DeletionsOfRound(l0, l1, l2, l3, e2, e3, limits, used, e1, since, sweptAt, n);
    }
  }

  /**
     A round that took no longer than the limits reclaims only what was tracked before, overdue at its end and not in
     use.
   */
  lemma ReclaimedInShortRound(was: map<string, Entry>, now: map<string, Entry>, log: Log, log': Log, limits: AgeLimits,
                              seen: seq<string>, used: set<string>, begunAt: int, sweptAt: int, endedAt: int, n: string)
    requires RoundDone(was, now, log, log', limits, seen, used, begunAt, sweptAt)
    requires Agree(was, log) && Faithful(log', limits) && LoggedBy(log', endedAt)
    requires Seconds(begunAt, endedAt) <= limits.neverUsed && Seconds(begunAt, endedAt) <= limits.afterUse
    requires HasDeletion(log', |log|, n)
    ensures n in was && Overdue(was[n], limits, endedAt) && n !in used
  {
    var k := DeletionIn(was, now, log, log', limits, seen, used, begunAt, sweptAt, n);
    DeletionGoesBack(was, log, log', limits, k, begunAt, endedAt);
  }

  /** A deletion of a round; what is in use was marked before it. */
  lemma DeletionIn(was: map<string, Entry>, now: map<string, Entry>, log: Log, log': Log, limits: AgeLimits,
                   seen: seq<string>, used: set<string>, begunAt: int, sweptAt: int, n: string) returns (k: nat)
    requires RoundDone(was, now, log, log', limits, seen, used, begunAt, sweptAt) && HasDeletion(log', |log|, n)
    ensures log <= log' && |log| <= k < |log'| && log'[k].Deleted? && log'[k].name == n
    ensures forall i :: |log| <= i < |log'| ==> begunAt <= log'[i].at
    ensures n in was && n in used ==> exists m :: |log| <= m < k && log'[m].name == n
  {
    k :| |log| <= k < |log'| && log'[k].Deleted? && log'[k].name == n;
    if n in was && n in used {
      var m: nat :| |log| <= m < |log'| && log'[m].Marked? && log'[m].name == n;
      assert m < k;
    }
  }

  lemma DeletionGoesBack(was: map<string, Entry>, log: Log, log': Log, limits: AgeLimits, k: nat, begunAt: int,
                         endedAt: int)
    requires Agree(was, log) && Faithful(log', limits) && LoggedBy(log', endedAt) && log <= log'
    requires |log| <= k < |log'| && log'[k].Deleted? && forall i :: |log| <= i < |log'| ==> begunAt <= log'[i].at
    requires Seconds(begunAt, endedAt) <= limits.neverUsed && Seconds(begunAt, endedAt) <= limits.afterUse
    ensures log'[k].name in was && Overdue(was[log'[k].name], limits, endedAt)
    ensures forall i :: |log| <= i < k ==> log'[i].name != log'[k].name
  {
    assert log'[..|log|] == log;
    DeletedInShortPart(log', limits, |log|, k, begunAt, endedAt);
    var n := log'[k].name;
    assert Tracking.EntryOf(log, n) == if n in was then Some(was[n]) else None;
  }

  /** A round reclaims all that was tracked before and overdue when the sweep began, and is not in use. */
  lemma ReclaimedWhenOverdue(was: map<string, Entry>, now: map<string, Entry>, log: Log, log': Log, limits: AgeLimits,
                             seen: seq<string>, used: set<string>, begunAt: int, sweptAt: int, n: string)
    requires RoundDone(was, now, log, log', limits, seen, used, begunAt, sweptAt)
    requires Agree(was, log) && Agree(now, log') && Faithful(log', limits)
    requires n in was && Overdue(was[n], limits, sweptAt) && n !in used
    ensures HasDeletion(log', |log|, n)
  {
    assert log'[..|log|] == log && log'[..|log'|] == log';
    assert Tracking.EntryOf(log, n) == Some(was[n]);
    assert Tracking.EntryOf(log', n) == if n in now then Some(now[n]) else None;
    if !HasDeletion(log', |log|, n) {
      EntryKept(log', limits, |log|, |log'|, n);
    }
  }

  /** The flags after a round: set for what was used, then dropped for what was swept. */
  lemma FlagsOfRound(t: CsetTable, t1: CsetTable, t2: CsetTable, ids: seq<string>, was: map<string, Entry>,
                     now: map<string, Entry>,
                     log: Log, since: nat)
    requires FlagsBy(t, t1, IdSet(ids), {}) && FlagsBy(t1, t2, {}, was.Keys - now.Keys)
    requires forall n :: n in was && n !in now ==> HasDeletion(log, since, n)
    ensures FlagsBy(t, t2, IdSet(ids), DeletedSince(log, since))
  {
    forall n | n in was.Keys - now.Keys
      ensures n in DeletedSince(log, since)
    {
      var k :| since <= k < |log| && log[k].Deleted? && log[k].name == n;
    }
    FlagsCompose(t, t1, t2, IdSet(ids), {}, {}, was.Keys - now.Keys, IdSet(ids), DeletedSince(log, since));
  }

  /** What is in use after a round, and what is not. */
  lemma UseOfRound(t: CsetTable, t1: CsetTable, t2: CsetTable, cc: seq<SetDef>, machineId: string, ids: seq<string>,
                   was: map<string, Entry>, now: map<string, Entry>, log: Log, since: nat)
    requires FlagsBy(t, t1, IdSet(ids), {}) && AllInUse(t1, cc, machineId, IdSet(ids))
    requires ReleasedBy(t1, t2, was.Keys - now.Keys)
    requires forall n :: HasDeletion(log, since, n) <==> n in was && n !in now
    ensures forall id :: id in ids ==> InUseAt(t2, cc, machineId, id) || HasDeletion(log, since, NodeOf(id))
    ensures DisjointDevs(t) ==> Released(t2, DeletedSince(log, since))
  {
    forall id | id in ids
      ensures InUseAt(t2, cc, machineId, id) || HasDeletion(log, since, NodeOf(id))
    {
      assert id in IdSet(ids);
      InUseStays(t1, t2, {}, was.Keys - now.Keys, cc, machineId, id);
    }
    forall n | n in DeletedSince(log, since)
      ensures n in was.Keys - now.Keys
    {
      assert HasDeletion(log, since, n);
    }
    if DisjointDevs(t) {
      DisjointStays(t, t1);
    }
  }

  /** The deletions of a round are those of its sweep. */
  lemma DeletionsOfRound(l0: Log, l1: Log, l2: Log, l3: Log, e2: map<string, Entry>, e3: map<string, Entry>,
                         limits: AgeLimits,
                         used: set<string>, e1: map<string, Entry>, since: int, sweptAt: int, n: string)
    requires l0 <= l1 && forall k :: |l0| <= k < |l1| ==> l1[k].Added?
    requires Marks(e1, e2, l1, l2, used, since) && Swept(e2, e3, l2, l3, limits, sweptAt)
    ensures HasDeletion(l3, |l0|, n) <==> n in e2 && n !in e3
  {
    if HasDeletion(l3, |l0|, n) {
      var k :| |l0| <= k < |l3| && l3[k].Deleted? && l3[k].name == n;
      assert l1 <= l3 && l2 <= l3;
    }
  }

  lemma SweptEarlier(was: map<string, Entry>, now: map<string, Entry>, log: Log, log': Log, limits: AgeLimits,
                     since: int, since': int)
    requires Swept(was, now, log, log', limits, since') && since <= since'
    ensures Swept(was, now, log, log', limits, since)
  {
    forall n | n in now
      ensures !Overdue(now[n], limits, since)
    {
      NotOverdueEarlier(now[n], limits, since, since');
    }
  }

  /** What a completed round did to one of the two tables, in terms of the log it leaves. */
  ghost predicate RoundDone(was: map<string, Entry>, now: map<string, Entry>, log: Log, log': Log, limits: AgeLimits,
                            seen: seq<string>, used: set<string>, begunAt: int, sweptAt: int) {
    && log <= log' && begunAt <= sweptAt
    && (forall k :: |log| <= k < |log'| ==> begunAt <= log'[k].at)
    && (forall i, k :: |log| <= i < k < |log'| && log'[i].Deleted? ==> log'[k].Deleted?)
    && (forall n :: n in now ==> !Overdue(now[n], limits, sweptAt))
    && (forall n :: (n in was || n in seen) && n !in now ==> HasDeletion(log', |log|, n))
    && (forall n :: n in now ==> n in was || n in seen)
    && (forall n :: (n in was || n in seen) && n in used ==> HasMark(log', |log|, n))
    && (forall k :: |log| <= k < |log'| && log'[k].Added? ==> log'[k].name in seen)
    && (forall k :: |log| <= k < |log'| && log'[k].Marked? ==> log'[k].name in used)
    && (forall k :: |log| <= k < |log'| && log'[k].Deleted? ==> log'[k].name !in now)
  }

  /** Noting what is active, marking what is used and sweeping, one after the other. */
  lemma RoundIsDone(e0: map<string, Entry>, e1: map<string, Entry>, e2: map<string, Entry>, e3: map<string, Entry>,
                    l0: Log, l1: Log, l2: Log, l3: Log, limits: AgeLimits, seen: seq<string>, used: set<string>,
                    begunAt: int, since: int, sweptAt: int)
    requires l0 <= l1 && e1.Keys == e0.Keys + set n | n in seen
    requires begunAt <= since <= sweptAt
    requires forall k :: |l0| <= k < |l1| ==> l1[k].Added? && l1[k].name in seen && begunAt <= l1[k].at
    requires Marks(e1, e2, l1, l2, used, since)
    requires Swept(e2, e3, l2, l3, limits, sweptAt)
    ensures RoundDone(e0, e3, l0, l3, limits, seen, used, begunAt, sweptAt)
  {
    forall n | (n in e0 || n in seen) && n !in e3
      ensures HasDeletion(l3, |l0|, n)
    {
      var k :| |l2| <= k < |l3| && l3[k].Deleted? && l3[k].name == n;
    }
    forall n | (n in e0 || n in seen) && n in used
      ensures HasMark(l3, |l0|, n)
    {
      var k :| |l1| <= k < |l2| && l2[k].Marked? && l2[k].name == n;
      assert l3[k] == l2[k];
    }
    forall k | |l0| <= k < |l3|
      ensures l3[k].Added? ==> l3[k].name in seen
      ensures l3[k].Marked? ==> l3[k].name in used
      ensures l3[k].Deleted? ==> l3[k].name !in e3
    {
      if k < |l1| {
        assert l3[k] == l2[k] == l1[k];
      } else if k < |l2| {
        assert l3[k] == l2[k];
      }
    }
  }

  /**
     What a completed round means in terms of ages. Whatever is left was first seen no longer ago than the limit for
     what was never used, or last used no longer ago than the limit after use; what was tracked before, is not
     held and is older than that when the sweep begins is deleted.
   */
  lemma RoundInAges(was: map<string, Entry>, now: map<string, Entry>, log: Log, log': Log, limits: AgeLimits,
                    seen: seq<string>, used: set<string>, begunAt: int, sweptAt: int, n: string)
    requires RoundDone(was, now, log, log', limits, seen, used, begunAt, sweptAt)
    requires Agree(was, log) && Agree(now, log') && Faithful(log', limits)
    ensures n in now && now[n].last.None? ==> Seconds(now[n].first, sweptAt) <= limits.neverUsed
    ensures n in now && now[n].last.Some? ==> Seconds(now[n].last.value, sweptAt) <= limits.afterUse
    ensures n in was && n !in used && was[n].last.None? && Seconds(was[n].first, sweptAt) > limits.neverUsed ==>
              HasDeletion(log', |log|, n) && n !in now
    ensures n in was && n !in used && was[n].last.Some? && Seconds(was[n].last.value, sweptAt) > limits.afterUse ==>
              HasDeletion(log', |log|, n) && n !in now
  {
    if n in was && n !in used && Overdue(was[n], limits, sweptAt) {
      ReclaimedWhenOverdue(was, now, log, log', limits, seen, used, begunAt, sweptAt, n);
    }
  }

  /** The state a round works on. */
  datatype Snapshot = Snapshot(now: int, nodes: map<string, Entry>, nodeLog: Log, shadows: map<string, Entry>,
                               shadowLog: Log,
                               metrics: CsetTable)

  ghost function IdSet(ids: seq<string>): set<string> {
    set id | id in ids
  }

  ghost function NodesOf(ids: seq<string>): set<string> {
    set id | id in ids :: NodeOf(id)
  }

  ghost function ShadowsOf(ids: seq<string>): set<string> {
    set id | id in ids :: ShadowOf(id)
  }

  ghost predicate HasMark(log: Log, since: nat, name: string) {
    exists k :: since <= k < |log| && log[k].Marked? && log[k].name == name
  }

  /** Marking names: those tracked have been used since the given time, nothing else changed, and the log says so. */
  ghost predicate Marks(was: map<string, Entry>, now: map<string, Entry>, log: Log, log': Log, names: set<string>,
                        since: int) {
    && now.Keys == was.Keys
    && log <= log'
    && (forall n :: n in was && n in names ==>
          now[n].first == was[n].first && now[n].last.Some? && since <= now[n].last.value && HasMark(log', |log|, n))
    && (forall n :: n in was && n !in names ==> now[n] == was[n])
    && (forall k :: |log| <= k < |log'| ==> log'[k].Marked? && log'[k].name in names && since <= log'[k].at)
  }

  lemma MarkIsMarks(was: map<string, Entry>, now: map<string, Entry>, log: Log, log': Log, name: string, at: int,
                    since: int)
    requires since <= at
    requires name !in was ==> now == was && log' == log
    requires name in was ==> now == was[name := was[name].(last := Some(at))] && log' == log + [Marked(name, at)]
    ensures Marks(was, now, log, log', {name}, since)
  {
    if name in was {
      assert log'[|log|] == Marked(name, at);
    }
  }

  /** The devices with these ids were noted as used between two states. */
  ghost predicate Uses(cc: seq<SetDef>, machineId: string, s: Snapshot, s': Snapshot, ids: seq<string>) {
    && s.now <= s'.now
    && Marks(s.nodes, s'.nodes, s.nodeLog, s'.nodeLog, NodesOf(ids), s.now)
    && Marks(s.shadows, s'.shadows, s.shadowLog, s'.shadowLog, ShadowsOf(ids), s.now)
    && FlagsBy(s.metrics, s'.metrics, IdSet(ids), {}) && AllInUse(s'.metrics, cc, machineId, IdSet(ids))
  }

  lemma UseIsUses(cc: seq<SetDef>, machineId: string, s: Snapshot, s1: Snapshot, s2: Snapshot, id: string)
    requires s.now <= s1.now <= s2.now && FlagsBy(s.metrics, s1.metrics, {id}, {}) && s2.metrics == s1.metrics
    requires InUseAt(s1.metrics, cc, machineId, id)
    requires s1.nodes == s.nodes && s1.nodeLog == s.nodeLog && s1.shadows == s.shadows && s1.shadowLog == s.shadowLog
    requires Marks(s1.nodes, s2.nodes, s1.nodeLog, s2.nodeLog, {NodeOf(id)}, s1.now)
    requires Marks(s1.shadows, s2.shadows, s1.shadowLog, s2.shadowLog, {ShadowOf(id)}, s1.now)
    ensures Uses(cc, machineId, s, s2, [id])
  {
    assert IdSet([id]) == {id} && NodesOf([id]) == {NodeOf(id)} && ShadowsOf([id]) == {ShadowOf(id)};
  }

  lemma UsesNothing(cc: seq<SetDef>, machineId: string, s: Snapshot)
    ensures Uses(cc, machineId, s, s, [])
  {
  }

  lemma MarksCompose(e: map<string, Entry>, e1: map<string, Entry>, e2: map<string, Entry>, l: Log, l1: Log, l2: Log,
                     names1: set<string>, names2: set<string>, since: int, since1: int)
    requires Marks(e, e1, l, l1, names1, since) && Marks(e1, e2, l1, l2, names2, since1) && since <= since1
    ensures Marks(e, e2, l, l2, names1 + names2, since)
  {
    forall n | n in e && n in names1 + names2
      ensures HasMark(l2, |l|, n)
    {
      if n in names1 {
        var k :| |l| <= k < |l1| && l1[k].Marked? && l1[k].name == n;
        assert l2[k] == l1[k];
      } else {
        var k :| |l1| <= k < |l2| && l2[k].Marked? && l2[k].name == n;
      }
    }
  }

  lemma AllInUseGrows(t: CsetTable, t': CsetTable, cc: seq<SetDef>, machineId: string, ids1: seq<string>,
                      ids2: seq<string>)
    requires AllInUse(t, cc, machineId, IdSet(ids1)) && FlagsBy(t, t', IdSet(ids2), {})
    requires AllInUse(t', cc, machineId, IdSet(ids2))
    ensures AllInUse(t', cc, machineId, IdSet(ids1 + ids2))
  {
    forall id | id in IdSet(ids1 + ids2)
      ensures InUseAt(t', cc, machineId, id)
    {
      if id in ids1 {
        assert id in IdSet(ids1);
        InUseStays(t, t', IdSet(ids2), {}, cc, machineId, id);
      } else {
        assert id in IdSet(ids2);
      }
    }
  }

  lemma UsesCompose(cc: seq<SetDef>, machineId: string, s: Snapshot, s1: Snapshot, s2: Snapshot,
                    ids1: seq<string>, ids2: seq<string>)
    requires Uses(cc, machineId, s, s1, ids1) && Uses(cc, machineId, s1, s2, ids2)
    ensures Uses(cc, machineId, s, s2, ids1 + ids2)
  {
    assert NodesOf(ids1 + ids2) == NodesOf(ids1) + NodesOf(ids2);
    assert ShadowsOf(ids1 + ids2) == ShadowsOf(ids1) + ShadowsOf(ids2);
    AllInUseGrows(s1.metrics, s2.metrics, cc, machineId, ids1, ids2);
    FlagsCompose(s.metrics, s1.metrics, s2.metrics, IdSet(ids1), {}, IdSet(ids2), {}, IdSet(ids1 + ids2), {});
    MarksCompose(s.nodes, s1.nodes, s2.nodes, s.nodeLog, s1.nodeLog, s2.nodeLog, NodesOf(ids1), NodesOf(ids2), s.now,
                 s1.now);
    MarksCompose(s.shadows, s1.shadows, s2.shadows, s.shadowLog, s1.shadowLog, s2.shadowLog,
                 ShadowsOf(ids1), ShadowsOf(ids2), s.now, s1.now);
  }

  ghost function DeletedSince(log: Log, since: nat): set<string> {
    set k | since <= k < |log| && log[k].Deleted? :: log[k].name
  }

  ghost predicate HasDeletion(log: Log, since: nat, name: string) {
    exists k :: since <= k < |log| && log[k].Deleted? && log[k].name == name
  }

  /** A sweep that still has some names to do: the others were deleted with a log entry, or are within their limit. */
  ghost predicate SweptBut(was: map<string, Entry>, now: map<string, Entry>, log: Log, log': Log, limits: AgeLimits,
                           since: int, todo: set<string>) {
    && log <= log'
    && (forall n :: n in now ==> n in was && now[n] == was[n])
    && (forall n :: n in now && n !in todo ==> !Overdue(now[n], limits, since))
    && (forall n :: n in was && n !in now ==> HasDeletion(log', |log|, n))
    && (forall k :: |log| <= k < |log'| ==>
          log'[k].Deleted? && log'[k].name in was && log'[k].name !in now && since <= log'[k].at)
  }

  ghost predicate Swept(was: map<string, Entry>, now: map<string, Entry>, log: Log, log': Log, limits: AgeLimits,
                        since: int) {
    SweptBut(was, now, log, log', limits, since, {})
  }

  /** What is not expired now was not expired earlier. */
  lemma NotOverdueEarlier(e: Entry, limits: AgeLimits, t: int, t': int)
    requires t <= t' && !Overdue(e, limits, t')
    ensures !Overdue(e, limits, t)
  {
    SecondsMonotone(e.first, e.first, t, t');
    if e.last.Some? {
      SecondsMonotone(e.last.value, e.last.value, t, t');
    }
  }

  lemma SweptOneMore(was: map<string, Entry>, before: map<string, Entry>, after: map<string, Entry>, log: Log,
                     log1: Log, log2: Log,
                     limits: AgeLimits, since: int, now: int, todo: set<string>, name: string)
    requires SweptBut(was, before, log, log1, limits, since, todo) && name in before && since <= now
    requires after == (if Overdue(before[name], limits, now) then before - {name} else before)
    requires log2 == (if Overdue(before[name], limits, now) then log1 + [Deleted(name, now)] else log1)
    ensures SweptBut(was, after, log, log2, limits, since, todo - {name})
  {
    if !Overdue(before[name], limits, now) {
      NotOverdueEarlier(before[name], limits, since, now);
    }
    forall n | n in was && n !in after
      ensures HasDeletion(log2, |log|, n)
    {
      if n == name {
        assert log2[|log1|] == Deleted(name, now);
      } else {
        var k :| |log| <= k < |log1| && log1[k].Deleted? && log1[k].name == n;
        assert log2[k] == log1[k];
      }
    }
  }

  /** The kernel's nodes after a sweep: nothing new, and gone are only nodes dropped from the table. */
  ghost predicate Destroyed(was: NodeTable, now: NodeTable, tracked: map<string, Entry>, left: map<string, Entry>,
                            destroysWork: bool) {
    && (forall n :: n in now ==> n in was && now[n] == was[n])
    && (forall n :: n in was && n !in now ==> n in tracked && n !in left)
    && (destroysWork ==> forall n :: n in tracked && n !in left ==> n !in now)
  }

  lemma DestroyedOneMore(was: NodeTable, before: NodeTable, after: NodeTable, tracked: map<string, Entry>,
                         left: map<string, Entry>, left': map<string, Entry>, name: string, destroysWork: bool,
                         worked: bool)
    requires Destroyed(was, before, tracked, left, destroysWork)
    requires name in tracked && name in left && left' == left - {name}
    requires after == if worked then before - {name} else before
    requires destroysWork ==> worked
    ensures Destroyed(was, after, tracked, left', destroysWork)
  {
  }

  /** A sweep through the nodes that still has some names to do: its table, the kernel's nodes and the metrics. */
  ghost predicate Sweeping(s: Snapshot, kernel: NodeTable, s': Snapshot, kernel': NodeTable, limits: AgeLimits,
                           destroysWork: bool, todo: set<string>) {
    && s.now <= s'.now && s'.shadows == s.shadows && s'.shadowLog == s.shadowLog
    && SweptTable(s, kernel, s', kernel', limits, destroysWork, todo)
    && ReleasedBy(s.metrics, s'.metrics, s.nodes.Keys - s'.nodes.Keys)
  }

  ghost predicate SweptTable(s: Snapshot, kernel: NodeTable, s': Snapshot, kernel': NodeTable, limits: AgeLimits,
                             destroysWork: bool, todo: set<string>) {
    && SweptBut(s.nodes, s'.nodes, s.nodeLog, s'.nodeLog, limits, s.now, todo)
    && Destroyed(kernel, kernel', s.nodes, s'.nodes, destroysWork)
  }

  lemma SweepBegins(s: Snapshot, kernel: NodeTable, limits: AgeLimits, destroysWork: bool, todo: set<string>)
    requires todo == s.nodes.Keys
    ensures Sweeping(s, kernel, s, kernel, limits, destroysWork, todo)
  {
  }

  /** Only devices of these nodes were released, and, if no device stands in two sets, all of them. */
  ghost predicate ReleasedBy(t: CsetTable, t': CsetTable, names: set<string>) {
    FlagsBy(t, t', {}, names) && (DisjointDevs(t) ==> Released(t', names))
  }

  lemma ReleasedOneMore(t: CsetTable, t1: CsetTable, t2: CsetTable, before: set<string>, after: set<string>,
                        more: set<string>)
    requires ReleasedBy(t, t1, before) && ReleasedBy(t1, t2, more) && after == before + more
    ensures ReleasedBy(t, t2, after)
  {
    FlagsCompose(t, t1, t2, {}, before, {}, more, {}, after);
    if DisjointDevs(t) {
      DisjointStays(t, t1);
      ReleasedGrows(t1, t2, before, more);
    }
  }

  /** What sweeping one name does. */
  ghost predicate SweptName(s1: Snapshot, kernel1: NodeTable, s2: Snapshot, kernel2: NodeTable, limits: AgeLimits,
                            name: string, gone: bool, worked: bool) {
    && s1.now <= s2.now && s2.shadows == s1.shadows && s2.shadowLog == s1.shadowLog && name in s1.nodes
    && (gone <==> Overdue(s1.nodes[name], limits, s2.now))
    && s2.nodes == (if gone then s1.nodes - {name} else s1.nodes)
    && s2.nodeLog == (if gone then s1.nodeLog + [Deleted(name, s2.now)] else s1.nodeLog)
    && kernel2 == (if gone && worked then kernel1 - {name} else kernel1)
  }

  lemma TableOneMore(s: Snapshot, kernel: NodeTable, s1: Snapshot, kernel1: NodeTable, s2: Snapshot, kernel2: NodeTable,
                     limits: AgeLimits, work1: bool, work2: bool, todo: set<string>, name: string, gone: bool,
                     worked: bool)
    requires s.now <= s1.now && SweptTable(s, kernel, s1, kernel1, limits, work1, todo)
    requires SweptName(s1, kernel1, s2, kernel2, limits, name, gone, worked)
    requires work2 ==> work1 && (gone ==> worked)
    ensures SweptTable(s, kernel, s2, kernel2, limits, work2, todo - {name})
  {
    SweptOneMore(s.nodes, s1.nodes, s2.nodes, s.nodeLog, s1.nodeLog, s2.nodeLog, limits, s.now, s2.now, todo, name);
    if gone {
      DestroyedOneMore(kernel, kernel1, kernel2, s.nodes, s1.nodes, s2.nodes, name, work2, worked);
    }
  }

  lemma SweepingOneMore(s: Snapshot, kernel: NodeTable, s1: Snapshot, kernel1: NodeTable, s2: Snapshot,
                        kernel2: NodeTable,
                        limits: AgeLimits, work1: bool, work2: bool, todo: set<string>, name: string, gone: bool,
                        worked: bool)
    requires Sweeping(s, kernel, s1, kernel1, limits, work1, todo)
    requires SweptName(s1, kernel1, s2, kernel2, limits, name, gone, worked)
    requires ReleasedBy(s1.metrics, s2.metrics, if gone then {name} else {})
    requires work2 ==> work1 && (gone ==> worked)
    ensures Sweeping(s, kernel, s2, kernel2, limits, work2, todo - {name})
  {
    TableOneMore(s, kernel, s1, kernel1, s2, kernel2, limits, work1, work2, todo, name, gone, worked);
    assert s.nodes.Keys - s2.nodes.Keys == (s.nodes.Keys - s1.nodes.Keys) + if gone then {name} else {};
    ReleasedOneMore(s.metrics, s1.metrics, s2.metrics, s.nodes.Keys - s1.nodes.Keys, s.nodes.Keys - s2.nodes.Keys,
                    if gone then {name} else {});
  }

  /** Destroying nodes cannot break the isolation of those that remain. */
  lemma DestroyingKeepsIsolation(was: NodeTable, now: NodeTable)
    requires forall n :: n in now ==> n in was && now[n] == was[n]
    ensures Isolated(was) ==> Isolated(now)
    ensures Confined(was) ==> Confined(now)
  {
  }

  /** A plug-in's devices are recognised when a container lists them under their resource. */
  lemma AnnouncedAreHeld(setName: string, adapter: int, domain: int, index: int, ids: seq<string>)
    requires IsInt64(adapter) && IsInt64(domain) && IsInt64(index) && DeviceId(adapter, domain, index) in ids
    ensures Holding(ContainerDevices("cex.s390.ibm.com/" + setName, ids), DeviceId(adapter, domain, index))
  {
    RoundTrip(adapter, domain, index);
    var id := DeviceId(adapter, domain, index);
    assert id[..5] == "apqn-";
    assert ("cex.s390.ibm.com/" + setName)[..17] == "cex.s390.ibm.com/";
  }

  lemma HeldMeans(d: ContainerDevices, id: string)
    requires Holding(d, id)
    ensures |d.resourceName| >= 17 && d.resourceName[..17] == "cex.s390.ibm.com/"
    ensures id in d.ids && Scan(id).Some? && |id| >= 5 && id[..5] == "apqn-"
  {
  }
}
