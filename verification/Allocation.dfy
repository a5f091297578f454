/** Serving the kubelet's allocation requests: one device node and one shadow sysfs for each container. */
module Allocation {
  import opened Wrappers
  import opened DeviceIds
  import opened Zcrypt
  import opened Metrics

  datatype DeviceSpec = DeviceSpec(hostPath: string, containerPath: string, permissions: string)

  /** What is mounted over inside the container: the AP bus, the AP devices, or one live queue directory. */
  datatype Target = BusDir | DevicesDir | LiveQueue(adapter: int, domain: int)

  datatype Mount = Mount(target: Target, hostDir: string)

  datatype ContainerResponse = ContainerResponse(devices: seq<DeviceSpec>, mounts: seq<Mount>)

  const NO_DEVICE := ContainerResponse([], [])

  function NameOf(t: Triple): string {
    NodeName(t.adapter, t.domain, t.index)
  }

  function ShadowDir(id: string): string {
    "sysfs-" + id
  }

  /** A container's node, its shadow directories and, in live mode, its live queue. */
  function Response(znode: string, adapter: int, domain: int, shadowDir: string, livesysfs: int): ContainerResponse {
    ContainerResponse(
      [DeviceSpec("/dev/" + znode, "/dev/z90crypt", "rw")],
      [Mount(BusDir, shadowDir), Mount(DevicesDir, shadowDir)]
      + if livesysfs > 0 then [Mount(LiveQueue(adapter, domain), shadowDir)] else [])
  }

  function ResponseFor(id: string, t: Triple, livesysfs: int): ContainerResponse {
    Response(NameOf(t), t.adapter, t.domain, ShadowDir(id), livesysfs)
  }

  /** The first id of a request is a device id whose adapter and domain fit the masks. */
  predicate Servable(ids: seq<string>) {
    ids == [] || (Scan(ids[0]).Some? && IsBit(Scan(ids[0]).value.adapter) && IsBit(Scan(ids[0]).value.domain))
  }

  /** The nodes after a container was served. */
  function NodesServed(nodes: NodeTable, ids: seq<string>): NodeTable {
    if ids == [] || Scan(ids[0]).None? then nodes
    else
      var t := Scan(ids[0]).value;
      if NameOf(t) in nodes then nodes else nodes[NameOf(t) := FullNode(t.adapter, t.domain)]
  }

  ghost function MetricsServed(t: CsetTable, resource: string, ids: seq<string>, now: int): CsetTable {
    if ids == [] then t else MarkedInUse(t, resource, ids[0], now)
  }

  /**
     The nodes after a request failed: what was made of the node of its first id is left, unless the node was
     there before, or the destroying that ends every failed request worked.
   */
  ghost function NodesLeft(nodes: NodeTable, name: string, made: Option<Node>, destroyed: bool): NodeTable {
    if destroyed then nodes - {name}
    else if name in nodes || made.None? then nodes
    else nodes[name := made.value]
  }

  /** A node made for a queue gives access to no other. */
  ghost predicate ConfinedTo(made: Option<Node>, adapter: int, domain: int) {
    made.Some? ==> made.value.adapters <= {adapter} && made.value.domains <= {domain}
  }

  /** What is made of a node that is not seen at step s. */
  ghost function Made(z: ZcryptNodes, s: nat, adapter: int, domain: int): Option<Node> {
    z.NodeLeft(s + 1, adapter, domain)
  }

  /**
     All steps for a device that begin at step s work: its node is seen or can be made, so can its shadow and live
     mount.
   */
  ghost predicate DeviceServed(z: ZcryptNodes, nodes: NodeTable, s: nat, name: string, adapter: int, domain: int,
                               livesysfs: int, shadowWorks: bool, liveWorks: bool) {
    && NodeServed(z, nodes, s, name, adapter, domain)
    && shadowWorks && (livesysfs > 0 ==> liveWorks)
  }

  /** The device's node is seen or can be made. */
  ghost predicate NodeServed(z: ZcryptNodes, nodes: NodeTable, s: nat, name: string, adapter: int, domain: int) {
    (z.works(s) && name in nodes) || (name !in nodes && z.SimpleWorks(s + 1, adapter, domain))
  }

  /** Destroying a node that was made, or was there, leaves the others. */
  lemma DestroyLeaves(nodes: NodeTable, name: string, made: Option<Node>)
    ensures NodesLeft(nodes, name, made, false) - {name} == NodesLeft(nodes, name, made, true)
  {
  }

  /** The device node: found, or made. */
  method FindOrMakeNode(z: ZcryptNodes, znode: string, adapter: int, domain: int) returns (ok: bool)
    modifies z
    ensures z.steps > old(z.steps)
    ensures ok <==> NodeServed(z, old(z.nodes), old(z.steps), znode, adapter, domain)
    ensures ok ==>
              z.nodes == if znode in old(z.nodes) then old(z.nodes)
                else old(z.nodes)[znode := FullNode(adapter, domain)]
    ensures !ok ==>
              z.nodes == NodesLeft(old(z.nodes), znode, Made(z, old(z.steps), adapter, domain), z.destroys(z.steps - 1))
  {
    z.FullIffSimpleWorks(z.steps + 1, adapter, domain);
    ok := z.NodeExists(znode);
    if !ok {
      ok := z.CreateSimpleNode(znode, adapter, domain);
      if !ok {
        DestroyLeaves(old(z.nodes), znode, Made(z, old(z.steps), adapter, domain));
        z.DestroyNode(znode);
      }
    }
  }

  /** The device node, the shadow sysfs and the live mount of one device. */
  method AllocateDevice(z: ZcryptNodes, znode: string, adapter: int, domain: int, shadowDir: string, livesysfs: int,
                        shadowWorks: bool, liveWorks: bool) returns (rsp: Option<ContainerResponse>)
    modifies z
    ensures z.steps > old(z.steps)
    ensures rsp.Some? <==> DeviceServed(z, old(z.nodes), old(z.steps), znode, adapter, domain, livesysfs, shadowWorks,
                                        liveWorks)
    ensures rsp.Some? ==> rsp.value == Response(znode, adapter, domain, shadowDir, livesysfs)
    ensures rsp.Some? ==>
              z.nodes == if znode in old(z.nodes) then old(z.nodes)
                else old(z.nodes)[znode := FullNode(adapter, domain)]
    ensures rsp.None? ==>
              z.nodes == NodesLeft(old(z.nodes), znode, Made(z, old(z.steps), adapter, domain), z.destroys(z.steps - 1))
  {
    z.FullIffSimpleWorks(z.steps + 1, adapter, domain);
    var ready := FindOrMakeNode(z, znode, adapter, domain);
    if !ready {
      return None;
    }
    var devices := [DeviceSpec("/dev/" + znode, "/dev/z90crypt", "rw")];
    if !shadowWorks {
      z.DestroyNode(znode);
      return None;
    }
    var mounts := [Mount(BusDir, shadowDir), Mount(DevicesDir, shadowDir)];
    if livesysfs > 0 {
      if !liveWorks {
        z.DestroyNode(znode);
        return None;
      }
      mounts := mounts + [Mount(LiveQueue(adapter, domain), shadowDir)];
    }
    return Some(ContainerResponse(devices, mounts));
  }

  /**
     What comes of one container of a request, given what was made of its node and whether destroying it
     at the end worked.
   */
  ghost predicate ContainerOutcome(nodes: NodeTable, nodes': NodeTable, ids: seq<string>, livesysfs: int,
                                   made: Option<Node>, destroyed: bool, rsp: Option<ContainerResponse>) {
    if ids == [] then
      rsp == Some(NO_DEVICE) && nodes' == nodes
    else
      match Scan(ids[0])
      case None => rsp.None? && nodes' == nodes
      case Some(t) =>
        if rsp.Some? then rsp.value == ResponseFor(ids[0], t, livesysfs) && nodes' == NodesServed(nodes, ids)
        else nodes' == NodesLeft(nodes, NameOf(t), made, destroyed) && ConfinedTo(made, t.adapter, t.domain)
  }

  /** What is made of the node of a container's first id. */
  ghost function MadeFor(z: ZcryptNodes, s: nat, ids: seq<string>): Option<Node> {
    if ids == [] || Scan(ids[0]).None? then None
    else Made(z, s, Scan(ids[0]).value.adapter, Scan(ids[0]).value.domain)
  }

  ghost predicate ContainerServed(z: ZcryptNodes, nodes: NodeTable, s: nat, ids: seq<string>, livesysfs: int,
                                  shadowWorks: bool, liveWorks: bool) {
    ids == [] ||
    (Scan(ids[0]).Some? &&
     var t := Scan(ids[0]).value;
     DeviceServed(z, nodes, s, NameOf(t), t.adapter, t.domain, livesysfs, shadowWorks, liveWorks))
  }

  lemma AllWorkServes(z: ZcryptNodes, nodes: NodeTable, s: nat, ids: seq<string>, livesysfs: int)
    requires z.AllWork() && Servable(ids)
    ensures ContainerServed(z, nodes, s, ids, livesysfs, true, true)
  {
    z.AllWorkAppears(s + 2);
  }

  lemma MadeIsConfined(z: ZcryptNodes, s: nat, adapter: int, domain: int)
    ensures ConfinedTo(Made(z, s, adapter, domain), adapter, domain)
  {
  }

  /** Whether the step before the current one destroyed a node. */
  ghost predicate LastDestroyed(z: ZcryptNodes)
    reads z
  {
    z.steps > 0 && z.destroys(z.steps - 1)
  }

  /** Serves one container. Only its first device id counts. */
  method AllocateContainer(z: ZcryptNodes, metrics: MetricsColl, resource: string, livesysfs: int, ids: seq<string>,
                           shadowWorks: bool, liveWorks: bool, now: int) returns (rsp: Option<ContainerResponse>)
    modifies z, metrics
    ensures z.steps >= old(z.steps)
    ensures rsp.Some? <==> ContainerServed(z, old(z.nodes), old(z.steps), ids, livesysfs, shadowWorks, liveWorks)
    ensures ContainerOutcome(old(z.nodes), z.nodes, ids, livesysfs, MadeFor(z, old(z.steps), ids), LastDestroyed(z),
                             rsp)
    ensures rsp.None? && Scan(ids[0]).Some? ==> z.steps > old(z.steps)
    ensures metrics.csetmap ==
            if rsp.Some? then MetricsServed(old(metrics.csetmap), resource, ids, now) else old(metrics.csetmap)
  {
    if ids != [] && Scan(ids[0]).Some? {
      MadeIsConfined(z, z.steps, Scan(ids[0]).value.adapter, Scan(ids[0]).value.domain);
    }
    if |ids| == 0 {
      return Some(NO_DEVICE);
    }
    var id := ids[0];
    var scanned := Scan(id);
    if scanned.None? {
      return None;
    }
    var t := scanned.value;
    rsp := AllocateDevice(z, NameOf(t), t.adapter, t.domain, ShadowDir(id), livesysfs, shadowWorks, liveWorks);
    if rsp.Some? {
      metrics.MarkInUse(resource, id, now);
    }
  }

  lemma ServedKeepsIsolation(nodes: NodeTable, ids: seq<string>)
    ensures Isolated(nodes) ==> Isolated(NodesServed(nodes, ids))
    ensures Confined(nodes) ==> Confined(NodesServed(nodes, ids))
  {
    if ids != [] && Scan(ids[0]).Some? {
      var t := Scan(ids[0]).value;
      forall a, d, i | NodeName(a, d, i) == NameOf(t)
        ensures a == t.adapter && d == t.domain
      {
        NodeNameInjective(a, d, i, t.adapter, t.domain, t.index);
      }
    }
  }

  lemma NodeNameOf(t: Triple, a: int, d: int, i: int)
    requires NodeName(a, d, i) == NameOf(t)
    ensures a == t.adapter && d == t.domain && i == t.index
  {
    NodeNameInjective(a, d, i, t.adapter, t.domain, t.index);
  }

  /**
     A failed request for a device leaves isolated nodes isolated exactly when destroying the device's node worked,
     the node was there before, or it was not made at all or made completely. Confinement survives anyway.
   */
  lemma FailureKeepsIsolationIff(nodes: NodeTable, t: Triple, made: Option<Node>, destroyed: bool)
    requires ConfinedTo(made, t.adapter, t.domain)
    ensures var nodes' := NodesLeft(nodes, NameOf(t), made, destroyed);
            && (Confined(nodes) ==> Confined(nodes'))
            && (Isolated(nodes) ==>
                  (Isolated(nodes') <==>
                   destroyed || NameOf(t) in nodes || made.None? || made == Some(FullNode(t.adapter, t.domain))))
  {
    forall a, d, i | NodeName(a, d, i) == NameOf(t)
      ensures a == t.adapter && d == t.domain && i == t.index
    {
      NodeNameOf(t, a, d, i);
    }
    assert NodeName(t.adapter, t.domain, t.index) == NameOf(t);
  }

  /** A failed container leaves no half-made node. */
  ghost predicate CleanFailure(nodes: NodeTable, ids: seq<string>, made: Option<Node>, destroyed: bool)
    requires ids != []
  {
    match Scan(ids[0])
    case None => true
    case Some(t) => destroyed || NameOf(t) in nodes || made.None? || made == Some(FullNode(t.adapter, t.domain))
  }

  lemma OutcomeKeepsIsolation(nodes: NodeTable, nodes': NodeTable, ids: seq<string>, livesysfs: int,
                              made: Option<Node>, destroyed: bool, rsp: Option<ContainerResponse>)
    requires ContainerOutcome(nodes, nodes', ids, livesysfs, made, destroyed, rsp)
    ensures Confined(nodes) ==> Confined(nodes')
    ensures Isolated(nodes) ==> (Isolated(nodes') <==> rsp.Some? || CleanFailure(nodes, ids, made, destroyed))
  {
    if rsp.Some? {
      ServedKeepsIsolation(nodes, ids);
    } else if Scan(ids[0]).Some? {
      FailureKeepsIsolationIff(nodes, Scan(ids[0]).value, made, destroyed);
    }
  }

  /** The nodes after the first containers of a request were served. */
  function NodesServedAll(nodes: NodeTable, requests: seq<seq<string>>): NodeTable {
    if requests == [] then nodes
    else NodesServed(NodesServedAll(nodes, requests[..|requests| - 1]), requests[|requests| - 1])
  }

  ghost function MetricsServedAll(t: CsetTable, resource: string, requests: seq<seq<string>>, now: int): CsetTable {
    if requests == [] then t
    else MetricsServed(MetricsServedAll(t, resource, requests[..|requests| - 1], now), resource,
                       requests[|requests| - 1], now)
  }

  ghost predicate ServedAs(requests: seq<seq<string>>, livesysfs: int, rsp: seq<ContainerResponse>) {
    && |rsp| == |requests|
    && forall j :: 0 <= j < |rsp| ==>
         if requests[j] == [] then rsp[j] == NO_DEVICE
         else Scan(requests[j][0]).Some? && rsp[j] == ResponseFor(requests[j][0], Scan(requests[j][0]).value, livesysfs)
  }

  /**
     What a container is given for a device: its node as /dev/z90crypt and no other, the bus and the devices
     directory of its own shadow, and in live mode its own queue. The node reaches no other queue, and that one
     with all ioctls if it was made completely.
   */
  ghost predicate HandedOut(rsp: ContainerResponse, id: string, t: Triple, livesysfs: int, nodes: NodeTable,
                            complete: bool) {
    && |rsp.devices| == 1
    && rsp.devices[0].containerPath == "/dev/z90crypt" && rsp.devices[0].permissions == "rw"
    && (exists n :: n in nodes && rsp.devices[0].hostPath == "/dev/" + n
                    && nodes[n].adapters <= {t.adapter} && nodes[n].domains <= {t.domain}
                    && (complete ==> nodes[n].adapters == {t.adapter} && nodes[n].domains == {t.domain}
                                     && forall i :: i in nodes[n].ioctls <==> 0 <= i < 256))
    && |rsp.mounts| == (if livesysfs > 0 then 3 else 2)
    && rsp.mounts[0] == Mount(BusDir, "sysfs-" + id) && rsp.mounts[1] == Mount(DevicesDir, "sysfs-" + id)
    && (livesysfs > 0 ==> rsp.mounts[2] == Mount(LiveQueue(t.adapter, t.domain), "sysfs-" + id))
  }

  lemma ResponseGives(id: string, t: Triple, livesysfs: int, nodes: NodeTable)
    requires NameOf(t) in nodes && Confined(nodes)
    ensures HandedOut(ResponseFor(id, t, livesysfs), id, t, livesysfs, nodes, Isolated(nodes))
  {
    var n := NameOf(t);
    assert n == NodeName(t.adapter, t.domain, t.index);
    assert ResponseFor(id, t, livesysfs).devices[0].hostPath == "/dev/" + n;
  }

  lemma IsolatedIsConfined(nodes: NodeTable)
    requires Isolated(nodes)
    ensures Confined(nodes)
  {
  }

  /** Every answered container is given the node of its own device, or nothing if it asked for none. */
  lemma ServedAreGiven(nodes: NodeTable, requests: seq<seq<string>>, livesysfs: int, rsp: seq<ContainerResponse>)
    requires ServedAs(requests, livesysfs, rsp) && Confined(NodesServedAll(nodes, requests))
    ensures forall j :: 0 <= j < |rsp| && requests[j] == [] ==> rsp[j].devices == [] && rsp[j].mounts == []
    ensures forall j :: 0 <= j < |rsp| && requests[j] != [] ==>
              && Scan(requests[j][0]).Some?
              && HandedOut(rsp[j], requests[j][0], Scan(requests[j][0]).value, livesysfs,
                           NodesServedAll(nodes, requests), Isolated(NodesServedAll(nodes, requests)))
  {
    forall j | 0 <= j < |rsp| && requests[j] != []
      ensures HandedOut(rsp[j], requests[j][0], Scan(requests[j][0]).value, livesysfs, NodesServedAll(nodes, requests),
                    Isolated(NodesServedAll(nodes, requests)))
    {
      var t := Scan(requests[j][0]).value;
      ServedNodesExist(nodes, requests, j, t);
      ResponseGives(requests[j][0], t, livesysfs, NodesServedAll(nodes, requests));
    }
  }

  /** Serving marks every listed device that was handed out as in use since now. */
  lemma {:induction false} ServedAreInUse(t: CsetTable, resource: string, requests: seq<seq<string>>, now: int, j: nat)
    requires j < |requests| && requests[j] != [] && Scan(requests[j][0]).Some? && Holds(t, resource, requests[j][0])
    ensures var t' := MetricsServedAll(t, resource, requests, now);
            Holds(t', resource, requests[j][0]) &&
            t'[resource].plugindevs[requests[j][0]] == PluginDev(true, Some(now))
  {
    var n := |requests| - 1;
    ServedKeepsKeys(t, resource, requests[..n], now);
    if j == n {
    } else {
      ServedAreInUse(t, resource, requests[..n], now, j);
    }
  }

  /** Containers with devices of different queues, or different indices, are given different device files. */
  lemma DifferentDevicesDifferentFiles(id: string, t: Triple, id': string, t': Triple, livesysfs: int)
    requires ResponseFor(id, t, livesysfs).devices[0].hostPath == ResponseFor(id', t', livesysfs).devices[0].hostPath
    ensures t == t'
  {
    var p, p' := "/dev/" + NameOf(t), "/dev/" + NameOf(t');
    assert p[5..] == NameOf(t) && p'[5..] == NameOf(t');
    NodeNameInjective(t.adapter, t.domain, t.index, t'.adapter, t'.domain, t'.index);
  }

  /** Where an allocation request began. */
  datatype Call = Call(nodes: NodeTable, metrics: CsetTable, resource: string, now: int, livesysfs: int)

  /** Serving requests changes no set's lists. */
  lemma {:induction false} ServedKeepsKeys(t: CsetTable, resource: string, requests: seq<seq<string>>, now: int)
    ensures KeysKept(t, MetricsServedAll(t, resource, requests, now))
  {
    if requests == [] {
    } else {
      ServedKeepsKeys(t, resource, requests[..|requests| - 1], now);
    }
  }

  /** Container k, begun at step s, failed after those before it were served. */
  ghost predicate FailedAt(z: ZcryptNodes, t: CsetTable, c: Call, requests: seq<seq<string>>, k: nat, s: nat)
    reads z
  {
    && k < |requests| && requests[k] != []
    && t == MetricsServedAll(c.metrics, c.resource, requests[..k], c.now)
    && var before := NodesServedAll(c.nodes, requests[..k]);
    && var made := MadeFor(z, s, requests[k]);
    && ContainerOutcome(before, z.nodes, requests[k], c.livesysfs, made, LastDestroyed(z), None)
    && (Isolated(c.nodes) ==> (Isolated(z.nodes) <==> CleanFailure(before, requests[k], made, LastDestroyed(z))))
  }

  /**
     Serves all containers of a request, or none of them with a response. Whatever fails, no device
     node ever reaches another queue than its own. Every device node has exactly its adapter, its
     domain and all ioctls, exactly unless a container failed whose half-made node could not be destroyed.
   */
  method Allocate(z: ZcryptNodes, metrics: MetricsColl, resource: string, livesysfs: int, requests: seq<seq<string>>,
                  shadowWorks: nat -> bool, liveWorks: nat -> bool, now: int)
    returns (rsp: Option<seq<ContainerResponse>>)
    modifies z, metrics
    ensures z.steps >= old(z.steps)
    ensures Confined(old(z.nodes)) ==> Confined(z.nodes)
    ensures Isolated(old(z.nodes)) && z.DestroysWork(old(z.steps)) ==> Isolated(z.nodes)
    ensures KeysKept(old(metrics.csetmap), metrics.csetmap)
    ensures rsp.Some? ==>
              && ServedAs(requests, livesysfs, rsp.value)
              && z.nodes == NodesServedAll(old(z.nodes), requests)
              && metrics.csetmap == MetricsServedAll(old(metrics.csetmap), resource, requests, now)
              && (Isolated(old(z.nodes)) ==> Isolated(z.nodes))
    ensures rsp.Some? && Confined(old(z.nodes)) ==>
              forall j :: 0 <= j < |requests| ==>
                if requests[j] == [] then rsp.value[j].devices == [] && rsp.value[j].mounts == []
                else
                  && Scan(requests[j][0]).Some?
                  && HandedOut(rsp.value[j], requests[j][0], Scan(requests[j][0]).value, livesysfs, z.nodes,
                               Isolated(z.nodes))
    ensures rsp.None? ==>
              exists k: nat, s: nat :: old(z.steps) <= s <= z.steps
                && FailedAt(z, metrics.csetmap, Call(old(z.nodes), old(metrics.csetmap), resource, now, livesysfs),
                            requests, k, s)
    ensures z.AllWork() && (forall j :: 0 <= j < |requests| ==> Servable(requests[j]) && shadowWorks(j) && liveWorks(j))
            ==> rsp.Some?
  {
    var responses: seq<ContainerResponse> := [];
    ghost var call := Call(z.nodes, metrics.csetmap, resource, now, livesysfs);
    for i := 0 to |requests|
      invariant z.steps >= old(z.steps)
      invariant Progress(call, requests[..i], z.nodes, metrics.csetmap, responses)
    {
      ghost var nodes, steps := z.nodes, z.steps;
      var r := AllocateContainer(z, metrics, resource, livesysfs, requests[i], shadowWorks(i), liveWorks(i), now);
      if r.None? {
        ServedKeepsKeys(call.metrics, resource, requests[..i], now);
        FailureIsConfined(z, metrics.csetmap, call, requests, i, nodes, steps);
        if z.AllWork() && Servable(requests[i]) {
          AllWorkServes(z, nodes, steps, requests[i], livesysfs);
        }
        return None;
      }
      ProgressOneMore(call, requests, i, nodes, z.nodes, metrics.csetmap, responses,
                      MadeFor(z, steps, requests[i]), LastDestroyed(z), r.value);
      responses := responses + [r.value];
    }
    assert requests[..|requests|] == requests;
    ServedKeepsKeys(call.metrics, resource, requests, now);
    if Confined(call.nodes) {
      ServedAreGiven(call.nodes, requests, livesysfs, responses);
    }
    return Some(responses);
  }

  ghost predicate Progress(c: Call, served: seq<seq<string>>, nodes: NodeTable, t: CsetTable,
                           rsp: seq<ContainerResponse>) {
    && (Confined(c.nodes) ==> Confined(nodes))
    && (Isolated(c.nodes) ==> Isolated(nodes))
    && nodes == NodesServedAll(c.nodes, served)
    && t == MetricsServedAll(c.metrics, c.resource, served, c.now)
    && ServedAs(served, c.livesysfs, rsp)
  }

  lemma ProgressOneMore(c: Call, requests: seq<seq<string>>, i: nat, nodes: NodeTable, nodes': NodeTable, t': CsetTable,
                        rsp: seq<ContainerResponse>, made: Option<Node>, destroyed: bool, r: ContainerResponse)
    requires i < |requests|
    requires Progress(c, requests[..i], nodes, MetricsServedAll(c.metrics, c.resource, requests[..i], c.now), rsp)
    requires ContainerOutcome(nodes, nodes', requests[i], c.livesysfs, made, destroyed, Some(r))
    requires t' == MetricsServed(MetricsServedAll(c.metrics, c.resource, requests[..i], c.now), c.resource, requests[i],
                                 c.now)
    ensures Progress(c, requests[..i + 1], nodes', t', rsp + [r])
  {
    OutcomeKeepsIsolation(nodes, nodes', requests[i], c.livesysfs, made, destroyed, Some(r));
    ServedOneMore(c.nodes, c.metrics, requests[..i], requests[i], c.resource, c.now, c.livesysfs, rsp, r);
    assert requests[..i + 1] == requests[..i] + [requests[i]];
  }

  lemma FailureIsConfined(z: ZcryptNodes, t: CsetTable, c: Call, requests: seq<seq<string>>, k: nat, nodes: NodeTable,
                          s: nat)
    requires k < |requests| && nodes == NodesServedAll(c.nodes, requests[..k])
    requires (Confined(c.nodes) ==> Confined(nodes)) && (Isolated(c.nodes) ==> Isolated(nodes))
    requires ContainerOutcome(nodes, z.nodes, requests[k], c.livesysfs, MadeFor(z, s, requests[k]), LastDestroyed(z),
                              None)
    requires t == MetricsServedAll(c.metrics, c.resource, requests[..k], c.now)
    ensures Confined(c.nodes) ==> Confined(z.nodes)
    ensures FailedAt(z, t, c, requests, k, s)
    ensures Isolated(c.nodes) && (Scan(requests[k][0]).None? || LastDestroyed(z)) ==> Isolated(z.nodes)
  {
    OutcomeKeepsIsolation(nodes, z.nodes, requests[k], c.livesysfs, MadeFor(z, s, requests[k]), LastDestroyed(z), None);
  }

  lemma ServedOneMore(nodes: NodeTable, t: CsetTable, requests: seq<seq<string>>, ids: seq<string>, resource: string,
                      now: int,
                      livesysfs: int, rsp: seq<ContainerResponse>, r: ContainerResponse)
    requires ServedAs(requests, livesysfs, rsp)
    requires if ids == [] then r == NO_DEVICE
             else Scan(ids[0]).Some? && r == ResponseFor(ids[0], Scan(ids[0]).value, livesysfs)
    ensures NodesServedAll(nodes, requests + [ids]) == NodesServed(NodesServedAll(nodes, requests), ids)
    ensures MetricsServedAll(t, resource, requests + [ids], now)
         == MetricsServed(MetricsServedAll(t, resource, requests, now), resource, ids, now)
    ensures ServedAs(requests + [ids], livesysfs, rsp + [r])
  {
    assert (requests + [ids])[..|requests|] == requests;
  }

  lemma ServedGrows(nodes: NodeTable, ids: seq<string>, name: string)
    requires name in nodes
    ensures name in NodesServed(nodes, ids) && NodesServed(nodes, ids)[name] == nodes[name]
  {
  }

  lemma ServedExists(nodes: NodeTable, ids: seq<string>, t: Triple)
    requires ids != [] && Scan(ids[0]) == Some(t)
    ensures NameOf(t) in NodesServed(nodes, ids)
  {
  }

  /** A served request: every container with a device gets the node of its first id, and that node exists. */
  lemma {:induction false} ServedNodesExist(nodes: NodeTable, requests: seq<seq<string>>, j: nat, t: Triple)
    requires j < |requests| && requests[j] != [] && Scan(requests[j][0]) == Some(t)
    ensures NameOf(t) in NodesServedAll(nodes, requests)
  {
    var n := |requests| - 1;
    var init := requests[..n];
    if j < n {
      ServedNodesExist(nodes, init, j, t);
      ServedGrows(NodesServedAll(nodes, init), requests[n], NameOf(t));
    } else {
      ServedExists(NodesServedAll(nodes, init), requests[n], t);
    }
  }

  /** A served request leaves the nodes there were untouched and adds only those of its first ids. */
  lemma {:induction false} ServedNodesOnlyGrow(nodes: NodeTable, requests: seq<seq<string>>, name: string)
    ensures name in nodes ==>
              name in NodesServedAll(nodes, requests) && NodesServedAll(nodes, requests)[name] == nodes[name]
    ensures name in NodesServedAll(nodes, requests) ==>
              name in nodes ||
              exists j :: 0 <= j < |requests| && requests[j] != [] && Scan(requests[j][0]).Some?
                          && name == NameOf(Scan(requests[j][0]).value)
  {
    if requests == [] {
    } else {
      var n := |requests| - 1;
      var init := requests[..n];
      ServedNodesOnlyGrow(nodes, init, name);
      if name in NodesServedAll(nodes, init) && name !in nodes {
        var j :| 0 <= j < |init| && init[j] != [] && Scan(init[j][0]).Some? && name == NameOf(Scan(init[j][0]).value);
        assert requests[j] == init[j];
      }
    }
  }

  /**
     A device file that cannot be looked for while nothing can be destroyed: the request fails and leaves a
     node with empty masks, and the next request for the device hands that node out as it is.
   */
  method LeftoverIsHandedOut(metrics: MetricsColl, resource: string, adapter: int, domain: int, index: int)
    returns (z: ZcryptNodes, first: Option<ContainerResponse>, second: Option<ContainerResponse>)
    requires IsInt64(adapter) && IsInt64(domain) && IsInt64(index)
    modifies metrics
    ensures first.None? && z.nodes == map[NodeName(adapter, domain, index) := EMPTY_NODE]
    ensures second == Some(ResponseFor(DeviceId(adapter, domain, index), Triple(adapter, domain, index), 0))
    ensures !Isolated(z.nodes) && Confined(z.nodes)
  {
    z := new ZcryptNodes(n => true, n => StatError, n => false, map[]);
    var id := DeviceId(adapter, domain, index);
    var name := NodeName(adapter, domain, index);
    RoundTrip(adapter, domain, index);
    assert z.NodeLeft(1, adapter, domain) == Some(EMPTY_NODE);
    first := AllocateContainer(z, metrics, resource, 0, [id], true, true, 0);
    assert z.nodes == map[name := EMPTY_NODE];
    second := AllocateContainer(z, metrics, resource, 0, [id], true, true, 0);
    LeftoverIsNotIsolated(adapter, domain, index);
  }

  lemma LeftoverIsNotIsolated(adapter: int, domain: int, index: int)
    ensures var nodes := map[NodeName(adapter, domain, index) := EMPTY_NODE]; !Isolated(nodes) && Confined(nodes)
  {
    var nodes := map[NodeName(adapter, domain, index) := EMPTY_NODE];
    assert NodeName(adapter, domain, index) in nodes;
    assert adapter in FullNode(adapter, domain).adapters;
  }
}
