/**
 The plug-in of one config set: it keeps a cached config set with its tag, the APQNs it is given
 and the devices it announces, and refreshes them from time to time.
 */
module Plugin {
  import opened Wrappers
  import opened Apqns
  import opened CryptoConfig
  import opened ConfigWatcher
  import opened Partition
  import opened Metrics

  /** The APQNs of a set that may not exist. */
  function EligibleFor(def: Option<SetDef>, machineId: string, scan: seq<Apqn>): seq<Apqn> {
    if def.None? then [] else Eligible(def.value, machineId, scan)
  }

  /** How often each APQN is offered under a limit: at least once. */
  function Times(limit: int): nat {
    if limit >= 1 then limit else 1
  }

  /** How often each APQN of a set is to be offered. */
  function Copied(def: SetDef, env: Defaults): nat {
    Times(Effective(def.overcommit, env.overcommit))
  }

  /** The devices made from scratch from a config set and a scan. */
  function Recomputed(def: Option<SetDef>, env: Defaults, machineId: string, scan: seq<Apqn>): seq<Device> {
    if def.None? then [] else SetDevices(def.value, machineId, scan, Copied(def.value, env))
  }

  function DefOf(ccset: CryptoConfigSet?): Option<SetDef> {
    if ccset == null then None else Some(ccset.def)
  }

  function HealthyIds(devices: seq<Device>): seq<string> {
    if devices == [] then []
    else
      var d := devices[|devices| - 1];
      HealthyIds(devices[..|devices| - 1]) + if d.healthy then [d.id] else []
  }

  method FilterApqns(ccset: CryptoConfigSet?, machineId: string, scan: seq<Apqn>) returns (apqns: seq<Apqn>)
    ensures apqns == EligibleFor(DefOf(ccset), machineId, scan)
  {
    apqns := [];
    if ccset == null {
      return;
    }
    var def := ccset.def;
    for i := 0 to |scan|
      invariant apqns == Eligible(def, machineId, scan[..i])
    {
      var a := scan[i];
      for k := 0 to |def.apqns|
        invariant apqns == Eligible(def, machineId, scan[..i]) + Copies(def, machineId, a, def.apqns[..k])
      {
        var c := def.apqns[k];
        assert def.apqns[..k + 1][..k] == def.apqns[..k];
        if a.adapter != c.adapter || a.domain != c.domain {
          continue;
        }
        if |c.machineId| > 0 && machineId != c.machineId {
          continue;
        }
        if |def.minCexGen| > 0 && StringLess(a.gen, def.minCexGen) {
          continue;
        }
        apqns := apqns + [a];
      }
      assert def.apqns[..|def.apqns|] == def.apqns;
      assert scan[..i + 1][..i] == scan[..i];
    }
    assert scan[..|scan|] == scan;
  }

  method MakePluginDevs(ccset: CryptoConfigSet?, apqns: seq<Apqn>) returns (devices: seq<Device>)
    ensures ccset == null ==> devices == []
    ensures ccset != null ==> devices == DevicesFor(apqns, Times(ccset.overcommit))
    ensures ccset != null ==> Offers(apqns, if ccset.overcommit >= 1 then ccset.overcommit else 1, devices)
  {
    devices := [];
    if ccset == null {
      return;
    }
    var n := Max(1, ccset.overcommit);
    for k := 0 to |apqns|
      invariant devices == DevicesFor(apqns[..k], n)
    {
      var a := apqns[k];
      for i := 0 to n
        invariant devices == DevicesFor(apqns[..k], n) + Block(a, i)
      {
        devices := devices + [Device(DeviceIds.DeviceId(a.adapter, a.domain, i), a.online)];
      }
      assert apqns[..k + 1][..k] == apqns[..k];
    }
    assert apqns[..|apqns|] == apqns;
    DevicesOffer(apqns, n);
  }

  method CollectHealthyIds(devices: seq<Device>) returns (ids: seq<string>)
    ensures ids == HealthyIds(devices)
  {
    ids := [];
    for i := 0 to |devices|
      invariant ids == HealthyIds(devices[..i])
    {
      assert devices[..i + 1][..i] == devices[..i];
      if devices[i].healthy {
        ids := ids + [devices[i].id];
      }
    }
    assert devices[..|devices|] == devices;
  }

  /** Missing limits of the set are overwritten with the defaults. */
  method FillDefaults(s: CryptoConfigSet, env: Defaults)
    requires Filled(s, env) && ValidOptional(s.def.overcommit) && ValidOptional(s.def.livesysfs)
    modifies s
    ensures Normalised(s, env)
    ensures s.overcommit == if s.def.overcommit.Some? then s.def.overcommit.value else env.overcommit
    ensures s.livesysfs == if s.def.livesysfs.Some? then s.def.livesysfs.value else env.livesysfs
  {
    if s.overcommit < 0 {
      s.overcommit := env.overcommit;
    }
    if s.livesysfs < 0 {
      s.livesysfs := env.livesysfs;
    }
  }

  ghost predicate Normalised(s: CryptoConfigSet, env: Defaults)
    reads s
  {
    && s.overcommit == Effective(s.def.overcommit, env.overcommit)
    && s.livesysfs == Effective(s.def.livesysfs, env.livesysfs)
  }

  /** The limits differ from those of the set the plug-in used so far. */
  predicate LimitsDiffer(def: SetDef, env: Defaults, overcommit: int, livesysfs: int) {
    || Effective(def.overcommit, env.overcommit) != overcommit
    || Effective(def.livesysfs, env.livesysfs) != livesysfs
  }

  /** The metrics table of a resource lists exactly these APQNs and device ids, and keeps what it had of them. */
  ghost predicate MetricsTold(t: CsetTable, t': CsetTable, resource: string, apqns: seq<Apqn>,
                              devices: seq<Device>, read: Counters) {
    && resource in t'
    && OthersKept(t, t', resource)
    && t'[resource].apqns == SyncedApqns(EntryOf(t, resource).apqns, apqns, read)
    && t'[resource].plugindevs == SyncedDevs(EntryOf(t, resource).plugindevs, HealthyIds(devices))
  }

  ghost function HealthyIdSet(devices: seq<Device>): set<string> {
    set d | d in devices && d.healthy :: d.id
  }

  lemma {:induction false} HealthyIdsExactly(devices: seq<Device>, id: string)
    ensures id in HealthyIds(devices) <==> id in HealthyIdSet(devices)
  {
    if devices == [] {
      assert HealthyIdSet(devices) == {};
    } else {
      var init, d := devices[..|devices| - 1], devices[|devices| - 1];
      HealthyIdsExactly(init, id);
      assert devices == init + [d];
      assert HealthyIdSet(devices) == HealthyIdSet(init) + if d.healthy then {d.id} else {};
    }
  }

  /** The metrics table of a resource lists exactly these APQNs and the healthy ones of these devices. */
  ghost predicate Lists(t: CsetTable, resource: string, apqns: seq<Apqn>, devices: seq<Device>) {
    && resource in t
    && t[resource].plugindevs.Keys == HealthyIdSet(devices)
    && t[resource].apqns.Keys == Keys(apqns)
  }

  lemma ToldIsListed(t: CsetTable, t': CsetTable, resource: string, apqns: seq<Apqn>, devices: seq<Device>,
                     read: Counters)
    requires MetricsTold(t, t', resource, apqns, devices, read)
    ensures Lists(t', resource, apqns, devices)
  {
    forall id
      ensures id in t'[resource].plugindevs.Keys <==> id in HealthyIdSet(devices)
    {
      HealthyIdsExactly(devices, id);
    }
  }

  /**
     What else the metrics collector is told between two ticks: about containers, destroyed nodes, polls and other
     resources.
   */
  datatype Notice =
    | ContainerSeen(setName: string, dev: string, now: int)
    | NodeDestroyed(dev: string)
    | CountersPolled(times: string -> int, podListerInterval: nat, read: Counters)
    | Listing(setName: string, apqns: seq<Apqn>, ids: seq<string>, read: Counters)

  /** Only the plug-in of a resource lists its APQNs and devices. */
  predicate OthersOnly(notices: seq<Notice>, resource: string) {
    forall i :: 0 <= i < |notices| && notices[i].Listing? ==> notices[i].setName != resource
  }

  /** What the table lists for a resource. */
  ghost predicate ListsSame(t: CsetTable, t': CsetTable, resource: string) {
    resource in t ==>
      && resource in t'
      && t'[resource].plugindevs.Keys == t[resource].plugindevs.Keys
      && t'[resource].apqns.Keys == t[resource].apqns.Keys
  }

  lemma OthersKeptListsSame(t: CsetTable, t': CsetTable, setName: string, resource: string)
    requires OthersKept(t, t', setName) && setName != resource
    ensures ListsSame(t, t', resource)
  {
    if resource in t {
      assert resource in t - {setName};
      assert t[resource] == (t - {setName})[resource] && t'[resource] == (t' - {setName})[resource];
    }
  }

  /** One notice to the metrics collector; none but a resource's own listing changes what is listed for it. */
  method Deliver(metrics: MetricsColl, notice: Notice)
    modifies metrics
    ensures forall r :: OthersOnly([notice], r) ==> ListsSame(old(metrics.csetmap), metrics.csetmap, r)
  {
    match notice
    case ContainerSeen(setName, dev, now) => metrics.MarkInUse(setName, dev, now);
    case NodeDestroyed(dev) => metrics.NotifyAboutDestroyNode(dev);
    case CountersPolled(times, interval, read) =>
      metrics.Poll(times, interval, read);
      PollKeepsKeys(old(metrics.csetmap), metrics.csetmap, times, interval, read);
    case Listing(setName, apqns, ids, read) =>
      metrics.SyncApqns(setName, apqns, read);
      ghost var between := metrics.csetmap;
      metrics.SyncPluginDevs(setName, ids);
      forall r | OthersOnly([notice], r)
        ensures ListsSame(old(metrics.csetmap), metrics.csetmap, r)
      {
        assert [notice][0] == notice;
        OthersKeptListsSame(old(metrics.csetmap), between, setName, r);
        OthersKeptListsSame(between, metrics.csetmap, setName, r);
      }
  }

  method DeliverAll(metrics: MetricsColl, notices: seq<Notice>)
    modifies metrics
    ensures forall r :: OthersOnly(notices, r) ==> ListsSame(old(metrics.csetmap), metrics.csetmap, r)
  {
    for i := 0 to |notices|
      invariant forall r :: OthersOnly(notices, r) ==> ListsSame(old(metrics.csetmap), metrics.csetmap, r)
    {
      ghost var before := metrics.csetmap;
      Deliver(metrics, notices[i]);
      forall r | OthersOnly(notices, r)
        ensures ListsSame(old(metrics.csetmap), metrics.csetmap, r)
      {
        assert OthersOnly([notices[i]], r);
        assert ListsSame(old(metrics.csetmap), before, r);
      }
    }
  }

  /** One tick of the refresh loop: the looks at the config file and the notices since the last tick, and the scan. */
  datatype Tick = Tick(files: seq<FileRead>, notices: seq<Notice>, scan: Option<seq<Apqn>>, read: Counters)

  /** Which resource a plug-in serves, and where. */
  datatype Role = Role(resource: string, machineId: string, env: Defaults)

  /** What a plug-in works with: its tag, the limits stored in its cached set, its APQNs and its devices. */
  datatype View = View(tag: Option<Tag>, overcommit: int, livesysfs: int, apqns: seq<Apqn>, devices: seq<Device>)

  /** What a tick left behind. */
  datatype Refreshed = Refreshed(changed: bool, view: View)

  /**
     The refresh: everything is made from scratch after a reported change; else at most missing limits are filled in.
   */
  ghost function Refresh(r: Role, v: View, tag: Option<Tag>, scan: seq<Apqn>): Refreshed {
    var def := CurrentDef(r.resource, tag);
    var eligible := EligibleFor(def, r.machineId, scan);
    var had := CurrentDef(r.resource, v.tag).Some?;
    if MustReport(eligible, v.apqns, def, r.env, v.tag != tag, had, v.overcommit, v.livesysfs) then
      Refreshed(true, WithLimits(View(tag, 0, 0, eligible, Recomputed(def, r.env, r.machineId, scan)), def, r.env))
    else
      Refreshed(false, if v.tag == tag then WithLimits(v, def, r.env) else v)
  }

  function WithLimits(v: View, def: Option<SetDef>, env: Defaults): View {
    if def.None? then v
    else v.(overcommit := Effective(def.value.overcommit, env.overcommit),
            livesysfs := Effective(def.value.livesysfs, env.livesysfs))
  }

  ghost function AfterTick(r: Role, v: View, tag: Option<Tag>, scan: Option<seq<Apqn>>): Refreshed {
    if scan.None? then Refreshed(false, v) else Refresh(r, v, tag, scan.value)
  }

  /** From the first successful rescan on, the limits in use are those that hold for the set, changed or not. */
  lemma RescanMakesLimitsHold(r: Role, v: View, tag: Option<Tag>, scan: seq<Apqn>)
    requires CurrentDef(r.resource, tag).Some?
    ensures var def := CurrentDef(r.resource, tag).value;
            var v' := Refresh(r, v, tag, scan).view;
            && v'.overcommit == (if def.overcommit.Some? then def.overcommit.value else r.env.overcommit)
            && v'.livesysfs == (if def.livesysfs.Some? then def.livesysfs.value else r.env.livesysfs)
  {
    LimitsMean(CurrentDef(r.resource, tag).value.overcommit, r.env.overcommit);
    LimitsMean(CurrentDef(r.resource, tag).value.livesysfs, r.env.livesysfs);
  }

  /** How often a set's APQNs are to be offered: its own limit or else the default, but at least once. */
  lemma RecomputedOffers(def: SetDef, env: Defaults, machineId: string, scan: seq<Apqn>)
    ensures var limit := if def.overcommit.Some? then def.overcommit.value else env.overcommit;
            Offers(Eligible(def, machineId, scan), if limit >= 1 then limit else 1,
                   Recomputed(Some(def), env, machineId, scan))
  {
    DevicesOffer(Eligible(def, machineId, scan), Copied(def, env));
  }

  /**
     A refreshed plug-in, in terms of the file: each eligible APQN as often as the set's limit, or else the
     default, says.
   */
  lemma RefreshedOffers(r: Role, scan: seq<Apqn>, tag: Option<Tag>, devices: seq<Device>, reported: bool,
                        startOvercommit: int)
    requires Exact(r, scan, tag, devices, reported, startOvercommit)
    requires LimitUsed(r, scan, tag, reported, startOvercommit) && CurrentDef(r.resource, tag).Some?
    ensures var def := CurrentDef(r.resource, tag).value;
            var limit := if def.overcommit.Some? then def.overcommit.value else r.env.overcommit;
            Offers(Eligible(def, r.machineId, scan), if limit >= 1 then limit else 1, devices)
  {
    var def := CurrentDef(r.resource, tag).value;
    RecomputedOffers(def, r.env, r.machineId, scan);
    var again := Recomputed(Some(def), r.env, r.machineId, scan);
    SameDevices(devices, again);
    SameOffers(Eligible(def, r.machineId, scan), Copied(def, r.env), again, devices);
  }

  lemma SameOffers(l: seq<Apqn>, limit: nat, d1: seq<Device>, d2: seq<Device>)
    requires Offers(l, limit, d1) && |d1| == |d2| && forall d :: d in d1 <==> d in d2
    ensures Offers(l, limit, d2)
  {
  }

  /** Devices built for matching APQNs are those made from scratch exactly if each is offered as often. */
  lemma BuiltIsStillRecomputedIff(def: SetDef, env: Defaults, machineId: string, scan: seq<Apqn>, apqns: seq<Apqn>,
                                  built: nat)
    requires PairwiseCompatible(def) && DistinctQueues(scan) && Matches(Eligible(def, machineId, scan), apqns)
    ensures IsPermutation(DevicesFor(apqns, built), Recomputed(Some(def), env, machineId, scan)) <==>
            built == Copied(def, env) || Eligible(def, machineId, scan) == []
  {
    var eligible := Eligible(def, machineId, scan);
    EligibleExactly(def, machineId, scan);
    MatchesIsPermutation(eligible, apqns);
    DifferentCountDifferentDevices(eligible, Copied(def, env), apqns, built);
  }

  lemma SameDevices(d1: seq<Device>, d2: seq<Device>)
    requires IsPermutation(d1, d2)
    ensures |d1| == |d2| && forall d :: d in d1 <==> d in d2
  {
    assert |multiset(d1)| == |d1| && |multiset(d2)| == |d2|;
    assert forall d :: d in d1 <==> d in multiset(d1);
    assert forall d :: d in d2 <==> d in multiset(d2);
  }

  /** A second rescan that finds the same configuration and APQNs has nothing to report. */
  lemma RescanIsQuiet(r: Role, v: View, tag: Option<Tag>, scan: seq<Apqn>)
    requires DistinctQueues(scan)
    requires CurrentDef(r.resource, tag).Some? ==> PairwiseCompatible(CurrentDef(r.resource, tag).value)
    ensures var once := Refresh(r, v, tag, scan);
            Refresh(r, once.view, tag, scan) == Refreshed(false, once.view)
  {
    var def := CurrentDef(r.resource, tag);
    var eligible := EligibleFor(def, r.machineId, scan);
    if def.Some? {
      EligibleExactly(def.value, r.machineId, scan);
    }
    MatchesIsPermutation(eligible, eligible);
  }

  /**
     A set's stored live mode is the one that holds for the set exactly when a rescan has filled the default in, the
     file gives it, or the default is not live.
   */
  lemma StoredLiveModeHoldsIff(def: SetDef, env: Defaults, stored: int)
    requires ValidOptional(def.livesysfs) && stored in {Given(def.livesysfs), Effective(def.livesysfs, env.livesysfs)}
    ensures (stored > 0 <==> Effective(def.livesysfs, env.livesysfs) > 0) <==> stored >= 0 || env.livesysfs == 0
  {
  }

  /** The tag in force at tick k. */
  ghost function TagAt(tag: Option<Tag>, ticks: seq<Tick>, k: nat, isQualifiedName: string -> bool): Option<Tag>
    requires k <= |ticks|
  {
    if k == 0 then tag
    else TagAfter(TagAt(tag, ticks, k - 1, isQualifiedName), ticks[k - 1].files, isQualifiedName)
  }

  /** The refresh reports a change: other eligible APQNs, or other limits than those of the set used so far. */
  ghost predicate MustReport(eligible: seq<Apqn>, apqns: seq<Apqn>, def: Option<SetDef>, env: Defaults,
                             tagChanged: bool, hadSet: bool, overcommit: int, livesysfs: int) {
    || !Matches(eligible, apqns)
    || (def.Some? && tagChanged && (!hadSet || LimitsDiffer(def.value, env, overcommit, livesysfs)))
  }

  /** Devices built with a set's stored limit against those built with the limit that holds for it. */
  lemma BuiltIsRecomputedIff(def: SetDef, env: Defaults, machineId: string, scan: seq<Apqn>, stored: int)
    requires ValidOptional(def.overcommit)
    requires stored in {Given(def.overcommit), Effective(def.overcommit, env.overcommit)}
    ensures var l := Eligible(def, machineId, scan);
            IsPermutation(DevicesFor(l, Times(stored)), Recomputed(Some(def), env, machineId, scan)) <==>
            stored >= 0 || env.overcommit == 1 || l == []
  {
    var l := Eligible(def, machineId, scan);
    DifferentCountDifferentDevices(l, Times(stored), l, Copied(def, env));
  }

  /** The devices a start builds, for a set that may not exist. */
  lemma StartIsExactIff(def: Option<SetDef>, env: Defaults, machineId: string, scan: seq<Apqn>, stored: int,
                        apqns: seq<Apqn>, devices: seq<Device>)
    requires apqns == EligibleFor(def, machineId, scan)
    requires devices == if def.None? then [] else DevicesFor(apqns, Times(stored))
    requires def.Some? ==> ValidOptional(def.value.overcommit)
                           && stored in {Given(def.value.overcommit), Effective(def.value.overcommit, env.overcommit)}
    ensures IsPermutation(devices, Recomputed(def, env, machineId, scan)) <==>
            stored >= 0 || env.overcommit == 1 || apqns == []
  {
    if def.Some? {
      BuiltIsRecomputedIff(def.value, env, machineId, scan, stored);
    }
  }

  /**
     A set without a limit, a default limit of 2, and one APQN: a start, which builds with the stored
     limit of -1, does not announce what the default asks for.
   */
  lemma MissingLimitIsIgnoredAtStart()
    ensures var def := SetDef("s", "p", "", "", None, None, [ApqnDef(0, 0, "")]);
            var scan := [Apqn(0, 0, "cex7", "cca", true)];
            !IsPermutation(DevicesFor(Eligible(def, "m", scan), Times(Given(def.overcommit))),
                           Recomputed(Some(def), Limits(2, 1), "m", scan))
  {
    var def := SetDef("s", "p", "", "", None, None, [ApqnDef(0, 0, "")]);
    var a := Apqn(0, 0, "cex7", "cca", true);
    assert Takes(def, "m", a, def.apqns[0]);
    CopiesOfAssigned(def, "m", a);
    assert Eligible(def, "m", [a]) == [a];
    BuiltIsRecomputedIff(def, Limits(2, 1), "m", [a], -1);
  }

  /**
     The devices in use were built with the limit now stored for the set, or, as long as no change was reported, with
     the one stored at the start.
   */
  ghost predicate Consistent(def: SetDef, env: Defaults, overcommit: int, livesysfs: int, apqns: seq<Apqn>,
                             devices: seq<Device>, reported: bool, startOvercommit: int) {
    && ValidOptional(def.overcommit) && ValidOptional(def.livesysfs)
    && if reported then
         && overcommit == Effective(def.overcommit, env.overcommit)
         && livesysfs == Effective(def.livesysfs, env.livesysfs)
         && devices == DevicesFor(apqns, Times(overcommit))
       else
         && (overcommit == startOvercommit || (startOvercommit < 0 && overcommit == env.overcommit))
         && devices == DevicesFor(apqns, Times(startOvercommit))
  }

  class ResPlugin {
    const resource: string
    const machineId: string
    const env: Defaults
    const metrics: MetricsColl
    var ccset: CryptoConfigSet?
    var tag: Option<Tag>
    var apqns: seq<Apqn>
    var devices: seq<Device>

    /** The overcommit field of the cached set when the plug-in was started. */
    ghost var startOvercommit: int
    /** A change was reported since the plug-in was started. */
    ghost var reported: bool

    /** The cached set is the one of the tag's configuration; without one, there are no APQNs and no devices. */
    ghost predicate Valid()
      reads this, ccset
    {
      match CurrentDef(resource, tag)
      case None => ccset == null && apqns == [] && devices == []
      case Some(def) =>
        && ccset != null && ccset.def == def && Filled(ccset, env)
        && Consistent(def, env, ccset.overcommit, ccset.livesysfs, apqns, devices, reported, startOvercommit)
    }

    ghost function Current(): View
      reads this, ccset
    {
      View(tag, if ccset == null then 0 else ccset.overcommit, if ccset == null then 0 else ccset.livesysfs, apqns,
           devices)
    }

    ghost function Serves(): Role {
      Role(resource, machineId, env)
    }

    /** The metrics list exactly what the plug-in has. */
    ghost predicate Told()
      reads this, metrics
    {
      Lists(metrics.csetmap, resource, apqns, devices)
    }

    /** The set objects a refresh may overwrite: those of the plug-in's resource. */
    ghost function Own(w: Watcher): set<CryptoConfigSet>
      reads this, w
    {
      set s | s in Footprint(w) && s.def.setName == resource
    }

    /** The cached set object and all published ones. */
    ghost function Footprint(w: Watcher): set<CryptoConfigSet>
      reads this, w
    {
      (if ccset == null then {} else {ccset}) + (if w.cc.Some? then set s | s in w.cc.value else {})
    }

    /** A set object of the published configuration is cached under its tag. */
    ghost predicate Attached(w: Watcher)
      reads this, ccset, w
    {
      Valid() && w.env == env && (ccset != null && w.cc.Some? && ccset in w.cc.value ==> tag == w.tag)
    }

    /** The plug-in together with the watcher. */
    ghost predicate Wired(w: Watcher)
      reads this, w, Footprint(w)
    {
      w.Valid() && Attached(w)
    }

    constructor (resource: string, machineId: string, metrics: MetricsColl, w: Watcher)
      requires w.Valid()
      ensures Wired(w) && this.resource == resource && this.machineId == machineId
      ensures this.metrics == metrics && env == w.env
      ensures tag == w.tag && apqns == [] && devices == [] && !reported
    {
      this.resource, this.machineId, this.metrics, this.env := resource, machineId, metrics, w.env;
      apqns, devices, reported := [], [], false;
      var current, currentTag := w.GetCurrentCryptoConfigSet(null, resource, None);
      ccset, tag := current, currentTag;
      startOvercommit := if current == null then 0 else current.overcommit;
      new;
      CurrentSetIsVerified(w, resource);
    }

    method TellMetrics(read: Counters)
      modifies metrics
      ensures MetricsTold(old(metrics.csetmap), metrics.csetmap, resource, apqns, devices, read) && Told()
    {
      metrics.SyncApqns(resource, apqns, read);
      var ids := CollectHealthyIds(devices);
      metrics.SyncPluginDevs(resource, ids);
      ToldIsListed(old(metrics.csetmap), metrics.csetmap, resource, apqns, devices, read);
    }

    /** The APQNs of a scan, and the devices under the current set's stored limit. */
    method ScanAndBuild(scan: seq<Apqn>)
      requires Valid()
      modifies `apqns, `devices, `startOvercommit, `reported
      ensures Valid() && !reported && startOvercommit == (if ccset == null then 0 else ccset.overcommit)
      ensures apqns == EligibleFor(DefOf(ccset), machineId, scan)
      ensures ccset == null ==> devices == []
      ensures ccset != null ==> devices == DevicesFor(apqns, Times(ccset.overcommit))
    {
      apqns := FilterApqns(ccset, machineId, scan);
      devices := MakePluginDevs(ccset, apqns);
      startOvercommit := if ccset == null then 0 else ccset.overcommit;
      reported := false;
    }

    /**
     The first scan. The devices are those made from scratch, up to one case: a set without an
     overcommit limit is offered once per APQN, even when the default limit is higher.
     */
    method Start(scan: Option<seq<Apqn>>, read: Counters) returns (ok: bool)
      requires Valid()
      modifies `apqns, `devices, `startOvercommit, `reported, metrics
      ensures Valid()
      ensures ok <==> scan.Some?
      ensures !ok ==> apqns == old(apqns) && devices == old(devices) && metrics.csetmap == old(metrics.csetmap)
      ensures !ok ==> reported == old(reported) && startOvercommit == old(startOvercommit)
      ensures ok ==> !reported && startOvercommit == (if ccset == null then 0 else ccset.overcommit)
      ensures ok ==> apqns == EligibleFor(DefOf(ccset), machineId, scan.value)
      ensures ok ==> MetricsTold(old(metrics.csetmap), metrics.csetmap, resource, apqns, devices, read) && Told()
      ensures ok ==> (IsPermutation(devices, Recomputed(DefOf(ccset), env, machineId, scan.value)) <==>
                      startOvercommit >= 0 || env.overcommit == 1 || apqns == [])
    {
      if scan.None? {
        return false;
      }
      ScanAndBuild(scan.value);
      StartIsExactIff(DefOf(ccset), env, machineId, scan.value, startOvercommit, apqns, devices);
      TellMetrics(read);
      return true;
    }

    /**
     The rescan. A change is reported exactly when the eligible APQNs or the limits differ from
     those in use. Whether or not one is reported, the devices are then, in some order, those made
     from scratch from the current configuration and the scan; the one exception is a set started
     without an overcommit limit under a default above 1 for which no change was reported yet.
     */
    method CheckChanged(w: Watcher, scan: Option<seq<Apqn>>, read: Counters) returns (changed: bool)
      requires Wired(w)
      modifies this, metrics, Own(w)
      ensures Wired(w) && w.cc == old(w.cc) && w.tag == old(w.tag)
      ensures forall s :: s in Own(w) ==> s in old(Own(w))
      ensures startOvercommit == old(startOvercommit) && (reported <==> old(reported) || changed)
      ensures scan.None? ==> !changed && forall s :: s in Own(w) ==>
                s.overcommit == old(s.overcommit) && s.livesysfs == old(s.livesysfs)
      ensures Refreshed(changed, Current()) == AfterTick(Serves(), old(Current()), w.tag, scan)
      ensures scan.Some? && DistinctQueues(scan.value) ==>
                Exact(Serves(), scan.value, w.tag, devices, reported, startOvercommit)
      ensures changed ==> MetricsTold(old(metrics.csetmap), metrics.csetmap, resource, apqns, devices, read)
      ensures old(Told()) || changed ==> Told()
      ensures !changed ==> ccset == old(ccset) && tag == old(tag) && apqns == old(apqns) && devices == old(devices)
      ensures !changed ==> metrics.csetmap == old(metrics.csetmap)
    {
      changed := false;
      if scan.Some? {
        var current, eligible;
        current, eligible, changed := DetectChange(w, scan.value);
        if changed {
          Adopt(w, current, scan.value, eligible, read);
        } else if DistinctQueues(scan.value) {
          UnreportedIsRecomputed(w, scan.value, eligible);
        }
      }
    }

    /**
       The set a refresh works with: the cached one when its tag is current, else one of the published configuration.
     */
    method FindCurrent(w: Watcher) returns (current: CryptoConfigSet?)
      requires Wired(w)
      ensures current != null ==> current in Footprint(w)
      ensures Describes(current, resource, w.tag, env)
      ensures current != null ==> ValidOptional(current.def.overcommit) && ValidOptional(current.def.livesysfs)
      ensures tag == w.tag ==> current == ccset
      ensures tag != w.tag && current != null ==> current != ccset
    {
      var currentTag;
      current, currentTag := w.GetCurrentCryptoConfigSet(ccset, resource, tag);
      CurrentSetIsVerified(w, resource);
    }

    /** Fills in the limits of the current set, which may be the very one that is cached. */
    method FillCurrent(w: Watcher, current: CryptoConfigSet?)
      requires Wired(w) && Describes(current, resource, w.tag, env)
      requires current != null ==> current in Footprint(w)
      requires current != null ==> ValidOptional(current.def.overcommit) && ValidOptional(current.def.livesysfs)
      modifies Own(w)
      ensures Wired(w) && Describes(current, resource, w.tag, env)
      ensures current != null ==> Normalised(current, env)
      ensures ccset != null && ccset != current ==>
                ccset.overcommit == old(ccset.overcommit) && ccset.livesysfs == old(ccset.livesysfs)
    {
      if current != null {
        FillDefaults(current, env);
      }
    }

    /** The first half of the rescan: the current set, its limits filled in, and the comparison with what is in use. */
    method DetectChange(w: Watcher, scan: seq<Apqn>)
      returns (current: CryptoConfigSet?, eligible: seq<Apqn>, changed: bool)
      requires Wired(w)
      modifies Own(w)
      ensures Wired(w)
      ensures current != null ==> current in Footprint(w)
      ensures Describes(current, resource, w.tag, env)
      ensures current != null ==> Normalised(current, env)
      ensures tag == w.tag ==> current == ccset
      ensures tag != w.tag && current != null ==> current != ccset
      ensures eligible == EligibleFor(CurrentDef(resource, w.tag), machineId, scan)
      ensures changed <==> MustReport(eligible, apqns, CurrentDef(resource, w.tag), env, tag != w.tag, ccset != null,
                                      old(if ccset == null then 0 else ccset.overcommit),
                                      old(if ccset == null then 0 else ccset.livesysfs))
      ensures !changed && current != null ==> ccset != null && ccset.overcommit == current.overcommit
      ensures ccset != null && ccset != current ==>
                ccset.overcommit == old(ccset.overcommit) && ccset.livesysfs == old(ccset.livesysfs)
    {
      current := FindCurrent(w);
      eligible := FilterApqns(current, machineId, scan);
      var same := EqualLists(eligible, apqns);
      FillCurrent(w, current);
      var configChanged := current != null &&
        (ccset == null || current.overcommit != ccset.overcommit || current.livesysfs != ccset.livesysfs);
      changed := !same || configChanged;
    }

    /** The second half when a change was found: the new set, tag, APQNs and devices, and the notices to the metrics. */
    method Adopt(w: Watcher, current: CryptoConfigSet?, scan: seq<Apqn>, eligible: seq<Apqn>, read: Counters)
      requires w.Valid() && w.env == env && Describes(current, resource, w.tag, env)
      requires current != null ==> Normalised(current, env)
      requires eligible == EligibleFor(CurrentDef(resource, w.tag), machineId, scan)
      modifies this, metrics
      ensures Wired(w) && reported && startOvercommit == old(startOvercommit)
      ensures ccset == current && tag == w.tag && apqns == eligible
      ensures devices == Recomputed(CurrentDef(resource, w.tag), env, machineId, scan)
      ensures MetricsTold(old(metrics.csetmap), metrics.csetmap, resource, apqns, devices, read) && Told()
    {
      CurrentSetIsVerified(w, resource);
      ccset, tag := current, w.tag;
      apqns := eligible;
      devices := MakePluginDevs(ccset, apqns);
      TellMetrics(read);
      reported := true;
    }

    /** Stopping clears the APQNs and the devices, and tells the metrics collector so. */
    method ClearOnStop(read: Counters)
      requires Valid()
      modifies `apqns, `devices, metrics
      ensures Valid() && apqns == [] && devices == []
      ensures MetricsTold(old(metrics.csetmap), metrics.csetmap, resource, [], [], read) && Told()
    {
      apqns, devices := [], [];
      TellMetrics(read);
    }

    /** What a plug-in announces: each of its APQNs as often as the limit says that its devices were built with. */
    lemma DevicesAreOffered()
      requires Valid() && ccset != null
      ensures var limit := if reported then ccset.overcommit else startOvercommit;
              Offers(apqns, if limit >= 1 then limit else 1, devices)
    {
      DevicesOffer(apqns, Times(if reported then ccset.overcommit else startOvercommit));
    }

    /** Definitions of a published configuration were verified. */
    lemma CurrentSetIsVerified(w: Watcher, name: string)
      requires w.Valid()
      ensures var def := CurrentDef(name, w.tag);
              def.Some? ==> ValidOptional(def.value.overcommit) && ValidOptional(def.value.livesysfs)
                            && PairwiseCompatible(def.value)
    {
      var def := CurrentDef(name, w.tag);
      if def.Some? {
        var defs := w.tag.value.file.parsed.value;
        var i :| 0 <= i < |defs| && defs[i] == def.value;
        assert ValidSet(defs, i, w.isQualifiedName);
        VerifiedIsPairwiseCompatible(defs, w.isQualifiedName, i);
      }
    }

    /** After a rescan that found no change, the devices in use against those made from scratch. */
    lemma UnreportedIsRecomputed(w: Watcher, scan: seq<Apqn>, eligible: seq<Apqn>)
      requires Wired(w) && DistinctQueues(scan)
      requires eligible == EligibleFor(CurrentDef(resource, w.tag), machineId, scan)
      requires Matches(eligible, apqns)
      requires CurrentDef(resource, w.tag).Some? ==>
                 && ccset != null
                 && ccset.overcommit == Effective(CurrentDef(resource, w.tag).value.overcommit, env.overcommit)
      ensures IsPermutation(devices, Recomputed(CurrentDef(resource, w.tag), env, machineId, scan)) <==>
              reported || startOvercommit >= 0 || env.overcommit == 1 || eligible == []
    {
      var def := CurrentDef(resource, w.tag);
      CurrentSetIsVerified(w, resource);
      if def.Some? {
        BuiltIsStillRecomputedIff(def.value, env, machineId, scan, apqns,
                                  Times(if reported then ccset.overcommit else startOvercommit));
      } else {
        MatchesIsPermutation(eligible, apqns);
        assert |apqns| == 0;
      }
    }
  }

  /** The published configuration is as before, or consists of new set objects. */
  twostate predicate KeptOrNew(w: Watcher)
    reads w
  {
    || (w.cc == old(w.cc) && w.tag == old(w.tag))
    || (w.cc.Some? ==> forall i :: 0 <= i < |w.cc.value| ==> fresh(w.cc.value[i]))
  }

  method UpdateAll(w: Watcher, files: seq<FileRead>)
    requires w.Valid()
    modifies w
    ensures w.Valid()
    ensures w.tag == TagAfter(old(w.tag), files, w.isQualifiedName)
    ensures KeptOrNew(w)
  {
    for i := 0 to |files|
      invariant w.Valid()
      invariant w.tag == TagAfter(old(w.tag), files[..i], w.isQualifiedName)
      invariant KeptOrNew(w)
    {
      assert files[..i + 1][..i] == files[..i];
      var ok := w.UpdateConfig(files[i].file, files[i].readable);
    }
    assert files[..|files|] == files;
  }

  /** After any looks the last of which finds an unacceptable file, every plug-in's lookup finds no set. */
  method LookupAfterBadFile(w: Watcher, files: seq<FileRead>, ccset: CryptoConfigSet?, resource: string,
                            cctag: Option<Tag>) returns (current: CryptoConfigSet?)
    requires w.Valid() && Describes(ccset, resource, cctag, w.env) && files != []
    requires var last := files[|files| - 1].file;
             last.Some? && (last.value.parsed.None? || !Verified(last.value.parsed.value, w.isQualifiedName))
    modifies w
    ensures current == null && w.cc.None? && w.tag.None?
  {
    LastLookCounts(w.tag, files, w.isQualifiedName);
    UpdateAll(w, files);
    var tag;
    current, tag := w.GetCurrentCryptoConfigSet(ccset, resource, cctag);
  }

  /** The looks at the configuration file and the notices since the last tick, and the rescan. */
  method OneTick(p: ResPlugin, w: Watcher, tick: Tick) returns (changed: bool)
    requires p.Wired(w) && OthersOnly(tick.notices, p.resource)
    modifies p, w, p.metrics, p.Own(w)
    ensures p.Wired(w) && forall s :: s in p.Own(w) ==> s in old(p.Own(w)) || fresh(s)
    ensures w.tag == TagAfter(old(w.tag), tick.files, w.isQualifiedName)
    ensures p.startOvercommit == old(p.startOvercommit) && (p.reported <==> old(p.reported) || changed)
    ensures Refreshed(changed, p.Current()) == AfterTick(p.Serves(), old(p.Current()), w.tag, tick.scan)
    ensures tick.scan.Some? && DistinctQueues(tick.scan.value) ==>
              Exact(p.Serves(), tick.scan.value, w.tag, p.devices, p.reported, p.startOvercommit)
    ensures old(p.Told()) || changed ==> p.Told()
    ensures KeptOrNew(w)
    ensures OtherListsSame(old(p.metrics.csetmap), p.metrics.csetmap, p.resource, tick.notices)
  {
    UpdateAll(w, tick.files);
    DeliverAll(p.metrics, tick.notices);
    ghost var told := p.metrics.csetmap;
    changed := p.CheckChanged(w, tick.scan, tick.read);
    OtherListsStay(old(p.metrics.csetmap), told, p.metrics.csetmap, p.resource, tick.notices);
  }

  /** No other resource's lists differ, unless a notice was a listing of its own. */
  ghost predicate OtherListsSame(t: CsetTable, t': CsetTable, resource: string, notices: seq<Notice>) {
    forall r :: r != resource && OthersOnly(notices, r) ==> ListsSame(t, t', r)
  }

  lemma OtherListsStay(t: CsetTable, t1: CsetTable, t2: CsetTable, resource: string, notices: seq<Notice>)
    requires forall r :: OthersOnly(notices, r) ==> ListsSame(t, t1, r)
    requires t2 == t1 || OthersKept(t1, t2, resource)
    ensures OtherListsSame(t, t2, resource, notices)
  {
    forall r | r != resource && OthersOnly(notices, r)
      ensures ListsSame(t, t2, r)
    {
      if t2 != t1 {
        OthersKeptListsSame(t1, t2, resource, r);
      }
    }
  }

  /**
     The devices are those made from scratch, in some order, exactly unless they were built once with a missing limit.
   */
  ghost predicate Exact(r: Role, scan: seq<Apqn>, tag: Option<Tag>, devices: seq<Device>, reported: bool,
                        startOvercommit: int) {
    IsPermutation(devices, Recomputed(CurrentDef(r.resource, tag), r.env, r.machineId, scan)) <==>
    LimitUsed(r, scan, tag, reported, startOvercommit)
  }

  /** The devices were built with the limit that holds for the set, or it makes no difference. */
  ghost predicate LimitUsed(r: Role, scan: seq<Apqn>, tag: Option<Tag>, reported: bool, startOvercommit: int) {
    || reported || startOvercommit >= 0 || r.env.overcommit == 1
    || EligibleFor(CurrentDef(r.resource, tag), r.machineId, scan) == []
  }

  /**
     The refresh loop over any run of configuration changes, scans and notices of others. Every tick does what the
     refresh of the state before it, the configuration in force and the scan determine. The lists announced are
     those of the ticks that had to report a change, and the last of them, or else the one the loop
     began with, is the one in use. After every tick with a successful scan the devices are those made from
     scratch, in some order, exactly when a change was reported so far, the set was started with an
     overcommit limit, the default limit is 1, or there is nothing to announce. Metrics tables that listed
     the plug-in's APQNs and devices still do.
   */
  method CheckChangedLoop(p: ResPlugin, w: Watcher, ticks: seq<Tick>)
    returns (announced: seq<seq<Device>>, ghost log: seq<Refreshed>)
    requires p.Wired(w) && forall i :: 0 <= i < |ticks| ==> OthersOnly(ticks[i].notices, p.resource)
    modifies p, w, p.metrics, p.Own(w)
    ensures p.Wired(w) && forall s :: s in p.Own(w) ==> s in old(p.Own(w)) || fresh(s)
    ensures |log| == |ticks| && announced == Announcements(log)
    ensures LogExact(Run(p.Serves(), w.isQualifiedName, old(w.tag), old(p.Current()), old(p.reported),
                         old(p.startOvercommit)), ticks, log)
    ensures p.Current() == LastView(old(p.Current()), log)
    ensures p.devices == if announced == [] then old(p.devices) else announced[|announced| - 1]
    ensures old(p.Told()) || announced != [] ==> p.Told()
  {
    ghost var run := Run(p.Serves(), w.isQualifiedName, w.tag, p.Current(), p.reported, p.startOvercommit);
    announced, log := [], [];
    RunBegins(run, ticks);
    for i := 0 to |ticks|
      invariant p.Wired(w) && forall s :: s in p.Own(w) ==> s in old(p.Own(w)) || fresh(s)
      invariant p.startOvercommit == old(p.startOvercommit) && |log| == i
      invariant Ran(run, ticks, log, announced, p.Current(), w.tag, p.reported)
      invariant old(p.Told()) || announced != [] ==> p.Told()
    {
      announced, log := LoggedTick(p, w, ticks, i, announced, run, log);
    }
  }

  /** One tick of a run: a change that is reported is announced. */
  method LoggedTick(p: ResPlugin, w: Watcher, ticks: seq<Tick>, i: nat, was: seq<seq<Device>>, ghost run: Run,
                    ghost before: seq<Refreshed>)
    returns (announced: seq<seq<Device>>, ghost log: seq<Refreshed>)
    requires p.Wired(w) && |before| == i < |ticks| && OthersOnly(ticks[i].notices, p.resource)
    requires run.role == p.Serves() && run.isQualifiedName == w.isQualifiedName
    requires run.startOvercommit == p.startOvercommit
    requires Ran(run, ticks, before, was, p.Current(), w.tag, p.reported)
    modifies p, w, p.metrics, p.Own(w)
    ensures p.Wired(w) && forall s :: s in p.Own(w) ==> s in old(p.Own(w)) || fresh(s)
    ensures p.startOvercommit == old(p.startOvercommit) && |log| == i + 1
    ensures Ran(run, ticks, log, announced, p.Current(), w.tag, p.reported)
    ensures old(p.Told()) || announced != was ==> p.Told()
  {
    ghost var view, tag, reported := p.Current(), w.tag, p.reported;
    var changed := OneTick(p, w, ticks[i]);
    ghost var r := Refreshed(changed, p.Current());
    RanOneMore(run, ticks, before, was, view, tag, reported, r, w.tag, p.reported);
    log, announced := before + [r], was;
    if changed {
      announced := announced + [p.devices];
    }
  }

  /** The state of a run after the ticks of a log. */
  ghost predicate Ran(run: Run, ticks: seq<Tick>, log: seq<Refreshed>, announced: seq<seq<Device>>,
                      view: View, tag: Option<Tag>, reported: bool) {
    && LogExact(run, ticks, log)
    && announced == Announcements(log)
    && view == LastView(run.view, log)
    && tag == TagAt(run.tag, ticks, |log|, run.isQualifiedName)
    && (reported <==> run.reported || AnyChanged(log, |log|))
    && view.devices == if announced == [] then run.view.devices else announced[|announced| - 1]
  }

  lemma RunBegins(run: Run, ticks: seq<Tick>)
    ensures Ran(run, ticks, [], [], run.view, run.tag, run.reported)
  {
  }

  /** One more tick that does what the refresh specifies is exact. */
  lemma LastIsExact(run: Run, ticks: seq<Tick>, log: seq<Refreshed>, view: View, r: Refreshed, tag': Option<Tag>)
    requires |log| < |ticks| && view == LastView(run.view, log)
    requires tag' == TagAt(run.tag, ticks, |log| + 1, run.isQualifiedName)
    requires r == AfterTick(run.role, view, tag', ticks[|log|].scan)
    requires var scan := ticks[|log|].scan;
             scan.Some? && DistinctQueues(scan.value) ==>
               Exact(run.role, scan.value, tag', r.view.devices,
                     run.reported || AnyChanged(log, |log|) || r.changed, run.startOvercommit)
    ensures ExactAt(run, ticks, log + [r], |log|)
  {
    LogGrows(log, r);
  }

  lemma RanOneMore(run: Run, ticks: seq<Tick>, log: seq<Refreshed>, announced: seq<seq<Device>>, view: View,
                   tag: Option<Tag>, reported: bool, r: Refreshed, tag': Option<Tag>, reported': bool)
    requires Ran(run, ticks, log, announced, view, tag, reported) && |log| < |ticks|
    requires tag' == TagAfter(tag, ticks[|log|].files, run.isQualifiedName)
    requires r == AfterTick(run.role, view, tag', ticks[|log|].scan)
    requires reported' <==> reported || r.changed
    requires var scan := ticks[|log|].scan;
             scan.Some? && DistinctQueues(scan.value) ==>
               Exact(run.role, scan.value, tag', r.view.devices, reported', run.startOvercommit)
    ensures Ran(run, ticks, log + [r], if r.changed then announced + [r.view.devices] else announced, r.view, tag',
                reported')
  {
    LogGrows(log, r);
    LastIsExact(run, ticks, log, view, r, tag');
    LogStaysExact(run, ticks, log, r);
    QuietKeepsDevices(run.role, view, tag', ticks[|log|].scan);
  }

  /** A tick that reports nothing leaves the devices as they are. */
  lemma QuietKeepsDevices(r: Role, v: View, tag: Option<Tag>, scan: Option<seq<Apqn>>)
    ensures !AfterTick(r, v, tag, scan).changed ==> AfterTick(r, v, tag, scan).view.devices == v.devices
  {
  }

  /** How a run of the refresh loop begins. */
  datatype Run = Run(role: Role, isQualifiedName: string -> bool, tag: Option<Tag>, view: View, reported: bool,
                     startOvercommit: int)

  /** What the plug-in works with after the ticks of a log. */
  function LastView(view: View, log: seq<Refreshed>): View {
    if log == [] then view else log[|log| - 1].view
  }

  /**
     What tick k did, and the devices after it against the configuration in force and the scan. A tick that reports
     no change leaves APQNs and devices as they are.
   */
  ghost predicate ExactAt(run: Run, ticks: seq<Tick>, log: seq<Refreshed>, k: nat)
    requires k < |log| <= |ticks|
  {
    var tag := TagAt(run.tag, ticks, k + 1, run.isQualifiedName);
    && log[k] == AfterTick(run.role, LastView(run.view, log[..k]), tag, ticks[k].scan)
    && (ticks[k].scan.Some? && DistinctQueues(ticks[k].scan.value) ==>
          Exact(run.role, ticks[k].scan.value, tag, log[k].view.devices, run.reported || AnyChanged(log, k + 1),
                run.startOvercommit))
  }

  ghost predicate LogExact(run: Run, ticks: seq<Tick>, log: seq<Refreshed>) {
    |log| <= |ticks| && forall k :: 0 <= k < |log| ==> ExactAt(run, ticks, log, k)
  }

  lemma LogStaysExact(run: Run, ticks: seq<Tick>, log: seq<Refreshed>, r: Refreshed)
    requires LogExact(run, ticks, log) && |log| < |ticks|
    requires ExactAt(run, ticks, log + [r], |log|)
    ensures LogExact(run, ticks, log + [r])
  {
    var log' := log + [r];
    LogGrows(log, r);
    forall k | 0 <= k < |log'|
      ensures ExactAt(run, ticks, log', k)
    {
      if k < |log| {
        assert ExactAt(run, ticks, log, k);
        assert log'[k] == log[k] && log'[..k] == log[..k];
        assert AnyChanged(log', k + 1) <==> AnyChanged(log, k + 1);
      }
    }
  }

  lemma LogGrows(log: seq<Refreshed>, r: Refreshed)
    ensures Announcements(log + [r]) == Announcements(log) + if r.changed then [r.view.devices] else []
    ensures AnyChanged(log + [r], |log| + 1) <==> AnyChanged(log, |log|) || r.changed
    ensures forall k :: 0 <= k <= |log| ==> (AnyChanged(log + [r], k) <==> AnyChanged(log, k))
    ensures (log + [r])[..|log|] == log
  {
    var log' := log + [r];
    assert log'[..|log|] == log;
    if r.changed {
      assert log'[|log|].changed;
    }
    forall k | 0 <= k <= |log| && AnyChanged(log, k)
      ensures AnyChanged(log', k)
    {
      var n :| 0 <= n < k && log[n].changed;
      assert log'[n].changed;
    }
  }

  ghost predicate AnyChanged(log: seq<Refreshed>, n: nat)
    requires n <= |log|
  {
    exists k :: 0 <= k < n && log[k].changed
  }

  /** The device lists at the ticks that reported a change. */
  ghost function Announcements(log: seq<Refreshed>): seq<seq<Device>> {
    if log == [] then []
    else
      var r := log[|log| - 1];
      Announcements(log[..|log| - 1]) + if r.changed then [r.view.devices] else []
  }
}
