/** All plug-ins of a node at work: they share the watcher and the metrics, and each serves its own resource. */
module NodeLoop {
  import opened Wrappers
  import opened Apqns
  import opened CryptoConfig
  import opened ConfigWatcher
  import opened Partition
  import opened Metrics
  import opened Plugin
  import opened EndToEnd

  ghost predicate Separate(plugins: seq<ResPlugin>) {
    forall i, j :: 0 <= i < j < |plugins| ==> plugins[i] != plugins[j] && plugins[i].resource != plugins[j].resource
  }

  ghost predicate AllAttached(plugins: seq<ResPlugin>, w: Watcher)
    reads *
  {
    forall i :: 0 <= i < |plugins| ==> plugins[i].Attached(w)
  }

  /** The set objects the plug-ins may overwrite. */
  ghost function AllOwn(plugins: seq<ResPlugin>, w: Watcher): set<CryptoConfigSet>
    reads *
  {
    set p, s | p in plugins && s in p.Own(w) :: s
  }

  /** All that a plug-in and its set object hold. */
  datatype Snap = Snap(ccset: CryptoConfigSet?, view: View, reported: bool, startOvercommit: int)

  ghost function SnapOf(q: ResPlugin): Snap
    reads q, q.ccset
  {
    Snap(q.ccset, q.Current(), q.reported, q.startOvercommit)
  }

  ghost function Snaps(plugins: seq<ResPlugin>): (snaps: seq<Snap>)
    reads *
    ensures |snaps| == |plugins| && forall i :: 0 <= i < |plugins| ==> snaps[i] == SnapOf(plugins[i])
  {
    if plugins == [] then [] else Snaps(plugins[..|plugins| - 1]) + [SnapOf(plugins[|plugins| - 1])]
  }

  /** Being attached, in terms of what a plug-in holds. */
  ghost predicate AttachedAs(s: Snap, resource: string, env: Defaults, cc: Option<seq<CryptoConfigSet>>,
                             tag: Option<Tag>) {
    && (match CurrentDef(resource, s.view.tag)
        case None => s.ccset == null && s.view.apqns == [] && s.view.devices == []
        case Some(def) =>
          && s.ccset != null && s.ccset.def == def
          && s.view.overcommit in {Given(def.overcommit), Effective(def.overcommit, env.overcommit)}
          && s.view.livesysfs in {Given(def.livesysfs), Effective(def.livesysfs, env.livesysfs)}
          && Consistent(def, env, s.view.overcommit, s.view.livesysfs, s.view.apqns, s.view.devices, s.reported,
                        s.startOvercommit))
    && (s.ccset != null && cc.Some? && s.ccset in cc.value ==> s.view.tag == tag)
  }

  lemma AttachedIff(q: ResPlugin, w: Watcher)
    requires w.env == q.env
    ensures q.Attached(w) <==> AttachedAs(SnapOf(q), q.resource, q.env, w.cc, w.tag)
  {
  }

  /** A plug-in that keeps what it has stays attached when the configuration is kept or made of other set objects. */
  lemma StaysAttached(s: Snap, resource: string, env: Defaults, cc: Option<seq<CryptoConfigSet>>, tag: Option<Tag>,
                      cc': Option<seq<CryptoConfigSet>>, tag': Option<Tag>)
    requires AttachedAs(s, resource, env, cc, tag)
    requires (cc' == cc && tag' == tag) || s.ccset == null || cc'.None? || s.ccset !in cc'.value
    ensures AttachedAs(s, resource, env, cc', tag')
  {
  }

  datatype Event =
    | Starting(who: nat, scan: Option<seq<Apqn>>, read: Counters)
    | Ticking(who: nat, tick: Tick)

  /** The event is one of these plug-ins', and no notice in it lists a resource of theirs. */
  ghost predicate Fitting(plugins: seq<ResPlugin>, event: Event) {
    && event.who < |plugins|
    && (event.Ticking? ==> forall i :: 0 <= i < |plugins| ==> OthersOnly(event.tick.notices, plugins[i].resource))
  }

  /** What a plug-in's last successful rescan looked at. */
  datatype Look = Look(tag: Option<Tag>, scan: seq<Apqn>)

  ghost function TagNow(tag: Option<Tag>, events: seq<Event>, isQualifiedName: string -> bool): Option<Tag> {
    if events == [] then tag
    else
      var before := TagNow(tag, events[..|events| - 1], isQualifiedName);
      var event := events[|events| - 1];
      if event.Ticking? then TagAfter(before, event.tick.files, isQualifiedName) else before
  }

  /** The looks after one more event, under the tag then in force. */
  function NextLooks(looks: seq<Option<Look>>, event: Event, tag: Option<Tag>): (r: seq<Option<Look>>)
    ensures |r| == |looks|
  {
    if event.who >= |looks| then looks
    else match event
    case Starting(who, scan, _) => if scan.Some? then looks[who := None] else looks
    case Ticking(who, tick) => if tick.scan.Some? then looks[who := Some(Look(tag, tick.scan.value))] else looks
  }

  function NoLooks(n: nat): (r: seq<Option<Look>>)
    ensures |r| == n && forall i :: 0 <= i < n ==> r[i] == None
  {
    seq(n, _ => None)
  }

  ghost function LooksAfter(n: nat, tag: Option<Tag>, events: seq<Event>, isQualifiedName: string -> bool)
    : (r: seq<Option<Look>>)
    ensures |r| == n
  {
    if events == [] then NoLooks(n)
    else
      NextLooks(LooksAfter(n, tag, events[..|events| - 1], isQualifiedName), events[|events| - 1],
                TagNow(tag, events, isQualifiedName))
  }

  /** A plug-in's devices against what it looked at last. */
  ghost predicate ExactAs(r: Role, s: Snap, look: Option<Look>) {
    look.Some? && DistinctQueues(look.value.scan) ==>
      Exact(r, look.value.scan, look.value.tag, s.view.devices, s.reported, s.startOvercommit)
  }

  /** The metrics list exactly what a plug-in has. */
  ghost predicate ToldAs(t: CsetTable, resource: string, s: Snap) {
    Lists(t, resource, s.view.apqns, s.view.devices)
  }

  /** A start of plug-in i that could scan is among the events. */
  ghost predicate Started(events: seq<Event>, i: nat) {
    exists k :: 0 <= k < |events| && events[k].Starting? && events[k].who == i && events[k].scan.Some?
  }

  /** What a tick does to the plug-in whose tick it is. */
  ghost predicate Ticked(r: Role, s: Snap, s': Snap, changed: bool, tag: Option<Tag>, tick: Tick) {
    && Refreshed(changed, s'.view) == AfterTick(r, s.view, tag, tick.scan)
    && s'.startOvercommit == s.startOvercommit && (s'.reported <==> s.reported || changed)
    && (tick.scan.Some? && DistinctQueues(tick.scan.value) ==>
          Exact(r, tick.scan.value, tag, s'.view.devices, s'.reported, s'.startOvercommit))
  }

  /**
     The plug-ins after some events: exact against their last looks, and told to the metrics if they were before or
     started since.
   */
  ghost predicate Running(roles: seq<Role>, snaps: seq<Snap>, t: CsetTable, looks: seq<Option<Look>>, told: set<nat>) {
    && |snaps| == |looks| == |roles|
    && forall i :: 0 <= i < |roles| ==>
         ExactAs(roles[i], snaps[i], looks[i]) && (i in told ==> ToldAs(t, roles[i].resource, snaps[i]))
  }

  /** Only plug-in j's snap differs, and only its resource's lists. */
  ghost predicate OnlyOf(roles: seq<Role>, snaps: seq<Snap>, snaps': seq<Snap>, t: CsetTable, t': CsetTable, j: nat) {
    && j < |roles| == |snaps| == |snaps'|
    && forall i :: 0 <= i < |roles| && i != j ==> snaps'[i] == snaps[i] && ListsSame(t, t', roles[i].resource)
  }

  lemma RunningTick(roles: seq<Role>, snaps: seq<Snap>, t: CsetTable, looks: seq<Option<Look>>, told: set<nat>,
                    snaps': seq<Snap>, t': CsetTable, j: nat, changed: bool, tag: Option<Tag>, tick: Tick)
    requires Running(roles, snaps, t, looks, told) && OnlyOf(roles, snaps, snaps', t, t', j)
    requires Ticked(roles[j], snaps[j], snaps'[j], changed, tag, tick)
    requires j in told ==> ToldAs(t', roles[j].resource, snaps'[j])
    ensures Running(roles, snaps', t', NextLooks(looks, Ticking(j, tick), tag), told)
  {
    forall i | 0 <= i < |roles| && i != j && i in told
      ensures ToldAs(t', roles[i].resource, snaps'[i])
    {
      ListsStay(t, t', roles[i].resource, snaps[i].view.apqns, snaps[i].view.devices);
    }
  }

  lemma RunningStart(roles: seq<Role>, snaps: seq<Snap>, t: CsetTable, looks: seq<Option<Look>>, told: set<nat>,
                     snaps': seq<Snap>, t': CsetTable, j: nat, event: Event, tag: Option<Tag>)
    requires Running(roles, snaps, t, looks, told) && OnlyOf(roles, snaps, snaps', t, t', j)
    requires event.Starting? && event.who == j
    requires if event.scan.Some? then ToldAs(t', roles[j].resource, snaps'[j]) else snaps'[j] == snaps[j] && t' == t
    ensures Running(roles, snaps', t', NextLooks(looks, event, tag), if event.scan.Some? then told + {j} else told)
  {
    forall i | 0 <= i < |roles| && i != j && i in told
      ensures ToldAs(t', roles[i].resource, snaps'[i])
    {
      ListsStay(t, t', roles[i].resource, snaps[i].view.apqns, snaps[i].view.devices);
    }
  }

  lemma ListsStay(t: CsetTable, t': CsetTable, resource: string, apqns: seq<Apqn>, devices: seq<Device>)
    requires ListsSame(t, t', resource) && Lists(t, resource, apqns, devices)
    ensures Lists(t', resource, apqns, devices)
  {
  }

  /** One plug-in's tick among all plug-ins of the node: the others keep all they hold. */
  method TickOf(plugins: seq<ResPlugin>, w: Watcher, j: nat, tick: Tick) returns (changed: bool)
    requires j < |plugins| && Separate(plugins) && w.Valid() && AllAttached(plugins, w)
    requires OthersOnly(tick.notices, plugins[j].resource)
    modifies plugins[j], w, plugins[j].metrics, plugins[j].Own(w)
    ensures w.Valid() && AllAttached(plugins, w) && KeptOrNew(w)
    ensures w.tag == TagAfter(old(w.tag), tick.files, w.isQualifiedName)
    ensures forall i :: 0 <= i < |plugins| && i != j ==> SnapOf(plugins[i]) == old(SnapOf(plugins[i]))
    ensures Ticked(plugins[j].Serves(), old(SnapOf(plugins[j])), SnapOf(plugins[j]), changed, w.tag, tick)
    ensures old(plugins[j].Told()) ==> plugins[j].Told()
    ensures OtherListsSame(old(plugins[j].metrics.csetmap), plugins[j].metrics.csetmap, plugins[j].resource,
                           tick.notices)
    ensures forall s :: s in plugins[j].Own(w) ==> s in old(plugins[j].Own(w)) || fresh(s)
  {
    ghost var cc, tag, snaps := w.cc, w.tag, Snaps(plugins);
    AttachedSnaps(plugins, w, snaps);
    changed := OneTick(plugins[j], w, tick);
    SnapsAttached(plugins, w, j, snaps, cc, tag);
  }

  /** One plug-in's start among all plug-ins of the node. */
  method StartOf(plugins: seq<ResPlugin>, w: Watcher, j: nat, scan: Option<seq<Apqn>>, read: Counters)
    requires j < |plugins| && Separate(plugins) && AllAttached(plugins, w)
    modifies plugins[j], plugins[j].metrics
    ensures AllAttached(plugins, w)
    ensures forall i :: 0 <= i < |plugins| && i != j ==> SnapOf(plugins[i]) == old(SnapOf(plugins[i]))
    ensures plugins[j].ccset == old(plugins[j].ccset)
    ensures scan.Some? ==> plugins[j].Told()
    ensures scan.None? ==> SnapOf(plugins[j]) == old(SnapOf(plugins[j]))
    ensures scan.None? ==> plugins[j].metrics.csetmap == old(plugins[j].metrics.csetmap)
    ensures OthersKept(old(plugins[j].metrics.csetmap), plugins[j].metrics.csetmap, plugins[j].resource)
  {
    ghost var snaps := Snaps(plugins);
    AttachedSnaps(plugins, w, snaps);
    var ok := plugins[j].Start(scan, read);
    SnapsAttached(plugins, w, j, snaps, w.cc, w.tag);
  }

  lemma AttachedSnaps(plugins: seq<ResPlugin>, w: Watcher, snaps: seq<Snap>)
    requires AllAttached(plugins, w)
    requires |snaps| == |plugins| && forall i :: 0 <= i < |plugins| ==> snaps[i] == SnapOf(plugins[i])
    ensures forall i :: 0 <= i < |plugins| ==> AttachedAs(snaps[i], plugins[i].resource, plugins[i].env, w.cc, w.tag)
  {
    forall i | 0 <= i < |plugins|
      ensures AttachedAs(snaps[i], plugins[i].resource, plugins[i].env, w.cc, w.tag)
    {
      AttachedIff(plugins[i], w);
    }
  }

  lemma SnapsAttached(plugins: seq<ResPlugin>, w: Watcher, j: nat, snaps: seq<Snap>, cc: Option<seq<CryptoConfigSet>>,
                      tag: Option<Tag>)
    requires j < |plugins| == |snaps| && plugins[j].Attached(w)
    requires forall i :: 0 <= i < |plugins| ==>
               plugins[i].env == w.env && AttachedAs(snaps[i], plugins[i].resource, plugins[i].env, cc, tag)
    requires forall i :: 0 <= i < |plugins| && i != j ==> snaps[i] == SnapOf(plugins[i])
    requires (w.cc == cc && w.tag == tag) || w.cc.None? ||
             forall i :: 0 <= i < |plugins| && i != j && snaps[i].ccset != null ==> snaps[i].ccset !in w.cc.value
    ensures AllAttached(plugins, w)
  {
    forall i | 0 <= i < |plugins| && i != j
      ensures plugins[i].Attached(w)
    {
      StaysAttached(snaps[i], plugins[i].resource, plugins[i].env, cc, tag, w.cc, w.tag);
      AttachedIff(plugins[i], w);
    }
  }

  ghost function Roles(plugins: seq<ResPlugin>): (roles: seq<Role>)
    ensures |roles| == |plugins| && forall i :: 0 <= i < |plugins| ==> roles[i] == plugins[i].Serves()
  {
    seq(|plugins|, i requires 0 <= i < |plugins| => plugins[i].Serves())
  }

  function ToldNext(told: set<nat>, event: Event): set<nat> {
    if event.Starting? && event.scan.Some? then told + {event.who} else told
  }

  function ToldAfter(told: set<nat>, events: seq<Event>): set<nat> {
    if events == [] then told else ToldNext(ToldAfter(told, events[..|events| - 1]), events[|events| - 1])
  }

  ghost function ToldNow(plugins: seq<ResPlugin>): set<nat>
    reads *
  {
    set i: nat | i < |plugins| && plugins[i].Told()
  }

  /** Lists of resources that none of the plug-ins serves are as before, unless a notice was a listing of theirs. */
  ghost predicate UnservedSame(plugins: seq<ResPlugin>, events: seq<Event>, t: CsetTable, t': CsetTable) {
    forall r :: Unserved(plugins, events, r) ==> ListsSame(t, t', r)
  }

  ghost predicate Unserved(plugins: seq<ResPlugin>, events: seq<Event>, r: string) {
    && (forall i :: 0 <= i < |plugins| ==> plugins[i].resource != r)
    && forall k :: 0 <= k < |events| && events[k].Ticking? ==> OthersOnly(events[k].tick.notices, r)
  }

  lemma OnlyOfTick(plugins: seq<ResPlugin>, snaps: seq<Snap>, snaps': seq<Snap>, t: CsetTable, t': CsetTable, j: nat,
                   event: Event)
    requires Separate(plugins) && Fitting(plugins, event) && j == event.who && event.Ticking?
    requires |snaps| == |snaps'| == |plugins| && forall i :: 0 <= i < |plugins| && i != j ==> snaps'[i] == snaps[i]
    requires OtherListsSame(t, t', plugins[j].resource, event.tick.notices)
    ensures OnlyOf(Roles(plugins), snaps, snaps', t, t', j) && UnservedSame(plugins, [event], t, t')
  {
    forall i | 0 <= i < |plugins| && i != j
      ensures plugins[i].resource != plugins[j].resource && OthersOnly(event.tick.notices, plugins[i].resource)
    {
      if i < j {
        assert plugins[i].resource != plugins[j].resource;
      }
    }
    forall r | Unserved(plugins, [event], r)
      ensures ListsSame(t, t', r)
    {
      assert [event][0] == event;
    }
  }

  lemma OnlyOfStart(plugins: seq<ResPlugin>, snaps: seq<Snap>, snaps': seq<Snap>, t: CsetTable, t': CsetTable, j: nat,
                    event: Event)
    requires Separate(plugins) && j < |plugins|
    requires |snaps| == |snaps'| == |plugins| && forall i :: 0 <= i < |plugins| && i != j ==> snaps'[i] == snaps[i]
    requires OthersKept(t, t', plugins[j].resource)
    ensures OnlyOf(Roles(plugins), snaps, snaps', t, t', j) && UnservedSame(plugins, [event], t, t')
  {
    forall r | r != plugins[j].resource
      ensures ListsSame(t, t', r)
    {
      OthersKeptListsSame(t, t', plugins[j].resource, r);
    }
    forall i | 0 <= i < |plugins| && i != j
      ensures plugins[i].resource != plugins[j].resource
    {
      if i < j {
        assert plugins[i].resource != plugins[j].resource;
      }
    }
  }

  /** One event at a node. */
  method OneEvent(plugins: seq<ResPlugin>, w: Watcher, metrics: MetricsColl, event: Event,
                  ghost looks: seq<Option<Look>>, ghost told: set<nat>)
    requires Separate(plugins) && w.Valid() && AllAttached(plugins, w) && Fitting(plugins, event)
    requires forall i :: 0 <= i < |plugins| ==> plugins[i].metrics == metrics
    requires Running(Roles(plugins), Snaps(plugins), metrics.csetmap, looks, told)
    modifies plugins[event.who], w, metrics, plugins[event.who].Own(w)
    ensures w.Valid() && AllAttached(plugins, w)
    ensures w.tag == TagNow(old(w.tag), [event], w.isQualifiedName)
    ensures Running(Roles(plugins), Snaps(plugins), metrics.csetmap, NextLooks(looks, event, w.tag),
                    ToldNext(told, event))
    ensures UnservedSame(plugins, [event], old(metrics.csetmap), metrics.csetmap)
    ensures forall i, s :: 0 <= i < |plugins| && s in plugins[i].Own(w) ==> s in old(plugins[i].Own(w)) || fresh(s)
  {
    var j := event.who;
    ghost var roles, snaps, t := Roles(plugins), Snaps(plugins), metrics.csetmap;
    match event
    case Starting(_, scan, read) =>
      StartOf(plugins, w, j, scan, read);
      OnlyOfStart(plugins, snaps, Snaps(plugins), t, metrics.csetmap, j, event);
      RunningStart(roles, snaps, t, looks, told, Snaps(plugins), metrics.csetmap, j, event, w.tag);
    case Ticking(_, tick) =>
      var changed := TickOf(plugins, w, j, tick);
      OnlyOfTick(plugins, snaps, Snaps(plugins), t, metrics.csetmap, j, event);
      RunningTick(roles, snaps, t, looks, told, Snaps(plugins), metrics.csetmap, j, changed, w.tag, tick);
  }

  lemma OneMore(events: seq<Event>, k: nat)
    requires k < |events|
    ensures events[..k + 1] == events[..k] + [events[k]] && events[..k + 1][..k] == events[..k]
  {
  }

  lemma UnservedOneMore(plugins: seq<ResPlugin>, events: seq<Event>, k: nat, t: CsetTable, t1: CsetTable, t2: CsetTable)
    requires k < |events| && UnservedSame(plugins, events[..k], t, t1) && UnservedSame(plugins, [events[k]], t1, t2)
    ensures UnservedSame(plugins, events[..k + 1], t, t2)
  {
    forall r | Unserved(plugins, events[..k + 1], r)
      ensures ListsSame(t, t2, r)
    {
      assert events[..k + 1][k] == events[k];
      assert Unserved(plugins, [events[k]], r);
      forall i | 0 <= i < k && events[i].Ticking?
        ensures OthersOnly(events[..k][i].tick.notices, r)
      {
        assert events[..k + 1][i] == events[i];
      }
      assert Unserved(plugins, events[..k], r);
    }
  }

  lemma RunningBegins(plugins: seq<ResPlugin>, t: CsetTable)
    requires forall i :: 0 <= i < |plugins| ==> plugins[i].metrics.csetmap == t
    ensures Running(Roles(plugins), Snaps(plugins), t, NoLooks(|plugins|), ToldNow(plugins))
  {
    forall i | 0 <= i < |plugins| && i in ToldNow(plugins)
      ensures ToldAs(t, Roles(plugins)[i].resource, Snaps(plugins)[i])
    {
      assert plugins[i].Told();
    }
  }

  /**
     All plug-ins of a node over any sequence of starts, ticks, configuration changes and notices. Each plug-in's
     devices are exact against the configuration and scan of its last successful rescan, whatever the others
     did meanwhile, and the metrics list exactly the APQNs and healthy devices of each plug-in for which they
     did so before or that was started since.
   */
  method NodeRun(plugins: seq<ResPlugin>, w: Watcher, metrics: MetricsColl, events: seq<Event>)
    requires Separate(plugins) && w.Valid() && AllAttached(plugins, w)
    requires forall i :: 0 <= i < |plugins| ==> plugins[i].metrics == metrics
    requires forall k :: 0 <= k < |events| ==> Fitting(plugins, events[k])
    modifies (set p | p in plugins), w, metrics, AllOwn(plugins, w)
    ensures w.Valid() && AllAttached(plugins, w)
    ensures w.tag == TagNow(old(w.tag), events, w.isQualifiedName)
    ensures Running(Roles(plugins), Snaps(plugins), metrics.csetmap,
                    LooksAfter(|plugins|, old(w.tag), events, w.isQualifiedName),
                    ToldAfter(old(ToldNow(plugins)), events))
    ensures UnservedSame(plugins, events, old(metrics.csetmap), metrics.csetmap)
  {
    ghost var tag, told, t := w.tag, ToldNow(plugins), metrics.csetmap;
    RunningBegins(plugins, t);
    for k := 0 to |events|
      invariant w.Valid() && AllAttached(plugins, w)
      invariant w.tag == TagNow(tag, events[..k], w.isQualifiedName)
      invariant Running(Roles(plugins), Snaps(plugins), metrics.csetmap,
                        LooksAfter(|plugins|, tag, events[..k], w.isQualifiedName), ToldAfter(told, events[..k]))
      invariant UnservedSame(plugins, events[..k], t, metrics.csetmap)
      invariant forall i, s :: 0 <= i < |plugins| && s in plugins[i].Own(w) ==> s in old(AllOwn(plugins, w)) || fresh(s)
    {
      ghost var before := metrics.csetmap;
      OneEvent(plugins, w, metrics, events[k], LooksAfter(|plugins|, tag, events[..k], w.isQualifiedName),
               ToldAfter(told, events[..k]));
      OneMore(events, k);
      UnservedOneMore(plugins, events, k, t, before, metrics.csetmap);
    }
    assert events[..|events|] == events;
  }

  /**
     A node is in step when each plug-in last looked at the configuration in force and the node's scan, used its limit
     and was told to the metrics, every configured set has a plug-in, and other sets are listed as empty.
   */
  lemma NodeIsInStep(n: NodeView, isQualifiedName: string -> bool, tag: Tag, roles: seq<Role>, snaps: seq<Snap>,
                     looks: seq<Option<Look>>, told: set<nat>)
    requires tag.file.parsed == Some(n.defs) && Verified(n.defs, isQualifiedName) && DistinctQueues(n.scan)
    requires Running(roles, snaps, n.table, looks, told)
    requires forall i, j :: 0 <= i < j < |roles| ==> roles[i].resource != roles[j].resource
    requires forall i :: 0 <= i < |roles| ==>
               && i in told && looks[i] == Some(Look(Some(tag), n.scan))
               && roles[i].machineId == n.machineId && roles[i].env == n.env
               && LimitUsed(roles[i], n.scan, Some(tag), snaps[i].reported, snaps[i].startOvercommit)
    requires forall s :: s in n.defs ==> exists i :: 0 <= i < |roles| && roles[i].resource == s.setName
    requires forall name :: name in n.table ==>
               Lists(n.table, name, [], []) || exists i :: 0 <= i < |roles| && roles[i].resource == name
    ensures InStep(n, isQualifiedName)
  {
    var states := PluginStates(roles, snaps);
    forall name | name in states
      ensures Settled(n, Some(tag), name, states[name])
    {
      var i: nat :| i < |roles| && roles[i].resource == name;
      assert states[roles[i].resource] == StateOf(snaps[i]);
      SettledWhenRunning(n, tag, roles, snaps, looks, told, i);
    }
    forall s | s in n.defs
      ensures s.setName in states
    {
      var i :| 0 <= i < |roles| && roles[i].resource == s.setName;
    }
    RefreshedNodeIsInStep(n, isQualifiedName, tag, states);
  }

  function StateOf(s: Snap): PluginState {
    PluginState(s.view.apqns, s.view.devices, s.reported, s.startOvercommit)
  }

  lemma {:induction false} PluginStates(roles: seq<Role>, snaps: seq<Snap>) returns (states: map<string, PluginState>)
    requires |snaps| == |roles|
    requires forall i, j :: 0 <= i < j < |roles| ==> roles[i].resource != roles[j].resource
    ensures forall i :: 0 <= i < |roles| ==>
              roles[i].resource in states && states[roles[i].resource] == StateOf(snaps[i])
    ensures forall name :: name in states ==> exists i :: 0 <= i < |roles| && roles[i].resource == name
  {
    if roles == [] {
      states := map[];
    } else {
      var n := |roles| - 1;
      states := PluginStates(roles[..n], snaps[..n]);
      states := states[roles[n].resource := StateOf(snaps[n])];
    }
  }

  lemma SettledWhenRunning(n: NodeView, tag: Tag, roles: seq<Role>, snaps: seq<Snap>, looks: seq<Option<Look>>,
                           told: set<nat>, i: nat)
    requires Running(roles, snaps, n.table, looks, told) && DistinctQueues(n.scan) && i < |roles| && i in told
    requires looks[i] == Some(Look(Some(tag), n.scan)) && roles[i].machineId == n.machineId && roles[i].env == n.env
    requires LimitUsed(roles[i], n.scan, Some(tag), snaps[i].reported, snaps[i].startOvercommit)
    ensures Settled(n, Some(tag), roles[i].resource, StateOf(snaps[i]))
  {
    assert ExactAs(roles[i], snaps[i], looks[i]) && ToldAs(n.table, roles[i].resource, snaps[i]);
    assert roles[i] == Role(roles[i].resource, n.machineId, n.env);
  }
}
