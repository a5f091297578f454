# Verification of the CEX device plug-in's bookkeeping

A Dafny model of the parts of the CEX device plug-in and its Prometheus exporter that keep books
about crypto queues (APQNs): which config set owns a queue, which plug-in devices are announced,
which device nodes and shadow directories exist for them, and which numbers are reported. Where the
program changes things step by step, so does the model: sets, watcher, plug-in, metrics tables,
node table, pod lister, shadow tree and exporter are classes whose methods carry the program's
loops and branches. The two protocols with interleavings, shutdown and publishing, are state machines.

`dafny verify dfyconfig.toml` checks all of it.

## What is proved

* **Configuration.** Exactly the configurations in which no queue of any machine falls under two
  definitions (and whose other fields are valid) are accepted. The published configuration is absent
  exactly when its tag is, and otherwise is the tagged file's. A plug-in's cached set, confirmed by its
  tag, describes the resource in the current configuration up to filled-in defaults, through any
  sequence of good, bad, unreadable and reverted files. A changed file that is not acceptable takes the
  configuration away, and every plug-in's lookup finds nothing until an acceptable one follows.
* **Partition.** The sets of an accepted configuration split every machine's APQNs, device ids are
  unique across sets, and scanning an id and looking its queue up leads back to the announcing set.
* **Refresh.** Over every run of configuration changes and scans, the devices after a rescan are, in
  some order, those made from scratch. The documentation promises that a set without `overcommit` uses
  the default limit; a start builds its devices with a limit of 1 instead, and rescans do not notice.
  The exact condition is proved: the devices are right if and only if a change was reported since the
  start, the set had a limit at the start, the default limit is 1, or there is nothing to announce.
  What each rescan reports and changes is determined: a function of the state before it, the configuration
  in force and the scan. The list announced last is always the one in use, the metrics tables keep
  listing exactly the plug-in's APQNs and healthy devices, whatever else they are told, and from the first
  successful rescan on the limits stored are those that hold for the set. A node's plug-ins, any number of
  them, start and tick in any order and do not disturb one another: each one's devices stay exact against what
  it looked at last, and the metrics list what each has.
* **Shutdown.** No notice is sent on a closed channel, it is closed once, and the loop has ended when
  `Stop` returns, unless `Stop` passed its wait before the loop had joined the wait group; in that
  case, and only then, a panic can follow, and one can be reached. Unless the kubelet opens another watch, `Stop`
  can return from a state exactly unless the loop wants to send a notice, every watch has returned and the wait
  is not passed. Tables that `Stop` cleared can be filled again exactly as long as the loop has not left; once
  `Stop` has returned without passing its wait too early, they stay as they are.
* **Allocation.** Over every sequence of requests and collector rounds and whatever fails, no device node
  reaches a queue other than its own; as long as destroying works, every device node has exactly its
  adapter, its domain and all ioctls, and each answered container is given the node and the shadow of its
  own device. Which steps have to work for a request is stated exactly, and so
  is what a failed one leaves: isolation is lost if and only if a node was half made and the last
  destroying failed. Then the next request hands the half-made node out, as a concrete schedule shows.
* **Collector.** Nothing is reclaimed early, in any run; after each completed round nothing overdue is
  left, and everything seen is tracked or was reclaimed with a log entry. After a round every held device
  that its set lists is in use there or was reclaimed, and devices of reclaimed nodes are not; no other use flag
  changes. Handing a device out does not touch the collector's table: a node may be destroyed right after,
  if and only if (for rounds shorter than the limits, and up to the time the round takes) its old entry is
  overdue and no pod holds the device yet.
* **Metrics.** Tables hold exactly what was listed, listed entries keep their state, request counts never
  fall, and the cluster's totals equal the sum over nodes and configured sets of online eligible APQNs
  times the set's limit, once every plug-in was refreshed with its limit. Exact conditions are given for
  three oddities: a queue whose counter starts at 0 loses its first requests, a failed read reports a
  negative count, and the node's own request counter adds up running totals (the exporter ignores it), which are right in every order of visits exactly
  when no set with two or more APQNs served a request.
* **Publishing.** Each published value is the exact aggregate of the node table at one earlier moment,
  after the publishing handler stored its own report. It is still current exactly when no sum has changed
  since; stale data can stay up after all handlers are done.
* **Shadow sysfs.** A shadow is made exactly when every step works. Then every planned entry is there and
  nothing else, the masks show exactly one adapter and one domain, and each link resolves inside the shadow.
  Otherwise nothing is left. In live mode a failed write of the card's `load` file goes unnoticed: the file is there
  exactly when its write worked, and a schedule shows a shadow reported as made without it.

A smaller finding: generations are compared as strings, which differs from their numbers for cards
of generation 10 and above in a way stated exactly.

## Assumptions

The hash of a configuration file is injective and the file does not change between being hashed and being
read. Set names are checked by an abstract predicate. Clocks do not run backwards. Scans, the machine
id, the pods' resources, counter readings and the outcome of each system call are inputs, and
theorems that need duplicate-free scans say so. Integers are unbounded, except in scanned device ids.

## Model

| member | source | states |
|---|---|---|
| DeviceIds.RoundTrip | src/cex-device-plugin/plugin.go:361-363 | a printed device id scans back to its numbers, for all numbers of 64 bits and no others |
| DeviceIds.DeviceIdInjective | src/cex-device-plugin/plugin.go:173-174 | different (adapter, domain, index) have different device ids |
| DeviceIds.DeviceIdLooks | src/cex-device-plugin/plugin.go:173-174 | the format of a device id, on an example |
| Apqns.EqualLists | src/cex-device-plugin/ap.go:217-248 | tells whether each APQN's first partner in the second list is equal to it; for distinct queues, whether the lists are permutations |
| Apqns.MatchesIsPermutation | src/cex-device-plugin/ap.go:217-248 | for a list of distinct queues the comparison decides permutation |
| Apqns.DecidesPermutationIffDistinct | src/cex-device-plugin/ap.go:217-248 | it does so against every second list exactly when the first names no queue twice |
| Apqns.DuplicateMisleads | src/cex-device-plugin/ap.go:225-241 | a second list on which the answer is wrong, for any list with a duplicate |
| CryptoConfig.CompatibleIffNoCommonQueue | src/cex-device-plugin/cryptoconfigs.go:118-127 | two definitions are compatible exactly when no queue of any machine falls under both |
| CryptoConfig.Lookup | src/cex-device-plugin/cryptoconfigs.go:285-296 | the set of a name, or none when no set has it |
| CryptoConfig.LookupForApqn | src/cex-device-plugin/cryptoconfigs.go:298-314 | a set that covers the queue on the machine, or none when no set does |
| CryptoConfig.LookupFinds | src/cex-device-plugin/cryptoconfigs.go:139-145 | names are unique in an accepted configuration, so lookup by name inverts naming |
| CryptoConfig.CoverIsUnique | src/cex-device-plugin/cryptoconfigs.go:208-229 | a machine's queue falls under at most one definition of an accepted configuration |
| CryptoConfig.LookupForApqnFinds | src/cex-device-plugin/cryptoconfigs.go:298-314 | the reverse lookup finds the only set that covers the queue |
| CryptoConfig.VerifiedMeans | src/cex-device-plugin/cryptoconfigs.go:116-234 | acceptance in terms of the file: its modes, generations, limits and ranges, different names, and no queue that a machine is given twice |
| ConfigWatcher.CheckUniqueName | src/cex-device-plugin/cryptoconfigs.go:140-145 | decides whether no other set has the name |
| ConfigWatcher.CheckConflicts | src/cex-device-plugin/cryptoconfigs.go:208-229 | decides whether a definition is compatible with all others of the configuration |
| ConfigWatcher.CheckApqns | src/cex-device-plugin/cryptoconfigs.go:195-230 | decides whether all definitions of a set are in range and free of conflicts |
| ConfigWatcher.VerifySet | src/cex-device-plugin/cryptoconfigs.go:129-231 | decides whether one set is valid and stores its limits as given, -1 for a missing one |
| ConfigWatcher.Verify | src/cex-device-plugin/cryptoconfigs.go:116-234 | accepts exactly the valid configurations and leaves all limits as given |
| ConfigWatcher.FindSet | src/cex-device-plugin/cryptoconfigs.go:285-296 | the set object whose definition the lookup by name finds |
| ConfigWatcher.ParseSets | src/cex-device-plugin/cryptoconfigs.go:351-374 | every read of the file makes fresh set objects for its definitions |
| ConfigWatcher.Watcher.constructor | src/cex-device-plugin/cryptoconfigs.go:46-51 | at first there is neither a configuration nor a tag |
| ConfigWatcher.Watcher.UpdateConfig | src/cex-device-plugin/cryptoconfigs.go:451-475 | a file that cannot be hashed changes nothing; one that can and is not acceptable (unreadable, unparsable or refused) leaves neither configuration nor tag; an acceptable one is published, as fresh sets unless its tag is already in force |
| ConfigWatcher.Watcher.GetCurrentCryptoConfigSet | src/cex-device-plugin/cryptoconfigs.go:509-516 | a cache that described the resource under its tag is answered with a set that does so under the current tag |
| ConfigWatcher.LastLookCounts | src/cex-device-plugin/cryptoconfigs.go:451-475 | after any run of looks the tag in force is the last hashed file's or none, and none if that file is not acceptable |
| Plugin.LookupAfterBadFile | src/cex-device-plugin/cryptoconfigs.go:509-516 | after any run of looks that ends with an unacceptable file, every plug-in's lookup finds no set |
| ConfigWatcher.LimitsMean | src/cex-device-plugin/cryptoconfigs.go:169-192 | a missing limit is stored as -1 and holds as the default |
| Partition.AtMostOneCopy | src/cex-device-plugin/plugin.go:138-153 | compatible definitions take an APQN at most once |
| Partition.EligibleExactly | src/cex-device-plugin/plugin.go:132-156 | a set is given exactly the scanned APQNs assigned to it, each once |
| Partition.SetsPartitionApqns | src/cex-device-plugin/plugin.go:132-156 | lists of different sets share no queue |
| Partition.DevicesHaveDistinctIds | src/cex-device-plugin/plugin.go:167-178 | the devices of distinct queues have distinct ids |
| Partition.DeviceOrigin | src/cex-device-plugin/plugin.go:167-178 | each device is a numbered copy of a listed APQN and as healthy as that is online |
| Partition.DevicesLength | src/cex-device-plugin/plugin.go:172-177 | there are limit times as many devices as APQNs |
| Partition.DeviceIdsGloballyUnique | src/cex-device-plugin/plugin.go:158-181 | device ids are unique within and across the sets of an accepted configuration |
| Partition.ReverseLookupInvertsAnnouncement | src/cex-device-plugin/podlister.go:234-241 | scanning an announced id and looking its queue up finds the announcing set |
| Partition.DevicesOfPermutation | src/cex-device-plugin/plugin.go:167-178 | reordered APQNs give the reordered devices |
| Partition.DifferentCountDifferentDevices | src/cex-device-plugin/plugin.go:172-177 | two limits give the same devices exactly when they are equal or there are no APQNs |
| Partition.GenerationsCompareByNumber | src/cex-device-plugin/plugin.go:146-150 | exactly when the string comparison of generations agrees with their numbers |
| Plugin.FilterApqns | src/cex-device-plugin/plugin.go:132-156 | the loops compute the set's eligible APQNs |
| Plugin.MakePluginDevs | src/cex-device-plugin/plugin.go:158-181 | each APQN is offered max(1, stored limit) times, under the indices from 0, as healthy as it is online, and nothing else is |
| Plugin.ResPlugin.DevicesAreOffered | src/cex-device-plugin/plugin.go:158-181 | the same of the devices a plug-in holds at any time, for the limit they were built with |
| Plugin.RefreshedOffers | src/cex-device-plugin/plugin.go:158-181 | a refreshed plug-in offers each eligible APQN as often as the set's own limit, or else the default, says, and at least once |
| Plugin.CollectHealthyIds | src/cex-device-plugin/plugin.go:446-456 | the ids of the healthy devices, in order |
| Plugin.FillDefaults | src/cex-device-plugin/plugin.go:205-214 | afterwards both limits are those that hold for the set |
| Plugin.BuiltIsRecomputedIff | src/cex-device-plugin/plugin.go:158-181 | devices built with a stored limit are the documented ones exactly when it is not -1, the default is 1, or there are none |
| Plugin.StartIsExactIff | src/cex-device-plugin/plugin.go:277-281 | the same for what a start builds, with or without a set |
| Plugin.MissingLimitIsIgnoredAtStart | src/cex-device-plugin/plugin.go:277-281 | a concrete start that does not announce what the default limit asks for |
| Plugin.ResPlugin.constructor | src/cex-device-plugin/plugin.go:116-130 | a new plug-in caches the current set of its resource with the current tag |
| Plugin.ResPlugin.TellMetrics | src/cex-device-plugin/plugin.go:442-456 | the resource's metrics tables list exactly the plug-in's APQNs and healthy devices |
| Plugin.ResPlugin.ScanAndBuild | src/cex-device-plugin/plugin.go:277-284 | the first APQNs and devices, and what the metrics are told |
| Plugin.ResPlugin.Start | src/cex-device-plugin/plugin.go:267-292 | after a start the devices are those made from scratch exactly under the stated condition |
| Plugin.ResPlugin.DetectChange | src/cex-device-plugin/plugin.go:188-226 | the current set with its limits filled in, and whether a change must be reported |
| Plugin.ResPlugin.Adopt | src/cex-device-plugin/plugin.go:228-236 | set, tag, APQNs and devices become those made from scratch, and the metrics are told |
| Plugin.ResPlugin.UnreportedIsRecomputed | src/cex-device-plugin/plugin.go:228-240 | without a reported change the devices in use are those made from scratch, under the exact condition |
| Plugin.ResPlugin.CheckChanged | src/cex-device-plugin/plugin.go:183-241 | a rescan does exactly what the specified refresh does to tag, limits, APQNs and devices, touches no set of another resource, and leaves devices that are those made from scratch, under the exact condition |
| Plugin.RescanMakesLimitsHold | src/cex-device-plugin/plugin.go:205-214 | after any successful rescan, reported or not, both stored limits are those that hold for the set |
| Plugin.RescanIsQuiet | src/cex-device-plugin/plugin.go:183-241 | rescanning the same configuration and APQNs again reports and changes nothing |
| Plugin.StoredLiveModeHoldsIff | src/cex-device-plugin/plugin.go:388-403 | exactly when the live mode an allocation uses is the one that holds for the set |
| Plugin.ResPlugin.ClearOnStop | src/cex-device-plugin/plugin.go:298-302 | stopping clears APQNs and devices, also in the metrics |
| Plugin.UpdateAll | src/cex-device-plugin/cryptoconfigs.go:483-495 | any number of looks at the file between two ticks |
| Plugin.DeliverAll | src/cex-device-plugin/metricscollector.go:79-215 | notices change what is listed for a resource only by a listing of its own |
| Plugin.OneTick | src/cex-device-plugin/plugin.go:256-259 | one tick does what the refresh specifies for the state before it, keeps the devices exact and the metrics listing them, and leaves other resources' sets and lists alone |
| Plugin.CheckChangedLoop | src/cex-device-plugin/plugin.go:243-265 | over every run of file changes, notices and scans each tick reports what it must, the lists of just these ticks are announced, the last is the one in use, devices are exact, and the metrics list them |
| NodeLoop.TickOf | src/cex-device-plugin/plugin.go:183-241 | one plug-in's tick leaves all other plug-ins and their sets as they are |
| NodeLoop.StartOf | src/cex-device-plugin/plugin.go:267-292 | so does its start |
| NodeLoop.NodeRun | src/cex-device-plugin/plugin.go:243-265 | over any sequence of starts and ticks of a node's plug-ins each one's devices are exact against its last look, and the metrics list what each has |
| NodeLoop.NodeIsInStep | src/cex-device-plugin/plugin.go:442-456 | such a run puts the node in step when every plug-in last looked at the configuration in force and the node's scan |
| Shutdown.InvStep | src/cex-device-plugin/plugin.go:243-340 | the protocol's invariant is kept by every step |
| Shutdown.ShutdownIsSafe | src/cex-device-plugin/plugin.go:294-312 | in every interleaving the notice channel is closed at most once, and without a late registration never used after, with the loop ended when Stop returns |
| Shutdown.EarlyRegistrationSuffices | src/cex-device-plugin/plugin.go:247-248 | a loop registered before Stop's wait is always shut down safely |
| Shutdown.LatePanics | src/cex-device-plugin/plugin.go:257-258 | the run that sends on the closed channel after a late registration |
| Shutdown.PanicCanFollowIffUnregistered | src/cex-device-plugin/plugin.go:307-309 | a panic can follow Stop's wait exactly when the loop was not registered by then |
| Shutdown.PanicCanHappen | src/cex-device-plugin/plugin.go:247-258 | a reachable state in which the loop has panicked |
| Shutdown.StopHangsIff | src/cex-device-plugin/plugin.go:304-309 | while Stop waits, nothing but another watch can happen exactly when the loop is sending and all watches have returned |
| Shutdown.StopCanReturnIff | src/cex-device-plugin/plugin.go:304-312 | without another watch Stop can still return exactly unless the loop is sending, all watches have returned and Stop has not passed its wait |
| Shutdown.StopCanHang | src/cex-device-plugin/plugin.go:304-309 | such a state can be reached |
| Shutdown.TablesStayAfterStop | src/cex-device-plugin/plugin.go:294-312 | once Stop has passed its wait for a loop that had joined, no continuation writes the tables |
| Shutdown.RefillCanFollowIff | src/cex-device-plugin/plugin.go:228-236 | cleared tables can be filled again exactly as long as the loop has neither left nor ended nor panicked |
| Shutdown.TablesCanBeFullAfterStop | src/cex-device-plugin/plugin.go:294-312 | Stop can return with tables that a refresh has filled after they were cleared |
| Zcrypt.NodeNameInjective | src/cex-device-plugin/plugin.go:368 | a node name determines its queue and index |
| Zcrypt.DecodePlusList | src/cex-device-plugin/zcrypt.go:181-191 | a written mask line is accepted exactly for numbers 0 to 255 and sets exactly those bits |
| Zcrypt.PlusListLooks | src/cex-device-plugin/zcrypt.go:181-191 | the format of a written line, on an example |
| Zcrypt.JoinPlus | src/cex-device-plugin/zcrypt.go:221-229 | the loop writes the line |
| Zcrypt.ZcryptNodes.NodeExists | src/cex-device-plugin/zcrypt.go:56-65 | a node is seen when it is there and looking works |
| Zcrypt.ZcryptNodes.DestroyNode | src/cex-device-plugin/zcrypt.go:67-84 | removes the node, or leaves it when the write fails |
| Zcrypt.ZcryptNodes.AwaitDevice | src/cex-device-plugin/zcrypt.go:103-125 | succeeds exactly when the device file appears at one of eight looks before an error |
| Zcrypt.ZcryptNodes.CreateNode | src/cex-device-plugin/zcrypt.go:86-138 | succeeds exactly when every step works; else an empty node is left exactly when it was created and destroying it failed |
| Zcrypt.ZcryptNodes.WriteMask | src/cex-device-plugin/zcrypt.go:170-200 | a line is added to one mask of an existing node |
| Zcrypt.ZcryptNodes.AddToNode | src/cex-device-plugin/zcrypt.go:140-200 | adds exactly the listed adapters or domains, exactly when both steps work and all numbers are bits |
| Zcrypt.ZcryptNodes.AddIoctlsToNode | src/cex-device-plugin/zcrypt.go:202-237 | adds the listed ioctls, or all 256 when none is listed |
| Zcrypt.ZcryptNodes.CreateSimpleNode | src/cex-device-plugin/zcrypt.go:239-260 | succeeds exactly when every step works; what stands under the name afterwards, complete, partial or nothing, is determined |
| Allocation.FindOrMakeNode | src/cex-device-plugin/plugin.go:367-379 | the node is seen or made exactly when the stated steps work; else the failed making and the destroying decide what is left |
| Allocation.AllocateDevice | src/cex-device-plugin/plugin.go:367-408 | served exactly when node, shadow and live mount work; else what is left is determined by the schedule |
| Allocation.AllocateContainer | src/cex-device-plugin/plugin.go:355-413 | only the first id counts; it gets its own node and mounts, or the request fails |
| Allocation.Allocate | src/cex-device-plugin/plugin.go:350-419 | each answered container is given its own device's node, which reaches its one queue, as /dev/z90crypt, and its own shadow's mounts, or nothing for an empty request; responses, nodes and metrics of a whole request; after a failed one isolation holds if and only if no half-made node was left |
| Allocation.ServedAreGiven | src/cex-device-plugin/plugin.go:380-413 | what each answered container is given: node, mounts and live queue of its own device |
| Allocation.DifferentDevicesDifferentFiles | src/cex-device-plugin/plugin.go:368-382 | different adapter, domain or index get different device files |
| Allocation.ServedAreInUse | src/cex-device-plugin/plugin.go:408-413 | every listed device that was handed out is in use since then |
| Allocation.ServedKeepsIsolation | src/cex-device-plugin/plugin.go:367-379 | serving a container keeps all nodes isolated |
| Allocation.FailureKeepsIsolationIff | src/cex-device-plugin/plugin.go:371-376 | a failed request leaves nodes isolated exactly when the node was destroyed, was there before, or was made not at all or completely; confinement survives anyway |
| Allocation.ServedNodesExist | src/cex-device-plugin/plugin.go:380-385 | the node of each answered container exists |
| Allocation.ServedNodesOnlyGrow | src/cex-device-plugin/plugin.go:367-379 | other nodes are untouched, and only those of first ids are new |
| Allocation.LeftoverIsHandedOut | src/cex-device-plugin/plugin.go:369-379 | a schedule in which a request fails and leaves a half-made node, which the next request hands out |
| NodeRuns.RunEvents | src/cex-device-plugin/podlister.go:281-304 | over any sequence of requests and collector rounds all nodes stay confined, and isolated as long as destroying works |
| NodeRuns.HandOutThenRound | src/cex-device-plugin/podlister.go:281-304 | when the round after a hand-out destroys the node: only if its old entry is overdue and no pod holds it, and then it does |
| NodeRuns.NamesAgree | src/cex-device-plugin/podlister.go:258-265 | collector, allocation and shadow building give node and shadow of a device the same names |
| NodeRuns.AllocateFrom | src/cex-device-plugin/plugin.go:388-403 | a request is served in the live mode stored in the plug-in's set, with the exact condition for that to be the right one |
| Clocks.SecondsMonotone | src/cex-device-plugin/podlister.go:284 | ages in whole seconds grow with the clock |
| Clocks.SecondsAreSeconds | src/cex-device-plugin/podlister.go:284 | an age of n lasts from n seconds on until n + 1 seconds are over |
| Tracking.Tracker.NoteActive | src/cex-device-plugin/podlister.go:171-179 | exactly the names seen for the first time are added, not used yet |
| Tracking.Tracker.Add | src/cex-device-plugin/podlister.go:174-176 | a new entry carries the time it was first seen |
| Tracking.Tracker.Mark | src/cex-device-plugin/podlister.go:258-265 | a tracked name is used now, an unknown one is left out |
| Tracking.Tracker.ExpireOne | src/cex-device-plugin/podlister.go:282-304 | an entry is deleted exactly when its last use, or its first sighting if there was none, is longer ago than its limit at the moment of the check |
| Tracking.Logged | src/cex-device-plugin/podlister.go:282-304 | each justified change keeps table and log in agreement |
| Tracking.ReclaimedOnlyWhenExpired | src/cex-device-plugin/podlister.go:281-327 | in every run, each deletion comes longer than the limit after the last use, or after the first sighting of what was never used |
| Tracking.NeverReclaimedSoonAfterUse | src/cex-device-plugin/podlister.go:293-302 | no use is followed by a deletion within the limit after use |
| Tracking.DeletedInShortPart | src/cex-device-plugin/podlister.go:281-327 | within a time no longer than the limits only entries from before are deleted, and only overdue ones |
| PodLister.IdsOfPodsExactly | src/cex-device-plugin/podlister.go:224-240 | the nested walk meets exactly the plug-in devices that containers hold |
| PodLister.Recognise | src/cex-device-plugin/podlister.go:231-239 | recognises exactly the scannable plug-in device ids |
| PodLister.Lister.constructor | src/cex-device-plugin/podlister.go:149-156 | at first nothing is tracked |
| PodLister.Lister.NoteRunning | src/cex-device-plugin/podlister.go:240-254 | the set that covers the queue is told of the running container, if there is one |
| PodLister.Lister.MarkBoth | src/cex-device-plugin/podlister.go:257-274 | node and shadow of the id are marked where tracked |
| PodLister.Lister.UsePods | src/cex-device-plugin/podlister.go:222-278 | exactly the nodes and shadows of devices in use are marked, each held device that its set lists is in use there, and no other use flag is set |
| PodLister.Lister.TellAndDestroy | src/cex-device-plugin/podlister.go:289-290 | the node is destroyed, and one set that lists its device releases it |
| PodLister.Lister.SweepNodes | src/cex-device-plugin/podlister.go:281-304 | nothing overdue is left, the kernel loses only nodes that were dropped, and just their devices are released |
| PodLister.Lister.SweepShadows | src/cex-device-plugin/podlister.go:306-327 | nothing overdue is left, and exactly the dropped shadows are removed |
| PodLister.RoundIsDone | src/cex-device-plugin/podlister.go:165-327 | adding, marking and sweeping make up a completed round |
| PodLister.ReclaimedInShortRound | src/cex-device-plugin/podlister.go:281-304 | a round no longer than the limits reclaims only what was tracked before, overdue and not held |
| PodLister.ReclaimedWhenOverdue | src/cex-device-plugin/podlister.go:281-304 | every round reclaims all that was tracked before, overdue and not held |
| PodLister.RoundInAges | src/cex-device-plugin/podlister.go:281-327 | after a completed round what is left is no older than its limit, and what was tracked before, not held and older is deleted |
| PodLister.AnnouncedAreHeld | src/cex-device-plugin/podlister.go:227-239 | an announced device in a container's list for its resource is recognised |
| PodLister.HeldMeans | src/cex-device-plugin/podlister.go:227-239 | only device ids under the plug-in's resource names are |
| PodLister.DestroyingKeepsIsolation | src/cex-device-plugin/podlister.go:290 | destroying nodes keeps the others isolated |
| PodLister.Lister.DoLoop | src/cex-device-plugin/podlister.go:158-330 | a completed round leaves nothing overdue, loses nothing it saw, marks exactly what is in use; held devices are in use or reclaimed, reclaimed ones are not in use, no other flag changes; an incomplete round only adds |
| Metrics.MetricsColl.SyncApqns | src/cex-device-plugin/metricscollector.go:128-173 | the set's APQN table after a list, other sets unchanged |
| Metrics.MetricsColl.SyncPluginDevs | src/cex-device-plugin/metricscollector.go:175-215 | the set's device table is exactly the list, kept devices keep their state |
| Metrics.MetricsColl.MarkInUse | src/cex-device-plugin/metricscollector.go:79-109 | a known device of a known set is in use since now, all else is dropped |
| Metrics.MetricsColl.NotifyAboutDestroyNode | src/cex-device-plugin/metricscollector.go:111-126 | one set releases the device; with disjoint sets the same one in any map order |
| Metrics.MetricsColl.Poll | src/cex-device-plugin/metricscollector.go:320-337 | stale use flags are dropped and all counters read, in any map order |
| Metrics.MetricsColl.PrepPromExpData | src/cex-device-plugin/metricscollector.go:351-380 | one exact record per set, exact device totals, and a request counter made of running totals |
| Metrics.DropUnlisted | src/cex-device-plugin/metricscollector.go:147-161 | exactly the entries whose decoded key is not listed are deleted |
| Metrics.AddListed | src/cex-device-plugin/metricscollector.go:162-170 | missing entries are added with a start value |
| Metrics.DropUnlistedDevs | src/cex-device-plugin/metricscollector.go:194-206 | exactly the unlisted devices are deleted |
| Metrics.AddListedDevs | src/cex-device-plugin/metricscollector.go:207-212 | missing devices are added unused |
| Metrics.ExpireDevs | src/cex-device-plugin/metricscollector.go:324-329 | devices not seen since the deadline are released |
| Metrics.PollApqns | src/cex-device-plugin/metricscollector.go:330-336 | every counter is read and a zero start value replaced |
| Metrics.CountUsed | src/cex-device-plugin/metricscollector.go:365-370 | the number of devices in use |
| Metrics.CountRequests | src/cex-device-plugin/metricscollector.go:371-374 | the sum of current minus start, and the sum of running totals |
| Metrics.CountCset | src/cex-device-plugin/metricscollector.go:360-375 | the record of one set |
| MetricsLaws.KeyDecodesIffSmallDomain | src/cex-device-plugin/metricscollector.go:56 | the key stands for its queue exactly for domains below 256 |
| MetricsLaws.SyncedApqnsExactly | src/cex-device-plugin/metricscollector.go:146-170 | for domains 0 to 255 the table holds exactly the list, and kept entries keep their counts |
| MetricsLaws.SyncOfSameApqnsIsIdentity | src/cex-device-plugin/metricscollector.go:146-170 | a list of the same APQNs changes nothing |
| MetricsLaws.UsedAtMostTotal | src/cex-device-plugin/metricscollector.go:363-370 | used devices never exceed all devices |
| MetricsLaws.SyncedDevsExactly | src/cex-device-plugin/metricscollector.go:193-212 | the device table holds exactly the listed devices, kept ones as they were and new ones unused |
| MetricsLaws.UsedCountsFlags | src/cex-device-plugin/metricscollector.go:363-370 | a record's device numbers are those of its set's devices and of those in use |
| MetricsLaws.MarkingCounts | src/cex-device-plugin/metricscollector.go:79-109 | a notice makes its set count one more used device unless it was in use already |
| MetricsLaws.PollKeepsFlagIff | src/cex-device-plugin/metricscollector.go:324-329 | a poll leaves a use flag exactly if the device was seen since the deadline |
| MetricsLaws.MarkThenPoll | src/cex-device-plugin/metricscollector.go:320-329 | a device noted once stays in use in a poll exactly until two lister intervals have passed |
| MetricsLaws.ReadingOfApqn | src/cex-device-plugin/metricscollector.go:330-332 | an APQN's key leads to its own counter |
| MetricsLaws.RequestCountsNeverFall | src/cex-device-plugin/metricscollector.go:330-336 | with growing counters and working reads, sent counts are non-negative and never fall |
| MetricsLaws.RoundsPointwise | src/cex-device-plugin/metricscollector.go:330-336 | polls act on each APQN alone |
| MetricsLaws.ReportedCountIsTrueIff | src/cex-device-plugin/metricscollector.go:333-335 | the reported count is the true one exactly when the first reading was not 0 or nothing was requested |
| MetricsLaws.PollNegativeIff | src/cex-device-plugin/metricscollector.go:332 | a count is negative exactly when its read failed after a start above 0 |
| MetricsLaws.SetCounterIsSumIff | src/cex-device-plugin/metricscollector.go:371-374 | what one set adds to the node's request counter is its sum exactly when all APQNs but the last one visited served none |
| MetricsLaws.NodeCounterIsSumIff | src/cex-device-plugin/metricscollector.go:360-375 | the node's request counter is the sum of all requests exactly when that holds for every set's visit |
| MetricsLaws.NodeCounterIsSumInEveryOrderIff | src/cex-device-plugin/metricscollector.go:360-375 | it is the sum in every order of visits exactly when no set with two or more APQNs served a request |
| MetricsLaws.NodeCounterOvercounts | src/cex-device-plugin/metricscollector.go:371-374 | a table whose 8 requests the node's counter reports as 13 |
| Grouping.GroupedIsGroupBy | src/cex-prometheus-exporter/disposer.go:85-104 | one group per set name that occurs, with the exact sums |
| Grouping.GroupedConserves | src/cex-prometheus-exporter/disposer.go:85-112 | the groups add up to the flat sum |
| Grouping.GroupedAggregates | src/cex-prometheus-exporter/disposer.go:84-112 | in any order of the nodes the groups are the table's aggregate |
| Grouping.AggregateIsUnique | src/cex-prometheus-exporter/disposer.go:84-112 | two runs over the same table give the same records |
| Grouping.ReportReplaces | src/cex-prometheus-exporter/disposer.go:133-135 | a new report replaces the node's old one in every sum |
| Disposer.DataDisposer.PurgeExpired | src/cex-prometheus-exporter/disposer.go:78-83 | exactly the reports older than 60 s at their check are dropped |
| Disposer.LifetimeIsAMinute | src/cex-prometheus-exporter/disposer.go:78-83 | a report expires when it is more than 60 seconds old |
| Disposer.DataDisposer.AddUp | src/cex-prometheus-exporter/disposer.go:84-104 | fresh records hold the aggregate of all reports, which stay untouched |
| Disposer.DataDisposer.BuildCluster | src/cex-prometheus-exporter/disposer.go:107-123 | the cluster's data are the exact group-by and the flat totals |
| Disposer.DataDisposer.UpdateClusterMcData | src/cex-prometheus-exporter/disposer.go:72-125 | the unexpired reports are published exactly and not changed |
| Disposer.DataDisposer.StoreNodeMetricsData | src/cex-prometheus-exporter/disposer.go:127-138 | the new report counts instead of the node's old one |
| Disposer.FindRecord | src/cex-prometheus-exporter/disposer.go:87-94 | finds the first record of the name |
| Disposer.AddRecord | src/cex-prometheus-exporter/disposer.go:95-102 | a report's record is added to its set's record, a fresh one if need be |
| Disposer.AddReport | src/cex-prometheus-exporter/disposer.go:86-103 | a node's whole report is added without changing it |
| Disposer.AddTotals | src/cex-prometheus-exporter/disposer.go:108-112 | the totals over all records |
| Publishing.PublishedIsASnapshot | src/cex-prometheus-exporter/disposer.go:77-124 | in every interleaving each published value is the aggregate of the table at one earlier moment |
| Publishing.PublishedIsCurrentIff | src/cex-prometheus-exporter/disposer.go:105-124 | what is published is the table's aggregate between the handler's own report and its publishing, and is the current one exactly when no set and no sum has changed since |
| Publishing.StaleDataStaysUp | src/cex-prometheus-exporter/disposer.go:105-138 | a run whose handlers are all done and whose published data miss the last report |
| Publishing.ReportInBetweenIsMissedIff | src/cex-prometheus-exporter/disposer.go:105-138 | with one report in between, the published sum is current exactly when it left the sum as it was |
| MaskFiles.Make256BitMask | src/cex-device-plugin/shadowsysfs.go:149-171 | 64 hexadecimal digits after 0x; the text, read back, has exactly the listed bits for fill 0x00 and exactly the others for 0xff |
| MaskFiles.BuildMask | src/cex-device-plugin/shadowsysfs.go:151-162 | all 32 bytes hold the wanted bits |
| MaskFiles.ApplyBit | src/cex-device-plugin/shadowsysfs.go:156-161 | one listed index changes one bit of one byte |
| MaskFiles.HexByteBits | src/cex-device-plugin/shadowsysfs.go:166-168 | two hexadecimal digits hold the eight bits in order |
| MaskFiles.FirstAndLastBit | src/cex-device-plugin/shadowsysfs.go:156-168 | the mask of the first and the last bit is 8, 62 zeros and 1 |
| MaskFiles.DigitBitCounts | src/cex-device-plugin/shadowsysfs.go:156-168 | the bits of a digit count 8, 4, 2 and 1 |
| ShadowFs.FileSystem.RemoveAll | src/cex-device-plugin/shadowsysfs.go:402 | exactly the entries below the directory are gone |
| ShadowFs.FileSystem.MakeDir | src/cex-device-plugin/shadowsysfs.go:130-138 | the directory and its missing parents are made, exactly when each of them can be; nothing else changes |
| ShadowFs.FileSystem.MakeFile | src/cex-device-plugin/shadowsysfs.go:139-148 | a new file with the content exactly when writing works, else perhaps a truncated one |
| ShadowFs.FileSystem.MakeLink | src/cex-device-plugin/shadowsysfs.go:210-218 | a new link exactly when making it works, never over an existing entry |
| ShadowFs.FileSystem.CopyFiles | src/cex-device-plugin/shadowsysfs.go:186-196 | all listed host files are copied exactly when each can be read and written; no existing file is overwritten |
| ShadowFs.FileSystem.MaybeCopyFiles | src/cex-device-plugin/shadowsysfs.go:197-209 | the same for those listed files that the host has |
| ShadowFs.FileSystem.MakeFiles | src/cex-device-plugin/shadowsysfs.go:313-317 | all listed files with their values exactly when each can be written |
| ShadowSysfs.PlannedLinkResolves | src/cex-device-plugin/shadowsysfs.go:304-393 | each link of the plan resolves inside the tree |
| ShadowSysfs.PlannedTreeIsClosed | src/cex-device-plugin/shadowsysfs.go:304-393 | a finished tree without unplanned links is closed |
| ShadowSysfs.LayoutNamesAreDistinct | src/cex-device-plugin/shadowsysfs.go:223-224 | the names of card and queue directory collide neither with each other nor with the card's files |
| ShadowSysfs.CardDirNames | src/cex-device-plugin/shadowsysfs.go:223 | the card's directory name reads back as its adapter |
| ShadowSysfs.QueueDirNames | src/cex-device-plugin/shadowsysfs.go:224 | the queue's reads back as its adapter, a dot and its domain |
| ShadowSysfs.LayoutNames | src/cex-device-plugin/shadowsysfs.go:223-240 | a device's shadow has a directory of its own, and card and queue in it are named after adapter and domain |
| ShadowSysfs.LinksLead | src/cex-device-plugin/shadowsysfs.go:322-393 | in a shadow that was made the links of card and queue lead to the driver directories and the bus, and those of the drivers and the bus to card and queue |
| ShadowSysfs.FillDir | src/cex-device-plugin/shadowsysfs.go:251-256 | the files that must be copied and those that may be missing, exactly when all copies work |
| ShadowSysfs.MakeMasks | src/cex-device-plugin/shadowsysfs.go:257-274 | the masks and ap_domain show exactly one adapter and one domain, no control domain, and full apmask and aqmask |
| ShadowSysfs.MakeBus | src/cex-device-plugin/shadowsysfs.go:246-274 | the bus directory with its copies, masks and domain file and nothing else, exactly when its steps work |
| ShadowSysfs.MakeLiveLinks | src/cex-device-plugin/shadowsysfs.go:304-310 | the four links from the card to the queue, exactly when each can be made |
| ShadowSysfs.MakeCounters | src/cex-device-plugin/shadowsysfs.go:297-321 | live links or static counter files; in live mode success does not depend on the load file, which is there if writing it works |
| ShadowSysfs.MakeDeviceLinks | src/cex-device-plugin/shadowsysfs.go:322-327 | the links driver and subsystem |
| ShadowSysfs.MakeCard | src/cex-device-plugin/shadowsysfs.go:276-327 | the card directory with its copies, counters and links and nothing else, exactly when its steps work |
| ShadowSysfs.MakeQueue | src/cex-device-plugin/shadowsysfs.go:329-354 | the queue directory with its copies, counters and links and nothing else, exactly when its steps work |
| ShadowSysfs.MakeBusLinks | src/cex-device-plugin/shadowsysfs.go:356-393 | the bus's links to card and queue, exactly when its steps work |
| ShadowSysfs.BuildStages | src/cex-device-plugin/shadowsysfs.go:245-393 | every planned entry is there, and below the root nothing but planned entries whose step worked, exactly when all steps work; nothing outside the shadow changes |
| ShadowSysfs.MakeShadowApSysfs | src/cex-device-plugin/shadowsysfs.go:220-404 | the shadow is made exactly when every step works, and is then complete, exact and closed, where in live mode the load file is there exactly when its write worked; else nothing is left of it |
| ShadowSysfs.LoadFailureGoesUnnoticed | src/cex-device-plugin/shadowsysfs.go:297-310 | a schedule in which only the load file's write fails and the shadow is reported as made |
| EndToEnd.SetCountsExpected | src/cex-device-plugin/plugin.go:446-456 | a set whose devices are those made from scratch lists max(1, limit) devices for each scanned APQN that is assigned to it and online, the limit being the set's own or else the default |
| EndToEnd.ExpectedMeans | src/cex-device-plugin/plugin.go:158-181 | the expected number in terms of the scan and the file |
| EndToEnd.SettledIsInStep | src/cex-device-plugin/plugin.go:228-236 | a tick that satisfies the refresh loop's condition puts the plug-in's set in step |
| EndToEnd.SettledIsEmpty | src/cex-device-plugin/plugin.go:132-136 | the plug-in of a set removed from the configuration lists no devices |
| EndToEnd.RefreshedNodeIsInStep | src/cex-device-plugin/plugin.go:183-241 | a node is in step when the plug-ins of all configured sets were refreshed and those of other sets were refreshed or stopped |
| EndToEnd.ReportAddsUp | src/cex-device-plugin/metricscollector.go:351-380 | what a node sends adds up to its table |
| EndToEnd.NodeTotals | src/cex-device-plugin/metricscollector.go:351-380 | the same in terms of APQNs and limits |
| EndToEnd.ClusterNumbersAreExact | src/cex-prometheus-exporter/disposer.go:84-112 | the cluster's devices and requests are the exact sums over all nodes, configured sets and APQNs, also on nodes that still list removed sets |

## Left out

- PodLister.Lister.DoLoop: says of each use flag whether it is set, not when its device was last seen; each notice is exact in NoteRunning and TellAndDestroy. The configuration is read once per round, while the code reads it for each id.
- ShadowSysfs.MakeShadowApSysfs: leaves out adapters and domains outside 0 to 255, whose mask bit the code could not index; no node is ever created for them. A directory and its missing parent are made in one step.
- ShadowFs.FileSystem.MakeFile: only writes new files, and so do CopyFiles, MaybeCopyFiles and MakeFiles; that no file is written twice is proved where they are called.
- Zcrypt.ZcryptNodes.AddToNode: stands for the two functions that add adapters and domains, which differ only in the mask file they write.
- Metrics.MetricsColl.MarkInUse: stands for both the allocation and the running-container notice, which do the same.
- Tracking.Tracker: one class serves both the node map and the shadow map, whose code is the same.
- Allocation.AllocateDevice: takes the outcome of building the shadow and of the live mounts as inputs; ShadowSysfs models the former.
- NodeRuns.AllocateFrom: a plug-in without a config set announces no devices; the code would end in a nil dereference if it were asked for one.
- Plugin.ResPlugin.Start: spawning the refresh loop belongs to Shutdown; the ticker is a sequence of ticks.
- DeviceIds.RoundTrip: white space in front of a scanned number is modelled for the first 256 characters only.
- `addLiveMounts`' link to the host's sysfs: it leads out of the shadow on purpose.
- `Discover` and its re-announcement of set names: a comparison of two sorted lists.
- `CryptoConfig.Equal`: only tests use it.
- JSON, SHA-256, sysfs and sysinfo scanning, regular expressions, gRPC, TCP and Prometheus plumbing: inputs or library code.
- Logging, string conversions, start-up code and shell scripts: no bookkeeping.
- File modes, umask, failing removals of shadow directories, null entries in the JSON list of sets.
- Unsynchronised access to plug-in fields by concurrent calls: Shutdown covers only the channels, the wait group and who writes the tables last.
