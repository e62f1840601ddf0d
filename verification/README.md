# Verification of the ServerSet controller's core

A Dafny model of three connected parts of the Crossplane provider for IONOS CLOUD:

- the ServerSet controller, which keeps a number of replicas, each a server, a boot volume, NICs and firewall
  rules, told apart by labels and printed names only, and replaces stale boot volumes one replica per Update;
- the generator that walks through the addresses of a subnet (prefixes as in section 3.1 of RFC 4632 and
  section 2.3 of RFC 4291);
- the substitution values of the boot volumes, kept in memory, stored in a ConfigMap, rebuilt after a restart
  and put into text.

`dafny verify dfyconfig.toml` covers the whole project.

## How the model is laid out

`Store` is the API server as the controllers see it: objects under kind and name, lists in any order, and writes
that may be refused, may succeed, or may take effect and be reported as failed. `Kube.trace` records every state
the store passes through, so that a contract can say what holds wherever a call is cut off. `Desired` says what a
replica should consist of: `Complete` is exactly the wanted objects at a pair of versions, connected with each
other; `InService` is a server with its attached boot volume and all NICs and rules of its version; `Jammed` is a
replica with two servers or two volumes.

Failures are a choice of the outside. `Kube.reliable` says that none occurs: every request is answered and what is
created becomes available. `Watch.Prompt` says that servers that exist report in time, zero or any time not before
the one asked for. Under them the calls are proved to succeed, not only to be right when they do, or the exact
condition is given. `Watch.quiet` says that a removed server has left nothing newer than the requests made later.

`NicController` and `Controllers` create objects; `CreateBeforeDestroy` and `OnlyBootVolume` are the two update
strategies; `ServerUpdate` and `Failover` bring servers to the template one reboot at a time; `Rollout`, `Creation`,
`Readiness` and `Status` are the parts of Update, Create and Observe, which `Reconciler` joins. `Shape.KeepsAll` is
what every call keeps in every state on its way;
`Reconciler.Trailed` is what an Update has done, whatever it reports. `Steps` and `Runs` are about sequences of
Updates. `Names` holds the printers and their inverses, `IpNet` the generator, `Substitution`, `ConfigMap`, `Recovery`
and `Restarts` the substitution values. `Samples` gives small stores.

Conditions taken over from the code: rules are declared on NICs with an active firewall only (`RulesActive`), since
rules are deleted for all NICs but created for active ones; a replica without a boot volume has its server, if any,
at version 0 (`ZeroWithoutVolume`), since Create reads no server version then, and every call is proved to keep it;
after a recreation the wait looks at the server listed before it.

## What the code does not do

- Under createAllBeforeDestroy with a state map, an Update that recreates a replica waits for the server it has
  removed and times out, although the replica is recreated; the rollout goes on with the next Update:
  `Samples.RemovedServerIsWaitedFor`, with the exact condition in `Reconciler.External.Update`, `Runs.KeepUpdating` and
  `Runs.KeepRetrying`.
- A NIC whose creation was accepted and then timed out keeps every later run from completing until it becomes
  available by itself: `NicController.CutOffForGood`, with the exact condition in `NicController.RerunCompletes`. The same
  holds for rules (`Controllers.EnsureFirewallRules`) and so for Create (`Creation.Create`).
- Create takes a boot volume it finds as it is. One that was cut off before it had an id is attached with an empty
  id and Create succeeds: `Samples.CreateAttachesNothing`, with the exact condition in `Creation.AttachedIffVolumeHadId`.
- CreateOrUpdate returns success without writing when the ConfigMap cannot be read for another reason than
  absence, and copies into a nil map when the ConfigMap was first stored without values:
  `ConfigMap.Controller.CreateOrUpdate`, `ConfigMap.EmptyMapStaysEmpty`, with the exact condition in
  `ConfigMap.FlushStoresIffNotNil` and, on whole runs, `ConfigMap.StoredNonEmptyIffValueFirst`.
- Substitution values are recorded by position. A log that does not follow the template is recorded under the wrong
  keys: `Recovery.MisalignedIsMisrecorded`, with the exact condition in `Recovery.RestoredIffInOrder`.
- A status pass in which a read fails before another is answered leaves the log in another order until a restart: exactly
  `Recovery.RebuiltIffAnsweredInOrder`.
- Replacement depends on the map order when one key begins another: `Substitution.OrdersDisagree`, exactly
  `Substitution.ConfluentIffPrefixFree`.
- An empty diff does not mean that Update has nothing to write, when only one side sets the multi-queue flag:
  `Readiness.EmptyDiffMayNeedUpdate`.
- When the leader holds a lease and is recreated under another name, nobody leads until the lease moves: exactly
  `Runs.LeaderAfterLast`.

## Model

| member | source | states |
|---|---|---|
| `Runs.Converges` | internal/controller/serverset/serverset.go:605-649 | over any run of successful Updates of a complete set with n stale replicas, the first n Updates recreate one stale replica each, every later one recreates none, and after j Updates max(0, n-j) replicas are stale |
| `Runs.OnceEach` | internal/controller/serverset/serverset.go:605-649 | a replica recreated once is not stale again and is not picked again in the same run |
| `Runs.LeaderLast` | internal/controller/serverset/serverset.go:620-645 | when the leader is picked it is still the leader, the only stale replica, and the last one of the rollout, whatever the strategy and list orders |
| `Runs.LeaderStays` | internal/controller/serverset/serverset.go:593-603 | the replica the leader is read from stays the same through the run until it is picked itself; every Update was called with it |
| `Runs.ListOrderDoesNotMatter` | internal/controller/serverset/serverset.go:607-616 | two rollouts from the same store, under any list orders, leaders and numbers of Updates, end with the same objects under the same names and the same parameters (ids aside) |
| `Runs.EndOfRollout` | internal/controller/serverset/serverset.go:605-649 | an ended rollout is complete and fits the template: stale replicas are up by exactly one version with the template's boot volume, all others are as they were up to what is updated in place |
| `Runs.OneActive` | internal/controller/serverset/serverset.go:275-304 | at any point of a rollout the statuses computed from any server list name at most one active replica |
| `Runs.LongRunEnds` | internal/controller/serverset/serverset.go:605-649 | with more Updates than stale replicas the last Update found nothing stale |
| `Runs.KeepUpdating` | internal/controller/serverset/serverset.go:471-500 | Observe and Update in turn, up to the first failure, produce such a run from the real calls; wherever it stops services are kept; when nothing fails outside every round succeeds, except that under createAllBeforeDestroy with a state map, where removed servers have left old reports only, it fails exactly if a replica is stale |
| `Runs.KeepRetrying` | internal/controller/serverset/serverset.go:605-686 | going on after failures, when nothing fails outside the store goes through the rollout under every strategy; none of the Updates reports a failure, or, waiting for removed servers that have left old reports only, exactly those that recreate a replica do |
| `Runs.LeaderAfterLast` | internal/controller/serverset/serverset.go:374-404 | after the leader went last it leads on, except exactly when it holds a lease and createAllBeforeDestroy replaced it: then nobody leads |
| `Steps.StepOfCompleteSet` | internal/controller/serverset/serverset.go:605-649 | one successful Update of a complete set: complete again with exactly one stale replica (if any) one version up, the leader only if no other is stale, all other replicas the same up to in-place fields |
| `Steps.CompleteStands` | internal/controller/serverset/serverset.go:502-649 | a complete set has all an Update needs to go through: every server its one volume, every stale replica its versions |
| `Steps.RunTracks` | internal/controller/serverset/serverset.go:605-649 | at every point of a run the versions are the first ones raised by one exactly where a stale replica was renewed, and renewed volumes carry the template |
| `Reconciler.External.Update` | internal/controller/serverset/serverset.go:471-500 | whatever it reports, services, jammed replicas and creatable replicas are kept, nothing but servers is written before all of them fit and their reboots were confirmed, and at most one replica is exchanged, the leader only when no other is stale, with a state map only after every listed server was seen running with nothing written since; on success it was one rollout step, all servers fit, and nothing seen on the way was a failure; nothing is written when everything fits, something is when not; afterwards the statuses describe the store and name its leader, after a failure they are as before; on a complete set, when nothing fails outside, it is a rollout step in any case and succeeds exactly unless it recreates a replica and then waits for the server it has removed |
| `Reconciler.UpdateStore` | internal/controller/serverset/serverset.go:471-500 | the same for the writes alone: servers first, then volumes |
| `Reconciler.ReconcileVolumesFromTemplate` | internal/controller/serverset/serverset.go:580-591 | the round over the volumes with the leader read off the statuses |
| `Reconciler.StepServersFit` | internal/controller/serverset/serverset.go:471-500 | after a successful Update every server fits the template, the exchanged one included |
| `Reconciler.PickIffStale` | internal/controller/serverset/serverset.go:605-645 | a step recreates a replica exactly if some boot volume is stale |
| `Reconciler.External.Observe` | internal/controller/serverset/serverset.go:121-190 | the set exists exactly if servers, volumes and NICs are as many as wanted, as in a set there in full; available exactly when everything is up and Update has nothing to write; with everything up, up to date exactly when Update has nothing to write; not up to date only if Update has; the diff is empty exactly if the counts match and nothing shown differs; the statuses describe the store's servers; the store is not touched |
| `Reconciler.ListedCounts` | internal/controller/serverset/serverset.go:140-162 | counts of any lists are counts of the store |
| `Reconciler.External.Create` | internal/controller/serverset/serverset.go:420-455 | cut anywhere it keeps what the other calls rely on, and what it made has the template's parameters, so that after a Create from the empty store everything fits; on success the set is there in full and only then is it named; on a set it has been over nothing changes; when nothing fails outside it succeeds on complete and cut-off replicas exactly if nothing of them is still on its way |
| `Reconciler.NewFitFits` | internal/controller/serverset/server_controller.go:131-164 | a store in which servers and volumes fit still fits after new ones were made from the template and servers were attached |
| `Reconciler.External.AnyCalls` | internal/controller/serverset/serverset.go:110-128 | no sequence of Observe, Create and Update calls, failing anywhere, with template edits in between that keep names and NICs, takes a replica out of service or creates or deletes an object of a replica with two servers or two boot volumes |
| `Reconciler.UnchangedWasFitting` | internal/controller/serverset/serverset.go:471-500 | an Update that succeeds and leaves the store as it was had nothing to write |
| `Reconciler.ListedUp` | internal/controller/serverset/serverset.go:767-851 | availability over any order of the lists is availability over the store |
| `Samples.OldImageIsStale` | internal/controller/serverset/serverset.go:725-745 | concrete stores a rollout can start from, for every strategy: well-formed, complete, and stale |
| `Samples.RemovedServerIsWaitedFor` | internal/controller/serverset/serverset.go:672-680 | a concrete complete and stale set, with createAllBeforeDestroy and a state map, where the report left by the server that is removed does not end the wait |
| `Failover.OldReportNotYet` | internal/controller/serverset/serverset.go:1184-1189 | a report from before the request, unless of the zero time, is not taken for running again |
| `Rollout.UpdateOrRecreateVolumes` | internal/controller/serverset/serverset.go:605-649 | one round: nothing stale and all sizes written, or exactly one stale replica recreated, the leader only when no other is stale; unchanged when all volumes fit; safe wherever it stops; also when it fails, at most one replica was exchanged, the first stale one of the list or else the leader, and only after every listed server was seen running; when nothing fails outside the round is made in any case, and reported as failed only if it waits for a removed server |
| `Rollout.ResizeUntilStale` | internal/controller/serverset/serverset.go:607-638 | walks the list up to the first stale volume that is not the leader's; volumes passed have the template's size or are the leader's stale one, and wherever it stops those behind are as listed |
| `Rollout.UpdateOrRecreate` | internal/controller/serverset/serverset.go:725-745 | size alone asks for an update, type, image or hot-plug flag for a recreation, and the parameters come out as the template's |
| `Rollout.FittingVolume` | internal/controller/serverset/serverset.go:725-745 | a volume that needs neither has the template's size, type, image and hot-plug flag |
| `Rollout.UpdateWithFailoverOrchestration` | internal/controller/serverset/serverset.go:652-686 | with a state map nothing is written, whatever it reports, unless every server was seen running, and on success the server listed before was seen running after a request made in this call; when nothing fails outside the replica is recreated in any case, and the call succeeds unless that server was removed, in which case it fails if removed servers have left old reports only |
| `Rollout.WaitedServer` | internal/controller/serverset/serverset.go:653-672 | the server waited for is still there exactly if the strategy keeps the server |
| `Rollout.FindServerByReplicaIndex` | internal/controller/serverset/serverset.go:691-699 | finds a server of the replica if the list holds one |
| `Rollout.UpdateByIndex` | internal/controller/serverset/serverset.go:701-710 | for a replica with two servers or two volumes it fails and writes nothing; otherwise recreated at the versions read, by the configured strategy, without fail if it is complete and nothing fails outside |
| `Rollout.UpdateByStrategy` | internal/controller/serverset/serverset.go:712-721 | either strategy: the volume version goes up by one, the server version by one under createAllBeforeDestroy only, other replicas untouched, safe at every step |
| `CreateBeforeDestroy.Update` | internal/controller/serverset/create_before_destroy.go:32-42 | stopped after any write, other replicas are untouched and a replica in service stays in service; on success a complete replica is complete at both next versions, nothing of the old ones is left, and the new server is ready; what it made has the template's parameters; it succeeds on a complete replica when nothing fails outside |
| `CreateBeforeDestroy.CleanupCondemned` | internal/controller/serverset/create_before_destroy.go:75-101 | only objects of the old versions go, and on success all of them are gone |
| `CreateBeforeDestroy.CreateResources` | internal/controller/serverset/create_before_destroy.go:44-73 | adds only objects of the new versions; on success all are there, wired to each other, the server booting from the new volume |
| `CreateBeforeDestroy.Replaced` | internal/controller/serverset/create_before_destroy.go:32-101 | creating everything at the next versions and then removing the old ones conserves a complete replica |
| `OnlyBootVolume.Update` | internal/controller/serverset/recreate_only_bootvolume.go:21-55 | stopped after any write the server still boots from an existing volume; on success the volume is the template's at the next version and nothing else changed; nothing is written when the volume already fits; it succeeds when nothing fails outside |
| `Service.ShrunkServed` | internal/controller/serverset/create_before_destroy.go:75-101 | removing old versions cannot take the new versions out of service |
| `Service.GrownSafe` | internal/controller/serverset/create_before_destroy.go:44-73 | adding wanted objects leaves every other replica alone and takes nothing out of service |
| `Shape.KeepsTransitive` | internal/controller/serverset/serverset.go:916-961 | what each call keeps, sequences of calls keep; a replica with two servers or volumes stays so |
| `Shape.SafeStays` | internal/controller/serverset/serverset.go:701-710 | a safe exchange of one replica keeps the services of all replicas |
| `Versions.GetVersionsFromVolumeAndServer` | internal/controller/serverset/serverset.go:916-927 | both versions are returned only for a replica with exactly one server and one volume, and are theirs |
| `Versions.GetVersion` | internal/controller/serverset/serverset.go:929-961 | two objects are refused, none is reported as none, one yields its version label |
| `Versions.ListedByReplica` | internal/controller/serverset/serverset.go:898-903 | a list by printed index has none, one or several items exactly as the replica has objects |
| `ServerUpdate.UpdateServersFromTemplate` | internal/controller/serverset/serverset.go:502-576 | on success all servers fit the template and nothing seen on the way was a failure; nothing but servers changed, up to the server of the list at which it stopped; nothing is written when all fit; its writes are serialised, each requested later than the one before |
| `ServerUpdate.RebootsDoNotOverlap` | internal/controller/serverset/serverset.go:527-570 | between a rebooting write and the next write the rebooted server's update was seen to have succeeded and, with a state map, the server running since its request; before each rebooting write every listed server was seen running with nothing written since |
| `ServerUpdate.UpdateServer` | internal/controller/serverset/serverset.go:506-575 | one server: written only if it differs, gated before and confirmed after if it reboots |
| `ServerUpdate.VolumeOfServer` | internal/controller/serverset/serverset.go:506-525 | the volume consulted is the only one of the server's own replica, whatever the list position |
| `ServerUpdate.CheckServerDiff` | internal/controller/serverset/serverset.go:1062-1093 | update exactly if a field differs, failover exactly if a differing field cannot be hot-plugged (multi-queue never can) |
| `ServerUpdate.FlagsConsulted` | internal/controller/serverset/serverset.go:1062-1093 | a change of memory alone needs a failover exactly without the memory flag, one of cores or family alone exactly without the processor flag, one of multi-queue always |
| `ServerUpdate.FittingServer` | internal/controller/serverset/serverset.go:1062-1093 | a server that needs no update has the template's cores, memory, family and multi-queue setting |
| `Failover.CheckRuntimeState` | internal/controller/serverset/serverset.go:1155-1198 | running exactly if the map says so with a readable timestamp that is zero or not before the request; an error exactly if the timestamp cannot be read or a recent report says error |
| `Failover.StateMapRead` | internal/controller/serverset/serverset.go:1155-1198 | the entries of a server in the state map, as they are named |
| `Failover.Watch.AreAllVMsReadyForFailover` | internal/controller/serverset/serverset.go:1138-1151 | true only if every listed server was seen running since the start of the controller |
| `Failover.Watch.WaitRunning` | internal/controller/serverset/serverset.go:1120-1134 | ends well only on a running report not older than the request, and never after a look that found an error |
| `Failover.Watch.WaitUpdated` | internal/controller/serverset/serverset.go:1098-1116 | ends well only on an update condition that was read as true and newer than the request, and never after one that was newer and false |
| `Status.PopulateReplicasStatuses` | internal/controller/serverset/serverset.go:275-317 | one status per listed server, each describing its own server and role |
| `Status.FetchRole` | internal/controller/serverset/serverset.go:374-404 | active exactly for a ready server that index 0 or the lease as read names |
| `Status.GetIdentityFromStatus` | internal/controller/serverset/serverset.go:593-603 | the replica index carried by the first active status, -1 without one |
| `Status.FirstActive` | internal/controller/serverset/serverset.go:593-603 | the identity is that of the first active status wherever it stands in the list |
| `Status.IdentityIsLeader` | internal/controller/serverset/serverset.go:593-603 | for every list order the identity read off the statuses is the store's leader |
| `Status.LeaderUnique` | internal/controller/serverset/serverset.go:374-404 | a store has only one leader |
| `Status.AtMostOneActive` | internal/controller/serverset/serverset.go:275-304 | with one server per replica at most one status is active |
| `Creation.Create` | internal/controller/serverset/serverset.go:420-455 | on success every replica that was complete or a cut-off creation has exactly its objects, attached to its own volume, with the volume's id as found, and nothing of them was on its way before; without failures that is exactly what success takes; on a set it has been over nothing changes; safe wherever it is cut |
| `Creation.CreateReplica` | internal/controller/serverset/serverset.go:430-449 | one turn touches its own replica only and is safe at every step |
| `Creation.EnsuredIsWhole` | internal/controller/serverset/serverset.go:430-449 | after a successful turn exactly the wanted objects exist, wired to each other |
| `Creation.WholeUnchanged` | internal/controller/serverset/serverset.go:430-449 | a turn for a replica that a successful turn has been over changes nothing, with or without a volume id |
| `Creation.EnsuredWasResumable` | internal/controller/serverset/serverset.go:963-1015 | a successful turn needed that no server without an id, and no unavailable NIC or active rule, was there |
| `Creation.AttachedIffVolumeHadId` | internal/controller/serverset/serverset.go:457-469 | the server ends attached to a volume with an id exactly if the volume was absent or had one before |
| `Creation.WholeIsComplete` | internal/controller/serverset/serverset.go:457-469 | a whole replica is complete exactly when its volume has an id |
| `Samples.CreateAttachesNothing` | internal/controller/serverset/serverset.go:1018-1032 | a concrete store that a cut-off Create leaves, where the next Create succeeds and the server boots from no volume: the volume was found before it had an id |
| `Creation.EnsureServerAndNicByIndex` | internal/controller/serverset/serverset.go:963-1015 | a second server is refused untouched, a server without an id is dropped, success means server, NICs and rules are there, and it succeeds when nothing fails outside |
| `Creation.EnsureBootVolumeByIndex` | internal/controller/serverset/serverset.go:1018-1032 | an existing volume is taken as it is, a missing one is created |
| `Counts.WholeCounts` | internal/controller/serverset/serverset.go:142-161 | a whole set has Replicas servers, Replicas volumes and Replicas times the NICs in any list, which is what Observe compares |
| `Counts.AllNicsDistinct` | internal/controller/serverset/serverset.go:157-161 | NICs of different replicas and positions never share a name |
| `Store.ListedCount` | internal/controller/serverset/serverset.go:858-895 | a list returns as many items as there are selected objects |
| `Readiness.Judge` | internal/controller/serverset/serverset.go:140-190 | the verdict of one Observe, exactly: exists by the three counts; an error if the first server that is not good fits and reports one; available when nothing is to be written and everything is up; up to date when the first server and the first volume that are not as they should be still fit; the diff empty if the counts match and nothing shown differs |
| `Readiness.UpMeansUnfit` | internal/controller/serverset/serverset.go:767-851 | with everything up, not up to date is exactly that Update has something to write |
| `Readiness.AreServersReady` | internal/controller/serverset/serverset.go:767-827 | both answers true exactly if all servers fit and are up; otherwise the answers are those of the first server that does not |
| `Readiness.AreBootVolumesReady` | internal/controller/serverset/serverset.go:830-851 | both answers true exactly if all volumes fit and are available; otherwise the answers are those of the first volume that does not |
| `Readiness.BuildDiff` | internal/controller/serverset/serverset.go:192-263 | empty exactly if the counts match and no compared field differs |
| `Readiness.NothingToWriteInStore` | internal/controller/serverset/serverset.go:502-649 | nothing to write for any lists of the store is nothing to write in the store |
| `Readiness.EmptyDiffMayNeedUpdate` | internal/controller/serverset/serverset.go:222-224 | a server without a shown difference needs no write exactly if both or neither side set the multi-queue flag |
| `Controllers.EnsureServer` | internal/controller/serverset/server_controller.go:171-191 | adds at most the replica's server, which on success is available with an id and has the template's parameters |
| `Desired.MadeNew` | internal/controller/serverset/server_controller.go:147-152 | new servers have the template's cores, memory, family and multi-queue setting, new volumes its size, type, image and hot-plug flag, and are hot-pluggable exactly unless that is taken from the image |
| `Controllers.EnsureVolume` | internal/controller/serverset/bootvolume_controller.go:266-281 | adds at most the replica's volume; a new one has the template's parameters and is available on success |
| `Controllers.EnsureFirewallRules` | internal/controller/serverset/firewallrule_controller.go:103-132 | on success every rule of every active NIC exists with the ids of its own server and NIC, and inactive NICs get none; without failures it succeeds exactly if no rule of an active NIC was there and not available |
| `NicController.EnsureNICs` | internal/controller/serverset/nic_controller.go:191-205 | equals a run of the task machine under some schedule; on success every wanted NIC exists and is available; without failures it succeeds exactly if no wanted NIC was there and not available |
| `NicController.EveryScheduleSafe` | internal/controller/serverset/nic_controller.go:191-230 | under every interleaving and set of failures only wanted NICs are added, none twice, nothing else changes |
| `NicController.StillNoneFailed` | internal/controller/serverset/nic_controller.go:208-230 | a step nothing interferes with fails no task, under any interleaving |
| `NicController.RerunCompletes` | internal/controller/serverset/nic_controller.go:191-230 | every rerun without failures that finishes, under any schedule, completes the NICs exactly if none of them is there and not available |
| `NicController.BusyBlocks` | internal/controller/serverset/nic_controller.go:208-230 | under every schedule and set of failures a task never gets past its NIC if that is there and not available |
| `NicController.CutOffForGood` | internal/controller/serverset/nic_controller.go:208-230 | a create that was accepted and then timed out, or was reported as failed, leaves a NIC that no later run completes |
| `NicController.RejectedIsGone` | internal/controller/serverset/nic_controller.go:63-69 | a NIC that was rejected is taken away again and leaves the store as it was |
| `NicController.UndisturbedFinishes` | internal/controller/serverset/nic_controller.go:191-230 | from any subset of available NICs four undisturbed steps of each task finish with all of them |
| `Names.GetNameFrom` | internal/controller/serverset/serverset.go:1035-1037 | reading the printed name back yields base, replica and version, whatever dashes and digits the base holds |
| `Names.GetNicName` | internal/controller/serverset/nic_controller.go:37-39 | reading the printed name back yields base, replica, NIC and version |
| `Names.GetFirewallRuleName` | internal/controller/serverset/firewallrule_controller.go:207-211 | reading the printed name back yields base, replica, NIC, rule and version |
| `Names.PrintedNames` | internal/controller/serverset/serverset.go:1035-1037 | names as they are printed |
| `Names.NegativeIndexCollides` | internal/controller/serverset/serverset.go:1035-1037 | with a negative index two different sources share a name |
| `Desired.ReplicaSelects` | internal/controller/serverset/serverset.go:898-903 | an index label selects exactly the objects of the replica it was printed for |
| `Names.Itoa` | internal/controller/serverset/serverset.go:1043-1051 | a printed index reads back as the index |
| `IpNet.Increment` | pkg/ccpatch/ipnet/gen.go:11-19 | in place, the byte-wise carry yields the successor of the old contents |
| `IpNet.SuccAddsOne` | pkg/ccpatch/ipnet/gen.go:11-19 | the successor is plus one modulo 256 to the length, big-endian, for every length |
| `IpNet.Generator.Next` | pkg/ccpatch/ipnet/gen.go:59-69 | the k-th call returns base plus k-1 in an array of its own, and nil exactly after the count is used up |
| `IpNet.Generator.First` | pkg/ccpatch/ipnet/gen.go:72-74 | the original base after any number of calls |
| `IpNet.Generator.constructor` | pkg/ccpatch/ipnet/gen.go:41-56 | the cursor is a copy of the base, the count two to the number of host bits |
| `IpNet.Drain` | pkg/ccpatch/ipnet/gen.go:59-69 | no later call changes an address already returned |
| `IpNet.DrainedIsTheSubnet` | pkg/ccpatch/ipnet/gen.go:41-69 | for an aligned base the addresses are consecutive and are exactly those that share the prefix |
| `IpNet.AddressesDistinct` | pkg/ccpatch/ipnet/gen.go:59-69 | no address comes twice |
| `IpNet.PrefixIsReached` | pkg/ccpatch/ipnet/gen.go:41-69 | every address with the prefix is generated |
| `IpNet.ReachedHasPrefix` | pkg/ccpatch/ipnet/gen.go:41-69 | every generated address has the prefix |
| `Substitution.ReplaceByState` | pkg/ccpatch/substitution/substitution.go:17-32 | replaces every logged key in some order; with well-formed keys, dollar-free values and covered text the output is the text's reading with each key replaced by the value set last for it, and no dollar is left |
| `Substitution.LastValuesAreLast` | pkg/ccpatch/substitution/substitution.go:22-25 | the keys replaced are those logged, each with the value set last for it |
| `Substitution.ReplacementConfluent` | pkg/ccpatch/substitution/substitution.go:17-32 | with prefix-free keys, dollar-free values and covered text every order gives the unique reading with its references replaced, and no key is left |
| `Substitution.AnyOrderRenders` | pkg/ccpatch/substitution/substitution.go:23-29 | replacing key after key in any order renders the token sequence |
| `Substitution.ReadingUnique` | pkg/ccpatch/substitution/substitution.go:23-29 | a text has only one reading |
| `Substitution.ConfluentIffPrefixFree` | pkg/ccpatch/substitution/substitution.go:17-32 | for keys of the right form all orders agree on all texts and values exactly if no key begins another |
| `Substitution.OrdersDisagree` | pkg/ccpatch/substitution/substitution.go:23-29 | whenever one key begins another, two orders give different texts |
| `Substitution.OrderMattersForNestedKeys` | pkg/ccpatch/substitution/substitution.go:23-29 | a concrete pair of such keys, with both results |
| `Substitution.GlobalState.Set` | pkg/ccpatch/substitution/state.go:20-29 | appends one entry to the identifier's log |
| `Substitution.GlobalState.Exists` | pkg/ccpatch/substitution/state.go:48-57 | true exactly if the key is in the log; a miss leaves an empty log behind |
| `ConfigMap.Controller.CreateOrUpdate` | internal/controller/serverset/configmap_controller.go:64-94 | what is stored after each outcome, including success without a write when the map cannot be read and the panic on an empty stored map; it is one flush step of the run |
| `ConfigMap.DoAll` | internal/controller/serverset/configmap_controller.go:38-94 | any sequence of operations on the controller is a run of sets, flushes and restarts |
| `ConfigMap.FetchAfter` | internal/controller/serverset/configmap_controller.go:53-61 | after any operations, fetching a triple gives the value last set and then stored for exactly that triple |
| `ConfigMap.StoredNonEmptyIffValueFirst` | internal/controller/serverset/configmap_controller.go:64-94 | a run stores values for good exactly if something was set before the first flush that landed |
| `ConfigMap.Controller.FetchSubstitutionFromMap` | internal/controller/serverset/configmap_controller.go:53-61 | the stored value of the printed key, empty if absent or unreadable |
| `ConfigMap.StoredOnlyGrows` | internal/controller/serverset/configmap_controller.go:64-94 | no sequence of sets, flushes and restarts takes a stored key away |
| `ConfigMap.StoredIsLastFlushed` | internal/controller/serverset/configmap_controller.go:38-94 | for each triple on its own the stored value is the one last set and flushed for exactly that triple, provided a value came first |
| `ConfigMap.FlushStoresIffNotNil` | internal/controller/serverset/configmap_controller.go:80-90 | a flush that lands stores every identity exactly if it does not copy into a map stored empty |
| `ConfigMap.EmptyMapStaysEmpty` | internal/controller/serverset/configmap_controller.go:80-90 | a ConfigMap once stored empty never receives a value |
| `Names.SubstKey` | internal/controller/serverset/bootvolume_controller.go:107-115 | the printed key reads back as replica, version and key, whatever dots the key holds |
| `Names.PrintedKey` | internal/controller/serverset/bootvolume_controller.go:107-115 | a key as it is printed |
| `Recovery.RecordSubstitutions` | internal/controller/serverset/bootvolume_controller.go:94-119 | pairs substitutions with log entries by position and sets each value found |
| `Recovery.SetSubstitutions` | internal/controller/serverset/serverset.go:321-348 | also from empty memory: adds to the log exactly the stored non-empty values that were read and not logged yet, touches no other log, shows exactly the stored values, and makes the missing entry |
| `Recovery.RebuiltIffAnsweredInOrder` | internal/controller/serverset/serverset.go:321-348 | a pass answered in part and then one answered fully rebuild the log exactly if no read was answered after one that was not |
| `Recovery.PassExtends` | internal/controller/serverset/serverset.go:328-342 | a pass answered in order goes on with a log where it stands |
| `Recovery.RestoredIffInOrder` | internal/controller/serverset/serverset.go:321-348 | a log of non-empty values comes back from its record exactly if it follows the order of the template |
| `Restarts.CrashRecovery` | internal/controller/serverset/serverset.go:321-348 | after any creations, failed stores, restarts and partly answered passes: a restart and one answered pass from empty memory give each current volume exactly the log last recorded and stored for it, a second pass adds nothing, and when nothing fails outside that is the last log recorded |
| `Restarts.EveryLogFits` | internal/controller/serverset/serverset.go:321-348 | at any point of any run a volume's log is what was recorded for it since the last restart, or the first part of what was stored of it |
| `Restarts.StoredIsKept` | internal/controller/serverset/configmap_controller.go:64-94 | what is stored for a volume is the log last recorded and then stored, or nothing |
| `Restarts.RestartRebuilds` | internal/controller/serverset/serverset.go:321-348 | one answered turn rebuilds what was kept of a volume's log, and changes nothing on a full one |
| `Restarts.DoOps` | internal/controller/serverset/bootvolume_controller.go:87-119 | the real controller and logs go through exactly such a run under any operations |
| `Restarts.SetPatcher` | internal/controller/serverset/bootvolume_controller.go:94-119 | creating a volume records what its handlers logged and stores it, a failure to store being ignored |
| `Restarts.StatusPass` | internal/controller/serverset/serverset.go:275-348 | one pass is one turn for each listed replica |
| `Recovery.MisalignedIsMisrecorded` | internal/controller/serverset/bootvolume_controller.go:100-116 | a log that skipped a substitution is recorded under the wrong key |

## Left out

- The Delete call and the foreground deletion it triggers: it removes the ConfigMap and the in-memory state only.
- The address handlers for IPv4 and IPv6 substitutions: they are a contract, one non-empty value per substitution in order; address uniqueness is not claimed.
- YAML, base64 and cloud-init patching of user data, and its PCI-slot and LAN lookups: part of "a creation may fail".
- Kubernetes clients, polling intervals, timeouts, rate limits, logging and metrics; IONOS calls: any object may become available, failed or stay busy while a creation waits.
- The state map is looked at per server: what one look shows of other servers is not modelled. Removed servers may report anything unless `Watch.quiet` is assumed.
- Changes the provider makes to existing objects between two calls of a run: runs start from one store and change it by Updates only.
- Objects of other server sets, and namespaces: selectors name the set, the model holds the objects of one.
- Integer widths: indices, versions and counts are unbounded, so that labels beyond 64 bits still read back; the float32 volume size is an integer.
- States compare exactly here, while two waits compare them without regard to case.
- Parameters the core only copies: availability zones, the hot-plug flags for NICs and discs, image password, SSH keys and user data.
- Timestamps are numbers with 0 as the zero time, read by an arbitrary `parse`; the request time is any number later than those asked for before.
- NIC statuses, hostname and last-modified time in a replica's status.
- Aliasing of the in-memory identities with the data of a ConfigMap object just created.
- The mask of a generator is given by its number of ones and bits; masks with holes, for which Go reports no size, are not modelled.
- `populateReplicasStatuses` is modelled in two parts, roles in `Status` and substitution values in `Recovery`.
- The goroutines of EnsureNICs are interleaved at their calls to the store, not inside one.
- Readiness.BuildDiff: only whether the text is empty is stated, not its wording.
- Runs.ListOrderDoesNotMatter: ids may differ between two rollouts, since the provider gives them out in any order.
- Creation.Create: versions are 0 for creations that were cut off, as the code creates at version 0 only.
