# A verified model of the Omni cluster and machine controllers

Two Kubernetes controllers manage Talos clusters in Sidero Omni. The cluster controller decides which
machines belong to which set, requests reboots and tears clusters down; the machine controller converges
each machine's Omni state on its spec, reboots the machine and unwinds that state before its object may
go. This project models both over two stores and proves what their runs promise.

- `Ids.dfy`: names, their order, and the relation "the k smallest of a set".
- `Cosi.dfy`: the Omni store: resources with labels, a phase and foreign finalizers; create that
  conflicts, update that is refused during teardown, teardown and destroy.
- `OmniClient.dfy`: the client operations of `controllers/omni_client.go`.
- `Kube.dfy`: Machine objects and the API server that holds them, with versions, finalizers and a listing cache.
- `MachineController.dfy`, `MachineLifecycle.dfy`: the machine pass; convergence, the bound on teardown, no orphans.
- `Allocation.dfy`, `MachineAllocator.dfy`, `ClusterAllocation.dfy`: the plan of an allocation pass, the
  pass that carries it out, and all sets of a cluster sharing their claims.
- `AllocationRuns.dfy`, `SetRuns.dfy`, `ControlPlaneRuns.dfy`: stale listings, runs over one set, runs over
  the control plane.
- `RebootProtocol.dfy`, `DriftSignal.dfy`, `Handshake.dfy`: the reboot handshake as a two-process protocol, the code as its
  steps, and the handshake among the allocation passes.
- `Attempts.dfy`, `ClusterTeardown.dfy`, `TeardownRuns.dfy`, `TeardownRank.dfy`: deletion and pruning, their
  retries, and the rank that bounds them.
- `Ownership.dfy`: the two passes of the cluster controller and the owner label.
- `Kubeconfig.dfy`: the age of the stored token.

The classes keep the form of the code: methods that update the stores step by step, each proved against a
function or relation of the state before it. The main results are lemmas about those relations, over all
inputs and all runs.

## What does not hold

- "At most one machine down at a time" (README.md, lines 439 to 443). The health of the cluster and the
  pending requests are read at different moments. If one machine owes a reboot and another one drifts when
  the health is checked, the first may be called and stamped in between, and the pass then requests the
  second. `TwoDownIff` shows that this is exactly when it can happen, `TwoDownIsReachable` that it does; `AtMostTwoBusy`
  is the bound that holds.
- A cooldown of ten minutes between the attempts at rebooting a machine (README.md, lines 454 and 455). The
  stored stamp is cut to the second. The next attempt can come early exactly when the stamp so cut lies
  before the call (`CooldownFailsIff`); the bound that holds where no stamp is lost is ten minutes less one
  second (`CallsAreSpaced`, reached by `SpacingIsTight`), and a lost stamp removes it (`LostStampRepeats`).
- The backstop of a cluster deletion deletes the node it finds a machine by before the machine's patches
  and kernel arguments. Over a reliable connection they are lost exactly when the node is free to go while
  one of them is held (`BackstopLeaksIff`); where calls may be lost, exactly when the node is free to go and
  there are any (`LostCallLeaksIff`). No later attempt finds them (`LeaksStay`).
- That a patch which Omni renders anew is not rewritten (controllers/omni_client.go, lines 440 to 442 and 514
  to 516). A wanted document always parses as JSON; a stored one that Omni shows in another form, such as
  YAML, does not, is never equal to it, and is rewritten by every pass. The next pass is quiet exactly when
  every wanted patch is shown in a form that parses (`NextPassIsQuietIff`).
- A second pass on a stale listing agrees with the first exactly when the names it must pick again are still
  on offer and no newcomer sorts before one of them; otherwise it may over-allocate (`StaleRerunAgreesIff`).
- An earlier set can pick a later set's unbound machine (`EarlierSetTakesUnbound`).
- A cluster without the owner label may be torn down by any cluster object of its name (`DeleteRemovesIff`).

## Assumptions

- Passes for one object are serialised, and a pass reads the Omni store as it is. Machine listings come from
  a cache: where a result needs a current listing, or tolerates a stale one, its hypothesis says so.
- A call may fail at any point unless the flag `reliable` is set; a failed call has no effect.
- Omni refuses an update of a resource that is being torn down, and destroys only what nothing holds.
- A machine bound in Omni is not available where a result says that machines are not on offer.
- Omni shows a machine whose reboot call it accepted as not running and ready from the call until the machine
  has rejoined. The bounds on machines that are down depend on it.
- Machine objects join the reboot handshake while the cluster controller is not between its health check and
  its request, since the same pass creates them before, and leave it while their own controller is not in a
  pass on a reboot.
- While a deletion or a pruning is retried, nothing is created or relabelled in Omni for its sets, and their
  machine sets are removed by the retries only.
- An object that a listing shows in a cluster is in that cluster, and the controller of a machine whose object does
  not carry the finalizer is not in a pass on a reboot.
- The clock never goes back; times are nanoseconds, stored times whole seconds.
- One machine has at most one Machine object across namespaces (`ReleaseIgnoresTheSet` shows what happens
  otherwise), and the patch names of a machine are distinct where a result says so.
- What is pushed down to the server for a selector may only narrow: it never loses a match.
- A cached object is never ahead of the server, and at the same version it is the same object.
- An object that is being deleted carries the finalizer, as the API server keeps no others.

## Model

| member | source | states |
|---|---|---|
| `Cosi.State.TeardownAndDestroy` | controllers/omni_client.go:203-218 | Marks the resource and destroys it when nothing holds it; over a reliable connection it succeeds exactly when no finalizer is held, and a missing resource counts as gone |
| `OmniApi.OmniClient.EnsureCluster` | controllers/omni_client.go:127-162 | Creates, signs or updates the cluster; fails and writes nothing exactly when another owner's label is on it or the cluster is being torn down and would have to change |
| `OmniApi.OmniClient.ClusterOwner` | controllers/omni_client.go:166-177 | The owner label, absent when the cluster is missing or not labelled |
| `OmniApi.OmniClient.EnsureMachineSet` | controllers/omni_client.go:181-194 | An existing set is left as it is, a missing one is created with the cluster label |
| `OmniApi.OmniClient.EnsureStrings` | controllers/omni_client.go:455-500 | Extensions and kernel arguments: created, left alone when equal item by item, or rewritten, which needs the running phase |
| `OmniApi.OmniClient.ListMachineSetIDs` | controllers/omni_client.go:284-297 | Exactly the sets labelled with the cluster, each once |
| `OmniApi.OmniClient.AllocatedMachineSetNodes` | controllers/omni_client.go:300-313 | Exactly the machines bound to the set, each once |
| `OmniApi.OmniClient.MatchingMachines` | controllers/omni_client.go:254-270 | Narrowing on the server and matching again on the client yields exactly the available machines the selector matches |
| `OmniApi.OmniClient.SelectAvailableMachines` | controllers/omni_client.go:229-280 | The `count` smallest names among the available matching machines, sorted, or all of them when there are fewer; an invalid selector is an error |
| `OmniApi.OmniClient.MachineSetNodeHealth` | controllers/omni_client.go:330-364 | One entry for each member of the set: ready means running and ready, and a machine without a status is not connected |
| `OmniApi.OmniClient.GetDriftingMachines` | controllers/omni_client.go:58-90 | Returns such a report as the next row describes, for what Omni shows |
| `OmniApi.ReportedIff` | controllers/omni_client.go:67-87 | A machine is reported, with its address, exactly when every member of the cluster is running and ready and it is a member that is not up to date and has no config error |
| `OmniApi.OmniClient.EnsureMachineSetNode` | controllers/omni_client.go:367-398 | Binds an unbound machine; a node that exists is accepted exactly when it belongs to this set |
| `OmniApi.OmniClient.EnsureConfigPatch` | controllers/omni_client.go:410-450 | Creates the patch, or rewrites it exactly when the documents are not equal as JSON; a rewrite needs the running phase |
| `OmniApi.OmniClient.PruneConfigPatches` | controllers/omni_client.go:571-596 | Every patch of the machine outside the kept ones is marked, even after one is not finished; success means that none of them is left |
| `OmniApi.OmniClient.DeleteConfigPatches` | controllers/omni_client.go:544-567 | The same for all patches of the machine |
| `OmniApi.OmniClient.ReleaseMachine` | controllers/machine_controller.go:265-276 | Node, patches, kernel arguments, in this order even when calls are lost; over a reliable connection it stops after the first stage that is not finished |
| `Ids.FirstNamesAreLeast` | controllers/omni_client.go:272-279 | Truncating a sorted list keeps the smallest names |
| `Ids.LessIff` | controllers/omni_client.go:272-275 | The order of names: one comes before another when, after what they share, it ends or goes on with a smaller character |
| `Ids.Sort` | controllers/omnicluster_controller.go:524-530 | Sorting a list of distinct names keeps the names and orders them |
| `Kube.Api.Create` | controllers/omnicluster_controller.go:610-634 | A create that finds the object there counts as done and leaves it unchanged |
| `Kube.Api.Delete` | controllers/omnicluster_controller.go:1018-1023 | Deletion marks an object that carries the finalizer and removes one that does not; a missing object is not an error |
| `Kube.Api.Update` | controllers/omnicluster_controller.go:656-660 | An update must name the current version and keeps the status; dropping the finalizer of a marked object removes it |
| `Kube.Api.UpdateStatus` | controllers/machine_controller.go:191-195 | A status update must name the current version and changes nothing but the status |
| `MachineControl.PatchIdInjective` | controllers/machine_controller.go:216-218 | Within one machine, distinct patch names give distinct resources |
| `MachineControl.PatchIdCollides` | controllers/machine_controller.go:217 | Across clusters and machines they need not: two different triples share one ID |
| `MachineControl.DistinctNamesGiveDistinctKeys` | controllers/machine_controller.go:216-218 | With distinct patch names, the wanted IDs of a machine are distinct |
| `MachineControl.MachineReconciler.EnsurePatches` | controllers/machine_controller.go:215-222 | Ensures the patches in order up to the first failure; the kept IDs are exactly those of the spec |
| `MachineControl.MachineReconciler.ApplyConfigPatches` | controllers/machine_controller.go:214-227 | After the wanted patches, prunes exactly the stray ones; with distinct names it succeeds exactly when every rewrite is allowed and no stray patch is held |
| `MachineControl.MachineReconciler.ApplyKernelArgs` | controllers/machine_controller.go:132-141 | Kernel arguments equal the spec, or are removed when the spec has none |
| `MachineControl.MachineReconciler.BindAndPatch` | controllers/machine_controller.go:121-130 | Binding and patches: the store key by key when both succeed, and exactly when they do |
| `MachineControl.MachineReconciler.Converge` | controllers/machine_controller.go:121-141 | Succeeds exactly when the machine is not bound elsewhere, no rewrite is refused and nothing stray is held; the store is then the converged one, key by key; otherwise it names the first stage that failed and its error |
| `MachineControl.MachineReconciler.Reconcile` | controllers/machine_controller.go:80-202 | A whole pass on every branch: what it may change, the converged store whenever convergence is possible, when the reboot is called (exactly after a finished convergence, when one is owed), at which address, that each call is stamped with its time, when the object goes, and the phase it reports: the reason and error of the first obstacle, `Rebooting` exactly after a refused call, `Ready` otherwise |
| `MachineLifecycle.FinishedPassConverges` | controllers/machine_controller.go:121-141 | A finished pass leaves node, patches and kernel arguments as the spec says; the patches labelled for the machine are exactly the wanted ones if and only if no wanted ID was taken by another machine's patch |
| `MachineLifecycle.NextPassCanConvergeIff` | controllers/omni_client.go:443-449 | After a finished pass, with the documents as Omni shows them, the next pass can finish exactly when every wanted patch that does not parse as JSON may still be rewritten |
| `MachineLifecycle.NextPassIsQuietIff` | controllers/omni_client.go:440-449 | It writes nothing exactly when every wanted patch is shown in a form that parses: one rendered otherwise is rewritten by every pass |
| `MachineLifecycle.SecondPassIsQuiet` | controllers/machine_controller.go:121-141 | Where Omni keeps documents as written, the second pass is possible and writes nothing |
| `MachineLifecycle.SharedNamesAgree` | controllers/machine_controller.go:215-222 | Two patches of one machine with the same name but different documents can never both be in place |
| `MachineLifecycle.ReleaseFinishesIff` | controllers/machine_controller.go:265-276 | A release finishes exactly when no stage is held, and then leaves nothing of the machine |
| `MachineLifecycle.ReleaseIgnoresTheSet` | controllers/omni_client.go:404-407 | Teardown unbinds by the machine alone, whichever set and cluster it is bound to |
| `MachineLifecycle.RetryGetsFurther` | controllers/omni_client.go:555-561 | Each retry passes one stage more, for any number of patches |
| `MachineLifecycle.FourAttemptsSuffice` | controllers/machine_controller.go:265-276 | If Omni lets go between attempts, the fourth attempt finishes |
| `MachineLifecycle.HeldStagesFail` | controllers/machine_controller.go:265-276 | Four is exact: with something held in every stage the first three attempts fail |
| `MachineLifecycle.StepKeepsNoOrphans` | controllers/machine_controller.go:91-112 | Every step of every actor keeps each node, patch and kernel arguments of a machine pass tied to an object with the finalizer |
| `MachineLifecycle.NoRunOrphans` | controllers/machine_controller.go:91-112 | Over every run nothing is orphaned, and an object with the finalizer goes only when its node, patches and kernel arguments are gone |
| `Allocation.PlanExists` | controllers/omnicluster_controller.go:457-575 | Every situation has a plan: the decision of a pass is defined for all listings, bindings and pools |
| `Allocation.PlanUnique` | controllers/omnicluster_controller.go:520-530 | And only one: it depends on the sets of machines and their health, not on any listing order |
| `Allocation.ScaleUpIsExact` | controllers/omnicluster_controller.go:474-508 | Scale-up succeeds exactly when enough free machines exist, and then the set has the desired size; on a shortage nothing is created beyond adoptions |
| `Allocation.PickedIff` | controllers/omnicluster_controller.go:477-508 | Which machines a pass picks, read off what it reads: free ones before which fewer free names sort than machines are needed, if there are enough |
| `Allocation.WorkerScaleDownIsOptimal` | controllers/omnicluster_controller.go:510-573 | A worker set keeps exactly the desired number, evicts exactly the excess over the unhealthy count among the healthy, and keeps no unhealthy machine while a healthy one goes |
| `Allocation.NoBetterEviction` | controllers/omnicluster_controller.go:517-530 | No eviction of that many machines spares more healthy ones |
| `Allocation.ControlPlaneShedsOneUnhealthy` | controllers/omnicluster_controller.go:532-561 | At most one member goes, and it is the first unhealthy one by name; exactly when none goes |
| `MachineAllocator.Allocator.CreateMachines` | controllers/omnicluster_controller.go:438-455 | One object for every bound machine without one, up to the first failure |
| `MachineAllocator.Allocator.PickUnclaimed` | controllers/omnicluster_controller.go:483-492 | The candidates nobody has claimed, as many as are needed |
| `MachineAllocator.UnclaimedAreLeast` | controllers/omnicluster_controller.go:478-496 | Asking for as many more candidates as there are claims suffices: filtering leaves exactly the smallest free names, or shows that too few exist |
| `MachineAllocator.Allocator.FindFree` | controllers/omnicluster_controller.go:476-496 | The `needed` smallest free names, or fewer when fewer are free |
| `MachineAllocator.Allocator.ClaimListed` | controllers/omnicluster_controller.go:462-471 | Every listed name is claimed; active and deleting machines are told apart |
| `MachineAllocator.Allocator.AdoptAndClaim` | controllers/omnicluster_controller.go:434-471 | Adoption and claims, with the machines that stay |
| `MachineAllocator.Allocator.AddMachines` | controllers/omnicluster_controller.go:499-505 | One object and one claim for each picked machine, in order, up to the first failure |
| `MachineAllocator.Allocator.PickAndAdd` | controllers/omnicluster_controller.go:476-505 | Creates the needed smallest free names, or none when too few are free |
| `MachineAllocator.Allocator.ScaleUp` | controllers/omnicluster_controller.go:474-508 | Creates exactly what the plan creates, or nothing on a shortage |
| `MachineAllocator.Allocator.CountRemovals` | controllers/omnicluster_controller.go:510-561 | How many members go: the excess for workers; for the control plane none or one, and an error below one replica |
| `MachineAllocator.Allocator.ScaleDown` | controllers/omnicluster_controller.go:510-573 | Evicts exactly what the plan evicts; the rest stays |
| `MachineAllocator.Allocator.SyncOne` | controllers/omnicluster_controller.go:639-661 | Labels, set, role, patches and kernel arguments become those of the set; reboot request, address, status, finalizer and deletion mark stay; a machine already in sync is not written |
| `MachineAllocator.Allocator.SyncMachines` | controllers/omnicluster_controller.go:576-586 | Every listed survivor ends in sync, freshly created ones are not touched |
| `MachineAllocator.Allocator.ApplyExtensions` | controllers/omnicluster_controller.go:588-598 | The set's extensions equal the spec, or are removed when it lists none |
| `MachineAllocator.Allocator.Resize` | controllers/omnicluster_controller.go:473-574 | The three branches of a pass carry out the plan |
| `MachineAllocator.Allocator.ReconcileAllocation` | controllers/omnicluster_controller.go:412-605 | A whole pass over one set carries out the plan of what it read, or a part of it when a call fails; the value lists exactly the machines the plan keeps; over a reliable connection it succeeds exactly when the plan is an allocation and the extensions can be written, and names a shortage or a control plane below one |
| `MachineAllocator.PassInFields` | controllers/omnicluster_controller.go:610-661 | What a pass, finished or not, does to a machine: one that was there keeps request, address, status and finalizer and is marked for deletion only if evicted; a new one has no request and no finalizer; new and rewritten ones have the role, patches and kernel arguments of the set |
| `MachineAllocator.HealthyIff` | controllers/omni_client.go:330-364 | The health a scale-down goes by: connected, and a running and ready member of this set |
| `ClusterAllocation.SetIdsAreDistinctIff` | controllers/omnicluster_controller.go:387-388 | Set IDs are distinct exactly when worker names are and none of them is `control-planes` |
| `ClusterAllocation.SetIdsCollide` | controllers/omnicluster_controller.go:388 | Across clusters two different sets may share an ID |
| `ClusterAllocation.ClusterAllocator.AllocateOne` | controllers/omnicluster_controller.go:351-376 | Ensures the set, then allocates it |
| `ClusterAllocation.ClusterAllocator.AllocateSets` | controllers/omnicluster_controller.go:128-139 | The control plane, then the worker sets in order, each with its ID, role and part of the spec, sharing the claims: each pass starts from the claims and objects the one before it left; over a reliable connection it stops only at a set whose plan or extensions are refused |
| `ClusterAllocation.ClusterAllocator.AllocateWorkers` | controllers/omnicluster_controller.go:383-403 | The worker sets' part of it |
| `ClusterAllocation.SetsAreShed` | controllers/omnicluster_controller.go:510-573 | Of the control plane a pass sheds at most one member, an unhealthy one, while none is leaving; of an over-full worker set the whole excess, as few healthy machines as possible |
| `ClusterAllocation.NeverRepicked` | controllers/omnicluster_controller.go:462-471 | A machine an earlier set keeps, evicts or is losing is never picked for a later set of the same pass |
| `ClusterAllocation.OverlapIsExactly` | controllers/omnicluster_controller.go:477-505 | What two sets have in common is exactly what the earlier one picked although the later one already had it |
| `ClusterAllocation.OverlapIff` | controllers/omnicluster_controller.go:477-505 | The same on what the two sets read: the machine is active in the later set and stays, is free for the earlier one, and fewer free names sort before it than that set needs |
| `ClusterAllocation.SetsAreDisjoint` | controllers/omnicluster_controller.go:128-139 | If the later sets' machines are not on offer, and bound machines have no object of another set, the kept machines are pairwise disjoint |
| `ClusterAllocation.ReportedOnce` | controllers/omnicluster_controller.go:128-139 | So no machine is reported under two sets |
| `ClusterAllocation.EarlierSetTakesUnbound` | controllers/omnicluster_controller.go:477-505 | Without the first condition it fails: one view, with a worker machine that has its object but is not bound yet, on which the control plane picks that machine and both sets report it |
| `AllocationRuns.StaleRerunAgreesIff` | controllers/omnicluster_controller.go:424-508 | After a pass that succeeded, a second pass whose listing misses any of the machines just adopted or created, any of which have been bound meanwhile, and whose pool may be any other, comes to the same set exactly when the names it must pick again are still on offer and no newcomer sorts before one of them; otherwise it creates nothing or the set ends above the desired size |
| `AllocationRuns.ShortageAgain` | controllers/omnicluster_controller.go:494-497 | A pass that found too few machines finds too few again when none has joined the pool |
| `AllocationRuns.StaleRerunIsAbsorbed` | controllers/omnicluster_controller.go:424-508 | So where machines only leave the pool, whoever took them, and none of those to pick again does, the second pass comes to the same set |
| `AllocationRuns.StaleRerunKeepsObjects` | controllers/omnicluster_controller.go:630-632 | Starting from any later objects, it creates none: all its creates find the object there |
| `AllocationRuns.ClusterRerunIsAbsorbed` | controllers/omnicluster_controller.go:128-139 | Over all sets of a cluster, when none was over-full, every set comes to the same machines and hands on the same claims |
| `AllocationRuns.ClusterRerunKeepsObjects` | controllers/omnicluster_controller.go:128-139 | And no object is created for any of them |
| `SetRuns.NoOverAllocation` | controllers/omnicluster_controller.go:427-433 | Over every run of passes, finished or not and with creates that find objects of other sets, of binds, unbinds and deletions, the machines a set uses or will adopt never exceed the desired or the initial number |
| `SetRuns.ScaleUpFills` | controllers/omnicluster_controller.go:474-508 | A successful scale-up keeps exactly the desired number, all with an object: in this set, but for creates that found one in another set |
| `SetRuns.AdoptedAgainIff` | controllers/omnicluster_controller.go:438-455 | A machine that a pass evicts is left for the next pass to adopt exactly when it is bound and its object does not carry the finalizer |
| `SetRuns.PassIsEvent` | controllers/omnicluster_controller.go:412-605 | Every pass with a current listing is the allocation event of these runs; a create that finds an object of another set adds nothing to this one |
| `SetRuns.MachinePassIsEvents` | controllers/machine_controller.go:80-141 | What a machine pass does to a set is at most two of these events |
| `ControlPlaneRuns.OneMemberAtATime` | controllers/omnicluster_controller.go:532-561 | From at most one deleting member: never more than one is deleting, every evicted member was unhealthy when chosen, and eviction never goes below the desired number, counting members whose object is in another set |
| `ControlPlaneRuns.MajorityIsKept` | controllers/omnicluster_controller.go:538-561 | At every step of a run, with the health of that step, a scale-down pass or a release keeps a strict healthy majority if the members that are leaving are unhealthy |
| `ControlPlaneRuns.MajorityLasts` | controllers/omnicluster_controller.go:538-561 | So over a run on which no member turns unhealthy the majority of the start is kept |
| `ControlPlaneRuns.UnfinishedCanMove` | controllers/omnicluster_controller.go:435-561 | As long as members are to go, some step of the run below is possible: a member that is leaving is released, a binding is adopted, a member is given the finalizer, or the next one is evicted |
| `ControlPlaneRuns.FinishedIsOneShot` | controllers/omnicluster_controller.go:538-561 | Where no member is leaving and those left are all healthy or no more than desired, exactly the first unhealthy members by name have gone: the size less the larger of the desired number and the healthy count |
| `ControlPlaneRuns.RunRefinesOneShot` | controllers/omnicluster_controller.go:538-561 | Every run that keeps changing something ends within a bound and carries out this one decision: runs with adoptions, with members that do not have the finalizer yet, and with any change in the health of machines already evicted |
| `ControlPlaneRuns.StartIsUnderway` | controllers/omnicluster_controller.go:538-561 | The hypotheses at the start: the members are all machines the set uses or will adopt, at least as many as desired, and none is leaving |
| `ControlPlaneRuns.UnguardedEvictionRepeats` | controllers/omnicluster_controller.go:438-455 | A machine evicted without the finalizer may keep its set from ever settling: one that is adopted and evicted in one pass is adopted and evicted again |
| `RebootProtocol.StepKeepsInv` | controllers/omnicluster_controller.go:251-320 | What every step of the handshake keeps |
| `RebootProtocol.StartIsGood` | api/v1alpha1/machine_types.go:33-39 | Before any request is written, the hypotheses of the results below hold |
| `RebootProtocol.AtMostOneOwed` | controllers/omnicluster_controller.go:269-281 | Over every interleaving, with machines joining and leaving, at most one machine of the cluster owes a reboot |
| `RebootProtocol.AtMostTwoBusy` | controllers/omnicluster_controller.go:184-202 | With the health and the requests read at different moments, at most two machines are owed a reboot or down |
| `RebootProtocol.AtomicReadsAllowOne` | controllers/omnicluster_controller.go:184-202 | Read in one step, it would be at most one |
| `RebootProtocol.TwoDownIff` | README.md:439-443 | With nothing down, a pass can take two machines down exactly when, at the moment it checks the health, one machine owes a reboot and another one drifts; the documented promise of one machine at a time is not kept on every run |
| `RebootProtocol.TwoDownIsReachable` | README.md:439-443 | A run from a start without any request reaches this condition |
| `RebootProtocol.NoRequestIsDropped` | controllers/machine_controller.go:143-163 | While the object stays, a request stays owed until a call is made after it, also when stamps are lost |
| `RebootProtocol.NewRequestIsOwed` | controllers/omnicluster_controller.go:1083-1095 | A request that is written is owed, although both times are cut to seconds |
| `RebootProtocol.StampClears` | controllers/machine_controller.go:150-153 | A stamp that is written clears the request it answers |
| `RebootProtocol.CallsAreSpaced` | controllers/omnicluster_controller.go:35-38 | When no stamp is lost, two calls of one machine are more than the cooldown less one second apart |
| `RebootProtocol.CooldownFailsIff` | README.md:454-455 | After a call that was stamped, the machine can be called again less than ten minutes later exactly when the stamp, cut to the second, lies before the call |
| `RebootProtocol.SpacingIsTight` | controllers/omnicluster_controller.go:1090 | The second is really lost: a run on which no stamp is lost reaches the bound |
| `RebootProtocol.LostStampRepeats` | controllers/machine_controller.go:191-195 | Where a stamp is lost the machine is called again at once |
| `DriftSignal.DriftSignaller.AnyRebootInFlight` | controllers/omnicluster_controller.go:1071-1078 | Whether any listed machine owes a reboot |
| `DriftSignal.DriftSignaller.SelectCandidate` | controllers/omnicluster_controller.go:1083-1095 | The first drifting machine that has an object and is past its cooldown |
| `DriftSignal.DriftSignaller.SignalDriftReboots` | controllers/omnicluster_controller.go:251-320 | Requests at most one reboot, only while none is owed, and of the first candidate: the object gets the time in seconds and the reported address, and keeps everything else; when each of the other outcomes occurs, and that over a reliable connection only a stale listing of the candidate is an error |
| `DriftSignal.DriftReportIsHealthRead` | controllers/omnicluster_controller.go:184-202 | Where the machines that are down are among the members shown as not steady, a drift report that names a machine is the protocol's health read with nothing down; with every member steady, the pass goes on exactly when one drifts |
| `DriftSignal.SignalIsListAndWrite` | controllers/omnicluster_controller.go:262-306 | With a current listing, a request is the protocol's listing and write |
| `DriftSignal.RefusedSignalIsWrite` | controllers/omnicluster_controller.go:304-308 | A request for an object written or removed since it was listed is refused, and the protocol's write changes nothing either |
| `DriftSignal.NoSignalIsList` | controllers/omnicluster_controller.go:272-302 | Every other outcome is the protocol's listing that ends the pass |
| `DriftSignal.CreationIsJoin` | controllers/omnicluster_controller.go:610-634 | A Machine object that is created is a machine that joins the protocol |
| `DriftSignal.RemovalIsLeave` | controllers/machine_controller.go:92-102 | One that is gone has left it |
| `DriftSignal.OtherWriteIsTouch` | controllers/omnicluster_controller.go:639-661 | Any other write touches the object: request and last reboot stay |
| `DriftSignal.RebootPassIsSteps` | controllers/machine_controller.go:149-195 | A rebooting machine pass that nobody interrupts is the protocol's read, call, return and stamp |
| `DriftSignal.InterruptedPassIsSteps` | controllers/machine_controller.go:191-195 | One that another writer interrupts is these steps with a touch between: the stamp is refused and the reboot is still owed |
| `Handshake.PassKeepsRequests` | controllers/omnicluster_controller.go:576-586 | An allocation pass over a set changes no request and no last reboot, and removes no machine with the finalizer |
| `Handshake.AllocationIsBookkeeping` | controllers/omnicluster_controller.go:128-139 | The allocation of all sets, as far as it came, is a run of the protocol on which machines join, are touched and leave |
| `Handshake.AllocationDropsNoRequest` | controllers/omnicluster_controller.go:636-661 | A reboot that is owed before such a pass is still owed after it, also for a machine that is synced or evicted |
| `Handshake.ReportedAddressIsCalled` | controllers/machine_controller.go:149-151 | From the report to the call: whatever allocation and machine passes come between, the pass that answers a request calls the address Omni reported for the machine |
| `ClusterTeardown.Remover.ReleaseMachines` | controllers/omnicluster_controller.go:706-710 | Releases machines one after another: finished exactly when nothing of theirs is held |
| `ClusterTeardown.Remover.DeleteSet` | controllers/omnicluster_controller.go:711-716 | The extensions go before the set |
| `ClusterTeardown.Remover.DeleteMachineSetMachines` | controllers/omnicluster_controller.go:1027-1038 | Deletes exactly the set's machines that are not being deleted; the value is the number of those listed |
| `ClusterTeardown.Remover.PruneSet` | controllers/omnicluster_controller.go:692-716 | Nothing of a set is touched while it has a machine; then nodes, extensions and set, in this order |
| `ClusterTeardown.Remover.PruneOrphanedMachineSets` | controllers/omnicluster_controller.go:672-719 | Only undeclared sets are touched; a set goes only without machines, nodes and extensions; over a reliable connection it fails exactly when a set still has machines, which are then all deleted, or something is held and told to go |
| `ClusterTeardown.Remover.DeleteAllMachines` | controllers/omnicluster_controller.go:759-770 | Finished exactly when the cluster has no machine left |
| `ClusterTeardown.Remover.RemoveCluster` | controllers/omnicluster_controller.go:772-806 | The nodes of all sets, then extensions and sets, then the cluster, which goes only when no set is left |
| `ClusterTeardown.Remover.DeleteOmniResources` | controllers/omnicluster_controller.go:733-809 | A cluster signed by somebody else is left alone; nothing in Omni is touched while a machine is left; over a reliable connection both secrets and every machine are deleted in any case; success means the whole footprint is gone |
| `ClusterTeardown.DeclaredAreSpared` | controllers/omnicluster_controller.go:672-689 | Pruning never touches a declared set, its extensions or its bindings |
| `TeardownRuns.RetriesAreComplete` | controllers/omnicluster_controller.go:772-806 | Whatever attempts failed before and wherever, the one that succeeds leaves no set there was at the start, none of its nodes or extensions, and no cluster |
| `TeardownRuns.FailuresAreBounded` | controllers/omnicluster_controller.go:772-806 | If Omni lets go of everything between attempts, there are at most as many failures as resources not yet marked |
| `TeardownRank.AttemptLowersRank` | controllers/omni_client.go:203-218 | The rank counts resources that exist, those not marked, and finalizers held: no attempt raises it, wherever it fails, and one that changes anything lowers it |
| `TeardownRank.LettingGoLowersRank` | controllers/omni_client.go:197-199 | Every single finalizer that Omni lets go of lowers it |
| `TeardownRank.FailureLeavesHeld` | controllers/omni_client.go:211-213 | An attempt that fails over a reliable connection leaves something marked and held, so there is something to wait for |
| `TeardownRank.ProgressIsBounded` | controllers/machine_controller.go:265-276 | Over any run of attempts, lost calls and partial releases, of one machine or of many sets, the steps that get somewhere are at most the rank of the start |
| `TeardownRank.PartialReleasesSuffice` | controllers/machine_controller.go:265-276 | If Omni lets go of as little as one finalizer between attempts, the failures are at most the rank of the start |
| `TeardownRuns.DeletionIsRemoval` | controllers/omnicluster_controller.go:772-806 | The deletion's footprint is the one these runs speak of |
| `TeardownRuns.PruningIsRemoval` | controllers/omnicluster_controller.go:672-689 | So is the pruning's |
| `TeardownRuns.BackstopLeaksIff` | controllers/omnicluster_controller.go:776-789 | Over a reliable connection the backstop loses a machine's patches or kernel arguments exactly when its node is free to go while one of them is held |
| `TeardownRuns.LostCallLeaksIff` | controllers/omnicluster_controller.go:776-789 | Where calls may be lost it can lose them exactly when the node is free to go and there is any of them at all |
| `TeardownRuns.LeaksStay` | controllers/omnicluster_controller.go:776-789 | And no later attempt finds them |
| `Ownership.ClusterReconciler.Reconcile` | controllers/omnicluster_controller.go:121-147 | Without the label's consent nothing is changed; a pass that succeeds leaves the cluster at its versions, every declared set in place, no other set, and reports the kept machines; nothing is pruned before every set is allocated, and then only machines of undeclared sets go; over a reliable connection a failure has one of three named causes |
| `Ownership.ClusterReconciler.ClaimAndAllocate` | controllers/omnicluster_controller.go:121-139 | The first half: claims the cluster and allocates every set, removing nothing |
| `Ownership.ClusterReconciler.Prune` | controllers/omnicluster_controller.go:141-147 | The second half: undeclared sets go, the cluster and the declared sets stay |
| `Ownership.ClusterReconciler.Delete` | controllers/omnicluster_controller.go:88-98 | The delete path changes nothing of a cluster signed by somebody else, and then succeeds; otherwise, over a reliable connection, it deletes every machine and both secrets, and fails exactly as long as machines are left or something is held |
| `Ownership.OwnerNeverChanges` | controllers/omni_client.go:142-151 | Over runs with several cluster objects of one name, the label once set never changes while the cluster exists |
| `Ownership.OnlyTheOwnerWrites` | controllers/omnicluster_controller.go:736-745 | And only the object it names changes anything in Omni, on either path |
| `Ownership.DeleteRemovesIff` | controllers/omnicluster_controller.go:736-745 | A delete pass removes the cluster exactly when it succeeds and nobody else has signed it, over a steady connection exactly when besides nothing of it is held: an unlabelled cluster is anybody's |
| `Ownership.SignaturesDiffer` | controllers/omnicluster_controller.go:1044-1046 | Different namespace and name pairs sign differently, as a namespace holds no slash |
| `Kubeconfig.SecretWriter.EnsureSecret` | controllers/omnicluster_controller.go:862-895 | Fetches a token only when needed; the annotation is the clock before the fetch, cut to the second |
| `Kubeconfig.PassKeepsHonest` | controllers/omnicluster_controller.go:863-893 | The annotation never makes the token look younger than it is |
| `Kubeconfig.TokenStaysYoung` | controllers/omnicluster_controller.go:843-855 | With successful passes, each of which has written no later than `gap` after the start of the one before, the stored token is younger than 30 days plus the gap |
| `Kubeconfig.TokenUntilNextWrite` | controllers/omnicluster_controller.go:862-895 | Also between the start of the next pass and its write |
| `Kubeconfig.FetchesAreSpaced` | controllers/omnicluster_controller.go:857-875 | Two passes that fetch a token are more than 30 days less one second apart |
| `Kubeconfig.SixtyDaysIsTheLimit` | controllers/omni_client.go:622-634 | Tokens never expire in place if and only if that gap is at most 60 days |

## Left out

- Metrics, events, log lines and condition messages; of the conditions only the outcome of the reboot signal is kept.
- The status of the cluster object, its phase and readiness, and the requeue intervals: no result depends on them.
- The observed generation in a machine's status: a status is written when its phase or its reboot time changes.
- The readiness gate of the whole cluster before drift is looked at: it only makes reboots rarer.
- main.go, charts, manifests and generated code; main.go is not part of this model.
- The contents of kubeconfigs and of the ArgoCD Secret; both Secrets share the one refresh decision that is modelled.
- JSON and YAML bytes: a stored document either does not parse as JSON or has a value, and two documents are equal when both parse to the same value.
- The parsing of label selectors: a selector is a validity flag with an arbitrary predicate and an arbitrary narrowing of it.
- Role labels of nodes and sets in Omni: they carry no decision. The role of a machine is kept.
- Namespaces of Machine objects: the objects of one namespace are modelled; the namespace is part of the owner label only.
- Cache lag outside the allocation pass: the reboot protocol reads the listing as it is at that moment.
- Failure of a call after it took effect on the server: a failed call has no effect.
- The resource versions of Omni: concurrent writers between a read and an update of one Omni resource are not modelled.
- Kube.Api.Create: gives every created object the same unused version in one pass, where the server numbers them apart.
- MachineLifecycle.NoRunOrphans: other actors neither relabel resources nor move an object to another cluster, which the controllers never do.
- SetRuns.NoOverAllocation: assumes current listings and no binding made by hand; stale listings are treated in AllocationRuns.
- AllocationRuns.ClusterRerunIsAbsorbed: no set of the first pass was over-full; a second pass over a set that evicts chooses anew from what it then reads.
- ControlPlaneRuns.RunRefinesOneShot: the number of replicas and the health of the members not yet evicted are the same in every pass of the run, since the one decision it is compared with is taken for one health and one number; and no pass of the run evicts a member without the finalizer, since such an eviction may be undone (`AdoptedAgainIff`, `UnguardedEvictionRepeats`).
