# Verified model of the DBaaS controller

This project models a Kubernetes controller that provisions PostgreSQL virtual machines on
Harvester, the snapshot controller and REST gateway beside it, and proves what they guarantee
over whole runs. `dafny verify dfyconfig.toml` checks everything.

## What is modelled

**The environment.** A `DBInstance` lives in a versioned store (`World.World`): every committed
version is kept, a resourceVersion is an index into them, status and metadata are written
separately, and the generation moves on spec changes and on deletion. The children of the
instance live in a cluster keyed by kind, namespace and name. One reconcile is a `Session` driven
by a script with one `Turn` per API call. A turn decides what users patch or delete just before
the call, which version a cached read serves (any, but never older than one served before),
whether the call fails without effect, fails although it took effect, or succeeds, and what a VMI
fetch shows. A script that runs out is a crash, so a crash can fall between any two effects. A
run is any number of reconciles, each with its own script; all results about runs quantify over
all initial specs, all initial clusters and all scripts.

**The code.** The controllers, the Harvester client, the gateway, the deep copies and the tenant
configuration change state step by step, so they appear as classes and methods (modules
`Controller`, `SnapshotController`, `Gateway`, `DeepCopy`, `Tenants`), each proved against a
specification function (modules `World`, `Harvester`, `Reconciler`, `Snapshot`, `Gateway`). The
theorems are about those functions. Every method of `Controller` carries the same clause, that it
takes the abstract state to the value of the function of its name; the table lists those with
loops or results of their own. The goroutines of teardown and of modify are modelled call by
call in module `Goroutines`.

**Reading order.** `Types`, `Names`, `World`, `Harvester`, `Reconciler` are the specification;
`Invariants` states what every version, step and session satisfies; `Safety` and `Phases` prove
it for every call and phase; `Theorems` and the modules after it draw the consequences. `Limits`
states what the controller does not guarantee and under which exact condition it does; `Witnesses`
shows reachable worlds for each.

**Tallies.** A world counts its misfortunes so that theorems can speak about them:
`faults.fatal` (failed calls whose error fails a provisioning phase), `faults.peering` (failed
peering calls, which are only logged), `faults.leaked` (monitoring or peering calls that took
effect without acknowledgement, and teardowns with a failed delete), `lost` (store calls that
failed or never returned, conflicts and crashes included) and `polls` (not-ready polls).

**Code and documentation disagree** in four places, and the model follows the code. API.md:267
says a failed instance is retried every 30 seconds; the reconciler only requeues it and does
nothing (`Limits.FailedIsFinal`). API.md also lists a `NamespaceCreated` phase that does not
exist. The comment at internal/gateway/auth.go:44-45 promises at most one key reload per five
seconds; there is no such limit
(`Gateway.NoReloadLimit`). The status message "monitoring setup failed, will retry" at
internal/controller/dbinstance_reconciler.go:284 is wrong: the phase advances and never returns
(`Limits.MonitorTornDownIffRecorded`).

## Model

| member | source | states |
|---|---|---|
| `Theorems.PhasesCoupled` | internal/controller/dbinstance_reconciler.go:66-101 | In every stored version of every run whose status phase is not "deleting": provisioning phase empty iff status phase empty, the seven middle phases iff "creating", Available iff one of the five running states, Failed iff "failed"; Pending or an unknown phase is never stored |
| `Theorems.LedgerIsPrefix` | internal/controller/dbinstance_reconciler.go:107-353 | In every stored version NAD, volume, VM and endpoint are recorded exactly from their phase on, VPC and subnet with the NAD or not at all, monitoring and peering never before their phase, VM and Secret together with the master user secret; every ref but a foreign NAD is the instance's own name, an endpoint has a non-empty address, and a failed instance holds a prefix |
| `Theorems.NeverBack` | internal/controller/dbinstance_reconciler.go:79-353 | Between any two stored versions of a run: the provisioning rank does not fall, failure is left only for deletion, and every ref, the CA and the endpoint once set stay, whatever stale sessions try |
| `Theorems.OnePhasePerWrite` | internal/controller/dbinstance_reconciler.go:453-467 | Consecutive versions have the same phase, the next phase, or the second is a failure |
| `Theorems.NeverPanics` | internal/controller/dbinstance_reconciler.go:271-293 | The unguarded endpoint dereference is safe in every reachable state |
| `Theorems.NoOrphanWindow` | internal/controller/dbinstance_reconciler.go:48-63 | Once any child was created, the stored object carries the finalizer until it was torn down and left unprotected |
| `Theorems.NoResurrection` | internal/controller/dbinstance_reconciler.go:426-447 | After the first teardown of a run nothing is created, however stale the reads |
| `Theorems.CreatesOnlyOwnChildren` | internal/harvester/client.go:109-588 | Only the nine deterministic keys of the instance are ever created |
| `Theorems.FinalizerRemovalUnprotected` | internal/controller/dbinstance_reconciler.go:426-447 | The finalizer is removed only by a write onto a deleting version whose spec is unprotected, under any concurrent patches, and that is the last write |
| `Theorems.CrashRecovery` | internal/controller/dbinstance_reconciler.go:79-353 | An available instance whose spec was left alone has exactly the refs the spec determines, after any crashes, lost writes and errors, and a valid class; peering may be missing only after a failed peering call, monitoring may be missing |
| `Theorems.RunsAgree` | internal/controller/dbinstance_reconciler.go:79-353 | A faulty run that gets the instance available records the same refs and master user secret as a run without any fault, the ServiceMonitor aside |
| `FaultFree.EightReconciles` | internal/controller/dbinstance_reconciler.go:57-323 | For every spec with a valid class and every initial cluster there is a run of eight reconciles without any fault or poll that has the instance available |
| `FaultFree.RefinesFaultFree` | internal/controller/dbinstance_reconciler.go:79-353 | Every faulty run that gets an unchanged instance available, with no failed peering call, has a fault-free run from the same start that records the same refs, the ServiceMonitor aside |
| `Theorems.ReachableNext` | internal/controller/dbinstance_reconciler.go:35-101 | Reachability is closed under one more reconcile |
| `Phases.DispatchOk` | internal/controller/dbinstance_reconciler.go:48-101 | Every branch of the dispatcher keeps the history and deletion invariants and never panics |
| `Phases.ReconcileOk` | internal/controller/dbinstance_reconciler.go:35-101 | One reconcile under any script keeps all invariants and only appends versions |
| `Safety.StatusUpdateOk` | internal/controller/dbinstance_reconciler.go:465-467 | A legal edit of the version that was read is a legal step of the stored history, because a stale snapshot cannot commit |
| `Progress.BoundedProgress` | internal/controller/dbinstance_reconciler.go:57-323 | With a valid class, no fatal API error and no delete, a fresh instance has become available after 8 reconciles plus one per not-ready poll and per lost store call |
| `Progress.RunPays` | internal/controller/dbinstance_reconciler.go:79-101 | The measure behind it: until available, each reconcile raises phases paid plus losses plus polls |
| `Backing.NoDanglingRefs` | internal/controller/dbinstance_reconciler.go:134-347 | Over every run with any faults: until a teardown, every recorded ref names a child that exists |
| `Backing.AvailableIsBuilt` | internal/controller/dbinstance_reconciler.go:295-299 | An available instance has its volume, VM and Secret, and its VPC, subnet and NAD if it made them |
| `Shapes.ChildrenMatchSpec` | internal/harvester/client.go:109-588 | Over every run whose spec was left alone, every child has the content the spec's own fields ask for: sizes, storage class (longhorn if empty), network, volume and Secret attachments, subnet group (10.50.0.0/24 if empty) in the subnet and in every route, peering |
| `Ordering.ChildrenInOrder` | internal/harvester/client.go:126-156 | Over every run from free names, until a teardown: a subnet has its NAD, a NAD its VPC, a VM its Secret and its volume |
| `Types.ClassTable` | api/v1alpha1/types.go:332-345 | Memory doubles and connections grow with every size of a family; the cores and memory of the first sizes and the memory per core of m5 and r5 |
| `Ownership.ChildrenNamed` | internal/harvester/client.go:110-112 | The nine child keys spelled out by kind, namespace and name |
| `Conservation.Conserved` | internal/harvester/client.go:594-633 | In a run that lost no store call, leaked nothing, and had no call fail in part (a reconcile that failed the instance let no create take effect), the children are exactly the recorded ones plus at most the metrics Service, and deletion leaves at most that Service |
| `Conservation.FatalFreeIsWhole` | internal/controller/dbinstance_reconciler.go:107-234 | Without a fatal API error no call fails in part: an invalid class and the errors of stop, start and modify fail the instance but create nothing |
| `Conservation.ConservedWithoutErrors` | internal/harvester/client.go:594-633 | Conservation under no lost store call, no leak and no fatal error alone |
| `Conservation.ConservedExactly` | internal/harvester/client.go:547-565 | The residue pinned down: beside the recorded children the metrics Service is there iff it was ever created, and it is all a deleted instance leaves |
| `Conservation.ServiceStays` | internal/harvester/client.go:594-615 | No teardown lists the Service: once on the cluster it is there after every later run, deletion included |
| `Witnesses.ResidueAfterDelete` | internal/harvester/client.go:536-565 | For every unprotected instance a world is reachable that is deleted, all deletes having succeeded, with the Service and an unrecorded ServiceMonitor left |
| `Conservation.MonitoringOutcome` | internal/harvester/client.go:536-565 | A ServiceMonitor that exists already is reported as an error; otherwise, unless it leaked, success and existence coincide |
| `Teardown.DeletingRefsFixed` | internal/controller/dbinstance_reconciler.go:426-447 | From the first deleting version on the refs are frozen |
| `Teardown.AfterTeardown` | internal/harvester/client.go:594-633 | After the first teardown, through any crashes and retries, the cluster only loses tasks of that same teardown; once all are gone it never changes again |
| `Ownership.TeardownFramed` | internal/harvester/client.go:600-615 | Teardown tasks are the instance's own children, never a NAD in direct network mode, never a child of an instance with another name; a namesake in another namespace is spared exactly when neither VPC nor peering was recorded |
| `Ownership.DisjointIffNamesDiffer` | internal/harvester/client.go:110-111 | Two instances have disjoint child keys exactly when their names differ; the namespace does not help |
| `Ownership.RunFramed` | internal/controller/dbinstance_reconciler.go:35-447 | A run leaves every object that is not one of the nine children untouched |
| `Goroutines.OnlyCountsMatter` | internal/harvester/client.go:617-632 | After any interleaving, complete or cut short, each goroutine and its object are where its own calls alone would have brought them |
| `Goroutines.OrderIndependent` | internal/harvester/client.go:617-632 | Schedules giving every goroutine as many calls end in the same cluster and the same outcomes |
| `Goroutines.TeardownAnyOrder` | internal/harvester/client.go:617-633 | Every complete interleaving of the deletes removes exactly the tasks whose call took effect |
| `Goroutines.ResizeAnyOrder` | internal/controller/dbinstance_reconciler.go:400-411 | All complete interleavings of the two resizes end alike and both goroutines finish |
| `Goroutines.ModifyAnyOrder` | internal/controller/dbinstance_reconciler.go:390-424 | Every sequential execution is the outcome of every complete schedule of two goroutines with the same fates |
| `Goroutines.EveryScheduleIsSequential` | internal/controller/dbinstance_reconciler.go:400-418 | The converse: for any fates of the four calls and any complete schedule there are turns under which the sequential resizes end in that cluster with those errors, so theorems over all scripts cover all interleavings |
| `Modify.ModifyApplies` | internal/controller/dbinstance_reconciler.go:390-424 | A modify whose writes both landed reports failure, or VM and volume have the class and storage of exactly the spec recorded as observed |
| `Outcomes.ModifyOutcome` | internal/controller/dbinstance_reconciler.go:390-424 | With no write lost: available, observed and fitting the spec iff the class is known and all four calls succeeded; otherwise failed |
| `Outcomes.StopOutcome` | internal/controller/dbinstance_reconciler.go:359-373 | With no write lost: "stopped" is stored iff the VM calls succeeded, and then the VM is off; otherwise the instance is failed |
| `Outcomes.StartOutcome` | internal/controller/dbinstance_reconciler.go:375-388 | With no write lost: "available" is stored iff the VM calls succeeded, and then the VM is on; otherwise the instance is failed |
| `Outcomes.DeleteOutcome` | internal/controller/dbinstance_reconciler.go:426-447 | With no write lost: a protected instance keeps status and children; an unprotected one leaves the store marked as deleting, without the children whose delete succeeded |
| `Outcomes.ProvisionOutcome` | internal/controller/dbinstance_reconciler.go:107-234 | With no write lost, network, storage and VM phase store failure iff a call failed fatally or the class is unknown, and the next phase otherwise |
| `Outcomes.ChecksNeeded` | internal/harvester/client.go:257-300 | Keys that cannot be generated or an unusable S3 secret that is asked for fail the VM call before anything is created |
| `Outcomes.ImageNeeded` | internal/harvester/client.go:318-329 | An image that cannot be resolved fails the VM call after the Secret and before the VM |
| `Outcomes.NewVmIsOn` | internal/harvester/client.go:331-399 | A VM that the call creates is switched on |
| `Outcomes.MonitoringFates` | internal/harvester/client.go:536-565 | The ServiceMonitor call succeeds exactly when the monitor is new and its own call is good, whatever became of the Service |
| `Outcomes.PeeringFates` | internal/harvester/client.go:574-588 | The peering call succeeds exactly when its call is good, whether or not the peering exists |
| `Outcomes.LeftAlone` | internal/controller/dbinstance_reconciler.go:73-95 | With nothing to do, or halfway through an interrupted stop, start or modify, no child changes, and the write stores "available" with the generation observed |
| `Power.StopTurnsOff` | internal/controller/dbinstance_reconciler.go:359-373 | A successful stop leaves the VM switched off, whatever became of its writes |
| `Power.StartTurnsOn` | internal/controller/dbinstance_reconciler.go:375-388 | A successful start leaves the VM switched on |
| `Power.OffUnlessStartable` | internal/controller/dbinstance_reconciler.go:66-76 | A VM that is off stays off through any later run while no version that may be read both asks to run and says "stopped" |
| `Power.StaysOff` | internal/controller/dbinstance_reconciler.go:66-76 | In particular while every version that may be read asks for it to be off |
| `Power.StartsIffStopped` | internal/controller/dbinstance_reconciler.go:66-76 | A start request switches the VM on iff the version read says "stopped"; in any other phase it is ignored or taken for a modify |
| `Witnesses.StartRequestLost` | internal/controller/dbinstance_reconciler.go:66-76 | For every instance of a valid class a world is reachable that is available, observed and asks to run, with its VM off for good |
| `Power.StopIsStable` | internal/controller/dbinstance_reconciler.go:359-373 | End to end: after a reconcile whose StopVM call succeeded the VM stays off while no readable version both asks to run and says "stopped", although the status phase oscillates |
| `Power.PowerAndModifyKeepChildren` | internal/controller/dbinstance_reconciler.go:359-424 | Stop, start and modify never create or delete a child |
| `Credentials.KeysAlwaysMatch` | internal/harvester/client.go:257-322 | Over every run, the Secret's private key and the authorized key in its userdata come from one generation call and the VM boots from that Secret |
| `Credentials.CaMatchesIffFirstCall` | internal/harvester/client.go:269-322 | The CA a call hands back equals the Secret's CA exactly when this call created the Secret |
| `Credentials.RecordingReconcile` | internal/controller/dbinstance_reconciler.go:200-233 | For the reconcile that stores the CA, whatever else happens in it: the stored CA is the Secret's iff the Secret did not exist before |
| `Credentials.CaAgreesIffFirstExecution` | internal/controller/dbinstance_reconciler.go:223-233 | Over whole runs: after any later run, while the Secret exists, the CA shown to clients is the Secret's iff the reconcile that stored it was the first to create the Secret |
| `Credentials.CaAgreesWhenNothingLost` | internal/controller/dbinstance_reconciler.go:223-233 | In a run that lost no store call and had no call leak or fail in part, every CA shown is the Secret's |
| `Credentials.SecretIsFixed` | internal/harvester/client.go:318-322 | A Secret is never replaced by another one in any run |
| `Credentials.CaAgreementSettled` | internal/controller/dbinstance_reconciler.go:223-233 | From the write that records the CA on, neither the stored CA nor the Secret, while it exists, ever changes |
| `Witnesses.WrongCaShown` | internal/harvester/client.go:269-322 | For every instance without S3 backup a world is reachable, through one crash, in which the CA shown is not the Secret's |
| `Limits.StoppedBecomesAvailable` | internal/controller/dbinstance_reconciler.go:94-95 | "stopped" is not stable: a reconcile of a stopped instance whose write lands stores "available" |
| `Witnesses.StoppedThenAvailable` | internal/controller/dbinstance_reconciler.go:66-95 | Every instance created with running false reaches "stopped" by a fault-free run, and "available" with the next fault-free reconcile |
| `Limits.InterruptedModifyForgotten` | internal/controller/dbinstance_reconciler.go:295-299 | A modify interrupted after its first write is declared observed without touching a child |
| `Witnesses.ObservedNotResized` | internal/controller/dbinstance_reconciler.go:295-299 | For any two classes with different cores a world is reachable that is available, has its generation observed, and a VM of the old size |
| `Limits.PendingChangeFate` | internal/controller/dbinstance_reconciler.go:66-101 | For every provisioned state: a pending change is resized (or fails) when the read version is available and does not ask for a stop; otherwise it is declared observed, or fails, and no size changes |
| `Limits.FailedIsFinal` | internal/controller/dbinstance_reconciler.go:96-97 | Reconciling a failed, undeleted instance has no effect at all |
| `Limits.FailedStays` | internal/controller/dbinstance_reconciler.go:96-97 | Once a failure has been read, every run without a delete leaves status and cluster as they are |
| `Witnesses.InvalidClassFailsForGood` | internal/controller/dbinstance_reconciler.go:182-185 | Every instance of an unknown class reaches that point by five fault-free reconciles |
| `Limits.MonitorTornDownIffRecorded` | internal/controller/dbinstance_reconciler.go:281-293 | Once its phase is over, a teardown of any later version lists the ServiceMonitor iff the phase recorded it |
| `Witnesses.MonitorLeaks` | internal/harvester/client.go:536-565 | For every instance a world is reachable, through one crash, with the ServiceMonitor on the cluster and its ref empty for good |
| `Protection.TearsIffReadUnprotected` | internal/controller/dbinstance_reconciler.go:426-447 | A delete that runs to its end tears the children down iff the version it read is unprotected; a protected read never touches the cluster |
| `Protection.ReconcileTearsIff` | internal/controller/dbinstance_reconciler.go:48-54 | The same for whole reconciles: a teardown is logged iff the version read is deleting, finalized and unprotected |
| `Protection.ProtectedChildrenStay` | internal/controller/dbinstance_reconciler.go:430-434 | While every version that may still be read is protected, no run tears down or removes a child |
| `Witnesses.LateProtectionIgnored` | internal/controller/dbinstance_reconciler.go:430-447 | For every instance a reachable world and a reconcile: protection set after the read, the object stays stored and protected, its VM is gone |
| `Routes.RetryAppendsRouteIff` | internal/harvester/client.go:109-172 | Repeated on a complete network, under any turns, the call changes nothing but the VPC's routes, and appends the consumer route exactly when its first four calls succeed and the update is not lost, acknowledged or not |
| `Routes.RoutesBounded` | internal/harvester/client.go:160-171 | Over every run of an instance whose VPC name was free, the route is listed at most once plus once per lost store call |
| `Witnesses.RouteListedTwice` | internal/harvester/client.go:160-171 | For every new instance that makes its own network a world is reachable, through one crash, whose VPC lists the route twice |
| `Limits.BackwardReadResurrects` | internal/controller/dbinstance_reconciler.go:38-63 | Monotone reads are necessary: a read served from before the deletion creates a VPC after a teardown |
| `Witnesses.TornDownWithEarlyVersion` | internal/controller/dbinstance_reconciler.go:38-63 | For every new instance a torn-down, still stored world is reachable whose second version, read again, brings the VPC back |
| `Harvester.LastNamedIs` | internal/harvester/client.go:413-437 | The address kept for a named interface is that of the last such interface that has one, and empty iff there is none |
| `Harvester.TenantAddressIs` | internal/harvester/client.go:411-440 | The tenant address is empty iff no interface is addressed; otherwise the last one's of vpc-net if that is addressed, and else the first one's of all |
| `Endpoints.ReadinessMeans` | internal/harvester/client.go:402-444 | Ready iff the VMI runs, has for three minutes and shows an address; the two addresses are the tenant-facing one and the last one of mgmt-net |
| `Endpoints.WaitDeclaresServing` | internal/controller/dbinstance_reconciler.go:236-269 | When its write lands, the wait phase stores DatabaseReady iff the VMI is serving, with a tenant-facing endpoint, the spec's port or 5432, and the mgmt-net address if one is shown; otherwise no address changes, and the phase waits for cloud-init if the VMI does not answer |
| `Endpoints.AvailableFollowsVmi` | internal/controller/dbinstance_reconciler.go:301-322 | Every requeue takes over the tenant and the management address the VMI shows, ready or not, with the spec's port or 5432, and never erases one it does not show |
| `Controller.DBInstanceReconciler.Run` | internal/controller/dbinstance_reconciler.go:35-101 | The work loop computes the specified run, passes through reachable states only and never panics |
| `Controller.DBInstanceReconciler.constructor` | internal/controller/dbinstance_reconciler.go:28-32 | A process on a newly created instance starts in a reachable world |
| `Controller.DBInstanceReconciler.Reconcile` | internal/controller/dbinstance_reconciler.go:35-101 | The imperative reconcile, with in-place edits and early returns through every phase method, equals the specified one for every script |
| `Controller.DBInstanceReconciler.GetVMIReadiness` | internal/harvester/client.go:402-444 | The interface scan loop equals last-named and first-address |
| `Controller.DBInstanceReconciler.TeardownAll` | internal/harvester/client.go:594-633 | Exactly the recorded tasks whose delete took effect are gone |
| `Controller.DeleteEach` | internal/harvester/client.go:618-631 | The task loop removes the named tasks that can be deleted and tells whether one failed |
| `SnapshotController.DBSnapshotReconciler.Reconcile` | internal/controller/dbsnapshot_reconciler.go:33-118 | The one-shot protocol, write before and after the backup, equals the function of which `Snapshot.SnapshotOutcome` says what it stores |
| `SnapshotController.DBSnapshotReconciler.Run` | internal/controller/dbsnapshot_reconciler.go:33-118 | The work loop keeps the backup bound, and a terminal snapshot stays as it is |
| `SnapshotController.DBSnapshotReconciler.Fail` | internal/controller/dbsnapshot_reconciler.go:121-126 | Phase failed, the write error ignored |
| `Snapshot.SnapshotOutcome` | internal/controller/dbsnapshot_reconciler.go:33-126 | An undisturbed reconcile of an unfinished snapshot: a missing parent and a failing step store "failed", a parent that is not ready changes nothing, otherwise exactly one backup runs and "available" with done is stored iff it succeeded |
| `Snapshot.BackupNeedsParent` | internal/controller/dbsnapshot_reconciler.go:59-69 | Whatever else happens, a backup runs only for a parent read as available and addressed |
| `Snapshot.NoBackupAfterTerminal` | internal/controller/dbsnapshot_reconciler.go:44-75 | Once "available" or "failed" is stored no further backup runs, even from reads that go back |
| `Snapshot.BackupsBounded` | internal/controller/dbsnapshot_reconciler.go:71-126 | At most one backup plus one per lost store call or crash; done iff "available", and then a backup succeeded |
| `Subnet.XorBits` | internal/harvester/client.go:700-702 | Bit by bit, the result is set exactly where the operands differ |
| `Subnet.TestVectors` | internal/harvester/client.go:699-707 | The FNV-1a test vectors for "" and "a", and the subnet and gateway of "a" |
| `Subnet.FoldIsLowHash` | internal/harvester/client.go:699-707 | A 15-bit recurrence with multiplier 403 computes the low 15 bits of FNV-1a (section 2 of draft-eastlake-fnv) |
| `Subnet.LowSplits` | internal/harvester/client.go:703-704 | The octets are 100 plus bits 8 to 14 and bits 0 to 7, with their ranges |
| `Subnet.OctetsAreLowBits` | internal/harvester/client.go:703-706 | Two hashes give the same octets exactly when their low 15 bits agree |
| `Subnet.OneByteApart` | internal/harvester/client.go:699-707 | Names of equal length differing in exactly one byte never share a subnet |
| `Subnet.SubnetRange` | internal/harvester/client.go:699-707 | All addresses lie in 10.100.0.0-10.227.255.255, inside 10.0.0.0/8 (section 3 of RFC 1918), off the default consumer VLAN; the gateway is the first host |
| `Subnet.SameOrDisjoint` | internal/harvester/client.go:699-707 | Two subnets are identical or have no common address |
| `Subnet.CollisionsUnavoidable` | internal/harvester/client.go:699-707 | Any 32769 names contain a collision |
| `Gateway.SwitchRequest` | internal/gateway/gateway.go:127-158 | POST .../name/start or /stop by admin or operator: exactly the named entry changes, to running true for start and false for stop |
| `Gateway.DeleteRequest` | internal/gateway/gateway.go:179-198 | DELETE .../name by an admin marks or removes exactly the named entry |
| `Gateway.CreateRequest` | internal/gateway/gateway.go:92-125 | POST /dbinstances by an admin adds exactly the named body under its own or the default namespace, unless it exists |
| `Gateway.ChangeCauses` | internal/gateway/gateway.go:54-161 | Any change is a create, a delete or a switch with its verb, path and role, and no failing call |
| `Gateway.TurnedAway` | internal/gateway/auth.go:111-146 | No bearer token changes nothing at all; an unknown key, a failing call or a read changes no instance |
| `Gateway.RouteGate` | internal/gateway/gateway.go:80-220 | Without admin or operator role no request changes the store; without admin at most spec.running changes |
| `Gateway.ViewersChangeNothing` | internal/gateway/gateway.go:80-220 | Any sequence of viewer and unauthenticated requests leaves the store unchanged |
| `Gateway.OperatorsOnlySwitch` | internal/gateway/gateway.go:200-220 | Any sequence without an admin changes at most spec.running |
| `Gateway.CacheIsSomeSecret` | internal/gateway/auth.go:65-107 | The key cache is always empty or the role-filtered image of one Secret version that was loaded |
| `Gateway.RoleIsCurrentIff` | internal/gateway/auth.go:92-107 | With a readable Secret, a request gets the role the Secret gives now iff its key is not cached or cached with that role; so a refusal is always current |
| `Gateway.HonouredUntilMiss` | internal/gateway/auth.go:92-107 | Through any trace a cached key keeps its role, revoked or not, until the first unknown key with a readable Secret; then the Secret read then decides |
| `Gateway.RevokedKeyHonoured` | internal/gateway/auth.go:92-98 | A key loaded as admin and then removed from the Secret still creates an instance |
| `Gateway.UnknownKeysReload` | internal/gateway/auth.go:100-101 | A trace asks for the Secret at most once per request, and exactly once per request if all keys are unknown |
| `Gateway.NoReloadLimit` | internal/gateway/auth.go:100-101 | One unknown key sent n times asks for the Secret n times, for every n |
| `Gateway.RolesKept` | internal/gateway/auth.go:76-82 | Key by key: kept exactly when the value is one of the three roles between white space, and with that role |
| `Gateway.SplitJoins` | internal/gateway/gateway.go:128-129 | Splitting a path loses nothing and leaves no slash in a piece |
| `Gateway.Server.LoadKeys` | internal/gateway/auth.go:65-89 | The loop keeps exactly the keys whose trimmed value is a known role; a failed read keeps the old map |
| `Gateway.Server.Lookup` | internal/gateway/auth.go:92-107 | A miss reloads once and answers from the new map |
| `Gateway.Server.RequireRole` | internal/gateway/auth.go:150-159 | True iff the role is among the allowed ones |
| `Gateway.Server.Handle` | internal/gateway/auth.go:111-146 | Authentication, cache update and routing equal the specified transition |
| `Gateway.Server.HandleInstanceRoute` | internal/gateway/gateway.go:127-161 | Name and action routing equals the function of which `Gateway.SwitchRequest` and `Gateway.DeleteRequest` say what changes |
| `Gateway.Server.HandleSetRunning` | internal/gateway/gateway.go:200-220 | Sets spec.running of an existing instance, for admin and operator |
| `DeepCopy.DBInstanceSpec.DeepCopyInto` | api/v1alpha1/zz_generated.deepcopy.go:61-90 | The copy says the same and all its pointers and its map are fresh |
| `DeepCopy.DBInstanceStatus.DeepCopyInto` | api/v1alpha1/zz_generated.deepcopy.go:101-125 | The copy says the same, all pointers and slices are fresh except backupStatus, which is shared |
| `DeepCopy.DBInstance.DeepCopyInto` | api/v1alpha1/zz_generated.deepcopy.go:8-14 | Copy and source say the same and share no mutable object exactly when backupStatus is nil |
| `DeepCopy.DeepCopy` | api/v1alpha1/zz_generated.deepcopy.go:16-23 | Same through a pointer, nil passed on |
| `DeepCopy.EditCopy` | api/v1alpha1/zz_generated.deepcopy.go:16-23 | With backupStatus nil, no later status edit of the copy reaches the source |
| `DeepCopy.DeepCopyItems` | api/v1alpha1/zz_generated.deepcopy.go:32-52 | The list loop: element by element the same content, an element without backupStatus is separate from every source element, and two copies are separate unless both have one |
| `DeepCopy.SeparateIffNoBackup` | api/v1alpha1/zz_generated.deepcopy.go:101-125 | The shared pointer is the only way a copy and its source can meet |
| `Tenants.Validate` | internal/tenants/tenants.go:90-108 | Accepts exactly the configurations with all fields present and distinct groups; otherwise names the first offender and why |
| `Tenants.Lookup` | internal/tenants/tenants.go:70-77 | Finds the first tenant of a group, none iff there is none |
| `Tenants.LookupByNamespace` | internal/tenants/tenants.go:81-88 | Finds the first tenant of a namespace, none iff there is none |
| `Tenants.AllFoundIffDistinct` | internal/tenants/tenants.go:70-88 | Every tenant is found under its own key exactly when the keys are distinct |
| `Tenants.ValidatedLookups` | internal/tenants/tenants.go:70-108 | Validation makes the group lookup complete; the namespace lookup is complete iff namespaces differ |
| `Tenants.NamespaceShared` | internal/tenants/tenants.go:90-108 | A validated configuration can hide a tenant from the namespace lookup |

## Left out

- Cryptography: TLS, SSH keys and random strings are nonces that tell generation calls apart.
- The cloud-init text and the VM's interface list: only the key material, the Secret, the volume and the network a VM refers to are kept.
- Message, Grafana and Prometheus fields, conditions and the JDBC URL: no decision reads them.
- Real time: readiness and the three-minute uptime are decided by the script, requeue delays are not modelled, reconciles are counted instead.
- Two controller processes acting at once: a run executes one reconcile after another, interleaved with users but not with a second reconciler.
- Users editing status or finalizers by hand, and re-creating an instance under the name of one that was deleted.
- Foreign controllers and other clients changing the instance's children: the cluster changes only through the controller during a run, from any initial contents.
- A resourceVersion conflict on a child between Get and Update is one of the failures the script may choose.
- Teardown takes one turn in a session: which deletes take effect is chosen freely, their interleavings are covered in module Goroutines.
- The CIDR as text and the encoding of a name into bytes: subnets are pairs of octets and names are byte sequences.
- `resolveVMImage`, the S3 secret and key generation as calls that may fail: each is one check that succeeds or fails.
- HTTP responses, JSON, path cleaning by the multiplexer, and the bodies of list and get answers; concurrent requests in the gateway.
- Deep copies of DBSnapshot and DBParameterGroup, which repeat the pattern; metadata copied by library code.
- YAML loading of the tenants file, DNS, the sample application and the deployment manifests.
