# Cloud Director tenant provider: a verified model

The provider reconciles two kinds of objects against one Cloud Director tenant. The cluster reconciler builds an IP
set, a load balancer pool, a virtual service and a vApp, and tears them down again; the machine reconciler adds,
configures and powers on a VM, puts control-plane machines into the IP set, and takes both back. Each uses a
finalizer written ahead of any effect, looks an object up before it creates it, and ends with a deferred patch that
may fail. What matters is not one pass but all runs: any call failing at any point, with or without its effect, the
process dying, the patch being lost, retries, and the two reconcilers interleaving.

The model has three layers.

* **The protocol** (`Cloud`, `Naming`, `Protocol`). The state is the cloud, the stored objects, and for each
  reconciler its in-flight copy and the next call it will make. One call is one atomic step; `Protocol.Apply` is a
  function of the state and an event, and every nondeterministic choice is part of the event.
* **Facts about all runs** (`Invariant`, `CloudFacts`, `ClusterSteps`, `MachineSteps`, `Runs`, `Theorems`,
  `NonInterference`, `Membership`, `Convergence`, `MachineProgress`, `Unlisting`, `Stranding`, `StrandingRun`,
  `Holdup`, `Network`, `UnseenEffects`, `Ignored`, `Records`, `Starting`, `Failures`). One invariant is kept by every
  event; the theorems follow from it, and the progress results start from whatever state failures have left.
* **The controllers as written** (`Schedule`, `Interleaved`, `ClusterController`, `MachineController`). Classes whose
  methods make one call after the other on local copies with early returns and a deferred patch. Each `Reconcile` is
  proved to end in exactly the state the protocol's pass ends in, for every script of outcomes and of other parties'
  events between its calls.

Four smaller cores stand beside it: the client cache and its key (`Fnv`, `ClientCache`), the choice of IP scopes
(`CloudInit`), the disk section (`Disks`) and the guest properties (`ProductSection`).

## Environment

These are conditions on what surrounds the program; `Protocol.Enabled` and `Invariant.Init` state them.

* Each controller runs one pass at a time (no concurrency options are set in either `SetupWithManager`).
* A read sees the controller's own earlier writes, and a patch is stored whole or not at all.
* Naming fields, infrastructure references, identity references and owner references do not change.
* Nobody else edits the cloud objects under the derived names; they do not exist at the start. All clusters share
  one virtual data center and edge gateway. Object ids are never used twice.
* Clusters have distinct derived names; UID naming with distinct UIDs is enough (`NonInterference.DistinctUidsSuffice`).
* An owner Machine outlives the finalizer of its tenant machine, no Machine is added to a cluster under deletion, and
  a machine name is not used twice.
* Cloud Director accepts configuring and powering on a VM that is already on; a pass whose earlier patch was lost does
  both again.
* The owner Cluster reports its infrastructure as ready only after the stored tenant cluster does.

A call ends with a truthful answer, with an error and no effect, or with an error although the effect took place; a
call that starts a task may also be accepted and then come to nothing. Where the code goes on with a nil object after
an unclassified lookup error (cluster controller lines 173 and 196, machine controller line 208) the pass breaks off
at the next dereference with the deferred patch still running. Deletion of a cluster without an owner or identity
breaks off in the same way. A provider id is modelled as the id of its VM, without the URL prefix.

## Findings

* The IP set can keep the address of a deleted machine: a pass adds the address, its patch is lost, and the deletion
  pass only removes what is recorded. `StrandingRun.SomeRunStrands` gives such a run from every start state with a
  complete cluster, `Membership.LossStrandsExactly` says exactly which losses do it, and
  `Unlisting.DeletionUnlistsExactly` which addresses a deletion leaves. A non-empty IP set stops the cluster's deletion
  at line 443 of the cluster controller (`Convergence.DeletionEndsExactly`), and when no machine is left it does so for
  good (`Holdup.NonEmptySetHoldsUpForever`).
* A vApp whose network was not attached by the pass that created it never gets it, and no machine of its cluster ever
  becomes ready (`Network.MissedNetworkNeverComes`), although the cluster itself does:
  `UnseenEffects.SomeRunMissesNetwork` gives such a run from every start state with a complete cluster. A machine can
  still become ready exactly when its cluster's vApp has the network (`Network.ReadinessNeedsNetworkExactly`).
* Deletion leaves behind exactly the objects whose kind was never recorded (`Theorems.LeftBehindExactly`);
  `UnseenEffects.SomeRunLeavesBehind` gives, from every start state with a complete cluster, a run that deletes the
  cluster and leaves its IP set.
* The cache key has no field separators, so credentials that concatenate to the same bytes share a client
  (`ClientCache.SomeCredentialsCollide`); callers get clients of their own in every run exactly when the keys of the
  credentials in use differ (`ClientCache.OwnClientsExactly`).
* With additional disks and no root disk size, repeating the disk update moves every disk up one unit
  (`Disks.RetryAsksForTheSameExactly`).
* Overlapping IP scopes are resolved by list order; the order is irrelevant exactly when rendering fails anyway or, for
  every connection, all scopes that own its address are equal (`CloudInit.OrderIrrelevantExactly`). It matters for two
  scopes with one range and different gateways (`CloudInit.SomeOrderMatters`).

## Model

| member | source | states |
|---|---|---|
| `Naming.NamesDifferTogether` | util/nameutil/nameutil.go:27-41 | two clusters share a vApp name exactly when they share a load balancer name |
| `Naming.UidNamesAreInjective` | util/nameutil/nameutil.go:27-41 | with UID naming, both sorts of names coincide exactly for equal UIDs |
| `ClusterSteps.ClusterStepKeeps` | controllers/clouddirectortenantcluster_controller.go:62-498 | every call of a cluster pass, whatever its outcome, keeps the invariant of all runs |
| `MachineSteps.MachineStepKeeps` | controllers/clouddirectortenantmachine_controller.go:59-606 | every call of a machine pass, whatever its outcome, keeps the invariant of all runs |
| `AllRuns.EventKeeps` | controllers/clouddirectortenantcluster_controller.go:62-498 | every event, crashes and changes by users included, keeps the invariant |
| `AllRuns.ReachableInv` | controllers/clouddirectortenantcluster_controller.go:62-498 | the invariant holds in every state any run can reach |
| `Theorems.TeardownWaitsForMachines` | controllers/clouddirectortenantcluster_controller.go:381-495 | if any event removes a service, pool, IP set or vApp of a cluster, that cluster is being deleted, all its machines are gone and none has a VM |
| `Theorems.MachineNeverMissesItsCluster` | controllers/clouddirectortenantmachine_controller.go:543-603 | wherever a machine pass uses its cluster's vApp or IP set, the reference is set and the object is there and is the cluster's own |
| `Theorems.ReferentialIntegrity` | controllers/clouddirectortenantcluster_controller.go:171-291 | in every reachable state each service's pool, each pool's member group and each VM's vApp exists, and a cluster's service and pool lead to its own pool and IP set and to nobody else's |
| `Theorems.RecordedIsUnique` | controllers/clouddirectortenantcluster_controller.go:171-369 | at most one object per name and kind ever exists, and a recorded id is that object until teardown |
| `Theorems.StoredFactsStay` | controllers/clouddirectortenantcluster_controller.go:345-373 | over any run, stored references, endpoints, Ready marks, provider ids and their addresses are never changed or cleared |
| `Theorems.RecordedChain` | controllers/clouddirectortenantcluster_controller.go:345-373 | Ready implies IP set implies pool implies service implies vApp in every stored state; a cluster mirrored as ready has all four |
| `Theorems.NoLeakAfterReady` | controllers/clouddirectortenantcluster_controller.go:407-495 | if Ready was ever stored, then once the finalizer is gone nothing is left under the cluster's names, whatever happened in between |
| `Theorems.LeftBehindExactly` | controllers/clouddirectortenantcluster_controller.go:407-495 | once the finalizer is gone, an object the cluster ever had is still there if and only if no reference of its kind was ever recorded |
| `UnseenEffects.SomeRunLeavesBehind` | controllers/clouddirectortenantcluster_controller.go:186-191 | from every start state with a complete cluster, a run after which the cluster is gone and its IP set still there |
| `Theorems.VmLifecycle` | controllers/clouddirectortenantmachine_controller.go:190-261 | one VM per machine name, only while the finalizer is stored; a stored provider id names it, also after a lost patch |
| `Theorems.ServiceCarriesStoredEndpoint` | controllers/clouddirectortenantcluster_controller.go:252-281 | every service a cluster ever has carries exactly the stored host and port |
| `Theorems.EndpointIsStoredFirst` | controllers/clouddirectortenantcluster_controller.go:139-155 | while no endpoint is stored, no pass over the undeleted cluster changes the cloud |
| `Records.ChosenPort` | controllers/clouddirectortenantcluster_controller.go:149-152 | an endpoint that was not given has port 6443, and so has every service of its cluster |
| `Records.RecordedNames` | controllers/clouddirectortenantcluster_controller.go:171-297 | the recorded vApp is named by the cluster's UID or name, the other three by the same and `-controlplane` |
| `Records.ProviderNames` | controllers/clouddirectortenantmachine_controller.go:190-261 | a provider id leads to a VM with the machine's name in the recorded vApp |
| `Records.PicksLastInternal` | controllers/clouddirectortenantmachine_controller.go:458-463 | the address picked is that of the last internal entry, and empty when there is none |
| `Records.RecordedOneByOne` | controllers/clouddirectortenantmachine_controller.go:434-442 | the addresses are recorded one by one, in order, as internal |
| `Records.ListIsWrittenBack` | controllers/clouddirectortenantmachine_controller.go:471-487 | joining writes the list read with the address at its end, leaving the list without it, and nothing else changes |
| `Ignored.IncompleteClusterIsIgnored` | controllers/clouddirectortenantcluster_controller.go:101-169 | in every reachable state, a cluster without identity, owner or control-plane reference has nothing in the cloud, no reference and is not ready |
| `Ignored.PassReadiesExactly` | controllers/clouddirectortenantcluster_controller.go:97-375 | a failure-free pass over an undeleted cluster with finalizer and endpoint ends ready if and only if it has identity, owner and control-plane reference |
| `Failures.ClusterErrorEndsPass` | controllers/clouddirectortenantcluster_controller.go:107-341 | an error ends the pass with its copy unchanged, except for the IP set's and pool's lookups and the wait for power-on |
| `Failures.ClusterCallsInOrder` | controllers/clouddirectortenantcluster_controller.go:86-495 | nothing is created, connected, powered on, recorded or deleted unless the call before it succeeded and the gate before it is open |
| `Failures.PoolErrorRecordsTwo` | controllers/clouddirectortenantcluster_controller.go:196-373 | when only the pool's lookup fails, service and vApp are recorded, pool and IP set are not, and the cluster is not ready |
| `Failures.IpSetErrorRecordsThree` | controllers/clouddirectortenantcluster_controller.go:173-373 | when only the IP set's lookup fails, the other three are recorded and the cluster is not ready |
| `Failures.IpSetErrorCreatesNoPool` | controllers/clouddirectortenantcluster_controller.go:196-210 | without an IP set at hand a missing pool is not created and the pass ends |
| `Failures.MachineErrorEndsPass` | controllers/clouddirectortenantmachine_controller.go:141-603 | an error ends the machine's pass with its copy unchanged, except for the wait for the added VM |
| `Failures.MachineCallsInOrder` | controllers/clouddirectortenantmachine_controller.go:103-495 | the same for adding, configuring, starting and joining a VM |
| `Failures.MachineLeavesInOrder` | controllers/clouddirectortenantmachine_controller.go:500-603 | the same for leaving the IP set and deleting the VM |
| `Failures.NoIdentityEndsPass` | controllers/clouddirectortenantmachine_controller.go:146-152 | a machine of a cluster without an identity is left as it is |
| `Starting.StartedVmWasConfigured` | controllers/clouddirectortenantmachine_controller.go:283-409 | a VM that is on sits in a vApp with its network and has no empty address |
| `NonInterference.OtherClustersUntouched` | controllers/clouddirectortenantcluster_controller.go:171-303 | any run for one cluster and its machines leaves another cluster's records, objects, VMs and IP set contents as they were |
| `NonInterference.DistinctUidsSuffice` | util/nameutil/nameutil.go:27-41 | UID naming with distinct UIDs gives every cluster names of its own |
| `Membership.ReadyMachinesAreMembers` | controllers/clouddirectortenantmachine_controller.go:446-495 | with distinct addresses and any failures, the IP set lists every ready undeleted control-plane machine |
| `Membership.MembersAreDistinct` | controllers/clouddirectortenantmachine_controller.go:471-488 | in every reachable state, whatever addresses are given, no IP set of a cluster lists an address twice or an empty one |
| `Membership.OnlyRecordedAreMembers` | controllers/clouddirectortenantmachine_controller.go:543-574 | unless a pass is lost at a point where it strands its address, the IP set lists only addresses recorded by control-plane machines holding their finalizer; other crashes and lost patches are allowed |
| `Membership.LossStrandsExactly` | controllers/clouddirectortenantmachine_controller.go:95-101 | losing a pass leaves an unrecorded address listed if and only if its control-plane machine holds its finalizer without a stored provider id and the address is in the set |
| `Membership.LastMachineEmptiesTheSet` | controllers/clouddirectortenantcluster_controller.go:441-446 | in the same runs the IP set of a cluster without machines is empty and cannot hold up its deletion |
| `Unlisting.DeletionUnlistsExactly` | controllers/clouddirectortenantmachine_controller.go:543-603 | a failure-free deletion leaves an address listed if and only if it is not the one recorded by the machine |
| `Stranding.AddressOutlivesMachine` | controllers/clouddirectortenantmachine_controller.go:431-498 | from any suited state: a pass that loses only its patch, then deletion; the machine is gone, its address is listed and nobody left has it recorded |
| `StrandingRun.SomeRunStrands` | controllers/clouddirectortenantmachine_controller.go:431-603 | from every start state with a complete cluster such a run exists, and once the cluster is deleted no run ever removes its finalizer |
| `Holdup.NonEmptySetHoldsUpForever` | controllers/clouddirectortenantcluster_controller.go:435-453 | a deleted cluster without machines whose recorded IP set lists someone keeps its list and its finalizer in every run |
| `Network.ProviderNeedsNetwork` | controllers/clouddirectortenantmachine_controller.go:283-297 | a machine has a provider id only in a cluster whose vApp has its network |
| `Network.MissedNetworkNeverComes` | controllers/clouddirectortenantcluster_controller.go:302-324 | a vApp without its network, and no pass about to attach it: no run attaches one, and no machine of the cluster ever gets a provider id or becomes ready |
| `Network.ReadinessNeedsNetworkExactly` | controllers/clouddirectortenantmachine_controller.go:190-495 | an undeleted machine of a cluster reported ready can become ready in some run if and only if the cluster's vApp has its network |
| `UnseenEffects.SomeRunMissesNetwork` | controllers/clouddirectortenantcluster_controller.go:302-324 | from every start state with a complete cluster, a run after which the cluster is stored ready, no pass is under way and its vApp has no network |
| `Convergence.PassEnds` | controllers/clouddirectortenantcluster_controller.go:62-498 | every call brings a cluster pass closer to its end, whatever the outcome |
| `Convergence.PassMakesProgress` | controllers/clouddirectortenantcluster_controller.go:97-155 | a failure-free pass strictly lowers the rank of finalizer, endpoint and resources, and at rank zero changes nothing |
| `Convergence.ThreePassesReachReady` | controllers/clouddirectortenantcluster_controller.go:97-375 | from any reachable state three failure-free passes make a complete undeleted cluster ready, and a fourth changes neither cloud nor object |
| `Interleaved.InterleavedPassMakesProgress` | controllers/clouddirectortenantcluster_controller.go:97-375 | a pass whose own calls succeed lowers the rank unless the cluster is deleted meanwhile, whatever everyone else does between its calls |
| `Interleaved.InterleavedPassesReachReady` | controllers/clouddirectortenantcluster_controller.go:97-375 | as many such passes as the rank, at most three, reach ready, with any runs between them |
| `Convergence.OnePassDeletes` | controllers/clouddirectortenantcluster_controller.go:378-498 | from any interrupted teardown, without machines and with an empty IP set, one failure-free pass removes every recorded object and the finalizer |
| `Convergence.DeletionEndsExactly` | controllers/clouddirectortenantcluster_controller.go:378-498 | a failure-free pass over a deleted cluster removes the finalizer if and only if owner and identity are there, no machine is left and the recorded IP set is gone or empty |
| `Interleaved.InterleavedPassDeletes` | controllers/clouddirectortenantcluster_controller.go:378-498 | one pass whose own calls succeed removes the finalizer and every recorded object, whatever everyone else does between its calls |
| `MachineProgress.PassEnds` | controllers/clouddirectortenantmachine_controller.go:59-606 | every call brings a machine pass closer to its end, whatever the outcome |
| `MachineProgress.OnePassReadies` | controllers/clouddirectortenantmachine_controller.go:190-495 | from any reachable state, one failure-free pass makes a machine with its finalizer ready in a suited cluster |
| `MachineProgress.OnePassDeletes` | controllers/clouddirectortenantmachine_controller.go:500-606 | whatever earlier passes left behind, one failure-free pass deletes the VM and releases the machine |
| `MachineProgress.DeletionEndsExactly` | controllers/clouddirectortenantmachine_controller.go:500-606 | a failure-free pass releases a deleted machine if and only if its cluster has no infrastructure reference, or its object exists and has an identity |
| `Schedule.ClusterPassIsRun` | controllers/clouddirectortenantcluster_controller.go:62-498 | a scripted cluster pass, interleaved with anyone's events, is a run of the protocol |
| `Schedule.MachinePassIsRun` | controllers/clouddirectortenantmachine_controller.go:59-606 | a scripted machine pass, interleaved with anyone's events, is a run of the protocol |
| `Schedule.OthersRunIsMeanwhile` | controllers/clouddirectortenantcluster_controller.go:506-521 | every run of everyone else's events can take place between two calls of a pass |
| `Schedule.QuietClusterPass` | controllers/clouddirectortenantcluster_controller.go:62-498 | undisturbed and without failures it is the pass of the convergence results |
| `Schedule.QuietMachinePass` | controllers/clouddirectortenantmachine_controller.go:59-606 | undisturbed and without failures it is the pass of the machine progress results |
| `ClusterController.Reconciler.Reconcile` | controllers/clouddirectortenantcluster_controller.go:62-376 | the method as written ends in exactly the protocol's state under every script and keeps the invariant |
| `ClusterController.Reconciler.ReconcileResources` | controllers/clouddirectortenantcluster_controller.go:171-375 | find or create IP set, pool, service and vApp in order and record them, step by step as the protocol does |
| `ClusterController.Reconciler.Record` | controllers/clouddirectortenantcluster_controller.go:345-373 | the references are written one by one up to the first nil object |
| `ClusterController.Reconciler.ChooseEndpoint` | controllers/clouddirectortenantcluster_controller.go:139-169 | an endpoint with port 6443 is chosen only when none is stored, and then the pass ends; it goes on only with owner and control-plane reference |
| `ClusterController.Reconciler.ReconcileDelete` | controllers/clouddirectortenantcluster_controller.go:378-498 | service, pool, IP set and vApp are removed in this order, and only then the finalizer |
| `ClusterController.Reconciler.Patch` | controllers/clouddirectortenantcluster_controller.go:78-84 | the deferred patch completes the protocol's pass |
| `MachineController.Reconciler.Reconcile` | controllers/clouddirectortenantmachine_controller.go:59-498 | the method as written ends in exactly the protocol's state under every script and keeps the invariant |
| `MachineController.Reconciler.ReconcileProvider` | controllers/clouddirectortenantmachine_controller.go:190-444 | find or add the VM, configure it, power it on and record it, step by step as the protocol does |
| `MachineController.Reconciler.Join` | controllers/clouddirectortenantmachine_controller.go:446-491 | the address is appended to the list read, unless it is there |
| `MachineController.Reconciler.ReconcileDelete` | controllers/clouddirectortenantmachine_controller.go:500-606 | leave the IP set, delete the VM, release the finalizer, step by step as the protocol does |
| `MachineController.InternalAddress` | controllers/clouddirectortenantmachine_controller.go:458-463 | the loop of both passes picks the last internal address |
| `MachineController.RecordAddresses` | controllers/clouddirectortenantmachine_controller.go:434-442 | one internal address per network connection, in order |
| `MachineController.DeleteAddress` | controllers/clouddirectortenantmachine_controller.go:563-565 | exactly the occurrences of the address are deleted and the rest keeps its order |
| `Membership.WithoutMembers` | controllers/clouddirectortenantmachine_controller.go:563-565 | membership in the list after deletion |
| `Membership.WithoutKeepsOrder` | controllers/clouddirectortenantmachine_controller.go:563-565 | the list after deletion is the other entries, at increasing positions |
| `Fnv.HashConcat` | util/clientcache/clientcache.go:81-87 | hashing in pieces equals one pass over the concatenation |
| `Fnv.ScaleUndone` | util/clientcache/clientcache.go:81-87 | multiplication by the FNV prime is invertible modulo 2^32 |
| `Fnv.OneByteMatters` | util/clientcache/clientcache.go:81-87 | changing one byte anywhere changes the 32-bit sum |
| `Fnv.KnownSums` | util/clientcache/clientcache.go:81-87 | the published FNV-1 sums of the empty text and of `a` |
| `Fnv.XorAtBit` | util/clientcache/clientcache.go:81-87 | the exclusive or is bitwise |
| `Fnv.Hash32.Write` | util/clientcache/clientcache.go:83-85 | a write advances the sum over all bytes of its argument |
| `ClientCache.KeyOf` | util/clientcache/clientcache.go:81-87 | three writes give the hash of the concatenated credentials |
| `ClientCache.OneByteChangesTheKey` | util/clientcache/clientcache.go:81-87 | credentials that differ in exactly one byte have different keys |
| `ClientCache.SomeCredentialsCollide` | util/clientcache/clientcache.go:81-87 | two different credentials with one key |
| `ClientCache.SecretDecides` | util/clientcache/clientcache.go:53-79 | an error if and only if the secret cannot be read or its URL does not parse, no client if and only if a key is missing |
| `ClientCache.Provider.Get` | util/clientcache/clientcache.go:93-98 | a hit up to and including the expiry instant; an expired entry is removed |
| `ClientCache.Provider.GetVCDClient` | util/clientcache/clientcache.go:47-115 | missing keys give no client, unreadable secrets, bad URLs, failed logins and unusable tokens an error; otherwise one cache step |
| `ClientCache.OwnClientsExactly` | util/clientcache/clientcache.go:81-114 | in every run every caller gets a client of its own credentials, if and only if no two credentials in use share a key |
| `ClientCache.HitsAreInDate` | util/clientcache/clientcache.go:119-138 | a client is reused at most until its token's exp, in seconds, plus the time between reading the clock and adding the entry |
| `ClientCache.CutTowardsZero` | util/clientcache/clientcache.go:135-135 | fractional seconds are cut towards zero |
| `ClientCache.EntryExpiresAt` | util/clientcache/clientcache.go:112-137 | an entry expires at the claim's whole seconds in nanoseconds, moved by the login's delay, within 64 bits |
| `ClientCache.NextCallHitsExactly` | util/clientcache/clientcache.go:93-138 | the call after a login is a hit if and only if it comes by then |
| `ClientCache.LoginIsReusedUntilExp` | util/clientcache/clientcache.go:93-138 | and so is every later call with the key by then, unless evicted |
| `ClientCache.LoginIsReused` | util/clientcache/clientcache.go:93-112 | until expiry, unless evicted, every call with the key is answered with the client of the login |
| `CloudInit.SelectScope` | util/cloudinit/cloudinit.go:68-94 | succeeds exactly when all range ends parse, with the last owning scope |
| `CloudInit.AddressesAreOrdered` | util/cloudinit/cloudinit.go:88-88 | comparing addresses is a total order by width, value and zone |
| `CloudInit.RangeIsInterval` | util/cloudinit/cloudinit.go:88-88 | a range holds exactly the values between its ends, the ends included |
| `CloudInit.ScopesWithoutRangesAreSkipped` | util/cloudinit/cloudinit.go:69-73 | a scope without ranges changes nothing, wherever it stands |
| `CloudInit.ChoiceIsLastOwner` | util/cloudinit/cloudinit.go:68-94 | the scope chosen is the last in list order that owns the address; none is chosen only if none owns it |
| `CloudInit.ExecuteCloudInitTemplate` | util/cloudinit/cloudinit.go:56-111 | renders exactly when everything parses and every address is owned; each connection gets its last owner; which error otherwise |
| `CloudInit.RendersExactlyWhen` | util/cloudinit/cloudinit.go:56-111 | a configuration comes out if and only if there are no connections, or everything parses and some range holds each address |
| `CloudInit.ReorderingChangesNothing` | util/cloudinit/cloudinit.go:68-94 | with disjoint scopes any reordering gives the same outcome |
| `CloudInit.OrderIrrelevantExactly` | util/cloudinit/cloudinit.go:68-94 | all orders of the scopes render the same if and only if rendering fails or, for every connection, all scopes owning its address are equal |
| `CloudInit.SomeOrderMatters` | util/cloudinit/cloudinit.go:92-92 | two different scopes with the same range: the order decides |
| `CloudInit.RenderingIsDetermined` | util/cloudinit/cloudinit.go:56-111 | the promise of the rendering fixes its outcome, errors included |
| `Disks.DiskSection` | controllers/clouddirectortenantmachine_controller.go:608-644 | nothing for no disks; otherwise the aliased root disk with the new size, and fresh thin-provisioned disks of the sizes asked for on the first disk's bus and adapter at the units after its own; no other field changes |
| `Disks.SlotsAreDistinct` | controllers/clouddirectortenantmachine_controller.go:625-641 | no two disks of a section share bus and unit |
| `Disks.RetryAsksForTheSameExactly` | controllers/clouddirectortenantmachine_controller.go:391-407 | a retry gives the same section if and only if the root size is positive; otherwise all units shift by one |
| `Disks.EmptySectionExactly` | controllers/clouddirectortenantmachine_controller.go:608-624 | the section is empty exactly for a negative size without additional disks |
| `ProductSection.SectionList.Upsert` | controllers/clouddirectortenantmachine_controller.go:327-345 | the loop with append sets the first property of the key, or adds one of type string with the key as its label, on distinct heap objects |
| `ProductSection.SectionList.SetGuestProperties` | controllers/clouddirectortenantmachine_controller.go:327-365 | both upserts in turn |
| `ProductSection.UpsertIsMapUpdate` | controllers/clouddirectortenantmachine_controller.go:327-345 | under first-match lookup the upsert is a map update |
| `ProductSection.OthersKeepPlaceAndValue` | controllers/clouddirectortenantmachine_controller.go:327-365 | every other property keeps its place, key, label, type and value |
| `ProductSection.OtherKeyUndisturbed` | controllers/clouddirectortenantmachine_controller.go:347-365 | an upsert leaves the property of another key alone |
| `ProductSection.GuestPropertiesAreSet` | controllers/clouddirectortenantmachine_controller.go:327-365 | the whole list reads as a map updated at both keys |
| `ProductSection.BothAdded` | controllers/clouddirectortenantmachine_controller.go:338-365 | an empty list gets both properties, with type string and their keys as labels |
| `ProductSection.RetryChangesNothing` | controllers/clouddirectortenantmachine_controller.go:327-365 | repeating both upserts leaves the list unchanged |

## Left out

- Kubernetes plumbing: watches, requeue times, conditions and their summary, logging, metrics.
- The patch helper's several requests: the patch is one step that is stored whole or lost.
- Calls between which nothing that the model keeps is written (organization, data center and gateway lookups; bootstrap secret, guest customization, product section and specification of a VM; the vApp's undeploy before its deletion) are joined into one step that fails or succeeds.
- Cloud Director's own behaviour beyond objects, references, names and member lists, and HTTP.
- Changing identity, naming or ownership of a live cluster, and moving a machine between clusters.
- Address, URL, base64 and token parsing, and the text of the cloud-init template: parsers are arbitrary functions.
- An exp claim outside the 64-bit range of seconds, where the conversion in the source depends on the platform.
- The least-recently-used order and the capacity of the cache: eviction is arbitrary.
- Overflow of unit numbers and disk sizes: they are unbounded integers.
- Nil entries in lists received from Cloud Director.
- Generated code, manifests and templates.
