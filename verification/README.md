# Verified model of the Kyma infrastructure manager

A Dafny model of the parts of the infrastructure manager (KIM) that are hardest to get right, with proofs. Each
module follows a component of the repository; what changes state there is a class or a loop here, proved against a
function, and the theorems are about that function.

- **Dedicated audit logs** (`AuditLogPool`, `AuditLogSafety`, `AuditLogExclusive`, `AuditLogProvider`). Runtimes claim
  AuditLog resources from a shared pool in two phases. The pool is a versioned store; an operation is one step, taken
  when its Update arrives, and the lists it decided on may be any older view. KALM, the owner of the pool, changes
  states, creates and deletes objects, and drops reservations of unassigned ones.
- **The Runtime state machine** (`RuntimeTypes`, `RuntimeFsm`, `RuntimeRun`, `RuntimeSafety`, `RuntimeQuiet`,
  `RuntimeConvergence`, `RuntimeMigration`, `RuntimeWorld`, `RuntimeMachine`). API answers are one environment value per run, writes that
  take effect are a trace. `RuntimeWorld` plays the traces of many runs against stored objects, with user actions and
  removals between any two writes. Each method of `RuntimeMachine.Fsm` is proved to leave the state and take the exit
  that its function in `RuntimeFsm` says; the theorems about runs are about those functions.
- **Zone subnets** (`Cidr`, `AwsZones`, `EvenZones`, `GdchZones`, `WorkerZones`), including the patch path that decides
  which zones the generators are given.
- **maxPods clamping** (`MaxPods`).
- **Registry-cache secrets** (`RegistryCache`, `RegistryCacheRuns`, `RegistryCacheSync`).
- **Extensions and audit-log settings of a shoot** (`Extensions`, `AuditLogConfig`). The state machine's shoot holds
  these very extensions and resources, so its migration reads what its patch wrote.
- **Kubeconfig rotation** (`Rotation`).

## What the proofs rest on

- Claims: "one object per runtime" needs reads that include the runtime's own earlier writes. Safety of claims does not.
  KALM changes neither reservation nor tenant, URL and secret of an object once it is assigned.
- Runs: API calls are atomic, runs for one Runtime are serial and see their own writes, and a deletion once seen stays
  seen. Only KIM changes its finalizer and creates the shoot and the kubeconfig resource.
- An Update of the Runtime reads back the stored status, because status is a subresource; a status set in memory
  before it is lost.
- Zones: the node network is an IPv4 prefix (section 3.1 of RFC 4632), already parsed.
- Registry cache: the two runtime IDs used (name and label) are equal, and generated names carry the cache prefix
  and, where `RegistryCacheRuns` says so, are new.
- JSON: what KIM encodes decodes to itself; other text decodes to anything or not at all.

## What the code does not guarantee

- `ClaimAuditLog` takes a failed List in its look-up for "not claimed", so a runtime can get a second object
  (`FailedLookupClaimsTwice`); `DirectClaimExact` says exactly when it does not.
- `resolveAuditLogData` does not always find a claim again. It does exactly when the List call for all objects arrives
  in its own look-up or, with the flag set, in that of `ClaimAuditLog` (`ClaimIsFoundAgain`); otherwise it takes the
  shared settings, fails, or takes another object (`FailedLookupsForget`).
- The dedicated audit log never gets into a shoot whose audit-log extension has no configuration or one that cannot be
  decoded: the migration fails before its patch and asks for another run, for ever. Without such an extension, and with
  everything else in order, it always does (`MigrationSettles`). No patch of KIM's repairs such a shoot
  (`PatchesKeepBroken`).
- A live, pending Runtime whose shoot needs no patch and whose last operation is neither a creation nor a
  reconciliation, or is in an unknown state, is left without a wake-up (`QuietExit`).
- Zones can move from one patch to the next: the list is rebuilt from the workers, whose order of zones differs from
  the list of the patch before (`SecondPatchMovesZones`); `NextPatchGoesOn` says exactly when they do not.
- GDCH subnets of all zones change when the number of zones does (`GrowthMovesEveryZone`, `SameSubnetOnlyForSameCount`).
- The secret sync looks at the first secret of a cache even if it is dirty (`DirtyFirstDuplicates`,
  `DirtyFirstMayUnserve`). Three syncs without a clean-up between them can give a cache two clean secrets
  (`ThreeSyncsDuplicate`); `AtMostOneReplacement` and `RunKeeps` say exactly when that does not happen.
- The patch's audit-log creator dereferences a missing provider config, exactly if there is audit-log data and the
  shoot's audit-log extension has no configuration (`PatchMeetsNilConfig`, `NilConfigInput`). The model reports it as a
  failure.
- A reconciliation of a kubeconfig whose secret vanishes before it is written ends as if the shoot were gone: no
  requeue, no retry, and no kubeconfig (`LostWakeUp`).

## Model

| member | source | states |
|---|---|---|
| AuditLogProvider.ListReservedFor | pkg/auditlog/dedicated_client.go:72-81 | the label-selected list keeps exactly the items reserved for the runtime, in order |
| AuditLogProvider.FindByReservation | pkg/auditlog/dedicated_client.go:72-95 | answers with the first item reserved for the runtime, None if there is none, an error if the list fails |
| AuditLogProvider.FindByRuntimeId | pkg/auditlog/dedicated_client.go:136-164 | answers with the first item assigned to the runtime, None if there is none, an error if the list fails |
| AuditLogProvider.ContainsRegion | pkg/auditlog/dedicated_client.go:204-211 | true exactly when the region is one of the item's regions |
| AuditLogProvider.FindAvailable | pkg/auditlog/dedicated_client.go:167-201 | answers with the first unassigned, unreserved item in an approved state that serves the region |
| AuditLogProvider.DataProvider.Update | pkg/auditlog/dedicated_client.go:40-66 | an Update is stored exactly when the version read is still the stored one, and the reply may be lost after it was stored |
| AuditLogProvider.DataProvider.Reserve | pkg/auditlog/dedicated_client.go:23-68 | phase 1 answers with a standing reservation or writes one on the first available item; the pool changes by that one write only |
| AuditLogProvider.DataProvider.ClaimReserved | pkg/auditlog/provider.go:78-104 | phase 2 assigns the item reserved for the runtime, or answers with it if it is assigned already |
| AuditLogProvider.DataProvider.GetOrClaim | pkg/auditlog/dedicated_client.go:98-132 | looks for an assigned item first and only then assigns the reserved one |
| AuditLogProvider.DataProvider.GetWithoutClaim | pkg/auditlog/provider.go:107-130 | finds by assignment before it finds by reservation, and writes nothing |
| AuditLogProvider.DataProvider.ClaimDirect | pkg/auditlog/provider.go:143-189 | an upgrade reserves and assigns in one write, unless the look-up finds an item |
| AuditLogProvider.DataProvider.Release | pkg/auditlog/provider.go:192-203 | marks the runtime's item orphaned, only in state Assigned |
| AuditLogProvider.StepIsAnOperation | pkg/auditlog/provider.go:63-75 | each step of the protocol system changes the pool as the matching operation does |
| AuditLogSafety.LandedWrite | pkg/auditlog/dedicated_client.go:23-132 | whatever the age of the lists it decided on, a write that is accepted was computed from the current object and never takes one that is reserved for or assigned to somebody else |
| AuditLogSafety.ClaimSafety | pkg/auditlog/provider.go:78-189 | over every interleaving of any number of runtimes with stale reads and with the owner of the pool: an assignment never changes, an assigned object is reserved for the same runtime, a reservation is kept or dropped but never handed over |
| AuditLogSafety.OrphansStayRetired | pkg/auditlog/dedicated_client.go:167-231 | an orphaned object stays with the runtime that left it and is never handed out again |
| AuditLogExclusive.OneObjectPerRuntime | pkg/auditlog/provider.go:107-189 | with reads that include the runtime's own writes, no runtime ever holds two objects |
| AuditLogExclusive.ClaimIsFoundAgain | internal/controller/runtime/fsm/runtime_fsm_patch_shoot.go:314-399 | once claimed, a later resolution with the feature on answers with that object's settings if and only if the List for all objects arrives in the first look-up or, with the flag set, in that of the direct claim; it takes the shared settings if and only if the first fails and the flag is off |
| AuditLogExclusive.FailedLookupsForget | internal/controller/runtime/fsm/runtime_fsm_patch_shoot.go:322-337 | a reachable pool in which a claimed object is not found again: shared settings with the flag off, another object with the flag set |
| AuditLogExclusive.ClaimFollowsReservation | pkg/auditlog/provider.go:78-104 | while a reservation stands, phase 2 aims at the reserved object and at no other |
| AuditLogExclusive.DirectClaimExact | pkg/auditlog/provider.go:143-189 | a direct claim leaves the runtime with one object if and only if it held none, which a delivered look-up guarantees |
| AuditLogExclusive.FailedLookupClaimsTwice | pkg/auditlog/provider.go:143-156 | a failed List in the look-up counts as not claimed: there is a run in which a runtime gets a second object |
| AuditLogExclusive.StaleReadsReserveTwice | pkg/auditlog/dedicated_client.go:72-95 | without reads of one's own writes there is a run in which a runtime reserves twice |
| RuntimeMachine.Runtime.SetCondition | api/v1/runtime_types.go:276-324 | a condition keeps its transition time while its status stays; nothing else of the status changes |
| RuntimeMachine.Runtime.UpdateStateReady | api/v1/runtime_types.go:276-286 | state and condition change together, the provisioning flag does not |
| RuntimeMachine.Runtime.UpdateStateDeletion | api/v1/runtime_types.go:288-299 | the same for Terminating |
| RuntimeMachine.Runtime.UpdateStateFailed | api/v1/runtime_types.go:301-311 | the same for Failed, with a False condition |
| RuntimeMachine.Runtime.UpdateStatePending | api/v1/runtime_types.go:313-324 | the same for Pending |
| RuntimeMachine.Fsm.EnsureStatusConditionIsSetAndContinue | internal/controller/runtime/fsm/runtime_fsm_waiting_shoot_creation.go:16-22 | passes on if the condition is recorded, else records it and comes back |
| RuntimeMachine.Fsm.EnsureTerminatingStatusConditionAndContinue | internal/controller/runtime/fsm/runtime_fsm_waiting_shoot_creation.go:24-30 | the same gate for a deletion |
| RuntimeMachine.Fsm.TakeSnapshot | internal/controller/runtime/fsm/runtime_fsm_take_snapshot.go:13-32 | saves the status and reads the shoot |
| RuntimeMachine.Fsm.Initialize | internal/controller/runtime/fsm/runtime_fsm_initialise.go:21-102 | finalizer, deletion branch and routing, with the status read back after an Update |
| RuntimeMachine.Fsm.CreateShoot | internal/controller/runtime/fsm/runtime_fsm_create_shoot.go:27-173 | reservation before creation, and every failing exit |
| RuntimeMachine.Fsm.SelectShootProcessing | internal/controller/runtime/fsm/runtime_fsm_select_shoot_processing.go:17-86 | which state processes an existing shoot, or why none does |
| RuntimeMachine.Fsm.SyncCacheSecrets | internal/controller/runtime/fsm/runtime_fsm_sync_registry_cache_garden_secrets.go:14-74 | secrets are synced before the patch |
| RuntimeMachine.Fsm.HandleUpdateError | internal/controller/runtime/fsm/runtime_fsm_patch_shoot.go:191-226 | conflicts and refusals are retried, other errors fail |
| RuntimeMachine.Fsm.ResolveAuditLogData | internal/controller/runtime/fsm/runtime_fsm_patch_shoot.go:314-399 | shared, dedicated or a new claim, and the failing exits |
| RuntimeMachine.Fsm.WritePatch | internal/controller/runtime/fsm/runtime_fsm_patch_shoot.go:33-152 | the writes to the shoot in order, up to the first that fails |
| RuntimeMachine.Fsm.PatchExistingShoot | internal/controller/runtime/fsm/runtime_fsm_patch_shoot.go:31-189 | the whole patch, ending in configuration or in a wait for the shoot |
| RuntimeMachine.Fsm.WaitForShootCreation | internal/controller/runtime/fsm/runtime_fsm_waiting_shoot_creation.go:32-95 | what follows from the state of the last operation of a new shoot |
| RuntimeMachine.Fsm.WaitForShootReconcile | internal/controller/runtime/fsm/runtime_fsm_waiting_for_shoot_reconcile.go:15-66 | the same for a reconciled shoot |
| RuntimeMachine.Fsm.HandleKubeconfig | internal/controller/runtime/fsm/runtime_fsm_create_kubeconfig.go:20-71 | creates the kubeconfig resource or waits for it to be ready |
| RuntimeMachine.Fsm.CreateKymaNamespace | internal/controller/runtime/fsm/runtime_fsm_create_kyma_namespace.go:14-38 | goes on only with the namespace in place |
| RuntimeMachine.Fsm.InitializeBootstrapper | internal/controller/runtime/fsm/runtime_fsm_initialize_runtime_bootstrapper.go:24-135 | the five installation states and the failing exits |
| RuntimeMachine.Fsm.CleanupCacheSecrets | internal/controller/runtime/fsm/runtime_fsm_cleanup_registry_cache_garden_secrets.go:14-74 | cleans up, then passes the cache gate |
| RuntimeMachine.Fsm.ConfigureSkr | internal/controller/runtime/fsm/runtime_fsm_configure_skr.go:31-75 | applies the provisioning info and, where the extension is on, the OIDC resources |
| RuntimeMachine.Fsm.ApplyRoleBindings | internal/controller/runtime/fsm/runtime_fsm_apply_clusterrolebindings.go:23-88 | Ready, or on to the dedicated audit log |
| RuntimeMachine.Fsm.MigrateAuditLog | internal/controller/runtime/fsm/runtime_fsm_migrate_dedicated_auditlog.go:17-126 | claims, compares and patches only where the shoot differs |
| RuntimeMachine.Fsm.CopyAuditLogCredentials | internal/controller/runtime/fsm/runtime_fsm_copy_auditlog_credentials.go:22-74 | Ready only with the credentials copied |
| RuntimeMachine.Fsm.DeleteKubeconfig | internal/controller/runtime/fsm/runtime_fsm_delete_kubeconfig.go:15-73 | first step of a deletion |
| RuntimeMachine.Fsm.DeleteShoot | internal/controller/runtime/fsm/runtime_fsm_delete_shoot.go:16-93 | second step: release, confirm, delete |
| RuntimeMachine.Fsm.UpdateStatus | internal/controller/runtime/fsm/runtime_fsm_update_status.go:10-34 | writes the status only if it has changed, and drops the result if the write fails |
| RuntimeMachine.Fsm.Call | internal/controller/runtime/fsm/runtime_fsm.go:90-96 | one turn of the loop is one step of the specification, for every state function |
| RuntimeMachine.Fsm.Run | internal/controller/runtime/fsm/runtime_fsm.go:78-110 | the loop returns what the specification's run returns, for every answer of the API and every moment of cancellation, and it ends |
| RuntimeRun.DriveTurn | internal/controller/runtime/fsm/runtime_fsm.go:78-110 | every state function ends the run or hands over to one of lower rank whose shoot has been read |
| RuntimeRun.DriveInduction | internal/controller/runtime/fsm/runtime_fsm.go:78-110 | what one turn keeps or ends in, a whole run ends in |
| RuntimeSafety.EffectsAreJustified | internal/controller/runtime/fsm/runtime_fsm_initialise.go:28-73 | at most one status write, as the last effect; the finalizer goes only when the shoot was not found and all secrets were deleted, a shoot is deleted only when the kubeconfig resource was not found, created only for a live Runtime without one |
| RuntimeSafety.NoLostWakeUp | internal/controller/runtime/fsm/runtime_fsm_update_status.go:10-34 | a run that persisted a status and returns neither requeue nor error persisted Ready or Failed |
| RuntimeSafety.ProvisioningCompletesWithReady | api/v1/runtime_types.go:326-332 | the provisioning flag is never reset and is first set only together with Ready |
| RuntimeSafety.ReadyIsEarnedInTheRun | internal/controller/runtime/fsm/runtime_fsm_apply_clusterrolebindings.go:23-88 | a run that turns a Runtime Ready has itself seen the cluster ready, ensured the namespace, passed bootstrapper and cache, applied info and bindings, and in dedicated mode seen equal settings and copied the credentials |
| RuntimeSafety.MigrationIsGuarded | internal/controller/runtime/fsm/runtime_fsm_migrate_dedicated_auditlog.go:21-43 | only the role bindings lead to the migration, with the feature on and requested, so its early exits are dead |
| RuntimeQuiet.QuietExit | internal/controller/runtime/fsm/runtime_fsm_select_shoot_processing.go:44-85 | an uncancelled run leaves a live Runtime in progress with nothing to wake it if and only if there is nothing to patch and the last operation is one no state waits for |
| RuntimeConvergence.RunMakesProgress | internal/controller/runtime/fsm/runtime_fsm_waiting_shoot_creation.go:16-22 | in a stable environment each run from Pending ends Ready, or Pending with a requeue and either one more gate open or the audit log that was due written into the shoot |
| RuntimeConvergence.ReadyStays | internal/controller/runtime/fsm/runtime_fsm_select_shoot_processing.go:44-85 | there Ready is a fixed point: a run writes nothing and asks for nothing |
| RuntimeConvergence.Converges | internal/controller/runtime/fsm/runtime_fsm_create_kubeconfig.go:66-70 | more runs than there are gates to open and audit logs to write make the Runtime Ready and its shoot configured as claimed, each run reading the shoot the last one left, though the environment may change otherwise |
| RuntimeConvergence.MigrateDecides | internal/controller/runtime/fsm/runtime_fsm_migrate_dedicated_auditlog.go:67-126 | equal settings lead on, an extension that cannot be rewritten leads to a requeue without a patch, anything else to a patch after which the reader finds the claimed settings |
| RuntimeMigration.BrokenNeverReady | internal/controller/runtime/fsm/runtime_fsm_migrate_dedicated_auditlog.go:67-113 | with a broken audit-log extension no number of runs, whatever the API answers, makes a Runtime with a dedicated audit log Ready |
| RuntimeMigration.MigrationSettles | internal/controller/runtime/fsm/runtime_fsm_migrate_dedicated_auditlog.go:44-126 | with everything else in order, enough runs make it Ready and its shoot configured as claimed if and only if the extension is not broken |
| RuntimeWorld.PlayKeeps | internal/controller/runtime/fsm/runtime_fsm_delete_kubeconfig.go:15-42 | every state the world passes through during a run is safe, whatever happens between its writes |
| RuntimeWorld.NoOrphanedShoot | internal/controller/runtime/fsm/runtime_fsm_delete_shoot.go:29-92 | over all sequences of runs, user actions (deleting the shoot among them) and removals: a shoot that exists has its Runtime with the finalizer; as long as nobody but KIM deletes a shoot, a kubeconfig resource has a shoot that is not being deleted |
| Cidr.SameBlock | pkg/gardener/shoot/hyperscaler/aws/zones.go:156-165 | containment in a prefix is equality of block numbers |
| AwsZones.CidrFromInt | pkg/gardener/shoot/hyperscaler/aws/zones.go:156-165 | fails exactly for numbers that are no four-byte address or lie outside the node network |
| AwsZones.ZoneFrom | pkg/gardener/shoot/hyperscaler/aws/zones.go:97-151 | the loop body places a zone's three subnets exactly if all three fit |
| AwsZones.GenerateZones | pkg/gardener/shoot/hyperscaler/aws/zones.go:45-154 | succeeds exactly for 1 to 8 distinct names, /16 to /24 and zones that fit, and then gives each zone its place in the layout; each failure says why |
| AwsZones.BlocksAreContiguous | pkg/gardener/shoot/hyperscaler/aws/zones.go:68-95 | the blocks follow each other without gaps and take 63 of 64 units for eight zones |
| AwsZones.BlocksAreInside | pkg/gardener/shoot/hyperscaler/aws/zones.go:97-151 | every subnet is aligned to its size and wholly in the node network |
| AwsZones.BlocksAreDisjoint | pkg/gardener/shoot/hyperscaler/aws/zones.go:97-151 | no two subnets of any zones overlap |
| AwsZones.CanonicalFits | pkg/gardener/shoot/hyperscaler/aws/zones.go:45-154 | with zero host bits and a nonzero first octet every number of zones fits |
| AwsZones.FewerFit | pkg/gardener/shoot/hyperscaler/aws/zones.go:97-151 | fewer zones fit where more do |
| EvenZones.PlaceZones | pkg/gardener/shoot/hyperscaler/alicloud/zones.go:40-76 | the shared loop: succeeds exactly for distinct names that fit in what is left of eight blocks |
| EvenZones.GenerateAlicloudZones | pkg/gardener/shoot/hyperscaler/alicloud/zones.go:17-77 | every outcome, by its cause |
| EvenZones.ConvertZoneNames | pkg/gardener/shoot/hyperscaler/azure/zones.go:94-109 | all names, as numbers from 1 to 8, or a failure |
| EvenZones.GenerateAzureZones | pkg/gardener/shoot/hyperscaler/azure/zones.go:19-92 | every outcome, by its cause; zones are told apart by number |
| EvenZones.SpellingsClash | pkg/gardener/shoot/hyperscaler/azure/zones.go:65-69 | two spellings of one number are one zone |
| EvenZones.BlocksAreInside | pkg/gardener/shoot/hyperscaler/azure/zones.go:43-89 | blocks are aligned, contiguous and in the node network |
| EvenZones.BlocksAreDisjoint | pkg/gardener/shoot/hyperscaler/azure/zones.go:43-89 | no two blocks overlap |
| EvenZones.CanonicalFits | pkg/gardener/shoot/hyperscaler/azure/zones.go:43-92 | no request for at most eight distinct zones fails on a canonical network above 0.0.0.0/8 |
| EvenZones.EightZonesPartition | pkg/gardener/shoot/hyperscaler/alicloud/zones.go:40-76 | eight zones use the network up: each of its addresses lies in exactly one block |
| EvenZones.FewerFit | pkg/gardener/shoot/hyperscaler/alicloud/zones.go:57-76 | fewer zones fit where more do |
| GdchZones.AddAddrOffset | pkg/gardener/shoot/hyperscaler/gdch/zones.go:74-83 | the byte-wise loop with early exit is addition modulo 2^32, for all inputs |
| GdchZones.GenerateZones | pkg/gardener/shoot/hyperscaler/gdch/zones.go:34-72 | succeeds exactly for one to three distinct names on an IPv4 prefix with room for the shift |
| GdchZones.BlocksAreInside | pkg/gardener/shoot/hyperscaler/gdch/zones.go:48-70 | blocks are aligned, contiguous and in the node network |
| GdchZones.BlocksAreDisjoint | pkg/gardener/shoot/hyperscaler/gdch/zones.go:48-70 | no two blocks overlap |
| GdchZones.GrowthMovesEveryZone | pkg/gardener/shoot/hyperscaler/gdch/zones.go:21-32 | growth is not stable: with more zones every zone there was gets a smaller subnet, and all but the first another start |
| GdchZones.SameSubnetOnlyForSameCount | pkg/gardener/shoot/hyperscaler/gdch/zones.go:21-72 | a zone has the same subnet in two layouts if and only if they have the same number of zones |
| WorkerZones.GetNetworkingZonesFromWorkers | pkg/gardener/shoot/extender/provider/provider.go:269-281 | the zones of all workers, each once, in order of first appearance |
| WorkerZones.NewZonesAdded | pkg/gardener/shoot/extender/provider/provider.go:158-167 | the zones that are new, in order |
| WorkerZones.AlignWorkersWithGardener | pkg/gardener/shoot/extender/provider/provider.go:353-371 | in place, each worker the shoot has is merged with the last of that name, the others stay |
| WorkerZones.AlignedKeepsExisting | pkg/gardener/shoot/extender/provider/provider.go:373-390 | existing zones stay in front, and the zones are the union of both |
| WorkerZones.AlignedIsStable | pkg/gardener/shoot/extender/provider/provider.go:373-390 | aligning with the shoot that took the worker over changes nothing |
| WorkerZones.PatchZones | pkg/gardener/shoot/extender/provider/provider.go:71-136 | which list the network generator gets, if any, how the workers end up, and each failing exit by its cause |
| WorkerZones.MergedGrows | pkg/gardener/shoot/extender/provider/provider.go:94-110 | the merged list has no duplicates, starts with the shoot's zones and holds everybody's |
| WorkerZones.FinalZonesAreServed | pkg/gardener/shoot/extender/provider/provider.go:94-134 | every zone of every final worker is in the list the generator got |
| WorkerZones.NothingNewIsServed | pkg/gardener/shoot/extender/provider/provider.go:102-104 | where no zone is new the kept configuration's zones serve all workers |
| WorkerZones.AwsSubnetsStay | pkg/gardener/shoot/extender/provider/provider.go:94-116 | with the same node network the subnets of the shoot's zones stay where they are (AWS) |
| WorkerZones.EvenSubnetsStay | pkg/gardener/shoot/extender/provider/provider.go:94-116 | the same for Azure and Alicloud |
| WorkerZones.NextPatchGoesOn | pkg/gardener/shoot/extender/provider/provider.go:94-110 | the next patch goes on from this one's zone list exactly when no zone of the shoot goes away and no aligned worker names a zone before those listed ahead of it have been named |
| WorkerZones.ComparableIffNoneOvertakes | pkg/gardener/shoot/extender/provider/provider.go:269-281 | the collected zones and a given list are prefixes of one another exactly when all zones are named in the list's order |
| WorkerZones.SecondPatchMovesZones | pkg/gardener/shoot/extender/provider/provider.go:94-110 | in general it does not: a zone added to the first of two workers moves the second's zone in the patch after |
| MaxPods.MaxPodsFromCidr | pkg/gardener/shoot/extender/workers/maxpods/maxpods.go:34-62 | a usable count for masks 2 to 32, all addresses but two from /30 up |
| MaxPods.CapIsUnreachable | pkg/gardener/shoot/extender/workers/maxpods/maxpods.go:51-56 | no mask reaches the 32-bit cap |
| MaxPods.ApplyPerNodeMaxPodsCap | pkg/gardener/shoot/extender/workers/maxpods/maxpods.go:70-80 | each set value becomes the smaller of itself and the limit |
| MaxPods.CollectMaxPodsIndices | pkg/gardener/shoot/extender/workers/maxpods/maxpods.go:111-122 | the sum of the set values and their places in order |
| MaxPods.ReduceWorkerMaxPods | pkg/gardener/shoot/extender/workers/maxpods/maxpods.go:126-134 | takes what it can, not below one |
| MaxPods.ApplyMaxPodsWithTotalCap | pkg/gardener/shoot/extender/workers/maxpods/maxpods.go:89-107 | in place, the backward loop leaves the greedy assignment, and fails exactly if the floors exceed the total |
| MaxPods.ClampIsOptimal | pkg/gardener/shoot/extender/workers/maxpods/maxpods.go:82-107 | the result keeps floors and unset workers, sums to the smaller of sum and total, and is lexicographically the greatest assignment that fits |
| MaxPods.FloorsDecide | pkg/gardener/shoot/extender/workers/maxpods/maxpods.go:103-106 | some assignment fits if and only if the floors do |
| MaxPods.SetWorkerSettings | pkg/gardener/shoot/extender/provider/provider.go:300-328 | both caps together, with the failing exits |
| RegistryCacheSync.SecretDataEqual | internal/registrycache/garden_secret_syncer.go:106-117 | size and entries of one side decide equality of the maps |
| RegistryCacheSync.GardenSecretSyncer.SyncCache | internal/registrycache/garden_secret_syncer.go:47-104 | copies a secret, keeps it, or marks it dirty and creates another; every failing exit leaves what was written |
| RegistryCacheSync.GardenSecretSyncer.Do | internal/registrycache/garden_secret_syncer.go:44-76 | the caches with a secret in order, up to the first failure |
| RegistryCacheSync.GetCacheUidToSecretNameMap | internal/registrycache/garden_secret_manager.go:26-43 | the index of the clean secrets, of several the last; nothing if the list fails |
| RegistryCacheSync.DeleteUnused | internal/registrycache/garden_secret_manager.go:45-69 | deletes exactly the dirty and orphaned secrets; fails exactly when the list fails, with nothing deleted, or one of those deletions is refused, with those before it deleted |
| RegistryCacheSync.DeleteAll | internal/registrycache/garden_secret_manager.go:71-87 | the same for all managed secrets of the runtime, and no others |
| RegistryCacheSync.ShootSpec.ExtendResources | pkg/gardener/shoot/extender/resources.go:12-38 | drops the cache resources, keeps the others in order and adds one per cache with a secret |
| RegistryCacheSync.ToRegistryCacheExtension | pkg/gardener/shoot/extender/extensions/registry_config.go:49-106 | one reference per cache, exactly for those with a secret |
| RegistryCache.SyncKeeps | internal/registrycache/garden_secret_syncer.go:44-104 | from a store without dirty secrets a sync that goes through serves every cache, by one clean secret with the runtime secret's data |
| RegistryCache.IndexIsExact | internal/registrycache/garden_secret_manager.go:26-43 | the index answers with the one clean secret of a cache |
| RegistryCache.ReferenceNamesCleanSecret | pkg/gardener/shoot/extender/extensions/registry_config.go:84-105 | every reference names a clean garden secret with the runtime secret's data |
| RegistryCache.RenderersAgree | pkg/gardener/shoot/extender/resources.go:12-38 | a name with the cache prefix is a resource exactly if a cache refers to it, and then once; other resources are kept |
| RegistryCache.DeleteUnusedRestores | internal/registrycache/garden_secret_manager.go:45-69 | the clean-up keeps what is referred to and leaves a store without dirty or orphaned secrets |
| RegistryCache.CyclesKeep | internal/registrycache/garden_secret_syncer.go:44-104 | the invariant and the service of the last round's caches hold after any number of rounds that go through and are cleaned up (other sequences: `RegistryCacheRuns`) |
| RegistryCache.DirtyFirstDuplicates | internal/registrycache/garden_secret_syncer.go:57-104 | on a store with dirty secrets a sync leaves two clean ones if and only if it met a dirty, outdated one first while a clean one existed |
| RegistryCache.DirtyFirstMayUnserve | internal/registrycache/garden_secret_syncer.go:87-104 | and leaves the cache unserved if and only if the first is dirty but up to date and no clean one has that data |
| RegistryCacheRuns.RunKeeps | internal/registrycache/garden_secret_syncer.go:44-104 | over any sequence of syncs of single caches and deletions of single secrets, failing calls included, no cache ever has two clean secrets if and only if no sync replaces a dirty secret of a cache that has a clean one |
| RegistryCacheRuns.SyncIsRun | internal/registrycache/garden_secret_syncer.go:44-76 | a sync of all caches is such a sequence, up to its first failure |
| RegistryCacheRuns.AtMostOneReplacement | internal/registrycache/garden_secret_syncer.go:57-104 | between two clean-ups a cache keeps at most one clean secret if and only if at most one of the syncs replaces its first secret, all of them comparing with that one |
| RegistryCacheRuns.LastIsServed | internal/registrycache/garden_secret_syncer.go:57-104 | there the last sync, if it goes through, leaves the cache served unless the data is back at the first secret's after another sync has marked it |
| RegistryCacheRuns.ThreeSyncsDuplicate | internal/registrycache/garden_secret_syncer.go:57-104 | from an empty store, three syncs that find different data leave two clean secrets |
| Extensions.ShootSpec.Extend | pkg/gardener/shoot/extender/extensions/extender.go:194-226 | the merge loop in place: its result, or the first creator's failure |
| Extensions.MergeFinds | pkg/gardener/shoot/extender/extensions/extender.go:201-222 | what a creator is for ends up as that creator decides from what the shoot had of it at first |
| Extensions.MergeSpares | pkg/gardener/shoot/extender/extensions/extender.go:201-222 | types stay distinct and what no creator is for stays, in order |
| Extensions.MergeFails | pkg/gardener/shoot/extender/extensions/extender.go:201-205 | the merge goes through if and only if every creator does on the shoot's own extension |
| Extensions.MergeIsIdempotent | pkg/gardener/shoot/extender/extensions/extender.go:194-226 | with stable creators, applied to its own output the merge changes nothing |
| Extensions.PatchSpecsAreStable | pkg/gardener/shoot/extender/extensions/extender.go:97-192 | the six creators of a patch are stable |
| Extensions.PatchIsSafe | pkg/gardener/shoot/extender/extensions/extender.go:97-226 | all of it for a patch: distinct types, unmanaged extensions untouched, only the registry cache can go, idempotent |
| Extensions.PatchGoesThrough | pkg/gardener/shoot/extender/extensions/extender.go:97-192 | a patch goes through if and only if the audit log's configuration (if there is data) and the DNS one can be decoded and the access list's addresses (if it is on) are available |
| Extensions.PatchMeetsNilConfig | pkg/gardener/shoot/extender/extensions/extender.go:107-123 | the creator of the audit log meets a missing configuration if and only if there is data and the shoot's first audit-log extension has none; no other creator does |
| Extensions.NilConfigInput | pkg/gardener/shoot/extender/extensions/extender.go:107-123 | such a shoot |
| AuditLogConfig.Shoot.UpdateAuditLogExtensionConfig | internal/controller/runtime/fsm/runtime_fsm_migrate_dedicated_auditlog_helpers.go:53-72 | rewrites the first audit-log extension or adds one, and changes nothing when it fails |
| AuditLogConfig.Shoot.SetSecret | pkg/gardener/shoot/extender/auditlogs/set_secret.go:12-34 | an upsert of the reference by name |
| AuditLogConfig.Shoot.ApplyDedicatedAuditLog | internal/controller/runtime/fsm/runtime_fsm_migrate_dedicated_auditlog_helpers.go:42-48 | both writes, or none |
| AuditLogConfig.Shoot.GetAuditLogConfig | internal/controller/runtime/fsm/runtime_fsm_migrate_dedicated_auditlog_helpers.go:153-199 | the reader, with its four failures |
| AuditLogConfig.WriterFailsWithReader | internal/controller/runtime/fsm/runtime_fsm_migrate_dedicated_auditlog_helpers.go:95-124 | the writer fails if and only if the extension is there but its configuration is missing or cannot be decoded, which is where the reader fails for the same reason |
| AuditLogConfig.DedicatedIsRead | internal/controller/runtime/fsm/runtime_fsm_migrate_dedicated_auditlog_helpers.go:42-210 | what the dedicated patch wrote is what the reader finds |
| AuditLogConfig.ConverterIsRead | pkg/gardener/shoot/extender/extensions/auditlog.go:30-52 | so is what the converter's patch wrote, whatever was there before |
| AuditLogConfig.LastPatchIsRead | internal/controller/runtime/fsm/runtime_fsm_migrate_dedicated_auditlog_helpers.go:153-210 | after any sequence of patches of both kinds the reader finds what the last one meant |
| AuditLogConfig.SilentPatchIsNeutral | pkg/gardener/shoot/extender/extensions/extender.go:99-105 | a converter patch without audit-log data leaves what is read alone |
| AuditLogConfig.PatchesKeepBroken | internal/controller/runtime/fsm/runtime_fsm_migrate_dedicated_auditlog_helpers.go:42-124 | after any sequence of patches of both kinds the extension is broken if and only if it was before |
| Rotation.GardenerCluster.Reconcile | internal/controller/kubeconfig/gardener_cluster_controller.go:95-163 | secret, annotation, requeue and failure after a reconciliation, for every answer of the API, the resource's own deletion and a vanished secret included |
| Rotation.NextRequeue | internal/controller/kubeconfig/next_requeue.go:8-16 | the time is positive and at most 0.95 periods |
| Rotation.RotatesExactlyOnReset | internal/controller/kubeconfig/gardener_cluster_controller.go:299-314 | a secret is due exactly when the requeue time starts over |
| Rotation.WakesWhenDue | internal/controller/kubeconfig/next_requeue.go:8-16 | at the time asked for, and not before, the stored secret is due again |
| Rotation.ForcedRotationRenews | internal/controller/kubeconfig/gardener_cluster_controller.go:258-293 | a forced rotation leaves no kubeconfig, and the reconciliation after it stores a new one |
| Rotation.LostWakeUp | internal/controller/kubeconfig/gardener_cluster_controller.go:102-162 | a reconciliation ends with neither requeue nor failure if and only if the resource and its secret are gone, the shoot is not found, or the secret's write is answered NotFound, and then no kubeconfig is stored |
| Rotation.AgeIsBounded | internal/controller/kubeconfig/gardener_cluster_controller.go:114-162 | in every run of successful reconciliations each at most d late the recorded age never exceeds 0.95 periods plus d |
| Rotation.AgeIsBoundedBetween | internal/controller/kubeconfig/gardener_cluster_controller.go:114-162 | nor does it between any two of them |

## Left out

- AuditLogSafety.ClaimSafety: a claim is about one object; an object deleted and created anew under its name is another.
- AuditLogProvider.DataProvider.GetOrClaim: part of the protocol, although only tests call it.
- RuntimeWorld.NoOrphanedShoot: does not model a user who edits the finalizer.
- RuntimeConvergence.Converges: starts from Pending or Ready; a failed Runtime is not part of it.
- WorkerZones.AlignWorkersWithGardener: aligns zones only; update strategy and image version are not modelled, nor is
  the sharing of backing arrays between workers of one name.
- RegistryCacheSync.DeleteUnused: needs names to be unique, as they are in a namespace.
- RegistryCacheSync.GardenSecretSyncer.SyncCache: does not model a secret that somebody else deletes between the List
  call and the dirty patch, whose NotFound the source ignores.
- Rotation.AgeIsBounded: exact times; rounding and the text format of the annotation (section 5.6 of RFC 3339) are not
  modelled.
- Events: the loop that emits them changes neither state nor result.
- The order produced by sortWorkersToShootOrder: any order of the workers is allowed.
- IPv6 node networks for AWS, Azure and Alicloud.
- The extensions of a newly created shoot, role-binding contents, OIDC, DNS and network-filter contents, labels,
  metrics, logging and the clients.
