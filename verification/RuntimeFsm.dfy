/**
 The state functions of the Runtime controller.  Each takes the system state of a run to the
 next state function, a result and an error, as the source's stateFn does; API answers come
 from the environment and API writes that take effect are appended to the trace.
 */
module RuntimeFsm {
  import opened Wrappers
  import opened AuditLogTypes
  import AuditLogConfig
  import opened RuntimeTypes

  datatype Delay = GardenerDelay | StatusDelay | ShootCreateDelay | ShootReconcileDelay | ShootDeleteDelay | ControlPlaneDelay | BootstrapperDelay

  datatype Requeue = Immediately | After(delay: Delay)

  datatype StateFn =
    | TakeSnapshot | Initialize | CreateShoot | SelectShootProcessing
    | SyncCacheSecrets | PatchExistingShoot | WaitForShootCreation | WaitForShootReconcile
    | HandleKubeconfig | CreateKymaNamespace | InitializeBootstrapper | CleanupCacheSecrets
    | ConfigureSkr | ApplyRoleBindings | MigrateAuditLog | CopyAuditLogCredentials
    | DeleteKubeconfig | DeleteShoot
    | UpdateStatus(result: Option<Requeue>, failed: bool)
    | EmitEvent(result: Option<Requeue>, failed: bool)
    | CountStop

  datatype Effect =
    | FinalizerAdded | FinalizerRemoved | CacheSecretsDeleted | StatusWritten(status: Status)
    | AuditLogReserved | AuditLogClaimed | AuditLogReleased
    | ShootCreated | ShootUpdated | ShootPatched | ShootAuditLogPatched(data: AuditLogData)
    | DeletionConfirmed | ShootDeleted
    | CacheSecretsSynced | ForceAnnotationDropped | ClusterCreated | ClusterDeleted
    | NamespaceEnsured | BootstrapperInstalled | CacheSecretsCleaned
    | ProvisioningInfoApplied | OidcApplied | RoleBindingsApplied | CredentialsCopiedToSkr

  datatype Trace = Start | Then(before: Trace, last: Effect)

  datatype Sys = Sys(meta: Meta, status: Status, snapshot: Status, shoot: Option<Shoot>, trace: Trace) {
    function Set(st: RuntimeState, t: ConditionType, c: Truth, r: Reason, m: Message, now: int): Sys {
      Sys(meta, status.Set(st, t, c, r, m, now), snapshot, shoot, trace)
    }

    function Did(call: Call, e: Effect): Sys {
      if call.TookEffect() then Sys(meta, status, snapshot, shoot, Then(trace, e)) else this
    }

    function Wrote(w: ShootWrite, e: Effect): Sys {
      if w.Accepted? then Sys(meta, status, snapshot, shoot, Then(trace, e)) else this
    }

    /** A successful Update of the Runtime reads back the stored status, which the run has not written yet. */
    function ReadBack(): Sys {
      Sys(meta, snapshot, snapshot, shoot, trace)
    }
  }

  datatype Out = Out(next: Option<StateFn>, result: Option<Requeue>, failed: bool, sys: Sys)

  /** What a state function may rely on: the shoot has been read where it is dereferenced. */
  predicate CanRun(fn: StateFn, s: Sys) {
    match fn
    case SelectShootProcessing | SyncCacheSecrets | PatchExistingShoot | HandleKubeconfig | CreateKymaNamespace
      | InitializeBootstrapper | CleanupCacheSecrets | ConfigureSkr | ApplyRoleBindings | MigrateAuditLog
      | CopyAuditLogCredentials | DeleteKubeconfig | DeleteShoot => s.shoot.Some?
    case WaitForShootCreation | WaitForShootReconcile => s.shoot.Some? && s.shoot.value.lastOperation.Some?
    case _ => true
  }

  function Rank(fn: StateFn): nat {
    match fn
    case TakeSnapshot => 14
    case Initialize => 13
    case CreateShoot | SelectShootProcessing | DeleteKubeconfig => 12
    case SyncCacheSecrets => 11
    case PatchExistingShoot | WaitForShootCreation | WaitForShootReconcile | DeleteShoot => 10
    case HandleKubeconfig => 9
    case CreateKymaNamespace => 8
    case InitializeBootstrapper => 7
    case CleanupCacheSecrets => 6
    case ConfigureSkr => 5
    case ApplyRoleBindings => 4
    case MigrateAuditLog => 3
    case CopyAuditLogCredentials => 2
    case UpdateStatus(_, _) => 1
    case EmitEvent(_, _) | CountStop => 0
  }

  /** A state function of rank k ends the run or hands over to one of lower rank that can run. */
  predicate Descends(o: Out, k: nat) {
    o.next.Some? ==> Rank(o.next.value) < k && CanRun(o.next.value, o.sys)
  }

  /** What only the snapshot and the audit log's migration change, and what no run changes. */
  predicate SameShoot(s: Sys, t: Sys) {
    s.shoot == t.shoot && s.meta.dedicatedRequested == t.meta.dedicatedRequested
  }

  // ---- how a state function ends ----

  function UpdateStatusAndRequeueAfter(s: Sys, d: Delay): Out { Out(Some(UpdateStatus(Some(After(d)), false)), None, false, s) }
  function UpdateStatusAndStop(s: Sys): Out { Out(Some(UpdateStatus(None, false)), None, false, s) }
  function UpdateStatusAndFail(s: Sys): Out { Out(Some(UpdateStatus(None, true)), None, false, s) }
  function RequeueNow(s: Sys): Out { Out(None, Some(Immediately), false, s) }
  function RequeueAfter(s: Sys, d: Delay): Out { Out(None, Some(After(d)), false, s) }
  function Stop(s: Sys): Out { Out(None, None, false, s) }
  function Switch(s: Sys, fn: StateFn): Out { Out(Some(fn), None, false, s) }
  function StopWithMetrics(s: Sys): Out { Switch(s, CountStop) }

  function FailAndStop(s: Sys, t: ConditionType, r: Reason, m: Message, now: int): Out {
    Out(Some(UpdateStatus(None, false)), None, false, s.Set(Failed, t, False, r, m, now))
  }

  /** A gate: pass if the condition is already recorded, else record it and come back. */
  function EnsurePending(s: Sys, t: ConditionType, r: Reason, m: Message, now: int, next: StateFn): Out {
    if s.status.Has(Pending, t, r, True) then Switch(s, next)
    else UpdateStatusAndRequeueAfter(s.Set(Pending, t, True, r, m, now), StatusDelay)
  }

  function EnsureTerminating(s: Sys, t: ConditionType, r: Reason, m: Message, now: int, next: StateFn): Out {
    if s.status.Has(Terminating, t, r, True) then Switch(s, next)
    else UpdateStatusAndRequeueAfter(s.Set(Terminating, t, True, r, m, now), StatusDelay)
  }

  // ---- entry ----

  function DoTakeSnapshot(env: Env, s: Sys): (o: Out)
    ensures Descends(o, 14)
  {
    var s1 := s.(snapshot := s.status);
    match env.shootRead
    case ShootReadFails => UpdateStatusAndRequeueAfter(s1, GardenerDelay)
    case NoShoot => Switch(s1, Initialize)
    case ShootIs(shoot) => Switch(s1.(shoot := Some(shoot)), Initialize)
  }

  function ExposeShoot(s: Sys): Sys {
    if s.shoot.None? then s
    else s.(status := s.status.(
      shootLastOperation := s.shoot.value.lastOperation, shootLastErrors := s.shoot.value.lastErrors))
  }

  function DoInitialize(env: Env, s: Sys): (o: Out)
    ensures Descends(o, 13) && SameShoot(s, o.sys)
  {
    var isProvisioned := Provisioned in s.status.conditions;
    var s := ExposeShoot(s);
    if !s.meta.deleting && !s.meta.finalizer then AddFinalizer(env, s)
    else if !s.meta.runtimeIdSet then UpdateStatusAndFail(s)
    else if s.meta.deleting then
      if s.shoot.Some? then Switch(s, DeleteKubeconfig)
      else CleanUp(env, s)
    else if s.shoot.None? && !isProvisioned then
      UpdateStatusAndRequeueAfter(s.Set(Pending, Provisioned, Unknown, Initialized, Text(1), env.now), StatusDelay)
    else if s.shoot.None? then Switch(s, CreateShoot)
    else Switch(s, SelectShootProcessing)
  }

  /** The end of a deletion: the shoot is gone. */
  function CleanUp(env: Env, s: Sys): (o: Out)
    ensures SameShoot(s, o.sys)
  {
    var s := s.Did(env.deleteAllSecrets, CacheSecretsDeleted);
    if !env.deleteAllSecrets.Ok() then UpdateStatusAndRequeueAfter(s, StatusDelay)
    else if s.meta.finalizer then RemoveFinalizer(env, s)
    else StopWithMetrics(s)
  }

  function AddFinalizer(env: Env, s: Sys): (o: Out)
    ensures SameShoot(s, o.sys)
  {
    var s := s.(meta := s.meta.(finalizer := true)).Did(env.finalizerUpdate, FinalizerAdded);
    if !env.finalizerUpdate.Ok() then UpdateStatusAndFail(s) else RequeueNow(s.ReadBack())
  }

  function RemoveFinalizer(env: Env, s: Sys): (o: Out)
    ensures SameShoot(s, o.sys)
  {
    var s := s.(meta := s.meta.(finalizer := false)).Did(env.finalizerUpdate, FinalizerRemoved);
    if !env.finalizerUpdate.Ok() then UpdateStatusAndFail(s) else Stop(s.ReadBack())
  }

  // ---- creating a shoot ----

  function DoCreateShoot(cfg: Config, env: Env, s: Sys): (o: Out)
    ensures Descends(o, 12) && SameShoot(s, o.sys)
  {
    if s.meta.enforceSeed && env.seedRead.SeedReadFails? then
      UpdateStatusAndRequeueAfter(s.Set(Pending, Provisioned, False, GardenerError, Text(2), env.now), GardenerDelay)
    else if s.meta.enforceSeed && env.seedRead.NoSeed? then
      FailAndStop(s, Provisioned, SeedNotFound, Text(3), env.now)
    else if cfg.dedicatedAuditLogging && s.meta.dedicatedRequested then
      var s := s.Did(env.reserve, AuditLogReserved);
      if !env.reserve.Ok() then FailAndStop(s, Provisioned, CustomAuditLogError, Detail(env.reserve.Text()), env.now)
      else CreateReserved(cfg, env, s)
    else CreateReserved(cfg, env, s)
  }

  function CreateReserved(cfg: Config, env: Env, s: Sys): (o: Out)
    ensures SameShoot(s, o.sys)
  {
    if !env.structuredAuth.Ok() then FailAndStop(s, Provisioned, OidcError, Text(4), env.now)
    else if !env.sharedAuditLog.Ok() && cfg.auditLogMandatory then FailAndStop(s, Provisioned, AuditLogError, Text(5), env.now)
    else if !env.convert.Ok() then FailAndStop(s, Provisioned, ConversionError, Detail(env.convert.Text()), env.now)
    else
      var s := s.Did(env.createShoot, ShootCreated);
      if !env.createShoot.Ok() then
        UpdateStatusAndRequeueAfter(s.Set(Pending, Provisioned, False, GardenerError, Detail(env.createShoot.Text()), env.now), GardenerDelay)
      else
        UpdateStatusAndRequeueAfter(s.Set(Pending, Provisioned, Unknown, ShootCreationPending, Text(6), env.now), GardenerDelay)
  }

  // ---- choosing what to do with an existing shoot ----

  datatype PatchDecision = Patch | NoPatch | Undecidable

  function ShouldPatchShoot(meta: Meta, shoot: Shoot): PatchDecision {
    if meta.suspended then NoPatch
    else if meta.forced then Patch
    else match shoot.applied
      case NotRecorded => Patch
      case Malformed => Undecidable
      case Applied(g) => if g < meta.generation then Patch else NoPatch
  }

  predicate MidReconcile(shoot: Shoot, op: LastOperation) {
    shoot.generation > shoot.observedGeneration || op.state == Pending_ || op.state == Processing_
  }

  function DoSelectShootProcessing(s: Sys): (o: Out)
    requires s.shoot.Some?
    ensures Descends(o, 12)
  {
    var shoot := s.shoot.value;
    if !shoot.domainSet || shoot.lastOperation.None? then RequeueAfter(s, GardenerDelay)
    else
      var op := shoot.lastOperation.value;
      match ShouldPatchShoot(s.meta, shoot)
      case Undecidable => RequeueAfter(s, GardenerDelay)
      case Patch => Switch(s, SyncCacheSecrets)
      case NoPatch =>
        var st := s.status.state;
        if (st == Pending || st == Unset) && op.kind == Create then Switch(s, WaitForShootCreation)
        else if (st == Pending || st == Unset) && op.kind == Reconcile then Switch(s, WaitForShootReconcile)
        else if (st == Ready || st == Failed) && MidReconcile(shoot, op) then
          Switch(s, if op.kind == Create then WaitForShootCreation else WaitForShootReconcile)
        else Stop(s)
  }

  function DoWaitForShootCreation(env: Env, s: Sys): (o: Out)
    requires s.shoot.Some? && s.shoot.value.lastOperation.Some?
    ensures Descends(o, 10)
  {
    var shoot := s.shoot.value;
    var op := shoot.lastOperation.value;
    if op.state == Succeeded then EnsurePending(s, Provisioned, ShootCreationCompleted, Text(11), env.now, HandleKubeconfig)
    else if op.state == Other_ then StopWithMetrics(s)
    else if op.state == Failed_ then
      if shoot.lastErrors.retryable then
        UpdateStatusAndRequeueAfter(s.Set(Pending, Provisioned, Unknown, ShootCreationPending, Text(9), env.now), ShootCreateDelay)
      else FailAndStop(s, Provisioned, CreationError, Text(10), env.now)
    else if op.noMatchingSeeds then FailAndStop(s, Provisioned, CreationError, Text(7), env.now)
    else UpdateStatusAndRequeueAfter(s.Set(Pending, Provisioned, Unknown, ShootCreationPending, Text(8), env.now), ShootCreateDelay)
  }

  function DoWaitForShootReconcile(env: Env, s: Sys): (o: Out)
    requires s.shoot.Some? && s.shoot.value.lastOperation.Some?
    ensures Descends(o, 10)
  {
    var shoot := s.shoot.value;
    match shoot.lastOperation.value.state
    case Processing_ | Pending_ | Aborted | Error =>
      UpdateStatusAndRequeueAfter(s.Set(Pending, Provisioned, Unknown, Processing, Text(12), env.now), ShootReconcileDelay)
    case Failed_ =>
      if shoot.lastErrors.retryable then
        UpdateStatusAndRequeueAfter(s.Set(Pending, Provisioned, Unknown, ShootCreationPending, Text(13), env.now), ShootReconcileDelay)
      else FailAndStop(s, Provisioned, ProcessingErr, Detail(shoot.lastErrors.text), env.now)
    case Succeeded => EnsurePending(s, Provisioned, ConfigurationCompleted, Text(14), env.now, HandleKubeconfig)
    case Other_ => StopWithMetrics(s)
  }

  // ---- patching an existing shoot ----

  function DoSyncCacheSecrets(cfg: Config, env: Env, s: Sys): (o: Out)
    requires s.shoot.Some?
    ensures Descends(o, 11)
  {
    if !cfg.registryCache || !s.meta.caching then Switch(s, PatchExistingShoot)
    else if !env.cacheClient.Ok() then
      UpdateStatusAndRequeueAfter(s.Set(Pending, RegistryCacheConfigured, False, CacheConfigurationFailed, Detail(env.cacheClient.Text()), env.now), StatusDelay)
    else if !env.cachePending.Ok() then RequeueNow(s)
    else if !s.meta.cachesWithSecret then Switch(s, PatchExistingShoot)
    else
      var s := s.Did(env.cacheSync, CacheSecretsSynced);
      if !env.cacheSync.Ok() then
        UpdateStatusAndRequeueAfter(s.Set(Pending, RegistryCacheConfigured, False, CacheConfigurationFailed, Detail(env.cacheSync.Text()), env.now), StatusDelay)
      else Switch(s, PatchExistingShoot)
  }

  /** A step inside a state function: go on, or leave the function. */
  datatype Flow = Continue(sys: Sys) | Leave(out: Out)

  predicate Through(f: Flow, s: Sys) {
    match f
    case Continue(t) => SameShoot(s, t)
    case Leave(o) => Descends(o, 2) && SameShoot(s, o.sys)
  }

  function SharedAuditLogData(cfg: Config, env: Env, s: Sys): (f: Flow)
    ensures Through(f, s)
  {
    if !env.sharedAuditLog.Ok() && cfg.auditLogMandatory
    then Leave(FailAndStop(s, Provisioned, AuditLogError, Text(5), env.now))
    else Continue(s)
  }

  function ResolveAuditLogData(cfg: Config, env: Env, s: Sys): (f: Flow)
    ensures Through(f, s)
  {
    if !cfg.dedicatedAuditLogging then SharedAuditLogData(cfg, env, s)
    else if env.dedicatedFound then Continue(s)
    else if !s.meta.dedicatedRequested then SharedAuditLogData(cfg, env, s)
    else
      var s := s.Did(env.directClaim, AuditLogClaimed);
      if !env.directClaim.Ok() then Leave(FailAndStop(s, Provisioned, CustomAuditLogError, Detail(env.directClaim.Text()), env.now))
      else Continue(s.Set(Pending, CustomAuditLogConfigured, Unknown, AuditLogConfigured, Text(15), env.now))
  }

  function HandleUpdateError(w: ShootWrite, env: Env, s: Sys): (f: Flow)
    ensures Through(f, s)
  {
    match w
    case Accepted => Continue(s)
    case ConflictWrite => Leave(UpdateStatusAndRequeueAfter(s.Set(Pending, Provisioned, Unknown, Processing, Text(16), env.now), GardenerDelay))
    case ForbiddenWrite => Leave(UpdateStatusAndRequeueAfter(s.Set(Pending, Provisioned, Unknown, Processing, Text(17), env.now), GardenerDelay))
    case RejectedWrite(text) => Leave(FailAndStop(s, Provisioned, ProcessingErr, Detail(text), env.now))
  }

  function WriteShoot(needed: bool, w: ShootWrite, e: Effect, env: Env, f: Flow): (g: Flow)
    ensures forall s :: Through(f, s) ==> Through(g, s)
  {
    if f.Leave? || !needed then f else HandleUpdateError(w, env, f.sys.Wrote(w, e))
  }

  function PreparePatch(cfg: Config, env: Env, s: Sys): (f: Flow)
    ensures Through(f, s)
  {
    if !env.structuredAuth.Ok() then Leave(FailAndStop(s, Provisioned, OidcError, Text(4), env.now))
    else if cfg.registryCache && !env.secretNames.Ok() then
      Leave(UpdateStatusAndRequeueAfter(s.Set(Pending, Provisioned, False, Processing, Text(18), env.now), StatusDelay))
    else if !env.convert.Ok() then Leave(FailAndStop(s, Provisioned, ConversionError, Detail(env.convert.Text()), env.now))
    else if env.cacheCount.CacheCountFails? then
      Leave(UpdateStatusAndRequeueAfter(s.Set(Pending, Provisioned, False, CacheConfigured, Text(19), env.now), StatusDelay))
    else Continue(s)
  }

  function DropForceAnnotation(env: Env, s: Sys): (f: Flow)
    ensures Through(f, s)
  {
    if !s.meta.forced then Continue(s)
    else
      var s := s.(meta := s.meta.(forced := false)).Did(env.annotationUpdate, ForceAnnotationDropped);
      if !env.annotationUpdate.Ok() then Leave(RequeueNow(s)) else Continue(s.ReadBack())
  }

  /** The writes to the shoot, in order, once the audit-log settings are known. */
  function WritePatch(cfg: Config, env: Env, s: Sys): (f: Flow)
    ensures Through(f, s)
  {
    var prepared := PreparePatch(cfg, env, s);
    var updated := WriteShoot(env.workersChanged || env.cacheCount.CacheCountChanged?, env.updateShoot, ShootUpdated, env, prepared);
    var bound := WriteShoot(env.bindingChanged, env.updateBinding, ShootUpdated, env, updated);
    WriteShoot(true, env.patchShoot, ShootPatched, env, bound)
  }

  function DoPatchExistingShoot(cfg: Config, env: Env, s: Sys): (o: Out)
    requires s.shoot.Some?
    ensures Descends(o, 10) && SameShoot(s, o.sys)
  {
    var resolved := ResolveAuditLogData(cfg, env, s);
    var patched := if resolved.Leave? then resolved else WritePatch(cfg, env, resolved.sys);
    var done := if patched.Leave? then patched else DropForceAnnotation(env, patched.sys);
    if done.Leave? then done.out
    else if env.patchedGeneration == s.shoot.value.generation then
      Switch(done.sys.Set(Pending, Provisioned, True, Processing, Text(20), env.now), HandleKubeconfig)
    else
      UpdateStatusAndRequeueAfter(done.sys.Set(Pending, Provisioned, Unknown, Processing, Text(21), env.now), GardenerDelay)
  }

  // ---- configuring the runtime cluster ----

  function DoHandleKubeconfig(env: Env, s: Sys): (o: Out)
    requires s.shoot.Some?
    ensures Descends(o, 9)
  {
    match env.cluster
    case ClusterReadFails(text) => FailAndStop(s, KubeconfigReady, KubernetesAPIErr, Detail(text), env.now)
    case NoCluster =>
      var s := s.Did(env.createCluster, ClusterCreated);
      if !env.createCluster.Ok() then FailAndStop(s, KubeconfigReady, KubernetesAPIErr, Detail(env.createCluster.Text()), env.now)
      else UpdateStatusAndRequeueAfter(s.Set(Pending, KubeconfigReady, Unknown, GardenerCRCreated, Text(22), env.now), ControlPlaneDelay)
    case ClusterIs(ready, _) =>
      if !ready then RequeueAfter(s, ControlPlaneDelay)
      else EnsurePending(s, KubeconfigReady, GardenerCRReady, Text(23), env.now, CreateKymaNamespace)
  }

  function DoCreateKymaNamespace(env: Env, s: Sys): (o: Out)
    requires s.shoot.Some?
    ensures Descends(o, 8)
  {
    var s := s.Did(env.namespace, NamespaceEnsured);
    if !env.namespace.Ok() then
      UpdateStatusAndRequeueAfter(s.Set(Pending, KymaSystemCreated, False, KymaSystemNSError, Detail(env.namespace.Text()), env.now), ControlPlaneDelay)
    else Switch(s.Set(Pending, KymaSystemCreated, True, KymaSystemNSReady, Text(24), env.now), InitializeBootstrapper)
  }

  function BootstrapperPending(s: Sys, c: Truth, r: Reason, m: Message, now: int): Out {
    UpdateStatusAndRequeueAfter(s.Set(Pending, RuntimeBootstrapperReady, c, r, m, now), BootstrapperDelay)
  }

  function DoInitializeBootstrapper(cfg: Config, env: Env, s: Sys): (o: Out)
    requires s.shoot.Some?
    ensures Descends(o, 7)
  {
    if !cfg.bootstrapper then Switch(s, CleanupCacheSecrets)
    else if !env.bootstrapperConfigure.Ok() then BootstrapperPending(s, False, BootstrapperConfigurationFailed, Text(25), env.now)
    else match env.bootstrapper
      case BootstrapperReadFails => BootstrapperPending(s, False, BootstrapperStatusUnknown, Text(26), env.now)
      case BootstrapperIs(status) =>
        match status
        case NotStarted =>
          var s := s.Did(env.bootstrapperInstall, BootstrapperInstalled);
          if !env.bootstrapperInstall.Ok() then BootstrapperPending(s, False, BootstrapperInstallationFailed, Text(27), env.now)
          else BootstrapperPending(s, False, BootstrapperInstallationInProgress, Text(28), env.now)
        case UpgradeNeeded =>
          var s := s.Did(env.bootstrapperInstall, BootstrapperInstalled);
          if !env.bootstrapperInstall.Ok() then BootstrapperPending(s, False, BootstrapperUpgradeFailed, Text(29), env.now)
          else BootstrapperPending(s, False, BootstrapperUpgradeInProgress, Text(30), env.now)
        case InProgress => BootstrapperPending(s, False, BootstrapperInstallationInProgress, Text(28), env.now)
        case InstallFailed => FailAndStop(s, RuntimeBootstrapperReady, BootstrapperInstallationFailed, Text(27), env.now)
        case BootstrapperIsReady =>
          Switch(s.Set(Pending, RuntimeBootstrapperReady, True, BootstrapperConfigured, Text(31), env.now), CleanupCacheSecrets)
  }

  function DoCleanupCacheSecrets(cfg: Config, env: Env, s: Sys): (o: Out)
    requires s.shoot.Some?
    ensures Descends(o, 6)
  {
    if !cfg.registryCache then Switch(s, ConfigureSkr)
    else if !env.cleanupClient.Ok() then
      UpdateStatusAndRequeueAfter(s.Set(Pending, RegistryCacheConfigured, False, CacheConfigurationFailed, Detail(env.cleanupClient.Text()), env.now), StatusDelay)
    else
      var s := s.Did(env.deleteUnused, CacheSecretsCleaned);
      if !env.deleteUnused.Ok() then
        UpdateStatusAndRequeueAfter(s.Set(Pending, RegistryCacheConfigured, False, CacheCleanupFailed, Detail(env.deleteUnused.Text()), env.now), StatusDelay)
      else if !s.meta.caching then Switch(s, ConfigureSkr)
      else if !env.cacheReady.Ok() then RequeueNow(s)
      else EnsurePending(s, RegistryCacheConfigured, CacheConfigured, Text(32), env.now, ConfigureSkr)
  }

  function DoConfigureSkr(env: Env, s: Sys): (o: Out)
    requires s.shoot.Some?
    ensures Descends(o, 5)
  {
    var s := s.Did(env.provisioningInfo, ProvisioningInfoApplied);
    if !env.provisioningInfo.Ok() then
      UpdateStatusAndRequeueAfter(s.Set(Pending, OidcAndCMsConfigured, Unknown, CMError, Detail(env.provisioningInfo.Text()), env.now), ControlPlaneDelay)
    else if !s.shoot.value.oidcEnabled then
      Switch(s.Set(Pending, OidcAndCMsConfigured, True, OidcAndCMsDone, Text(33), env.now), ApplyRoleBindings)
    else
      var s := s.Did(env.oidcResources, OidcApplied);
      if !env.oidcResources.Ok() then
        UpdateStatusAndRequeueAfter(s.Set(Pending, OidcAndCMsConfigured, Unknown, OidcError, Text(34), env.now), ControlPlaneDelay)
      else Switch(s.Set(Pending, OidcAndCMsConfigured, True, OidcAndCMsDone, Text(35), env.now), ApplyRoleBindings)
  }

  function CompleteProvisioning(s: Sys): Sys {
    s.(status := s.status.(provisioningCompleted := true))
  }

  function DoApplyRoleBindings(cfg: Config, env: Env, s: Sys): (o: Out)
    requires s.shoot.Some?
    ensures Descends(o, 4)
  {
    if !env.bindingsClient.Ok() then
      UpdateStatusAndRequeueAfter(s.Set(Pending, Configured, False, ConfigurationErr, Text(36), env.now), ControlPlaneDelay)
    else if !env.bindingsList.Ok() then
      UpdateStatusAndRequeueAfter(s.Set(Pending, Configured, False, ConfigurationErr, Text(37), env.now), ControlPlaneDelay)
    else
      var s := s.Did(env.bindingsApply, RoleBindingsApplied);
      if !env.bindingsApply.Ok() then
        UpdateStatusAndRequeueAfter(s.Set(Pending, Configured, False, ConfigurationErr, Text(37), env.now), ControlPlaneDelay)
      else if cfg.dedicatedAuditLogging && s.meta.dedicatedRequested then
        Switch(s.Set(Pending, Configured, True, AdministratorsConfigured, Text(38), env.now), MigrateAuditLog)
      else
        UpdateStatusAndStop(CompleteProvisioning(s.Set(Ready, Configured, True, AdministratorsConfigured, Text(38), env.now)))
  }

  // ---- dedicated audit logging ----

  predicate ConfiguredAs(shoot: Shoot, data: AuditLogData) {
    AuditLogConfig.ReadsAs(shoot.spec, data)
  }

  /** None when the settings cannot be written into the shoot as it is. */
  function PatchAuditLog(env: Env, s: Sys, patched: Option<AuditLogConfig.ShootValue>, data: AuditLogData): (o: Out)
    requires s.shoot.Some?
    ensures Descends(o, 3)
  {
    if patched.None? then AuditLogUnpatched(env, s)
    else
      var s := s.Did(env.patchAuditLog, ShootAuditLogPatched(data));
      if !env.patchAuditLog.Ok() then AuditLogUnpatched(env, s)
      else
        var s := s.(shoot := Some(s.shoot.value.(spec := patched.value)));
        UpdateStatusAndRequeueAfter(s.Set(Pending, CustomAuditLogConfigured, Unknown, AuditLogConfigured, Text(39), env.now), GardenerDelay)
  }

  function AuditLogUnpatched(env: Env, s: Sys): Out {
    UpdateStatusAndRequeueAfter(s.Set(Pending, CustomAuditLogConfigured, False, AuditLogConfigured, Text(40), env.now), GardenerDelay)
  }

  function DoMigrateAuditLog(cfg: Config, env: Env, s: Sys): (o: Out)
    requires s.shoot.Some?
    ensures Descends(o, 3)
  {
    if !cfg.dedicatedAuditLogging || !s.meta.dedicatedRequested then UpdateStatusAndStop(CompleteProvisioning(s))
    else match env.claim
      case Err(text) => FailAndStop(s, CustomAuditLogConfigured, CustomAuditLogError, Detail(text), env.now)
      case Ok(data) =>
        var s := s.(trace := Then(s.trace, AuditLogClaimed));
        if ConfiguredAs(s.shoot.value, data) then
          Switch(s.Set(Ready, CustomAuditLogConfigured, True, AuditLogConfigured, Text(39), env.now), CopyAuditLogCredentials)
        else PatchAuditLog(env, s, AuditLogConfig.Written(s.shoot.value.spec, AuditLogConfig.DedicatedPatch(data)), data)
  }

  function DoCopyAuditLogCredentials(env: Env, s: Sys): (o: Out)
    requires s.shoot.Some?
    ensures Descends(o, 2)
  {
    match env.credentialsLookup
    case Err(text) =>
      UpdateStatusAndRequeueAfter(s.Set(Pending, AuditLogCredentialsCopied, False, CredentialsCopyError, Detail(text), env.now), ControlPlaneDelay)
    case Ok(data) =>
      if data.readCredsSecretName == "" then
        UpdateStatusAndRequeueAfter(s.Set(Pending, AuditLogCredentialsCopied, False, CredentialsCopyError, Text(41), env.now), ControlPlaneDelay)
      else
        var s := s.Did(env.copyCredentials, CredentialsCopiedToSkr);
        if !env.copyCredentials.Ok() then
          UpdateStatusAndRequeueAfter(s.Set(Pending, AuditLogCredentialsCopied, False, CredentialsCopyError, Detail(env.copyCredentials.Text()), env.now), ControlPlaneDelay)
        else
          UpdateStatusAndStop(CompleteProvisioning(s.Set(Ready, AuditLogCredentialsCopied, True, CredentialsCopied, Text(42), env.now)))
  }

  // ---- deletion ----

  function DoDeleteKubeconfig(env: Env, s: Sys): (o: Out)
    requires s.shoot.Some?
    ensures Descends(o, 12)
  {
    match env.cluster
    case ClusterReadFails(_) => FailAndStop(s, TerminatingType, KubernetesAPIErr, Text(43), env.now)
    case NoCluster => EnsureTerminating(s, Deprovisioned, GardenerCRDeleted, Text(44), env.now, DeleteShoot)
    case ClusterIs(_, deleting) =>
      if deleting then RequeueAfter(s, ControlPlaneDelay)
      else
        var s := s.Did(env.deleteCluster, ClusterDeleted);
        if !env.deleteCluster.Ok() then
          UpdateStatusAndRequeueAfter(s.Set(Terminating, Deprovisioned, False, GardenerError, Detail(env.deleteCluster.Text()), env.now), ControlPlaneDelay)
        else
          UpdateStatusAndRequeueAfter(s.Set(Terminating, Deprovisioned, Unknown, GardenerCRDeleted, Text(45), env.now), ControlPlaneDelay)
  }

  function DoDeleteShoot(cfg: Config, env: Env, s: Sys): (o: Out)
    requires s.shoot.Some?
    ensures Descends(o, 10)
  {
    var s := if cfg.dedicatedAuditLogging && s.meta.dedicatedRequested then s.Did(env.release, AuditLogReleased) else s;
    var shoot := s.shoot.value;
    if shoot.deleting then UpdateStatusAndRequeueAfter(s, ShootDeleteDelay)
    else
      var s := if shoot.deletionConfirmed then s else s.Did(env.confirmDeletion, DeletionConfirmed);
      if !shoot.deletionConfirmed && !env.confirmDeletion.Ok() then RequeueNow(s) else DeleteConfirmed(env, s)
  }

  function DeleteConfirmed(env: Env, s: Sys): Out {
    if !env.deleteConfigMap.Ok() then
      UpdateStatusAndRequeueAfter(s.Set(Terminating, Deprovisioned, False, StructuredConfigDeleted, Text(46), env.now), ShootDeleteDelay)
    else
      var s := s.Did(env.deleteShoot, ShootDeleted);
      if !env.deleteShoot.Ok() then
        UpdateStatusAndRequeueAfter(s.Set(Terminating, Deprovisioned, False, GardenerShootDeleted, Text(47), env.now), ShootDeleteDelay)
      else
        UpdateStatusAndRequeueAfter(s.Set(Terminating, Deprovisioned, Unknown, GardenerShootDeleted, Text(48), env.now), ShootDeleteDelay)
  }

  // ---- leaving ----

  function DoUpdateStatus(env: Env, s: Sys, result: Option<Requeue>, failed: bool): (o: Out)
    ensures Descends(o, 1)
  {
    if s.status == s.snapshot then Out(None, result, failed, s)
    else
      var s := s.Did(env.statusUpdate, StatusWritten(s.status));
      if !env.statusUpdate.Ok() then Out(None, None, true, s)
      else Switch(s, EmitEvent(result, failed))
  }

  /** One turn of the driver loop.  Every state function hands over to one of lower rank. */
  function Step(cfg: Config, env: Env, fn: StateFn, s: Sys): (o: Out)
    requires CanRun(fn, s)
  {
    match fn
    case TakeSnapshot => DoTakeSnapshot(env, s)
    case Initialize => DoInitialize(env, s)
    case CreateShoot => DoCreateShoot(cfg, env, s)
    case SelectShootProcessing => DoSelectShootProcessing(s)
    case SyncCacheSecrets => DoSyncCacheSecrets(cfg, env, s)
    case PatchExistingShoot => DoPatchExistingShoot(cfg, env, s)
    case WaitForShootCreation => DoWaitForShootCreation(env, s)
    case WaitForShootReconcile => DoWaitForShootReconcile(env, s)
    case HandleKubeconfig => DoHandleKubeconfig(env, s)
    case CreateKymaNamespace => DoCreateKymaNamespace(env, s)
    case InitializeBootstrapper => DoInitializeBootstrapper(cfg, env, s)
    case CleanupCacheSecrets => DoCleanupCacheSecrets(cfg, env, s)
    case ConfigureSkr => DoConfigureSkr(env, s)
    case ApplyRoleBindings => DoApplyRoleBindings(cfg, env, s)
    case MigrateAuditLog => DoMigrateAuditLog(cfg, env, s)
    case CopyAuditLogCredentials => DoCopyAuditLogCredentials(env, s)
    case DeleteKubeconfig => DoDeleteKubeconfig(env, s)
    case DeleteShoot => DoDeleteShoot(cfg, env, s)
    case UpdateStatus(result, failed) => DoUpdateStatus(env, s, result, failed)
    case EmitEvent(result, failed) => Out(None, result, failed, s)
    case CountStop => Stop(s)
  }
}
