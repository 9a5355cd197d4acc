/**
 The state functions as the controller runs them: methods that change the fields of the
 Runtime under reconciliation in place, and the driver loop that calls one after another.
 Each is proved to do what its specification in RuntimeFsm says.
 */
module RuntimeMachine {
  import opened Wrappers
  import opened AuditLogTypes
  import AuditLogConfig
  import opened RuntimeTypes
  import opened RuntimeFsm
  import RuntimeRun

  class Runtime {
    var meta: Meta
    var status: Status

    constructor (inst: Instance)
      ensures meta == inst.meta && status == inst.status
    {
      meta, status := inst.meta, inst.status;
    }

    method SetCondition(t: ConditionType, c: Truth, r: Reason, m: Message, now: int)
      modifies this`status
      ensures status == old(status).Set(old(status.state), t, c, r, m, now)
    {
      var condition := Condition(c, r, m, status.Since(t, c, now));
      status := status.(conditions := status.conditions[t := condition]);
    }

    method UpdateStatePending(t: ConditionType, r: Reason, c: Truth, m: Message, now: int)
      modifies this`status
      ensures status == old(status).Set(Pending, t, c, r, m, now)
    {
      status := status.(state := Pending);
      SetCondition(t, c, r, m, now);
    }

    method UpdateStateReady(t: ConditionType, r: Reason, m: Message, now: int)
      modifies this`status
      ensures status == old(status).Set(Ready, t, True, r, m, now)
    {
      status := status.(state := Ready);
      SetCondition(t, True, r, m, now);
    }

    method UpdateStateFailed(t: ConditionType, r: Reason, m: Message, now: int)
      modifies this`status
      ensures status == old(status).Set(Failed, t, False, r, m, now)
    {
      status := status.(state := Failed);
      SetCondition(t, False, r, m, now);
    }

    method UpdateStateDeletion(t: ConditionType, r: Reason, c: Truth, m: Message, now: int)
      modifies this`status
      ensures status == old(status).Set(Terminating, t, c, r, m, now)
    {
      status := status.(state := Terminating);
      SetCondition(t, c, r, m, now);
    }

    method UpdateStateProvisioningCompleted()
      modifies this`status
      ensures status == old(status).(provisioningCompleted := true)
    {
      status := status.(provisioningCompleted := true);
    }
  }

  /** How a state function returns. */
  datatype Exit = Exit(next: Option<StateFn>, result: Option<Requeue>, failed: bool) {
    function With(s: Sys): Out { Out(next, result, failed, s) }
  }

  function ExitOf(o: Out): Exit { Exit(o.next, o.result, o.failed) }

  /** A step inside a state function: None goes on, Some leaves the function. */
  function FlowOf(x: Option<Exit>, s: Sys): Flow {
    if x.None? then Continue(s) else Leave(x.value.With(s))
  }

  class SystemState {
    const instance: Runtime
    var snapshot: Status
    var shoot: Option<Shoot>
    var trace: Trace

    constructor (inst: Instance)
      ensures fresh(instance) && Value() == RuntimeRun.Begin(inst)
    {
      instance := new Runtime(inst);
      snapshot, shoot, trace := RuntimeRun.NO_STATUS, None, Start;
    }

    function Value(): Sys
      reads this, instance
    {
      Sys(instance.meta, instance.status, snapshot, shoot, trace)
    }

    /** An API call with a side effect. */
    method Do(call: Call, e: Effect) returns (ok: bool)
      modifies this`trace
      ensures Value() == old(Value()).Did(call, e) && ok == call.Ok()
    {
      if call.TookEffect() { trace := Then(trace, e); }
      ok := call.Ok();
    }

    method Write(w: ShootWrite, e: Effect)
      modifies this`trace
      ensures Value() == old(Value()).Wrote(w, e)
    {
      if w.Accepted? { trace := Then(trace, e); }
    }

    method SaveRuntimeStatus()
      modifies this`snapshot
      ensures snapshot == instance.status
    {
      snapshot := instance.status;
    }
  }

  class Fsm {
    const cfg: Config
    const env: Env

    constructor (cfg: Config, env: Env)
      ensures this.cfg == cfg && this.env == env
    {
      this.cfg, this.env := cfg, env;
    }

    method TakeSnapshot(s: SystemState) returns (x: Exit)
      modifies s, s.instance
      ensures x.With(s.Value()) == DoTakeSnapshot(env, old(s.Value()))
    {
      s.SaveRuntimeStatus();
      if env.shootRead.ShootReadFails? { return ExitOf(UpdateStatusAndRequeueAfter(s.Value(), GardenerDelay)); }
      if env.shootRead.ShootIs? { s.shoot := Some(env.shootRead.shoot); }
      return ExitOf(Switch(s.Value(), StateFn.Initialize));
    }

    method EnsureStatusConditionIsSetAndContinue(s: SystemState, t: ConditionType, r: Reason, m: Message, next: StateFn) returns (x: Exit)
      modifies s.instance`status
      ensures old(s.instance.status).Has(Pending, t, r, True) ==>
        x == Exit(Some(next), None, false) && s.instance.status == old(s.instance.status)
      ensures !old(s.instance.status).Has(Pending, t, r, True) ==>
        && x == Exit(Some(StateFn.UpdateStatus(Some(After(StatusDelay)), false)), None, false)
        && s.instance.status == old(s.instance.status).Set(Pending, t, True, r, m, env.now)
    {
      if s.instance.status.Has(Pending, t, r, True) { return ExitOf(Switch(s.Value(), next)); }
      s.instance.UpdateStatePending(t, r, True, m, env.now);
      return ExitOf(UpdateStatusAndRequeueAfter(s.Value(), StatusDelay));
    }

    method EnsureTerminatingStatusConditionAndContinue(s: SystemState, t: ConditionType, r: Reason, m: Message, next: StateFn) returns (x: Exit)
      modifies s.instance`status
      ensures old(s.instance.status).Has(Terminating, t, r, True) ==>
        x == Exit(Some(next), None, false) && s.instance.status == old(s.instance.status)
      ensures !old(s.instance.status).Has(Terminating, t, r, True) ==>
        && x == Exit(Some(StateFn.UpdateStatus(Some(After(StatusDelay)), false)), None, false)
        && s.instance.status == old(s.instance.status).Set(Terminating, t, True, r, m, env.now)
    {
      if s.instance.status.Has(Terminating, t, r, True) { return ExitOf(Switch(s.Value(), next)); }
      s.instance.UpdateStateDeletion(t, r, True, m, env.now);
      return ExitOf(UpdateStatusAndRequeueAfter(s.Value(), StatusDelay));
    }

    method Initialize(s: SystemState) returns (x: Exit)
      modifies s, s.instance
      ensures x.With(s.Value()) == DoInitialize(env, old(s.Value()))
    {
      var provisioned := Provisioned in s.instance.status.conditions;
      if s.shoot.Some? {
        s.instance.status := s.instance.status.(shootLastOperation := s.shoot.value.lastOperation, shootLastErrors := s.shoot.value.lastErrors);
      }
      if !s.instance.meta.deleting && !s.instance.meta.finalizer {
        s.instance.meta := s.instance.meta.(finalizer := true);
        var ok := s.Do(env.finalizerUpdate, FinalizerAdded);
        if !ok { return ExitOf(UpdateStatusAndFail(s.Value())); }
        s.instance.status := s.snapshot;
        return ExitOf(RequeueNow(s.Value()));
      }
      if !s.instance.meta.runtimeIdSet { return ExitOf(UpdateStatusAndFail(s.Value())); }
      if s.instance.meta.deleting {
        if s.shoot.Some? { return ExitOf(Switch(s.Value(), StateFn.DeleteKubeconfig)); }
        var ok := s.Do(env.deleteAllSecrets, CacheSecretsDeleted);
        if !ok { return ExitOf(UpdateStatusAndRequeueAfter(s.Value(), StatusDelay)); }
        if !s.instance.meta.finalizer { return ExitOf(StopWithMetrics(s.Value())); }
        s.instance.meta := s.instance.meta.(finalizer := false);
        ok := s.Do(env.finalizerUpdate, FinalizerRemoved);
        if !ok { return ExitOf(UpdateStatusAndFail(s.Value())); }
        s.instance.status := s.snapshot;
        return ExitOf(Stop(s.Value()));
      }
      if s.shoot.None? && !provisioned {
        s.instance.UpdateStatePending(Provisioned, Initialized, Unknown, Text(1), env.now);
        return ExitOf(UpdateStatusAndRequeueAfter(s.Value(), StatusDelay));
      }
      if s.shoot.None? { return ExitOf(Switch(s.Value(), StateFn.CreateShoot)); }
      return ExitOf(Switch(s.Value(), StateFn.SelectShootProcessing));
    }

    method CreateShoot(s: SystemState) returns (x: Exit)
      modifies s, s.instance
      ensures x.With(s.Value()) == DoCreateShoot(cfg, env, old(s.Value()))
    {
      if s.instance.meta.enforceSeed {
        if env.seedRead.SeedReadFails? {
          s.instance.UpdateStatePending(Provisioned, GardenerError, False, Text(2), env.now);
          return ExitOf(UpdateStatusAndRequeueAfter(s.Value(), GardenerDelay));
        }
        if env.seedRead.NoSeed? {
          s.instance.UpdateStateFailed(Provisioned, SeedNotFound, Text(3), env.now);
          return ExitOf(UpdateStatusAndStop(s.Value()));
        }
      }
      if cfg.dedicatedAuditLogging && s.instance.meta.dedicatedRequested {
        var reserved := s.Do(env.reserve, AuditLogReserved);
        if !reserved {
          s.instance.UpdateStateFailed(Provisioned, CustomAuditLogError, Detail(env.reserve.Text()), env.now);
          return ExitOf(UpdateStatusAndStop(s.Value()));
        }
      }
      if !env.structuredAuth.Ok() {
        s.instance.UpdateStateFailed(Provisioned, OidcError, Text(4), env.now);
        return ExitOf(UpdateStatusAndStop(s.Value()));
      }
      if !env.sharedAuditLog.Ok() && cfg.auditLogMandatory {
        s.instance.UpdateStateFailed(Provisioned, AuditLogError, Text(5), env.now);
        return ExitOf(UpdateStatusAndStop(s.Value()));
      }
      if !env.convert.Ok() {
        s.instance.UpdateStateFailed(Provisioned, ConversionError, Detail(env.convert.Text()), env.now);
        return ExitOf(UpdateStatusAndStop(s.Value()));
      }
      var created := s.Do(env.createShoot, ShootCreated);
      if !created {
        s.instance.UpdateStatePending(Provisioned, GardenerError, False, Detail(env.createShoot.Text()), env.now);
        return ExitOf(UpdateStatusAndRequeueAfter(s.Value(), GardenerDelay));
      }
      s.instance.UpdateStatePending(Provisioned, ShootCreationPending, Unknown, Text(6), env.now);
      return ExitOf(UpdateStatusAndRequeueAfter(s.Value(), GardenerDelay));
    }

    method SelectShootProcessing(s: SystemState) returns (x: Exit)
      requires s.shoot.Some?
      modifies s, s.instance
      ensures x.With(s.Value()) == DoSelectShootProcessing(old(s.Value()))
    {
      var shoot := s.shoot.value;
      if !shoot.domainSet || shoot.lastOperation.None? { return ExitOf(RequeueAfter(s.Value(), GardenerDelay)); }
      var op := shoot.lastOperation.value;
      var decision := ShouldPatchShoot(s.instance.meta, shoot);
      if decision.Undecidable? { return ExitOf(RequeueAfter(s.Value(), GardenerDelay)); }
      if decision.Patch? { return ExitOf(Switch(s.Value(), StateFn.SyncCacheSecrets)); }
      var st := s.instance.status.state;
      if st == Pending || st == Unset {
        if op.kind == Create { return ExitOf(Switch(s.Value(), StateFn.WaitForShootCreation)); }
        if op.kind == Reconcile { return ExitOf(Switch(s.Value(), StateFn.WaitForShootReconcile)); }
      }
      if (st == Ready || st == Failed) && MidReconcile(shoot, op) {
        if op.kind == Create { return ExitOf(Switch(s.Value(), StateFn.WaitForShootCreation)); }
        return ExitOf(Switch(s.Value(), StateFn.WaitForShootReconcile));
      }
      return ExitOf(Stop(s.Value()));
    }

    method WaitForShootCreation(s: SystemState) returns (x: Exit)
      requires s.shoot.Some? && s.shoot.value.lastOperation.Some?
      modifies s, s.instance
      ensures x.With(s.Value()) == DoWaitForShootCreation(env, old(s.Value()))
    {
      var op := s.shoot.value.lastOperation.value;
      match op.state
      case Processing_ | Pending_ | Aborted | Error =>
        if op.noMatchingSeeds {
          s.instance.UpdateStateFailed(Provisioned, CreationError, Text(7), env.now);
          return ExitOf(UpdateStatusAndStop(s.Value()));
        }
        s.instance.UpdateStatePending(Provisioned, ShootCreationPending, Unknown, Text(8), env.now);
        return ExitOf(UpdateStatusAndRequeueAfter(s.Value(), ShootCreateDelay));
      case Failed_ =>
        if s.shoot.value.lastErrors.retryable {
          s.instance.UpdateStatePending(Provisioned, ShootCreationPending, Unknown, Text(9), env.now);
          return ExitOf(UpdateStatusAndRequeueAfter(s.Value(), ShootCreateDelay));
        }
        s.instance.UpdateStateFailed(Provisioned, CreationError, Text(10), env.now);
        return ExitOf(UpdateStatusAndStop(s.Value()));
      case Succeeded =>
        x := EnsureStatusConditionIsSetAndContinue(s, Provisioned, ShootCreationCompleted, Text(11), StateFn.HandleKubeconfig);
      case Other_ =>
        return ExitOf(StopWithMetrics(s.Value()));
    }

    method WaitForShootReconcile(s: SystemState) returns (x: Exit)
      requires s.shoot.Some? && s.shoot.value.lastOperation.Some?
      modifies s, s.instance
      ensures x.With(s.Value()) == DoWaitForShootReconcile(env, old(s.Value()))
    {
      match s.shoot.value.lastOperation.value.state
      case Processing_ | Pending_ | Aborted | Error =>
        s.instance.UpdateStatePending(Provisioned, Processing, Unknown, Text(12), env.now);
        return ExitOf(UpdateStatusAndRequeueAfter(s.Value(), ShootReconcileDelay));
      case Failed_ =>
        if s.shoot.value.lastErrors.retryable {
          s.instance.UpdateStatePending(Provisioned, ShootCreationPending, Unknown, Text(13), env.now);
          return ExitOf(UpdateStatusAndRequeueAfter(s.Value(), ShootReconcileDelay));
        }
        s.instance.UpdateStateFailed(Provisioned, ProcessingErr, Detail(s.shoot.value.lastErrors.text), env.now);
        return ExitOf(UpdateStatusAndStop(s.Value()));
      case Succeeded =>
        x := EnsureStatusConditionIsSetAndContinue(s, Provisioned, ConfigurationCompleted, Text(14), StateFn.HandleKubeconfig);
      case Other_ =>
        return ExitOf(StopWithMetrics(s.Value()));
    }

    method SyncCacheSecrets(s: SystemState) returns (x: Exit)
      requires s.shoot.Some?
      modifies s, s.instance
      ensures x.With(s.Value()) == DoSyncCacheSecrets(cfg, env, old(s.Value()))
    {
      if !cfg.registryCache || !s.instance.meta.caching { return ExitOf(Switch(s.Value(), StateFn.PatchExistingShoot)); }
      if !env.cacheClient.Ok() {
        s.instance.UpdateStatePending(RegistryCacheConfigured, CacheConfigurationFailed, False, Detail(env.cacheClient.Text()), env.now);
        return ExitOf(UpdateStatusAndRequeueAfter(s.Value(), StatusDelay));
      }
      if !env.cachePending.Ok() { return ExitOf(RequeueNow(s.Value())); }
      if s.instance.meta.cachesWithSecret {
        var synced := s.Do(env.cacheSync, CacheSecretsSynced);
        if !synced {
          s.instance.UpdateStatePending(RegistryCacheConfigured, CacheConfigurationFailed, False, Detail(env.cacheSync.Text()), env.now);
          return ExitOf(UpdateStatusAndRequeueAfter(s.Value(), StatusDelay));
        }
      }
      return ExitOf(Switch(s.Value(), StateFn.PatchExistingShoot));
    }

    method SharedAuditLogData(s: SystemState) returns (x: Option<Exit>)
      modifies s, s.instance
      ensures FlowOf(x, s.Value()) == RuntimeFsm.SharedAuditLogData(cfg, env, old(s.Value()))
    {
      if !env.sharedAuditLog.Ok() && cfg.auditLogMandatory {
        s.instance.UpdateStateFailed(Provisioned, AuditLogError, Text(5), env.now);
        return Some(ExitOf(UpdateStatusAndStop(s.Value())));
      }
      return None;
    }

    method ResolveAuditLogData(s: SystemState) returns (x: Option<Exit>)
      modifies s, s.instance
      ensures FlowOf(x, s.Value()) == RuntimeFsm.ResolveAuditLogData(cfg, env, old(s.Value()))
    {
      if cfg.dedicatedAuditLogging {
        if env.dedicatedFound { return None; }
        if s.instance.meta.dedicatedRequested {
          var claimed := s.Do(env.directClaim, AuditLogClaimed);
          if !claimed {
            s.instance.UpdateStateFailed(Provisioned, CustomAuditLogError, Detail(env.directClaim.Text()), env.now);
            return Some(ExitOf(UpdateStatusAndStop(s.Value())));
          }
          s.instance.UpdateStatePending(CustomAuditLogConfigured, AuditLogConfigured, Unknown, Text(15), env.now);
          return None;
        }
      }
      x := SharedAuditLogData(s);
    }

    method HandleUpdateError(s: SystemState, w: ShootWrite) returns (x: Option<Exit>)
      modifies s, s.instance
      ensures FlowOf(x, s.Value()) == RuntimeFsm.HandleUpdateError(w, env, old(s.Value()))
    {
      match w
      case Accepted => return None;
      case ConflictWrite =>
        s.instance.UpdateStatePending(Provisioned, Processing, Unknown, Text(16), env.now);
        return Some(ExitOf(UpdateStatusAndRequeueAfter(s.Value(), GardenerDelay)));
      case ForbiddenWrite =>
        s.instance.UpdateStatePending(Provisioned, Processing, Unknown, Text(17), env.now);
        return Some(ExitOf(UpdateStatusAndRequeueAfter(s.Value(), GardenerDelay)));
      case RejectedWrite(text) =>
        s.instance.UpdateStateFailed(Provisioned, ProcessingErr, Detail(text), env.now);
        return Some(ExitOf(UpdateStatusAndStop(s.Value())));
    }

    method WriteShoot(s: SystemState, needed: bool, w: ShootWrite, e: Effect) returns (x: Option<Exit>)
      modifies s, s.instance
      ensures FlowOf(x, s.Value()) == RuntimeFsm.WriteShoot(needed, w, e, env, Continue(old(s.Value())))
    {
      if !needed { return None; }
      s.Write(w, e);
      x := HandleUpdateError(s, w);
    }

    method PreparePatch(s: SystemState) returns (x: Option<Exit>)
      modifies s, s.instance
      ensures FlowOf(x, s.Value()) == RuntimeFsm.PreparePatch(cfg, env, old(s.Value()))
    {
      if !env.structuredAuth.Ok() {
        s.instance.UpdateStateFailed(Provisioned, OidcError, Text(4), env.now);
        return Some(ExitOf(UpdateStatusAndStop(s.Value())));
      }
      if cfg.registryCache && !env.secretNames.Ok() {
        s.instance.UpdateStatePending(Provisioned, Processing, False, Text(18), env.now);
        return Some(ExitOf(UpdateStatusAndRequeueAfter(s.Value(), StatusDelay)));
      }
      if !env.convert.Ok() {
        s.instance.UpdateStateFailed(Provisioned, ConversionError, Detail(env.convert.Text()), env.now);
        return Some(ExitOf(UpdateStatusAndStop(s.Value())));
      }
      if env.cacheCount.CacheCountFails? {
        s.instance.UpdateStatePending(Provisioned, CacheConfigured, False, Text(19), env.now);
        return Some(ExitOf(UpdateStatusAndRequeueAfter(s.Value(), StatusDelay)));
      }
      return None;
    }

    method WritePatch(s: SystemState) returns (x: Option<Exit>)
      modifies s, s.instance
      ensures FlowOf(x, s.Value()) == RuntimeFsm.WritePatch(cfg, env, old(s.Value()))
    {
      x := PreparePatch(s);
      if x.Some? { return; }
      x := WriteShoot(s, env.workersChanged || env.cacheCount.CacheCountChanged?, env.updateShoot, ShootUpdated);
      if x.Some? { return; }
      x := WriteShoot(s, env.bindingChanged, env.updateBinding, ShootUpdated);
      if x.Some? { return; }
      x := WriteShoot(s, true, env.patchShoot, ShootPatched);
    }

    method DropForceAnnotation(s: SystemState) returns (x: Option<Exit>)
      modifies s, s.instance
      ensures FlowOf(x, s.Value()) == RuntimeFsm.DropForceAnnotation(env, old(s.Value()))
    {
      if !s.instance.meta.forced { return None; }
      s.instance.meta := s.instance.meta.(forced := false);
      var ok := s.Do(env.annotationUpdate, ForceAnnotationDropped);
      if !ok { return Some(ExitOf(RequeueNow(s.Value()))); }
      s.instance.status := s.snapshot;
      return None;
    }

    method PatchExistingShoot(s: SystemState) returns (x: Exit)
      requires s.shoot.Some?
      modifies s, s.instance
      ensures x.With(s.Value()) == DoPatchExistingShoot(cfg, env, old(s.Value()))
    {
      var generation := s.shoot.value.generation;
      var y := ResolveAuditLogData(s);
      if y.Some? { return y.value; }
      y := WritePatch(s);
      if y.Some? { return y.value; }
      y := DropForceAnnotation(s);
      if y.Some? { return y.value; }
      if env.patchedGeneration == generation {
        s.instance.UpdateStatePending(Provisioned, Processing, True, Text(20), env.now);
        return ExitOf(Switch(s.Value(), StateFn.HandleKubeconfig));
      }
      s.instance.UpdateStatePending(Provisioned, Processing, Unknown, Text(21), env.now);
      return ExitOf(UpdateStatusAndRequeueAfter(s.Value(), GardenerDelay));
    }

    method HandleKubeconfig(s: SystemState) returns (x: Exit)
      requires s.shoot.Some?
      modifies s, s.instance
      ensures x.With(s.Value()) == DoHandleKubeconfig(env, old(s.Value()))
    {
      match env.cluster
      case ClusterReadFails(text) =>
        s.instance.UpdateStateFailed(KubeconfigReady, KubernetesAPIErr, Detail(text), env.now);
        return ExitOf(UpdateStatusAndStop(s.Value()));
      case NoCluster =>
        var created := s.Do(env.createCluster, ClusterCreated);
        if !created {
          s.instance.UpdateStateFailed(KubeconfigReady, KubernetesAPIErr, Detail(env.createCluster.Text()), env.now);
          return ExitOf(UpdateStatusAndStop(s.Value()));
        }
        s.instance.UpdateStatePending(KubeconfigReady, GardenerCRCreated, Unknown, Text(22), env.now);
        return ExitOf(UpdateStatusAndRequeueAfter(s.Value(), ControlPlaneDelay));
      case ClusterIs(ready, _) =>
        if !ready { return ExitOf(RequeueAfter(s.Value(), ControlPlaneDelay)); }
        x := EnsureStatusConditionIsSetAndContinue(s, KubeconfigReady, GardenerCRReady, Text(23), StateFn.CreateKymaNamespace);
    }

    method CreateKymaNamespace(s: SystemState) returns (x: Exit)
      requires s.shoot.Some?
      modifies s, s.instance
      ensures x.With(s.Value()) == DoCreateKymaNamespace(env, old(s.Value()))
    {
      var ensured := s.Do(env.namespace, NamespaceEnsured);
      if !ensured {
        s.instance.UpdateStatePending(KymaSystemCreated, KymaSystemNSError, False, Detail(env.namespace.Text()), env.now);
        return ExitOf(UpdateStatusAndRequeueAfter(s.Value(), ControlPlaneDelay));
      }
      s.instance.UpdateStatePending(KymaSystemCreated, KymaSystemNSReady, True, Text(24), env.now);
      return ExitOf(Switch(s.Value(), StateFn.InitializeBootstrapper));
    }

    method InitializeBootstrapper(s: SystemState) returns (x: Exit)
      requires s.shoot.Some?
      modifies s, s.instance
      ensures x.With(s.Value()) == DoInitializeBootstrapper(cfg, env, old(s.Value()))
    {
      if !cfg.bootstrapper { return ExitOf(Switch(s.Value(), StateFn.CleanupCacheSecrets)); }
      if !env.bootstrapperConfigure.Ok() {
        s.instance.UpdateStatePending(RuntimeBootstrapperReady, BootstrapperConfigurationFailed, False, Text(25), env.now);
        return ExitOf(UpdateStatusAndRequeueAfter(s.Value(), BootstrapperDelay));
      }
      if env.bootstrapper.BootstrapperReadFails? {
        s.instance.UpdateStatePending(RuntimeBootstrapperReady, BootstrapperStatusUnknown, False, Text(26), env.now);
        return ExitOf(UpdateStatusAndRequeueAfter(s.Value(), BootstrapperDelay));
      }
      match env.bootstrapper.status
      case NotStarted =>
        var installed := s.Do(env.bootstrapperInstall, BootstrapperInstalled);
        if !installed {
          s.instance.UpdateStatePending(RuntimeBootstrapperReady, BootstrapperInstallationFailed, False, Text(27), env.now);
          return ExitOf(UpdateStatusAndRequeueAfter(s.Value(), BootstrapperDelay));
        }
        s.instance.UpdateStatePending(RuntimeBootstrapperReady, BootstrapperInstallationInProgress, False, Text(28), env.now);
        return ExitOf(UpdateStatusAndRequeueAfter(s.Value(), BootstrapperDelay));
      case UpgradeNeeded =>
        var installed := s.Do(env.bootstrapperInstall, BootstrapperInstalled);
        if !installed {
          s.instance.UpdateStatePending(RuntimeBootstrapperReady, BootstrapperUpgradeFailed, False, Text(29), env.now);
          return ExitOf(UpdateStatusAndRequeueAfter(s.Value(), BootstrapperDelay));
        }
        s.instance.UpdateStatePending(RuntimeBootstrapperReady, BootstrapperUpgradeInProgress, False, Text(30), env.now);
        return ExitOf(UpdateStatusAndRequeueAfter(s.Value(), BootstrapperDelay));
      case InProgress =>
        s.instance.UpdateStatePending(RuntimeBootstrapperReady, BootstrapperInstallationInProgress, False, Text(28), env.now);
        return ExitOf(UpdateStatusAndRequeueAfter(s.Value(), BootstrapperDelay));
      case InstallFailed =>
        s.instance.UpdateStateFailed(RuntimeBootstrapperReady, BootstrapperInstallationFailed, Text(27), env.now);
        return ExitOf(UpdateStatusAndStop(s.Value()));
      case BootstrapperIsReady =>
        s.instance.UpdateStatePending(RuntimeBootstrapperReady, BootstrapperConfigured, True, Text(31), env.now);
        return ExitOf(Switch(s.Value(), StateFn.CleanupCacheSecrets));
    }

    method CleanupCacheSecrets(s: SystemState) returns (x: Exit)
      requires s.shoot.Some?
      modifies s, s.instance
      ensures x.With(s.Value()) == DoCleanupCacheSecrets(cfg, env, old(s.Value()))
    {
      if !cfg.registryCache { return ExitOf(Switch(s.Value(), StateFn.ConfigureSkr)); }
      if !env.cleanupClient.Ok() {
        s.instance.UpdateStatePending(RegistryCacheConfigured, CacheConfigurationFailed, False, Detail(env.cleanupClient.Text()), env.now);
        return ExitOf(UpdateStatusAndRequeueAfter(s.Value(), StatusDelay));
      }
      var cleaned := s.Do(env.deleteUnused, CacheSecretsCleaned);
      if !cleaned {
        s.instance.UpdateStatePending(RegistryCacheConfigured, CacheCleanupFailed, False, Detail(env.deleteUnused.Text()), env.now);
        return ExitOf(UpdateStatusAndRequeueAfter(s.Value(), StatusDelay));
      }
      if !s.instance.meta.caching { return ExitOf(Switch(s.Value(), StateFn.ConfigureSkr)); }
      if !env.cacheReady.Ok() { return ExitOf(RequeueNow(s.Value())); }
      x := EnsureStatusConditionIsSetAndContinue(s, RegistryCacheConfigured, CacheConfigured, Text(32), StateFn.ConfigureSkr);
    }

    method ConfigureSkr(s: SystemState) returns (x: Exit)
      requires s.shoot.Some?
      modifies s, s.instance
      ensures x.With(s.Value()) == DoConfigureSkr(env, old(s.Value()))
    {
      var applied := s.Do(env.provisioningInfo, ProvisioningInfoApplied);
      if !applied {
        s.instance.UpdateStatePending(OidcAndCMsConfigured, CMError, Unknown, Detail(env.provisioningInfo.Text()), env.now);
        return ExitOf(UpdateStatusAndRequeueAfter(s.Value(), ControlPlaneDelay));
      }
      if !s.shoot.value.oidcEnabled {
        s.instance.UpdateStatePending(OidcAndCMsConfigured, OidcAndCMsDone, True, Text(33), env.now);
        return ExitOf(Switch(s.Value(), StateFn.ApplyRoleBindings));
      }
      applied := s.Do(env.oidcResources, OidcApplied);
      if !applied {
        s.instance.UpdateStatePending(OidcAndCMsConfigured, OidcError, Unknown, Text(34), env.now);
        return ExitOf(UpdateStatusAndRequeueAfter(s.Value(), ControlPlaneDelay));
      }
      s.instance.UpdateStatePending(OidcAndCMsConfigured, OidcAndCMsDone, True, Text(35), env.now);
      return ExitOf(Switch(s.Value(), StateFn.ApplyRoleBindings));
    }

    method ApplyRoleBindings(s: SystemState) returns (x: Exit)
      requires s.shoot.Some?
      modifies s, s.instance
      ensures x.With(s.Value()) == DoApplyRoleBindings(cfg, env, old(s.Value()))
    {
      if !env.bindingsClient.Ok() {
        s.instance.UpdateStatePending(Configured, ConfigurationErr, False, Text(36), env.now);
        return ExitOf(UpdateStatusAndRequeueAfter(s.Value(), ControlPlaneDelay));
      }
      if !env.bindingsList.Ok() {
        s.instance.UpdateStatePending(Configured, ConfigurationErr, False, Text(37), env.now);
        return ExitOf(UpdateStatusAndRequeueAfter(s.Value(), ControlPlaneDelay));
      }
      var applied := s.Do(env.bindingsApply, RoleBindingsApplied);
      if !applied {
        s.instance.UpdateStatePending(Configured, ConfigurationErr, False, Text(37), env.now);
        return ExitOf(UpdateStatusAndRequeueAfter(s.Value(), ControlPlaneDelay));
      }
      if cfg.dedicatedAuditLogging && s.instance.meta.dedicatedRequested {
        s.instance.UpdateStatePending(Configured, AdministratorsConfigured, True, Text(38), env.now);
        return ExitOf(Switch(s.Value(), StateFn.MigrateAuditLog));
      }
      s.instance.UpdateStateReady(Configured, AdministratorsConfigured, Text(38), env.now);
      s.instance.UpdateStateProvisioningCompleted();
      return ExitOf(UpdateStatusAndStop(s.Value()));
    }

    method MigrateAuditLog(s: SystemState) returns (x: Exit)
      requires s.shoot.Some?
      modifies s, s.instance
      ensures x.With(s.Value()) == DoMigrateAuditLog(cfg, env, old(s.Value()))
    {
      if !cfg.dedicatedAuditLogging || !s.instance.meta.dedicatedRequested {
        s.instance.UpdateStateProvisioningCompleted();
        return ExitOf(UpdateStatusAndStop(s.Value()));
      }
      match env.claim
      case Err(text) =>
        s.instance.UpdateStateFailed(CustomAuditLogConfigured, CustomAuditLogError, Detail(text), env.now);
        return ExitOf(UpdateStatusAndStop(s.Value()));
      case Ok(data) =>
        s.trace := Then(s.trace, AuditLogClaimed);
        var patchedShoot := new AuditLogConfig.Shoot(s.shoot.value.spec);
        var current := patchedShoot.GetAuditLogConfig();
        if current == Ok(AuditLogConfig.TargetOf(data)) {
          s.instance.UpdateStateReady(CustomAuditLogConfigured, AuditLogConfigured, Text(39), env.now);
          return ExitOf(Switch(s.Value(), StateFn.CopyAuditLogCredentials));
        }
        var err := patchedShoot.ApplyDedicatedAuditLog(data);
        if err.Some? {
          s.instance.UpdateStatePending(CustomAuditLogConfigured, AuditLogConfigured, False, Text(40), env.now);
          return ExitOf(UpdateStatusAndRequeueAfter(s.Value(), GardenerDelay));
        }
        var patched := s.Do(env.patchAuditLog, ShootAuditLogPatched(data));
        if !patched {
          s.instance.UpdateStatePending(CustomAuditLogConfigured, AuditLogConfigured, False, Text(40), env.now);
          return ExitOf(UpdateStatusAndRequeueAfter(s.Value(), GardenerDelay));
        }
        s.shoot := Some(s.shoot.value.(spec := patchedShoot.Value()));
        s.instance.UpdateStatePending(CustomAuditLogConfigured, AuditLogConfigured, Unknown, Text(39), env.now);
        return ExitOf(UpdateStatusAndRequeueAfter(s.Value(), GardenerDelay));
    }

    method CopyAuditLogCredentials(s: SystemState) returns (x: Exit)
      requires s.shoot.Some?
      modifies s, s.instance
      ensures x.With(s.Value()) == DoCopyAuditLogCredentials(env, old(s.Value()))
    {
      match env.credentialsLookup
      case Err(text) =>
        s.instance.UpdateStatePending(AuditLogCredentialsCopied, CredentialsCopyError, False, Detail(text), env.now);
        return ExitOf(UpdateStatusAndRequeueAfter(s.Value(), ControlPlaneDelay));
      case Ok(data) =>
        if data.readCredsSecretName == "" {
          s.instance.UpdateStatePending(AuditLogCredentialsCopied, CredentialsCopyError, False, Text(41), env.now);
          return ExitOf(UpdateStatusAndRequeueAfter(s.Value(), ControlPlaneDelay));
        }
        var copied := s.Do(env.copyCredentials, CredentialsCopiedToSkr);
        if !copied {
          s.instance.UpdateStatePending(AuditLogCredentialsCopied, CredentialsCopyError, False, Detail(env.copyCredentials.Text()), env.now);
          return ExitOf(UpdateStatusAndRequeueAfter(s.Value(), ControlPlaneDelay));
        }
        s.instance.UpdateStateReady(AuditLogCredentialsCopied, CredentialsCopied, Text(42), env.now);
        s.instance.UpdateStateProvisioningCompleted();
        return ExitOf(UpdateStatusAndStop(s.Value()));
    }

    method DeleteKubeconfig(s: SystemState) returns (x: Exit)
      requires s.shoot.Some?
      modifies s, s.instance
      ensures x.With(s.Value()) == DoDeleteKubeconfig(env, old(s.Value()))
    {
      match env.cluster
      case ClusterReadFails(_) =>
        s.instance.UpdateStateFailed(TerminatingType, KubernetesAPIErr, Text(43), env.now);
        return ExitOf(UpdateStatusAndStop(s.Value()));
      case NoCluster =>
        x := EnsureTerminatingStatusConditionAndContinue(s, Deprovisioned, GardenerCRDeleted, Text(44), StateFn.DeleteShoot);
      case ClusterIs(_, deleting) =>
        if deleting { return ExitOf(RequeueAfter(s.Value(), ControlPlaneDelay)); }
        var deleted := s.Do(env.deleteCluster, ClusterDeleted);
        if !deleted {
          s.instance.UpdateStateDeletion(Deprovisioned, GardenerError, False, Detail(env.deleteCluster.Text()), env.now);
          return ExitOf(UpdateStatusAndRequeueAfter(s.Value(), ControlPlaneDelay));
        }
        s.instance.UpdateStateDeletion(Deprovisioned, GardenerCRDeleted, Unknown, Text(45), env.now);
        return ExitOf(UpdateStatusAndRequeueAfter(s.Value(), ControlPlaneDelay));
    }

    method DeleteShoot(s: SystemState) returns (x: Exit)
      requires s.shoot.Some?
      modifies s, s.instance
      ensures x.With(s.Value()) == DoDeleteShoot(cfg, env, old(s.Value()))
    {
      if cfg.dedicatedAuditLogging && s.instance.meta.dedicatedRequested {
        var released := s.Do(env.release, AuditLogReleased);
      }
      if s.shoot.value.deleting { return ExitOf(UpdateStatusAndRequeueAfter(s.Value(), ShootDeleteDelay)); }
      if !s.shoot.value.deletionConfirmed {
        var confirmed := s.Do(env.confirmDeletion, DeletionConfirmed);
        if !confirmed { return ExitOf(RequeueNow(s.Value())); }
      }
      if !env.deleteConfigMap.Ok() {
        s.instance.UpdateStateDeletion(Deprovisioned, StructuredConfigDeleted, False, Text(46), env.now);
        return ExitOf(UpdateStatusAndRequeueAfter(s.Value(), ShootDeleteDelay));
      }
      var deleted := s.Do(env.deleteShoot, ShootDeleted);
      if !deleted {
        s.instance.UpdateStateDeletion(Deprovisioned, GardenerShootDeleted, False, Text(47), env.now);
        return ExitOf(UpdateStatusAndRequeueAfter(s.Value(), ShootDeleteDelay));
      }
      s.instance.UpdateStateDeletion(Deprovisioned, GardenerShootDeleted, Unknown, Text(48), env.now);
      return ExitOf(UpdateStatusAndRequeueAfter(s.Value(), ShootDeleteDelay));
    }

    method UpdateStatus(s: SystemState, result: Option<RuntimeFsm.Requeue>, failed: bool) returns (x: Exit)
      modifies s, s.instance
      ensures x.With(s.Value()) == DoUpdateStatus(env, old(s.Value()), result, failed)
    {
      if s.instance.status == s.snapshot { return Exit(None, result, failed); }
      var updated := s.Do(env.statusUpdate, StatusWritten(s.instance.status));
      if !updated { return Exit(None, None, true); }
      return ExitOf(Switch(s.Value(), StateFn.EmitEvent(result, failed)));
    }

    /** m.fn(ctx, m, &state) */
    method Call(fn: StateFn, s: SystemState) returns (x: Exit)
      requires CanRun(fn, s.Value())
      modifies s, s.instance
      ensures x.With(s.Value()) == Step(cfg, env, fn, old(s.Value()))
    {
      match fn
      case TakeSnapshot => x := TakeSnapshot(s);
      case Initialize => x := Initialize(s);
      case CreateShoot => x := CreateShoot(s);
      case SelectShootProcessing => x := SelectShootProcessing(s);
      case SyncCacheSecrets => x := SyncCacheSecrets(s);
      case PatchExistingShoot => x := PatchExistingShoot(s);
      case WaitForShootCreation => x := WaitForShootCreation(s);
      case WaitForShootReconcile => x := WaitForShootReconcile(s);
      case HandleKubeconfig => x := HandleKubeconfig(s);
      case CreateKymaNamespace => x := CreateKymaNamespace(s);
      case InitializeBootstrapper => x := InitializeBootstrapper(s);
      case CleanupCacheSecrets => x := CleanupCacheSecrets(s);
      case ConfigureSkr => x := ConfigureSkr(s);
      case ApplyRoleBindings => x := ApplyRoleBindings(s);
      case MigrateAuditLog => x := MigrateAuditLog(s);
      case CopyAuditLogCredentials => x := CopyAuditLogCredentials(s);
      case DeleteKubeconfig => x := DeleteKubeconfig(s);
      case DeleteShoot => x := DeleteShoot(s);
      case UpdateStatus(result, failed) => x := UpdateStatus(s, result, failed);
      case EmitEvent(result, failed) => return Exit(None, result, failed);
      case CountStop => return ExitOf(Stop(s.Value()));
    }

    /** The driver loop; `patience` turns pass before the context is cancelled. */
    method Run(v: Instance, patience: RuntimeRun.Patience) returns (f: RuntimeRun.Final)
      ensures f == RuntimeRun.Run(cfg, env, v, patience)
    {
      var s := new SystemState(v);
      var fn := StateFn.TakeSnapshot;
      var left := patience;
      while left != Some(0)
        invariant fresh(s) && fresh(s.instance)
        invariant CanRun(fn, s.Value())
        invariant RuntimeRun.Run(cfg, env, v, patience) == RuntimeRun.Drive(cfg, env, fn, s.Value(), left)
        decreases Rank(fn)
      {
        ghost var was := s.Value();
        var x := Call(fn, s);
        RuntimeRun.DriveTurn(cfg, env, fn, was, left, x.With(s.Value()));
        if x.next.None? || x.failed { return RuntimeRun.Final(x.result, x.failed, s.Value()); }
        fn := x.next.value;
        left := RuntimeRun.Less(left);
      }
      return RuntimeRun.Final(None, true, s.Value());
    }
  }
}
