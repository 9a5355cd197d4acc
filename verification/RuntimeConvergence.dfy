/**
 In an environment where everything works, a few runs make a Pending Runtime Ready for good.  On
 the way the dedicated audit log is written into the shoot, which the next run reads.
 */
module RuntimeConvergence {
  import opened Wrappers
  import opened AuditLogTypes
  import AuditLogConfig
  import opened RuntimeTypes
  import opened RuntimeFsm
  import opened RuntimeRun

  /** The shoot is up to date with the Runtime and its last operation has succeeded. */
  predicate ShootSettled(env: Env, meta: Meta, kind: LastOperationType) {
    && env.shootRead.ShootIs? && env.shootRead.shoot.domainSet && env.shootRead.shoot.lastOperation.Some?
    && (kind == Create || kind == Reconcile)
    && env.shootRead.shoot.lastOperation.value.kind == kind
    && env.shootRead.shoot.lastOperation.value.state == Succeeded
    && env.shootRead.shoot.generation <= env.shootRead.shoot.observedGeneration
    && ShouldPatchShoot(meta, env.shootRead.shoot) == NoPatch
  }

  /** Every call a run makes on such a shoot answers as hoped for. */
  predicate CallsWork(cfg: Config, env: Env, pre: Instance) {
    && ClusterReady(env) && env.namespace.Ok()
    && BootstrapperPassed(cfg, env)
    && env.cleanupClient.Ok() && env.deleteUnused.Ok() && env.cacheReady.Ok()
    && env.provisioningInfo.Ok() && env.oidcResources.Ok()
    && env.bindingsClient.Ok() && env.bindingsList.Ok() && env.bindingsApply.Ok()
    && (Dedicated(cfg, pre) ==>
          && env.claim.Ok? && env.patchAuditLog.Ok()
          && env.credentialsLookup.Ok? && env.credentialsLookup.value.readCredsSecretName != "" && env.copyCredentials.Ok())
    && env.statusUpdate.Ok()
  }

  predicate Stable(cfg: Config, env: Env, pre: Instance, kind: LastOperationType) {
    Live(pre) && ShootSettled(env, pre.meta, kind) && CallsWork(cfg, env, pre)
  }

  /** The audit log's settings can be written into the shoot, if they have to be. */
  predicate Writable(cfg: Config, env: Env, pre: Instance) {
    Dedicated(cfg, pre) && env.shootRead.ShootIs? ==> !AuditLogConfig.Broken(env.shootRead.shoot.spec.extensions)
  }

  // ---- the gates at which a run stops once to record a condition ----

  function ProvisionedReason(kind: LastOperationType): Reason {
    if kind == Create then ShootCreationCompleted else ConfigurationCompleted
  }

  predicate Open(st: Status, t: ConditionType, r: Reason) {
    t in st.conditions && st.conditions[t].reason == r && st.conditions[t].status == True
  }

  function Closed(st: Status, t: ConditionType, r: Reason): nat {
    if Open(st, t, r) then 0 else 1
  }

  function ClosedGates(cfg: Config, meta: Meta, kind: LastOperationType, st: Status): nat {
    Closed(st, Provisioned, ProvisionedReason(kind)) + Closed(st, KubeconfigReady, GardenerCRReady)
    + if cfg.registryCache && meta.caching then Closed(st, RegistryCacheConfigured, CacheConfigured) else 0
  }

  predicate SameAt(a: Status, b: Status, t: ConditionType) {
    (t in a.conditions <==> t in b.conditions) && (t in a.conditions ==> a.conditions[t] == b.conditions[t])
  }

  predicate SameGates(a: Status, b: Status) {
    SameAt(a, b, Provisioned) && SameAt(a, b, KubeconfigReady) && SameAt(a, b, RegistryCacheConfigured)
  }

  /** What the next run starts from. */
  function Resulting(pre: Instance, f: Final): Instance {
    Instance(f.sys.meta, if Persisted(f.sys.trace).Some? then Persisted(f.sys.trace).value else pre.status)
  }

  predicate BecameReady(cfg: Config, env: Env, pre: Instance, f: Final) {
    Resulting(pre, f).status.state == Ready && (Dedicated(cfg, pre) ==> AuditLogEqual(env))
  }

  predicate OpenedGate(cfg: Config, pre: Instance, kind: LastOperationType, f: Final) {
    var st := Resulting(pre, f).status;
    st.state == Pending && f.result.Some? && ClosedGates(cfg, pre.meta, kind, st) < ClosedGates(cfg, pre.meta, kind, pre.status)
  }

  /** The shoot did not have the settings, and now it has. */
  predicate Migrated(cfg: Config, env: Env, pre: Instance, kind: LastOperationType, f: Final) {
    var st := Resulting(pre, f).status;
    && st.state == Pending && f.result.Some? && ClosedGates(cfg, pre.meta, kind, st) <= ClosedGates(cfg, pre.meta, kind, pre.status)
    && Dedicated(cfg, pre) && env.claim.Ok? && !AuditLogEqual(env)
    && f.sys.shoot.Some? && AuditLogConfig.ReadsAs(f.sys.shoot.value.spec, env.claim.value)
  }

  predicate Untouched(env: Env, f: Final) {
    env.shootRead.ShootIs? && f.sys.shoot == Some(env.shootRead.shoot)
  }

  /** A run makes the Runtime Ready, opens a gate, or brings the shoot's audit log up to date. */
  predicate Progress(cfg: Config, env: Env, pre: Instance, kind: LastOperationType, f: Final) {
    && !f.failed && f.sys.meta == pre.meta
    && ((Untouched(env, f) && (BecameReady(cfg, env, pre, f) || OpenedGate(cfg, pre, kind, f))) || Migrated(cfg, env, pre, kind, f))
  }

  // ---- the path of a run, from its end ----

  predicate Here(env: Env, pre: Instance, s: Sys) {
    && pre.status.state == Pending && s.snapshot == pre.status && s.meta == pre.meta
    && env.shootRead.ShootIs? && s.shoot == Some(env.shootRead.shoot) && Persisted(s.trace).None?
  }

  predicate OnPath(env: Env, pre: Instance, s: Sys) {
    Here(env, pre, s) && SameGates(pre.status, s.status) && s.status.state == Pending
  }

  predicate EndsReady(good: (StateFn, Sys) -> bool, cfg: Config, env: Env, pre: Instance, s: Sys) {
    Here(env, pre, s) && s.status.state == Ready && (Dedicated(cfg, pre) ==> AuditLogEqual(env)) ==> good(UpdateStatus(None, false), s)
  }

  /** The shoot's audit log is due, and this is what patching it makes of the shoot. */
  predicate Due(cfg: Config, env: Env, pre: Instance, spec: AuditLogConfig.ShootValue) {
    && Dedicated(cfg, pre) && env.shootRead.ShootIs? && env.claim.Ok? && !AuditLogEqual(env)
    && AuditLogConfig.Written(env.shootRead.shoot.spec, AuditLogConfig.DedicatedPatch(env.claim.value)) == Some(spec)
  }

  function Patched(env: Env, s: Sys, shoot: Shoot, spec: AuditLogConfig.ShootValue): Sys {
    s.(shoot := Some(shoot.(spec := spec))).Set(Pending, CustomAuditLogConfigured, Unknown, AuditLogConfigured, Text(39), env.now)
  }

  predicate EndsMigrated(good: (StateFn, Sys) -> bool, cfg: Config, env: Env, pre: Instance, s: Sys, spec: AuditLogConfig.ShootValue) {
    OnPath(env, pre, s) && Due(cfg, env, pre, spec) ==>
      good(UpdateStatus(Some(After(GardenerDelay)), false), Patched(env, s, env.shootRead.shoot, spec))
  }

  predicate IsGate(cfg: Config, pre: Instance, kind: LastOperationType, t: ConditionType, r: Reason) {
    || (t == Provisioned && r == ProvisionedReason(kind))
    || (t == KubeconfigReady && r == GardenerCRReady)
    || (t == RegistryCacheConfigured && r == CacheConfigured && cfg.registryCache && pre.meta.caching)
  }

  predicate EndsAtGate(good: (StateFn, Sys) -> bool, cfg: Config, env: Env, pre: Instance, kind: LastOperationType, s: Sys, t: ConditionType, r: Reason, m: Message) {
    OnPath(env, pre, s) && IsGate(cfg, pre, kind, t, r) && !Open(s.status, t, r) ==>
      good(UpdateStatus(Some(After(StatusDelay)), false), s.Set(Pending, t, True, r, m, env.now))
  }

  predicate Backs(good: (StateFn, Sys) -> bool, cfg: Config, env: Env, fn: StateFn, s: Sys) {
    CanRun(fn, s) ==>
      var o := Step(cfg, env, fn, s);
      o.next.Some? && !o.failed && good(o.next.value, o.sys) ==> good(fn, s)
  }

  /**
   Where a run ends well, and that it ends well from wherever one turn leads to such a place.
   The proofs about the way there leave `good` unknown.
   */
  ghost predicate Ends(good: (StateFn, Sys) -> bool, cfg: Config, env: Env, pre: Instance, kind: LastOperationType) {
    && (forall s :: EndsReady(good, cfg, env, pre, s))
    && (forall s, spec :: EndsMigrated(good, cfg, env, pre, s, spec))
    && (forall s, t, r, m :: EndsAtGate(good, cfg, env, pre, kind, s, t, r, m))
    && (forall fn, s :: Backs(good, cfg, env, fn, s))
  }

  lemma FromCopy(good: (StateFn, Sys) -> bool, cfg: Config, env: Env, pre: Instance, kind: LastOperationType, s: Sys)
    requires Ends(good, cfg, env, pre, kind) && CallsWork(cfg, env, pre) && Here(env, pre, s) && Dedicated(cfg, pre) && AuditLogEqual(env)
    ensures good(CopyAuditLogCredentials, s)
  {
    assert Backs(good, cfg, env, CopyAuditLogCredentials, s);
    assert EndsReady(good, cfg, env, pre, DoCopyAuditLogCredentials(env, s).sys);
  }

  /** What the migration does in a run that has come this far, case by case. */
  lemma MigrateDecides(cfg: Config, env: Env, pre: Instance, s: Sys)
    requires CallsWork(cfg, env, pre) && Here(env, pre, s) && Dedicated(cfg, pre)
    ensures var o, spec := DoMigrateAuditLog(cfg, env, s), env.shootRead.shoot.spec;
      if AuditLogEqual(env) then o.next == Some(CopyAuditLogCredentials) && Here(env, pre, o.sys)
      else if AuditLogConfig.Broken(spec.extensions) then
        o.next == Some(UpdateStatus(Some(After(GardenerDelay)), false)) && o.sys.shoot == s.shoot && o.sys.trace == Then(s.trace, AuditLogClaimed)
      else
        var patch := AuditLogConfig.DedicatedPatch(env.claim.value);
        && AuditLogConfig.Written(spec, patch).Some?
        && AuditLogConfig.ReadsAs(AuditLogConfig.Written(spec, patch).value, env.claim.value)
        && o.next == Some(UpdateStatus(Some(After(GardenerDelay)), false))
        && o.sys.trace == Then(Then(s.trace, AuditLogClaimed), ShootAuditLogPatched(env.claim.value))
        && o.sys.shoot == Some(env.shootRead.shoot.(spec := AuditLogConfig.Written(spec, patch).value))
  {
    var spec, data := env.shootRead.shoot.spec, env.claim.value;
    AuditLogConfig.WriterFailsWithReader(spec.extensions, spec.resources, data);
    if !AuditLogConfig.Broken(spec.extensions) { AuditLogConfig.DedicatedIsRead(spec.extensions, spec.resources, data); }
  }

  lemma FromMigrate(good: (StateFn, Sys) -> bool, cfg: Config, env: Env, pre: Instance, kind: LastOperationType, s: Sys)
    requires Ends(good, cfg, env, pre, kind) && CallsWork(cfg, env, pre) && Writable(cfg, env, pre) && OnPath(env, pre, s) && Dedicated(cfg, pre)
    ensures good(MigrateAuditLog, s)
  {
    assert Backs(good, cfg, env, MigrateAuditLog, s);
    MigrateDecides(cfg, env, pre, s);
    if AuditLogEqual(env) { FromCopy(good, cfg, env, pre, kind, DoMigrateAuditLog(cfg, env, s).sys); }
    else {
      var data := env.claim.value;
      var spec := AuditLogConfig.Written(env.shootRead.shoot.spec, AuditLogConfig.DedicatedPatch(data)).value;
      var s1 := s.(trace := Then(Then(s.trace, AuditLogClaimed), ShootAuditLogPatched(data)));
      assert DoMigrateAuditLog(cfg, env, s).sys == Patched(env, s1, env.shootRead.shoot, spec);
      assert EndsMigrated(good, cfg, env, pre, s1, spec);
    }
  }

  lemma FromBindings(good: (StateFn, Sys) -> bool, cfg: Config, env: Env, pre: Instance, kind: LastOperationType, s: Sys)
    requires Ends(good, cfg, env, pre, kind) && CallsWork(cfg, env, pre) && Writable(cfg, env, pre) && OnPath(env, pre, s)
    ensures good(ApplyRoleBindings, s)
  {
    assert Backs(good, cfg, env, ApplyRoleBindings, s);
    var o := DoApplyRoleBindings(cfg, env, s);
    if Dedicated(cfg, pre) { FromMigrate(good, cfg, env, pre, kind, o.sys); } else { assert EndsReady(good, cfg, env, pre, o.sys); }
  }

  lemma FromConfigure(good: (StateFn, Sys) -> bool, cfg: Config, env: Env, pre: Instance, kind: LastOperationType, s: Sys)
    requires Ends(good, cfg, env, pre, kind) && CallsWork(cfg, env, pre) && Writable(cfg, env, pre) && OnPath(env, pre, s)
    ensures good(ConfigureSkr, s)
  {
    assert Backs(good, cfg, env, ConfigureSkr, s);
    FromBindings(good, cfg, env, pre, kind, DoConfigureSkr(env, s).sys);
  }

  lemma FromCleanup(good: (StateFn, Sys) -> bool, cfg: Config, env: Env, pre: Instance, kind: LastOperationType, s: Sys)
    requires Ends(good, cfg, env, pre, kind) && CallsWork(cfg, env, pre) && Writable(cfg, env, pre) && OnPath(env, pre, s)
    ensures good(CleanupCacheSecrets, s)
  {
    assert Backs(good, cfg, env, CleanupCacheSecrets, s);
    if cfg.registryCache && pre.meta.caching && !Open(s.status, RegistryCacheConfigured, CacheConfigured) {
      var s1 := s.Did(env.deleteUnused, CacheSecretsCleaned);
      assert EndsAtGate(good, cfg, env, pre, kind, s1, RegistryCacheConfigured, CacheConfigured, Text(32));
    } else {
      FromConfigure(good, cfg, env, pre, kind, DoCleanupCacheSecrets(cfg, env, s).sys);
    }
  }

  lemma FromBootstrapper(good: (StateFn, Sys) -> bool, cfg: Config, env: Env, pre: Instance, kind: LastOperationType, s: Sys)
    requires Ends(good, cfg, env, pre, kind) && CallsWork(cfg, env, pre) && Writable(cfg, env, pre) && OnPath(env, pre, s)
    ensures good(InitializeBootstrapper, s)
  {
    assert Backs(good, cfg, env, InitializeBootstrapper, s);
    FromCleanup(good, cfg, env, pre, kind, DoInitializeBootstrapper(cfg, env, s).sys);
  }

  lemma FromNamespace(good: (StateFn, Sys) -> bool, cfg: Config, env: Env, pre: Instance, kind: LastOperationType, s: Sys)
    requires Ends(good, cfg, env, pre, kind) && CallsWork(cfg, env, pre) && Writable(cfg, env, pre) && OnPath(env, pre, s)
    ensures good(CreateKymaNamespace, s)
  {
    assert Backs(good, cfg, env, CreateKymaNamespace, s);
    FromBootstrapper(good, cfg, env, pre, kind, DoCreateKymaNamespace(env, s).sys);
  }

  lemma FromKubeconfig(good: (StateFn, Sys) -> bool, cfg: Config, env: Env, pre: Instance, kind: LastOperationType, s: Sys)
    requires Ends(good, cfg, env, pre, kind) && CallsWork(cfg, env, pre) && Writable(cfg, env, pre) && OnPath(env, pre, s)
    ensures good(HandleKubeconfig, s)
  {
    assert Backs(good, cfg, env, HandleKubeconfig, s);
    if Open(s.status, KubeconfigReady, GardenerCRReady) { FromNamespace(good, cfg, env, pre, kind, s); }
    else { assert EndsAtGate(good, cfg, env, pre, kind, s, KubeconfigReady, GardenerCRReady, Text(23)); }
  }

  lemma FromWait(good: (StateFn, Sys) -> bool, cfg: Config, env: Env, pre: Instance, kind: LastOperationType, s: Sys)
    requires Ends(good, cfg, env, pre, kind) && Stable(cfg, env, pre, kind) && Writable(cfg, env, pre) && OnPath(env, pre, s)
    ensures good(if kind == Create then WaitForShootCreation else WaitForShootReconcile, s)
  {
    assert Backs(good, cfg, env, if kind == Create then WaitForShootCreation else WaitForShootReconcile, s);
    if Open(s.status, Provisioned, ProvisionedReason(kind)) { FromKubeconfig(good, cfg, env, pre, kind, s); }
    else {
      assert EndsAtGate(good, cfg, env, pre, kind, s, Provisioned, ProvisionedReason(kind), Text(if kind == Create then 11 else 14));
    }
  }

  // ---- what the ends are good for ----

  lemma WritesChanged(cfg: Config, env: Env, s: Sys, result: Option<Requeue>)
    requires env.statusUpdate.Ok() && s.status != s.snapshot
    ensures Drive(cfg, env, UpdateStatus(result, false), s, None) == Final(result, false, s.(trace := Then(s.trace, StatusWritten(s.status))))
  {
    var s1 := s.Did(env.statusUpdate, StatusWritten(s.status));
    assert DoUpdateStatus(env, s, result, false) == Switch(s1, EmitEvent(result, false));
    assert Drive(cfg, env, EmitEvent(result, false), s1, None) == Final(result, false, s1);
  }

  lemma WritesUnchanged(cfg: Config, env: Env, s: Sys, result: Option<Requeue>)
    requires s.status == s.snapshot
    ensures Drive(cfg, env, UpdateStatus(result, false), s, None) == Final(result, false, s)
  {
    assert DoUpdateStatus(env, s, result, false) == Out(None, result, false, s);
  }

  /** The status write takes along the result, and what it leaves is the status it was given. */
  lemma WritesStatus(cfg: Config, env: Env, pre: Instance, s: Sys, result: Option<Requeue>)
    requires env.statusUpdate.Ok() && s.snapshot == pre.status && Persisted(s.trace).None?
    ensures var f := Drive(cfg, env, UpdateStatus(result, false), s, None);
      !f.failed && f.result == result && f.sys.meta == s.meta && f.sys.shoot == s.shoot && Resulting(pre, f).status == s.status
  {
    if s.status == s.snapshot { WritesUnchanged(cfg, env, s, result); } else { WritesChanged(cfg, env, s, result); }
  }

  lemma OpensGate(cfg: Config, env: Env, pre: Instance, kind: LastOperationType, s: Sys, t: ConditionType, r: Reason, m: Message)
    requires OnPath(env, pre, s) && IsGate(cfg, pre, kind, t, r) && !Open(s.status, t, r)
    ensures ClosedGates(cfg, pre.meta, kind, s.Set(Pending, t, True, r, m, env.now).status) < ClosedGates(cfg, pre.meta, kind, pre.status)
  {
    assert Open(s.Set(Pending, t, True, r, m, env.now).status, t, r) && !Open(pre.status, t, r);
  }

  predicate LeadsToProgress(cfg: Config, env: Env, pre: Instance, kind: LastOperationType, fn: StateFn, s: Sys) {
    CanRun(fn, s) && Progress(cfg, env, pre, kind, Drive(cfg, env, fn, s, None))
  }

  lemma ProgressBacks(cfg: Config, env: Env, pre: Instance, kind: LastOperationType, fn: StateFn, s: Sys)
    ensures Backs((fn, s) => LeadsToProgress(cfg, env, pre, kind, fn, s), cfg, env, fn, s)
  {
  }

  lemma DueIsRead(cfg: Config, env: Env, pre: Instance, spec: AuditLogConfig.ShootValue)
    requires Due(cfg, env, pre, spec)
    ensures AuditLogConfig.ReadsAs(spec, env.claim.value)
  {
    AuditLogConfig.DedicatedIsRead(env.shootRead.shoot.spec.extensions, env.shootRead.shoot.spec.resources, env.claim.value);
  }

  lemma PatchedKeepsGates(cfg: Config, env: Env, pre: Instance, kind: LastOperationType, s: Sys, shoot: Shoot, spec: AuditLogConfig.ShootValue)
    requires OnPath(env, pre, s)
    ensures var t := Patched(env, s, shoot, spec);
      && t.snapshot == pre.status && t.meta == pre.meta && Persisted(t.trace).None? && t.shoot == Some(shoot.(spec := spec))
      && t.status.state == Pending && ClosedGates(cfg, pre.meta, kind, t.status) == ClosedGates(cfg, pre.meta, kind, pre.status)
  {
  }

  lemma MigratedIsProgress(cfg: Config, env: Env, pre: Instance, kind: LastOperationType, s: Sys, spec: AuditLogConfig.ShootValue)
    requires env.statusUpdate.Ok() && OnPath(env, pre, s) && Due(cfg, env, pre, spec)
    ensures LeadsToProgress(cfg, env, pre, kind, UpdateStatus(Some(After(GardenerDelay)), false), Patched(env, s, env.shootRead.shoot, spec))
  {
    DueIsRead(cfg, env, pre, spec);
    PatchedKeepsGates(cfg, env, pre, kind, s, env.shootRead.shoot, spec);
    WritesStatus(cfg, env, pre, Patched(env, s, env.shootRead.shoot, spec), Some(After(GardenerDelay)));
  }

  lemma GateIsProgress(cfg: Config, env: Env, pre: Instance, kind: LastOperationType, s: Sys, t: ConditionType, r: Reason, m: Message)
    requires env.statusUpdate.Ok() && OnPath(env, pre, s) && IsGate(cfg, pre, kind, t, r) && !Open(s.status, t, r)
    ensures LeadsToProgress(cfg, env, pre, kind, UpdateStatus(Some(After(StatusDelay)), false), s.Set(Pending, t, True, r, m, env.now))
  {
    OpensGate(cfg, env, pre, kind, s, t, r, m);
    WritesStatus(cfg, env, pre, s.Set(Pending, t, True, r, m, env.now), Some(After(StatusDelay)));
  }

  lemma EndsAreProgress(cfg: Config, env: Env, pre: Instance, kind: LastOperationType)
    requires env.statusUpdate.Ok()
    ensures Ends((fn, s) => LeadsToProgress(cfg, env, pre, kind, fn, s), cfg, env, pre, kind)
  {
    var good := (fn, s) => LeadsToProgress(cfg, env, pre, kind, fn, s);
    forall s ensures EndsReady(good, cfg, env, pre, s) {
      if Here(env, pre, s) && s.status.state == Ready { WritesStatus(cfg, env, pre, s, None); }
    }
    forall s, spec ensures EndsMigrated(good, cfg, env, pre, s, spec) {
      if OnPath(env, pre, s) && Due(cfg, env, pre, spec) { MigratedIsProgress(cfg, env, pre, kind, s, spec); }
    }
    forall s, t, r, m ensures EndsAtGate(good, cfg, env, pre, kind, s, t, r, m) {
      if OnPath(env, pre, s) && IsGate(cfg, pre, kind, t, r) && !Open(s.status, t, r) {
        GateIsProgress(cfg, env, pre, kind, s, t, r, m);
      }
    }
    forall fn, s ensures Backs(good, cfg, env, fn, s) { ProgressBacks(cfg, env, pre, kind, fn, s); }
  }

  /** Every run from Pending ends Ready, opens one more gate or writes the audit log that is due. */
  lemma RunMakesProgress(cfg: Config, env: Env, pre: Instance, kind: LastOperationType)
    requires Stable(cfg, env, pre, kind) && Writable(cfg, env, pre) && pre.status.state == Pending
    ensures Progress(cfg, env, pre, kind, Run(cfg, env, pre, None))
  {
    ReachesChoice(cfg, env, pre);
    var s := ExposeShoot(Sys(pre.meta, pre.status, pre.status, Some(env.shootRead.shoot), Start));
    EndsAreProgress(cfg, env, pre, kind);
    FromWait((fn, s) => LeadsToProgress(cfg, env, pre, kind, fn, s), cfg, env, pre, kind, s);
  }

  /** Ready is a fixed point: a run writes nothing and asks for nothing. */
  lemma ReadyStays(cfg: Config, env: Env, pre: Instance, kind: LastOperationType)
    requires Live(pre) && ShootSettled(env, pre.meta, kind) && pre.status.state == Ready
    ensures var f := Run(cfg, env, pre, None); Quiet(f) && f.sys.trace == Start && f.sys.meta == pre.meta && Untouched(env, f)
  {
    ReachesChoice(cfg, env, pre);
  }

  // ---- any number of runs ----

  /** A Runtime and the part of its shoot that its runs write and read. */
  datatype Site = Site(inst: Instance, spec: AuditLogConfig.ShootValue)

  /** The same answers, from a shoot with this spec. */
  function Seeing(env: Env, spec: AuditLogConfig.ShootValue): Env {
    if env.shootRead.ShootIs? then env.(shootRead := ShootIs(env.shootRead.shoot.(spec := spec))) else env
  }

  /** One run, which finds the shoot as the last one has left it. */
  function Visit(cfg: Config, env: Env, site: Site): Site {
    var f := Run(cfg, Seeing(env, site.spec), site.inst, None);
    Site(Resulting(site.inst, f), if f.sys.shoot.Some? then f.sys.shoot.value.spec else site.spec)
  }

  function Visits(cfg: Config, envs: seq<Env>, site: Site): Site {
    if envs == [] then site else Visits(cfg, envs[1..], Visit(cfg, envs[0], site))
  }

  /** The environment may change from run to run as long as it stays stable and the claim the same. */
  predicate AllStable(cfg: Config, envs: seq<Env>, meta: Meta, kind: LastOperationType, data: AuditLogData) {
    forall i :: 0 <= i < |envs| ==> StableFor(cfg, envs[i], Instance(meta, NO_STATUS), kind, data)
  }

  predicate StableFor(cfg: Config, env: Env, pre: Instance, kind: LastOperationType, data: AuditLogData) {
    Stable(cfg, env, pre, kind) && (Dedicated(cfg, pre) ==> SameTarget(env.claim.value, data))
  }

  /** What is left to do: gates to open, and the audit log to write. */
  function Left(cfg: Config, site: Site, kind: LastOperationType, data: AuditLogData): nat {
    ClosedGates(cfg, site.inst.meta, kind, site.inst.status)
    + if Dedicated(cfg, site.inst) && !AuditLogConfig.ReadsAs(site.spec, data) then 1 else 0
  }

  predicate CanSettle(cfg: Config, site: Site) {
    Dedicated(cfg, site.inst) ==> !AuditLogConfig.Broken(site.spec.extensions)
  }

  lemma VisitMakesProgress(cfg: Config, env: Env, site: Site, kind: LastOperationType, data: AuditLogData)
    requires StableFor(cfg, env, site.inst, kind, data) && CanSettle(cfg, site) && site.inst.status.state == Pending
    ensures var t := Visit(cfg, env, site);
      && t.inst.meta == site.inst.meta && CanSettle(cfg, t)
      && (t.inst.status.state == Ready || (t.inst.status.state == Pending && Left(cfg, t, kind, data) < Left(cfg, site, kind, data)))
      && (t.inst.status.state == Ready && Dedicated(cfg, t.inst) ==> AuditLogConfig.ReadsAs(t.spec, data))
  {
    var seen := Seeing(env, site.spec);
    RunMakesProgress(cfg, seen, site.inst, kind);
    var t := Visit(cfg, env, site);
    AuditLogConfig.WriterFailsWithReader(t.spec.extensions, t.spec.resources, data);
  }

  lemma VisitStaysReady(cfg: Config, env: Env, site: Site, kind: LastOperationType, data: AuditLogData)
    requires StableFor(cfg, env, site.inst, kind, data) && site.inst.status.state == Ready
    ensures Visit(cfg, env, site) == site
  {
    ReadyStays(cfg, Seeing(env, site.spec), site.inst, kind);
  }

  /** More runs than there is left to do make the Runtime Ready, and the shoot has its audit log. */
  lemma {:induction false} Converges(cfg: Config, envs: seq<Env>, site: Site, kind: LastOperationType, data: AuditLogData)
    requires AllStable(cfg, envs, site.inst.meta, kind, data) && CanSettle(cfg, site)
    requires site.inst.status.state == Ready || (site.inst.status.state == Pending && |envs| > Left(cfg, site, kind, data))
    ensures var t := Visits(cfg, envs, site);
      && t.inst.status.state == Ready && t.inst.meta == site.inst.meta
      && (site.inst.status.state == Ready ==> t == site)
      && (site.inst.status.state == Pending && Dedicated(cfg, t.inst) ==> AuditLogConfig.ReadsAs(t.spec, data))
  {
    if envs != [] {
      assert StableFor(cfg, envs[0], Instance(site.inst.meta, NO_STATUS), kind, data);
      if site.inst.status.state == Ready { VisitStaysReady(cfg, envs[0], site, kind, data); }
      else { VisitMakesProgress(cfg, envs[0], site, kind, data); }
      Converges(cfg, envs[1..], Visit(cfg, envs[0], site), kind, data);
    }
  }
}
