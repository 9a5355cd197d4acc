/**
 One reconciliation: the driver loop over the state functions, and what holds of every run
 whatever the API answers and whenever the context is cancelled.
 */
module RuntimeRun {
  import opened Wrappers
  import opened AuditLogTypes
  import opened RuntimeTypes
  import opened RuntimeFsm

  datatype Final = Final(result: Option<Requeue>, failed: bool, sys: Sys)

  /** The number of turns before the context is cancelled, if it is. */
  type Patience = Option<nat>

  function Less(p: Patience): Patience
    requires p != Some(0)
  {
    if p.None? then None else Some(p.value - 1)
  }

  function Drive(cfg: Config, env: Env, fn: StateFn, s: Sys, patience: Patience): Final
    requires CanRun(fn, s)
    decreases Rank(fn)
  {
    if patience == Some(0) then Final(None, true, s)
    else
      var o := Step(cfg, env, fn, s);
      if o.next.None? || o.failed then Finish(o)
      else Drive(cfg, env, o.next.value, o.sys, Less(patience))
  }

  function Finish(o: Out): Final {
    Final(o.result, o.failed, o.sys)
  }

  /** Drive after one turn. */
  function Onward(cfg: Config, env: Env, o: Out, patience: Patience): Final
    requires o.next.Some? && !o.failed ==> CanRun(o.next.value, o.sys)
  {
    if o.next.None? || o.failed then Finish(o) else Drive(cfg, env, o.next.value, o.sys, patience)
  }

  lemma DriveTurn(cfg: Config, env: Env, fn: StateFn, s: Sys, patience: Patience, o: Out)
    requires CanRun(fn, s) && patience != Some(0) && o == Step(cfg, env, fn, s)
    ensures Descends(o, Rank(fn)) && Drive(cfg, env, fn, s, patience) == Onward(cfg, env, o, Less(patience))
  {
  }

  predicate KeepsOrEnds(inv: (StateFn, Sys) -> bool, done: Final -> bool, s: Sys, o: Out) {
    && done(Final(None, true, s))
    && if o.next.None? || o.failed then done(Finish(o)) else inv(o.next.value, o.sys)
  }

  /** One turn of the loop keeps inv, or ends it in done. */
  predicate TurnKeeps(inv: (StateFn, Sys) -> bool, done: Final -> bool, cfg: Config, env: Env, fn: StateFn, s: Sys) {
    CanRun(fn, s) && inv(fn, s) ==> KeepsOrEnds(inv, done, s, Step(cfg, env, fn, s))
  }

  /** Induction over the turns of the loop. */
  lemma {:induction false} DriveInduction(inv: (StateFn, Sys) -> bool, done: Final -> bool,
      cfg: Config, env: Env, fn: StateFn, s: Sys, patience: Patience)
    requires forall fn, s :: TurnKeeps(inv, done, cfg, env, fn, s)
    requires CanRun(fn, s) && inv(fn, s)
    ensures done(Drive(cfg, env, fn, s, patience))
    decreases Rank(fn)
  {
    assert TurnKeeps(inv, done, cfg, env, fn, s);
    var o := Step(cfg, env, fn, s);
    if patience != Some(0) { DriveTurn(cfg, env, fn, s, patience, o); }
    if patience != Some(0) && o.next.Some? && !o.failed {
      DriveInduction(inv, done, cfg, env, o.next.value, o.sys, Less(patience));
    }
  }

  const NO_STATUS: Status := Status(Unset, map[], false, None, LastErrors("", false))

  function Begin(inst: Instance): Sys {
    Sys(inst.meta, inst.status, NO_STATUS, None, Start)
  }

  function Run(cfg: Config, env: Env, inst: Instance, patience: Patience): Final {
    Drive(cfg, env, TakeSnapshot, Begin(inst), patience)
  }

  predicate Quiet(f: Final) {
    f.result.None? && !f.failed
  }

  // ---- when a run may do what it does ----

  predicate All(may: Effect -> bool, trace: Trace) {
    trace.Then? ==> may(trace.last) && All(may, trace.before)
  }

  predicate Occurs(e: Effect, trace: Trace) {
    trace.Then? && (trace.last == e || Occurs(e, trace.before))
  }

  predicate Settled(st: RuntimeState) {
    st == Ready || st == Failed
  }

  /** A Runtime that is not being deleted, carries the finalizer and has its runtime ID. */
  predicate Live(pre: Instance) {
    !pre.meta.deleting && pre.meta.finalizer && pre.meta.runtimeIdSet
  }

  predicate Creating(env: Env, pre: Instance) {
    Live(pre) && env.shootRead.NoShoot?
  }

  predicate Serving(env: Env, pre: Instance) {
    Live(pre) && env.shootRead.ShootIs?
  }

  predicate Deleting(env: Env, pre: Instance) {
    pre.meta.deleting && env.shootRead.ShootIs?
  }

  predicate Justified(env: Env, pre: Instance, e: Effect) {
    match e
    case FinalizerAdded => !pre.meta.deleting && !pre.meta.finalizer
    case FinalizerRemoved => pre.meta.deleting && pre.meta.finalizer && env.shootRead.NoShoot? && env.deleteAllSecrets.Ok()
    case CacheSecretsDeleted => pre.meta.deleting && env.shootRead.NoShoot?
    case AuditLogReserved | ShootCreated => Creating(env, pre)
    case DeletionConfirmed | ShootDeleted | AuditLogReleased => Deleting(env, pre) && env.cluster.NoCluster?
    case ClusterDeleted => Deleting(env, pre) && env.cluster.ClusterIs?
    case ClusterCreated => Serving(env, pre) && env.cluster.NoCluster?
    case StatusWritten(_) => false
    case _ => Serving(env, pre)
  }

  /**
   The same rule as conditions on any predicate `may`.  The proofs about single state
   functions leave `may` unknown, which keeps them small.
   */
  ghost predicate Permits(may: Effect -> bool, env: Env, pre: Instance) {
    && (!pre.meta.deleting && !pre.meta.finalizer ==> may(FinalizerAdded))
    && (pre.meta.deleting && pre.meta.finalizer && env.shootRead.NoShoot? && env.deleteAllSecrets.Ok() ==> may(FinalizerRemoved))
    && (pre.meta.deleting && env.shootRead.NoShoot? ==> may(CacheSecretsDeleted))
    && (Creating(env, pre) ==> may(AuditLogReserved) && may(ShootCreated))
    && (Deleting(env, pre) && env.cluster.NoCluster? ==> may(AuditLogReleased) && may(DeletionConfirmed) && may(ShootDeleted))
    && (Deleting(env, pre) && env.cluster.ClusterIs? ==> may(ClusterDeleted))
    && (Serving(env, pre) && env.cluster.NoCluster? ==> may(ClusterCreated))
    && (Serving(env, pre) ==> PermitsService(may))
  }

  ghost predicate PermitsService(may: Effect -> bool) {
    && may(AuditLogClaimed) && may(ShootUpdated) && may(ShootPatched) && (forall d :: may(ShootAuditLogPatched(d)))
    && may(CacheSecretsSynced) && may(ForceAnnotationDropped) && may(NamespaceEnsured) && may(BootstrapperInstalled)
    && may(CacheSecretsCleaned) && may(ProvisioningInfoApplied) && may(OidcApplied) && may(RoleBindingsApplied)
    && may(CredentialsCopiedToSkr)
  }

  ghost predicate ForbidsStatus(may: Effect -> bool) {
    forall st :: !may(StatusWritten(st))
  }

  lemma JustifiedService(env: Env, pre: Instance)
    requires Serving(env, pre)
    ensures PermitsService(e => Justified(env, pre, e))
  {
  }

  lemma JustifiedPermits(env: Env, pre: Instance)
    ensures Permits(e => Justified(env, pre, e), env, pre)
  {
    if Serving(env, pre) { JustifiedService(env, pre); }
  }

  // ---- what stands behind Ready ----

  predicate ClusterReady(env: Env) {
    env.cluster.ClusterIs? && env.cluster.ready
  }

  predicate NamespaceReady(env: Env, trace: Trace) {
    env.namespace.Ok() && Occurs(NamespaceEnsured, trace)
  }

  predicate BootstrapperPassed(cfg: Config, env: Env) {
    cfg.bootstrapper ==> env.bootstrapperConfigure.Ok() && env.bootstrapper == BootstrapperIs(BootstrapperIsReady)
  }

  predicate CachePassed(cfg: Config, env: Env, pre: Instance, trace: Trace) {
    cfg.registryCache ==>
      && env.cleanupClient.Ok() && env.deleteUnused.Ok() && Occurs(CacheSecretsCleaned, trace)
      && (pre.meta.caching ==> env.cacheReady.Ok())
  }

  predicate InfoApplied(env: Env, trace: Trace) {
    env.provisioningInfo.Ok() && Occurs(ProvisioningInfoApplied, trace)
  }

  predicate BindingsApplied(env: Env, trace: Trace) {
    env.bindingsApply.Ok() && Occurs(RoleBindingsApplied, trace)
  }

  predicate Dedicated(cfg: Config, pre: Instance) {
    cfg.dedicatedAuditLogging && pre.meta.dedicatedRequested
  }

  predicate AuditLogEqual(env: Env) {
    env.claim.Ok? && env.shootRead.ShootIs? && ConfiguredAs(env.shootRead.shoot, env.claim.value)
  }

  predicate CopiedToSkr(env: Env, trace: Trace) {
    env.copyCredentials.Ok() && Occurs(CredentialsCopiedToSkr, trace)
  }

  /** What has to be seen or done before the state function of rank k is called. */
  predicate Gate(cfg: Config, env: Env, pre: Instance, k: nat, trace: Trace) {
    if k == 8 then ClusterReady(env)
    else if k == 7 then NamespaceReady(env, trace)
    else if k == 6 then BootstrapperPassed(cfg, env)
    else if k == 5 then CachePassed(cfg, env, pre, trace)
    else if k == 4 then InfoApplied(env, trace)
    else if k == 3 then BindingsApplied(env, trace)
    else if k == 2 then Dedicated(cfg, pre) ==> AuditLogEqual(env)
    else k == 1 ==> Dedicated(cfg, pre) ==> CopiedToSkr(env, trace)
  }

  /** All gates down to that of rank k have been passed. */
  predicate Reached(cfg: Config, env: Env, pre: Instance, k: nat, trace: Trace)
    decreases 9 - k
  {
    k <= 8 ==> Gate(cfg, env, pre, k, trace) && Reached(cfg, env, pre, k + 1, trace)
  }

  lemma ReachedGrows(cfg: Config, env: Env, pre: Instance, k: nat, trace: Trace, e: Effect)
    requires Reached(cfg, env, pre, k, trace)
    ensures Reached(cfg, env, pre, k, Then(trace, e))
    decreases 9 - k
  {
    if k <= 8 { ReachedGrows(cfg, env, pre, k + 1, trace, e); }
  }

  /** A run that turns the Runtime Ready has come past every gate. */
  predicate ReadyIsEarned(cfg: Config, env: Env, pre: Instance, trace: Trace, st: Status) {
    st.state == Ready && pre.status.state != Ready ==> Reached(cfg, env, pre, 1, trace)
  }

  predicate ProvisioningKept(pre: Instance, st: Status) {
    && (pre.status.provisioningCompleted ==> st.provisioningCompleted)
    && (st.provisioningCompleted ==> pre.status.provisioningCompleted || st.state == Ready)
  }

  // ---- the invariant of the driver loop ----

  predicate Begun(may: Effect -> bool, env: Env, pre: Instance, s: Sys) {
    && s.snapshot == pre.status
    && s.meta.dedicatedRequested == pre.meta.dedicatedRequested && s.meta.caching == pre.meta.caching
    && s.shoot == (if env.shootRead.ShootIs? then Some(env.shootRead.shoot) else None)
    && s.status.provisioningCompleted == pre.status.provisioningCompleted
    && All(may, s.trace)
  }

  predicate Serves(env: Env, pre: Instance, s: Sys) {
    && env.shootRead.ShootIs? && s.shoot == Some(env.shootRead.shoot)
    && s.meta.dedicatedRequested == pre.meta.dedicatedRequested && s.meta.caching == pre.meta.caching
  }
  predicate Sober(pre: Instance, s: Sys) {
    s.status.state == Ready ==> pre.status.state == Ready
  }

  /** The state of the loop before fn is called, in a run that started from pre. */
  predicate RunInv(may: Effect -> bool, cfg: Config, env: Env, pre: Instance, fn: StateFn, s: Sys) {
    match fn
    case TakeSnapshot => s == Begin(pre)
    case Initialize => Begun(may, env, pre, s) && Sober(pre, s) && s.meta == pre.meta && !env.shootRead.ShootReadFails?
    case CreateShoot => Begun(may, env, pre, s) && Sober(pre, s) && Creating(env, pre)
    case DeleteKubeconfig => Begun(may, env, pre, s) && Sober(pre, s) && Deleting(env, pre)
    case DeleteShoot => Begun(may, env, pre, s) && Sober(pre, s) && Deleting(env, pre) && env.cluster.NoCluster?
    case UpdateStatus(result, failed) =>
      && All(may, s.trace) && s.snapshot == pre.status
      && (result.None? && !failed ==> Settled(s.status.state))
      && ProvisioningKept(pre, s.status)
    case EmitEvent(result, failed) =>
      && s.trace.Then? && s.trace.last == StatusWritten(s.status)
      && All(may, s.trace.before)
      && (result.None? && !failed ==> Settled(s.status.state))
      && ProvisioningKept(pre, s.status)
    case CountStop => All(may, s.trace)
    case MigrateAuditLog =>
      Begun(may, env, pre, s) && Sober(pre, s) && Serving(env, pre) && Dedicated(cfg, pre)
    case CopyAuditLogCredentials => Begun(may, env, pre, s) && Serving(env, pre)
    case _ => Begun(may, env, pre, s) && Sober(pre, s) && Serving(env, pre)
  }

  function Persisted(trace: Trace): Option<Status> {
    if trace.Then? && trace.last.StatusWritten? then Some(trace.last.status) else None
  }

  /** What a run did before its status write. */
  function Work(trace: Trace): Trace {
    if Persisted(trace).Some? then trace.before else trace
  }

  /** What holds when the loop has ended. */
  predicate RunDone(may: Effect -> bool, pre: Instance, f: Final) {
    && All(may, Work(f.sys.trace))
    && (Persisted(f.sys.trace).Some? ==>
      var st := Persisted(f.sys.trace).value;
      st == f.sys.status && ProvisioningKept(pre, st) && (Quiet(f) ==> Settled(st.state)))
  }

  /** The gate a state function stands behind; 9 is before the first. */
  function GateOf(fn: StateFn): nat {
    match fn
    case CreateKymaNamespace | InitializeBootstrapper | CleanupCacheSecrets | ConfigureSkr | ApplyRoleBindings
      | MigrateAuditLog | CopyAuditLogCredentials => Rank(fn)
    case _ => 9
  }

  /** What a state function leaves behind; only the last two may make the Runtime Ready. */
  predicate StepInv(may: Effect -> bool, cfg: Config, env: Env, pre: Instance, fn: StateFn, o: Out) {
    if o.next.None? || o.failed then
      if fn.UpdateStatus? || fn.EmitEvent? then RunDone(may, pre, Finish(o)) else All(may, o.sys.trace)
    else
      && RunInv(may, cfg, env, pre, o.next.value, o.sys)
      && (o.next.value.UpdateStatus? && fn != ApplyRoleBindings && fn != CopyAuditLogCredentials ==> Sober(pre, o.sys))
      && (Rank(fn) > 9 ==> GateOf(o.next.value) == 9)
      && (o.next.value.EmitEvent? ==> fn.UpdateStatus?)
  }

  lemma SnapshotKeeps(may: Effect -> bool, cfg: Config, env: Env, pre: Instance, s: Sys)
    requires Permits(may, env, pre)
    requires RunInv(may, cfg, env, pre, TakeSnapshot, s)
    ensures StepInv(may, cfg, env, pre, TakeSnapshot, DoTakeSnapshot(env, s))
  {
  }

  lemma CleanUpKeeps(may: Effect -> bool, cfg: Config, env: Env, pre: Instance, s: Sys)
    requires Permits(may, env, pre) && Begun(may, env, pre, s) && Sober(pre, s)
    requires s.meta == pre.meta && pre.meta.deleting && env.shootRead.NoShoot?
    ensures StepInv(may, cfg, env, pre, StateFn.Initialize, CleanUp(env, s))
  {
    assert All(may, s.Did(env.deleteAllSecrets, CacheSecretsDeleted).trace);
  }

  lemma InitializeKeeps(may: Effect -> bool, cfg: Config, env: Env, pre: Instance, s: Sys)
    requires Permits(may, env, pre)
    requires RunInv(may, cfg, env, pre, StateFn.Initialize, s)
    ensures StepInv(may, cfg, env, pre, StateFn.Initialize, DoInitialize(env, s))
  {
    if s.meta.deleting && s.shoot.None? { CleanUpKeeps(may, cfg, env, pre, s); }
  }

  lemma CreateReservedKeeps(may: Effect -> bool, cfg: Config, env: Env, pre: Instance, s: Sys)
    requires Permits(may, env, pre) && Begun(may, env, pre, s) && Sober(pre, s) && Creating(env, pre)
    ensures StepInv(may, cfg, env, pre, StateFn.CreateShoot, CreateReserved(cfg, env, s))
  {
  }

  lemma CreateKeeps(may: Effect -> bool, cfg: Config, env: Env, pre: Instance, s: Sys)
    requires Permits(may, env, pre)
    requires RunInv(may, cfg, env, pre, StateFn.CreateShoot, s)
    ensures StepInv(may, cfg, env, pre, StateFn.CreateShoot, DoCreateShoot(cfg, env, s))
  {
    var s1 := if Dedicated(cfg, pre) then s.Did(env.reserve, AuditLogReserved) else s;
    CreateReservedKeeps(may, cfg, env, pre, s1);
  }

  lemma SelectKeeps(may: Effect -> bool, cfg: Config, env: Env, pre: Instance, s: Sys)
    requires Permits(may, env, pre)
    requires RunInv(may, cfg, env, pre, SelectShootProcessing, s) && s.shoot.Some?
    ensures StepInv(may, cfg, env, pre, SelectShootProcessing, DoSelectShootProcessing(s))
  {
  }

  lemma WaitCreationKeeps(may: Effect -> bool, cfg: Config, env: Env, pre: Instance, s: Sys)
    requires Permits(may, env, pre)
    requires RunInv(may, cfg, env, pre, WaitForShootCreation, s) && CanRun(WaitForShootCreation, s)
    ensures StepInv(may, cfg, env, pre, WaitForShootCreation, DoWaitForShootCreation(env, s))
  {
  }

  lemma WaitReconcileKeeps(may: Effect -> bool, cfg: Config, env: Env, pre: Instance, s: Sys)
    requires Permits(may, env, pre)
    requires RunInv(may, cfg, env, pre, WaitForShootReconcile, s) && CanRun(WaitForShootReconcile, s)
    ensures StepInv(may, cfg, env, pre, WaitForShootReconcile, DoWaitForShootReconcile(env, s))
  {
  }

  lemma SyncKeeps(may: Effect -> bool, cfg: Config, env: Env, pre: Instance, s: Sys)
    requires Permits(may, env, pre)
    requires RunInv(may, cfg, env, pre, SyncCacheSecrets, s) && s.shoot.Some?
    ensures StepInv(may, cfg, env, pre, SyncCacheSecrets, DoSyncCacheSecrets(cfg, env, s))
  {
  }

  predicate FlowInv(may: Effect -> bool, cfg: Config, env: Env, pre: Instance, f: Flow) {
    match f
    case Continue(s) => Begun(may, env, pre, s) && Sober(pre, s)
    case Leave(o) => StepInv(may, cfg, env, pre, PatchExistingShoot, o)
  }

  lemma ResolveKeeps(may: Effect -> bool, cfg: Config, env: Env, pre: Instance, s: Sys)
    requires may(AuditLogClaimed) && Begun(may, env, pre, s) && Sober(pre, s)
    ensures FlowInv(may, cfg, env, pre, ResolveAuditLogData(cfg, env, s))
  {
  }

  lemma PrepareKeeps(may: Effect -> bool, cfg: Config, env: Env, pre: Instance, s: Sys)
    requires Begun(may, env, pre, s) && Sober(pre, s)
    ensures FlowInv(may, cfg, env, pre, PreparePatch(cfg, env, s))
  {
  }

  lemma WriteKeeps(may: Effect -> bool, cfg: Config, env: Env, pre: Instance, needed: bool, w: ShootWrite, e: Effect, f: Flow)
    requires may(e) && FlowInv(may, cfg, env, pre, f)
    ensures FlowInv(may, cfg, env, pre, WriteShoot(needed, w, e, env, f))
  {
  }

  lemma DropKeeps(may: Effect -> bool, cfg: Config, env: Env, pre: Instance, s: Sys)
    requires may(ForceAnnotationDropped) && Begun(may, env, pre, s) && Sober(pre, s)
    ensures FlowInv(may, cfg, env, pre, DropForceAnnotation(env, s))
  {
  }

  lemma WritePatchKeeps(may: Effect -> bool, cfg: Config, env: Env, pre: Instance, s: Sys)
    requires may(ShootUpdated) && may(ShootPatched) && Begun(may, env, pre, s) && Sober(pre, s)
    ensures FlowInv(may, cfg, env, pre, WritePatch(cfg, env, s))
  {
    var prepared := PreparePatch(cfg, env, s);
    PrepareKeeps(may, cfg, env, pre, s);
    var changed := env.workersChanged || env.cacheCount.CacheCountChanged?;
    var updated := WriteShoot(changed, env.updateShoot, ShootUpdated, env, prepared);
    WriteKeeps(may, cfg, env, pre, changed, env.updateShoot, ShootUpdated, prepared);
    var bound := WriteShoot(env.bindingChanged, env.updateBinding, ShootUpdated, env, updated);
    WriteKeeps(may, cfg, env, pre, env.bindingChanged, env.updateBinding, ShootUpdated, updated);
    WriteKeeps(may, cfg, env, pre, true, env.patchShoot, ShootPatched, bound);
  }

  lemma PatchKeeps(may: Effect -> bool, cfg: Config, env: Env, pre: Instance, s: Sys)
    requires Permits(may, env, pre)
    requires RunInv(may, cfg, env, pre, PatchExistingShoot, s) && s.shoot.Some?
    ensures StepInv(may, cfg, env, pre, PatchExistingShoot, DoPatchExistingShoot(cfg, env, s))
  {
    var resolved := ResolveAuditLogData(cfg, env, s);
    ResolveKeeps(may, cfg, env, pre, s);
    if resolved.Continue? {
      var patched := WritePatch(cfg, env, resolved.sys);
      WritePatchKeeps(may, cfg, env, pre, resolved.sys);
      if patched.Continue? { DropKeeps(may, cfg, env, pre, patched.sys); }
    }
  }

  lemma KubeconfigKeeps(may: Effect -> bool, cfg: Config, env: Env, pre: Instance, s: Sys)
    requires Permits(may, env, pre)
    requires RunInv(may, cfg, env, pre, HandleKubeconfig, s) && s.shoot.Some?
    ensures StepInv(may, cfg, env, pre, HandleKubeconfig, DoHandleKubeconfig(env, s))
  {
  }

  lemma NamespaceKeeps(may: Effect -> bool, cfg: Config, env: Env, pre: Instance, s: Sys)
    requires Permits(may, env, pre)
    requires RunInv(may, cfg, env, pre, CreateKymaNamespace, s) && s.shoot.Some?
    ensures StepInv(may, cfg, env, pre, CreateKymaNamespace, DoCreateKymaNamespace(env, s))
  {
  }

  lemma BootstrapperKeeps(may: Effect -> bool, cfg: Config, env: Env, pre: Instance, s: Sys)
    requires Permits(may, env, pre)
    requires RunInv(may, cfg, env, pre, InitializeBootstrapper, s) && s.shoot.Some?
    ensures StepInv(may, cfg, env, pre, InitializeBootstrapper, DoInitializeBootstrapper(cfg, env, s))
  {
  }

  lemma CleanupKeeps(may: Effect -> bool, cfg: Config, env: Env, pre: Instance, s: Sys)
    requires Permits(may, env, pre)
    requires RunInv(may, cfg, env, pre, CleanupCacheSecrets, s) && s.shoot.Some?
    ensures StepInv(may, cfg, env, pre, CleanupCacheSecrets, DoCleanupCacheSecrets(cfg, env, s))
  {
  }

  lemma ConfigureKeeps(may: Effect -> bool, cfg: Config, env: Env, pre: Instance, s: Sys)
    requires Permits(may, env, pre)
    requires RunInv(may, cfg, env, pre, ConfigureSkr, s) && s.shoot.Some?
    ensures StepInv(may, cfg, env, pre, ConfigureSkr, DoConfigureSkr(env, s))
  {
  }

  lemma BindingsKeeps(may: Effect -> bool, cfg: Config, env: Env, pre: Instance, s: Sys)
    requires Permits(may, env, pre)
    requires RunInv(may, cfg, env, pre, ApplyRoleBindings, s) && s.shoot.Some?
    ensures StepInv(may, cfg, env, pre, ApplyRoleBindings, DoApplyRoleBindings(cfg, env, s))
  {
  }

  lemma MigrateKeeps(may: Effect -> bool, cfg: Config, env: Env, pre: Instance, s: Sys)
    requires Permits(may, env, pre)
    requires RunInv(may, cfg, env, pre, MigrateAuditLog, s) && s.shoot.Some?
    ensures StepInv(may, cfg, env, pre, MigrateAuditLog, DoMigrateAuditLog(cfg, env, s))
  {
  }

  lemma CopyKeeps(may: Effect -> bool, cfg: Config, env: Env, pre: Instance, s: Sys)
    requires Permits(may, env, pre)
    requires RunInv(may, cfg, env, pre, CopyAuditLogCredentials, s) && s.shoot.Some?
    ensures StepInv(may, cfg, env, pre, CopyAuditLogCredentials, DoCopyAuditLogCredentials(env, s))
  {
  }

  lemma DeleteKubeconfigKeeps(may: Effect -> bool, cfg: Config, env: Env, pre: Instance, s: Sys)
    requires Permits(may, env, pre)
    requires RunInv(may, cfg, env, pre, DeleteKubeconfig, s) && s.shoot.Some?
    ensures StepInv(may, cfg, env, pre, DeleteKubeconfig, DoDeleteKubeconfig(env, s))
  {
  }

  lemma DeleteConfirmedKeeps(may: Effect -> bool, cfg: Config, env: Env, pre: Instance, s: Sys)
    requires may(ShootDeleted) && Begun(may, env, pre, s) && Sober(pre, s)
    ensures StepInv(may, cfg, env, pre, StateFn.DeleteShoot, DeleteConfirmed(env, s))
  {
  }

  lemma DeleteShootKeeps(may: Effect -> bool, cfg: Config, env: Env, pre: Instance, s: Sys)
    requires Permits(may, env, pre)
    requires RunInv(may, cfg, env, pre, StateFn.DeleteShoot, s) && s.shoot.Some?
    ensures StepInv(may, cfg, env, pre, StateFn.DeleteShoot, DoDeleteShoot(cfg, env, s))
  {
    var s1 := if Dedicated(cfg, pre) then s.Did(env.release, AuditLogReleased) else s;
    var s2 := if s.shoot.value.deletionConfirmed then s1 else s1.Did(env.confirmDeletion, DeletionConfirmed);
    DeleteConfirmedKeeps(may, cfg, env, pre, s2);
  }

  lemma UpdateStatusKeeps(may: Effect -> bool, cfg: Config, env: Env, pre: Instance, s: Sys, result: Option<Requeue>, failed: bool)
    requires ForbidsStatus(may)
    requires RunInv(may, cfg, env, pre, UpdateStatus(result, failed), s)
    ensures StepInv(may, cfg, env, pre, UpdateStatus(result, failed), DoUpdateStatus(env, s, result, failed))
  {
  }

  predicate Earning(cfg: Config, env: Env, pre: Instance, fn: StateFn, s: Sys) {
    if fn.UpdateStatus? then ReadyIsEarned(cfg, env, pre, s.trace, s.status)
    else Reached(cfg, env, pre, GateOf(fn), s.trace)
  }

  predicate StepEarns(cfg: Config, env: Env, pre: Instance, o: Out) {
    o.next.Some? ==> Earning(cfg, env, pre, o.next.value, o.sys)
  }

  lemma KubeconfigReaches(cfg: Config, env: Env, pre: Instance, s: Sys)
    requires s.shoot.Some? && Reached(cfg, env, pre, Rank(HandleKubeconfig), s.trace)
    ensures StepEarns(cfg, env, pre, DoHandleKubeconfig(env, s))
  {
  }

  lemma NamespaceReaches(cfg: Config, env: Env, pre: Instance, s: Sys)
    requires s.shoot.Some? && Reached(cfg, env, pre, Rank(CreateKymaNamespace), s.trace)
    ensures StepEarns(cfg, env, pre, DoCreateKymaNamespace(env, s))
  {
    ReachedGrows(cfg, env, pre, 8, s.trace, NamespaceEnsured);
  }

  lemma BootstrapperReaches(cfg: Config, env: Env, pre: Instance, s: Sys)
    requires s.shoot.Some? && Reached(cfg, env, pre, Rank(InitializeBootstrapper), s.trace)
    ensures StepEarns(cfg, env, pre, DoInitializeBootstrapper(cfg, env, s))
  {
  }

  lemma CleanupReaches(cfg: Config, env: Env, pre: Instance, s: Sys)
    requires Serves(env, pre, s) && Reached(cfg, env, pre, Rank(CleanupCacheSecrets), s.trace)
    ensures StepEarns(cfg, env, pre, DoCleanupCacheSecrets(cfg, env, s))
  {
    ReachedGrows(cfg, env, pre, 6, s.trace, CacheSecretsCleaned);
  }

  lemma ConfigureReaches(cfg: Config, env: Env, pre: Instance, s: Sys)
    requires s.shoot.Some? && Reached(cfg, env, pre, Rank(ConfigureSkr), s.trace)
    ensures StepEarns(cfg, env, pre, DoConfigureSkr(env, s))
  {
    ReachedGrows(cfg, env, pre, 5, s.trace, ProvisioningInfoApplied);
    if s.shoot.value.oidcEnabled { ReachedGrows(cfg, env, pre, 5, Then(s.trace, ProvisioningInfoApplied), OidcApplied); }
  }

  lemma BindingsReaches(cfg: Config, env: Env, pre: Instance, s: Sys)
    requires Serves(env, pre, s) && Reached(cfg, env, pre, Rank(ApplyRoleBindings), s.trace)
    ensures StepEarns(cfg, env, pre, DoApplyRoleBindings(cfg, env, s))
  {
    ReachedGrows(cfg, env, pre, 4, s.trace, RoleBindingsApplied);
  }

  lemma MigrateReaches(cfg: Config, env: Env, pre: Instance, s: Sys)
    requires Serves(env, pre, s) && Reached(cfg, env, pre, Rank(MigrateAuditLog), s.trace)
    requires Dedicated(cfg, pre)
    ensures StepEarns(cfg, env, pre, DoMigrateAuditLog(cfg, env, s))
  {
    ReachedGrows(cfg, env, pre, 3, s.trace, AuditLogClaimed);
  }

  lemma CopyReaches(cfg: Config, env: Env, pre: Instance, s: Sys)
    requires s.shoot.Some? && Reached(cfg, env, pre, Rank(CopyAuditLogCredentials), s.trace)
    ensures StepEarns(cfg, env, pre, DoCopyAuditLogCredentials(env, s))
  {
    ReachedGrows(cfg, env, pre, 2, s.trace, CredentialsCopiedToSkr);
  }


  /** Before the first gate nothing has to be earned. */
  lemma OthersReach(may: Effect -> bool, cfg: Config, env: Env, pre: Instance, fn: StateFn, o: Out)
    requires StepInv(may, cfg, env, pre, fn, o) && o.next.Some? && !o.failed
    requires Rank(fn) > 9
    ensures StepEarns(cfg, env, pre, o)
  {
  }

  lemma EntryStepKeeps(may: Effect -> bool, cfg: Config, env: Env, pre: Instance, fn: StateFn, s: Sys)
    requires Permits(may, env, pre)
    requires CanRun(fn, s) && RunInv(may, cfg, env, pre, fn, s) && Rank(fn) > 11
    ensures StepInv(may, cfg, env, pre, fn, Step(cfg, env, fn, s))
  {
    match fn
    case TakeSnapshot => SnapshotKeeps(may, cfg, env, pre, s);
    case Initialize => InitializeKeeps(may, cfg, env, pre, s);
    case CreateShoot => CreateKeeps(may, cfg, env, pre, s);
    case SelectShootProcessing => SelectKeeps(may, cfg, env, pre, s);
    case DeleteKubeconfig => DeleteKubeconfigKeeps(may, cfg, env, pre, s);
  }

  lemma ShootStepKeeps(may: Effect -> bool, cfg: Config, env: Env, pre: Instance, fn: StateFn, s: Sys)
    requires Permits(may, env, pre)
    requires CanRun(fn, s) && RunInv(may, cfg, env, pre, fn, s) && 9 < Rank(fn) <= 11
    ensures StepInv(may, cfg, env, pre, fn, Step(cfg, env, fn, s))
  {
    match fn
    case SyncCacheSecrets => SyncKeeps(may, cfg, env, pre, s);
    case PatchExistingShoot => PatchKeeps(may, cfg, env, pre, s);
    case WaitForShootCreation => WaitCreationKeeps(may, cfg, env, pre, s);
    case WaitForShootReconcile => WaitReconcileKeeps(may, cfg, env, pre, s);
    case DeleteShoot => DeleteShootKeeps(may, cfg, env, pre, s);
  }

  lemma SkrStepKeeps(may: Effect -> bool, cfg: Config, env: Env, pre: Instance, fn: StateFn, s: Sys)
    requires Permits(may, env, pre)
    requires CanRun(fn, s) && RunInv(may, cfg, env, pre, fn, s) && 4 < Rank(fn) <= 9
    ensures StepInv(may, cfg, env, pre, fn, Step(cfg, env, fn, s))
  {
    match fn
    case HandleKubeconfig => KubeconfigKeeps(may, cfg, env, pre, s);
    case CreateKymaNamespace => NamespaceKeeps(may, cfg, env, pre, s);
    case InitializeBootstrapper => BootstrapperKeeps(may, cfg, env, pre, s);
    case CleanupCacheSecrets => CleanupKeeps(may, cfg, env, pre, s);
    case ConfigureSkr => ConfigureKeeps(may, cfg, env, pre, s);
  }

  lemma LateStepKeeps(may: Effect -> bool, cfg: Config, env: Env, pre: Instance, fn: StateFn, s: Sys)
    requires Permits(may, env, pre) && ForbidsStatus(may)
    requires CanRun(fn, s) && RunInv(may, cfg, env, pre, fn, s) && Rank(fn) <= 4
    ensures StepInv(may, cfg, env, pre, fn, Step(cfg, env, fn, s))
  {
    match fn
    case ApplyRoleBindings => BindingsKeeps(may, cfg, env, pre, s);
    case MigrateAuditLog => MigrateKeeps(may, cfg, env, pre, s);
    case CopyAuditLogCredentials => CopyKeeps(may, cfg, env, pre, s);
    case UpdateStatus(result, failed) => UpdateStatusKeeps(may, cfg, env, pre, s, result, failed);
    case EmitEvent(_, _) =>
    case CountStop =>
  }

  lemma StepKeeps(may: Effect -> bool, cfg: Config, env: Env, pre: Instance, fn: StateFn, s: Sys, o: Out)
    requires Permits(may, env, pre) && ForbidsStatus(may)
    requires CanRun(fn, s) && RunInv(may, cfg, env, pre, fn, s) && o == Step(cfg, env, fn, s)
    ensures StepInv(may, cfg, env, pre, fn, o)
  {
    if Rank(fn) > 11 { EntryStepKeeps(may, cfg, env, pre, fn, s); }
    else if Rank(fn) > 9 { ShootStepKeeps(may, cfg, env, pre, fn, s); }
    else if Rank(fn) > 4 { SkrStepKeeps(may, cfg, env, pre, fn, s); }
    else { LateStepKeeps(may, cfg, env, pre, fn, s); }
  }

  /** The first two turns of a run on an existing shoot. */
  lemma ReachesChoice(cfg: Config, env: Env, pre: Instance)
    requires Live(pre) && env.shootRead.ShootIs?
    ensures var s := Sys(pre.meta, pre.status, pre.status, Some(env.shootRead.shoot), Start);
      Run(cfg, env, pre, None) == Drive(cfg, env, SelectShootProcessing, ExposeShoot(s), None)
  {
    var s := Sys(pre.meta, pre.status, pre.status, Some(env.shootRead.shoot), Start);
    assert DoTakeSnapshot(env, Begin(pre)) == Switch(s, Initialize);
    assert DoInitialize(env, s) == Switch(ExposeShoot(s), SelectShootProcessing);
  }
}
