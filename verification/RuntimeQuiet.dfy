/** Exactly when a live Runtime that is still Pending is left without anything to wake it up. */
module RuntimeQuiet {
  import opened Wrappers
  import opened AuditLogTypes
  import opened RuntimeTypes
  import opened RuntimeFsm
  import opened RuntimeRun

  predicate InProgress(st: RuntimeState) {
    st == Pending || st == Unset
  }

  /** The shoot has nothing to patch, and its last operation is one that no state waits for. */
  predicate Stuck(env: Env, pre: Instance) {
    && env.shootRead.ShootIs? && env.shootRead.shoot.domainSet && env.shootRead.shoot.lastOperation.Some?
    && ShouldPatchShoot(pre.meta, env.shootRead.shoot) == NoPatch
    && var op := env.shootRead.shoot.lastOperation.value;
      (op.kind != Create && op.kind != Reconcile) || op.state == Other_
  }

  predicate Loud(f: Final) {
    !Quiet(f) || Settled(f.sys.status.state)
  }

  predicate Working(fn: StateFn) {
    match fn
    case CreateShoot | SyncCacheSecrets | PatchExistingShoot | HandleKubeconfig | CreateKymaNamespace | InitializeBootstrapper
      | CleanupCacheSecrets | ConfigureSkr | ApplyRoleBindings | MigrateAuditLog | CopyAuditLogCredentials
      | UpdateStatus(_, _) | EmitEvent(_, _) => true
    case _ => false
  }

  predicate StaysLoud(o: Out) {
    if o.next.Some? && !o.failed then Working(o.next.value) else o.result.Some? || o.failed
  }

  lemma LateWorkIsLoud(cfg: Config, env: Env, fn: StateFn, s: Sys)
    requires CanRun(fn, s) && Working(fn) && 1 < Rank(fn) <= 6
    ensures StaysLoud(Step(cfg, env, fn, s))
  {
  }

  lemma CreationIsLoud(cfg: Config, env: Env, s: Sys)
    ensures StaysLoud(DoCreateShoot(cfg, env, s))
  {
  }

  lemma SkrWorkIsLoud(cfg: Config, env: Env, fn: StateFn, s: Sys)
    requires CanRun(fn, s) && Working(fn) && 6 < Rank(fn) <= 9
    ensures StaysLoud(Step(cfg, env, fn, s))
  {
  }

  /** A working state function never stops silently, except through the status write. */
  lemma WorkIsLoud(cfg: Config, env: Env, fn: StateFn, s: Sys)
    requires CanRun(fn, s) && Working(fn) && Rank(fn) > 1
    ensures StaysLoud(Step(cfg, env, fn, s))
  {
    if Rank(fn) <= 6 { LateWorkIsLoud(cfg, env, fn, s); } else if Rank(fn) <= 9 { SkrWorkIsLoud(cfg, env, fn, s); } else if fn == StateFn.CreateShoot { CreationIsLoud(cfg, env, s); }
  }

  /** Before that a run is still deciding what to do, with what it started from. */
  predicate Choosing(env: Env, pre: Instance, fn: StateFn, s: Sys) {
    && (fn == TakeSnapshot || fn == Initialize || fn == SelectShootProcessing || fn == WaitForShootCreation || fn == WaitForShootReconcile)
    && s.meta == pre.meta && InProgress(s.status.state)
    && s.shoot == (if fn != TakeSnapshot && env.shootRead.ShootIs? then Some(env.shootRead.shoot) else None)
    && (fn == WaitForShootCreation || fn == WaitForShootReconcile ==>
          env.shootRead.ShootIs? && env.shootRead.shoot.lastOperation.Some? && env.shootRead.shoot.lastOperation.value.state != Other_)
  }

  lemma ChoiceIsLoud(cfg: Config, env: Env, pre: Instance, fn: StateFn, s: Sys)
    requires CanRun(fn, s) && Choosing(env, pre, fn, s) && Live(pre) && !Stuck(env, pre)
    ensures var o := Step(cfg, env, fn, s);
      if o.next.Some? && !o.failed then Working(o.next.value) || Choosing(env, pre, o.next.value, o.sys) else o.result.Some? || o.failed
  {
  }

  predicate LoudInv(may: Effect -> bool, cfg: Config, env: Env, pre: Instance, fn: StateFn, s: Sys) {
    RunInv(may, cfg, env, pre, fn, s) && (Working(fn) || Choosing(env, pre, fn, s))
  }

  lemma LeavingIsLoud(may: Effect -> bool, cfg: Config, env: Env, pre: Instance, fn: StateFn, s: Sys, o: Out)
    requires LoudInv(may, cfg, env, pre, fn, s) && Rank(fn) <= 1
    requires o == Step(cfg, env, fn, s) && StepInv(may, cfg, env, pre, fn, o)
    ensures KeepsOrEnds((fn, s) => LoudInv(may, cfg, env, pre, fn, s), f => Loud(f), s, o)
  {
  }

  lemma TurnIsLoud(may: Effect -> bool, cfg: Config, env: Env, pre: Instance, fn: StateFn, s: Sys)
    requires Permits(may, env, pre) && ForbidsStatus(may) && Live(pre) && !Stuck(env, pre)
    ensures TurnKeeps((fn, s) => LoudInv(may, cfg, env, pre, fn, s), f => Loud(f), cfg, env, fn, s)
  {
    if CanRun(fn, s) && LoudInv(may, cfg, env, pre, fn, s) {
      var o := Step(cfg, env, fn, s);
      StepKeeps(may, cfg, env, pre, fn, s, o);
      if Rank(fn) <= 1 { LeavingIsLoud(may, cfg, env, pre, fn, s, o); }
      else if Working(fn) { WorkIsLoud(cfg, env, fn, s); }
      else { ChoiceIsLoud(cfg, env, pre, fn, s); }
    }
  }

  lemma NotStuckIsLoud(cfg: Config, env: Env, pre: Instance, patience: Patience)
    requires Live(pre) && InProgress(pre.status.state) && !Stuck(env, pre)
    ensures Loud(Run(cfg, env, pre, patience))
  {
    var may := e => Justified(env, pre, e);
    JustifiedPermits(env, pre);
    var inv := (fn, s) => LoudInv(may, cfg, env, pre, fn, s);
    var done := f => Loud(f);
    forall fn, s ensures TurnKeeps(inv, done, cfg, env, fn, s) {
      TurnIsLoud(may, cfg, env, pre, fn, s);
    }
    DriveInduction(inv, done, cfg, env, TakeSnapshot, Begin(pre), patience);
  }

  lemma StuckWhileWaiting(cfg: Config, env: Env, fn: StateFn, s: Sys)
    requires (fn == WaitForShootCreation || fn == WaitForShootReconcile) && CanRun(fn, s)
    requires s.shoot.value.lastOperation.value.state == Other_
    ensures Drive(cfg, env, fn, s, None) == Final(None, false, s)
  {
    DriveTurn(cfg, env, fn, s, None, Switch(s, CountStop));
    DriveTurn(cfg, env, CountStop, s, None, Stop(s));
  }

  lemma StuckAtChoice(cfg: Config, env: Env, pre: Instance, s: Sys)
    requires Stuck(env, pre) && s.meta == pre.meta && s.shoot == Some(env.shootRead.shoot) && InProgress(s.status.state)
    ensures Drive(cfg, env, SelectShootProcessing, s, None) == Final(None, false, s)
  {
    var o := DoSelectShootProcessing(s);
    DriveTurn(cfg, env, SelectShootProcessing, s, None, o);
    if o.next.Some? { StuckWhileWaiting(cfg, env, o.next.value, s); }
  }

  lemma StuckIsQuiet(cfg: Config, env: Env, pre: Instance)
    requires Live(pre) && InProgress(pre.status.state) && Stuck(env, pre)
    ensures !Loud(Run(cfg, env, pre, None))
  {
    ReachesChoice(cfg, env, pre);
    StuckAtChoice(cfg, env, pre, ExposeShoot(Sys(pre.meta, pre.status, pre.status, Some(env.shootRead.shoot), Start)));
  }

  /**
   An uncancelled run leaves a live Runtime in progress with neither a requeue nor an error
   exactly when it is stuck.
   */
  lemma QuietExit(cfg: Config, env: Env, pre: Instance)
    requires Live(pre) && InProgress(pre.status.state)
    ensures var f := Run(cfg, env, pre, None);
      Quiet(f) && !Settled(f.sys.status.state) <==> Stuck(env, pre)
  {
    if Stuck(env, pre) { StuckIsQuiet(cfg, env, pre); } else { NotStuckIsLoud(cfg, env, pre, None); }
  }
}
