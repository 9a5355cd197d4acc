/** What holds of every run, whatever the API answers and whenever it is cancelled. */
module RuntimeSafety {
  import opened Wrappers
  import opened AuditLogTypes
  import opened RuntimeTypes
  import opened RuntimeFsm
  import opened RuntimeRun

  lemma StepDone(may: Effect -> bool, cfg: Config, env: Env, pre: Instance, fn: StateFn, s: Sys, o: Out)
    requires ForbidsStatus(may) && RunInv(may, cfg, env, pre, fn, s) && StepInv(may, cfg, env, pre, fn, o)
    ensures KeepsOrEnds((fn, s) => RunInv(may, cfg, env, pre, fn, s), f => RunDone(may, pre, f), s, o)
  {
  }

  lemma TurnDone(may: Effect -> bool, cfg: Config, env: Env, pre: Instance, fn: StateFn, s: Sys)
    requires Permits(may, env, pre) && ForbidsStatus(may)
    ensures TurnKeeps((fn, s) => RunInv(may, cfg, env, pre, fn, s), f => RunDone(may, pre, f), cfg, env, fn, s)
  {
    if CanRun(fn, s) && RunInv(may, cfg, env, pre, fn, s) {
      var o := Step(cfg, env, fn, s);
      StepKeeps(may, cfg, env, pre, fn, s, o);
      StepDone(may, cfg, env, pre, fn, s, o);
    }
  }

  lemma RunKeeps(may: Effect -> bool, cfg: Config, env: Env, pre: Instance, patience: Patience)
    requires Permits(may, env, pre) && ForbidsStatus(may)
    ensures RunDone(may, pre, Run(cfg, env, pre, patience))
  {
    var inv := (fn, s) => RunInv(may, cfg, env, pre, fn, s);
    var done := f => RunDone(may, pre, f);
    forall fn, s ensures TurnKeeps(inv, done, cfg, env, fn, s) {
      TurnDone(may, cfg, env, pre, fn, s);
    }
    DriveInduction(inv, done, cfg, env, TakeSnapshot, Begin(pre), patience);
  }

  // ---- Ready is earned ----

  predicate EarnInv(may: Effect -> bool, cfg: Config, env: Env, pre: Instance, fn: StateFn, s: Sys) {
    && RunInv(may, cfg, env, pre, fn, s)
    && if fn.EmitEvent? then s.trace.Then? && ReadyIsEarned(cfg, env, pre, s.trace.before, s.status)
       else Earning(cfg, env, pre, fn, s)
  }

  predicate RunEarns(cfg: Config, env: Env, pre: Instance, f: Final) {
    Persisted(f.sys.trace).Some? ==> ReadyIsEarned(cfg, env, pre, Work(f.sys.trace), Persisted(f.sys.trace).value)
  }

  lemma GateEarns(cfg: Config, env: Env, pre: Instance, fn: StateFn, s: Sys)
    requires CanRun(fn, s) && Serves(env, pre, s) && Reached(cfg, env, pre, Rank(fn), s.trace)
    requires 2 <= Rank(fn) <= 9
    requires fn == MigrateAuditLog ==> Dedicated(cfg, pre)
    ensures StepEarns(cfg, env, pre, Step(cfg, env, fn, s))
  {
    match fn
    case HandleKubeconfig => KubeconfigReaches(cfg, env, pre, s);
    case CreateKymaNamespace => NamespaceReaches(cfg, env, pre, s);
    case InitializeBootstrapper => BootstrapperReaches(cfg, env, pre, s);
    case CleanupCacheSecrets => CleanupReaches(cfg, env, pre, s);
    case ConfigureSkr => ConfigureReaches(cfg, env, pre, s);
    case ApplyRoleBindings => BindingsReaches(cfg, env, pre, s);
    case MigrateAuditLog => MigrateReaches(cfg, env, pre, s);
    case CopyAuditLogCredentials => CopyReaches(cfg, env, pre, s);
  }

  lemma LeavingEarns(may: Effect -> bool, cfg: Config, env: Env, pre: Instance, fn: StateFn, s: Sys, o: Out)
    requires ForbidsStatus(may) && EarnInv(may, cfg, env, pre, fn, s) && Rank(fn) <= 1
    requires o == Step(cfg, env, fn, s) && StepInv(may, cfg, env, pre, fn, o)
    ensures KeepsOrEnds((fn, s) => EarnInv(may, cfg, env, pre, fn, s), f => RunEarns(cfg, env, pre, f), s, o)
  {
  }

  lemma EarlierEarns(may: Effect -> bool, cfg: Config, env: Env, pre: Instance, fn: StateFn, s: Sys, o: Out)
    requires ForbidsStatus(may) && RunInv(may, cfg, env, pre, fn, s) && Rank(fn) > 1
    requires StepInv(may, cfg, env, pre, fn, o) && (StepEarns(cfg, env, pre, o) || o.failed)
    ensures KeepsOrEnds((fn, s) => EarnInv(may, cfg, env, pre, fn, s), f => RunEarns(cfg, env, pre, f), s, o)
  {
  }

  lemma StepEarnsToo(may: Effect -> bool, cfg: Config, env: Env, pre: Instance, fn: StateFn, s: Sys, o: Out)
    requires CanRun(fn, s) && EarnInv(may, cfg, env, pre, fn, s) && Rank(fn) > 1
    requires o == Step(cfg, env, fn, s) && StepInv(may, cfg, env, pre, fn, o)
    ensures StepEarns(cfg, env, pre, o) || o.failed
  {
    if Rank(fn) <= 9 { GateEarns(cfg, env, pre, fn, s); }
    else if o.next.Some? && !o.failed { OthersReach(may, cfg, env, pre, fn, o); }
  }

  lemma TurnEarns(may: Effect -> bool, cfg: Config, env: Env, pre: Instance, fn: StateFn, s: Sys)
    requires Permits(may, env, pre) && ForbidsStatus(may)
    ensures TurnKeeps((fn, s) => EarnInv(may, cfg, env, pre, fn, s), f => RunEarns(cfg, env, pre, f), cfg, env, fn, s)
  {
    if CanRun(fn, s) && EarnInv(may, cfg, env, pre, fn, s) {
      var o := Step(cfg, env, fn, s);
      StepKeeps(may, cfg, env, pre, fn, s, o);
      if Rank(fn) <= 1 { LeavingEarns(may, cfg, env, pre, fn, s, o); }
      else {
        StepEarnsToo(may, cfg, env, pre, fn, s, o);
        EarlierEarns(may, cfg, env, pre, fn, s, o);
      }
    }
  }

  lemma RunEarnsReady(cfg: Config, env: Env, pre: Instance, patience: Patience)
    ensures RunEarns(cfg, env, pre, Run(cfg, env, pre, patience))
  {
    var may := e => Justified(env, pre, e);
    JustifiedPermits(env, pre);
    var inv := (fn, s) => EarnInv(may, cfg, env, pre, fn, s);
    var done := f => RunEarns(cfg, env, pre, f);
    forall fn, s ensures TurnKeeps(inv, done, cfg, env, fn, s) {
      TurnEarns(may, cfg, env, pre, fn, s);
    }
    DriveInduction(inv, done, cfg, env, TakeSnapshot, Begin(pre), patience);
  }

  // ---- the theorems about one run ----

  lemma {:induction false} AllWeaken(p: Effect -> bool, q: Effect -> bool, trace: Trace)
    requires All(p, trace) && forall e :: p(e) ==> q(e)
    ensures All(q, trace)
  {
    if trace.Then? { AllWeaken(p, q, trace.before); }
  }

  /**
   A run writes the status at most once, as its last effect, and does nothing else that the
   state it started from and the answers it got do not justify.
   */
  lemma EffectsAreJustified(cfg: Config, env: Env, pre: Instance, patience: Patience)
    ensures All(e => Justified(env, pre, e), Work(Run(cfg, env, pre, patience).sys.trace))
    ensures All((e: Effect) => !e.StatusWritten?, Work(Run(cfg, env, pre, patience).sys.trace))
  {
    var may := e => Justified(env, pre, e);
    JustifiedPermits(env, pre);
    RunKeeps(may, cfg, env, pre, patience);
    AllWeaken(may, (e: Effect) => !e.StatusWritten?, Work(Run(cfg, env, pre, patience).sys.trace));
  }

  /** A run that persisted a status and asks for nothing more has left the Runtime Ready or Failed. */
  lemma NoLostWakeUp(cfg: Config, env: Env, pre: Instance, patience: Patience)
    ensures var f := Run(cfg, env, pre, patience);
      Persisted(f.sys.trace).Some? && Quiet(f) ==> Settled(Persisted(f.sys.trace).value.state)
  {
    JustifiedPermits(env, pre);
    RunKeeps(e => Justified(env, pre, e), cfg, env, pre, patience);
  }

  /** Provisioning, once completed, stays completed, and completes only together with Ready. */
  lemma ProvisioningCompletesWithReady(cfg: Config, env: Env, pre: Instance, patience: Patience)
    ensures var f := Run(cfg, env, pre, patience);
      Persisted(f.sys.trace).Some? ==> ProvisioningKept(pre, Persisted(f.sys.trace).value)
  {
    JustifiedPermits(env, pre);
    RunKeeps(e => Justified(env, pre, e), cfg, env, pre, patience);
  }

  lemma AllGates(cfg: Config, env: Env, pre: Instance, trace: Trace)
    requires Reached(cfg, env, pre, 1, trace)
    ensures ClusterReady(env) && NamespaceReady(env, trace) && BootstrapperPassed(cfg, env) && CachePassed(cfg, env, pre, trace)
    ensures InfoApplied(env, trace) && BindingsApplied(env, trace)
    ensures Dedicated(cfg, pre) ==> AuditLogEqual(env) && CopiedToSkr(env, trace)
  {
    assert Reached(cfg, env, pre, 3, trace);
    assert Reached(cfg, env, pre, 5, trace);
    assert Reached(cfg, env, pre, 7, trace);
  }

  /** Whoever becomes Ready has, in that very run, come past every gate. */
  lemma ReadyIsEarnedInTheRun(cfg: Config, env: Env, pre: Instance, patience: Patience)
    requires var trace := Run(cfg, env, pre, patience).sys.trace;
      Persisted(trace).Some? && Persisted(trace).value.state == Ready && pre.status.state != Ready
    ensures var work := Work(Run(cfg, env, pre, patience).sys.trace);
      && ClusterReady(env) && NamespaceReady(env, work) && BootstrapperPassed(cfg, env) && CachePassed(cfg, env, pre, work)
      && InfoApplied(env, work) && BindingsApplied(env, work)
      && (Dedicated(cfg, pre) ==> AuditLogEqual(env) && CopiedToSkr(env, work))
  {
    RunEarnsReady(cfg, env, pre, patience);
    AllGates(cfg, env, pre, Work(Run(cfg, env, pre, patience).sys.trace));
  }

  /**
   The state that migrates a dedicated audit log is entered from the role bindings only, with
   the feature on and requested: its own exits for a disabled or unrequested feature are dead.
   */
  lemma MigrationIsGuarded(cfg: Config, env: Env, fn: StateFn, s: Sys)
    requires CanRun(fn, s) && Step(cfg, env, fn, s).next == Some(MigrateAuditLog)
    ensures fn == ApplyRoleBindings
    ensures cfg.dedicatedAuditLogging && Step(cfg, env, fn, s).sys.meta.dedicatedRequested
  {
  }
}
