/**
 Whether the dedicated audit log ever gets into the shoot.  It does unless the shoot has an
 audit-log extension whose configuration is missing or cannot be decoded: the migration then
 fails before its patch, asks for another run, and fails again.
 */
module RuntimeMigration {
  import opened Wrappers
  import opened AuditLogTypes
  import opened RuntimeTypes
  import opened RuntimeFsm
  import opened RuntimeRun
  import opened RuntimeSafety
  import opened RuntimeConvergence
  import AuditLogConfig

  lemma EntryKeepsShoot(cfg: Config, env: Env, fn: StateFn, s: Sys)
    requires CanRun(fn, s) && fn != TakeSnapshot && Rank(fn) > 11
    ensures SameShoot(s, Step(cfg, env, fn, s).sys)
  {
  }

  lemma ShootStepKeepsShoot(cfg: Config, env: Env, fn: StateFn, s: Sys)
    requires CanRun(fn, s) && 9 < Rank(fn) <= 11
    ensures SameShoot(s, Step(cfg, env, fn, s).sys)
  {
  }

  lemma SkrStepKeepsShoot(cfg: Config, env: Env, fn: StateFn, s: Sys)
    requires CanRun(fn, s) && 4 < Rank(fn) <= 9
    ensures SameShoot(s, Step(cfg, env, fn, s).sys)
  {
  }

  /** Apart from the snapshot only the migration changes what the run knows of the shoot. */
  lemma StepKeepsShoot(cfg: Config, env: Env, fn: StateFn, s: Sys)
    requires CanRun(fn, s) && fn != TakeSnapshot && fn != MigrateAuditLog
    ensures SameShoot(s, Step(cfg, env, fn, s).sys)
  {
    if Rank(fn) > 11 { EntryKeepsShoot(cfg, env, fn, s); }
    else if Rank(fn) > 9 { ShootStepKeepsShoot(cfg, env, fn, s); }
    else if Rank(fn) > 4 { SkrStepKeepsShoot(cfg, env, fn, s); }
  }

  predicate BrokenShoot(shoot: Shoot) {
    AuditLogConfig.Broken(shoot.spec.extensions)
  }

  predicate Hopeless(pre: Instance, s: Sys) {
    && (s.shoot.Some? ==> BrokenShoot(s.shoot.value))
    && s.meta.dedicatedRequested == pre.meta.dedicatedRequested
  }

  lemma MigrateStaysHopeless(cfg: Config, env: Env, pre: Instance, s: Sys)
    requires s.shoot.Some? && Hopeless(pre, s)
    ensures Hopeless(pre, DoMigrateAuditLog(cfg, env, s).sys)
  {
    if env.claim.Ok? { WriterFails(s.shoot.value.spec, env.claim.value); }
  }

  lemma StaysHopeless(cfg: Config, env: Env, pre: Instance, fn: StateFn, s: Sys)
    requires env.shootRead.ShootIs? ==> BrokenShoot(env.shootRead.shoot)
    requires CanRun(fn, s) && Hopeless(pre, s)
    ensures Hopeless(pre, Step(cfg, env, fn, s).sys)
  {
    if fn == MigrateAuditLog { MigrateStaysHopeless(cfg, env, pre, s); }
    else if fn != TakeSnapshot { StepKeepsShoot(cfg, env, fn, s); }
  }

  lemma WriterFails(spec: AuditLogConfig.ShootValue, data: AuditLogData)
    requires AuditLogConfig.Broken(spec.extensions)
    ensures AuditLogConfig.Written(spec, AuditLogConfig.DedicatedPatch(data)).None? && !AuditLogConfig.ReadsAs(spec, data)
  {
    AuditLogConfig.WriterFailsWithReader(spec.extensions, spec.resources, data);
  }

  lemma RunStaysHopeless(cfg: Config, env: Env, pre: Instance)
    requires env.shootRead.ShootIs? ==> BrokenShoot(env.shootRead.shoot)
    ensures Hopeless(pre, Run(cfg, env, pre, None).sys)
  {
    var inv := (fn: StateFn, s: Sys) => Hopeless(pre, s);
    var done := (f: Final) => Hopeless(pre, f.sys);
    forall fn, s ensures TurnKeeps(inv, done, cfg, env, fn, s) {
      if CanRun(fn, s) && inv(fn, s) { StaysHopeless(cfg, env, pre, fn, s); }
    }
    DriveInduction(inv, done, cfg, env, TakeSnapshot, Begin(pre), None);
  }

  predicate Waits(cfg: Config, site: Site) {
    Dedicated(cfg, site.inst) && AuditLogConfig.Broken(site.spec.extensions) && site.inst.status.state != Ready
  }

  /** Whatever the API answers, a run on such a shoot does not make the Runtime Ready. */
  lemma VisitWaits(cfg: Config, env: Env, site: Site)
    requires Waits(cfg, site)
    ensures Waits(cfg, Visit(cfg, env, site))
  {
    var seen := Seeing(env, site.spec);
    var f := Run(cfg, seen, site.inst, None);
    RunStaysHopeless(cfg, seen, site.inst);
    var st := Persisted(f.sys.trace);
    if st.Some? && st.value.state == Ready {
      ReadyIsEarnedInTheRun(cfg, seen, site.inst, None);
      WriterFails(site.spec, seen.claim.value);
    }
  }

  lemma {:induction false} BrokenNeverReady(cfg: Config, envs: seq<Env>, site: Site)
    requires Waits(cfg, site)
    ensures Waits(cfg, Visits(cfg, envs, site))
  {
    if envs != [] {
      VisitWaits(cfg, envs[0], site);
      BrokenNeverReady(cfg, envs[1..], Visit(cfg, envs[0], site));
    }
  }

  /**
   With everything else in order, enough runs make a Pending Runtime with a dedicated audit log
   Ready, its shoot configured as claimed, exactly when the shoot's extension is not broken.
   */
  lemma MigrationSettles(cfg: Config, envs: seq<Env>, site: Site, kind: LastOperationType, data: AuditLogData)
    requires AllStable(cfg, envs, site.inst.meta, kind, data) && Dedicated(cfg, site.inst)
    requires site.inst.status.state == Pending && |envs| > Left(cfg, site, kind, data)
    ensures var t := Visits(cfg, envs, site);
      && (t.inst.status.state == Ready <==> !AuditLogConfig.Broken(site.spec.extensions))
      && (t.inst.status.state == Ready ==> AuditLogConfig.ReadsAs(t.spec, data))
  {
    if AuditLogConfig.Broken(site.spec.extensions) { BrokenNeverReady(cfg, envs, site); }
    else { Converges(cfg, envs, site, kind, data); }
  }
}
