/**
 Many runs for one Runtime name, interleaved with what users, Gardener and the API server do:
 the shoot never outlives its Runtime, and, unless somebody else deletes it, the kubeconfig
 resource never outlives the shoot.

 The runs are serial and see their own writes; a deletion by the user may reach them late but
 is not forgotten once seen.  Everything else may happen between any two writes of a run.
 */
module RuntimeWorld {
  import opened Wrappers
  import opened AuditLogTypes
  import opened RuntimeTypes
  import opened RuntimeFsm
  import opened RuntimeRun
  import opened RuntimeSafety

  datatype Stored = Stored(finalizer: bool, deleting: bool)
  datatype Owned = Owned(deleting: bool)

  /** noticed: a run has seen the deletion of the current Runtime; tampered: somebody else has deleted a shoot. */
  datatype World = World(runtime: Option<Stored>, shoot: Option<Owned>, cluster: Option<Owned>, noticed: bool, tampered: bool)

  datatype Event = UserCreates | UserDeletes | UserDeletesShoot | ShootVanishes | ClusterVanishes

  function Happen(w: World, e: Event): World {
    match e
    case UserCreates => if w.runtime.None? then w.(runtime := Some(Stored(false, false)), noticed := false) else w
    case UserDeletes =>
      if w.runtime.None? then w
      else if w.runtime.value.finalizer then w.(runtime := Some(Stored(true, true)))
      else w.(runtime := None)
    case UserDeletesShoot => if w.shoot.Some? then w.(shoot := Some(Owned(true)), tampered := true) else w
    case ShootVanishes => if w.shoot == Some(Owned(true)) then w.(shoot := None) else w
    case ClusterVanishes => if w.cluster == Some(Owned(true)) then w.(cluster := None) else w
  }

  function HappenAll(w: World, es: seq<Event>): World
    decreases |es|
  {
    if es == [] then w else HappenAll(Happen(w, es[0]), es[1..])
  }

  /** What a write of a run does to the stored objects; writes to an object that is gone do nothing. */
  function Apply(w: World, e: Effect): World {
    match e
    case FinalizerAdded => if w.runtime.Some? && !w.runtime.value.deleting then w.(runtime := Some(Stored(true, false))) else w
    case FinalizerRemoved =>
      if w.runtime.None? then w
      else if w.runtime.value.deleting then w.(runtime := None)
      else w.(runtime := Some(Stored(false, false)))
    case ShootCreated => if w.shoot.None? then w.(shoot := Some(Owned(false))) else w
    case ShootDeleted => if w.shoot.Some? then w.(shoot := Some(Owned(true))) else w
    case ClusterCreated => if w.cluster.None? then w.(cluster := Some(Owned(false))) else w
    case ClusterDeleted => if w.cluster.Some? then w.(cluster := Some(Owned(true))) else w
    case _ => w
  }

  function Length(t: Trace): nat {
    if t.Start? then 0 else 1 + Length(t.before)
  }

  /** The writes of a run, each preceded and followed by any events. */
  type Gaps = nat -> seq<Event>

  function Play(w: World, t: Trace, gaps: Gaps): World {
    var before := if t.Start? then w else Apply(Play(w, t.before, gaps), t.last);
    HappenAll(before, gaps(Length(t)))
  }

  function Notice(w: World, pre: Instance): World {
    w.(noticed := w.noticed || pre.meta.deleting)
  }

  /** What a run may have read of the world it starts in. */
  predicate Sees(w: World, pre: Instance, env: Env, gaps: Gaps) {
    && pre.meta.finalizer == (w.runtime.Some? && w.runtime.value.finalizer)
    && (pre.meta.deleting && w.runtime.Some? ==> w.runtime.value.deleting)
    && (w.noticed && w.runtime.Some? ==> pre.meta.deleting)
    && (env.shootRead.NoShoot? ==> w.shoot.None?)
    && (env.shootRead.ShootIs? ==> w.shoot.Some?)
    && (pre.meta.deleting && env.cluster.NoCluster? ==> HappenAll(w, gaps(0)).cluster.None?)
  }

  datatype Move =
    | External(event: Event)
    | Reconcile(cfg: Config, env: Env, pre: Instance, patience: Patience, gaps: Gaps)

  function Next(w: World, m: Move): World {
    match m
    case External(e) => Happen(w, e)
    case Reconcile(cfg, env, pre, patience, gaps) => Play(Notice(w, pre), Run(cfg, env, pre, patience).sys.trace, gaps)
  }

  predicate Enabled(w: World, m: Move) {
    m.Reconcile? ==> Sees(w, m.pre, m.env, m.gaps)
  }

  function After(w: World, ms: seq<Move>): World {
    if ms == [] then w else Next(After(w, ms[..|ms| - 1]), ms[|ms| - 1])
  }

  predicate Possible(w: World, ms: seq<Move>) {
    ms == [] || (Possible(w, ms[..|ms| - 1]) && Enabled(After(w, ms[..|ms| - 1]), ms[|ms| - 1]))
  }

  const EMPTY: World := World(None, None, None, false, false)

  // ---- invariants ----

  predicate Inv(w: World) {
    (w.shoot.Some? ==> w.runtime.Some? && w.runtime.value.finalizer) && (w.tampered || Orderly(w))
  }

  /** The shoot is deleted by runs only, and only after the kubeconfig resource is gone. */
  predicate Orderly(w: World) {
    && (w.cluster.Some? ==> w.shoot.Some?)
    && (w.shoot.Some? && w.shoot.value.deleting ==> w.noticed && w.cluster.None?)
    && (w.cluster.Some? && w.cluster.value.deleting ==> w.noticed)
  }

  /** What stays true of the world while a run is under way. */
  predicate During(w: World, pre: Instance, env: Env) {
    && (Live(pre) ==> w.runtime.Some? && w.runtime.value.finalizer)
    && (Serving(env, pre) && !w.tampered ==> w.shoot.Some? && !w.noticed)
    && (pre.meta.deleting && env.shootRead.NoShoot? ==> w.shoot.None?)
    && (Deleting(env, pre) ==> (w.shoot.Some? ==> w.noticed))
    && (Deleting(env, pre) && env.cluster.NoCluster? ==> w.cluster.None?)
  }

  lemma EventKeeps(w: World, e: Event, pre: Instance, env: Env)
    requires Inv(w)
    ensures Inv(Happen(w, e))
    ensures During(w, pre, env) ==> During(Happen(w, e), pre, env)
  {
  }

  lemma {:induction false} EventsKeep(w: World, es: seq<Event>, pre: Instance, env: Env)
    requires Inv(w)
    ensures Inv(HappenAll(w, es))
    ensures During(w, pre, env) ==> During(HappenAll(w, es), pre, env)
    decreases |es|
  {
    if es != [] {
      EventKeeps(w, es[0], pre, env);
      EventsKeep(Happen(w, es[0]), es[1..], pre, env);
    }
  }

  lemma EffectKeeps(w: World, e: Effect, pre: Instance, env: Env)
    requires Inv(w) && During(w, pre, env)
    requires Justified(env, pre, e) || e.StatusWritten?
    ensures Inv(Apply(w, e)) && During(Apply(w, e), pre, env)
  {
  }

  predicate Fits(env: Env, pre: Instance, e: Effect) {
    Justified(env, pre, e) || e.StatusWritten?
  }

  lemma StartKeeps(w: World, pre: Instance, env: Env, gaps: Gaps)
    requires Inv(w) && Sees(w, pre, env, gaps)
    ensures var w0 := HappenAll(Notice(w, pre), gaps(0)); Inv(w0) && During(w0, pre, env)
  {
    EventsKeep(Notice(w, pre), gaps(0), pre, env.(cluster := ClusterReadFails("")));
    NoticeIsHarmless(w, gaps(0), pre);
  }

  lemma {:induction false} NoticeIsHarmless(w: World, es: seq<Event>, pre: Instance)
    ensures HappenAll(Notice(w, pre), es).cluster == HappenAll(w, es).cluster
    decreases |es|
  {
    if es != [] {
      if Happen(Notice(w, pre), es[0]) == Notice(Happen(w, es[0]), pre) { NoticeIsHarmless(Happen(w, es[0]), es[1..], pre); }
      else { assert Happen(Notice(w, pre), es[0]) == Happen(w, es[0]); }
    }
  }

  /** Every state the world goes through in a run is a safe one. */
  lemma {:induction false} PlayKeeps(w: World, pre: Instance, env: Env, t: Trace, gaps: Gaps)
    requires Inv(w) && Sees(w, pre, env, gaps) && All(e => Fits(env, pre, e), t)
    ensures Inv(Play(Notice(w, pre), t, gaps)) && During(Play(Notice(w, pre), t, gaps), pre, env)
  {
    if t.Start? { StartKeeps(w, pre, env, gaps); }
    else {
      PlayKeeps(w, pre, env, t.before, gaps);
      var w1 := Play(Notice(w, pre), t.before, gaps);
      EffectKeeps(w1, t.last, pre, env);
      EventsKeep(Apply(w1, t.last), gaps(Length(t)), pre, env);
    }
  }

  lemma MoveKeeps(w: World, m: Move)
    requires Inv(w) && Enabled(w, m)
    ensures Inv(Next(w, m))
  {
    match m
    case External(e) =>
      match e { case UserCreates => case UserDeletes => case UserDeletesShoot => case ShootVanishes => case ClusterVanishes => }
    case Reconcile(cfg, env, pre, patience, gaps) =>
      var trace := Run(cfg, env, pre, patience).sys.trace;
      EffectsAreJustified(cfg, env, pre, patience);
      AllWeaken(e => Justified(env, pre, e), e => Fits(env, pre, e), Work(trace));
      PlayKeeps(w, pre, env, trace, gaps);
  }

  /**
   Whatever runs and events have happened: a shoot that exists has a Runtime that exists and
   carries the finalizer.  As long as nobody but KIM has deleted a shoot, a kubeconfig resource
   that exists has a shoot that is not being deleted.
   */
  lemma {:induction false} NoOrphanedShoot(ms: seq<Move>)
    requires Possible(EMPTY, ms)
    ensures var w := After(EMPTY, ms);
      && (w.shoot.Some? ==> w.runtime.Some? && w.runtime.value.finalizer)
      && (!w.tampered && w.cluster.Some? ==> w.shoot.Some? && !w.shoot.value.deleting)
    decreases |ms|
  {
    ReachableIsSafe(ms);
  }

  lemma {:induction false} ReachableIsSafe(ms: seq<Move>)
    requires Possible(EMPTY, ms)
    ensures Inv(After(EMPTY, ms))
    decreases |ms|
  {
    if ms != [] {
      ReachableIsSafe(ms[..|ms| - 1]);
      MoveKeeps(After(EMPTY, ms[..|ms| - 1]), ms[|ms| - 1]);
    }
  }
}
