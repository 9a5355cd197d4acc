/**
 Rotation of a stored kubeconfig: when a reconciliation renews it, and when it asks to be called
 again.  Times are minutes, as reals; the sync time is kept exactly.
 */
module Rotation {
  import opened Wrappers

  const RATIO: real := 0.95

  /** lastSync is the annotation; a forced rotation removes it together with the kubeconfig. */
  datatype Secret = Secret(kubeconfig: Option<string>, lastSync: Option<real>)

  /** What is stored: the secret, if there is one, and the annotation that forces a rotation. */
  datatype Stored = Stored(secret: Option<Secret>, forced: bool)

  datatype Fetch = Fetched(kubeconfig: string) | ClusterNotFound | FetchFails

  /** The GardenerCluster resource itself. */
  datatype ClusterRead = ClusterHere | ClusterGone | ClusterReadFails

  /** Vanished: the API answers NotFound to the write. */
  datatype SecretWrite = Written | Vanished | WriteFails

  /** What the API answers in one reconciliation. */
  datatype Calls = Calls(cluster: ClusterRead, deleteSecret: bool, secretRead: bool, fetch: Fetch, writeSecret: SecretWrite,
                         dropAnnotation: bool, writeStatus: bool)

  /** requeue None: not called again by time; failed: retried with a back-off. */
  datatype Outcome = Outcome(stored: Stored, requeue: Option<real>, failed: bool)

  function LastSync(s: Stored): Option<real> {
    if s.secret.None? then None else s.secret.value.lastSync
  }

  predicate RotationTimePassed(s: Stored, period: real, now: real) {
    LastSync(s).None? || now - LastSync(s).value >= RATIO * period
  }

  /** Without a sync time the zero time counts, which lies further back than any period. */
  function NextRequeue(now: real, lastSync: Option<real>, period: real): (r: real)
    ensures period > 0.0 && (lastSync.Some? ==> lastSync.value <= now) ==> 0.0 < r <= RATIO * period
  {
    if lastSync.None? then RATIO * period
    else
      var left := RATIO * period - (now - lastSync.value);
      if left <= 0.0 then RATIO * period else left
  }

  function Emptied(s: Stored): Stored {
    if s.secret.None? then s else s.(secret := Some(Secret(None, None)))
  }

  function Renewed(s: Stored, kubeconfig: string, now: real): Stored {
    s.(secret := Some(Secret(Some(kubeconfig), Some(now))))
  }

  function Finish(s: Stored, calls: Calls, requeue: real): Outcome {
    if calls.writeStatus then Outcome(s, Some(requeue), false) else Outcome(s, None, true)
  }

  /** A NotFound error of the secret's write is taken for one about the cluster: it is not retried. */
  function Unwritten(s: Stored, w: SecretWrite): Outcome {
    if w.Vanished? then Outcome(s.(secret := None), None, false) else Outcome(s, None, true)
  }

  function Reconciled(s: Stored, period: real, now: real, calls: Calls): Outcome {
    match calls.cluster
    case ClusterReadFails => Outcome(s, None, true)
    case ClusterGone => if calls.deleteSecret then Outcome(s.(secret := None), None, false) else Outcome(s, None, true)
    case ClusterHere => if calls.secretRead then Handled(s, period, now, calls) else Outcome(s, None, true)
  }

  function Handled(s: Stored, period: real, now: real, calls: Calls): Outcome {
    var requeue := NextRequeue(now, LastSync(s), period);
    match calls.fetch
    case ClusterNotFound => Outcome(s, None, false)
    case FetchFails => Outcome(s, None, true)
    case Fetched(kubeconfig) =>
      if s.forced then
        if s.secret.Some? && !calls.writeSecret.Written? then Unwritten(s, calls.writeSecret)
        else if !calls.dropAnnotation then Outcome(Emptied(s), None, true)
        else Finish(Emptied(s).(forced := false), calls, requeue)
      else if !RotationTimePassed(s, period, now) then Finish(s, calls, requeue)
      else if !calls.writeSecret.Written? then Unwritten(s, calls.writeSecret)
      else Finish(Renewed(s, kubeconfig, now), calls, requeue)
  }

  class GardenerCluster {
    var secret: Option<Secret>
    var forced: bool

    constructor (s: Stored)
      ensures Value() == s
    {
      secret, forced := s.secret, s.forced;
    }

    function Value(): Stored
      reads this
    {
      Stored(secret, forced)
    }

    /** The answer to a write that is not needed is that it was written. */
    method RemoveKubeconfig(write: SecretWrite) returns (answer: SecretWrite)
      modifies this`secret
      ensures answer == if old(secret).None? then Written else write
      ensures Value() == if answer.Written? then Emptied(old(Value())) else old(Value())
    {
      if secret.None? { return Written; }
      if write.Written? { secret := Some(Secret(None, None)); }
      return write;
    }

    /** createNewSecret and updateExistingSecret: what is stored is the same. */
    method StoreKubeconfig(kubeconfig: string, now: real, write: SecretWrite)
      modifies this`secret
      ensures Value() == if write.Written? then Renewed(old(Value()), kubeconfig, now) else old(Value())
    {
      if write.Written? { secret := Some(Secret(Some(kubeconfig), Some(now))); }
    }

    method HandleKubeconfig(period: real, now: real, calls: Calls) returns (requeue: Option<real>, failed: bool)
      modifies this
      ensures Outcome(Value(), requeue, failed) == Handled(old(Value()), period, now, calls)
    {
      var lastSync := if secret.None? then None else secret.value.lastSync;
      var requeueAfter := NextRequeue(now, lastSync, period);
      match calls.fetch
      case ClusterNotFound => return None, false;
      case FetchFails => return None, true;
      case Fetched(kubeconfig) =>
        var answer := Written;
        var rotated := forced;
        if forced {
          answer := RemoveKubeconfig(calls.writeSecret);
        } else if lastSync.None? || now - lastSync.value >= RATIO * period {
          answer := calls.writeSecret;
          StoreKubeconfig(kubeconfig, now, answer);
        }
        if !answer.Written? {
          if answer.Vanished? { secret := None; }
          return None, answer.WriteFails?;
        }
        if rotated {
          if !calls.dropAnnotation { return None, true; }
          forced := false;
        }
        if !calls.writeStatus { return None, true; }
        return Some(requeueAfter), false;
    }

    method Reconcile(period: real, now: real, calls: Calls) returns (requeue: Option<real>, failed: bool)
      modifies this
      ensures Outcome(Value(), requeue, failed) == Reconciled(old(Value()), period, now, calls)
    {
      match calls.cluster
      case ClusterReadFails => return None, true;
      case ClusterGone =>
        if calls.deleteSecret { secret := None; }
        return None, !calls.deleteSecret;
      case ClusterHere =>
        if !calls.secretRead { return None, true; }
        requeue, failed := HandleKubeconfig(period, now, calls);
    }
  }

  // ---- one reconciliation ----

  /** A secret is due for rotation exactly when the requeue time starts over at the full ratio. */
  lemma RotatesExactlyOnReset(s: Stored, period: real, now: real)
    requires period > 0.0 && (LastSync(s).Some? ==> LastSync(s).value < now)
    ensures RotationTimePassed(s, period, now) <==> NextRequeue(now, LastSync(s), period) == RATIO * period
  {
  }

  predicate Succeeds(s: Stored, period: real, now: real, calls: Calls) {
    Reconciled(s, period, now, calls).requeue.Some?
  }

  /** At the time asked for, and not before, the secret that is then stored is due again. */
  lemma WakesWhenDue(s: Stored, period: real, now: real, calls: Calls, at: real)
    requires period > 0.0 && (LastSync(s).Some? ==> LastSync(s).value <= now)
    requires Succeeds(s, period, now, calls) && !s.forced
    ensures var o := Reconciled(s, period, now, calls);
      LastSync(o.stored).Some? && (RotationTimePassed(o.stored, period, at) <==> at >= now + o.requeue.value)
  {
  }

  /** A forced rotation leaves no kubeconfig; the next reconciliation, whenever it is, stores a new one. */
  lemma ForcedRotationRenews(s: Stored, period: real, now: real, calls: Calls, later: real, next: Calls)
    requires s.forced && Succeeds(s, period, now, calls)
    requires Succeeds(Reconciled(s, period, now, calls).stored, period, later, next)
    ensures var emptied := Reconciled(s, period, now, calls).stored; var r := Reconciled(emptied, period, later, next).stored;
      && (emptied.secret.Some? ==> emptied.secret.value.kubeconfig.None?)
      && next.fetch.Fetched? && r.secret == Some(Secret(Some(next.fetch.kubeconfig), Some(later)))
  {
  }

  predicate WritesSecret(s: Stored, period: real, now: real) {
    if s.forced then s.secret.Some? else RotationTimePassed(s, period, now)
  }

  /**
   A reconciliation ends with neither a requeue nor a failure exactly when the resource is gone
   and its secret with it, when the shoot is not found, or when the secret's write is answered
   NotFound: in the last case the kubeconfig is gone and nothing brings it back in time.
   */
  lemma LostWakeUp(s: Stored, period: real, now: real, calls: Calls)
    ensures var o := Reconciled(s, period, now, calls);
      o.requeue.None? && !o.failed <==>
        || (calls.cluster.ClusterGone? && calls.deleteSecret)
        || (calls.cluster.ClusterHere? && calls.secretRead
            && (calls.fetch.ClusterNotFound?
                || (calls.fetch.Fetched? && WritesSecret(s, period, now) && calls.writeSecret.Vanished?)))
    ensures var o := Reconciled(s, period, now, calls);
      o.requeue.None? && !o.failed && !calls.fetch.ClusterNotFound? ==> o.stored.secret.None?
  {
  }

  // ---- timed runs ----

  /** force: the annotation has been set since the last visit. */
  datatype Visit = Visit(now: real, calls: Calls, force: bool)

  function Before(s: Stored, v: Visit): Stored {
    s.(forced := s.forced || v.force)
  }

  function After(s: Stored, period: real, v: Visit): Outcome {
    Reconciled(Before(s, v), period, v.now, v.calls)
  }

  function Run(s: Stored, period: real, visits: seq<Visit>): Stored
    decreases |visits|
  {
    if visits == [] then s else Run(After(s, period, visits[0]).stored, period, visits[1..])
  }

  /** Every visit succeeds, and the next comes at most d after the time it asked for. */
  predicate OnTime(s: Stored, period: real, d: real, visits: seq<Visit>)
    decreases |visits|
  {
    visits == [] ||
      var o := After(s, period, visits[0]);
      && o.requeue.Some?
      && (|visits| > 1 ==> visits[0].now <= visits[1].now <= visits[0].now + o.requeue.value + d)
      && OnTime(o.stored, period, d, visits[1..])
  }

  /** Until when the state left by the last visit may stay as it is. */
  function Deadline(s: Stored, period: real, d: real, visits: seq<Visit>): real
    requires visits != [] && OnTime(s, period, d, visits)
    decreases |visits|
  {
    if |visits| == 1 then visits[0].now + After(s, period, visits[0]).requeue.value + d
    else Deadline(After(s, period, visits[0]).stored, period, d, visits[1..])
  }

  predicate AgeAtMost(s: Stored, at: real, age: real) {
    LastSync(s).Some? ==> at - LastSync(s).value <= age
  }

  lemma VisitBoundsAge(s: Stored, period: real, v: Visit, d: real, at: real)
    requires period > 0.0 && d >= 0.0 && After(s, period, v).requeue.Some?
    requires LastSync(s).Some? ==> LastSync(s).value <= v.now
    requires at <= v.now + After(s, period, v).requeue.value + d
    ensures AgeAtMost(After(s, period, v).stored, at, RATIO * period + d)
  {
  }

  /**
   In every run of successful visits, each at most d late, the age of the stored kubeconfig
   never exceeds 0.95 periods plus d, up to the time the next visit is due.
   */
  lemma {:induction false} AgeIsBounded(s: Stored, period: real, d: real, visits: seq<Visit>, at: real)
    requires period > 0.0 && d >= 0.0 && visits != [] && OnTime(s, period, d, visits)
    requires LastSync(s).Some? ==> LastSync(s).value <= visits[0].now
    requires at <= Deadline(s, period, d, visits)
    ensures AgeAtMost(Run(s, period, visits), at, RATIO * period + d)
    decreases |visits|
  {
    var o := After(s, period, visits[0]);
    assert LastSync(o.stored).Some? ==> LastSync(o.stored).value <= visits[0].now;
    if |visits| == 1 {
      VisitBoundsAge(s, period, visits[0], d, at);
      assert visits[1..] == [];
    } else {
      AgeIsBounded(o.stored, period, d, visits[1..], at);
    }
  }

  /** Nor does it between two visits: the state left by a visit is young until the next one begins. */
  lemma {:induction false} AgeIsBoundedBetween(s: Stored, period: real, d: real, visits: seq<Visit>, i: nat, at: real)
    requires period > 0.0 && d >= 0.0 && OnTime(s, period, d, visits) && i + 1 < |visits|
    requires LastSync(s).Some? ==> LastSync(s).value <= visits[0].now
    requires at <= visits[i + 1].now
    ensures AgeAtMost(Run(s, period, visits[..i + 1]), at, RATIO * period + d)
    decreases |visits|
  {
    var o := After(s, period, visits[0]);
    assert visits[..i + 1][1..] == visits[1..][..i];
    if i == 0 {
      VisitBoundsAge(s, period, visits[0], d, at);
      assert Run(s, period, visits[..1]) == o.stored;
    } else {
      AgeIsBoundedBetween(o.stored, period, d, visits[1..], i - 1, at);
    }
  }
}
