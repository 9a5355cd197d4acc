/**
 Runs of single events: caches are synced and unused secrets deleted one at a time, in any order
 and with any of the calls failing.  A sync of several caches, or a clean-up, is a sequence of
 these that ends where its first failure does.
 */
module RegistryCacheRuns {
  import opened Wrappers
  import opened RegistryCache

  datatype Event = SyncCache(cache: Cache, secrets: RuntimeSecrets, calls: Calls) | DeleteSecret(name: string)

  predicate Proper(e: Event) {
    e.SyncCache? ==> e.cache.secretRef.Some? && e.cache.uid != "" && Contains(e.calls.name, PREFIX)
  }

  function After(store: Store, id: string, e: Event): Store
    requires Proper(e)
  {
    match e
    case SyncCache(c, secrets, calls) => SyncOne(store, id, c, secrets, calls).store
    case DeleteSecret(name) => Filter(store, (s: Secret) => s.name != name)
  }

  /** A sync that goes through replaces a dirty secret although the cache has a clean one. */
  predicate Collides(store: Store, id: string, e: Event)
    requires Proper(e)
  {
    && e.SyncCache? && SyncOne(store, id, e.cache, e.secrets, e.calls).ok
    && var first := FirstOf(store, id, e.cache.uid);
      && first.Some? && store[first.value].dirty && store[first.value].data != Source(e.cache, e.secrets).value
      && HasClean(store, id, e.cache.uid)
  }

  lemma FailedSyncKeeps(store: Store, id: string, c: Cache, secrets: RuntimeSecrets, calls: Calls)
    requires c.secretRef.Some? && WellFormed(store, id) && !SyncOne(store, id, c, secrets, calls).ok
    ensures WellFormed(SyncOne(store, id, c, secrets, calls).store, id)
  {
  }

  lemma EventKeeps(store: Store, id: string, e: Event)
    requires Proper(e) && WellFormed(store, id)
    ensures WellFormed(After(store, id, e), id) <==> !Collides(store, id, e)
  {
    match e
    case SyncCache(c, secrets, calls) =>
      if SyncOne(store, id, c, secrets, calls).ok { DirtyFirstDuplicates(store, id, c, secrets, calls); }
      else { FailedSyncKeeps(store, id, c, secrets, calls); }
    case DeleteSecret(name) => FilterKeepsWellFormed(store, id, (s: Secret) => s.name != name);
  }

  predicate AllProper(events: seq<Event>) {
    forall i :: 0 <= i < |events| ==> Proper(events[i])
  }

  /** The store after the first n events. */
  function AfterN(store: Store, id: string, events: seq<Event>, n: nat): Store
    requires AllProper(events) && n <= |events|
  {
    if n == 0 then store else After(AfterN(store, id, events, n - 1), id, events[n - 1])
  }

  predicate CollisionAt(store: Store, id: string, events: seq<Event>, i: nat)
    requires AllProper(events) && i < |events|
  {
    Collides(AfterN(store, id, events, i), id, events[i])
  }

  predicate WellFormedAt(store: Store, id: string, events: seq<Event>, i: nat)
    requires AllProper(events) && i <= |events|
  {
    WellFormed(AfterN(store, id, events, i), id)
  }

  lemma StepKeeps(store: Store, id: string, events: seq<Event>, i: nat)
    requires AllProper(events) && i < |events| && WellFormedAt(store, id, events, i)
    ensures WellFormedAt(store, id, events, i + 1) <==> !CollisionAt(store, id, events, i)
  {
    EventKeeps(AfterN(store, id, events, i), id, events[i]);
  }

  /** A run keeps the store well-formed throughout exactly when none of its events collides. */
  lemma {:induction false} RunKeeps(store: Store, id: string, events: seq<Event>, n: nat)
    requires AllProper(events) && n <= |events| && WellFormedAt(store, id, events, 0)
    ensures (forall i :: 0 <= i <= n ==> WellFormedAt(store, id, events, i)) <==>
            (forall i :: 0 <= i < n ==> !CollisionAt(store, id, events, i))
  {
    if n > 0 {
      var m := n - 1;
      RunKeeps(store, id, events, m);
      if WellFormedAt(store, id, events, m) { StepKeeps(store, id, events, m); }
    }
  }

  function SyncEvents(caches: seq<Cache>, secrets: RuntimeSecrets, calls: seq<Calls>): (r: seq<Event>)
    requires GoodRound(caches, calls)
    ensures |r| == |caches| && AllProper(r)
  {
    seq(|caches|, i requires 0 <= i < |caches| => SyncCache(caches[i], secrets, calls[i]))
  }

  /** A sync of several caches is such a run, up to its first failure. */
  lemma {:induction false} SyncIsRun(store: Store, id: string, caches: seq<Cache>, secrets: RuntimeSecrets, calls: seq<Calls>, n: nat)
    requires GoodRound(caches, calls) && n <= |caches|
    ensures var r, events := SyncTo(store, id, caches, secrets, calls, n), SyncEvents(caches, secrets, calls);
      && (r.ok ==> r.store == AfterN(store, id, events, n))
      && exists m :: 0 <= m <= n && r.store == AfterN(store, id, events, m)
  {
    if n > 0 {
      SyncIsRun(store, id, caches, secrets, calls, n - 1);
      var before, events := SyncTo(store, id, caches, secrets, calls, n - 1), SyncEvents(caches, secrets, calls);
      if before.ok {
        assert events[n - 1] == SyncCache(caches[n - 1], secrets, calls[n - 1]);
        assert SyncTo(store, id, caches, secrets, calls, n).store == AfterN(store, id, events, n);
      }
    }
  }

  // ---- one cache between two clean-ups ----

  datatype Attempt = Attempt(secrets: RuntimeSecrets, calls: Calls)

  /** What the attempts to sync a cache make of the store, whether they fail or not. */
  function Attempts(store: Store, id: string, c: Cache, tries: seq<Attempt>): Store
    requires c.secretRef.Some?
  {
    if tries == [] then store
    else
      var t := tries[|tries| - 1];
      SyncOne(Attempts(store, id, c, tries[..|tries| - 1]), id, c, t.secrets, t.calls).store
  }

  /** The attempt gets as far as marking a secret that has this data. */
  predicate Marks(c: Cache, data: Data, t: Attempt)
    requires c.secretRef.Some?
  {
    t.calls.listWorks && t.calls.patchWorks && Source(c, t.secrets).Some? && Source(c, t.secrets).value != data
  }

  predicate EverMarks(c: Cache, data: Data, tries: seq<Attempt>)
    requires c.secretRef.Some?
  {
    exists i :: 0 <= i < |tries| && Marks(c, data, tries[i])
  }

  function Added(c: Cache, data: Data, t: Attempt): nat
    requires c.secretRef.Some?
  {
    if Marks(c, data, t) && t.calls.createWorks then 1 else 0
  }

  /** How many attempts replace a secret that has this data. */
  function Replacements(c: Cache, data: Data, tries: seq<Attempt>): nat
    requires c.secretRef.Some?
  {
    if tries == [] then 0
    else
      var t := tries[|tries| - 1];
      Replacements(c, data, tries[..|tries| - 1]) + Added(c, data, t)
  }

  /** The names given out are new. */
  predicate FreshNames(store: Store, tries: seq<Attempt>) {
    && (forall i :: 0 <= i < |tries| ==> Contains(tries[i].calls.name, PREFIX) && !NameTaken(store, tries[i].calls.name))
    && (forall i, j :: 0 <= i < j < |tries| ==> tries[i].calls.name != tries[j].calls.name)
  }

  /** The store at first holds one secret of the cache, a clean one. */
  predicate Starts(store: Store, id: string, c: Cache) {
    && c.secretRef.Some? && c.uid != "" && WellFormed(store, id) && NoDirty(store, id, c.uid)
    && FirstOf(store, id, c.uid).Some?
  }

  predicate IsNew(s: Secret, id: string, c: Cache, data: Data) {
    Of(s, id, c.uid) && s.managed && !s.dirty && s.data != data && Contains(s.name, PREFIX)
  }

  /** r is the store with its first secret of the cache perhaps marked, and n clean ones added. */
  predicate Grown(store: Store, r: Store, id: string, c: Cache, marked: bool, n: nat)
    requires FirstOf(store, id, c.uid).Some?
  {
    var at := FirstOf(store, id, c.uid).value;
    && |r| == |store| + n
    && r[at] == store[at].(dirty := store[at].dirty || marked)
    && (forall i :: 0 <= i < |store| && i != at ==> r[i] == store[i])
    && (forall i :: |store| <= i < |r| ==> IsNew(r[i], id, c, store[at].data))
  }

  lemma FirstStays(store: Store, r: Store, id: string, c: Cache, marked: bool, n: nat)
    requires FirstOf(store, id, c.uid).Some? && Grown(store, r, id, c, marked, n)
    ensures FirstOf(r, id, c.uid) == FirstOf(store, id, c.uid)
  {
    FirstIsFirst(store, id, c.uid);
    FirstIsFirst(r, id, c.uid);
    var at := FirstOf(store, id, c.uid).value;
    assert Of(r[at], id, c.uid);
    assert forall i :: 0 <= i < at ==> r[i] == store[i];
  }

  lemma {:induction false} FirstIsFirst(store: Store, id: string, uid: string)
    ensures forall i :: 0 <= i < |store| && Of(store[i], id, uid) ==> FirstOf(store, id, uid).Some? && FirstOf(store, id, uid).value <= i
  {
    if store != [] {
      var n := |store| - 1;
      FirstIsFirst(store[..n], id, uid);
      assert forall i :: 0 <= i < n ==> store[..n][i] == store[i];
    }
  }

  predicate Given(r: Store, size: nat, tries: seq<Attempt>) {
    forall i :: size <= i < |r| ==> exists j :: 0 <= j < |tries| && r[i].name == tries[j].calls.name
  }

  /** One more attempt, on a store whose first secret of the cache is still that at place `at`. */
  lemma AttemptGrows(before: Store, id: string, c: Cache, t: Attempt, at: nat)
    requires c.secretRef.Some? && FirstOf(before, id, c.uid) == Some(at) && !NameTaken(before, t.calls.name)
    ensures var data, r := before[at].data, SyncOne(before, id, c, t.secrets, t.calls).store;
      && |r| == |before| + Added(c, data, t)
      && r[at] == before[at].(dirty := before[at].dirty || Marks(c, data, t))
      && (forall i :: 0 <= i < |before| && i != at ==> r[i] == before[i])
      && (|r| > |before| ==> r[|before|] == NewSecret(id, c, Source(c, t.secrets).value, t.calls.name))
  {
  }

  lemma GrownOnce(store: Store, before: Store, r: Store, id: string, c: Cache, t: Attempt, marked: bool, n: nat)
    requires c.secretRef.Some? && FirstOf(store, id, c.uid).Some? && Grown(store, before, id, c, marked, n)
    requires !NameTaken(before, t.calls.name) && Contains(t.calls.name, PREFIX)
    requires r == SyncOne(before, id, c, t.secrets, t.calls).store
    ensures var data := store[FirstOf(store, id, c.uid).value].data;
      Grown(store, r, id, c, marked || Marks(c, data, t), n + Added(c, data, t))
  {
    FirstStays(store, before, id, c, marked, n);
    AttemptGrows(before, id, c, t, FirstOf(store, id, c.uid).value);
  }

  lemma {:induction false} AttemptsGrow(store: Store, id: string, c: Cache, tries: seq<Attempt>)
    requires Starts(store, id, c) && FreshNames(store, tries)
    ensures var r, data := Attempts(store, id, c, tries), store[FirstOf(store, id, c.uid).value].data;
      && Grown(store, r, id, c, EverMarks(c, data, tries), Replacements(c, data, tries))
      && Given(r, |store|, tries) && UniqueIn(r)
  {
    if tries != [] {
      var n, data := |tries| - 1, store[FirstOf(store, id, c.uid).value].data;
      var front, t := tries[..n], tries[n];
      AttemptsGrow(store, id, c, front);
      var before, r := Attempts(store, id, c, front), Attempts(store, id, c, tries);
      NameIsFresh(store, before, tries);
      GrownOnce(store, before, r, id, c, t, EverMarks(c, data, front), Replacements(c, data, front));
      EverMarksStep(c, data, tries);
      FirstStays(store, before, id, c, EverMarks(c, data, front), Replacements(c, data, front));
      AttemptGrows(before, id, c, t, FirstOf(store, id, c.uid).value);
      NamesStay(before, r, tries, |store|);
    }
  }

  lemma EverMarksStep(c: Cache, data: Data, tries: seq<Attempt>)
    requires c.secretRef.Some? && tries != []
    ensures EverMarks(c, data, tries) <==> EverMarks(c, data, tries[..|tries| - 1]) || Marks(c, data, tries[|tries| - 1])
  {
    assert forall i :: 0 <= i < |tries| - 1 ==> tries[..|tries| - 1][i] == tries[i];
  }

  lemma NamesStay(before: Store, r: Store, tries: seq<Attempt>, size: nat)
    requires tries != [] && Given(before, size, tries[..|tries| - 1]) && UniqueIn(before)
    requires !NameTaken(before, tries[|tries| - 1].calls.name)
    requires |before| <= |r| <= |before| + 1 && forall i :: 0 <= i < |before| ==> r[i].name == before[i].name
    requires |r| > |before| ==> r[|before|].name == tries[|tries| - 1].calls.name
    ensures Given(r, size, tries) && UniqueIn(r)
  {
    var n := |tries| - 1;
    forall i | size <= i < |r| ensures exists j :: 0 <= j < |tries| && r[i].name == tries[j].calls.name {
      if i < |before| {
        var j :| 0 <= j < n && before[i].name == tries[..n][j].calls.name;
        assert tries[j] == tries[..n][j];
      } else {
        assert r[i].name == tries[n].calls.name;
      }
    }
  }

  predicate UniqueIn(store: Store) {
    forall i, j :: 0 <= i < j < |store| ==> store[i].name != store[j].name
  }

  lemma NameIsFresh(store: Store, before: Store, tries: seq<Attempt>)
    requires tries != [] && FreshNames(store, tries) && |before| >= |store|
    requires forall i :: 0 <= i < |store| ==> before[i].name == store[i].name
    requires Given(before, |store|, tries[..|tries| - 1])
    ensures !NameTaken(before, tries[|tries| - 1].calls.name)
  {
    var n := |tries| - 1;
    forall i | 0 <= i < |before| ensures before[i].name != tries[n].calls.name {
      if i >= |store| {
        var j :| 0 <= j < n && before[i].name == tries[..n][j].calls.name;
        assert tries[j] == tries[..n][j];
      }
    }
  }

  /**
   From a store with one secret of a cache, a clean one, attempts to sync that cache leave the
   store well-formed exactly when at most one of them replaces that secret: all compare the data
   with the secret that comes first, and that stays the same until it is deleted.
   */
  lemma AtMostOneReplacement(store: Store, id: string, c: Cache, tries: seq<Attempt>)
    requires Starts(store, id, c) && FreshNames(store, tries)
    ensures WellFormed(Attempts(store, id, c, tries), id) <==>
            Replacements(c, store[FirstOf(store, id, c.uid).value].data, tries) <= 1
  {
    var r, at := Attempts(store, id, c, tries), FirstOf(store, id, c.uid).value;
    var data := store[at].data;
    AttemptsGrow(store, id, c, tries);
    var n := |store|;
    if Replacements(c, data, tries) >= 2 {
      assert IsNew(r[n], id, c, data) && IsNew(r[n + 1], id, c, data);
    } else {
      if |r| == n + 1 { OneReplacementMarks(c, data, tries); }
      forall i | 0 <= i < n && Of(store[i], id, c.uid) ensures i == at { OneClean(store, id, i, at); }
    }
  }

  lemma {:induction false} OneReplacementMarks(c: Cache, data: Data, tries: seq<Attempt>)
    requires c.secretRef.Some? && Replacements(c, data, tries) > 0
    ensures EverMarks(c, data, tries)
  {
    var n := |tries| - 1;
    if !Marks(c, data, tries[n]) {
      OneReplacementMarks(c, data, tries[..n]);
      var i :| 0 <= i < n && Marks(c, data, tries[..n][i]);
      assert tries[i] == tries[..n][i];
    }
  }

  /**
   The cache is served with what the last attempt, if it went through, found in the runtime
   cluster, unless that is what the first secret has and an earlier attempt has marked it.
   */
  lemma {:induction false} LastIsServed(store: Store, id: string, c: Cache, tries: seq<Attempt>)
    requires Starts(store, id, c) && FreshNames(store, tries) && tries != []
    requires var t := tries[|tries| - 1];
      SyncOne(Attempts(store, id, c, tries[..|tries| - 1]), id, c, t.secrets, t.calls).ok
    ensures var data, t := store[FirstOf(store, id, c.uid).value].data, tries[|tries| - 1];
      Serves(Attempts(store, id, c, tries), id, c.uid, Source(c, t.secrets).value) <==>
        !(Source(c, t.secrets).value == data && EverMarks(c, data, tries[..|tries| - 1]))
  {
    var n, at := |tries| - 1, FirstOf(store, id, c.uid).value;
    var front, t, data := tries[..n], tries[n], store[at].data;
    var before := Attempts(store, id, c, front);
    AttemptsGrow(store, id, c, front);
    FirstStays(store, before, id, c, EverMarks(c, data, front), Replacements(c, data, front));
    DirtyFirstMayUnserve(before, id, c, t.secrets, t.calls);
    if Source(c, t.secrets).value == data {
      forall i | 0 <= i < |store| && Of(store[i], id, c.uid) ensures i == at { OneClean(store, id, i, at); }
    }
  }

  /** Where there was no secret of the cache, its first copy is such a start. */
  lemma FirstCopyStarts(store: Store, id: string, c: Cache, t: Attempt)
    requires c.secretRef.Some? && c.uid != "" && WellFormed(store, id) && FirstOf(store, id, c.uid).None?
    requires Contains(t.calls.name, PREFIX) && SyncOne(store, id, c, t.secrets, t.calls).ok
    ensures var r := SyncOne(store, id, c, t.secrets, t.calls).store;
      Starts(r, id, c) && r[FirstOf(r, id, c.uid).value].data == Source(c, t.secrets).value
  {
    var r := SyncOne(store, id, c, t.secrets, t.calls).store;
    var s := NewSecret(id, c, Source(c, t.secrets).value, t.calls.name);
    assert r == store + [s];
    AppendedIsFirst(store, id, c.uid, s);
  }

  lemma AppendedIsFirst(store: Store, id: string, uid: string, s: Secret)
    requires FirstOf(store, id, uid).None? && Of(s, id, uid)
    ensures FirstOf(store + [s], id, uid) == Some(|store|)
  {
    assert (store + [s])[..|store|] == store;
  }

  /**
   Three syncs that find different data, and no clean-up between them, give a cache that had no
   secret two clean ones.
   */
  lemma ThreeSyncsDuplicate(id: string, c: Cache, first: Attempt, second: Attempt, third: Attempt)
    requires c.secretRef.Some? && c.uid != "" && FreshNames([], [first, second, third])
    requires AllWork(c, first) && AllWork(c, second) && AllWork(c, third)
    requires Source(c, second.secrets) != Source(c, first.secrets) && Source(c, third.secrets) != Source(c, first.secrets)
    ensures !WellFormed(Attempts([], id, c, [first, second, third]), id)
  {
    var data := Source(c, first.secrets).value;
    var store := SyncOne([], id, c, first.secrets, first.calls).store;
    FreshRest(first, second, third);
    FirstCopyStarts([], id, c, first);
    assert store == [NewSecret(id, c, data, first.calls.name)];
    AtMostOneReplacement(store, id, c, [second, third]);
    TwoReplacements(c, data, second, third);
    AttemptsInOrder(id, c, first, second, third);
  }

  lemma TwoReplacements(c: Cache, data: Data, second: Attempt, third: Attempt)
    requires c.secretRef.Some? && Added(c, data, second) == 1 && Added(c, data, third) == 1
    ensures Replacements(c, data, [second, third]) == 2
  {
    assert [second, third][..1] == [second] && [second][..0] == [];
    assert Replacements(c, data, []) == 0 && Replacements(c, data, [second]) == 1;
  }

  predicate AllWork(c: Cache, t: Attempt)
    requires c.secretRef.Some?
  {
    t.calls.listWorks && t.calls.patchWorks && t.calls.createWorks && Source(c, t.secrets).Some?
  }

  lemma FreshRest(first: Attempt, second: Attempt, third: Attempt)
    requires FreshNames([], [first, second, third])
    ensures Contains(first.calls.name, PREFIX)
    ensures forall s: Secret :: s.name == first.calls.name ==> FreshNames([s], [second, third])
  {
    var all := [first, second, third];
    assert all[0] == first && all[1] == second && all[2] == third;
  }

  lemma AttemptsInOrder(id: string, c: Cache, first: Attempt, second: Attempt, third: Attempt)
    requires c.secretRef.Some?
    ensures Attempts([], id, c, [first, second, third]) ==
            Attempts(SyncOne([], id, c, first.secrets, first.calls).store, id, c, [second, third])
  {
    var store := SyncOne([], id, c, first.secrets, first.calls).store;
    assert [first, second, third][..2] == [first, second] && [first, second][..1] == [first] && [first][..0] == [];
    assert [second, third][..1] == [second] && [second][..0] == [];
    assert Attempts([], id, c, [first]) == store;
    assert Attempts(store, id, c, []) == store;
    assert Attempts([], id, c, [first, second]) == Attempts(store, id, c, [second]);
  }
}
