/**
 Secrets of registry caches: copied from the runtime cluster into the garden cluster, named by
 the shoot, and cleaned up afterwards.  Garden secrets are immutable, so a change makes the old
 one dirty and creates another.
 */
module RegistryCache {
  import opened Wrappers

  type Data = map<string, string>

  /** uid is the cache's; an absent label reads as "". */
  datatype Secret = Secret(name: string, runtimeId: string, uid: string, managed: bool, dirty: bool, data: Data)

  type Store = seq<Secret>

  /** secretRef is None where the reference is missing or empty. */
  datatype Cache = Cache(uid: string, secretRef: Option<string>, namespace: string)

  /** The secrets of the runtime cluster by namespace and name. */
  type RuntimeSecrets = map<(string, string), Data>

  /** What the garden API answers while one cache is synced, and the name the generator gives. */
  datatype Calls = Calls(listWorks: bool, patchWorks: bool, createWorks: bool, name: string)

  datatype Outcome = Outcome(store: Store, ok: bool)

  const PREFIX: string := "reg-cache-"

  predicate OccursAt(s: string, part: string, i: nat) {
    i + |part| <= |s| && s[i..i + |part|] == part
  }

  predicate Contains(s: string, part: string) {
    exists i :: 0 <= i <= |s| && OccursAt(s, part, i)
  }

  function WithSecret(caches: seq<Cache>): (r: seq<Cache>)
    ensures forall c :: c in r <==> c in caches && c.secretRef.Some?
    ensures forall i :: 0 <= i < |r| ==> r[i].secretRef.Some?
    decreases |caches|
  {
    if caches == [] then []
    else
      var rest := WithSecret(caches[..|caches| - 1]);
      var c := caches[|caches| - 1];
      assert forall d :: d in caches <==> d in caches[..|caches| - 1] || d == c;
      if c.secretRef.Some? then rest + [c] else rest
  }

  // ---- syncing one cache ----

  predicate Of(s: Secret, id: string, uid: string) {
    s.runtimeId == id && s.uid == uid
  }

  /** The place of the first secret of a cache, whether dirty or not. */
  function FirstOf(store: Store, id: string, uid: string): (r: Option<nat>)
    ensures r.Some? ==> r.value < |store| && Of(store[r.value], id, uid)
    ensures r.None? ==> forall i :: 0 <= i < |store| ==> !Of(store[i], id, uid)
  {
    if store == [] then None
    else
      var front := FirstOf(store[..|store| - 1], id, uid);
      if front.Some? then front
      else
        assert forall i :: 0 <= i < |store| - 1 ==> store[..|store| - 1][i] == store[i];
        if Of(store[|store| - 1], id, uid) then Some(|store| - 1) else None
  }

  predicate NameTaken(store: Store, name: string) {
    exists i :: 0 <= i < |store| && store[i].name == name
  }

  function NewSecret(id: string, c: Cache, data: Data, name: string): Secret {
    Secret(name, id, c.uid, true, false, data)
  }

  function Create(store: Store, s: Secret, works: bool): Outcome {
    if !works || NameTaken(store, s.name) then Outcome(store, false) else Outcome(store + [s], true)
  }

  function Source(c: Cache, secrets: RuntimeSecrets): Option<Data>
    requires c.secretRef.Some?
  {
    if (c.namespace, c.secretRef.value) in secrets then Some(secrets[(c.namespace, c.secretRef.value)]) else None
  }

  function SyncOne(store: Store, id: string, c: Cache, secrets: RuntimeSecrets, calls: Calls): Outcome
    requires c.secretRef.Some?
  {
    if !calls.listWorks then Outcome(store, false)
    else
      var first, data := FirstOf(store, id, c.uid), Source(c, secrets);
      if data.None? then Outcome(store, false)
      else if first.None? then Create(store, NewSecret(id, c, data.value, calls.name), calls.createWorks)
      else if store[first.value].data == data.value then Outcome(store, true)
      else if !calls.patchWorks then Outcome(store, false)
      else
        var marked := store[first.value := store[first.value].(dirty := true)];
        Create(marked, NewSecret(id, c, data.value, calls.name), calls.createWorks)
  }

  /** The first n caches in order, up to the first failure. */
  function SyncTo(store: Store, id: string, caches: seq<Cache>, secrets: RuntimeSecrets, calls: seq<Calls>, n: nat): Outcome
    requires |calls| == |caches| && n <= |caches| && forall i :: 0 <= i < |caches| ==> caches[i].secretRef.Some?
  {
    if n == 0 then Outcome(store, true)
    else
      var before := SyncTo(store, id, caches, secrets, calls, n - 1);
      if before.ok then SyncOne(before.store, id, caches[n - 1], secrets, calls[n - 1]) else before
  }

  function SyncAll(store: Store, id: string, caches: seq<Cache>, secrets: RuntimeSecrets, calls: seq<Calls>): Outcome
    requires |calls| == |caches| && forall i :: 0 <= i < |caches| ==> caches[i].secretRef.Some?
  {
    SyncTo(store, id, caches, secrets, calls, |caches|)
  }

  // ---- the index, the clean-up and the renderers ----

  predicate Listed(s: Secret, id: string) {
    s.runtimeId == id && s.managed
  }

  /** Clean secrets by cache; of several the last counts. */
  function NamesByUid(store: Store, id: string): map<string, string> {
    if store == [] then map[]
    else
      var rest := NamesByUid(store[..|store| - 1], id);
      var s := store[|store| - 1];
      if Listed(s, id) && !s.dirty && s.uid != "" then rest[s.uid := s.name] else rest
  }

  /** A Go map answers "" for a key it does not hold. */
  function Lookup(names: map<string, string>, uid: string): string {
    if uid in names then names[uid] else ""
  }

  predicate UidExists(uid: string, caches: seq<Cache>) {
    exists i :: 0 <= i < |caches| && caches[i].uid == uid
  }

  predicate Unused(s: Secret, id: string, caches: seq<Cache>) {
    Listed(s, id) && (s.dirty || (s.uid != "" && !UidExists(s.uid, WithSecret(caches))))
  }

  function Filter(store: Store, keep: Secret -> bool): (r: Store)
    ensures forall s :: s in r <==> s in store && keep(s)
  {
    if store == [] then []
    else
      var rest := Filter(store[..|store| - 1], keep);
      var s := store[|store| - 1];
      assert forall t :: t in store <==> t in store[..|store| - 1] || t == s;
      if keep(s) then rest + [s] else rest
  }

  function DeleteUnusedFrom(store: Store, id: string, caches: seq<Cache>): Store {
    Filter(store, s => !Unused(s, id, caches))
  }

  /** A resource of the shoot: its own name, and the name of the secret it stands for. */
  datatype Resource = Resource(name: string, secret: string)

  function KeepForeign(resources: seq<Resource>): (r: seq<Resource>)
    ensures forall x :: x in r <==> x in resources && !Contains(x.name, PREFIX)
  {
    if resources == [] then []
    else
      var rest := KeepForeign(resources[..|resources| - 1]);
      var x := resources[|resources| - 1];
      assert forall y :: y in resources <==> y in resources[..|resources| - 1] || y == x;
      if Contains(x.name, PREFIX) then rest else rest + [x]
  }

  /** One resource for every cache with a secret. */
  function CacheResources(caches: seq<Cache>, names: map<string, string>): seq<Resource> {
    if caches == [] then []
    else
      var rest := CacheResources(caches[..|caches| - 1], names);
      var c := caches[|caches| - 1];
      if c.secretRef.None? then rest else rest + [Resource(Lookup(names, c.uid), Lookup(names, c.uid))]
  }

  function RenderResources(resources: seq<Resource>, caches: seq<Cache>, names: map<string, string>): seq<Resource> {
    KeepForeign(resources) + CacheResources(caches, names)
  }

  /** What the extension's entry for each cache refers to. */
  function RenderReferences(caches: seq<Cache>, names: map<string, string>): (r: seq<Option<string>>)
    ensures |r| == |caches|
    ensures forall i :: 0 <= i < |caches| ==> r[i] == if caches[i].secretRef.None? then None else Some(Lookup(names, caches[i].uid))
  {
    if caches == [] then []
    else
      var c := caches[|caches| - 1];
      RenderReferences(caches[..|caches| - 1], names) + [if c.secretRef.None? then None else Some(Lookup(names, c.uid))]
  }

  // ---- the invariant ----

  predicate Mine(s: Secret, id: string) {
    s.runtimeId == id && s.uid != ""
  }

  /** Names are unique, and a runtime's secrets are labelled, named and at most once clean per cache. */
  predicate WellFormed(store: Store, id: string) {
    && (forall i, j :: 0 <= i < j < |store| ==> store[i].name != store[j].name)
    && (forall i :: 0 <= i < |store| && Mine(store[i], id) ==> store[i].managed && Contains(store[i].name, PREFIX))
    && (forall i, j :: 0 <= i < j < |store| && Mine(store[i], id) && Mine(store[j], id) && store[i].uid == store[j].uid ==>
          store[i].dirty || store[j].dirty)
  }

  predicate NoDirty(store: Store, id: string, uid: string) {
    forall i :: 0 <= i < |store| && Of(store[i], id, uid) ==> !store[i].dirty
  }

  predicate DirtyFree(store: Store, id: string) {
    forall i :: 0 <= i < |store| && Mine(store[i], id) ==> !store[i].dirty
  }

  predicate Serves(store: Store, id: string, uid: string, data: Data) {
    exists i :: 0 <= i < |store| && Of(store[i], id, uid) && !store[i].dirty && store[i].data == data
  }

  lemma SyncOneKeeps(store: Store, id: string, c: Cache, secrets: RuntimeSecrets, calls: Calls)
    requires c.secretRef.Some? && c.uid != "" && Contains(calls.name, PREFIX)
    requires WellFormed(store, id) && NoDirty(store, id, c.uid)
    requires SyncOne(store, id, c, secrets, calls).ok
    ensures var r := SyncOne(store, id, c, secrets, calls).store;
      && WellFormed(r, id)
      && Source(c, secrets).Some? && Serves(r, id, c.uid, Source(c, secrets).value)
  {
    var r, first, data := SyncOne(store, id, c, secrets, calls).store, FirstOf(store, id, c.uid), Source(c, secrets).value;
    if first.Some? && store[first.value].data == data {
      assert Of(r[first.value], id, c.uid);
    } else {
      assert Of(r[|r| - 1], id, c.uid) && r[|r| - 1].data == data;
    }
  }

  /** Syncing one cache leaves the others alone. */
  lemma SyncOneSpares(store: Store, id: string, c: Cache, secrets: RuntimeSecrets, calls: Calls, uid: string, data: Data)
    requires c.secretRef.Some? && uid != c.uid
    ensures var r := SyncOne(store, id, c, secrets, calls).store;
      && (NoDirty(store, id, uid) ==> NoDirty(r, id, uid))
      && (Serves(store, id, uid, data) ==> Serves(r, id, uid, data))
  {
    var r := SyncOne(store, id, c, secrets, calls).store;
    if Serves(store, id, uid, data) {
      var i :| 0 <= i < |store| && Of(store[i], id, uid) && !store[i].dirty && store[i].data == data;
      assert r[i] == store[i];
    }
  }

  predicate GoodRound(caches: seq<Cache>, calls: seq<Calls>) {
    && |calls| == |caches|
    && (forall i :: 0 <= i < |caches| ==> caches[i].secretRef.Some? && caches[i].uid != "" && Contains(calls[i].name, PREFIX))
    && (forall i, j :: 0 <= i < j < |caches| ==> caches[i].uid != caches[j].uid)
  }

  predicate AllServed(store: Store, id: string, caches: seq<Cache>, secrets: RuntimeSecrets) {
    ServedTo(store, id, caches, secrets, |caches|)
  }

  lemma {:induction false} SyncSpares(store: Store, id: string, caches: seq<Cache>, secrets: RuntimeSecrets, calls: seq<Calls>, n: nat, uid: string)
    requires |calls| == |caches| && n <= |caches| && forall i :: 0 <= i < |caches| ==> caches[i].secretRef.Some?
    requires forall i :: 0 <= i < n ==> caches[i].uid != uid
    requires NoDirty(store, id, uid)
    ensures NoDirty(SyncTo(store, id, caches, secrets, calls, n).store, id, uid)
  {
    if n > 0 {
      SyncSpares(store, id, caches, secrets, calls, n - 1, uid);
      var before := SyncTo(store, id, caches, secrets, calls, n - 1);
      if before.ok { SyncOneSpares(before.store, id, caches[n - 1], secrets, calls[n - 1], uid, map[]); }
    }
  }

  predicate ServedTo(store: Store, id: string, caches: seq<Cache>, secrets: RuntimeSecrets, n: nat)
    requires n <= |caches|
  {
    forall i :: 0 <= i < n && caches[i].secretRef.Some? ==>
      Source(caches[i], secrets).Some? && Serves(store, id, caches[i].uid, Source(caches[i], secrets).value)
  }

  lemma ServedStays(store: Store, id: string, caches: seq<Cache>, secrets: RuntimeSecrets, calls: Calls, n: nat)
    requires n < |caches| && ServedTo(store, id, caches, secrets, n) && caches[n].secretRef.Some?
    requires forall i :: 0 <= i < n ==> caches[i].uid != caches[n].uid
    ensures ServedTo(SyncOne(store, id, caches[n], secrets, calls).store, id, caches, secrets, n)
  {
    forall i | 0 <= i < n && caches[i].secretRef.Some?
      ensures Serves(SyncOne(store, id, caches[n], secrets, calls).store, id, caches[i].uid, Source(caches[i], secrets).value)
    {
      SyncOneSpares(store, id, caches[n], secrets, calls, caches[i].uid, Source(caches[i], secrets).value);
    }
  }

  /** From a store without dirty secrets a sync that goes through serves every cache, once. */
  lemma {:induction false} SyncKeeps(store: Store, id: string, caches: seq<Cache>, secrets: RuntimeSecrets, calls: seq<Calls>, n: nat)
    requires GoodRound(caches, calls) && n <= |caches| && WellFormed(store, id) && DirtyFree(store, id)
    requires SyncTo(store, id, caches, secrets, calls, n).ok
    ensures var r := SyncTo(store, id, caches, secrets, calls, n).store;
      WellFormed(r, id) && ServedTo(r, id, caches, secrets, n)
  {
    if n > 0 {
      var c := caches[n - 1];
      SyncKeeps(store, id, caches, secrets, calls, n - 1);
      SyncSpares(store, id, caches, secrets, calls, n - 1, c.uid);
      var before := SyncTo(store, id, caches, secrets, calls, n - 1).store;
      SyncOneKeeps(before, id, c, secrets, calls[n - 1]);
      ServedStays(before, id, caches, secrets, calls[n - 1], n - 1);
    }
  }

  // ---- the index answers with the served secret ----

  lemma {:induction false} IndexIsSound(store: Store, id: string, uid: string)
    requires uid in NamesByUid(store, id)
    ensures exists i :: 0 <= i < |store| && Mine(store[i], id) && Of(store[i], id, uid) && !store[i].dirty
                        && store[i].name == NamesByUid(store, id)[uid]
  {
    var n := |store| - 1;
    var s := store[n];
    if Listed(s, id) && !s.dirty && s.uid != "" && s.uid == uid {
      assert Of(store[n], id, uid);
    } else {
      IndexIsSound(store[..n], id, uid);
      var i :| 0 <= i < n && Mine(store[..n][i], id) && Of(store[..n][i], id, uid) && !store[..n][i].dirty
               && store[..n][i].name == NamesByUid(store[..n], id)[uid];
      assert store[i] == store[..n][i];
    }
  }

  lemma {:induction false} IndexIsComplete(store: Store, id: string, i: nat)
    requires i < |store| && Mine(store[i], id) && store[i].managed && !store[i].dirty
    ensures store[i].uid in NamesByUid(store, id)
  {
    if i < |store| - 1 {
      assert store[..|store| - 1][i] == store[i];
      IndexIsComplete(store[..|store| - 1], id, i);
    }
  }

  lemma OneClean(store: Store, id: string, i: nat, j: nat)
    requires WellFormed(store, id) && i < |store| && j < |store|
    ensures Mine(store[i], id) && Mine(store[j], id) && store[i].uid == store[j].uid && !store[i].dirty && !store[j].dirty ==> i == j
  {
    if i < j { } else if j < i { }
  }

  lemma OneName(store: Store, id: string, i: nat, j: nat)
    requires WellFormed(store, id) && i < |store| && j < |store|
    ensures store[i].name == store[j].name ==> i == j
  {
    if i < j { } else if j < i { }
  }

  /** In a well-formed store the index is exactly the map from caches to their clean secrets. */
  lemma IndexIsExact(store: Store, id: string, i: nat)
    requires WellFormed(store, id) && i < |store| && Mine(store[i], id) && !store[i].dirty
    ensures store[i].uid in NamesByUid(store, id) && NamesByUid(store, id)[store[i].uid] == store[i].name
  {
    IndexIsComplete(store, id, i);
    IndexIsSound(store, id, store[i].uid);
    var j :| 0 <= j < |store| && Mine(store[j], id) && Of(store[j], id, store[i].uid) && !store[j].dirty
             && store[j].name == NamesByUid(store, id)[store[i].uid];
    OneClean(store, id, i, j);
  }

  // ---- the shoot ----

  predicate UidsDiffer(caches: seq<Cache>) {
    forall i, j :: 0 <= i < j < |caches| ==> caches[i].uid != caches[j].uid
  }

  /** A reference of the extension names a clean garden secret with the data of the runtime secret. */
  lemma ReferenceNamesCleanSecret(store: Store, id: string, caches: seq<Cache>, secrets: RuntimeSecrets, i: nat)
    requires WellFormed(store, id) && AllServed(store, id, caches, secrets)
    requires i < |caches| && caches[i].secretRef.Some? && caches[i].uid != ""
    ensures var ref := RenderReferences(caches, NamesByUid(store, id))[i];
      && ref.Some? && Contains(ref.value, PREFIX)
      && exists k :: 0 <= k < |store| && store[k].name == ref.value && Of(store[k], id, caches[i].uid) && !store[k].dirty
                     && store[k].data == Source(caches[i], secrets).value
  {
    var data := Source(caches[i], secrets).value;
    var k :| 0 <= k < |store| && Of(store[k], id, caches[i].uid) && !store[k].dirty && store[k].data == data;
    IndexIsExact(store, id, k);
  }

  /** Different caches are served by different secrets. */
  lemma NamesDiffer(store: Store, id: string, caches: seq<Cache>, secrets: RuntimeSecrets, i: nat, j: nat)
    requires WellFormed(store, id) && AllServed(store, id, caches, secrets) && UidsDiffer(caches)
    requires i < j < |caches| && caches[i].secretRef.Some? && caches[j].secretRef.Some? && caches[i].uid != "" && caches[j].uid != ""
    ensures Lookup(NamesByUid(store, id), caches[i].uid) != Lookup(NamesByUid(store, id), caches[j].uid)
  {
    ReferenceNamesCleanSecret(store, id, caches, secrets, i);
    ReferenceNamesCleanSecret(store, id, caches, secrets, j);
    var names := NamesByUid(store, id);
    var k :| 0 <= k < |store| && store[k].name == Lookup(names, caches[i].uid) && Of(store[k], id, caches[i].uid);
    var l :| 0 <= l < |store| && store[l].name == Lookup(names, caches[j].uid) && Of(store[l], id, caches[j].uid);
    OneName(store, id, k, l);
  }

  /** n is the reference of one of the caches. */
  predicate Referenced(caches: seq<Cache>, names: map<string, string>, n: string) {
    exists i :: 0 <= i < |caches| && caches[i].secretRef.Some? && Lookup(names, caches[i].uid) == n
  }

  predicate Has(resources: seq<Resource>, n: string) {
    exists k :: 0 <= k < |resources| && resources[k].name == n
  }

  lemma {:induction false} ResourcesAreReferenced(caches: seq<Cache>, names: map<string, string>, n: string)
    ensures Has(CacheResources(caches, names), n) <==> Referenced(caches, names, n)
    ensures forall k :: 0 <= k < |CacheResources(caches, names)| ==> CacheResources(caches, names)[k].secret == CacheResources(caches, names)[k].name
    decreases |caches|
  {
    if caches != [] {
      var m := |caches| - 1;
      ResourcesAreReferenced(caches[..m], names, n);
      if Referenced(caches[..m], names, n) {
        var i :| 0 <= i < m && caches[..m][i].secretRef.Some? && Lookup(names, caches[..m][i].uid) == n;
        assert caches[i] == caches[..m][i];
        var k :| 0 <= k < |CacheResources(caches[..m], names)| && CacheResources(caches[..m], names)[k].name == n;
        assert CacheResources(caches, names)[k].name == n;
      } else if Referenced(caches, names, n) {
        var i :| 0 <= i < |caches| && caches[i].secretRef.Some? && Lookup(names, caches[i].uid) == n;
        if i < m { assert caches[..m][i] == caches[i]; }
        assert CacheResources(caches, names)[|CacheResources(caches, names)| - 1].name == n;
      }
    }
  }

  predicate NamesApart(caches: seq<Cache>, names: map<string, string>) {
    forall i, j :: 0 <= i < j < |caches| && caches[i].secretRef.Some? && caches[j].secretRef.Some? ==>
      Lookup(names, caches[i].uid) != Lookup(names, caches[j].uid)
  }

  lemma {:induction false} ResourcesAreDistinct(caches: seq<Cache>, names: map<string, string>)
    requires NamesApart(caches, names)
    ensures var r := CacheResources(caches, names); forall k, l :: 0 <= k < l < |r| ==> r[k].name != r[l].name
    decreases |caches|
  {
    if caches != [] {
      var m := |caches| - 1;
      var front, c := caches[..m], caches[m];
      assert forall i :: 0 <= i < m ==> front[i] == caches[i];
      ResourcesAreDistinct(front, names);
      if c.secretRef.Some? {
        ResourcesAreReferenced(front, names, Lookup(names, c.uid));
        assert !Referenced(front, names, Lookup(names, c.uid));
      }
    }
  }

  /** Exactly one resource has the name n, and it stands for the secret n. */
  predicate OnceIn(r: seq<Resource>, n: string) {
    exists k :: 0 <= k < |r| && r[k] == Resource(n, n) && forall l :: 0 <= l < |r| && r[l].name == n ==> l == k
  }

  /**
   After a sync, the resources and the extension of the shoot agree: a name with the cache prefix
   is a resource exactly when a cache refers to it, and then exactly once; all other resources
   are kept as they were, in order, in front.
   */
  lemma RenderersAgree(store: Store, id: string, caches: seq<Cache>, secrets: RuntimeSecrets, resources: seq<Resource>, n: string)
    requires WellFormed(store, id) && AllServed(store, id, caches, secrets) && UidsDiffer(caches)
    requires forall i :: 0 <= i < |caches| ==> caches[i].uid != ""
    ensures var names := NamesByUid(store, id); var r := RenderResources(resources, caches, names);
      && KeepForeign(resources) <= r
      && (Contains(n, PREFIX) ==> (Has(r, n) <==> Referenced(caches, names, n)))
      && (Referenced(caches, names, n) ==> Contains(n, PREFIX) && OnceIn(r, n))
  {
    var names := NamesByUid(store, id);
    ServedNamesApart(store, id, caches, secrets);
    ResourcesAreReferenced(caches, names, n);
    if Referenced(caches, names, n) {
      var i :| 0 <= i < |caches| && caches[i].secretRef.Some? && Lookup(names, caches[i].uid) == n;
      ReferenceNamesCleanSecret(store, id, caches, secrets, i);
      ReferencedOnce(resources, caches, names, n);
    }
    if Contains(n, PREFIX) { PrefixedIsOwn(resources, caches, names, n); }
  }

  lemma ServedNamesApart(store: Store, id: string, caches: seq<Cache>, secrets: RuntimeSecrets)
    requires WellFormed(store, id) && AllServed(store, id, caches, secrets) && UidsDiffer(caches)
    requires forall i :: 0 <= i < |caches| ==> caches[i].uid != ""
    ensures NamesApart(caches, NamesByUid(store, id))
  {
    var names := NamesByUid(store, id);
    forall i, j | 0 <= i < j < |caches| && caches[i].secretRef.Some? && caches[j].secretRef.Some?
      ensures Lookup(names, caches[i].uid) != Lookup(names, caches[j].uid)
    {
      NamesDiffer(store, id, caches, secrets, i, j);
    }
  }

  lemma ReferencedOnce(resources: seq<Resource>, caches: seq<Cache>, names: map<string, string>, n: string)
    requires NamesApart(caches, names) && Referenced(caches, names, n) && Contains(n, PREFIX)
    ensures OnceIn(RenderResources(resources, caches, names), n)
  {
    ResourcesAreDistinct(caches, names);
    ResourcesAreReferenced(caches, names, n);
    var kept, own := KeepForeign(resources), CacheResources(caches, names);
    var r := RenderResources(resources, caches, names);
    var k :| 0 <= k < |own| && own[k].name == n;
    assert r[|kept| + k] == Resource(n, n);
    forall l | 0 <= l < |kept| ensures r[l].name != n { assert kept[l] in kept; }
    forall l | |kept| <= l < |r| && r[l].name == n ensures l == |kept| + k { OneOf(own, l - |kept|, k); }
  }

  lemma PrefixedIsOwn(resources: seq<Resource>, caches: seq<Cache>, names: map<string, string>, n: string)
    requires Contains(n, PREFIX)
    ensures Has(RenderResources(resources, caches, names), n) <==> Has(CacheResources(caches, names), n)
  {
    var kept, own := KeepForeign(resources), CacheResources(caches, names);
    var r := RenderResources(resources, caches, names);
    forall k | 0 <= k < |kept| ensures r[k].name != n { assert kept[k] in kept; }
    forall k | 0 <= k < |own| ensures r[|kept| + k] == own[k] { }
    if Has(r, n) {
      var l :| 0 <= l < |r| && r[l].name == n;
      assert own[l - |kept|] == r[l];
    }
  }

  lemma OneOf(own: seq<Resource>, k: nat, l: nat)
    requires forall i, j :: 0 <= i < j < |own| ==> own[i].name != own[j].name
    requires k < |own| && l < |own|
    ensures own[k].name == own[l].name ==> k == l
  {
    if k < l { } else if l < k { }
  }

  // ---- cleaning up ----

  /** Filtering keeps the order: where two kept secrets come from. */
  lemma {:induction false} FilterPair(store: Store, keep: Secret -> bool, i: nat, j: nat) returns (k: nat, l: nat)
    requires i < j < |Filter(store, keep)|
    ensures k < l < |store| && store[k] == Filter(store, keep)[i] && store[l] == Filter(store, keep)[j]
  {
    var n := |store| - 1;
    var front := store[..n];
    var rest := Filter(front, keep);
    if j < |rest| {
      k, l := FilterPair(front, keep, i, j);
    } else {
      assert rest[i] in rest;
      k :| 0 <= k < n && front[k] == rest[i];
      l := n;
    }
  }

  lemma FilterKeepsWellFormed(store: Store, id: string, keep: Secret -> bool)
    requires WellFormed(store, id)
    ensures WellFormed(Filter(store, keep), id)
  {
    var r := Filter(store, keep);
    forall i | 0 <= i < |r| && Mine(r[i], id) ensures r[i].managed && Contains(r[i].name, PREFIX) {
      assert r[i] in r;
      var k :| 0 <= k < |store| && store[k] == r[i];
    }
    forall i, j | 0 <= i < j < |r|
      ensures r[i].name != r[j].name
      ensures Mine(r[i], id) && Mine(r[j], id) && r[i].uid == r[j].uid ==> r[i].dirty || r[j].dirty
    {
      var k, l := FilterPair(store, keep, i, j);
    }
  }

  /**
   Cleaning up keeps every secret the shoot refers to, and leaves a store without dirty secrets
   in which every secret belongs to a cache.
   */
  lemma DeleteUnusedRestores(store: Store, id: string, caches: seq<Cache>, secrets: RuntimeSecrets)
    requires WellFormed(store, id) && AllServed(store, id, caches, secrets)
    ensures var r := DeleteUnusedFrom(store, id, caches);
      && WellFormed(r, id) && DirtyFree(r, id) && AllServed(r, id, caches, secrets)
      && forall s :: s in r && Mine(s, id) ==> UidExists(s.uid, WithSecret(caches))
  {
    var r := DeleteUnusedFrom(store, id, caches);
    FilterKeepsWellFormed(store, id, s => !Unused(s, id, caches));
    forall i | 0 <= i < |r| && Mine(r[i], id) ensures !r[i].dirty && UidExists(r[i].uid, WithSecret(caches)) {
      assert r[i] in r;
      var k :| 0 <= k < |store| && store[k] == r[i];
      assert store[k].managed;
    }
    forall i | 0 <= i < |caches| && caches[i].secretRef.Some?
      ensures Serves(r, id, caches[i].uid, Source(caches[i], secrets).value)
    {
      var data := Source(caches[i], secrets).value;
      var k :| 0 <= k < |store| && Of(store[k], id, caches[i].uid) && !store[k].dirty && store[k].data == data;
      assert caches[i] in WithSecret(caches);
      var m :| 0 <= m < |WithSecret(caches)| && WithSecret(caches)[m] == caches[i];
      assert store[k] in r;
      var l :| 0 <= l < |r| && r[l] == store[k];
    }
  }

  // ---- any number of cycles ----

  datatype Round = Round(caches: seq<Cache>, secrets: RuntimeSecrets, calls: seq<Calls>)

  predicate Valid(round: Round) {
    && GoodRound(WithSecret(round.caches), round.calls)
    && UidsDiffer(round.caches) && forall i :: 0 <= i < |round.caches| ==> round.caches[i].uid != ""
  }

  function Cycle(store: Store, id: string, round: Round): Outcome
    requires Valid(round)
  {
    var synced := SyncAll(store, id, WithSecret(round.caches), round.secrets, round.calls);
    if synced.ok then Outcome(DeleteUnusedFrom(synced.store, id, round.caches), true) else synced
  }

  function Cycles(store: Store, id: string, rounds: seq<Round>): Outcome
    requires forall i :: 0 <= i < |rounds| ==> Valid(rounds[i])
    decreases |rounds|
  {
    if rounds == [] then Outcome(store, true)
    else
      var before := Cycles(store, id, rounds[..|rounds| - 1]);
      if before.ok then Cycle(before.store, id, rounds[|rounds| - 1]) else before
  }

  lemma ServedWithSecret(store: Store, id: string, caches: seq<Cache>, secrets: RuntimeSecrets)
    requires AllServed(store, id, WithSecret(caches), secrets)
    ensures AllServed(store, id, caches, secrets)
  {
    forall i | 0 <= i < |caches| && caches[i].secretRef.Some?
      ensures Source(caches[i], secrets).Some? && Serves(store, id, caches[i].uid, Source(caches[i], secrets).value)
    {
      assert caches[i] in WithSecret(caches);
      var m :| 0 <= m < |WithSecret(caches)| && WithSecret(caches)[m] == caches[i];
    }
  }

  lemma CycleKeeps(store: Store, id: string, round: Round)
    requires Valid(round) && WellFormed(store, id) && DirtyFree(store, id) && Cycle(store, id, round).ok
    ensures var r := Cycle(store, id, round).store;
      WellFormed(r, id) && DirtyFree(r, id) && AllServed(r, id, round.caches, round.secrets)
  {
    var synced := SyncAll(store, id, WithSecret(round.caches), round.secrets, round.calls).store;
    SyncKeeps(store, id, WithSecret(round.caches), round.secrets, round.calls, |WithSecret(round.caches)|);
    ServedWithSecret(synced, id, round.caches, round.secrets);
    DeleteUnusedRestores(synced, id, round.caches, round.secrets);
  }

  /** However many rounds go through, the store stays well-formed and serves the caches of the last. */
  lemma {:induction false} CyclesKeep(store: Store, id: string, rounds: seq<Round>)
    requires forall i :: 0 <= i < |rounds| ==> Valid(rounds[i])
    requires WellFormed(store, id) && DirtyFree(store, id) && Cycles(store, id, rounds).ok
    ensures var r := Cycles(store, id, rounds).store;
      && WellFormed(r, id) && DirtyFree(r, id)
      && (rounds != [] ==> AllServed(r, id, rounds[|rounds| - 1].caches, rounds[|rounds| - 1].secrets))
    decreases |rounds|
  {
    if rounds != [] {
      var n := |rounds| - 1;
      CyclesKeep(store, id, rounds[..n]);
      CycleKeeps(Cycles(store, id, rounds[..n]).store, id, rounds[n]);
    }
  }

  // ---- where dirty secrets are left over ----

  predicate HasClean(store: Store, id: string, uid: string) {
    exists i :: 0 <= i < |store| && Of(store[i], id, uid) && !store[i].dirty
  }

  /**
   Syncing looks at the first secret of a cache without asking whether it is dirty.  If that
   one is dirty and out of date while a clean one exists, the cache gets a second clean secret;
   in every other case a sync that goes through leaves at most one.
   */
  lemma DirtyFirstDuplicates(store: Store, id: string, c: Cache, secrets: RuntimeSecrets, calls: Calls)
    requires c.secretRef.Some? && c.uid != "" && Contains(calls.name, PREFIX) && WellFormed(store, id)
    requires SyncOne(store, id, c, secrets, calls).ok
    ensures var first := FirstOf(store, id, c.uid);
      WellFormed(SyncOne(store, id, c, secrets, calls).store, id) <==>
        !(first.Some? && store[first.value].dirty && store[first.value].data != Source(c, secrets).value && HasClean(store, id, c.uid))
  {
    var first, r := FirstOf(store, id, c.uid), SyncOne(store, id, c, secrets, calls).store;
    if first.Some? && store[first.value].data != Source(c, secrets).value {
      var n := |r| - 1;
      assert Of(r[n], id, c.uid) && Mine(r[n], id) && !r[n].dirty;
      if store[first.value].dirty && HasClean(store, id, c.uid) {
        var i :| 0 <= i < |store| && Of(store[i], id, c.uid) && !store[i].dirty;
        assert r[i] == store[i];
      } else if !store[first.value].dirty {
        forall i | 0 <= i < |store| && Of(store[i], id, c.uid) && !store[i].dirty ensures i == first.value {
          OneClean(store, id, i, first.value);
        }
      }
    }
  }

  /** If the first is dirty but up to date, nothing is done, and the cache may be left unserved. */
  lemma DirtyFirstMayUnserve(store: Store, id: string, c: Cache, secrets: RuntimeSecrets, calls: Calls)
    requires c.secretRef.Some? && SyncOne(store, id, c, secrets, calls).ok
    ensures var first, data := FirstOf(store, id, c.uid), Source(c, secrets).value;
      Serves(SyncOne(store, id, c, secrets, calls).store, id, c.uid, data) <==>
        !(first.Some? && store[first.value].dirty && store[first.value].data == data && !Serves(store, id, c.uid, data))
  {
    var first, data := FirstOf(store, id, c.uid), Source(c, secrets).value;
    var r := SyncOne(store, id, c, secrets, calls).store;
    if first.Some? && store[first.value].data == data {
      if !store[first.value].dirty { assert Of(store[first.value], id, c.uid); }
    } else {
      assert Of(r[|r| - 1], id, c.uid) && !r[|r| - 1].dirty && r[|r| - 1].data == data;
    }
  }
}
