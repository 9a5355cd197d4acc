/** The syncer, the manager and the renderers as they run, against the garden cluster's secrets. */
module RegistryCacheSync {
  import opened Wrappers
  import opened RegistryCache

  /** The secrets of the project's namespace, in the order a List call returns them. */
  class GardenCluster {
    var secrets: Store

    constructor (secrets: Store)
      ensures this.secrets == secrets
    {
      this.secrets := secrets;
    }

    method FindFirst(id: string, uid: string) returns (first: Option<nat>)
      ensures first == FirstOf(secrets, id, uid)
    {
      for i := 0 to |secrets|
        invariant FirstOf(secrets[..i], id, uid) == None
      {
        assert secrets[..i + 1][..i] == secrets[..i];
        if Of(secrets[i], id, uid) {
          FirstOfPrefix(secrets, id, uid, i + 1);
          return Some(i);
        }
      }
      assert secrets[..|secrets|] == secrets;
      return None;
    }

    method CreateSecret(s: Secret, works: bool) returns (ok: bool)
      modifies this`secrets
      ensures Outcome(secrets, ok) == Create(old(secrets), s, works)
    {
      if !works { return false; }
      for i := 0 to |secrets|
        invariant forall j :: 0 <= j < i ==> secrets[j].name != s.name
      {
        if secrets[i].name == s.name { return false; }
      }
      secrets := secrets + [s];
      ok := true;
    }

    method MarkDirty(i: nat)
      requires i < |secrets|
      modifies this`secrets
      ensures secrets == old(secrets)[i := old(secrets)[i].(dirty := true)]
    {
      secrets := secrets[i := secrets[i].(dirty := true)];
    }

    method DeleteByName(name: string)
      modifies this`secrets
      ensures secrets == Filter(old(secrets), (s: Secret) => s.name != name)
    {
      var kept: Store := [];
      for i := 0 to |secrets|
        invariant kept == Filter(secrets[..i], (s: Secret) => s.name != name)
      {
        assert secrets[..i + 1][..i] == secrets[..i];
        if secrets[i].name != name { kept := kept + [secrets[i]]; }
      }
      assert secrets[..|secrets|] == secrets;
      secrets := kept;
    }

    method ListManaged(id: string) returns (items: Store)
      ensures items == Managed(secrets, id)
    {
      items := [];
      for i := 0 to |secrets|
        invariant items == Filter(secrets[..i], s => Listed(s, id))
      {
        assert secrets[..i + 1][..i] == secrets[..i];
        if Listed(secrets[i], id) { items := items + [secrets[i]]; }
      }
      assert secrets[..|secrets|] == secrets;
    }
  }

  lemma {:induction false} FirstOfPrefix(store: Store, id: string, uid: string, n: nat)
    requires n <= |store| && FirstOf(store[..n], id, uid).Some?
    ensures FirstOf(store, id, uid) == FirstOf(store[..n], id, uid)
    decreases |store|
  {
    if n < |store| {
      assert store[..|store| - 1][..n] == store[..n];
      FirstOfPrefix(store[..|store| - 1], id, uid, n);
    } else {
      assert store[..n] == store;
    }
  }

  // ---- the syncer ----

  /** Same size and every entry of a in b, which makes the maps equal. */
  method SecretDataEqual(a: Data, b: Data) returns (equal: bool)
    ensures equal <==> a == b
  {
    if |a| != |b| { return false; }
    var keys := a.Keys;
    while keys != {}
      invariant keys <= a.Keys
      invariant forall k :: k in a.Keys - keys ==> k in b && a[k] == b[k]
      decreases |keys|
    {
      var key :| key in keys;
      if key !in b || a[key] != b[key] { return false; }
      keys := keys - {key};
    }
    SameSizeSubset(a.Keys, b.Keys);
    return true;
  }

  lemma SameSizeSubset<T>(a: set<T>, b: set<T>)
    requires a <= b && |a| == |b|
    ensures a == b
  {
    assert |b - a| == |b| - |a|;
  }

  method GetRegistryCachesWithSecret(caches: seq<Cache>) returns (r: seq<Cache>)
    ensures r == WithSecret(caches)
  {
    r := [];
    for i := 0 to |caches|
      invariant r == WithSecret(caches[..i])
    {
      assert caches[..i + 1][..i] == caches[..i];
      if caches[i].secretRef.Some? { r := r + [caches[i]]; }
    }
    assert caches[..|caches|] == caches;
  }

  class GardenSecretSyncer {
    const garden: GardenCluster
    const runtimeSecrets: RuntimeSecrets
    const runtimeId: string

    constructor (garden: GardenCluster, runtimeSecrets: RuntimeSecrets, runtimeId: string)
      ensures this.garden == garden && this.runtimeSecrets == runtimeSecrets && this.runtimeId == runtimeId
    {
      this.garden, this.runtimeSecrets, this.runtimeId := garden, runtimeSecrets, runtimeId;
    }

    /** The loop body of Do: copy the secret, or replace the one that is there. */
    method SyncCache(c: Cache, calls: Calls) returns (ok: bool)
      requires c.secretRef.Some?
      modifies garden
      ensures Outcome(garden.secrets, ok) == SyncOne(old(garden.secrets), runtimeId, c, runtimeSecrets, calls)
    {
      if !calls.listWorks { return false; }
      var first := garden.FindFirst(runtimeId, c.uid);
      var data := Source(c, runtimeSecrets);
      if data.None? { return false; }
      if first.Some? {
        var same := SecretDataEqual(garden.secrets[first.value].data, data.value);
        if same { return true; }
        if !calls.patchWorks { return false; }
        garden.MarkDirty(first.value);
      }
      ok := garden.CreateSecret(NewSecret(runtimeId, c, data.value, calls.name), calls.createWorks);
    }

    method Do(caches: seq<Cache>, calls: seq<Calls>) returns (ok: bool)
      requires |calls| == |WithSecret(caches)|
      modifies garden
      ensures Outcome(garden.secrets, ok) == SyncAll(old(garden.secrets), runtimeId, WithSecret(caches), runtimeSecrets, calls)
    {
      var todo := GetRegistryCachesWithSecret(caches);
      ghost var was := garden.secrets;
      for i := 0 to |todo|
        invariant Outcome(garden.secrets, true) == SyncTo(was, runtimeId, todo, runtimeSecrets, calls, i)
      {
        ghost var before := garden.secrets;
        ok := SyncCache(todo[i], calls[i]);
        NextSync(was, runtimeId, todo, runtimeSecrets, calls, i, before);
        if !ok {
          FailureStays(was, runtimeId, todo, runtimeSecrets, calls, i + 1, |todo|);
          return;
        }
      }
      return true;
    }
  }

  lemma NextSync(store: Store, id: string, caches: seq<Cache>, secrets: RuntimeSecrets, calls: seq<Calls>, n: nat, before: Store)
    requires |calls| == |caches| && n < |caches| && forall i :: 0 <= i < |caches| ==> caches[i].secretRef.Some?
    requires SyncTo(store, id, caches, secrets, calls, n) == Outcome(before, true)
    ensures SyncTo(store, id, caches, secrets, calls, n + 1) == SyncOne(before, id, caches[n], secrets, calls[n])
  {
  }

  lemma {:induction false} FailureStays(store: Store, id: string, caches: seq<Cache>, secrets: RuntimeSecrets, calls: seq<Calls>, n: nat, m: nat)
    requires |calls| == |caches| && n <= m <= |caches| && forall i :: 0 <= i < |caches| ==> caches[i].secretRef.Some?
    requires !SyncTo(store, id, caches, secrets, calls, n).ok
    ensures SyncTo(store, id, caches, secrets, calls, m) == SyncTo(store, id, caches, secrets, calls, n)
  {
    if n < m { FailureStays(store, id, caches, secrets, calls, n, m - 1); }
  }

  // ---- the manager ----

  lemma {:induction false} IndexOfListed(store: Store, id: string)
    ensures NamesByUid(Filter(store, s => Listed(s, id)), id) == NamesByUid(store, id)
  {
    if store != [] {
      var front := store[..|store| - 1];
      IndexOfListed(front, id);
      var rest := Filter(front, s => Listed(s, id));
      if Listed(store[|store| - 1], id) { assert (rest + [store[|store| - 1]])[..|rest|] == rest; }
    }
  }

  method GetCacheUidToSecretNameMap(garden: GardenCluster, id: string, listWorks: bool) returns (r: Option<map<string, string>>)
    ensures r == if listWorks then Some(NamesByUid(garden.secrets, id)) else None
  {
    if !listWorks { return None; }
    var items := garden.ListManaged(id);
    var names := map[];
    for i := 0 to |items|
      invariant names == NamesByUid(items[..i], id)
    {
      assert items[..i + 1][..i] == items[..i];
      assert items[i] in items;
      if !items[i].dirty && items[i].uid != "" { names := names[items[i].uid := items[i].name]; }
    }
    assert items[..|items|] == items;
    IndexOfListed(garden.secrets, id);
    return Some(names);
  }

  method RegistryCacheUidExists(uid: string, caches: seq<Cache>) returns (found: bool)
    ensures found == UidExists(uid, caches)
  {
    for i := 0 to |caches|
      invariant forall j :: 0 <= j < i ==> caches[j].uid != uid
    {
      if caches[i].uid == uid { return true; }
    }
    return false;
  }

  lemma {:induction false} FilterTwice(store: Store, p: Secret -> bool, q: Secret -> bool, both: Secret -> bool)
    requires forall s :: s in store ==> (both(s) <==> p(s) && q(s))
    ensures Filter(Filter(store, p), q) == Filter(store, both)
  {
    if store != [] {
      var n := |store| - 1;
      FilterTwice(store[..n], p, q, both);
      var rest := Filter(store[..n], p);
      if p(store[n]) { assert (rest + [store[n]])[..|rest|] == rest; }
    }
  }

  lemma {:induction false} FilterNothing(store: Store, keep: Secret -> bool)
    requires forall s :: s in store ==> keep(s)
    ensures Filter(store, keep) == store
  {
    if store != [] { FilterNothing(store[..|store| - 1], keep); }
  }

  predicate UniqueNames(store: Store) {
    forall i, j :: 0 <= i < j < |store| ==> store[i].name != store[j].name
  }

  lemma SameSecret(store: Store, s: Secret, t: Secret)
    requires UniqueNames(store) && s in store && t in store
    ensures s.name == t.name ==> s == t
  {
    var i :| 0 <= i < |store| && store[i] == s;
    var j :| 0 <= j < |store| && store[j] == t;
    if i < j { } else if j < i { }
  }

  /** The runtime's secrets, as a List call with its labels returns them. */
  ghost function Managed(store: Store, id: string): Store {
    Filter(store, s => Listed(s, id))
  }

  ghost function WithoutListed(store: Store, id: string): Store {
    Filter(store, s => !Listed(s, id))
  }

  ghost function UnusedBy(id: string, caches: seq<Cache>): Secret -> bool {
    s => Unused(s, id, caches)
  }

  ghost function ListedBy(id: string): Secret -> bool {
    s => Listed(s, id)
  }

  /** The garden API refuses the deletion of an item that has to go. */
  ghost predicate Refused(items: Store, goes: Secret -> bool, failAt: Option<nat>) {
    failAt.Some? && failAt.value < |items| && goes(items[failAt.value])
  }

  /** One of the first n items has to go and has this name. */
  ghost predicate DeletedBefore(s: Secret, goes: Secret -> bool, items: Store, n: nat)
    requires n <= |items|
  {
    exists j :: 0 <= j < n && items[j].name == s.name && goes(items[j])
  }

  /** What is left when the first n items have been looked at. */
  ghost function Remaining(was: Store, goes: Secret -> bool, items: Store, n: nat): Store
    requires n <= |items|
  {
    Filter(was, s => !DeletedBefore(s, goes, items, n))
  }

  lemma NothingDeletedYet(was: Store, goes: Secret -> bool, items: Store)
    ensures Remaining(was, goes, items, 0) == was
  {
    FilterNothing(was, s => !DeletedBefore(s, goes, items, 0));
  }

  lemma ItemIsListed(was: Store, id: string, items: Store, i: nat)
    requires items == Managed(was, id) && i < |items|
    ensures Listed(items[i], id) && ListedBy(id)(items[i])
  {
    assert items[i] in items;
  }

  lemma ItemIsUnused(was: Store, id: string, caches: seq<Cache>, items: Store, i: nat)
    requires items == Managed(was, id) && i < |items|
    ensures UnusedBy(id, caches)(items[i]) <==>
            items[i].dirty || (items[i].uid != "" && !UidExists(items[i].uid, WithSecret(caches)))
  {
    ItemIsListed(was, id, items, i);
  }

  lemma AllUnusedGo(was: Store, id: string, caches: seq<Cache>, items: Store)
    requires UniqueNames(was) && items == Managed(was, id)
    ensures Remaining(was, UnusedBy(id, caches), items, |items|) == DeleteUnusedFrom(was, id, caches)
  {
    var goes := UnusedBy(id, caches);
    AllOfThoseGo(was, id, goes, items);
    FilterAlike(was, s => !goes(s), s => !Unused(s, id, caches));
  }

  lemma ItemGoes(was: Store, goes: Secret -> bool, items: Store, i: nat)
    requires i < |items| && goes(items[i])
    ensures Filter(Remaining(was, goes, items, i), (s: Secret) => s.name != items[i].name) == Remaining(was, goes, items, i + 1)
  {
    FilterTwice(was, s => !DeletedBefore(s, goes, items, i), (s: Secret) => s.name != items[i].name,
      s => !DeletedBefore(s, goes, items, i + 1));
  }

  lemma ItemStays(was: Store, goes: Secret -> bool, items: Store, i: nat)
    requires i < |items| && !goes(items[i])
    ensures Remaining(was, goes, items, i) == Remaining(was, goes, items, i + 1)
  {
    FilterAlike(was, s => !DeletedBefore(s, goes, items, i), s => !DeletedBefore(s, goes, items, i + 1));
  }

  lemma {:induction false} FilterAlike(store: Store, p: Secret -> bool, q: Secret -> bool)
    requires forall s :: s in store ==> (p(s) <==> q(s))
    ensures Filter(store, p) == Filter(store, q)
  {
    if store != [] { FilterAlike(store[..|store| - 1], p, q); }
  }

  /** Secrets that need not go stay, however far the loop has come. */
  lemma OnlyThoseGo(was: Store, id: string, goes: Secret -> bool, items: Store, n: nat)
    requires UniqueNames(was) && items == Managed(was, id) && n <= |items|
    ensures forall s :: s in was && !goes(s) ==> s in Remaining(was, goes, items, n)
  {
    forall s | s in was && !goes(s) ensures !DeletedBefore(s, goes, items, n) {
      forall j | 0 <= j < n ensures !(items[j].name == s.name && goes(items[j])) {
        assert items[j] in items;
        SameSecret(was, items[j], s);
      }
    }
  }

  /** In the end all that had to go are gone. */
  lemma AllOfThoseGo(was: Store, id: string, goes: Secret -> bool, items: Store)
    requires UniqueNames(was) && items == Managed(was, id)
    requires forall s :: goes(s) ==> Listed(s, id)
    ensures Remaining(was, goes, items, |items|) == Filter(was, s => !goes(s))
  {
    forall s | s in was ensures DeletedBefore(s, goes, items, |items|) <==> goes(s) {
      if goes(s) {
        assert s in items;
        var j :| 0 <= j < |items| && items[j] == s;
      } else {
        forall j | 0 <= j < |items| ensures !(items[j].name == s.name && goes(items[j])) {
          assert items[j] in items;
          SameSecret(was, items[j], s);
        }
      }
    }
    FilterAlike(was, s => !DeletedBefore(s, goes, items, |items|), s => !goes(s));
  }

  /** What is not a managed secret of the runtime is not deleted. */
  ghost predicate OthersStay(was: Store, now: Store, id: string) {
    forall s :: s in was && !Listed(s, id) ==> s in now
  }

  lemma ListedGo(was: Store, id: string, items: Store, n: nat)
    requires UniqueNames(was) && items == Managed(was, id) && n <= |items|
    ensures OthersStay(was, Remaining(was, ListedBy(id), items, n), id)
    ensures Remaining(was, ListedBy(id), items, |items|) == WithoutListed(was, id)
  {
    var goes := ListedBy(id);
    OnlyThoseGo(was, id, goes, items, n);
    AllOfThoseGo(was, id, goes, items);
    FilterAlike(was, s => !goes(s), s => !Listed(s, id));
  }

  /** listWorks and failAt: whether the List call works, and the item whose deletion the API refuses, if any. */
  method DeleteUnused(garden: GardenCluster, id: string, caches: seq<Cache>, listWorks: bool, failAt: Option<nat>) returns (ok: bool)
    requires UniqueNames(garden.secrets)
    modifies garden
    ensures ok <==> listWorks && !Refused(Managed(old(garden.secrets), id), UnusedBy(id, caches), failAt)
    ensures ok ==> garden.secrets == DeleteUnusedFrom(old(garden.secrets), id, caches)
    ensures !listWorks ==> garden.secrets == old(garden.secrets)
    ensures listWorks && !ok ==> garden.secrets == Remaining(old(garden.secrets), UnusedBy(id, caches), Managed(old(garden.secrets), id), failAt.value)
    ensures forall s :: s in old(garden.secrets) && !Unused(s, id, caches) ==> s in garden.secrets
  {
    if !listWorks { return false; }
    ghost var was := garden.secrets;
    ghost var goes := UnusedBy(id, caches);
    var todo := GetRegistryCachesWithSecret(caches);
    var items := garden.ListManaged(id);
    NothingDeletedYet(was, goes, items);
    for i := 0 to |items|
      invariant garden.secrets == Remaining(was, goes, items, i)
      invariant failAt.Some? && failAt.value < i ==> !goes(items[failAt.value])
    {
      var uidExists := RegistryCacheUidExists(items[i].uid, todo);
      ItemIsUnused(was, id, caches, items, i);
      if items[i].dirty || (items[i].uid != "" && !uidExists) {
        if failAt == Some(i) {
          OnlyThoseGo(was, id, goes, items, i);
          return false;
        }
        garden.DeleteByName(items[i].name);
        ItemGoes(was, goes, items, i);
      } else {
        ItemStays(was, goes, items, i);
      }
    }
    OnlyThoseGo(was, id, goes, items, |items|);
    AllUnusedGo(was, id, caches, items);
    return true;
  }

  method DeleteAll(garden: GardenCluster, id: string, listWorks: bool, failAt: Option<nat>) returns (ok: bool)
    requires UniqueNames(garden.secrets)
    modifies garden
    ensures ok <==> listWorks && !Refused(Managed(old(garden.secrets), id), ListedBy(id), failAt)
    ensures ok ==> garden.secrets == WithoutListed(old(garden.secrets), id)
    ensures !listWorks ==> garden.secrets == old(garden.secrets)
    ensures listWorks && !ok ==> garden.secrets == Remaining(old(garden.secrets), ListedBy(id), Managed(old(garden.secrets), id), failAt.value)
    ensures OthersStay(old(garden.secrets), garden.secrets, id)
  {
    if !listWorks { return false; }
    ghost var was := garden.secrets;
    ghost var goes := ListedBy(id);
    var items := garden.ListManaged(id);
    NothingDeletedYet(was, goes, items);
    for i := 0 to |items|
      invariant garden.secrets == Remaining(was, goes, items, i)
      invariant failAt.Some? && failAt.value < i ==> !goes(items[failAt.value])
    {
      ItemIsListed(was, id, items, i);
      if failAt == Some(i) {
        ListedGo(was, id, items, i);
        return false;
      }
      garden.DeleteByName(items[i].name);
      ItemGoes(was, goes, items, i);
    }
    ListedGo(was, id, items, |items|);
    return true;
  }

  // ---- the renderers ----

  class ShootSpec {
    var resources: seq<Resource>

    constructor (resources: seq<Resource>)
      ensures this.resources == resources
    {
      this.resources := resources;
    }

    /** None for the resources is a nil list, for which the shoot's own are left as they are. */
    method ExtendResources(resources: Option<seq<Resource>>, caches: seq<Cache>, names: map<string, string>)
      modifies this
      ensures this.resources == if resources.None? then old(this.resources) + CacheResources(caches, names)
                                else RenderResources(resources.value, caches, names)
    {
      if resources.Some? {
        var all := resources.value;
        var kept: seq<Resource> := [];
        for i := 0 to |all|
          invariant kept == KeepForeign(all[..i])
        {
          assert all[..i + 1][..i] == all[..i];
          if !Contains(all[i].name, PREFIX) { kept := kept + [all[i]]; }
        }
        assert all[..|all|] == all;
        this.resources := kept;
      }
      ghost var front := this.resources;
      for i := 0 to |caches|
        invariant this.resources == front + CacheResources(caches[..i], names)
      {
        assert caches[..i + 1][..i] == caches[..i];
        if caches[i].secretRef.Some? {
          this.resources := this.resources + [Resource(Lookup(names, caches[i].uid), Lookup(names, caches[i].uid))];
        }
      }
      assert caches[..|caches|] == caches;
    }
  }

  method ToRegistryCacheExtension(caches: seq<Cache>, names: map<string, string>) returns (refs: seq<Option<string>>)
    ensures refs == RenderReferences(caches, names)
  {
    refs := [];
    for i := 0 to |caches|
      invariant refs == RenderReferences(caches[..i], names)
    {
      assert caches[..i + 1][..i] == caches[..i];
      var c := caches[i];
      refs := refs + [if c.secretRef.None? then None else Some(Lookup(names, c.uid))];
    }
    assert caches[..|caches|] == caches;
  }
}
