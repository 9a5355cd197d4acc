/**
 The zones of workers when an existing shoot is patched: which zones the network generator is
 given, and how each worker's own list is brought in line with what the shoot has.
 */
module WorkerZones {
  import opened Wrappers
  import opened Cidr
  import AwsZones
  import EvenZones

  datatype Worker = Worker(name: string, zones: seq<string>)

  // ---- lists without duplicates ----

  /** Append what is not there yet, in order. */
  function Merge(acc: seq<string>, zones: seq<string>): (r: seq<string>)
    ensures acc <= r
    ensures forall z :: z in r <==> z in acc || z in zones
    ensures Distinct(acc) ==> Distinct(r)
  {
    if zones == [] then acc
    else
      var rest := Merge(acc, zones[..|zones| - 1]);
      var z := zones[|zones| - 1];
      assert forall y :: y in zones <==> y in zones[..|zones| - 1] || y == z;
      if z in rest then rest else rest + [z]
  }

  /** The zones of all workers, each once, in the order in which they first appear. */
  function ZonesOf(workers: seq<Worker>): (r: seq<string>)
    ensures Distinct(r)
    ensures forall z :: z in r <==> exists i :: 0 <= i < |workers| && z in workers[i].zones
  {
    if workers == [] then []
    else
      var front := workers[..|workers| - 1];
      var r := Merge(ZonesOf(front), workers[|workers| - 1].zones);
      assert forall i :: 0 <= i < |front| ==> front[i] == workers[i];
      r
  }

  lemma MergeStep(acc: seq<string>, zones: seq<string>, j: nat)
    requires j < |zones|
    ensures Merge(acc, zones[..j + 1]) == if zones[j] in Merge(acc, zones[..j]) then Merge(acc, zones[..j]) else Merge(acc, zones[..j]) + [zones[j]]
  {
    assert zones[..j + 1][..j] == zones[..j];
  }

  method GetNetworkingZonesFromWorkers(workers: seq<Worker>) returns (zones: seq<string>)
    ensures zones == ZonesOf(workers)
  {
    zones := [];
    for i := 0 to |workers|
      invariant zones == ZonesOf(workers[..i])
    {
      var own := workers[i].zones;
      ghost var before := zones;
      for j := 0 to |own|
        invariant zones == Merge(before, own[..j])
      {
        MergeStep(before, own, j);
        if own[j] !in zones { zones := zones + [own[j]]; }
      }
      assert own[..|own|] == own;
      assert workers[..i + 1][..i] == workers[..i];
    }
    assert workers[..|workers|] == workers;
  }

  /** The new zones that do not exist yet, in order. */
  function Added(existing: seq<string>, zones: seq<string>): (r: seq<string>)
    ensures forall z :: z in r <==> z in zones && z !in existing
    ensures Distinct(zones) ==> Distinct(r)
  {
    if zones == [] then []
    else
      var z := zones[|zones| - 1];
      var rest := Added(existing, zones[..|zones| - 1]);
      assert forall y :: y in zones <==> y in zones[..|zones| - 1] || y == z;
      if z in existing then rest else rest + [z]
  }

  method NewZonesAdded(existing: seq<string>, zones: seq<string>) returns (added: seq<string>)
    ensures added == Added(existing, zones)
  {
    added := [];
    for i := 0 to |zones|
      invariant added == Added(existing, zones[..i])
    {
      assert zones[..i + 1][..i] == zones[..i];
      if zones[i] !in existing { added := added + [zones[i]]; }
    }
    assert zones[..|zones|] == zones;
  }

  // ---- bringing workers in line with the shoot ----

  /** Of several workers of one name the last counts. */
  function Existing(shoot: seq<Worker>, name: string): (r: Option<Worker>)
    ensures r.Some? ==> r.value in shoot && r.value.name == name
    ensures r.None? <==> forall i :: 0 <= i < |shoot| ==> shoot[i].name != name
  {
    if shoot == [] then None
    else if shoot[|shoot| - 1].name == name then Some(shoot[|shoot| - 1])
    else Existing(shoot[..|shoot| - 1], name)
  }

  function Aligned(w: Worker, shoot: seq<Worker>): Worker {
    var existing := Existing(shoot, w.name);
    if existing.None? then w else w.(zones := Merge(existing.value.zones, w.zones))
  }

  method AlignWorkerZones(zones: seq<string>, existing: seq<string>) returns (aligned: seq<string>)
    ensures aligned == Merge(existing, zones)
  {
    if zones == existing {
      MergeOfOwn(zones, |zones|);
      assert zones[..|zones|] == zones;
      return zones;
    }
    var provided := zones;
    aligned := existing;
    for j := 0 to |provided|
      invariant aligned == Merge(existing, provided[..j])
    {
      MergeStep(existing, provided, j);
      if provided[j] !in aligned { aligned := aligned + [provided[j]]; }
    }
    assert provided[..|provided|] == provided;
  }

  lemma {:induction false} MergeOfOwn(acc: seq<string>, n: nat)
    requires n <= |acc|
    ensures Merge(acc, acc[..n]) == acc
  {
    if n > 0 {
      MergeOfOwn(acc, n - 1);
      MergeStep(acc, acc, n - 1);
      assert acc[n - 1] in acc;
    }
  }

  method IndexByName(shoot: seq<Worker>) returns (byName: map<string, Worker>)
    ensures forall n :: n in byName <==> Existing(shoot, n).Some?
    ensures forall n :: n in byName ==> byName[n] == Existing(shoot, n).value
  {
    byName := map[];
    for i := 0 to |shoot|
      invariant forall n :: n in byName <==> Existing(shoot[..i], n).Some?
      invariant forall n :: n in byName ==> byName[n] == Existing(shoot[..i], n).value
    {
      assert shoot[..i + 1][..i] == shoot[..i];
      byName := byName[shoot[i].name := shoot[i]];
    }
    assert shoot[..|shoot|] == shoot;
  }

  method AlignWorker(w: Worker, byName: map<string, Worker>, ghost shoot: seq<Worker>) returns (r: Worker)
    requires forall n :: n in byName <==> Existing(shoot, n).Some?
    requires forall n :: n in byName ==> byName[n] == Existing(shoot, n).value
    ensures r == Aligned(w, shoot)
  {
    if w.name !in byName { return w; }
    var zones := AlignWorkerZones(w.zones, byName[w.name].zones);
    r := w.(zones := zones);
  }

  /** The provider's workers are changed in place; the shoot's are looked up by name. */
  method AlignWorkersWithGardener(workers: array<Worker>, shoot: seq<Worker>)
    modifies workers
    ensures forall i :: 0 <= i < workers.Length ==> workers[i] == Aligned(old(workers[i]), shoot)
  {
    ghost var was := workers[..];
    var byName := IndexByName(shoot);
    for i := 0 to workers.Length
      invariant forall j :: 0 <= j < i ==> workers[j] == Aligned(was[j], shoot)
      invariant forall j :: i <= j < workers.Length ==> workers[j] == was[j]
    {
      var aligned := AlignWorker(workers[i], byName, shoot);
      workers[i] := aligned;
    }
  }

  /** A worker the shoot has keeps the shoot's zones in front, and gets all zones of both. */
  lemma AlignedKeepsExisting(w: Worker, shoot: seq<Worker>)
    requires Existing(shoot, w.name).Some?
    ensures var existing := Existing(shoot, w.name).value.zones;
      && existing <= Aligned(w, shoot).zones
      && (forall z :: z in Aligned(w, shoot).zones <==> z in existing || z in w.zones)
      && (Distinct(existing) ==> Distinct(Aligned(w, shoot).zones))
  {
  }

  /** Once the shoot has taken over an aligned worker, aligning it again changes nothing. */
  lemma AlignedIsStable(w: Worker, shoot: seq<Worker>, later: seq<Worker>)
    requires Existing(later, w.name) == Some(Aligned(w, shoot))
    ensures Aligned(Aligned(w, shoot), later) == Aligned(w, shoot)
  {
    var zones := Aligned(w, shoot).zones;
    MergeOfOwn(zones, |zones|);
    assert zones[..|zones|] == zones;
  }

  // ---- the patch ----

  /** The zones handed to the network generator, when the workers bring new ones. */
  function Merged(shoot: seq<Worker>, runtime: seq<Worker>): seq<string> {
    ZonesOf(shoot) + Added(ZonesOf(shoot), ZonesOf(runtime))
  }

  /** The shoot's network configuration; only Azure's is looked into. */
  datatype InfraConfig = Undecodable | Decodable(zones: nat)

  datatype PatchError = NoInfraConfig | NotOneMainWorker | NoShootWorkers | BadInfraConfig | GeneratorFailed | SettingsFailed

  predicate Accepted(mainWorkers: nat, shoot: seq<Worker>, azure: bool, infra: Option<InfraConfig>) {
    infra.Some? && mainWorkers == 1 && shoot != [] && (azure ==> infra.value.Decodable?)
  }

  /** An Azure network without zones stays as it is, whatever the workers bring. */
  predicate AzureLite(azure: bool, infra: InfraConfig) {
    azure && infra == Decodable(0)
  }

  predicate NewNetwork(shoot: seq<Worker>, runtime: seq<Worker>, azure: bool, infra: InfraConfig) {
    !AzureLite(azure, infra) && Added(ZonesOf(shoot), ZonesOf(runtime)) != []
  }

  /**
   mainWorkers counts the main workers of the Runtime; workers holds these and the additional
   ones, sorted.  An answer None keeps the existing network; generates and settles say whether
   the generator of the new one and the workers' other settings go through.
   */
  method PatchZones(workers: array<Worker>, mainWorkers: nat, shoot: seq<Worker>, azure: bool, infra: Option<InfraConfig>,
                    generates: bool, settles: bool) returns (network: Result<Option<seq<string>>, PatchError>)
    modifies workers
    ensures network == Err(NoInfraConfig) <==> infra.None?
    ensures network == Err(NotOneMainWorker) <==> infra.Some? && mainWorkers != 1
    ensures network == Err(NoShootWorkers) <==> infra.Some? && mainWorkers == 1 && shoot == []
    ensures network == Err(BadInfraConfig) <==> infra.Some? && mainWorkers == 1 && shoot != [] && azure && infra.value.Undecodable?
    ensures network.Ok? <==> Accepted(mainWorkers, shoot, azure, infra) && settles
                             && (NewNetwork(shoot, old(workers[..]), azure, infra.value) ==> generates)
    ensures network.Ok? ==> network.value == if NewNetwork(shoot, old(workers[..]), azure, infra.value)
                                             then Some(Merged(shoot, old(workers[..]))) else None
    ensures network.Ok? ==> forall i :: 0 <= i < workers.Length ==> workers[i] == Aligned(old(workers[i]), shoot)
    ensures network.Err? ==> workers[..] == old(workers[..])
  {
    if infra.None? { return Err(NoInfraConfig); }
    if mainWorkers != 1 { return Err(NotOneMainWorker); }
    if |shoot| == 0 { return Err(NoShootWorkers); }
    var fromRuntime := GetNetworkingZonesFromWorkers(workers[..]);
    var fromShoot := GetNetworkingZonesFromWorkers(shoot);
    var added := NewZonesAdded(fromShoot, fromRuntime);
    if azure && infra.value.Undecodable? { return Err(BadInfraConfig); }
    var lite := azure && infra.value.zones == 0;
    var zones: Option<seq<string>> := None;
    if |added| != 0 && !lite {
      if !generates { return Err(GeneratorFailed); }
      zones := Some(fromShoot + added);
    }
    if !settles { return Err(SettingsFailed); }
    AlignWorkersWithGardener(workers, shoot);
    return Ok(zones);
  }

  /** The merged list has no duplicates, starts with the shoot's zones and holds everybody's. */
  lemma MergedGrows(shoot: seq<Worker>, runtime: seq<Worker>)
    ensures Distinct(Merged(shoot, runtime)) && ZonesOf(shoot) <= Merged(shoot, runtime)
    ensures forall z :: z in Merged(shoot, runtime) <==> z in ZonesOf(shoot) || z in ZonesOf(runtime)
  {
    var had, added := ZonesOf(shoot), Added(ZonesOf(shoot), ZonesOf(runtime));
    forall i, j | 0 <= i < j < |had + added| ensures (had + added)[i] != (had + added)[j] {
      if i < |had| && j >= |had| {
        assert had[i] in had;
        assert added[j - |had|] in added;
      }
    }
  }

  /** Every zone of every worker, as it ends up, is in the list the generator was given. */
  lemma FinalZonesAreServed(shoot: seq<Worker>, runtime: seq<Worker>, i: nat)
    requires i < |runtime|
    ensures forall z :: z in Aligned(runtime[i], shoot).zones ==> z in Merged(shoot, runtime)
  {
    MergedGrows(shoot, runtime);
    forall z | z in Aligned(runtime[i], shoot).zones ensures z in Merged(shoot, runtime) {
      if z in runtime[i].zones { assert z in ZonesOf(runtime); }
      else {
        var existing := Existing(shoot, runtime[i].name).value;
        var k :| 0 <= k < |shoot| && shoot[k] == existing;
        assert z in ZonesOf(shoot);
      }
    }
  }

  /** Where no zone is new, the network configuration that is kept serves all workers already. */
  lemma NothingNewIsServed(shoot: seq<Worker>, runtime: seq<Worker>, i: nat)
    requires i < |runtime| && Added(ZonesOf(shoot), ZonesOf(runtime)) == []
    ensures forall z :: z in Aligned(runtime[i], shoot).zones ==> z in ZonesOf(shoot)
  {
    FinalZonesAreServed(shoot, runtime, i);
  }

  // ---- no zone moves ----

  /** With the same node network AWS subnets of the shoot's zones stay where they are. */
  lemma AwsSubnetsStay(p: Prefix, shoot: seq<Worker>, runtime: seq<Worker>, i: nat)
    requires AwsZones.Sized(p) && i < |ZonesOf(shoot)|
    requires AwsZones.Fits(p, |Merged(shoot, runtime)|)
    ensures AwsZones.Fits(p, |ZonesOf(shoot)|)
    ensures AwsZones.ZoneAt(p, i, Merged(shoot, runtime)[i]) == AwsZones.ZoneAt(p, i, ZonesOf(shoot)[i])
  {
    AwsZones.FewerFit(p, |Merged(shoot, runtime)|, |ZonesOf(shoot)|);
  }

  /** So do the Alicloud and Azure ones. */
  lemma EvenSubnetsStay(p: Prefix, shoot: seq<Worker>, runtime: seq<Worker>, i: nat)
    requires EvenZones.Sized(p) && i < |ZonesOf(shoot)|
    requires EvenZones.Fits(p, |Merged(shoot, runtime)|)
    ensures EvenZones.Fits(p, |ZonesOf(shoot)|)
    ensures EvenZones.Zone(Merged(shoot, runtime)[i], EvenZones.BlockAt(p, i)) == EvenZones.Zone(ZonesOf(shoot)[i], EvenZones.BlockAt(p, i))
  {
    EvenZones.FewerFit(p, |Merged(shoot, runtime)|, |ZonesOf(shoot)|);
  }

  // ---- from one patch to the next ----

  function AllAligned(runtime: seq<Worker>, shoot: seq<Worker>): seq<Worker> {
    seq(|runtime|, i requires 0 <= i < |runtime| => Aligned(runtime[i], shoot))
  }

  lemma {:induction false} MergeAssociates(a: seq<string>, b: seq<string>, c: seq<string>)
    ensures Merge(a, Merge(b, c)) == Merge(Merge(a, b), c)
  {
    if c != [] {
      var n := |c| - 1;
      MergeAssociates(a, b, c[..n]);
      var m := Merge(b, c[..n]);
      if c[n] !in m { assert (m + [c[n]])[..|m|] == m; }
    }
  }

  lemma {:induction false} MergeOfKnown(a: seq<string>, b: seq<string>)
    requires forall z :: z in b ==> z in a
    ensures Merge(a, b) == a
  {
    if b != [] { MergeOfKnown(a, b[..|b| - 1]); }
  }

  lemma {:induction false} MergeAppendsAdded(a: seq<string>, b: seq<string>)
    requires Distinct(b)
    ensures Merge(a, b) == a + Added(a, b)
  {
    if b != [] {
      var n := |b| - 1;
      FrontIsDistinct(b, n);
      MergeAppendsAdded(a, b[..n]);
      var rest := Added(a, b[..n]);
      assert b[n] in a + rest <==> b[n] in a;
      assert a + (rest + [b[n]]) == (a + rest) + [b[n]];
    }
  }

  lemma FrontIsDistinct(b: seq<string>, n: nat)
    requires Distinct(b) && n < |b|
    ensures Distinct(b[..n]) && b[n] !in b[..n]
  {
    assert forall i :: 0 <= i < n ==> b[..n][i] == b[i];
  }

  /** One list goes on from where the other ends. */
  ghost predicate Comparable(a: seq<string>, b: seq<string>) {
    a <= b || b <= a
  }

  /** Where z stands in a list without duplicates, or its length. */
  ghost function Place(list: seq<string>, z: string): (r: nat)
    ensures z in list ==> r < |list| && list[r] == z
    ensures z !in list ==> r == |list|
  {
    if z in list then var p :| 0 <= p < |list| && list[p] == z; p else |list|
  }

  /** All zones listed before z are in known. */
  ghost predicate InTurn(list: seq<string>, known: seq<string>, z: string) {
    forall p :: 0 <= p < Place(list, z) ==> list[p] in known
  }

  lemma ListedAreKnown(list: seq<string>, known: seq<string>, n: nat)
    requires Distinct(list) && known <= list && n <= |list|
    ensures (forall p :: 0 <= p < n ==> list[p] in known) <==> n <= |known|
  {
    if |known| < n { assert list[|known|] !in known; }
    forall p | 0 <= p < |known| ensures list[p] in known { assert known[p] == list[p]; }
  }

  lemma ComparableStep(list: seq<string>, known: seq<string>, z: string)
    requires Distinct(list) && Comparable(list, known)
    ensures Comparable(list, Merge(known, [z])) <==> InTurn(list, known, z)
  {
    MergeOne(known, z);
    if known <= list {
      var n, at := |known|, Place(list, z);
      ListedAreKnown(list, known, at);
      KnownBefore(list, known, z);
      if z !in known { AppendedIsComparable(list, known, z); }
    } else {
      assert forall p :: 0 <= p < |list| ==> list[p] == known[p];
    }
  }

  lemma AppendedIsComparable(list: seq<string>, known: seq<string>, z: string)
    requires Distinct(list) && known <= list && z !in known
    ensures Comparable(list, known + [z]) <==> Place(list, z) <= |known|
  {
    var n, at := |known|, Place(list, z);
    KnownBefore(list, known, z);
    if n < |list| {
      assert known == list[..n];
      if at == n { assert known + [z] == list[..n + 1]; }
      else { assert (known + [z])[n] != list[n]; }
    } else {
      assert known == list;
    }
  }

  lemma KnownBefore(list: seq<string>, known: seq<string>, z: string)
    requires Distinct(list) && known <= list
    ensures z in known <==> Place(list, z) < |known|
  {
    assert forall p :: 0 <= p < |known| ==> known[p] == list[p];
    if Place(list, z) < |known| { assert known[Place(list, z)] == z; }
  }

  lemma EarlierIsComparable(list: seq<string>, earlier: seq<string>, later: seq<string>)
    requires earlier <= later && Comparable(list, later)
    ensures Comparable(list, earlier)
  {
    if list <= later { assert list == later[..|list|] && earlier == later[..|earlier|]; }
  }

  /** As a worker's zones are appended to those known, its k-th one is in turn. */
  ghost predicate TurnAt(list: seq<string>, known: seq<string>, zones: seq<string>, k: nat)
    requires k < |zones|
  {
    InTurn(list, Merge(known, zones[..k]), zones[k])
  }

  lemma ComparableZone(list: seq<string>, known: seq<string>, zones: seq<string>, k: nat)
    requires Distinct(list) && k < |zones|
    ensures Comparable(list, Merge(known, zones[..k + 1])) <==> Comparable(list, Merge(known, zones[..k])) && TurnAt(list, known, zones, k)
  {
    var before, after := Merge(known, zones[..k]), Merge(known, zones[..k + 1]);
    MergeStep(known, zones, k);
    MergeOne(before, zones[k]);
    if Comparable(list, before) { ComparableStep(list, before, zones[k]); }
    else if Comparable(list, after) { EarlierIsComparable(list, before, after); }
  }

  lemma {:induction false} ComparableWorker(list: seq<string>, known: seq<string>, zones: seq<string>, n: nat)
    requires Distinct(list) && Comparable(list, known) && n <= |zones|
    ensures Comparable(list, Merge(known, zones[..n])) <==> forall k :: 0 <= k < n ==> TurnAt(list, known, zones, k)
  {
    if n > 0 {
      var k := n - 1;
      ComparableWorker(list, known, zones, k);
      ComparableZone(list, known, zones, k);
      assert (forall i :: 0 <= i < n ==> TurnAt(list, known, zones, i)) <==>
             (forall i :: 0 <= i < k ==> TurnAt(list, known, zones, i)) && TurnAt(list, known, zones, k);
    }
  }

  /** Zone x is brought by one of the workers before j or is one of the first k zones of j. */
  ghost predicate Seen(x: string, workers: seq<Worker>, j: nat, k: nat)
    requires j < |workers| && k <= |workers[j].zones|
  {
    x in workers[j].zones[..k] || exists i :: 0 <= i < j && x in workers[i].zones
  }

  /** Worker j names its k-th zone only after all that are listed ahead of it have been named. */
  ghost predicate TurnTaken(list: seq<string>, workers: seq<Worker>, j: nat, k: nat)
    requires j < |workers| && k < |workers[j].zones|
  {
    forall p :: 0 <= p < Place(list, workers[j].zones[k]) ==> Seen(list[p], workers, j, k)
  }

  ghost predicate NoneOvertakes(list: seq<string>, workers: seq<Worker>) {
    forall j, k :: 0 <= j < |workers| && 0 <= k < |workers[j].zones| ==> TurnTaken(list, workers, j, k)
  }

  lemma SeenIsMerged(x: string, workers: seq<Worker>, j: nat, k: nat)
    requires j < |workers| && k <= |workers[j].zones|
    ensures Seen(x, workers, j, k) <==> x in Merge(ZonesOf(workers[..j]), workers[j].zones[..k])
  {
    assert forall i :: 0 <= i < j ==> workers[..j][i] == workers[i];
  }

  lemma TurnIsTaken(list: seq<string>, workers: seq<Worker>, j: nat, k: nat)
    requires j < |workers| && k < |workers[j].zones|
    ensures TurnTaken(list, workers, j, k) <==> TurnAt(list, ZonesOf(workers[..j]), workers[j].zones, k)
  {
    var zones := workers[j].zones;
    forall p | 0 <= p < Place(list, zones[k])
      ensures Seen(list[p], workers, j, k) <==> list[p] in Merge(ZonesOf(workers[..j]), zones[..k])
    {
      SeenIsMerged(list[p], workers, j, k);
    }
  }

  lemma {:induction false} ComparableIffNoneOvertakes(list: seq<string>, workers: seq<Worker>, n: nat)
    requires Distinct(list) && n <= |workers|
    ensures Comparable(list, ZonesOf(workers[..n])) <==>
            forall j, k :: 0 <= j < n && 0 <= k < |workers[j].zones| ==> TurnTaken(list, workers, j, k)
  {
    if n > 0 {
      var j := n - 1;
      var known, zones := ZonesOf(workers[..j]), workers[j].zones;
      ComparableIffNoneOvertakes(list, workers, j);
      assert workers[..n][..j] == workers[..j] && zones[..|zones|] == zones;
      forall k | 0 <= k < |zones| ensures TurnTaken(list, workers, j, k) <==> TurnAt(list, known, zones, k) {
        TurnIsTaken(list, workers, j, k);
      }
      if Comparable(list, known) {
        ComparableWorker(list, known, zones, |zones|);
      } else if Comparable(list, ZonesOf(workers[..n])) {
        EarlierIsComparable(list, known, ZonesOf(workers[..n]));
      }
    }
  }

  /** What the shoot has does not matter for the order in which new zones come. */
  lemma {:induction false} NewZonesInOrder(shoot: seq<Worker>, runtime: seq<Worker>, n: nat)
    requires n <= |runtime|
    ensures Merge(ZonesOf(shoot), ZonesOf(AllAligned(runtime, shoot)[..n])) == Merge(ZonesOf(shoot), ZonesOf(runtime[..n]))
  {
    if n > 0 {
      var j, had, after := n - 1, ZonesOf(shoot), AllAligned(runtime, shoot);
      NewZonesInOrder(shoot, runtime, j);
      assert after[..n][..j] == after[..j] && runtime[..n][..j] == runtime[..j];
      MergeAssociates(had, ZonesOf(after[..j]), after[j].zones);
      MergeAssociates(had, ZonesOf(runtime[..j]), runtime[j].zones);
      AlignedOntoExisting(had + Added(had, ZonesOf(runtime[..j])), runtime[j], shoot);
      MergeAppendsAdded(had, ZonesOf(runtime[..j]));
    }
  }

  lemma AlignedOntoExisting(acc: seq<string>, w: Worker, shoot: seq<Worker>)
    requires forall z :: z in ZonesOf(shoot) ==> z in acc
    ensures Merge(acc, Aligned(w, shoot).zones) == Merge(acc, w.zones)
  {
    var existing := Existing(shoot, w.name);
    if existing.Some? {
      MergeAssociates(acc, existing.value.zones, w.zones);
      MergeOfKnown(acc, existing.value.zones);
    }
  }

  /**
   The next patch goes on from the list of this one, so that no subnet ever moves, exactly when
   none of the shoot's zones goes away and no worker, as it ends up, names a zone that is new,
   or further back in the shoot's list, before the workers up to it have named those ahead.
   */
  lemma NextPatchGoesOn(shoot: seq<Worker>, runtime: seq<Worker>)
    ensures var after := AllAligned(runtime, shoot);
      ZonesOf(after) == Merged(shoot, runtime) <==>
        (forall z :: z in ZonesOf(shoot) ==> z in ZonesOf(after)) && NoneOvertakes(ZonesOf(shoot), after)
  {
    var had, after := ZonesOf(shoot), AllAligned(runtime, shoot);
    var now := ZonesOf(after);
    assert after[..|after|] == after && runtime[..|runtime|] == runtime;
    ComparableIffNoneOvertakes(had, after, |after|);
    NewZonesInOrder(shoot, runtime, |runtime|);
    MergeAppendsAdded(had, ZonesOf(runtime));
    if had <= now { MergeOfPrefix(had, now); }
    if now <= had { AllOfPrefix(now, had); }
  }

  lemma MergeOfPrefix(had: seq<string>, now: seq<string>)
    requires had <= now && Distinct(now)
    ensures Merge(had, now) == now
  {
    var rest := now[|had|..];
    assert now == had + rest;
    MergeOfDistinct(now);
    MergeOfDistinct(had);
    MergeOfKnown(had, had);
    MergeAppend(had, had, rest);
    MergeAppend([], had, rest);
  }

  lemma {:induction false} MergeAppend(acc: seq<string>, a: seq<string>, b: seq<string>)
    ensures Merge(acc, a + b) == Merge(Merge(acc, a), b)
  {
    if b == [] { assert a + b == a; }
    else {
      var n := |b| - 1;
      MergeAppend(acc, a, b[..n]);
      assert (a + b)[..|a + b| - 1] == a + b[..n];
    }
  }

  lemma AllOfPrefix(short: seq<string>, long: seq<string>)
    requires short <= long && Distinct(long)
    ensures (forall z :: z in long ==> z in short) ==> short == long
  {
    ListedAreKnown(long, short, |long|);
    assert forall p :: 0 <= p < |long| ==> long[p] in long;
  }

  lemma MergeOne(acc: seq<string>, z: string)
    ensures Merge(acc, [z]) == if z in acc then acc else acc + [z]
  {
    assert [z][..0] == [] && Merge(acc, []) == acc;
  }

  lemma MergeOneMore(acc: seq<string>, zones: seq<string>, z: string)
    ensures Merge(acc, zones + [z]) == Merge(Merge(acc, zones), [z])
  {
    assert (zones + [z])[..|zones|] == zones;
    MergeOne(Merge(acc, zones), z);
  }

  lemma ZonesOfTwo(v: Worker, w: Worker)
    ensures ZonesOf([v, w]) == Merge(Merge([], v.zones), w.zones)
  {
    assert [v, w][..1] == [v] && [v][..0] == [];
    assert ZonesOf([v]) == Merge(ZonesOf([]), v.zones);
  }

  lemma MergedOfTwo(shoot: seq<Worker>, v: Worker, w: Worker)
    ensures Merged(shoot, [v, w]) == Merge(Merge(ZonesOf(shoot), v.zones), w.zones)
  {
    MergeAppendsAdded(ZonesOf(shoot), ZonesOf([v, w]));
    ZonesOfTwo(v, w);
    MergeAssociates(ZonesOf(shoot), Merge([], v.zones), w.zones);
    MergeAssociates(ZonesOf(shoot), [], v.zones);
  }

  lemma MergeNewAfterKnown(acc: seq<string>, known: seq<string>, z: string)
    requires (forall y :: y in known ==> y in acc) && z !in acc
    ensures Merge(acc, known + [z]) == acc + [z]
  {
    MergeOneMore(acc, known, z);
    MergeOfKnown(acc, known);
    MergeOne(acc, z);
  }

  /** Zones of two workers, and of a patch that lets the first of them grow by z. */
  lemma FirstWorkerGrows(v: string, w: string, own: seq<string>, b: string, z: string)
    requires Distinct(own) && b !in own && z !in own && z != b
    ensures var shoot := [Worker(v, own), Worker(w, [b])];
      ZonesOf(shoot) == own + [b] && Merged(shoot, [Worker(v, own + [z]), Worker(w, [b])]) == own + [b] + [z]
  {
    var shoot := [Worker(v, own), Worker(w, [b])];
    ZonesOfTwo(shoot[0], shoot[1]);
    MergeOfDistinct(own);
    MergeOne(own, b);
    MergedOfTwo(shoot, Worker(v, own + [z]), Worker(w, [b]));
    MergeNewAfterKnown(own + [b], own, z);
    MergeOfKnown(own + [b] + [z], [b]);
  }

  lemma {:induction false} MergeOfDistinct(own: seq<string>)
    requires Distinct(own)
    ensures Merge([], own) == own
  {
    MergeAppendsAdded([], own);
    AddedToNothing(own);
  }

  lemma {:induction false} AddedToNothing(own: seq<string>)
    ensures Added([], own) == own
  {
    if own != [] { AddedToNothing(own[..|own| - 1]); }
  }

  /**
   In general it does not: a zone c added to the first of two workers is placed after b, the
   second worker's zone, but comes before it once the shoot has it; the next patch moves both.
   */
  lemma SecondPatchMovesZones(v: string, w: string, a: string, b: string, c: string, d: string)
    requires v != w && a !in [b, c, d] && b !in [c, d] && c != d
    ensures var shoot, runtime := [Worker(v, [a]), Worker(w, [b])], [Worker(v, [a] + [c]), Worker(w, [b])];
      var later := [Worker(v, [a] + [c] + [d]), Worker(w, [b])];
      && Merged(shoot, runtime) == [a] + [b] + [c]
      && Merged(AllAligned(runtime, shoot), later) == [a] + [c] + [b] + [d]
  {
    FirstWorkerGrows(v, w, [a], b, c);
    FirstWorkerGrows(v, w, [a] + [c], b, d);
    MergeNewAfterKnown([a], [a], c);
    MergeOne([b], b);
    TwoAligned(Worker(v, [a]), Worker(v, [a] + [c]), Worker(w, [b]));
  }

  lemma TwoAligned(first: Worker, grown: Worker, second: Worker)
    requires first.name == grown.name != second.name
    requires Merge(first.zones, grown.zones) == grown.zones && Merge(second.zones, second.zones) == second.zones
    ensures AllAligned([grown, second], [first, second]) == [grown, second]
  {
    assert [first, second][..1] == [first];
    assert Existing([first, second], first.name) == Some(first);
  }
}
