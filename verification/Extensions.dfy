/**
 The extensions of a shoot: the merge of what is there with what KIM's creators want, as it is
 done when a shoot is patched.
 */
module Extensions {
  import opened Wrappers
  import opened AuditLogTypes

  // ---- extensions and their configuration ----

  datatype AuditLogConfig = AuditLogConfig(header: string, kind: string, tenantId: string, serviceUrl: string, secretRef: string)
  datatype DnsConfig = DnsConfig(providers: seq<string>, rest: string)

  /** Encoded JSON: what KIM wrote decodes to itself, other text to whatever it holds, or not at all. */
  datatype Raw =
    | AuditLogJson(auditLog: AuditLogConfig)
    | DnsJson(dns: DnsConfig)
    | Text(text: string, asAuditLog: Option<AuditLogConfig>, asDns: Option<DnsConfig>)

  function DecodeAuditLog(raw: Raw): Option<AuditLogConfig> {
    match raw
    case AuditLogJson(c) => Some(c)
    case DnsJson(_) => None
    case Text(_, c, _) => c
  }

  function DecodeDns(raw: Raw): Option<DnsConfig> {
    match raw
    case AuditLogJson(_) => None
    case DnsJson(c) => Some(c)
    case Text(_, _, c) => c
  }

  datatype Kind = AuditLog | NetworkFilter | Dns | RegistryCache | ApiServerAcl | NvidiaOpenshell | Unmanaged(name: string)

  datatype Extension = Extension(kind: Kind, disabled: Option<bool>, config: Option<Raw>)

  datatype Failure = NilProviderConfig | Undecodable | AddressesUnavailable

  type Created = Result<Option<Extension>, Failure>

  datatype Strategy = Keep | Remove

  /** create depends on the shoot only through its own extension. */
  datatype Spec = Spec(kind: Kind, strategy: Strategy, create: Option<Extension> -> Created)

  // ---- the merge ----

  predicate DistinctKinds(exts: seq<Extension>) {
    forall i, j :: 0 <= i < j < |exts| ==> exts[i].kind != exts[j].kind
  }

  function IndexFrom(exts: seq<Extension>, k: Kind, i: nat): (r: Option<nat>)
    requires i <= |exts|
    ensures r.Some? ==> i <= r.value < |exts| && exts[r.value].kind == k && forall j :: i <= j < r.value ==> exts[j].kind != k
    ensures r.None? ==> forall j :: i <= j < |exts| ==> exts[j].kind != k
    decreases |exts| - i
  {
    if i == |exts| then None else if exts[i].kind == k then Some(i) else IndexFrom(exts, k, i + 1)
  }

  function IndexOf(exts: seq<Extension>, k: Kind): Option<nat> {
    IndexFrom(exts, k, 0)
  }

  function Find(exts: seq<Extension>, k: Kind): (r: Option<Extension>)
    ensures r.Some? ==> r.value in exts && r.value.kind == k
  {
    var i := IndexOf(exts, k);
    if i.None? then None else Some(exts[i.value])
  }

  /** Put what was created in its place. */
  function Place(exts: seq<Extension>, k: Kind, strategy: Strategy, created: Option<Extension>): seq<Extension> {
    var i := IndexOf(exts, k);
    if created.Some? then
      if i.None? then exts + [created.value] else exts[i.value := created.value]
    else if i.Some? && strategy == Remove then exts[..i.value] + exts[i.value + 1..]
    else exts
  }

  function ApplyOne(exts: seq<Extension>, spec: Spec): Result<seq<Extension>, Failure> {
    var created := spec.create(Find(exts, spec.kind));
    if created.Err? then Err(created.error) else Ok(Place(exts, spec.kind, spec.strategy, created.value))
  }

  function ApplyTo(exts: seq<Extension>, specs: seq<Spec>, n: nat): Result<seq<Extension>, Failure>
    requires n <= |specs|
  {
    if n == 0 then Ok(exts)
    else
      var before := ApplyTo(exts, specs, n - 1);
      if before.Err? then before else ApplyOne(before.value, specs[n - 1])
  }

  function Apply(exts: seq<Extension>, specs: seq<Spec>): Result<seq<Extension>, Failure> {
    ApplyTo(exts, specs, |specs|)
  }

  // ---- what one step does ----

  /** What becomes of an extension for which `created` was created. */
  function Becomes(own: Option<Extension>, strategy: Strategy, created: Option<Extension>): Option<Extension> {
    if created.Some? then created else if strategy == Remove then None else own
  }

  lemma FindIs(exts: seq<Extension>, i: nat)
    requires DistinctKinds(exts) && i < |exts|
    ensures IndexOf(exts, exts[i].kind) == Some(i) && Find(exts, exts[i].kind) == Some(exts[i])
  {
    var j := IndexOf(exts, exts[i].kind);
    if j.value < i { } else if i < j.value { }
  }

  lemma PlaceKeepsDistinct(exts: seq<Extension>, k: Kind, strategy: Strategy, created: Option<Extension>)
    requires DistinctKinds(exts) && (created.Some? ==> created.value.kind == k)
    ensures DistinctKinds(Place(exts, k, strategy, created))
  {
  }

  lemma FindExact(exts: seq<Extension>, k: Kind, r: Option<Extension>)
    requires DistinctKinds(exts)
    requires if r.Some? then r.value in exts && r.value.kind == k else forall j :: 0 <= j < |exts| ==> exts[j].kind != k
    ensures Find(exts, k) == r
  {
    if r.Some? {
      var i :| 0 <= i < |exts| && exts[i] == r.value;
      FindIs(exts, i);
    }
  }

  lemma FindInReplaced(exts: seq<Extension>, i: nat, e: Extension, other: Kind)
    requires DistinctKinds(exts) && i < |exts| && e.kind == exts[i].kind
    ensures Find(exts[i := e], other) == if other == e.kind then Some(e) else Find(exts, other)
  {
    var r := exts[i := e];
    if other == e.kind {
      assert r[i] == e;
      FindExact(r, other, Some(e));
    } else {
      var j := IndexOf(exts, other);
      if j.Some? { assert r[j.value] == exts[j.value]; }
      FindExact(r, other, Find(exts, other));
    }
  }

  lemma FindInAppended(exts: seq<Extension>, e: Extension, other: Kind)
    requires DistinctKinds(exts) && IndexOf(exts, e.kind).None?
    ensures Find(exts + [e], other) == if other == e.kind then Some(e) else Find(exts, other)
  {
    FindExact(exts + [e], other, if other == e.kind then Some(e) else Find(exts, other));
  }

  lemma FindInDeleted(exts: seq<Extension>, i: nat, other: Kind)
    requires DistinctKinds(exts) && i < |exts|
    ensures Find(exts[..i] + exts[i + 1..], other) == if other == exts[i].kind then None else Find(exts, other)
  {
    var r := exts[..i] + exts[i + 1..];
    forall j | 0 <= j < |r| ensures r[j] == exts[if j < i then j else j + 1] { }
    var j := IndexOf(exts, other);
    if j.Some? && other != exts[i].kind { assert r[if j.value < i then j.value else j.value - 1] == exts[j.value]; }
    FindExact(r, other, if other == exts[i].kind then None else Find(exts, other));
  }

  /** Placing changes its own kind as told, and no other. */
  lemma PlaceFinds(exts: seq<Extension>, k: Kind, strategy: Strategy, created: Option<Extension>, other: Kind)
    requires DistinctKinds(exts) && (created.Some? ==> created.value.kind == k)
    ensures Find(Place(exts, k, strategy, created), other) ==
            if other == k then Becomes(Find(exts, k), strategy, created) else Find(exts, other)
  {
    var at, r := IndexOf(exts, k), Place(exts, k, strategy, created);
    if created.Some? {
      if at.None? {
        assert r == exts + [created.value];
        FindInAppended(exts, created.value, other);
      } else {
        assert r == exts[at.value := created.value];
        FindInReplaced(exts, at.value, created.value, other);
      }
    } else if at.Some? && strategy == Remove {
      assert r == exts[..at.value] + exts[at.value + 1..];
      FindInDeleted(exts, at.value, other);
    } else {
      assert r == exts;
    }
  }

  /** The extensions no creator is there for. */
  function OthersOf(exts: seq<Extension>, kinds: set<Kind>): seq<Extension> {
    if exts == [] then []
    else
      var rest := OthersOf(exts[..|exts| - 1], kinds);
      var e := exts[|exts| - 1];
      if e.kind in kinds then rest else rest + [e]
  }

  lemma {:induction false} OthersOfReplaced(exts: seq<Extension>, kinds: set<Kind>, i: nat, e: Extension)
    requires i < |exts| && exts[i].kind in kinds && e.kind in kinds
    ensures OthersOf(exts[i := e], kinds) == OthersOf(exts, kinds)
  {
    var n := |exts| - 1;
    if i < n {
      OthersOfReplaced(exts[..n], kinds, i, e);
      assert exts[i := e][..n] == exts[..n][i := e];
    } else {
      assert exts[i := e][..n] == exts[..n];
    }
  }

  lemma {:induction false} OthersOfDeleted(exts: seq<Extension>, kinds: set<Kind>, i: nat)
    requires i < |exts| && exts[i].kind in kinds
    ensures OthersOf(exts[..i] + exts[i + 1..], kinds) == OthersOf(exts, kinds)
  {
    var n := |exts| - 1;
    var r := exts[..i] + exts[i + 1..];
    if i < n {
      OthersOfDeleted(exts[..n], kinds, i);
      assert r[..n - 1] == exts[..n][..i] + exts[..n][i + 1..];
    } else {
      assert r == exts[..n];
    }
  }

  lemma OthersStay(exts: seq<Extension>, kinds: set<Kind>, k: Kind, strategy: Strategy, created: Option<Extension>)
    requires k in kinds && (created.Some? ==> created.value.kind == k)
    ensures OthersOf(Place(exts, k, strategy, created), kinds) == OthersOf(exts, kinds)
  {
    var at := IndexOf(exts, k);
    if created.Some? {
      if at.Some? { OthersOfReplaced(exts, kinds, at.value, created.value); }
      else { assert (exts + [created.value])[..|exts|] == exts; }
    } else if at.Some? && strategy == Remove {
      OthersOfDeleted(exts, kinds, at.value);
    }
  }

  // ---- what the whole merge does ----

  /** Creators make extensions of their own kind, and there is one for each kind. */
  ghost predicate Proper(specs: seq<Spec>) {
    && (forall i, j :: 0 <= i < j < |specs| ==> specs[i].kind != specs[j].kind)
    && (forall i, own :: 0 <= i < |specs| && OwnKind(own, specs[i].kind) ==> TypedAt(specs[i], own))
  }

  predicate OwnKind(own: Option<Extension>, k: Kind) {
    own.Some? ==> own.value.kind == k
  }

  predicate TypedAt(spec: Spec, own: Option<Extension>) {
    var created := spec.create(own);
    created.Ok? && created.value.Some? ==> created.value.value.kind == spec.kind
  }

  function Kinds(specs: seq<Spec>): set<Kind> {
    set i | 0 <= i < |specs| :: specs[i].kind
  }

  /** What the merge has made of the extension of this kind. */
  predicate SettledBy(spec: Spec, own: Option<Extension>, later: Option<Extension>) {
    spec.create(own).Ok? && later == Becomes(own, spec.strategy, spec.create(own).value)
  }

  lemma StepFinds(before: seq<Extension>, spec: Spec, kinds: set<Kind>, k: Kind)
    requires DistinctKinds(before) && spec.kind in kinds && TypedAt(spec, Find(before, spec.kind)) && ApplyOne(before, spec).Ok?
    ensures var r := ApplyOne(before, spec).value;
      && DistinctKinds(r) && OthersOf(r, kinds) == OthersOf(before, kinds)
      && (if k == spec.kind then SettledBy(spec, Find(before, k), Find(r, k)) else Find(r, k) == Find(before, k))
  {
    var created := spec.create(Find(before, spec.kind)).value;
    PlaceKeepsDistinct(before, spec.kind, spec.strategy, created);
    PlaceFinds(before, spec.kind, spec.strategy, created, k);
    OthersStay(before, kinds, spec.kind, spec.strategy, created);
  }

  /** After n creators the types are still distinct, and what none of them is for is as before. */
  lemma {:induction false} MergeSpares(exts: seq<Extension>, specs: seq<Spec>, n: nat, k: Kind)
    requires DistinctKinds(exts) && Proper(specs) && n <= |specs| && ApplyTo(exts, specs, n).Ok?
    ensures var r := ApplyTo(exts, specs, n).value;
      && DistinctKinds(r) && OthersOf(r, Kinds(specs)) == OthersOf(exts, Kinds(specs))
      && ((forall i :: 0 <= i < n ==> specs[i].kind != k) ==> Find(r, k) == Find(exts, k))
  {
    if n > 0 {
      var spec, before := specs[n - 1], ApplyTo(exts, specs, n - 1).value;
      MergeSpares(exts, specs, n - 1, k);
      assert OwnKind(Find(before, spec.kind), spec.kind) && TypedAt(spec, Find(before, spec.kind));
      StepFinds(before, spec, Kinds(specs), k);
    }
  }

  /** What a creator is for is settled by what the shoot had of it at first. */
  lemma {:induction false} MergeFinds(exts: seq<Extension>, specs: seq<Spec>, n: nat, i: nat)
    requires DistinctKinds(exts) && Proper(specs) && i < n <= |specs| && ApplyTo(exts, specs, n).Ok?
    ensures SettledBy(specs[i], Find(exts, specs[i].kind), Find(ApplyTo(exts, specs, n).value, specs[i].kind))
  {
    var spec, before := specs[n - 1], ApplyTo(exts, specs, n - 1).value;
    MergeSpares(exts, specs, n - 1, spec.kind);
    assert OwnKind(Find(before, spec.kind), spec.kind) && TypedAt(spec, Find(before, spec.kind));
    StepFinds(before, spec, Kinds(specs), specs[i].kind);
    if i < n - 1 { MergeFinds(exts, specs, n - 1, i); }
  }

  predicate Creates(spec: Spec, exts: seq<Extension>) {
    spec.create(Find(exts, spec.kind)).Ok?
  }

  lemma MergeFailsAt(exts: seq<Extension>, specs: seq<Spec>, n: nat)
    requires DistinctKinds(exts) && Proper(specs) && n < |specs|
    ensures ApplyTo(exts, specs, n + 1).Ok? <==> ApplyTo(exts, specs, n).Ok? && Creates(specs[n], exts)
  {
    if ApplyTo(exts, specs, n).Ok? { MergeSpares(exts, specs, n, specs[n].kind); }
  }

  /** The merge goes through exactly when every creator does, on what the shoot had of its kind. */
  lemma {:induction false} MergeFails(exts: seq<Extension>, specs: seq<Spec>, n: nat)
    requires DistinctKinds(exts) && Proper(specs) && n <= |specs|
    ensures ApplyTo(exts, specs, n).Ok? <==> forall i :: 0 <= i < n ==> Creates(specs[i], exts)
  {
    if n > 0 {
      var m := n - 1;
      MergeFails(exts, specs, m);
      MergeFailsAt(exts, specs, m);
      assert (forall i :: 0 <= i < n ==> Creates(specs[i], exts)) <==>
             (forall i :: 0 <= i < m ==> Creates(specs[i], exts)) && Creates(specs[m], exts);
    }
  }

  // ---- applying it twice ----

  /** Creating again from what has become of an extension changes nothing. */
  predicate StableAt(spec: Spec, own: Option<Extension>) {
    var created := spec.create(own);
    created.Ok? ==>
      var later := Becomes(own, spec.strategy, created.value);
      spec.create(later).Ok? && Becomes(later, spec.strategy, spec.create(later).value) == later
  }

  ghost predicate Stable(specs: seq<Spec>) {
    forall i, own :: 0 <= i < |specs| && OwnKind(own, specs[i].kind) ==> StableAt(specs[i], own)
  }

  lemma PlaceNothingNew(exts: seq<Extension>, k: Kind, strategy: Strategy, created: Option<Extension>)
    requires Becomes(Find(exts, k), strategy, created) == Find(exts, k)
    ensures Place(exts, k, strategy, created) == exts
  {
  }

  lemma {:induction false} SecondMerge(exts: seq<Extension>, specs: seq<Spec>, done: seq<Extension>, n: nat)
    requires DistinctKinds(exts) && Proper(specs) && Stable(specs) && n <= |specs|
    requires Apply(exts, specs) == Ok(done)
    ensures ApplyTo(done, specs, n) == Ok(done)
  {
    if n > 0 {
      SecondMerge(exts, specs, done, n - 1);
      var spec := specs[n - 1];
      MergeFinds(exts, specs, |specs|, n - 1);
      var own := Find(exts, spec.kind);
      assert OwnKind(own, spec.kind) && StableAt(spec, own);
      PlaceNothingNew(done, spec.kind, spec.strategy, spec.create(Find(done, spec.kind)).value);
    }
  }

  /** Applied to its own output the merge changes nothing. */
  lemma MergeIsIdempotent(exts: seq<Extension>, specs: seq<Spec>)
    requires DistinctKinds(exts) && Proper(specs) && Stable(specs) && Apply(exts, specs).Ok?
    ensures Apply(Apply(exts, specs).value, specs) == Apply(exts, specs)
  {
    SecondMerge(exts, specs, Apply(exts, specs).value, |specs|);
  }

  // ---- the creators of a patch ----

  const AUDIT_LOG_REFERENCE: string := "auditlog-credentials"
  const AUDIT_LOG_HEADER: string := "AuditlogConfig service.auditlog.extensions.gardener.cloud/v1alpha1"

  function NewAuditLogConfig(d: AuditLogData): AuditLogConfig {
    AuditLogConfig(AUDIT_LOG_HEADER, "standard", d.tenantId, d.serviceUrl, AUDIT_LOG_REFERENCE)
  }

  function NewAuditLogExtension(d: AuditLogData): Extension {
    Extension(AuditLog, None, Some(AuditLogJson(NewAuditLogConfig(d))))
  }

  function CreateAuditLog(data: Option<AuditLogData>, own: Option<Extension>): Created {
    if data.None? then Ok(None)
    else if own.None? then Ok(Some(NewAuditLogExtension(data.value)))
    else if own.value.config.None? then Err(NilProviderConfig)
    else
      var existing := DecodeAuditLog(own.value.config.value);
      if existing.None? then Err(Undecodable)
      else if existing.value != NewAuditLogConfig(data.value) then Ok(Some(NewAuditLogExtension(data.value)))
      else Ok(None)
  }

  function CreateDns(desired: DnsConfig, own: Option<Extension>): Created {
    var wanted := Extension(Dns, None, Some(DnsJson(desired)));
    if own.None? || own.value.config.None? then Ok(Some(wanted))
    else
      var existing := DecodeDns(own.value.config.value);
      if existing.None? then Err(Undecodable)
      else if existing.value.providers == [] then Ok(own)
      else if existing.value == desired then Ok(None)
      else Ok(Some(wanted))
  }

  /** What a patch is made with, besides the shoot's own extensions. */
  datatype Inputs = Inputs(
    auditLog: Option<AuditLogData>,
    filtersEnabled: bool,
    filterDisabled: bool,
    filterConfig: Option<Raw>,
    dns: DnsConfig,
    caches: Option<Raw>,
    aclEnabled: bool,
    aclRules: Result<Option<Raw>, string>,
    openshell: bool)

  /** Without allowed addresses the extension is switched off. */
  function AclExtension(rules: Option<Raw>): Extension {
    Extension(ApiServerAcl, Some(rules.None?), rules)
  }

  function CreateAcl(inputs: Inputs, own: Option<Extension>): Created {
    if !inputs.aclEnabled then
      if own.None? then Ok(None) else Ok(Some(AclExtension(None)))
    else if inputs.aclRules.Err? then Err(AddressesUnavailable)
    else Ok(Some(AclExtension(inputs.aclRules.value)))
  }

  function CreateOpenshell(enabled: bool, own: Option<Extension>): Created {
    if !enabled && own.None? then Ok(None) else Ok(Some(Extension(NvidiaOpenshell, Some(!enabled), None)))
  }

  /** The six creators of NewExtensionsExtenderForPatch, in their order. */
  function PatchSpecs(inputs: Inputs): (r: seq<Spec>)
    ensures |r| == 6
  {
    [Spec(AuditLog, Keep, own => CreateAuditLog(inputs.auditLog, own)),
     Spec(NetworkFilter, Keep, own =>
       if inputs.filtersEnabled then Ok(Some(Extension(NetworkFilter, Some(inputs.filterDisabled), inputs.filterConfig))) else Ok(None)),
     Spec(Dns, Keep, own => CreateDns(inputs.dns, own)),
     Spec(RegistryCache, Remove, own =>
       if inputs.caches.Some? then Ok(Some(Extension(RegistryCache, Some(false), inputs.caches))) else Ok(None)),
     Spec(ApiServerAcl, Keep, own => CreateAcl(inputs, own)),
     Spec(NvidiaOpenshell, Keep, own => CreateOpenshell(inputs.openshell, own))]
  }

  lemma PatchSpecsAreProper(inputs: Inputs)
    ensures Proper(PatchSpecs(inputs))
  {
    var specs := PatchSpecs(inputs);
    forall i, own | 0 <= i < |specs| && OwnKind(own, specs[i].kind) ensures TypedAt(specs[i], own) {
      assert i == 0 || i == 1 || i == 2 || i == 3 || i == 4 || i == 5;
    }
  }

  lemma PatchSpecsAreStable(inputs: Inputs)
    ensures Stable(PatchSpecs(inputs))
  {
    var specs := PatchSpecs(inputs);
    forall i, own | 0 <= i < |specs| && OwnKind(own, specs[i].kind) ensures StableAt(specs[i], own) {
      assert i == 0 || i == 1 || i == 2 || i == 3 || i == 4 || i == 5;
    }
  }

  predicate Managed(k: Kind) {
    !k.Unmanaged?
  }

  lemma ManagedKinds(inputs: Inputs, k: Kind)
    ensures k in Kinds(PatchSpecs(inputs)) <==> Managed(k)
  {
    var specs := PatchSpecs(inputs);
    assert specs[0].kind == AuditLog && specs[1].kind == NetworkFilter && specs[2].kind == Dns;
    assert specs[3].kind == RegistryCache && specs[4].kind == ApiServerAcl && specs[5].kind == NvidiaOpenshell;
  }

  /**
   A patch of a shoot whose extensions have distinct types: the types stay distinct, extensions
   KIM does not manage stay as they are and in order, only the registry cache can disappear, and
   patching again with the same inputs changes nothing.
   */
  lemma PatchIsSafe(exts: seq<Extension>, inputs: Inputs)
    requires DistinctKinds(exts) && Apply(exts, PatchSpecs(inputs)).Ok?
    ensures var r := Apply(exts, PatchSpecs(inputs)).value;
      && DistinctKinds(r)
      && OthersOf(r, Kinds(PatchSpecs(inputs))) == OthersOf(exts, Kinds(PatchSpecs(inputs)))
      && (forall k :: k != RegistryCache && Find(exts, k).Some? ==> Find(r, k).Some?)
      && (Find(r, RegistryCache).Some? <==> inputs.caches.Some?)
      && Apply(r, PatchSpecs(inputs)) == Ok(r)
  {
    var specs := PatchSpecs(inputs);
    PatchSpecsAreProper(inputs);
    PatchSpecsAreStable(inputs);
    MergeIsIdempotent(exts, specs);
    var r := Apply(exts, specs).value;
    MergeSpares(exts, specs, 6, RegistryCache);
    MergeFinds(exts, specs, 6, 3);
    forall k | k != RegistryCache && Find(exts, k).Some? ensures Find(r, k).Some? { NothingElseGoes(exts, inputs, k); }
  }

  lemma NothingElseGoes(exts: seq<Extension>, inputs: Inputs, k: Kind)
    requires DistinctKinds(exts) && Apply(exts, PatchSpecs(inputs)).Ok? && k != RegistryCache && Find(exts, k).Some?
    ensures Find(Apply(exts, PatchSpecs(inputs)).value, k).Some?
  {
    var specs := PatchSpecs(inputs);
    PatchSpecsAreProper(inputs);
    ManagedKinds(inputs, k);
    if Managed(k) {
      var i :| 0 <= i < 6 && specs[i].kind == k;
      MergeFinds(exts, specs, 6, i);
      assert i != 3;
    } else {
      MergeSpares(exts, specs, 6, k);
    }
  }

  // ---- when a patch fails ----

  predicate Decodable(own: Option<Extension>) {
    own.Some? ==> own.value.config.Some? && DecodeAuditLog(own.value.config.value).Some?
  }

  predicate DnsDecodable(own: Option<Extension>) {
    own.Some? && own.value.config.Some? ==> DecodeDns(own.value.config.value).Some?
  }

  /** What the i-th creator of a patch asks of the shoot and of the inputs. */
  predicate Asks(exts: seq<Extension>, inputs: Inputs, i: nat) {
    match i
    case 0 => inputs.auditLog.Some? ==> Decodable(Find(exts, AuditLog))
    case 2 => DnsDecodable(Find(exts, Dns))
    case 4 => inputs.aclEnabled ==> inputs.aclRules.Ok?
    case _ => true
  }

  lemma CreatesWhatItAsks(exts: seq<Extension>, inputs: Inputs, i: nat)
    requires i < 6
    ensures Creates(PatchSpecs(inputs)[i], exts) <==> Asks(exts, inputs, i)
  {
    assert i == 0 || i == 1 || i == 2 || i == 3 || i == 4 || i == 5;
  }

  /**
   A patch goes through exactly when the configurations it has to look at can be decoded, the
   audit log's being there at all, and the addresses for the access list are available.
   */
  lemma PatchGoesThrough(exts: seq<Extension>, inputs: Inputs)
    requires DistinctKinds(exts)
    ensures Apply(exts, PatchSpecs(inputs)).Ok? <==>
            && (inputs.auditLog.Some? ==> Decodable(Find(exts, AuditLog)))
            && DnsDecodable(Find(exts, Dns))
            && (inputs.aclEnabled ==> inputs.aclRules.Ok?)
  {
    PatchSpecsAreProper(inputs);
    MergeFails(exts, PatchSpecs(inputs), 6);
    forall i | 0 <= i < 6 ensures Creates(PatchSpecs(inputs)[i], exts) <==> Asks(exts, inputs, i) {
      CreatesWhatItAsks(exts, inputs, i);
    }
    assert Asks(exts, inputs, 0) && Asks(exts, inputs, 2) && Asks(exts, inputs, 4) ==> forall i :: 0 <= i < 6 ==> Asks(exts, inputs, i);
  }

  /** Only the audit log's creator, the first one, takes a configuration for granted. */
  lemma {:induction false} OthersExpectNil(exts: seq<Extension>, inputs: Inputs, n: nat)
    requires 1 <= n <= 6 && ApplyTo(exts, PatchSpecs(inputs), 1).Ok?
    ensures ApplyTo(exts, PatchSpecs(inputs), n) != Err(NilProviderConfig)
  {
    if n > 1 {
      OthersExpectNil(exts, inputs, n - 1);
      assert n == 2 || n == 3 || n == 4 || n == 5 || n == 6;
    }
  }

  /** The patch runs into a missing configuration, on any shoot, exactly in this case. */
  lemma PatchMeetsNilConfig(exts: seq<Extension>, inputs: Inputs)
    ensures Apply(exts, PatchSpecs(inputs)) == Err(NilProviderConfig) <==>
            inputs.auditLog.Some? && Find(exts, AuditLog).Some? && Find(exts, AuditLog).value.config.None?
  {
    var specs := PatchSpecs(inputs);
    var first := ApplyTo(exts, specs, 1);
    assert ApplyTo(exts, specs, 0) == Ok(exts) && first == ApplyOne(exts, specs[0]);
    if first.Err? { FailureStays(exts, specs, 1, 6); } else { OthersExpectNil(exts, inputs, 6); }
  }

  /** Such a shoot: one whose audit-log extension was added without a configuration. */
  lemma NilConfigInput(inputs: Inputs)
    requires inputs.auditLog.Some?
    ensures Apply([Extension(AuditLog, None, None)], PatchSpecs(inputs)) == Err(NilProviderConfig)
  {
    var exts := [Extension(AuditLog, None, None)];
    FindIs(exts, 0);
    PatchMeetsNilConfig(exts, inputs);
  }

  // ---- the merge as it runs ----

  class ShootSpec {
    var extensions: seq<Extension>

    constructor ()
      ensures extensions == []
    {
      extensions := [];
    }

    method IndexFunc(k: Kind) returns (r: Option<nat>)
      ensures r == IndexOf(extensions, k)
    {
      for i := 0 to |extensions|
        invariant forall j :: 0 <= j < i ==> extensions[j].kind != k
      {
        if extensions[i].kind == k { return Some(i); }
      }
      return None;
    }

    /** Add, replace or delete the extension of a kind. */
    method Update(index: Option<nat>, spec: Spec, updated: Option<Extension>)
      requires index == IndexOf(extensions, spec.kind)
      modifies this
      ensures extensions == Place(old(extensions), spec.kind, spec.strategy, updated)
    {
      if index.None? {
        if updated.Some? { extensions := extensions + [updated.value]; }
      } else if updated.Some? {
        extensions := extensions[index.value := updated.value];
      } else if spec.strategy == Remove {
        extensions := extensions[..index.value] + extensions[index.value + 1..];
      }
    }

    /** On a failure the half-merged shoot is thrown away by the caller. */
    method Extend(current: seq<Extension>, specs: seq<Spec>) returns (failure: Option<Failure>)
      requires extensions == []
      modifies this
      ensures if failure.None? then Apply(current, specs) == Ok(extensions) else Apply(current, specs) == Err(failure.value)
    {
      for i := 0 to |current|
        invariant extensions == current[..i]
      {
        extensions := extensions + [current[i]];
      }
      assert current[..|current|] == current;
      for n := 0 to |specs|
        invariant ApplyTo(current, specs, n) == Ok(extensions)
      {
        var index := IndexFunc(specs[n].kind);
        var updated := specs[n].create(if index.None? then None else Some(extensions[index.value]));
        assert ApplyTo(current, specs, n + 1) == ApplyOne(extensions, specs[n]);
        if updated.Err? {
          FailureStays(current, specs, n + 1, |specs|);
          return Some(updated.error);
        }
        Update(index, specs[n], updated.value);
      }
      return None;
    }
  }

  lemma {:induction false} FailureStays(exts: seq<Extension>, specs: seq<Spec>, n: nat, m: nat)
    requires n <= m <= |specs| && ApplyTo(exts, specs, n).Err?
    ensures ApplyTo(exts, specs, m) == ApplyTo(exts, specs, n)
  {
    if n < m { FailureStays(exts, specs, n, m - 1); }
  }
}
