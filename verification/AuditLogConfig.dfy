/**
 A shoot's audit-log settings: two writers and the one reader.  The dedicated patch rewrites the
 extension in place and uses a reference of its own; the converter replaces the extension and
 sets the shared reference.  What the reader finds is what the last of them wrote.
 */
module AuditLogConfig {
  import opened Wrappers
  import opened AuditLogTypes
  import opened Extensions

  /** A resource of the shoot by name, and the secret it stands for. */
  datatype Resource = Resource(name: string, secret: string)

  const DEDICATED_REFERENCE: string := "dedicated-auditlog-credentials"

  datatype ConfigError = NoExtension | NilConfig | BadConfig | NoResource

  // ---- resources ----

  function IndexFrom(resources: seq<Resource>, name: string, i: nat): (r: Option<nat>)
    requires i <= |resources|
    ensures r.Some? ==> i <= r.value < |resources| && resources[r.value].name == name && forall j :: i <= j < r.value ==> resources[j].name != name
    ensures r.None? ==> forall j :: i <= j < |resources| ==> resources[j].name != name
    decreases |resources| - i
  {
    if i == |resources| then None else if resources[i].name == name then Some(i) else IndexFrom(resources, name, i + 1)
  }

  function SecretOf(resources: seq<Resource>, name: string): Option<string> {
    var i := IndexFrom(resources, name, 0);
    if i.None? then None else Some(resources[i.value].secret)
  }

  function Upsert(resources: seq<Resource>, name: string, secret: string): seq<Resource> {
    var i := IndexFrom(resources, name, 0);
    if i.None? then resources + [Resource(name, secret)] else resources[i.value := Resource(name, secret)]
  }

  /** An upsert is read back, and no other reference changes. */
  lemma UpsertIsRead(resources: seq<Resource>, name: string, secret: string, other: string)
    ensures SecretOf(Upsert(resources, name, secret), other) == if other == name then Some(secret) else SecretOf(resources, other)
  {
    var r := Upsert(resources, name, secret);
    var at := IndexFrom(resources, name, 0);
    FirstIs(r, name, if at.None? then |resources| else at.value);
    if other != name {
      var i := IndexFrom(resources, other, 0);
      if i.Some? {
        assert r[i.value] == resources[i.value];
        FirstIs(r, other, i.value);
      }
    }
  }

  lemma FirstIs(resources: seq<Resource>, name: string, i: nat)
    requires i < |resources| && resources[i].name == name && forall j :: 0 <= j < i ==> resources[j].name != name
    ensures IndexFrom(resources, name, 0) == Some(i)
  {
    var j := IndexFrom(resources, name, 0);
    if j.value < i { } else if i < j.value { }
  }

  // ---- the reader ----

  /** The tenant, the URL and the secret a shoot is configured with. */
  datatype Target = Target(tenantId: string, serviceUrl: string, secretName: string)

  function TargetOf(d: AuditLogData): Target {
    Target(d.tenantId, d.serviceUrl, d.secretName)
  }

  function Read(exts: seq<Extension>, resources: seq<Resource>): Result<Target, ConfigError> {
    var ext := Find(exts, AuditLog);
    if ext.None? then Err(NoExtension)
    else if ext.value.config.None? then Err(NilConfig)
    else
      var config := DecodeAuditLog(ext.value.config.value);
      if config.None? then Err(BadConfig)
      else
        var secret := SecretOf(resources, config.value.secretRef);
        if secret.None? then Err(NoResource) else Ok(Target(config.value.tenantId, config.value.serviceUrl, secret.value))
  }

  // ---- the dedicated writer ----

  function DedicatedConfig(header: string, d: AuditLogData): AuditLogConfig {
    Extensions.AuditLogConfig.AuditLogConfig(header, "standard", d.tenantId, d.serviceUrl, DEDICATED_REFERENCE)
  }

  /** The existing extension keeps its type header and whether it is disabled. */
  function WriteExtension(exts: seq<Extension>, d: AuditLogData): Result<seq<Extension>, ConfigError> {
    var i := IndexOf(exts, AuditLog);
    if i.None? then Ok(exts + [Extension(AuditLog, None, Some(AuditLogJson(DedicatedConfig(AUDIT_LOG_HEADER, d))))])
    else if exts[i.value].config.None? then Err(NilConfig)
    else
      var config := DecodeAuditLog(exts[i.value].config.value);
      if config.None? then Err(BadConfig)
      else Ok(exts[i.value := exts[i.value].(config := Some(AuditLogJson(DedicatedConfig(config.value.header, d))))])
  }

  /** The extension is there, but its configuration is missing or cannot be decoded. */
  predicate Broken(exts: seq<Extension>) {
    !Decodable(Find(exts, AuditLog))
  }

  /** The writer fails exactly where the reader could not have read the extension either. */
  lemma WriterFailsWithReader(exts: seq<Extension>, resources: seq<Resource>, d: AuditLogData)
    ensures WriteExtension(exts, d).Err? <==> Broken(exts)
    ensures Broken(exts) <==> Read(exts, resources) == Err(NilConfig) || Read(exts, resources) == Err(BadConfig)
    ensures WriteExtension(exts, d).Err? ==> Read(exts, resources) == Err(WriteExtension(exts, d).error)
  {
  }

  lemma FirstOfKind(exts: seq<Extension>, k: Kind, i: nat)
    requires i < |exts| && exts[i].kind == k && forall j :: 0 <= j < i ==> exts[j].kind != k
    ensures IndexOf(exts, k) == Some(i)
  {
    var j := IndexOf(exts, k);
    if j.value < i { } else if i < j.value { }
  }

  /** What the dedicated patch has written is what the reader finds. */
  lemma DedicatedIsRead(exts: seq<Extension>, resources: seq<Resource>, d: AuditLogData)
    requires WriteExtension(exts, d).Ok?
    ensures Read(WriteExtension(exts, d).value, Upsert(resources, DEDICATED_REFERENCE, d.secretName)) == Ok(TargetOf(d))
  {
    var r, i := WriteExtension(exts, d).value, IndexOf(exts, AuditLog);
    FirstOfKind(r, AuditLog, if i.None? then |exts| else i.value);
    UpsertIsRead(resources, DEDICATED_REFERENCE, d.secretName, DEDICATED_REFERENCE);
  }

  // ---- the converter ----

  /** So is what the converter's patch has written, whatever was there before. */
  lemma ConverterIsRead(exts: seq<Extension>, resources: seq<Resource>, inputs: Inputs)
    requires DistinctKinds(exts) && inputs.auditLog.Some? && Apply(exts, PatchSpecs(inputs)).Ok?
    ensures var d := inputs.auditLog.value;
      Read(Apply(exts, PatchSpecs(inputs)).value, Upsert(resources, AUDIT_LOG_REFERENCE, d.secretName)) == Ok(TargetOf(d))
  {
    var specs, d := PatchSpecs(inputs), inputs.auditLog.value;
    PatchSpecsAreProper(inputs);
    MergeFinds(exts, specs, 6, 0);
    UpsertIsRead(resources, AUDIT_LOG_REFERENCE, d.secretName, AUDIT_LOG_REFERENCE);
  }

  /** The writers do not disturb each other: after any sequence of patches the last one is read. */
  datatype Patch = DedicatedPatch(data: AuditLogData) | ConverterPatch(inputs: Inputs)

  datatype ShootValue = ShootValue(extensions: seq<Extension>, resources: seq<Resource>)

  function Written(s: ShootValue, p: Patch): Option<ShootValue> {
    match p
    case DedicatedPatch(d) =>
      var exts := WriteExtension(s.extensions, d);
      if exts.Err? then None else Some(ShootValue(exts.value, Upsert(s.resources, DEDICATED_REFERENCE, d.secretName)))
    case ConverterPatch(inputs) =>
      var exts := Apply(s.extensions, PatchSpecs(inputs));
      if exts.Err? then None
      else Some(ShootValue(exts.value,
        if inputs.auditLog.None? then s.resources else Upsert(s.resources, AUDIT_LOG_REFERENCE, inputs.auditLog.value.secretName)))
  }

  /** A patch that fails leaves the shoot as it is. */
  function WrittenAll(s: ShootValue, ps: seq<Patch>): ShootValue {
    if ps == [] then s
    else
      var before := WrittenAll(s, ps[..|ps| - 1]);
      var after := Written(before, ps[|ps| - 1]);
      if after.None? then before else after.value
  }

  function Intended(p: Patch): Option<AuditLogData> {
    if p.DedicatedPatch? then Some(p.data) else p.inputs.auditLog
  }

  lemma PatchKeepsDistinct(s: ShootValue, p: Patch)
    requires DistinctKinds(s.extensions) && Written(s, p).Some?
    ensures DistinctKinds(Written(s, p).value.extensions)
  {
    if p.ConverterPatch? {
      PatchSpecsAreProper(p.inputs);
      MergeSpares(s.extensions, PatchSpecs(p.inputs), 6, AuditLog);
    }
  }

  lemma {:induction false} PatchesKeepDistinct(s: ShootValue, ps: seq<Patch>)
    requires DistinctKinds(s.extensions)
    ensures DistinctKinds(WrittenAll(s, ps).extensions)
  {
    if ps != [] {
      PatchesKeepDistinct(s, ps[..|ps| - 1]);
      var before := WrittenAll(s, ps[..|ps| - 1]);
      if Written(before, ps[|ps| - 1]).Some? { PatchKeepsDistinct(before, ps[|ps| - 1]); }
    }
  }

  lemma LastPatchIsRead(s: ShootValue, ps: seq<Patch>, p: Patch)
    requires DistinctKinds(s.extensions) && Intended(p).Some? && Written(WrittenAll(s, ps), p).Some?
    ensures var r := WrittenAll(s, ps + [p]); Read(r.extensions, r.resources) == Ok(TargetOf(Intended(p).value))
  {
    assert (ps + [p])[..|ps|] == ps;
    PatchesKeepDistinct(s, ps);
    var before := WrittenAll(s, ps);
    match p
    case DedicatedPatch(d) => DedicatedIsRead(before.extensions, before.resources, d);
    case ConverterPatch(inputs) => ConverterIsRead(before.extensions, before.resources, inputs);
  }

  /** What a shoot is configured with is what data asks for. */
  predicate ReadsAs(s: ShootValue, d: AuditLogData) {
    Read(s.extensions, s.resources) == Ok(TargetOf(d))
  }

  /** No patch of KIM's breaks an audit-log extension, and none repairs a broken one. */
  lemma PatchKeepsBroken(s: ShootValue, p: Patch)
    requires DistinctKinds(s.extensions) && Written(s, p).Some?
    ensures Broken(Written(s, p).value.extensions) <==> Broken(s.extensions)
  {
    match p
    case DedicatedPatch(d) =>
      WriterFailsWithReader(s.extensions, s.resources, d);
      DedicatedIsRead(s.extensions, s.resources, d);
      var r := Written(s, p).value;
      WriterFailsWithReader(r.extensions, r.resources, d);
    case ConverterPatch(inputs) =>
      PatchSpecsAreProper(inputs);
      MergeFinds(s.extensions, PatchSpecs(inputs), 6, 0);
  }

  lemma {:induction false} PatchesKeepBroken(s: ShootValue, ps: seq<Patch>)
    requires DistinctKinds(s.extensions)
    ensures Broken(WrittenAll(s, ps).extensions) <==> Broken(s.extensions)
  {
    if ps != [] {
      var before, p := WrittenAll(s, ps[..|ps| - 1]), ps[|ps| - 1];
      PatchesKeepBroken(s, ps[..|ps| - 1]);
      PatchesKeepDistinct(s, ps[..|ps| - 1]);
      if Written(before, p).Some? { PatchKeepsBroken(before, p); }
    }
  }

  /** A converter patch without audit-log data leaves what is read alone. */
  lemma SilentPatchIsNeutral(s: ShootValue, inputs: Inputs)
    requires DistinctKinds(s.extensions) && inputs.auditLog.None? && Written(s, ConverterPatch(inputs)).Some?
    ensures var r := Written(s, ConverterPatch(inputs)).value; Read(r.extensions, r.resources) == Read(s.extensions, s.resources)
  {
    PatchSpecsAreProper(inputs);
    MergeFinds(s.extensions, PatchSpecs(inputs), 6, 0);
  }

  // ---- in place ----

  class Shoot {
    var extensions: seq<Extension>
    var resources: seq<Resource>

    constructor (s: ShootValue)
      ensures extensions == s.extensions && resources == s.resources
    {
      extensions, resources := s.extensions, s.resources;
    }

    function Value(): ShootValue
      reads this
    {
      ShootValue(extensions, resources)
    }

    method UpdateAuditLogExtensionConfig(d: AuditLogData) returns (err: Option<ConfigError>)
      modifies this`extensions
      ensures if err.None? then WriteExtension(old(extensions), d) == Ok(extensions)
              else WriteExtension(old(extensions), d) == Err(err.value) && extensions == old(extensions)
    {
      for i := 0 to |extensions|
        invariant extensions == old(extensions) && forall j :: 0 <= j < i ==> extensions[j].kind != AuditLog
      {
        if extensions[i].kind == AuditLog {
          FirstOfKind(extensions, AuditLog, i);
          if extensions[i].config.None? { return Some(NilConfig); }
          var config := DecodeAuditLog(extensions[i].config.value);
          if config.None? { return Some(BadConfig); }
          extensions := extensions[i := extensions[i].(config := Some(AuditLogJson(DedicatedConfig(config.value.header, d))))];
          return None;
        }
      }
      extensions := extensions + [Extension(AuditLog, None, Some(AuditLogJson(DedicatedConfig(AUDIT_LOG_HEADER, d))))];
      return None;
    }

    /** upsertAuditLogSecretReference and oSetSecret differ only in the name of the reference. */
    method SetSecret(name: string, secret: string)
      modifies this`resources
      ensures resources == Upsert(old(resources), name, secret)
    {
      for i := 0 to |resources|
        invariant resources == old(resources) && forall j :: 0 <= j < i ==> resources[j].name != name
      {
        if resources[i].name == name {
          FirstIs(resources, name, i);
          resources := resources[i := Resource(name, secret)];
          return;
        }
      }
      resources := resources + [Resource(name, secret)];
    }

    method ApplyDedicatedAuditLog(d: AuditLogData) returns (err: Option<ConfigError>)
      modifies this
      ensures err.None? <==> Written(old(Value()), DedicatedPatch(d)).Some?
      ensures err.None? ==> Value() == Written(old(Value()), DedicatedPatch(d)).value
      ensures err.Some? ==> Value() == old(Value())
    {
      err := UpdateAuditLogExtensionConfig(d);
      if err.None? { SetSecret(DEDICATED_REFERENCE, d.secretName); }
    }

    method GetAuditLogConfig() returns (r: Result<Target, ConfigError>)
      ensures r == Read(extensions, resources)
    {
      for i := 0 to |extensions|
        invariant forall j :: 0 <= j < i ==> extensions[j].kind != AuditLog
      {
        if extensions[i].kind == AuditLog {
          FirstOfKind(extensions, AuditLog, i);
          if extensions[i].config.None? { return Err(NilConfig); }
          var config := DecodeAuditLog(extensions[i].config.value);
          if config.None? { return Err(BadConfig); }
          for j := 0 to |resources|
            invariant forall k :: 0 <= k < j ==> resources[k].name != config.value.secretRef
          {
            if resources[j].name == config.value.secretRef {
              FirstIs(resources, config.value.secretRef, j);
              return Ok(Target(config.value.tenantId, config.value.serviceUrl, resources[j].secret));
            }
          }
          return Err(NoResource);
        }
      }
      return Err(NoExtension);
    }
  }
}
