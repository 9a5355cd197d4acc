/** The Runtime custom resource, the shoot as KIM reads it, and what the API calls may answer. */
module RuntimeTypes {
  import opened Wrappers
  import opened AuditLogTypes
  import AuditLogConfig

  // ---- the Runtime resource ----

  datatype RuntimeState = Unset | Ready | Failed | Pending | Terminating

  /** TerminatingType: one failure branch passes the state name where a condition type belongs. */
  datatype ConditionType =
    | Provisioned | KubeconfigReady | OidcAndCMsConfigured | KymaSystemCreated | Configured
    | Deprovisioned | RegistryCacheConfigured | RuntimeBootstrapperReady
    | CustomAuditLogConfigured | AuditLogCredentialsCopied | TerminatingType

  datatype Reason =
    | Processing | ProcessingErr | Initialized | ShootCreationPending | ShootCreationCompleted
    | GardenerCRCreated | GardenerCRReady | ConfigurationCompleted | ConfigurationErr
    | GardenerCRDeleted | GardenerShootDeleted | StructuredConfigDeleted
    | ConversionError | CreationError | GardenerError | KubernetesAPIErr
    | AuditLogError | CustomAuditLogError | AuditLogConfigured | CredentialsCopyError | CredentialsCopied
    | AdministratorsConfigured | OidcAndCMsDone | OidcError | CMError
    | KymaSystemNSError | KymaSystemNSReady | SeedNotFound
    | CacheConfigured | CacheConfigurationFailed | CacheCleanupFailed
    | BootstrapperStatusUnknown | BootstrapperInstallationFailed | BootstrapperInstallationInProgress
    | BootstrapperConfigured | BootstrapperUpgradeFailed | BootstrapperUpgradeInProgress
    | BootstrapperConfigurationFailed

  datatype Truth = True | False | Unknown

  /** Fixed texts by number; Detail carries the text of an error. */
  datatype Message = Text(id: nat) | Detail(text: string)

  datatype Condition = Condition(status: Truth, reason: Reason, message: Message, since: int)

  datatype LastOperationType = Create | Reconcile | Delete | Migrate | Restore
  datatype LastOperationState = Processing_ | Pending_ | Aborted | Error | Failed_ | Succeeded | Other_

  datatype LastOperation = LastOperation(kind: LastOperationType, state: LastOperationState, noMatchingSeeds: bool, description: string)
  datatype LastErrors = LastErrors(text: string, retryable: bool)

  datatype Status = Status(
    state: RuntimeState,
    conditions: map<ConditionType, Condition>,
    provisioningCompleted: bool,
    shootLastOperation: Option<LastOperation>,
    shootLastErrors: LastErrors)
  {
    /** A condition keeps its transition time as long as its status does not change. */
    function Since(t: ConditionType, c: Truth, now: int): int {
      if t in conditions && conditions[t].status == c then conditions[t].since else now
    }

    function Set(st: RuntimeState, t: ConditionType, c: Truth, r: Reason, m: Message, now: int): Status {
      Status(st, conditions[t := Condition(c, r, m, Since(t, c, now))], provisioningCompleted, shootLastOperation, shootLastErrors)
    }

    predicate Has(st: RuntimeState, t: ConditionType, r: Reason, c: Truth) {
      state == st && t in conditions && conditions[t].reason == r && conditions[t].status == c
    }
  }

  /** What the user and the API server decide; a run changes the finalizer and the force annotation. */
  datatype Meta = Meta(
    deleting: bool,
    finalizer: bool,
    runtimeIdSet: bool,
    dedicatedRequested: bool,
    caching: bool,
    cachesWithSecret: bool,
    enforceSeed: bool,
    suspended: bool,
    forced: bool,
    generation: int)

  datatype Instance = Instance(meta: Meta, status: Status)

  // ---- the shoot ----

  /** The annotation that records which Runtime generation the shoot was last patched for. */
  datatype AppliedGeneration = NotRecorded | Malformed | Applied(generation: int)

  datatype Shoot = Shoot(
    domainSet: bool,
    lastOperation: Option<LastOperation>,
    lastErrors: LastErrors,
    generation: int,
    observedGeneration: int,
    applied: AppliedGeneration,
    deleting: bool,
    deletionConfirmed: bool,
    oidcEnabled: bool,
    spec: AuditLogConfig.ShootValue)

  // ---- answers of the API calls ----

  /** A call works, fails without effect, or takes effect while its reply is lost. */
  datatype Call = Works | Fails(text: string) | WorksUnseen(text: string) {
    predicate Ok() { Works? }
    predicate TookEffect() { !Fails? }
    function Text(): string { if Works? then "" else text }
  }

  datatype ShootRead = ShootReadFails | NoShoot | ShootIs(shoot: Shoot)
  datatype ClusterRead = ClusterReadFails(text: string) | NoCluster | ClusterIs(ready: bool, deleting: bool)
  datatype SeedRead = SeedReadFails | SeedAvailable | NoSeed
  datatype CacheCountRead = CacheCountFails | CacheCountSame | CacheCountChanged
  datatype ShootWrite = Accepted | ConflictWrite | ForbiddenWrite | RejectedWrite(text: string)
  datatype BootstrapperStatus = NotStarted | UpgradeNeeded | InProgress | InstallFailed | BootstrapperIsReady
  datatype BootstrapperRead = BootstrapperReadFails | BootstrapperIs(status: BootstrapperStatus)

  /** One field for every API call a run may make; no call is made twice in a run. */
  datatype Env = Env(
    now: int,
    shootRead: ShootRead,
    finalizerUpdate: Call,
    deleteAllSecrets: Call,
    statusUpdate: Call,
    // shoot creation and patch
    seedRead: SeedRead,
    reserve: Call,
    structuredAuth: Call,
    sharedAuditLog: Call,
    convert: Call,
    createShoot: Call,
    cacheClient: Call,
    cachePending: Call,
    cacheSync: Call,
    dedicatedFound: bool,
    directClaim: Call,
    secretNames: Call,
    cacheCount: CacheCountRead,
    workersChanged: bool,
    updateShoot: ShootWrite,
    bindingChanged: bool,
    updateBinding: ShootWrite,
    patchShoot: ShootWrite,
    annotationUpdate: Call,
    patchedGeneration: int,
    // configuration of the runtime cluster
    cluster: ClusterRead,
    createCluster: Call,
    namespace: Call,
    bootstrapperConfigure: Call,
    bootstrapper: BootstrapperRead,
    bootstrapperInstall: Call,
    cleanupClient: Call,
    deleteUnused: Call,
    cacheReady: Call,
    provisioningInfo: Call,
    oidcResources: Call,
    bindingsClient: Call,
    bindingsList: Call,
    bindingsApply: Call,
    claim: Result<AuditLogData, string>,
    patchAuditLog: Call,
    credentialsLookup: Result<AuditLogData, string>,
    copyCredentials: Call,
    // deletion
    deleteCluster: Call,
    release: Call,
    confirmDeletion: Call,
    deleteConfigMap: Call,
    deleteShoot: Call)

  datatype Config = Config(
    auditLogMandatory: bool,
    dedicatedAuditLogging: bool,
    registryCache: bool,
    bootstrapper: bool)
}
