/** The objects of one project in its namespace, the project's status, and what
    a reconciliation pass is given besides them. */
module World {
  import opened Kube
  import opened Pods
  import opened Clusters

  // ---- Objects --------------------------------------------------------------

  datatype MapRole = InitSql | Jwks | EnvoyConfig | PsConfig | PsRules | CdcScript
  datatype Component = Auth | Rest | Studio | MetaApi | Gateway | PsApi | PsReplicator

  type Data = map<string, string>

  datatype Secret = Secret(meta: Meta, data: Data)
  datatype ConfigMap = ConfigMap(meta: Meta, data: Data)
  datatype Strategy = Unset | Rolling(params: string) | Recreate
  datatype RolloutStatus = RolloutStatus(observed: int, updated: int, ready: int, available: int, unavailable: int)
  datatype Deployment = Deployment(meta: Meta, replicas: Option<int>, template: PodTemplate, strategy: Strategy,
                                   generation: int, status: RolloutStatus)
  datatype Service = Service(meta: Meta, ports: seq<Port>, selector: Labels)
  datatype JobConditionType = JobComplete | JobFailed | OtherJobCondition(name: string)
  datatype JobCondition = JobCondition(kind: JobConditionType, isTrue: bool)
  datatype Job = Job(meta: Meta, annotations: Annotations, conditions: seq<JobCondition>, deleting: bool)
  datatype CronSpec = CronSpec(suspend: Option<bool>, template: PodTemplate, rest: string)
  datatype CronJob = CronJob(meta: Meta, spec: CronSpec)
  datatype PublicationSpec = PublicationSpec(cluster: string, name: string, database: string, schemas: seq<string>,
      reclaim: string)
  datatype Publication = Publication(meta: Meta, spec: PublicationSpec, generation: int, observed: int,
      applied: Option<bool>)
  datatype RolesStatus = RolesStatus(reconciled: set<string>, blocked: set<string>)
  datatype ClusterStatus = ClusterStatus(ready: int, phase: string, primary: string, roles: RolesStatus)
  datatype Cluster = Cluster(meta: Meta, spec: ClusterSpec, status: ClusterStatus)
  datatype StoreSpec = StoreSpec(credentials: string, endpoint: string, destination: string,
                                 wal: Option<string>, data: Option<string>, retention: string, rest: string)
  datatype Store = Store(meta: Meta, spec: StoreSpec)
  datatype ScheduleSpec = ScheduleSpec(schedule: string, cluster: string, ownerReference: string, backupMethod: string,
                                       plugin: string, rest: string)
  datatype Schedule = Schedule(meta: Meta, spec: ScheduleSpec)

  datatype Objects = Objects(secrets: map<SecretRole, Secret>, configMaps: map<MapRole, ConfigMap>,
                             deployments: map<Component, Deployment>, services: map<Component, Service>,
                             job: Option<Job>, cron: Option<CronJob>, publication: Option<Publication>,
                             cluster: Option<Cluster>, backup: Option<Store>, recovery: Option<Store>,
                             schedule: Option<Schedule>)

  const NO_OBJECTS := Objects(map[], map[], map[], map[], None, None, None, None, None, None, None)

  /** Where an object lives. */
  datatype Slot = SecretAt(secret: SecretRole) | MapAt(configMap: MapRole) | DeploymentAt(component: Component)
                | ServiceAt(served: Component) | JobAt | CronAt | PublicationAt
                | ClusterAt | BackupAt | RecoveryAt | ScheduleAt

  /** Objects that hold or protect project data and outlive the project. */
  datatype Durable = DurableCluster | DurableBackup | DurableRecovery | DurableSchedule

  function MetaOf(o: Objects, d: Durable): Option<Meta> {
    match d
    case DurableCluster => if o.cluster.Some? then Some(o.cluster.value.meta) else None
    case DurableBackup => if o.backup.Some? then Some(o.backup.value.meta) else None
    case DurableRecovery => if o.recovery.Some? then Some(o.recovery.value.meta) else None
    case DurableSchedule => if o.schedule.Some? then Some(o.schedule.value.meta) else None
  }

  function WithMeta(o: Objects, d: Durable, m: Meta): Objects
    requires MetaOf(o, d).Some?
  {
    match d
    case DurableCluster => o.(cluster := Some(o.cluster.value.(meta := m)))
    case DurableBackup => o.(backup := Some(o.backup.value.(meta := m)))
    case DurableRecovery => o.(recovery := Some(o.recovery.value.(meta := m)))
    case DurableSchedule => o.(schedule := Some(o.schedule.value.(meta := m)))
  }

  function SlotOf(d: Durable): Slot {
    match d
    case DurableCluster => ClusterAt
    case DurableBackup => BackupAt
    case DurableRecovery => RecoveryAt
    case DurableSchedule => ScheduleAt
  }

  // ---- Status ---------------------------------------------------------------

  datatype ProjectPhase = NoPhase | Pending | Provisioning | Running

  datatype ConditionType = Ready | SecretsReady | DatabaseReady | BackupReady | RecoveryReady | AuthReady | RestReady
                         | StudioReady | MetaReady | GatewayReady | CDCReady | PowersyncReady

  datatype Reason = SecretsNotReady | CredentialsReferenceMissing | CredentialsSecretUnavailable
                  | InvalidProjectCredentials
                  | ImplementationSecretFailed | CredentialsValidated | AllSecretsReady | HookSecretUnavailable
                  | HookSecretCreateFailed | InvalidHookSecret | CreateFailed | BootstrapImmutable | JwksFailed
                  | SecretError | ObjectStoreFailed | ScheduledBackupFailed | BackupConfigured | RecoveryConfigured
                  | Creating | StorageShrink | InvalidDatabaseConfiguration | WaitingForInstances | IsReady
                  | DeploymentFailed | ServiceFailed | DeploymentStatusFailed | DeploymentPending | EnvSourceInvalid
                  | ConfigMapFailed | CoreServicesFailed | CoreServicesPending | InvalidSyncRules | ManagedRolesFailed
                  | ManagedRolesPending | PublicationPending | JobFailedReason | JobRunning | CDCPermissionsApplied
                  | RulesConfigMapFailed | ApiDeploymentFailed | ApiServiceFailed | ReplicationDeploymentFailed
                  | CronJobFailed | DeploymentsPending | AllComponentsReady

  /** `since` is the last transition time. */
  datatype Condition = Condition(isTrue: bool, reason: Reason, generation: int, since: int)

  type Conditions = map<ConditionType, Condition>

  datatype DatabaseStatus = DatabaseStatus(ready: bool, phase: string, instances: int, primary: string)
  datatype ServiceStatus = ServiceStatus(ready: bool, available: int)
  datatype Endpoints = Endpoints(api: bool, database: bool)

  const NOT_READY := ServiceStatus(false, 0)

  datatype Status = Status(phase: ProjectPhase, conditions: Conditions, database: DatabaseStatus,
                           services: map<Component, ServiceStatus>, names: Names, endpoints: Endpoints,
                           observed: int)

  const FRESH_STATUS := Status(NoPhase, map[], DatabaseStatus(false, "", 0, ""), map[], NO_NAMES,
      Endpoints(false, false), 0)

  function ServiceOf(st: Status, c: Component): ServiceStatus {
    if c in st.services then st.services[c] else NOT_READY
  }

  predicate IsTrue(st: Status, t: ConditionType) { t in st.conditions && st.conditions[t].isTrue }

  /** meta.SetStatusCondition: the transition time moves only when the status does. */
  function SetCondition(st: Status, t: ConditionType, isTrue: bool, reason: Reason, generation: int, now: int): Status {
    st.(conditions := st.conditions[t := Condition(isTrue, reason, generation,
      if t in st.conditions && st.conditions[t].isTrue == isTrue then st.conditions[t].since else now)])
  }

  function RemoveCondition(st: Status, t: ConditionType): Status { st.(conditions := st.conditions - {t}) }

  // ---- The declaration ------------------------------------------------------

  datatype SyncRules = SyncRules(inline: string, configMapRef: string)
  datatype PowerSync = PowerSync(schemas: Option<seq<string>>, rules: SyncRules, compact: bool)
  datatype KeyRef = KeyRef(name: string, key: string, optional: bool)
  /** A custom GoTrue variable: a literal value, or at most one Secret and one ConfigMap key. */
  datatype EnvSource = Literal(value: string) | FromKey(secretKey: Option<KeyRef>, mapKey: Option<KeyRef>) | NoSource
  datatype EnvEntry = EnvEntry(name: string, source: EnvSource)
  datatype Spec = Spec(database: DatabaseSpec, credentialsSecret: string, emailHook: bool, env: seq<EnvEntry>,
                       powersync: Option<PowerSync>, rest: string)

  datatype Project = Project(uid: string, generation: int, spec: Spec, status: Status)

  // ---- What surrounds a pass ------------------------------------------------

  datatype Credentials = Credentials(jwks: string, hash: string)

  /** What the builders, validators and libraries compute; nothing more is assumed
      of them here than each theorem states. */
  datatype Platform = Platform(
    defaults: Defaults,
    defaulting: ClusterSpec -> ClusterSpec,                   // CNPG's Default()
    quantity: Quantity,
    template: (string, Spec, Names, Component) -> PodTemplate,
    replicas: (Spec, Component) -> int,
    ports: Component -> seq<Port>,
    component: Slot -> string,                                // the component label of an object
    mapData: (string, Spec, MapRole) -> Data,
    cron: (string, Spec, Names) -> CronSpec,
    cdcScript: Spec -> Option<string>,
    generate: (SecretRole, int) -> Data,
    admit: PodTemplate -> PodTemplate,                        // API-server defaulting of pod templates
    sha: string -> string,
    credentials: Data -> Option<Credentials>,
    hookValid: Data -> bool,
    tokenValid: Data -> bool,
    rulesValid: string -> bool,
    operatorOwned: string -> bool)

  /** Secrets and ConfigMaps the project only refers to. */
  datatype External = External(secrets: map<string, Data>, configMaps: map<string, Data>)

  datatype Phase =
    | Protect(durable: Durable) | CheckCredentials | ImplementationSecret(role: SecretRole) | PsRoleSecrets
    | PsTokenSecret | EmailHookSecret | SecretsDone | ValidateBootstrap | InitSqlMap | JwksMap
    | BackupCredentials | BackupStore | BackupSchedule | BackupDone
    | CleanSchedule | CleanBackupStore | CleanBackupDone
    | RecoveryCredentials | RecoveryStore | RecoveryDone | CleanRecoveryStore | CleanRecoveryDone
    | EnsureCluster | WaitForDatabase | Serve(core: Component) | CoreGate
    | RulesGate | RolesGate | PublicationGate | CdcMap | CdcJob
    | PsConfigMap | PsRulesMap | PsApiDeployment | PsApiService | PsReplicatorDeployment | PsCompact | PsReady
    | CleanPowerSync(slot: Slot) | CleanPowerSyncStatus | Finish

  /** One pass: the project as read, the clock and the random draw, and which API
      calls succeed; a call is named by the phase and the site that makes it. */
  datatype Context = Context(k: Platform, ext: External, name: string, uid: string, generation: int, spec: Spec,
                             now: int, seed: int, up: (Phase, Site) -> bool, statusUp: (Phase, Site) -> bool)

  datatype Site = Get(what: int) | Create(what: int) | Update(what: int) | Delete(what: int) | SaveStatus(what: int)

  datatype Write = StatusWrite | ObjectWrite(slot: Slot)

  /** `memory` is the status the pass holds, `saved` the one stored in the API server. */
  datatype State = State(o: Objects, memory: Status, saved: Status, log: seq<Write>)

  datatype Outcome = Next | Requeue | Failed

  datatype Result = Result(state: State, outcome: Outcome)
}
