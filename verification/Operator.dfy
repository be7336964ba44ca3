/** One reconciliation pass as a function: every phase of Reconcile takes the
    state to a new state and says whether the pass goes on, asks to be called
    again, or ends in an error. */
module Operator {
  import opened Kube
  import opened Pods
  import opened Clusters
  import opened World
  import Publications

  // ---- Status writes --------------------------------------------------------

  function Logged(s: State, slot: Slot): State { s.(log := s.log + [ObjectWrite(slot)]) }

  function Put(s: State, o: Objects, slot: Slot): State { Logged(s.(o := o), slot) }

  /** updateProjectStatus: nothing is written when the stored status is equal. */
  function Save(c: Context, ph: Phase, n: int, s: State): Result {
    if !c.statusUp(ph, SaveStatus(n)) then Result(s, Failed)
    else if s.saved == s.memory then Result(s, Next)
    else Result(s.(saved := s.memory, log := s.log + [StatusWrite]), Next)
  }

  function Mark(c: Context, s: State, t: ConditionType, isTrue: bool, reason: Reason): State {
    s.(memory := SetCondition(s.memory, t, isTrue, reason, c.generation, c.now))
  }

  function MarkAndSave(c: Context, ph: Phase, n: int, s: State, t: ConditionType, isTrue: bool,
      reason: Reason): Result {
    Save(c, ph, n, Mark(c, s, t, isTrue, reason))
  }

  /** Record the failure, then fail, whether or not the status could be written. */
  function FailWith(c: Context, ph: Phase, s: State, t: ConditionType, reason: Reason): Result {
    Result(MarkAndSave(c, ph, 0, s, t, false, reason).state, Failed)
  }

  function Later(outcome: Outcome): Outcome { if outcome == Next then Requeue else outcome }

  /** Record why the pass waits, then ask to be called again. */
  function Wait(c: Context, ph: Phase, s: State, t: ConditionType, reason: Reason): Result {
    var r := MarkAndSave(c, ph, 1, s, t, false, reason);
    Result(r.state, Later(r.outcome))
  }

  // ---- Ownership and labels -------------------------------------------------

  const PROJECT_API := PROJECT_GROUP + "/" + "v1alpha1"

  function Self(c: Context): OwnerRef { OwnerRef(PROJECT_API, PROJECT_KIND, c.name, c.uid, true) }

  function LabelsFor(c: Context, slot: Slot): Labels { ComponentLabels(c.name, c.k.component(slot)) }

  function OwnedMeta(c: Context, slot: Slot): Meta { Meta(LabelsFor(c, slot), [Self(c)]) }

  function DurableMeta(c: Context, slot: Slot): Meta { Meta(LabelsFor(c, slot), []) }

  predicate Ours(c: Context, m: Meta) { LabelOf(m.labels, Instance) == c.name }

  function Repaired(c: Context, m: Meta, slot: Slot): Meta {
    Meta(MergedLabels(m.labels, LabelsFor(c, slot)), WithoutProject(m.owners, c.name))
  }

  // ---- Creating and updating ------------------------------------------------

  /** The two role Secrets are handled in one phase, by calls of their own. */
  function SecretSite(role: SecretRole): int { if role == PsReplication then 7 else 0 }

  /** An existing Secret only ever takes over the owner. */
  function RefreshSecret(c: Context, ph: Phase, s: State, role: SecretRole): Result
    requires role in s.o.secrets
  {
    var x := s.o.secrets[role];
    var owners := WithController(x.meta.owners, Self(c));
    if owners.None? then Result(s, Failed)
    else if owners.value == x.meta.owners then Result(s, Next)
    else if !c.up(ph, Update(SecretSite(role))) then Result(s, Failed)
    else Result(Put(s, s.o.(secrets := s.o.secrets[role := x.(meta := x.meta.(owners := owners.value))]),
        SecretAt(role)), Next)
  }

  /** createOrUpdateSecret: data of an existing Secret is never touched. */
  function EnsureSecret(c: Context, ph: Phase, s: State, role: SecretRole, data: Data): Result {
    if !c.up(ph, Get(SecretSite(role))) then Result(s, Failed)
    else if role in s.o.secrets then RefreshSecret(c, ph, s, role)
    else if !c.up(ph, Create(SecretSite(role))) then Result(s, Failed)
    else Result(Put(s, s.o.(secrets := s.o.secrets[role := Secret(OwnedMeta(c, SecretAt(role)), data)]),
        SecretAt(role)), Next)
  }

  /** An existing ConfigMap takes over labels, owner and data. */
  function RefreshMap(c: Context, ph: Phase, s: State, role: MapRole, data: Data): Result
    requires role in s.o.configMaps
  {
    var x := s.o.configMaps[role];
    var owners := WithController(x.meta.owners, Self(c));
    if !Ours(c, x.meta) || owners.None? then Result(s, Failed)
    else
      var y := ConfigMap(Meta(MergedLabels(x.meta.labels, LabelsFor(c, MapAt(role))), owners.value), data);
      if y == x then Result(s, Next)
      else if !c.up(ph, Update(0)) then Result(s, Failed)
      else Result(Put(s, s.o.(configMaps := s.o.configMaps[role := y]), MapAt(role)), Next)
  }

  /** createOrUpdateConfigMap. */
  function EnsureMap(c: Context, ph: Phase, s: State, role: MapRole, data: Data): Result {
    if !c.up(ph, Get(0)) then Result(s, Failed)
    else if role in s.o.configMaps then RefreshMap(c, ph, s, role, data)
    else if !c.up(ph, Create(0)) then Result(s, Failed)
    else Result(Put(s, s.o.(configMaps := s.o.configMaps[role := ConfigMap(OwnedMeta(c, MapAt(role)), data)]),
        MapAt(role)), Next)
  }

  function StrategyOf(comp: Component): Strategy { if comp == PsReplicator then Recreate else Unset }

  /** The API server's own default for an unset rollout strategy. */
  function AdmittedStrategy(strategy: Strategy): Strategy { if strategy == Unset then Rolling("25%") else strategy }

  function NewDeployment(c: Context, comp: Component, template: PodTemplate): Deployment {
    Deployment(OwnedMeta(c, DeploymentAt(comp)), Some(c.k.replicas(c.spec, comp)), c.k.admit(template),
               AdmittedStrategy(StrategyOf(comp)), 1, RolloutStatus(0, 0, 0, 0, 0))
  }

  predicate StrategyChanged(x: Deployment, comp: Component) {
    StrategyOf(comp) != Unset && x.strategy != StrategyOf(comp)
  }

  predicate DeploymentCurrent(c: Context, x: Deployment, comp: Component, template: PodTemplate) {
    && WithController(x.meta.owners, Self(c)) == Some(x.meta.owners)
    && x.replicas == Some(c.k.replicas(c.spec, comp))
    && Normal(x.template) == Normal(template)
    && !StrategyChanged(x, comp)
  }

  /** The API server moves the generation when the spec moved. */
  function Bumped(x: Deployment, y: Deployment): Deployment {
    y.(generation := if y.replicas == x.replicas && y.template == x.template && y.strategy == x.strategy
                     then x.generation else x.generation + 1)
  }

  function UpdatedDeployment(c: Context, x: Deployment, comp: Component, template: PodTemplate): Deployment
    requires WithController(x.meta.owners, Self(c)).Some?
  {
    Bumped(x, x.(meta := x.meta.(owners := WithController(x.meta.owners, Self(c)).value),
                 replicas := Some(c.k.replicas(c.spec, comp)),
                 template := c.k.admit(Normal(template)),
                 strategy := if StrategyChanged(x, comp) then StrategyOf(comp) else x.strategy))
  }

  /** An existing Deployment is updated when owner, replicas, normalised template or strategy differ. */
  function RefreshDeployment(c: Context, ph: Phase, s: State, comp: Component, template: PodTemplate): Result
    requires comp in s.o.deployments
  {
    var x := s.o.deployments[comp];
    if WithController(x.meta.owners, Self(c)).None? then Result(s, Failed)
    else if DeploymentCurrent(c, x, comp, template) then Result(s, Next)
    else if !c.up(ph, Update(1)) then Result(s, Failed)
    else Result(Put(s, s.o.(deployments := s.o.deployments[comp := UpdatedDeployment(c, x, comp, template)]),
        DeploymentAt(comp)), Next)
  }

  /** createOrUpdateDeployment. */
  function EnsureDeployment(c: Context, ph: Phase, s: State, comp: Component, template: PodTemplate): Result {
    if !c.up(ph, Get(1)) then Result(s, Failed)
    else if comp in s.o.deployments then RefreshDeployment(c, ph, s, comp, template)
    else if !c.up(ph, Create(1)) then Result(s, Failed)
    else Result(Put(s, s.o.(deployments := s.o.deployments[comp := NewDeployment(c, comp, template)]),
        DeploymentAt(comp)), Next)
  }

  function SelectorFor(c: Context, comp: Component): Labels {
    map[Instance := c.name, Kube.Component := c.k.component(ServiceAt(comp))]
  }

  /** An existing Service: only ports, selector and owner are compared. */
  function RefreshService(c: Context, ph: Phase, s: State, comp: Component): Result
    requires comp in s.o.services
  {
    var x := s.o.services[comp];
    var owners := WithController(x.meta.owners, Self(c));
    if owners.None? then Result(s, Failed)
    else
      var y := Service(x.meta.(owners := owners.value), c.k.ports(comp), SelectorFor(c, comp));
      if y == x then Result(s, Next)
      else if !c.up(ph, Update(2)) then Result(s, Failed)
      else Result(Put(s, s.o.(services := s.o.services[comp := y]), ServiceAt(comp)), Next)
  }

  /** createOrUpdateService. */
  function EnsureService(c: Context, ph: Phase, s: State, comp: Component): Result {
    if !c.up(ph, Get(2)) then Result(s, Failed)
    else if comp in s.o.services then RefreshService(c, ph, s, comp)
    else if !c.up(ph, Create(2)) then Result(s, Failed)
    else Result(Put(s, s.o.(services := s.o.services[comp := Service(OwnedMeta(c, ServiceAt(comp)), c.k.ports(comp),
        SelectorFor(c, comp))]), ServiceAt(comp)), Next)
  }

  // ---- Phase 0: durable metadata --------------------------------------------

  function ProtectOne(c: Context, s: State, d: Durable): Result {
    var ph := Protect(d);
    if !c.up(ph, Get(0)) then Result(s, Failed)
    else if MetaOf(s.o, d).None? then Result(s, Next)
    else
      var m := MetaOf(s.o, d).value;
      var owners := WithoutProject(m.owners, c.name);
      if !Ours(c, m) || owners == m.owners then Result(s, Next)
      else if !c.up(ph, Update(0)) then Result(s, Failed)
      else Result(Put(s, WithMeta(s.o, d, m.(owners := owners)), SlotOf(d)), Next)
  }

  // ---- Phase 1: credentials and implementation Secrets ----------------------

  /** failReconcileSecrets clears the aggregate condition too. */
  function FailSecrets(c: Context, ph: Phase, s: State, reason: Reason): Result {
    var s1 := Mark(c, Mark(c, s, SecretsReady, false, reason), Ready, false, SecretsNotReady);
    Result(Save(c, ph, 9, s1).state, Failed)
  }

  /** The validated bundle, if the reference leads to a valid one. */
  function Bundle(c: Context): Option<Credentials> {
    if c.spec.credentialsSecret == "" || c.spec.credentialsSecret !in c.ext.secrets then None
    else c.k.credentials(c.ext.secrets[c.spec.credentialsSecret])
  }

  function CheckBundle(c: Context, s: State): Result {
    var s1 := if s.memory.phase == Pending then s.(memory := s.memory.(phase := Provisioning)) else s;
    if c.spec.credentialsSecret == "" then FailSecrets(c, CheckCredentials, s1, CredentialsReferenceMissing)
    else if !c.up(CheckCredentials, Get(0)) || c.spec.credentialsSecret !in c.ext.secrets then
      FailSecrets(c, CheckCredentials, s1, CredentialsSecretUnavailable)
    else if Bundle(c).None? then FailSecrets(c, CheckCredentials, s1, InvalidProjectCredentials)
    else Result(s1, Next)
  }

  function OrFailSecrets(c: Context, ph: Phase, r: Result): Result {
    if r.outcome == Next then r else FailSecrets(c, ph, r.state, ImplementationSecretFailed)
  }

  function MakeSecret(c: Context, s: State, role: SecretRole): Result {
    var ph := ImplementationSecret(role);
    OrFailSecrets(c, ph, EnsureSecret(c, ph, s, role, c.k.generate(role, c.seed)))
  }

  function MakeRoleSecret(c: Context, s: State, role: SecretRole): Result {
    var r := EnsureSecret(c, PsRoleSecrets, s, role, c.k.generate(role, c.seed));
    if r.outcome == Next then r
    else Result(MarkAndSave(c, PsRoleSecrets, 1, r.state, SecretsReady, false, CreateFailed).state, Failed)
  }

  /** Both role Secrets exist, or both go through the create-once helper. */
  function MakeRoleSecrets(c: Context, s: State): Result {
    var ph := PsRoleSecrets;
    OrFailSecrets(c, ph,
      if !c.up(ph, Get(1)) then Result(s, Failed)
      else if PsStorage in s.o.secrets && !c.up(ph, Get(2)) then Result(s, Failed)
      else if PsStorage in s.o.secrets && PsReplication in s.o.secrets then Result(s, Next)
      else
        var r := MakeRoleSecret(c, s, PsStorage);
        if r.outcome == Next then MakeRoleSecret(c, r.state, PsReplication) else r)
  }

  function MakeToken(c: Context, s: State): Result {
    var ph := PsTokenSecret;
    OrFailSecrets(c, ph,
      if !c.up(ph, Get(1)) || (PsToken in s.o.secrets && !c.k.tokenValid(s.o.secrets[PsToken].data))
          then Result(s, Failed)
      else EnsureSecret(c, ph, s, PsToken, c.k.generate(PsToken, c.seed)))
  }

  function FailHook(c: Context, s: State, reason: Reason): Result {
    FailWith(c, EmailHookSecret, s, SecretsReady, reason)
  }

  function HookName(c: Context): SecretRef { Generated(c.name, EmailHook) }

  function HookSecret(c: Context, s: State): Result {
    var ph := EmailHookSecret;
    if !c.up(ph, Get(1)) then FailHook(c, s, HookSecretUnavailable)
    else if EmailHook !in s.o.secrets then
      var r := EnsureSecret(c, ph, s, EmailHook, c.k.generate(EmailHook, c.seed));
      if r.outcome == Next then r else FailHook(c, r.state, HookSecretCreateFailed)
    else if !c.k.hookValid(s.o.secrets[EmailHook].data) then FailHook(c, s, InvalidHookSecret)
    else Result(s, Next)
  }

  function WithHookName(s: State, name: SecretRef): State {
    s.(memory := s.memory.(names := s.memory.names.(emailHook := name)))
  }

  function MakeHook(c: Context, s: State): Result {
    var ph := EmailHookSecret;
    OrFailSecrets(c, ph,
      if !c.spec.emailHook then
        if s.memory.names.emailHook == NoSecret then Result(s, Next) else Save(c, ph, 1, WithHookName(s, NoSecret))
      else
        var r := HookSecret(c, s);
        if r.outcome != Next then r
        else MarkAndSave(c, ph, 2, WithHookName(r.state, HookName(c)), SecretsReady, true, AllSecretsReady))
  }

  function NamesFor(c: Context, hook: SecretRef): Names {
    Names(Generated(c.name, GoTrueFallback), Generated(c.name, SupabaseAdmin), Generated(c.name, Authenticator),
          Generated(c.name, AuthAdmin), hook,
          if c.spec.powersync.Some? then Generated(c.name, PsStorage) else NoSecret,
          if c.spec.powersync.Some? then Generated(c.name, PsReplication) else NoSecret)
  }

  function FinishSecrets(c: Context, s: State): Result {
    var s1 := s.(memory := s.memory.(names := NamesFor(c, s.memory.names.emailHook)));
    MarkAndSave(c, SecretsDone, 0, s1, SecretsReady, true, CredentialsValidated)
  }

  // ---- Immutable creation-time input ----------------------------------------

  function Built(c: Context, names: Names): ClusterSpec {
    BuildCluster(c.k.defaults, c.name, c.spec.database, c.spec.powersync.Some?, names)
  }

  function BackupSpecOf(b: Backup): StoreSpec {
    StoreSpec(b.s3.credentials, b.s3.endpoint, b.s3.destination,
              Some(if b.walCompression != "" then b.walCompression else "gzip"),
              Some(if b.dataCompression != "" then b.dataCompression else "gzip"), b.retention, "")
  }

  function RecoverySpecOf(r: Recovery): StoreSpec {
    StoreSpec(r.s3.credentials, r.s3.endpoint, r.s3.destination, None, None, "", "")
  }

  predicate SameLocation(a: StoreSpec, b: StoreSpec) { a.endpoint == b.endpoint && a.destination == b.destination }

  /** validateRecoveryBootstrapIntent. */
  function CheckBootstrap(c: Context, s: State): Result {
    var ph := ValidateBootstrap;
    if !c.up(ph, Get(0)) then FailWith(c, ph, s, DatabaseReady, BootstrapImmutable)
    else if s.o.cluster.None? then Result(s, Next)
    else if IntentChanged(s.o.cluster.value.spec, Built(c, s.memory.names))
        then FailWith(c, ph, s, DatabaseReady, BootstrapImmutable)
    else if !RecoveryEnabled(c.spec.database) then Result(s, Next)
    else if !c.up(ph, Get(1)) then FailWith(c, ph, s, DatabaseReady, BootstrapImmutable)
    else if s.o.recovery.Some? && !SameLocation(s.o.recovery.value.spec,
        RecoverySpecOf(c.spec.database.recovery.value)) then
      FailWith(c, ph, s, DatabaseReady, BootstrapImmutable)
    else Result(s, Next)
  }

  function JwksData(c: Context): Data { map["jwks.json" := if Bundle(c).Some? then Bundle(c).value.jwks else ""] }

  function MakeJwks(c: Context, s: State): Result {
    var r := EnsureMap(c, JwksMap, s, Jwks, JwksData(c));
    if r.outcome == Next then r else FailWith(c, JwksMap, r.state, SecretsReady, JwksFailed)
  }

  // ---- Backup and recovery stores -------------------------------------------

  const ACCESS_KEY := "ACCESS_KEY_ID"
  const SECRET_KEY := "SECRET_ACCESS_KEY"

  /** validateS3Secret. */
  predicate S3Valid(c: Context, ph: Phase, secret: string) {
    && c.up(ph, Get(0)) && secret in c.ext.secrets
    && ACCESS_KEY in c.ext.secrets[secret] && SECRET_KEY in c.ext.secrets[secret]
  }

  function CheckS3(c: Context, ph: Phase, s: State, secret: string, t: ConditionType): Result {
    if S3Valid(c, ph, secret) then Result(s, Next) else FailWith(c, ph, s, t, SecretError)
  }

  function MergedStore(x: StoreSpec, desired: StoreSpec): StoreSpec {
    desired.(wal := if desired.wal.Some? then desired.wal else x.wal,
             data := if desired.data.Some? then desired.data else x.data, rest := x.rest)
  }

  /** One of the two ObjectStores: the backup's, or else the recovery source. */
  function StoreAt(o: Objects, d: Durable): Option<Store> { if d.DurableBackup? then o.backup else o.recovery }

  function WithStore(o: Objects, d: Durable, x: Option<Store>): Objects {
    if d.DurableBackup? then o.(backup := x) else o.(recovery := x)
  }

  /** createOrUpdateObjectStore. */
  function EnsureStore(c: Context, ph: Phase, s: State, d: Durable, desired: StoreSpec): Result {
    var slot := SlotOf(d);
    if !c.up(ph, Get(0)) then Result(s, Failed)
    else if StoreAt(s.o, d).None? then
      if !c.up(ph, Create(0)) then Result(s, Failed)
      else Result(Put(s, WithStore(s.o, d, Some(Store(DurableMeta(c, slot), desired))), slot), Next)
    else
      var x := StoreAt(s.o, d).value;
      if c.name == "" || !Ours(c, x.meta) then Result(s, Failed)
      else
        var y := Store(Repaired(c, x.meta, slot), MergedStore(x.spec, desired));
        if y == x then Result(s, Next)
        else if !c.up(ph, Update(0)) then Result(s, Failed)
        else Result(Put(s, WithStore(s.o, d, Some(y)), slot), Next)
  }

  function OrFailWith(c: Context, ph: Phase, r: Result, t: ConditionType, reason: Reason): Result {
    if r.outcome == Next then r else FailWith(c, ph, r.state, t, reason)
  }

  function ScheduleOf(c: Context, b: Backup): ScheduleSpec {
    ScheduleSpec(if b.schedule != "" then b.schedule else "0 0 2 * * *", c.name, "self", "plugin", "barman", "")
  }

  /** createOrUpdateScheduledBackup. */
  function EnsureSchedule(c: Context, ph: Phase, s: State, desired: ScheduleSpec): Result {
    if !c.up(ph, Get(0)) then Result(s, Failed)
    else if s.o.schedule.None? then
      if !c.up(ph, Create(0)) then Result(s, Failed)
      else Result(Put(s, s.o.(schedule := Some(Schedule(DurableMeta(c, ScheduleAt), desired))), ScheduleAt), Next)
    else
      var x := s.o.schedule.value;
      if c.name == "" || !Ours(c, x.meta) then Result(s, Failed)
      else
        var y := Schedule(Repaired(c, x.meta, ScheduleAt), desired.(rest := x.spec.rest));
        if y == x then Result(s, Next)
        else if !c.up(ph, Update(0)) then Result(s, Failed)
        else Result(Put(s, s.o.(schedule := Some(y)), ScheduleAt), Next)
  }

  /** Cleanup runs only while the condition says the feature was once configured. */
  predicate CleaningUp(s: State, t: ConditionType) { t in s.memory.conditions }

  function CleanDurable(c: Context, ph: Phase, s: State, d: Durable, t: ConditionType, without: Objects): Result {
    if !CleaningUp(s, t) then Result(s, Next)
    else if !c.up(ph, Get(0)) then Result(s, Failed)
    else if MetaOf(s.o, d).None? then Result(s, Next)
    else if !Ours(c, MetaOf(s.o, d).value) || !c.up(ph, Delete(0)) then Result(s, Failed)
    else Result(Put(s, without, SlotOf(d)), Next)
  }

  function CleanCondition(c: Context, ph: Phase, s: State, t: ConditionType): Result {
    if !CleaningUp(s, t) then Result(s, Next)
    else Save(c, ph, 0, s.(memory := RemoveCondition(s.memory, t)))
  }

  // ---- The Cluster ----------------------------------------------------------

  function Desired(c: Context, names: Names): ClusterSpec { c.k.defaulting(Built(c, names)) }

  function NewCluster(c: Context, names: Names): Cluster {
    Cluster(DurableMeta(c, ClusterAt), Desired(c, names), ClusterStatus(0, "", "", RolesStatus({}, {})))
  }

  function RejectReason(c: Context, existing: Storage, desired: Storage): Reason {
    if c.k.quantity(desired.size).Some? && c.k.quantity(existing.size).Some? then StorageShrink
        else InvalidDatabaseConfiguration
  }

  /** Persist a metadata repair alone, then report the failure. */
  function RepairThenFail(c: Context, s: State, x: Cluster, reason: Reason): Result {
    var m := Repaired(c, x.meta, ClusterAt);
    if m == x.meta then FailWith(c, EnsureCluster, s, DatabaseReady, reason)
    else if !c.up(EnsureCluster, Update(0)) then Result(s, Failed)
    else FailWith(c, EnsureCluster, Put(s, s.o.(cluster := Some(x.(meta := m))), ClusterAt), DatabaseReady, reason)
  }

  /** reconcileCNPGCluster. */
  function MakeCluster(c: Context, s: State): Result {
    var ph := EnsureCluster;
    if !c.up(ph, Get(0)) then Result(s, Failed)
    else if s.o.cluster.None? then
      if !c.up(ph, Create(0)) then FailWith(c, ph, s, DatabaseReady, CreateFailed)
      else Wait(c, ph, Put(s, s.o.(cluster := Some(NewCluster(c, s.memory.names))), ClusterAt), DatabaseReady, Creating)
    else
      var x := s.o.cluster.value;
      var desired := Desired(c, s.memory.names);
      if !Ours(c, x.meta) then Result(s, Failed)
      else if IntentChanged(x.spec, desired) then RepairThenFail(c, s, x, BootstrapImmutable)
      else
        match MergeCluster(c.k.quantity, x.spec, desired)
        case Rejected => RepairThenFail(c, s, x, RejectReason(c, x.spec.storage, desired.storage))
        case Merged(spec, changed) =>
          var m := Repaired(c, x.meta, ClusterAt);
          if !changed && m == x.meta then Result(s, Next)
          else if !c.up(ph, Update(1)) then Result(s, Failed)
          else Result(Put(s, s.o.(cluster := Some(x.(meta := m, spec := spec))), ClusterAt), Requeue)
  }

  function DatabaseOf(x: Cluster): DatabaseStatus {
    DatabaseStatus(true, x.status.phase, x.status.ready, x.status.primary)
  }

  /** waitForDatabase: the endpoints are replaced as a whole. */
  function AwaitDatabase(c: Context, s: State): Result {
    var ph := WaitForDatabase;
    if !c.up(ph, Get(0)) || s.o.cluster.None? then Result(s, Failed)
    else
      var x := s.o.cluster.value;
      if x.status.ready < x.spec.instances then Wait(c, ph, s, DatabaseReady, WaitingForInstances)
      else
        var s1 := s.(memory := s.memory.(database := DatabaseOf(x), endpoints := Endpoints(false, true)));
        MarkAndSave(c, ph, 0, s1, DatabaseReady, true, IsReady)
  }

  // ---- Core services --------------------------------------------------------

  function ConditionOf(comp: Component): ConditionType {
    match comp
    case Auth => AuthReady
    case Rest => RestReady
    case Studio => StudioReady
    case MetaApi => MetaReady
    case Gateway => GatewayReady
    case _ => PowersyncReady
  }

  function WithService(s: State, comp: Component, status: ServiceStatus): State {
    s.(memory := s.memory.(services := s.memory.services[comp := status]))
  }

  /** A component failure clears its status before the condition is written. */
  function FailComponent(c: Context, s: State, comp: Component, reason: Reason): Result {
    FailWith(c, Serve(comp), WithService(s, comp, NOT_READY), ConditionOf(comp), reason)
  }

  /** failCoreServices: a failing status write is only logged. */
  function FailCore(c: Context, ph: Phase, s: State): Result {
    var s1 := s.(memory := s.memory.(phase := Provisioning));
    Result(MarkAndSave(c, ph, 8, s1, Ready, false, CoreServicesFailed).state, Failed)
  }

  predicate KeyValid(up: bool, ref: KeyRef, sources: map<string, Data>) {
    && ref.name != "" && ref.key != "" && up
    && (ref.optional || (ref.name in sources && ref.key in sources[ref.name]))
  }

  /** One custom GoTrue variable of validateGoTrueEnvSources. */
  predicate EntryValid(c: Context, e: EnvEntry, i: nat) {
    && !c.k.operatorOwned(e.name)
    && match e.source
       case Literal(_) => true
       case NoSource => false
       case FromKey(secretKey, mapKey) =>
         && secretKey.None? != mapKey.None?
         && (secretKey.Some? ==> KeyValid(c.up(Serve(Auth), Get(100 + i)), secretKey.value, c.ext.secrets))
         && (mapKey.Some? ==> KeyValid(c.up(Serve(Auth), Get(100 + i)), mapKey.value, c.ext.configMaps))
  }

  predicate EnvValid(c: Context) {
    forall i :: 0 <= i < |c.spec.env| ==> EntryValid(c, c.spec.env[i], i)
  }

  function Annotated(t: PodTemplate, key: AnnotationKey, value: string): PodTemplate {
    t.(annotations := t.annotations[key := value])
  }

  function BaseTemplate(c: Context, names: Names, comp: Component): PodTemplate {
    c.k.template(c.name, c.spec, names, comp)
  }

  const HOOK_KEY := "secret"

  /** buildAuthDeployment: the pods carry a hash of the hook secret, when there is one. */
  function AuthTemplate(c: Context, s: State): Option<PodTemplate> {
    var t := BaseTemplate(c, s.memory.names, Auth);
    if !c.spec.emailHook then Some(t)
    else if EmailHook !in s.o.secrets || !c.k.hookValid(s.o.secrets[EmailHook].data) then None
    else
      var data := s.o.secrets[EmailHook].data;
      Some(Annotated(t, EmailHookHash, c.k.sha(if HOOK_KEY in data then data[HOOK_KEY] else "")))
  }

  function CredentialHash(c: Context): string { if Bundle(c).Some? then Bundle(c).value.hash else "" }

  /** postgres-meta consumes no credential, so rotation does not roll it. */
  function CoreTemplate(c: Context, s: State, comp: Component): Option<PodTemplate> {
    var t := if comp == Auth then AuthTemplate(c, s) else Some(BaseTemplate(c, s.memory.names, comp));
    if t.None? || comp == MetaApi || CredentialHash(c) == "" then t
    else Some(Annotated(t.value, CredentialsHash, CredentialHash(c)))
  }

  predicate RolledOut(x: Deployment) {
    var expected := if x.replicas.Some? then x.replicas.value else 1;
    && x.status.observed == x.generation && x.status.updated == expected && x.status.ready == expected
    && x.status.available == expected && x.status.unavailable == 0
  }

  /** deploymentStatus of a Deployment that may be gone. */
  function Observed(o: Objects, comp: Component): ServiceStatus {
    if comp in o.deployments
    then ServiceStatus(RolledOut(o.deployments[comp]), o.deployments[comp].status.available) else NOT_READY
  }

  /** The status part of reconcileServiceComponent. */
  function ReportComponent(c: Context, s: State, comp: Component): Result {
    if !c.up(Serve(comp), Get(3)) then FailComponent(c, s, comp, DeploymentStatusFailed)
    else
      var status := Observed(s.o, comp);
      var s1 := Mark(c, WithService(s, comp, status), ConditionOf(comp), status.ready,
                     if status.ready then IsReady else DeploymentPending);
      Result(if comp == Gateway then s1.(memory := s1.memory.(endpoints := s1.memory.endpoints.(api := true)))
          else s1, Next)
  }

  /** reconcileServiceComponent. */
  function MakeComponent(c: Context, s: State, comp: Component, template: PodTemplate): Result {
    var d := EnsureDeployment(c, Serve(comp), s, comp, template);
    if d.outcome != Next then FailComponent(c, d.state, comp, DeploymentFailed)
    else
      var v := EnsureService(c, Serve(comp), d.state, comp);
      if v.outcome != Next then FailComponent(c, v.state, comp, ServiceFailed)
      else ReportComponent(c, v.state, comp)
  }

  /** What a component needs before its Deployment: valid variables and the hook
      secret for Auth, the Envoy files for the gateway. */
  function PrepareComponent(c: Context, s: State, comp: Component): Result {
    if comp == Auth && !EnvValid(c) then FailComponent(c, s, Auth, EnvSourceInvalid)
    else if comp == Auth && c.spec.emailHook && !c.up(Serve(Auth), Get(4)) then Result(s, Failed)
    else if comp == Gateway then
      var r := EnsureMap(c, Serve(Gateway), s, EnvoyConfig, c.k.mapData(c.name, c.spec, EnvoyConfig));
      if r.outcome == Next then r else FailComponent(c, r.state, Gateway, ConfigMapFailed)
    else Result(s, Next)
  }

  function ServeComponent(c: Context, s: State, comp: Component): Result {
    var p := PrepareComponent(c, s, comp);
    if p.outcome != Next then FailCore(c, Serve(comp), p.state)
    else if CoreTemplate(c, p.state, comp).None? then FailCore(c, Serve(comp), p.state)
    else
      var r := MakeComponent(c, p.state, comp, CoreTemplate(c, p.state, comp).value);
      if r.outcome != Next then FailCore(c, Serve(comp), r.state) else r
  }

  predicate CoreReady(st: Status) {
    && ServiceOf(st, Auth).ready && ServiceOf(st, Rest).ready && ServiceOf(st, Studio).ready
    && ServiceOf(st, MetaApi).ready && ServiceOf(st, Gateway).ready
  }

  function GateCore(c: Context, s: State): Result {
    if CoreReady(s.memory) then Result(s, Next)
    else Wait(c, CoreGate, s.(memory := s.memory.(phase := Provisioning)), Ready, CoreServicesPending)
  }

  // ---- PowerSync ------------------------------------------------------------

  const RULES_KEY := "sync_rules.yaml"

  /** The sync rules in effect, when they exist and are edition 3 with streams. */
  function Rules(c: Context): Option<string> {
    if c.spec.powersync.None? then None
    else
      var r := c.spec.powersync.value.rules;
      if r.configMapRef == "" then if c.k.rulesValid(r.inline) then Some(r.inline) else None
      else if r.configMapRef !in c.ext.configMaps then None
      else
        var data := c.ext.configMaps[r.configMapRef];
        if RULES_KEY in data && data[RULES_KEY] != "" && c.k.rulesValid(data[RULES_KEY]) then Some(data[RULES_KEY])
            else None
  }

  function CheckRules(c: Context, s: State): Result {
    var readable := c.spec.powersync.Some?
        && (c.spec.powersync.value.rules.configMapRef == "" || c.up(RulesGate, Get(0)));
    if readable && Rules(c).Some? then Result(s, Next) else FailWith(c, RulesGate, s, PowersyncReady, InvalidSyncRules)
  }

  predicate RolesBlocked(x: Cluster) {
    PS_STORAGE_ROLE in x.status.roles.blocked || PS_REPLICATION_ROLE in x.status.roles.blocked
  }

  predicate RolesReconciled(x: Cluster) {
    PS_STORAGE_ROLE in x.status.roles.reconciled && PS_REPLICATION_ROLE in x.status.roles.reconciled
  }

  /** waitForPowerSyncManagedRoles. */
  function AwaitRoles(c: Context, s: State): Result {
    if !c.up(RolesGate, Get(0)) || s.o.cluster.None? then Result(s, Failed)
    else if RolesBlocked(s.o.cluster.value) then FailWith(c, RolesGate, s, CDCReady, ManagedRolesFailed)
    else if !RolesReconciled(s.o.cluster.value) then Wait(c, RolesGate, s, CDCReady, ManagedRolesPending)
    else Result(s, Next)
  }

  function Schemas(c: Context): Option<seq<string>> {
    Publications.Effective(if c.spec.powersync.Some? then c.spec.powersync.value.schemas else None)
  }

  function DesiredPublication(c: Context): Option<PublicationSpec> {
    if Schemas(c).None? then None
    else Some(PublicationSpec(c.name, "powersync", DATABASE, Schemas(c).value, "delete"))
  }

  predicate PublicationApplied(x: Publication) { x.observed == x.generation && x.applied == Some(true) }

  /** The retained publication as reconcilePowerSyncPublication would store it. */
  function UpdatedPublication(c: Context, x: Publication, spec: PublicationSpec): Option<Publication> {
    var owners := WithController(x.meta.owners, Self(c));
    if !Ours(c, x.meta) || owners.None? then None
    else Some(Publication(Meta(MergedLabels(x.meta.labels, LabelsFor(c, PublicationAt)), owners.value), spec,
                          if spec == x.spec then x.generation else x.generation + 1, x.observed, x.applied))
  }

  function AwaitPublication(c: Context, s: State): Result {
    var ph := PublicationGate;
    if DesiredPublication(c).None? || !c.up(ph, Get(0)) then Result(s, Failed)
    else
      var spec := DesiredPublication(c).value;
      if s.o.publication.None? then
        if !c.up(ph, Create(0)) then Result(s, Failed)
        else Wait(c, ph, Put(s, s.o.(publication := Some(Publication(OwnedMeta(c, PublicationAt), spec, 1, 0, None))),
            PublicationAt),
                  CDCReady, PublicationPending)
      else
        var x := s.o.publication.value;
        var y := UpdatedPublication(c, x, spec);
        if y.None? then Result(s, Failed)
        else if y.value != x then
          if !c.up(ph, Update(0)) then Result(s, Failed)
          else Result(Put(s, s.o.(publication := y), PublicationAt), Requeue)
        else if !PublicationApplied(x) then Wait(c, ph, s, CDCReady, PublicationPending)
        else Result(s, Next)
  }

  const SCRIPT_KEY := "setup.sh"

  function ScriptData(c: Context): Data {
    map[SCRIPT_KEY := if c.k.cdcScript(c.spec).Some? then c.k.cdcScript(c.spec).value else ""]
  }

  function MakeCdcMap(c: Context, s: State): Result {
    if c.k.cdcScript(c.spec).None? then Result(s, Failed)
    else OrFailWith(c, CdcMap, EnsureMap(c, CdcMap, s, CdcScript, ScriptData(c)),
                    CDCReady, ConfigMapFailed)
  }

  function ScriptHash(c: Context): string {
    if c.k.cdcScript(c.spec).Some? then c.k.sha(c.k.cdcScript(c.spec).value) else ""
  }

  function HashOf(x: Job): string { if CdcScriptHash in x.annotations then x.annotations[CdcScriptHash] else "" }

  datatype JobVerdict = Complete | Broken | StillRunning

  /** The first terminal condition that is true decides. */
  function Verdict(conditions: seq<JobCondition>): JobVerdict {
    if conditions == [] then StillRunning
    else if conditions[0].isTrue && conditions[0].kind == JobComplete then Complete
    else if conditions[0].isTrue && conditions[0].kind == JobFailed then Broken
    else Verdict(conditions[1..])
  }

  function NewJob(c: Context): Job { Job(OwnedMeta(c, JobAt), map[CdcScriptHash := ScriptHash(c)], [], false) }

  function OwnedJob(c: Context, x: Job): Job
    requires WithController(x.meta.owners, Self(c)).Some?
  {
    x.(meta := Meta(MergedLabels(x.meta.labels, LabelsFor(c, JobAt)), WithController(x.meta.owners, Self(c)).value))
  }

  /** A Job with the current hash: repair its metadata, then read its terminal conditions. */
  function ConfirmJob(c: Context, s: State, x: Job): Result
    requires WithController(x.meta.owners, Self(c)).Some?
  {
    var y := OwnedJob(c, x);
    if y != x && !c.up(CdcJob, Update(0)) then Result(s, Failed)
    else
      Result(if y == x then s else Put(s, s.o.(job := Some(y)), JobAt),
             match Verdict(x.conditions) case Complete => Next case Broken => Failed case StillRunning => Requeue)
  }

  /** createOrCheckJob: Next when the Job with the current hash is complete,
      Requeue while it is created, replaced or running. */
  function CheckJob(c: Context, s: State): Result {
    var ph := CdcJob;
    if !c.up(ph, Get(0)) then Result(s, Failed)
    else if s.o.job.None? then
      if !c.up(ph, Create(0)) then Result(s, Failed)
      else Result(Put(s, s.o.(job := Some(NewJob(c))), JobAt), Requeue)
    else
      var x := s.o.job.value;
      if !Ours(c, x.meta) || WithController(x.meta.owners, Self(c)).None? then Result(s, Failed)
      else if HashOf(x) != ScriptHash(c) then
        if !c.up(ph, Delete(0)) then Result(s, Failed)
        else Result(Put(s, s.o.(job := Some(x.(deleting := true))), JobAt), Requeue)
      else ConfirmJob(c, s, x)
  }

  function AwaitJob(c: Context, s: State): Result {
    var r := CheckJob(c, s);
    match r.outcome
    case Failed => FailWith(c, CdcJob, r.state, CDCReady, JobFailedReason)
    case Requeue => Wait(c, CdcJob, r.state, CDCReady, JobRunning)
    case Next => Result(Mark(c, r.state, CDCReady, true, CDCPermissionsApplied), Next)
  }

  const CONFIG_KEY := "config.yaml"

  /** applyPowerSyncConfigHash hashes config, a NUL byte and the rules. */
  function PowerSyncTemplate(c: Context, s: State, comp: Component): PodTemplate {
    var data := c.k.mapData(c.name, c.spec, PsConfig);
    Annotated(BaseTemplate(c, s.memory.names, comp), PowerSyncConfigHash,
      c.k.sha((if CONFIG_KEY in data then data[CONFIG_KEY] else "") + "\0" + if Rules(c).Some? then Rules(c).value
          else ""))
  }

  function RulesData(c: Context): Data {
    map[RULES_KEY := if c.spec.powersync.Some? then c.spec.powersync.value.rules.inline else ""]
  }

  function MakeRulesMap(c: Context, s: State): Result {
    if c.spec.powersync.None? || c.spec.powersync.value.rules.configMapRef != ""
        || c.spec.powersync.value.rules.inline == ""
    then Result(s, Next)
    else OrFailWith(c, PsRulesMap, EnsureMap(c, PsRulesMap, s, PsRules, RulesData(c)),
                    PowersyncReady, RulesConfigMapFailed)
  }

  function NormalCron(x: CronSpec): CronSpec { CronSpec(Present(x.suspend, false), Normal(x.template), x.rest) }

  function AdmittedCron(c: Context, x: CronSpec): CronSpec {
    CronSpec(Present(x.suspend, false), c.k.admit(x.template), x.rest)
  }

  /** createOrUpdateCronJob. */
  function EnsureCron(c: Context, ph: Phase, s: State, desired: CronSpec): Result {
    if !c.up(ph, Get(0)) then Result(s, Failed)
    else if s.o.cron.None? then
      if !c.up(ph, Create(0)) then Result(s, Failed)
      else Result(Put(s, s.o.(cron := Some(CronJob(OwnedMeta(c, CronAt), AdmittedCron(c, desired)))), CronAt), Next)
    else
      var x := s.o.cron.value;
      var owners := WithController(x.meta.owners, Self(c));
      if owners.None? then Result(s, Failed)
      else
        var m := Meta(MergedLabels(x.meta.labels, LabelsFor(c, CronAt)), owners.value);
        if m == x.meta && NormalCron(x.spec) == NormalCron(desired) then Result(s, Next)
        else if !c.up(ph, Update(0)) then Result(s, Failed)
        else Result(Put(s, s.o.(cron := Some(CronJob(m, AdmittedCron(c, NormalCron(desired))))), CronAt), Next)
  }

  // ---- Removing what PowerSync owned ----------------------------------------

  /** metav1.IsControlledBy compares UIDs only. */
  predicate ControlledBy(c: Context, m: Meta) {
    ControllerOf(m.owners).Some? && ControllerOf(m.owners).value.uid == c.uid
  }

  /** The metadata of an object PowerSync may own. */
  function PowerSyncMeta(o: Objects, slot: Slot): Option<Meta> {
    match slot
    case DeploymentAt(x) => if x in o.deployments then Some(o.deployments[x].meta) else None
    case ServiceAt(x) => if x in o.services then Some(o.services[x].meta) else None
    case MapAt(x) => if x in o.configMaps then Some(o.configMaps[x].meta) else None
    case JobAt => if o.job.Some? then Some(o.job.value.meta) else None
    case CronAt => if o.cron.Some? then Some(o.cron.value.meta) else None
    case PublicationAt => if o.publication.Some? then Some(o.publication.value.meta) else None
    case _ => None
  }

  function WithoutSlot(o: Objects, slot: Slot): Objects {
    match slot
    case DeploymentAt(x) => o.(deployments := o.deployments - {x})
    case ServiceAt(x) => o.(services := o.services - {x})
    case MapAt(x) => o.(configMaps := o.configMaps - {x})
    case JobAt => o.(job := None)
    case CronAt => o.(cron := None)
    case PublicationAt => o.(publication := None)
    case _ => o
  }

  /** deletePowerSyncOwnedResource: only what the project controls. */
  function DeleteOwned(c: Context, ph: Phase, s: State, slot: Slot): Result {
    if !c.up(ph, Get(5)) then Result(s, Failed)
    else if PowerSyncMeta(s.o, slot).None? || !ControlledBy(c, PowerSyncMeta(s.o, slot).value) then Result(s, Next)
    else if !c.up(ph, Delete(5)) then Result(s, Failed)
    else Result(Put(s, WithoutSlot(s.o, slot), slot), Next)
  }

  function MakeCompact(c: Context, s: State): Result {
    if c.spec.powersync.Some? && c.spec.powersync.value.compact then
      OrFailWith(c, PsCompact, EnsureCron(c, PsCompact, s, c.k.cron(c.name, c.spec, s.memory.names)), PowersyncReady,
          CronJobFailed)
    else DeleteOwned(c, PsCompact, s, CronAt)
  }

  function AwaitPowerSync(c: Context, s: State): Result {
    if !c.up(PsReady, Get(0)) || !c.up(PsReady, Get(1)) then Result(s, Failed)
    else
      var s1 := WithService(WithService(s, PsApi, Observed(s.o, PsApi)), PsReplicator, Observed(s.o, PsReplicator));
      if !Observed(s.o, PsApi).ready || !Observed(s.o, PsReplicator).ready
          then Wait(c, PsReady, s1, PowersyncReady, DeploymentsPending)
      else Result(Mark(c, s1, PowersyncReady, true, IsReady), Next)
  }

  predicate PowerSyncStatusLeft(st: Status) {
    || ServiceOf(st, PsApi) != NOT_READY || ServiceOf(st, PsReplicator) != NOT_READY
    || CDCReady in st.conditions || PowersyncReady in st.conditions
  }

  function CleanStatus(c: Context, s: State): Result {
    if !PowerSyncStatusLeft(s.memory) then Result(s, Next)
    else
      var s1 := WithService(WithService(s, PsApi, NOT_READY), PsReplicator, NOT_READY);
      Save(c, CleanPowerSyncStatus, 0,
          s1.(memory := RemoveCondition(RemoveCondition(s1.memory, CDCReady), PowersyncReady)))
  }

  // ---- The end of the pass --------------------------------------------------

  function Finished(c: Context, s: State): Result {
    var s1 := s.(memory := s.memory.(phase := Running, observed := c.generation));
    MarkAndSave(c, Finish, 0, s1, Ready, true, AllComponentsReady)
  }

  // ---- The chain of gates ---------------------------------------------------

  function BackupDeclared(c: Context): Backup {
    if c.spec.database.backup.Some? then c.spec.database.backup.value else Backup(false, "", "", S3("", "", ""), "", "")
  }

  function RecoveryDeclared(c: Context): Recovery {
    if c.spec.database.recovery.Some? then c.spec.database.recovery.value else Recovery(false, "", "", S3("", "", ""))
  }

  /** The phases up to the implementation Secrets. */
  function SecretsStep(c: Context, s: State, ph: Phase): Result {
    match ph
    case Protect(d) => ProtectOne(c, s, d)
    case CheckCredentials => CheckBundle(c, s)
    case ImplementationSecret(role) => MakeSecret(c, s, role)
    case PsRoleSecrets => MakeRoleSecrets(c, s)
    case PsTokenSecret => MakeToken(c, s)
    case EmailHookSecret => MakeHook(c, s)
    case SecretsDone => FinishSecrets(c, s)
    case _ => Result(s, Next)
  }

  /** The backup and recovery phases, and their removal. */
  function StorageStep(c: Context, s: State, ph: Phase): Result {
    match ph
    case BackupCredentials => CheckS3(c, ph, s, BackupDeclared(c).s3.credentials, BackupReady)
    case BackupStore =>
      OrFailWith(c, ph, EnsureStore(c, ph, s, DurableBackup, BackupSpecOf(BackupDeclared(c))), BackupReady,
          ObjectStoreFailed)
    case BackupSchedule =>
      OrFailWith(c, ph, EnsureSchedule(c, ph, s, ScheduleOf(c, BackupDeclared(c))), BackupReady, ScheduledBackupFailed)
    case BackupDone => MarkAndSave(c, ph, 0, s, BackupReady, true, BackupConfigured)
    case CleanSchedule => CleanDurable(c, ph, s, DurableSchedule, BackupReady, s.o.(schedule := None))
    case CleanBackupStore => CleanDurable(c, ph, s, DurableBackup, BackupReady, s.o.(backup := None))
    case CleanBackupDone => CleanCondition(c, ph, s, BackupReady)
    case RecoveryCredentials => CheckS3(c, ph, s, RecoveryDeclared(c).s3.credentials, RecoveryReady)
    case RecoveryStore =>
      OrFailWith(c, ph, EnsureStore(c, ph, s, DurableRecovery, RecoverySpecOf(RecoveryDeclared(c))), RecoveryReady,
          ObjectStoreFailed)
    case RecoveryDone => MarkAndSave(c, ph, 0, s, RecoveryReady, true, RecoveryConfigured)
    case CleanRecoveryStore => CleanDurable(c, ph, s, DurableRecovery, RecoveryReady, s.o.(recovery := None))
    case CleanRecoveryDone => CleanCondition(c, ph, s, RecoveryReady)
    case _ => Result(s, Next)
  }

  /** The database and the core services. */
  function CoreStep(c: Context, s: State, ph: Phase): Result {
    match ph
    case ValidateBootstrap => CheckBootstrap(c, s)
    case InitSqlMap => EnsureMap(c, ph, s, InitSql, c.k.mapData(c.name, c.spec, InitSql))
    case JwksMap => MakeJwks(c, s)
    case EnsureCluster => MakeCluster(c, s)
    case WaitForDatabase => AwaitDatabase(c, s)
    case Serve(comp) => ServeComponent(c, s, comp)
    case CoreGate => GateCore(c, s)
    case Finish => Finished(c, s)
    case _ => Result(s, Next)
  }

  /** PowerSync, and its removal. */
  function PowerSyncStep(c: Context, s: State, ph: Phase): Result {
    match ph
    case RulesGate => CheckRules(c, s)
    case RolesGate => AwaitRoles(c, s)
    case PublicationGate => AwaitPublication(c, s)
    case CdcMap => MakeCdcMap(c, s)
    case CdcJob => AwaitJob(c, s)
    case PsConfigMap =>
      OrFailWith(c, ph, EnsureMap(c, ph, s, PsConfig, c.k.mapData(c.name, c.spec, PsConfig)), PowersyncReady,
          ConfigMapFailed)
    case PsRulesMap => MakeRulesMap(c, s)
    case PsApiDeployment =>
      OrFailWith(c, ph, EnsureDeployment(c, ph, s, PsApi, PowerSyncTemplate(c, s, PsApi)), PowersyncReady,
          ApiDeploymentFailed)
    case PsApiService => OrFailWith(c, ph, EnsureService(c, ph, s, PsApi), PowersyncReady, ApiServiceFailed)
    case PsReplicatorDeployment =>
      OrFailWith(c, ph, EnsureDeployment(c, ph, s, PsReplicator, PowerSyncTemplate(c, s, PsReplicator)),
          PowersyncReady, ReplicationDeploymentFailed)
    case PsCompact => MakeCompact(c, s)
    case PsReady => AwaitPowerSync(c, s)
    case CleanPowerSync(slot) => DeleteOwned(c, ph, s, slot)
    case CleanPowerSyncStatus => CleanStatus(c, s)
    case _ => Result(s, Next)
  }

  /** One phase of the pass. */
  function Step(c: Context, s: State, ph: Phase): Result {
    if ph.Protect? || ph.CheckCredentials? || ph.ImplementationSecret? || ph.PsRoleSecrets?
         || ph.PsTokenSecret? || ph.EmailHookSecret? || ph.SecretsDone?
    then SecretsStep(c, s, ph)
    else if ph.BackupCredentials? || ph.BackupStore? || ph.BackupSchedule? || ph.BackupDone?
         || ph.CleanSchedule? || ph.CleanBackupStore? || ph.CleanBackupDone? || ph.RecoveryCredentials?
         || ph.RecoveryStore? || ph.RecoveryDone? || ph.CleanRecoveryStore? || ph.CleanRecoveryDone?
    then StorageStep(c, s, ph)
    else if ph.ValidateBootstrap? || ph.InitSqlMap? || ph.JwksMap? || ph.EnsureCluster? || ph.WaitForDatabase?
         || ph.Serve? || ph.CoreGate? || ph.Finish?
    then CoreStep(c, s, ph)
    else PowerSyncStep(c, s, ph)
  }

  function SecretsPlan(c: Context): seq<Phase> {
    [CheckCredentials, ImplementationSecret(GoTrueFallback), ImplementationSecret(SupabaseAdmin),
     ImplementationSecret(Authenticator), ImplementationSecret(AuthAdmin)]
    + (if c.spec.powersync.Some? then [PsRoleSecrets, PsTokenSecret] else [])
    + [EmailHookSecret, SecretsDone]
  }

  const ProtectPlan: seq<Phase> := [Protect(DurableCluster), Protect(DurableBackup), Protect(DurableRecovery),
      Protect(DurableSchedule)]

  function BackupPlan(c: Context): seq<Phase> {
    if BackupEnabled(c.spec.database) then [BackupCredentials, BackupStore, BackupSchedule, BackupDone]
    else [CleanSchedule, CleanBackupStore, CleanBackupDone]
  }

  function RecoveryPlan(c: Context): seq<Phase> {
    if RecoveryEnabled(c.spec.database) then [RecoveryCredentials, RecoveryStore, RecoveryDone]
    else [CleanRecoveryStore, CleanRecoveryDone]
  }

  const ServicesPlan: seq<Phase> := [Serve(Auth), Serve(Rest), Serve(Studio), Serve(MetaApi), Serve(Gateway), CoreGate]

  const GatesPlan: seq<Phase> := [RulesGate, RolesGate, PublicationGate, CdcMap, CdcJob]

  const WorkloadPlan: seq<Phase> :=
    [PsConfigMap, PsRulesMap, PsApiDeployment, PsApiService, PsReplicatorDeployment, PsCompact, PsReady]

  const CleanupPlan: seq<Phase> :=
    [CleanPowerSync(DeploymentAt(PsApi)), CleanPowerSync(DeploymentAt(PsReplicator)), CleanPowerSync(ServiceAt(PsApi)),
     CleanPowerSync(MapAt(PsConfig)), CleanPowerSync(MapAt(PsRules)), CleanPowerSync(MapAt(CdcScript)),
     CleanPowerSync(JobAt), CleanPowerSync(CronAt), CleanPowerSync(PublicationAt), CleanPowerSyncStatus]

  function PowerSyncPlan(c: Context): seq<Phase> {
    if c.spec.powersync.Some? then GatesPlan + WorkloadPlan else CleanupPlan
  }

  /** The phases of a pass, in order. */
  function Plan(c: Context): seq<Phase> {
    ProtectPlan + SecretsPlan(c) + [ValidateBootstrap, InitSqlMap, JwksMap] + BackupPlan(c) + RecoveryPlan(c)
    + [EnsureCluster, WaitForDatabase] + ServicesPlan + PowerSyncPlan(c) + [Finish]
  }

  /** Phases run until one of them stops the pass. */
  function Run(c: Context, s: State, plan: seq<Phase>): Result
    decreases |plan|
  {
    if plan == [] then Result(s, Next)
    else
      var r := Step(c, s, plan[0]);
      if r.outcome == Next then Run(c, r.state, plan[1..]) else r
  }

  /** Where a pass starts: the project as read, an empty log. */
  function Begin(o: Objects, status: Status): State {
    State(o, if status.phase == NoPhase then status.(phase := Pending) else status, status, [])
  }

  /** A whole pass over an existing project: Next means complete. */
  function Pass(c: Context, o: Objects, status: Status): Result { Run(c, Begin(o, status), Plan(c)) }

  lemma {:induction false} RunConcat(c: Context, s: State, a: seq<Phase>, b: seq<Phase>)
    ensures Run(c, s, a + b) == (var r := Run(c, s, a); if r.outcome == Next then Run(c, r.state, b) else r)
    decreases |a|
  {
    hide Step;
    if a == [] {
      assert a + b == b;
    } else {
      assert (a + b)[1..] == a[1..] + b;
      var r := Step(c, s, a[0]);
      if r.outcome == Next {
        RunConcat(c, r.state, a[1..], b);
      }
    }
  }
}
