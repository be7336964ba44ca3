/** A pass never fails when its inputs are valid, its API calls succeed, nothing
    foreign is in the way and no creation-time input was changed. */
module Progress {
  import opened Kube
  import opened Pods
  import opened Clusters
  import opened World
  import opened Operator
  import opened Steps
  import opened Frames
  import opened Durables
  import opened Gates
  import opened Settled
  import opened Keeping
  import opened Ordering
  import opened Settling
  import opened Idempotence

  /** The generated names at the end of the secrets phase. */
  function FinalNames(c: Context): Names { NamesFor(c, if c.spec.emailHook then HookName(c) else NoSecret) }

  /** CNPG's defaulting neither moves creation-time input nor touches the plugins. */
  ghost predicate DefaultsKeep(c: Context) {
    var b, d := Built(c, FinalNames(c)), Desired(c, FinalNames(c));
    && Declared(d) && d.plugins == b.plugins && (d.storage.size == "" || c.k.quantity(d.storage.size).Some?)
    && (forall x :: IntentChanged(x, d) == IntentChanged(x, b))
  }

  /** API calls that succeed, on a platform that keeps what it is given. */
  ghost predicate Working(c: Context) {
    && Healthy(c) && c.name != "" && Faithful(c.k) && DefaultsKeep(c)
    && (forall seed :: c.k.hookValid(c.k.generate(EmailHook, seed)))
  }

  /** What a phase checks of the declaration and of what it refers to. */
  predicate Valid(c: Context, ph: Phase) {
    match ph
    case CheckCredentials => Bundle(c).Some?
    case BackupCredentials => S3Present(c, BackupDeclared(c).s3.credentials)
    case RecoveryCredentials => S3Present(c, RecoveryDeclared(c).s3.credentials)
    case Serve(comp) => comp == Auth ==> EnvReadable(c)
    case RulesGate => Rules(c).Some?
    case PublicationGate => DesiredPublication(c).Some?
    case CdcMap => c.k.cdcScript(c.spec).Some?
    case _ => true
  }

  /** Valid inputs, and API calls that succeed. */
  ghost predicate Sound(c: Context) { Working(c) && forall ph :: Planned(c, ph) ==> Valid(c, ph) }

  predicate Mine(c: Context, m: Meta) { WithController(m.owners, Self(c)).Some? }

  predicate CleanSecret(c: Context, role: SecretRole, x: Secret) {
    && (role != EmailHook ==> Mine(c, x.meta))
    && (role == EmailHook && c.spec.emailHook ==> c.k.hookValid(x.data))
    && (role == PsToken && c.spec.powersync.Some? ==> c.k.tokenValid(x.data))
  }

  predicate CleanCluster(c: Context, x: Cluster) {
    && Ours(c, x.meta) && !IntentChanged(x.spec, Built(c, FinalNames(c)))
    && StorageAccepted(c.k.quantity, x.spec.storage, Desired(c, FinalNames(c)).storage)
    && (c.spec.powersync.Some? ==> !RolesBlocked(x))
  }

  predicate CleanJob(c: Context, x: Job) {
    Ours(c, x.meta) && Mine(c, x.meta) && (HashOf(x) == ScriptHash(c) ==> Verdict(x.conditions) != Broken)
  }

  /** The object at a slot, if any, is no foreign one and asks for nothing that must be refused. */
  predicate CleanSlot(c: Context, o: Objects, slot: Slot) {
    match slot
    case SecretAt(x) => x in o.secrets ==> CleanSecret(c, x, o.secrets[x])
    case MapAt(x) => x in o.configMaps ==> Ours(c, o.configMaps[x].meta) && Mine(c, o.configMaps[x].meta)
    case DeploymentAt(x) => x in o.deployments ==> Mine(c, o.deployments[x].meta)
    case ServiceAt(x) => x in o.services ==> Mine(c, o.services[x].meta)
    case JobAt => o.job.Some? ==> CleanJob(c, o.job.value)
    case CronAt => o.cron.Some? ==> Mine(c, o.cron.value.meta)
    case PublicationAt => o.publication.Some? ==> Ours(c, o.publication.value.meta) && Mine(c, o.publication.value.meta)
    case ClusterAt => o.cluster.Some? ==> CleanCluster(c, o.cluster.value)
    case BackupAt => o.backup.Some? ==> Ours(c, o.backup.value.meta)
    case RecoveryAt => o.recovery.Some? ==> Ours(c, o.recovery.value.meta)
    case ScheduleAt => o.schedule.Some? ==> Ours(c, o.schedule.value.meta)
  }

  /** Clean, whatever the Cluster. */
  ghost predicate CleanBeside(c: Context, o: Objects) { forall slot :: slot != ClusterAt ==> CleanSlot(c, o, slot) }

  ghost predicate Clean(c: Context, o: Objects) { CleanBeside(c, o) && CleanSlot(c, o, ClusterAt) }

  /** A retained Cluster's recovery source is the declared one. */
  predicate CleanSource(c: Context, o: Objects) {
    RecoveryEnabled(c.spec.database) && o.cluster.Some? && o.recovery.Some? ==>
      SameLocation(o.recovery.value.spec, RecoverySpecOf(RecoveryDeclared(c)))
  }

  lemma CleanAt(c: Context, o: Objects, slot: Slot)
    requires CleanBeside(c, o) && slot != ClusterAt
    ensures CleanSlot(c, o, slot)
  {
    hide CleanSlot;
  }

  lemma CleanParts(c: Context, o: Objects)
    ensures Clean(c, o) <==> CleanBeside(c, o) && CleanSlot(c, o, ClusterAt)
  {
    hide CleanSlot;
  }

  lemma WorkingParts(c: Context)
    requires Working(c)
    ensures Healthy(c) && Faithful(c.k) && c.name != "" && DefaultsKeep(c)
    ensures forall seed :: c.k.hookValid(c.k.generate(EmailHook, seed))
  {
    hide DefaultsKeep, Faithful, Healthy;
  }

  lemma SoundIsWorking(c: Context)
    requires Sound(c)
    ensures Working(c)
  {
    hide Working, Planned, Valid;
  }

  // ---- One phase ------------------------------------------------------------

  predicate Waits(ph: Phase) {
    || ph.EnsureCluster? || ph.WaitForDatabase? || ph.CoreGate? || ph.RolesGate? || ph.PublicationGate? || ph.CdcJob?
        || ph.PsReady?
  }

  /** The phase goes on, unless it is one that may ask to be called again, and its own
      slots stay clean; that of the Cluster if it was. */
  ghost predicate Goes(c: Context, s: State, ph: Phase) {
    && Step(c, s, ph).outcome != Failed && (!Waits(ph) ==> Step(c, s, ph).outcome == Next)
    && forall slot :: Writes(ph, slot) && (slot == ClusterAt ==> CleanSlot(c, s.o, slot)) ==>
         CleanSlot(c, Step(c, s, ph).state.o, slot)
  }

  /** The one object a phase may write, where there is one. */
  function TargetOf(ph: Phase): Option<Slot> {
    match ph
    case Protect(d) => Some(SlotOf(d))
    case ImplementationSecret(role) => Some(SecretAt(role))
    case PsTokenSecret => Some(SecretAt(PsToken))
    case EmailHookSecret => Some(SecretAt(EmailHook))
    case InitSqlMap => Some(MapAt(InitSql))
    case JwksMap => Some(MapAt(Jwks))
    case BackupStore => Some(BackupAt)
    case CleanBackupStore => Some(BackupAt)
    case BackupSchedule => Some(ScheduleAt)
    case CleanSchedule => Some(ScheduleAt)
    case RecoveryStore => Some(RecoveryAt)
    case CleanRecoveryStore => Some(RecoveryAt)
    case EnsureCluster => Some(ClusterAt)
    case PublicationGate => Some(PublicationAt)
    case CdcMap => Some(MapAt(CdcScript))
    case CdcJob => Some(JobAt)
    case PsConfigMap => Some(MapAt(PsConfig))
    case PsRulesMap => Some(MapAt(PsRules))
    case PsApiDeployment => Some(DeploymentAt(PsApi))
    case PsApiService => Some(ServiceAt(PsApi))
    case PsReplicatorDeployment => Some(DeploymentAt(PsReplicator))
    case PsCompact => Some(CronAt)
    case CleanPowerSync(slot) => Some(slot)
    case _ => None
  }

  lemma Targets()
    ensures forall ph, slot :: Writes(ph, slot) && !ph.PsRoleSecrets? && !ph.Serve? ==> TargetOf(ph) == Some(slot)
    ensures forall comp, slot ::
        Writes(Serve(comp), slot)
        ==> slot == MapAt(EnvoyConfig) || slot == DeploymentAt(comp) || slot == ServiceAt(comp)
  {
  }

  ghost predicate GoesTo(c: Context, s: State, ph: Phase) {
    && Step(c, s, ph).outcome != Failed && (!Waits(ph) ==> Step(c, s, ph).outcome == Next)
    && forall slot :: TargetOf(ph) == Some(slot) && (slot == ClusterAt ==> CleanSlot(c, s.o, slot)) ==>
         CleanSlot(c, Step(c, s, ph).state.o, slot)
  }

  lemma CleanSame(c: Context, a: Objects, b: Objects, slot: Slot)
    ensures SameSlot(a, b, slot) && CleanSlot(c, a, slot) ==> CleanSlot(c, b, slot)
  {
    hide CleanSecret, CleanCluster, CleanJob, Mine, Ours;
  }

  // ---- Creating and updating ------------------------------------------------

  lemma SecretGoes(c: Context, ph: Phase, s: State, role: SecretRole, data: Data)
    requires Healthy(c) && CleanSlot(c, s.o, SecretAt(role))
    requires role == EmailHook ==> role !in s.o.secrets && c.k.hookValid(data)
    requires role == PsToken ==> c.k.tokenValid(data)
    ensures EnsureSecret(c, ph, s, role, data).outcome == Next
    ensures CleanSlot(c, EnsureSecret(c, ph, s, role, data).state.o, SecretAt(role))
    ensures role in EnsureSecret(c, ph, s, role, data).state.o.secrets
  {
    hide WithController, OwnedMeta, Self;
    if EnsureSecret(c, ph, s, role, data).outcome == Next { SecretSettles(c, ph, s, role, data); }
  }

  lemma MapGoes(c: Context, ph: Phase, s: State, role: MapRole, data: Data)
    requires Healthy(c) && CleanSlot(c, s.o, MapAt(role))
    ensures EnsureMap(c, ph, s, role, data).outcome == Next
    ensures CleanSlot(c, EnsureMap(c, ph, s, role, data).state.o, MapAt(role))
  {
    hide WithController, MergedLabels, Ours, Self;
    if EnsureMap(c, ph, s, role, data).outcome == Next { MapSettles(c, ph, s, role, data); }
  }

  lemma DeploymentGoes(c: Context, ph: Phase, s: State, comp: Component, template: PodTemplate)
    requires Healthy(c) && Faithful(c.k) && CleanSlot(c, s.o, DeploymentAt(comp))
    ensures EnsureDeployment(c, ph, s, comp, template).outcome == Next
    ensures CleanSlot(c, EnsureDeployment(c, ph, s, comp, template).state.o, DeploymentAt(comp))
  {
    hide WithController, Normal, Faithful, UpdatedDeployment, NewDeployment, Self;
    if EnsureDeployment(c, ph, s, comp, template).outcome == Next { DeploymentSettles(c, ph, s, comp, template); }
  }

  lemma ServiceGoes(c: Context, ph: Phase, s: State, comp: Component)
    requires Healthy(c) && CleanSlot(c, s.o, ServiceAt(comp))
    ensures EnsureService(c, ph, s, comp).outcome == Next
    ensures CleanSlot(c, EnsureService(c, ph, s, comp).state.o, ServiceAt(comp))
  {
    hide WithController, Self, SelectorFor;
    if EnsureService(c, ph, s, comp).outcome == Next { ServiceSettles(c, ph, s, comp); }
  }

  lemma DeleteGoes(c: Context, ph: Phase, s: State, slot: Slot)
    requires Healthy(c) && CleanSlot(c, s.o, slot)
    ensures DeleteOwned(c, ph, s, slot).outcome == Next
    ensures CleanSlot(c, DeleteOwned(c, ph, s, slot).state.o, slot)
  {
    hide ControlledBy, WithController, CleanJob, CleanCluster, CleanSecret, Ours, Self;
  }

  lemma StoreGoes(c: Context, ph: Phase, s: State, d: Durable, desired: StoreSpec)
    requires d.DurableBackup? || d.DurableRecovery?
    requires Healthy(c) && c.name != "" && CleanSlot(c, s.o, SlotOf(d)) && desired.rest == ""
    ensures EnsureStore(c, ph, s, d, desired).outcome == Next
    ensures CleanSlot(c, EnsureStore(c, ph, s, d, desired).state.o, SlotOf(d))
  {
    hide Repaired, Ours, CleanCluster, CleanSecret, CleanJob;
    if EnsureStore(c, ph, s, d, desired).outcome == Next { StoreSettles(c, ph, s, d, desired); }
  }

  lemma ScheduleGoes(c: Context, ph: Phase, s: State, desired: ScheduleSpec)
    requires Healthy(c) && c.name != "" && CleanSlot(c, s.o, ScheduleAt) && desired.rest == ""
    ensures EnsureSchedule(c, ph, s, desired).outcome == Next
    ensures CleanSlot(c, EnsureSchedule(c, ph, s, desired).state.o, ScheduleAt)
  {
    hide Repaired, Ours, CleanCluster, CleanSecret, CleanJob;
    if EnsureSchedule(c, ph, s, desired).outcome == Next { ScheduleSettles(c, ph, s, desired); }
  }

  lemma CronGoes(c: Context, ph: Phase, s: State, desired: CronSpec)
    requires Healthy(c) && Faithful(c.k) && CleanSlot(c, s.o, CronAt)
    ensures EnsureCron(c, ph, s, desired).outcome == Next
    ensures CleanSlot(c, EnsureCron(c, ph, s, desired).state.o, CronAt)
  {
    hide WithController, MergedLabels, NormalCron, Faithful, CleanCluster, CleanSecret, CleanJob, Self;
    if EnsureCron(c, ph, s, desired).outcome == Next { CronSettles(c, ph, s, desired); }
  }

  // ---- Durable metadata and Secrets -----------------------------------------

  lemma ProtectClean(c: Context, s: State, d: Durable)
    requires Healthy(c)
    ensures ProtectOne(c, s, d).outcome == Next
    ensures CleanSlot(c, s.o, SlotOf(d)) ==> CleanSlot(c, ProtectOne(c, s, d).state.o, SlotOf(d))
  {
    hide WithoutProject, IntentChanged, Built, Desired, StorageAccepted, CleanSecret, CleanJob, FinalNames;
  }

  lemma TokenGoes(c: Context, s: State)
    requires Healthy(c) && Faithful(c.k) && CleanSlot(c, s.o, SecretAt(PsToken)) && c.spec.powersync.Some?
    ensures MakeToken(c, s).outcome == Next && CleanSlot(c, MakeToken(c, s).state.o, SecretAt(PsToken))
  {
    hide EnsureSecret, FailSecrets, Mine, CleanCluster, CleanJob, Stored;
    SecretGoes(c, PsTokenSecret, s, PsToken, c.k.generate(PsToken, c.seed));
  }

  lemma RefreshFrame(c: Context, ph: Phase, s: State, role: SecretRole, other: SecretRole)
    requires other != role && role in s.o.secrets
    ensures SameSlot(s.o, RefreshSecret(c, ph, s, role).state.o, SecretAt(other))
  {
    hide WithController, Self;
  }

  lemma SecretFrame(c: Context, ph: Phase, s: State, role: SecretRole, data: Data, other: SecretRole)
    requires other != role
    ensures SameSlot(s.o, EnsureSecret(c, ph, s, role, data).state.o, SecretAt(other))
  {
    hide OwnedMeta, RefreshSecret;
    if role in s.o.secrets { RefreshFrame(c, ph, s, role, other); }
  }

  /** Both role Secrets exist, or go through the create-once helper. */
  lemma RoleSecretsGo(c: Context, s: State)
    requires Healthy(c) && CleanSlot(c, s.o, SecretAt(PsStorage)) && CleanSlot(c, s.o, SecretAt(PsReplication))
    ensures Goes(c, s, PsRoleSecrets)
  {
    hide EnsureSecret, CleanSlot, MarkAndSave, FailSecrets, SameSlot, Step;
    StepRoleSecrets(c, s);
    var ph := PsRoleSecrets;
    var first := EnsureSecret(c, ph, s, PsStorage, c.k.generate(PsStorage, c.seed));
    var second := EnsureSecret(c, ph, first.state, PsReplication, c.k.generate(PsReplication, c.seed));
    SecretGoes(c, ph, s, PsStorage, c.k.generate(PsStorage, c.seed));
    SecretFrame(c, ph, s, PsStorage, c.k.generate(PsStorage, c.seed), PsReplication);
    CleanSame(c, s.o, first.state.o, SecretAt(PsReplication));
    SecretGoes(c, ph, first.state, PsReplication, c.k.generate(PsReplication, c.seed));
    SecretFrame(c, ph, first.state, PsReplication, c.k.generate(PsReplication, c.seed), PsStorage);
    CleanSame(c, first.state.o, second.state.o, SecretAt(PsStorage));
  }

  lemma HookGoes(c: Context, s: State)
    requires Healthy(c) && CleanSlot(c, s.o, SecretAt(EmailHook)) && c.k.hookValid(c.k.generate(EmailHook, c.seed))
    ensures MakeHook(c, s).outcome == Next && CleanSlot(c, MakeHook(c, s).state.o, SecretAt(EmailHook))
  {
    hide EnsureSecret, Mine, FailWith, FailSecrets, CleanCluster, CleanJob, SetCondition;
    if c.spec.emailHook && EmailHook !in s.o.secrets {
      SecretGoes(c, EmailHookSecret, s, EmailHook, c.k.generate(EmailHook, c.seed));
    }
  }

  lemma SecretsGo(c: Context, s: State, ph: Phase)
    requires Working(c) && CleanBeside(c, s.o) && Planned(c, ph) && Valid(c, ph) && (ph.Protect? || SecretsPhase(ph))
        && !ph.PsRoleSecrets?
    ensures GoesTo(c, s, ph)
  {
    hide Step, CleanSlot, ProtectOne, EnsureSecret, MakeRoleSecrets, MakeToken, MakeHook, FailSecrets, SetCondition,
         NamesFor, Faithful, DefaultsKeep, BackupEnabled, RecoveryEnabled, Removable;
    match ph {
      case Protect(d) => StepProtect(c, s, d); ProtectClean(c, s, d);
      case CheckCredentials => StepCredentials(c, s);
      case ImplementationSecret(role) => StepSecret(c, s, role); SecretGoes(c, ph, s, role, c.k.generate(role, c.seed));
      case PsTokenSecret => StepToken(c, s); TokenGoes(c, s);
      case EmailHookSecret => StepHook(c, s); HookGoes(c, s);
      case SecretsDone => StepSecretsDone(c, s);
    }
  }

  // ---- ConfigMaps and stores ------------------------------------------------

  lemma MapsGo(c: Context, s: State, ph: Phase)
    requires Healthy(c) && CleanBeside(c, s.o) && MapPhase(ph) && Valid(c, ph)
    ensures GoesTo(c, s, ph)
  {
    hide Step, Healthy, CleanSlot, EnsureMap, FailWith, JwksData, ScriptData, RulesData, Bundle, EnvReadable,
         S3Present, Rules, DesiredPublication;
    match ph {
      case InitSqlMap => StepInitSql(c, s); MapGoes(c, ph, s, InitSql, c.k.mapData(c.name, c.spec, InitSql));
      case JwksMap => StepJwks(c, s); MapGoes(c, ph, s, Jwks, JwksData(c));
      case CdcMap => StepCdcMap(c, s); MapGoes(c, ph, s, CdcScript, ScriptData(c));
      case PsConfigMap => StepPsConfig(c, s); MapGoes(c, ph, s, PsConfig, c.k.mapData(c.name, c.spec, PsConfig));
      case PsRulesMap => StepPsRules(c, s); MapGoes(c, ph, s, PsRules, RulesData(c));
    }
  }

  lemma CheckS3Goes(c: Context, ph: Phase, s: State, secret: string, t: ConditionType)
    requires Healthy(c)
    ensures S3Present(c, secret) ==> CheckS3(c, ph, s, secret, t) == Result(s, Next)
    ensures CheckS3(c, ph, s, secret, t).outcome == Next <==> S3Present(c, secret)
  {
    hide FailWith;
    FailsWith(c, s);
  }

  lemma CleanDurableGoes(c: Context, ph: Phase, s: State, d: Durable, t: ConditionType, without: Objects)
    requires Healthy(c) && CleanSlot(c, s.o, SlotOf(d)) && d != DurableCluster
    requires without == s.o.(schedule := None) || d != DurableSchedule
    requires without == s.o.(backup := None) || d != DurableBackup
    requires without == s.o.(recovery := None) || d != DurableRecovery
    ensures CleanDurable(c, ph, s, d, t, without).outcome == Next
        && CleanSlot(c, CleanDurable(c, ph, s, d, t, without).state.o, SlotOf(d))
  {
    hide Ours, CleanSecret, CleanCluster, CleanJob;
  }

  lemma NoRest(c: Context)
    ensures BackupSpecOf(BackupDeclared(c)).rest == "" && RecoverySpecOf(RecoveryDeclared(c)).rest == ""
        && ScheduleOf(c, BackupDeclared(c)).rest == ""
  {
  }

  lemma StorageGoes(c: Context, s: State, ph: Phase)
    requires Healthy(c) && c.name != "" && CleanBeside(c, s.o) && Valid(c, ph) && (BackupPhase(ph) || RecoveryPhase(ph))
    ensures GoesTo(c, s, ph)
  {
    hide Step, CleanSlot, EnsureStore, EnsureSchedule, CheckS3, S3Present, BackupDeclared, RecoveryDeclared, Bundle,
         EnvReadable, Rules, DesiredPublication, Mark, RemoveCondition, FailWith, BackupSpecOf, RecoverySpecOf,
         ScheduleOf;
    NoRest(c);
    match ph {
      case BackupCredentials =>
        StepStorageCredentials(c, s);
        CheckS3Goes(c, ph, s, BackupDeclared(c).s3.credentials, BackupReady);
      case BackupStore => StepStores(c, s); StoreGoes(c, ph, s, DurableBackup, BackupSpecOf(BackupDeclared(c)));
      case BackupSchedule => StepSchedule(c, s); ScheduleGoes(c, ph, s, ScheduleOf(c, BackupDeclared(c)));
      case RecoveryCredentials =>
        StepStorageCredentials(c, s);
        CheckS3Goes(c, ph, s, RecoveryDeclared(c).s3.credentials, RecoveryReady);
      case RecoveryStore => StepStores(c, s); StoreGoes(c, ph, s, DurableRecovery, RecoverySpecOf(RecoveryDeclared(c)));
      case _ => StepConfigured(c, s);
    }
  }

  lemma CleaningGoes(c: Context, s: State, ph: Phase)
    requires Healthy(c) && CleanBeside(c, s.o) && Planned(c, ph) && (CleaningPhase(ph) || ph.CleanPowerSync?)
    ensures GoesTo(c, s, ph)
  {
    hide Step, CleanSlot, CleanDurable, DeleteOwned, RemoveCondition, BackupEnabled, RecoveryEnabled;
    match ph {
      case CleanSchedule =>
        StepCleaning(c, s);
        CleanDurableGoes(c, ph, s, DurableSchedule, BackupReady, s.o.(schedule := None));
      case CleanBackupStore =>
        StepCleaning(c, s);
        CleanDurableGoes(c, ph, s, DurableBackup, BackupReady, s.o.(backup := None));
      case CleanRecoveryStore =>
        StepCleaning(c, s);
        CleanDurableGoes(c, ph, s, DurableRecovery, RecoveryReady, s.o.(recovery := None));
      case CleanBackupDone => StepCleaned(c, s);
      case CleanRecoveryDone => StepCleaned(c, s);
      case CleanPowerSync(slot) => StepRemoval(c, s, slot); DeleteGoes(c, ph, s, slot);
    }
  }

  // ---- The Cluster ----------------------------------------------------------

  lemma NewClusterKept(c: Context, o: Objects)
    requires DefaultsKeep(c) && o.cluster.Some? && o.cluster.value.meta == DurableMeta(c, ClusterAt)
    requires o.cluster.value.spec == Desired(c, FinalNames(c))
    ensures ClusterKept(c, o, FinalNames(c)) && CleanClusterSpec(c, o.cluster.value.spec)
  {
    DurableIsKept(c, ClusterAt);
    DesiredMergesWithItself(c);
    IntentReflexive(Desired(c, FinalNames(c)));
    DefaultsIntent(c, Desired(c, FinalNames(c)));
    hide IntentChanged, Built, Desired, MergeCluster, Repaired, Ours, DefaultsKeep, FinalNames;
  }

  /** The part of CleanCluster about the spec. */
  predicate CleanClusterSpec(c: Context, x: ClusterSpec) {
    !IntentChanged(x, Built(c, FinalNames(c)))
        && StorageAccepted(c.k.quantity, x.storage, Desired(c, FinalNames(c)).storage)
  }

  lemma DefaultsIntent(c: Context, x: ClusterSpec)
    requires DefaultsKeep(c)
    ensures IntentChanged(x, Desired(c, FinalNames(c))) == IntentChanged(x, Built(c, FinalNames(c)))
    ensures Declared(Desired(c, FinalNames(c)))
  {
    hide IntentChanged, Built, FinalNames;
  }

  lemma BarmanAlone(c: Context, plugins: seq<Plugin>)
    requires plugins == Built(c, FinalNames(c)).plugins
    ensures MergedPlugins(plugins, FirstBarman(plugins)) == plugins
  {
    if plugins != [] { assert plugins[1..] == []; }
    hide FinalNames, AllRoles, BuildBootstrap;
  }

  lemma DesiredMergesWithItself(c: Context)
    requires DefaultsKeep(c)
    ensures var d := Desired(c, FinalNames(c));
            MergeCluster(c.k.quantity, d, d) == Merged(d, false) && StorageAccepted(c.k.quantity, d.storage, d.storage)
  {
    var d := Desired(c, FinalNames(c));
    BarmanAlone(c, d.plugins);
    hide IntentChanged, Built, FinalNames, Desired, MergedPlugins, FirstBarman;
  }

  lemma MergedClusterKept(c: Context, x: ClusterSpec, y: ClusterSpec)
    requires DefaultsKeep(c) && !IntentChanged(x, Built(c, FinalNames(c)))
    requires MergeCluster(c.k.quantity, x, Desired(c, FinalNames(c))).Merged?
    requires y == MergeCluster(c.k.quantity, x, Desired(c, FinalNames(c))).spec
    ensures CleanClusterSpec(c, y) && !IntentChanged(y, Desired(c, FinalNames(c)))
    ensures MergeCluster(c.k.quantity, y, Desired(c, FinalNames(c))) == Merged(y, false)
  {
    hide Built, Desired, FinalNames, StorageAccepted, Refused, MergeCluster, DefaultsKeep;
    RefusedMeaning(c.k.quantity, y.storage, Desired(c, FinalNames(c)).storage);
    DefaultsIntent(c, y);
    MergeIsExact(c.k.quantity, x, Desired(c, FinalNames(c)));
    MergeIsExact(c.k.quantity, y, Desired(c, FinalNames(c)));
    SameOriginIntent(x, y, Built(c, FinalNames(c)));
  }

  lemma SameOriginIntent(x: ClusterSpec, y: ClusterSpec, d: ClusterSpec)
    requires y.bootstrap == x.bootstrap && y.externals == x.externals
    ensures IntentChanged(y, d) == IntentChanged(x, d)
  {
  }

  /** What the Cluster phase does: nothing to a Cluster that is as declared, and one
      that was absent or behind is as declared afterwards. */
  lemma ClusterGoes(c: Context, s: State)
    requires Healthy(c) && DefaultsKeep(c) && CleanSlot(c, s.o, ClusterAt) && s.memory.names == FinalNames(c)
    ensures MakeCluster(c, s).outcome != Failed && CleanSlot(c, MakeCluster(c, s).state.o, ClusterAt)
    ensures ClusterKept(c, MakeCluster(c, s).state.o, FinalNames(c))
    ensures MakeCluster(c, s).outcome == Requeue ==> !ClusterKept(c, s.o, FinalNames(c))
  {
    hide DefaultsKeep, FinalNames, MakeCluster, CleanSlot, ClusterKept, Healthy;
    if s.o.cluster.None? {
      NewClusterGoes(c, s);
    } else {
      OldClusterGoes(c, s);
    }
  }

  lemma NewClusterGoes(c: Context, s: State)
    requires Healthy(c) && DefaultsKeep(c) && s.o.cluster.None? && s.memory.names == FinalNames(c)
    ensures MakeCluster(c, s).outcome != Failed && CleanSlot(c, MakeCluster(c, s).state.o, ClusterAt)
    ensures ClusterKept(c, MakeCluster(c, s).state.o, FinalNames(c))
    ensures MakeCluster(c, s).outcome == Requeue ==> !ClusterKept(c, s.o, FinalNames(c))
  {
    hide DefaultsKeep, FinalNames, Desired, Built, IntentChanged, ClusterKept, StorageAccepted, DurableMeta, Ours,
         SetCondition;
    var r := MakeCluster(c, s);
    NewClusterKept(c, r.state.o);
    KeptIsOurs(c, r.state.o);
    if ClusterKept(c, s.o, FinalNames(c)) { KeptIsOurs(c, s.o); }
  }

  lemma KeptIsOurs(c: Context, o: Objects)
    requires ClusterKept(c, o, FinalNames(c))
    ensures o.cluster.Some? && Ours(c, o.cluster.value.meta)
  {
    hide IntentChanged, Desired, MergeCluster, Repaired, Ours, FinalNames;
  }

  lemma OldClusterGoes(c: Context, s: State)
    requires Healthy(c) && DefaultsKeep(c) && s.o.cluster.Some? && CleanSlot(c, s.o, ClusterAt)
        && s.memory.names == FinalNames(c)
    ensures MakeCluster(c, s).outcome != Failed && CleanSlot(c, MakeCluster(c, s).state.o, ClusterAt)
    ensures ClusterKept(c, MakeCluster(c, s).state.o, FinalNames(c))
    ensures MakeCluster(c, s).outcome == Requeue ==> !ClusterKept(c, s.o, FinalNames(c))
  {
    hide DefaultsKeep, FinalNames, Desired, Built, IntentChanged, StorageAccepted, Ours, Repaired, MergeCluster,
         RepairThenFail;
    var x := s.o.cluster.value;
    var d := Desired(c, FinalNames(c));
    DefaultsIntent(c, x.spec);
    MergeAccepts(c, x.spec, d);
    var m := MergeCluster(c.k.quantity, x.spec, d);
    MergedClusterKept(c, x.spec, m.spec);
    RepairedIsKept(c, x.meta, ClusterAt);
    UnchangedMerge(c, x.spec);
  }

  lemma MergeAccepts(c: Context, x: ClusterSpec, d: ClusterSpec)
    ensures StorageAccepted(c.k.quantity, x.storage, d.storage) <==> MergeCluster(c.k.quantity, x, d).Merged?
  {
    hide MergedSpec, ReportsChange;
  }

  lemma UnchangedMerge(c: Context, x: ClusterSpec)
    requires DefaultsKeep(c)
    ensures var m := MergeCluster(c.k.quantity, x, Desired(c, FinalNames(c))); m.Merged? && !m.changed ==> m.spec == x
  {
    hide DefaultsKeep, FinalNames, Desired, MergeCluster;
    DefaultsIntent(c, x);
    MergeIsExact(c.k.quantity, x, Desired(c, FinalNames(c)));
  }

  // ---- Services and gates ---------------------------------------------------

  lemma ReportGoes(c: Context, s: State, comp: Component)
    requires Healthy(c)
    ensures ReportComponent(c, s, comp).outcome == Next && ReportComponent(c, s, comp).state.o == s.o
  {
    hide Observed, FailComponent, SetCondition;
  }

  lemma PrepareGoes(c: Context, s: State, comp: Component)
    requires Healthy(c) && (comp == Auth ==> EnvReadable(c)) && CleanSlot(c, s.o, MapAt(EnvoyConfig))
    ensures PrepareComponent(c, s, comp).outcome == Next
        && CleanSlot(c, PrepareComponent(c, s, comp).state.o, MapAt(EnvoyConfig))
    ensures var o := PrepareComponent(c, s, comp).state.o; o == s.o.(configMaps := o.configMaps)
  {
    hide EnsureMap, EnvValid, EnvReadable, FailComponent, CleanSlot;
    if comp == Auth { EnvRests(c); }
    if comp == Gateway {
      MapGoes(c, Serve(Gateway), s, EnvoyConfig, c.k.mapData(c.name, c.spec, EnvoyConfig));
      MapObjects(c, Serve(Gateway), s, EnvoyConfig, c.k.mapData(c.name, c.spec, EnvoyConfig));
    }
  }

  lemma MapObjects(c: Context, ph: Phase, s: State, role: MapRole, data: Data)
    ensures var o := EnsureMap(c, ph, s, role, data).state.o; o == s.o.(configMaps := o.configMaps)
  {
    hide WithController, MergedLabels;
  }

  lemma TemplateGoes(c: Context, s: State, o: Objects, comp: Component)
    requires CleanSlot(c, o, SecretAt(EmailHook)) && s.o.secrets == o.secrets
    requires comp == Auth && c.spec.emailHook ==> EmailHook in o.secrets
    ensures CoreTemplate(c, s, comp).Some?
  {
    hide Mine, CleanCluster, CleanJob, Bundle;
  }

  /** A prepared component gets its Deployment and its Service, and is reported. */
  lemma ComponentGoes(c: Context, s: State, comp: Component, template: PodTemplate)
    requires Healthy(c) && Faithful(c.k) && CleanSlot(c, s.o, DeploymentAt(comp)) && CleanSlot(c, s.o, ServiceAt(comp))
    ensures MakeComponent(c, s, comp, template).outcome == Next
    ensures var o := MakeComponent(c, s, comp, template).state.o;
            o.configMaps == s.o.configMaps && CleanSlot(c, o, DeploymentAt(comp)) && CleanSlot(c, o, ServiceAt(comp))
  {
    hide EnsureDeployment, EnsureService, ReportComponent, Faithful, Healthy, CleanSlot, FailComponent;
    DeploymentGoes(c, Serve(comp), s, comp, template);
    DeploymentObjects(c, Serve(comp), s, comp, template);
    var d := EnsureDeployment(c, Serve(comp), s, comp, template).state;
    CleanSame(c, s.o, d.o, ServiceAt(comp));
    ServiceGoes(c, Serve(comp), d, comp);
    ServiceObjects(c, Serve(comp), d, comp);
    var v := EnsureService(c, Serve(comp), d, comp).state;
    CleanSame(c, d.o, v.o, DeploymentAt(comp));
    ReportGoes(c, v, comp);
  }

  lemma ServeGoes(c: Context, s: State, comp: Component)
    requires Healthy(c) && Faithful(c.k) && CleanBeside(c, s.o) && (comp == Auth ==> EnvReadable(c))
    requires comp == Auth && c.spec.emailHook ==> EmailHook in s.o.secrets
    ensures Goes(c, s, Serve(comp))
  {
    hide Step, CleanSlot, Writes, PrepareComponent, MakeComponent, CoreTemplate, Healthy, Faithful, EnvReadable,
         FailCore;
    assert CleanSlot(c, s.o, SecretAt(EmailHook));
    PrepareGoes(c, s, comp);
    var p := PrepareComponent(c, s, comp).state;
    TemplateGoes(c, p, s.o, comp);
    CleanSame(c, s.o, p.o, DeploymentAt(comp));
    CleanSame(c, s.o, p.o, ServiceAt(comp));
    var template := CoreTemplate(c, p, comp).value;
    ComponentGoes(c, p, comp, template);
    CleanSame(c, p.o, MakeComponent(c, p, comp, template).state.o, MapAt(EnvoyConfig));
    StepServe(c, s, comp);
    Targets();
  }

  lemma PublicationGoes(c: Context, s: State)
    requires Healthy(c) && DesiredPublication(c).Some? && CleanSlot(c, s.o, PublicationAt)
    ensures AwaitPublication(c, s).outcome != Failed && CleanSlot(c, AwaitPublication(c, s).state.o, PublicationAt)
  {
    hide DesiredPublication, WithController, MergedLabels, Ours, LabelsFor, Self, SetCondition, CleanSecret, CleanJob,
         CleanCluster;
    OwnedIsKept(c, PublicationAt);
    if s.o.publication.Some? && Mine(c, s.o.publication.value.meta) {
      RepairIsKept(c, s.o.publication.value.meta, PublicationAt);
    }
  }

  lemma CheckJobGoes(c: Context, s: State)
    requires Healthy(c) && CleanSlot(c, s.o, JobAt)
    ensures CheckJob(c, s).outcome != Failed && CleanSlot(c, CheckJob(c, s).state.o, JobAt)
  {
    hide WithController, MergedLabels, Ours, ScriptHash, HashOf, LabelsFor, Self;
    OwnedIsKept(c, JobAt);
    if s.o.job.Some? {
      RepairIsKept(c, s.o.job.value.meta, JobAt);
      HashReads(s.o.job.value, s.o.job.value.(deleting := true));
      HashReads(s.o.job.value, OwnedJob(c, s.o.job.value));
    }
  }

  lemma HashReads(x: Job, y: Job)
    requires y.annotations == x.annotations
    ensures HashOf(y) == HashOf(x)
  {
  }

  // ---- Steps and runs -------------------------------------------------------

  /** What a phase counts on from earlier phases. */
  predicate Able(c: Context, s: State, ph: Phase) {
    && (ph == ValidateBootstrap || ph == EnsureCluster ==> s.memory.names == FinalNames(c))
    && (ph == WaitForDatabase || ph == RolesGate ==> s.o.cluster.Some?)
    && (ph == Serve(Auth) && c.spec.emailHook ==> EmailHook in s.o.secrets)
  }

  /** What a phase that looks at the Cluster asks of it. */
  predicate FitCluster(c: Context, o: Objects, ph: Phase) {
    && (ph == ValidateBootstrap || ph == EnsureCluster || ph == RolesGate ==> CleanSlot(c, o, ClusterAt))
    && (ph == ValidateBootstrap ==> CleanSource(c, o))
  }

  /** The phases that wait, or look before the pass goes on. */
  lemma GatesGo(c: Context, s: State, ph: Phase)
    requires Healthy(c) && DefaultsKeep(c) && CleanBeside(c, s.o) && FitCluster(c, s.o, ph) && Planned(c, ph)
        && Valid(c, ph) && Able(c, s, ph)
    requires Passing(ph) || ph.WaitForDatabase?
    ensures GoesTo(c, s, ph)
  {
    hide Step, CleanSlot, ClusterKept, MakeCluster, CleanSource, AwaitPublication, CheckBootstrap, CheckRules,
         DefaultsKeep, CoreReady, RolesBlocked, RolesReconciled, SetCondition, FailWith, FinalNames, BackupEnabled,
         RecoveryEnabled, Removable, Bundle, S3Present, EnvReadable, Rules, DesiredPublication;
    match ph {
      case ValidateBootstrap => StepBootstrap(c, s); BootstrapGoes(c, s);
      case EnsureCluster => StepCluster(c, s); ClusterGoes(c, s);
      case WaitForDatabase => StepDatabase(c, s);
      case CoreGate => StepCoreGate(c, s);
      case RulesGate => StepRules(c, s); RulesRest(c, s);
      case RolesGate => StepRoles(c, s); CleanRoles(c, s.o);
      case PublicationGate => StepPublication(c, s); PublicationGoes(c, s);
    }
  }

  lemma CleanRoles(c: Context, o: Objects)
    ensures CleanSlot(c, o, ClusterAt) && c.spec.powersync.Some? && o.cluster.Some? ==> !RolesBlocked(o.cluster.value)
  {
    hide Ours, IntentChanged, StorageAccepted, RolesBlocked, CleanSecret, CleanJob, Built, Desired;
  }

  lemma BootstrapGoes(c: Context, s: State)
    requires Healthy(c) && CleanSlot(c, s.o, ClusterAt) && CleanSource(c, s.o) && s.memory.names == FinalNames(c)
    ensures CheckBootstrap(c, s) == Result(s, Next)
  {
    hide IntentChanged, Built, FinalNames, Ours, StorageAccepted, RolesBlocked, Desired;
  }

  lemma WorkloadsGo(c: Context, s: State, ph: Phase)
    requires Healthy(c) && Faithful(c.k) && CleanBeside(c, s.o)
    requires ph.PsApiDeployment? || ph.PsApiService? || ph.PsReplicatorDeployment? || ph.PsCompact?
    ensures GoesTo(c, s, ph)
  {
    hide Step, Faithful, FailWith, CleanSlot, EnsureDeployment, EnsureService, EnsureCron, DeleteOwned,
         PowerSyncTemplate;
    match ph {
      case PsApiDeployment => StepPsDeployments(c, s); DeploymentGoes(c, ph, s, PsApi, PowerSyncTemplate(c, s, PsApi));
      case PsApiService => StepPsService(c, s); ServiceGoes(c, ph, s, PsApi);
      case PsReplicatorDeployment =>
        StepPsDeployments(c, s);
        DeploymentGoes(c, ph, s, PsReplicator, PowerSyncTemplate(c, s, PsReplicator));
      case PsCompact =>
        StepCompact(c, s);
        CronGoes(c, ph, s, c.k.cron(c.name, c.spec, s.memory.names));
        DeleteGoes(c, ph, s, CronAt);
    }
  }

  lemma EndsGo(c: Context, s: State, ph: Phase)
    requires Healthy(c) && CleanBeside(c, s.o) && (ph.CdcJob? || ph.PsReady? || ph.CleanPowerSyncStatus? || ph.Finish?)
    ensures GoesTo(c, s, ph)
  {
    hide Step, CleanSlot, PowerSyncStatusLeft, SetCondition, RemoveCondition, CheckJob, Observed;
    match ph {
      case CdcJob => StepJob(c, s); CheckJobGoes(c, s);
      case PsReady => StepPsReady(c, s);
      case CleanPowerSyncStatus => StepStatusRemoval(c, s);
      case Finish => StepFinish(c, s);
    }
  }

  /** No phase fails whose inputs are valid and whose objects are clean. */
  lemma AnyGoes(c: Context, s: State, ph: Phase)
    requires Working(c) && CleanBeside(c, s.o) && FitCluster(c, s.o, ph)
    requires Planned(c, ph) && Valid(c, ph) && Able(c, s, ph)
    ensures Goes(c, s, ph) && Step(c, s, ph).outcome != Failed && (!Waits(ph) ==> Step(c, s, ph).outcome == Next)
  {
    hide Step, CleanSlot, Writes, TargetOf, FitCluster, Planned, Healthy, Faithful, DefaultsKeep, EnvReadable, Bundle,
         S3Present, Rules, DesiredPublication;
    Targets();
    if ph.PsRoleSecrets? {
      assert CleanSlot(c, s.o, SecretAt(PsStorage)) && CleanSlot(c, s.o, SecretAt(PsReplication));
      RoleSecretsGo(c, s);
    } else if ph.Protect? || SecretsPhase(ph) {
      SecretsGo(c, s, ph);
    } else if MapPhase(ph) {
      MapsGo(c, s, ph);
    } else if BackupPhase(ph) || RecoveryPhase(ph) {
      StorageGoes(c, s, ph);
    } else if CleaningPhase(ph) || ph.CleanPowerSync? {
      CleaningGoes(c, s, ph);
    } else if ph.Serve? {
      ServeGoes(c, s, ph.core);
    } else if Passing(ph) || ph.WaitForDatabase? {
      GatesGo(c, s, ph);
    } else if ph.CdcJob? || ph.PsReady? || ph.CleanPowerSyncStatus? || ph.Finish? {
      EndsGo(c, s, ph);
    } else {
      WorkloadsGo(c, s, ph);
    }
  }

  /** A phase that goes leaves the whole world clean, but for a Cluster that was not. */
  lemma GoesClean(c: Context, s: State, ph: Phase)
    requires CleanBeside(c, s.o) && Goes(c, s, ph)
    ensures CleanBeside(c, Step(c, s, ph).state.o)
    ensures CleanSlot(c, s.o, ClusterAt) ==> CleanSlot(c, Step(c, s, ph).state.o, ClusterAt)
  {
    hide Step, CleanSlot, SameSlot, Writes;
    var t := Step(c, s, ph).state;
    forall slot | CleanSlot(c, s.o, slot) ensures CleanSlot(c, t.o, slot) {
      if !Writes(ph, slot) {
        StepKeeps(c, s, ph, slot);
        CleanSame(c, s.o, t.o, slot);
      }
    }
  }

  lemma SoundValid(c: Context, ph: Phase)
    requires Sound(c) && Planned(c, ph)
    ensures Valid(c, ph)
  {
    hide Working, Planned, Valid;
  }
}
