/** What a phase leaves behind when the pass goes on past it, and that no later
    phase disturbs it. */
module Settled {
  import opened Kube
  import opened Pods
  import opened Clusters
  import opened World
  import opened Operator
  import opened Frames
  import opened Gates

  // ---- Parts of the status --------------------------------------------------

  datatype Field = ConditionField(t: ConditionType) | PhaseField | DatabaseField | ServiceField(comp: Component)
                 | NamesField | HookField | ApiField | DatabaseEndpointField | ObservedField

  predicate SameField(a: Status, b: Status, f: Field) {
    match f
    case ConditionField(t) => SameKey(a.conditions, b.conditions, t)
    case PhaseField => a.phase == b.phase
    case DatabaseField => a.database == b.database
    case ServiceField(x) => SameKey(a.services, b.services, x)
    case NamesField => a.names.(emailHook := NoSecret) == b.names.(emailHook := NoSecret)
    case HookField => a.names.emailHook == b.names.emailHook
    case ApiField => a.endpoints.api == b.endpoints.api
    case DatabaseEndpointField => a.endpoints.database == b.endpoints.database
    case ObservedField => a.observed == b.observed
  }

  predicate IsPs(comp: Component) { comp == PsApi || comp == PsReplicator }

  /** The parts of the status a phase may change when it goes on. */
  predicate Touches(ph: Phase, f: Field) {
    match f
    case ConditionField(t) =>
      || (t == SecretsReady && (ph == EmailHookSecret || ph == SecretsDone))
      || (t == BackupReady && (ph == BackupDone || ph == CleanBackupDone))
      || (t == RecoveryReady && (ph == RecoveryDone || ph == CleanRecoveryDone))
      || (t == DatabaseReady && ph == WaitForDatabase)
      || (ph.Serve? && t == ConditionOf(ph.core))
      || (t == CDCReady && (ph == CdcJob || ph == CleanPowerSyncStatus))
      || (t == PowersyncReady && (ph == PsReady || ph == CleanPowerSyncStatus))
      || (t == Ready && ph == Finish)
    case PhaseField => ph == CheckCredentials || ph == Finish
    case DatabaseField => ph == WaitForDatabase
    case ServiceField(x) => ph == Serve(x) || (IsPs(x) && (ph == PsReady || ph == CleanPowerSyncStatus))
    case NamesField => ph == SecretsDone
    case HookField => ph == EmailHookSecret
    case ApiField => ph == WaitForDatabase || ph == Serve(Gateway)
    case DatabaseEndpointField => ph == WaitForDatabase
    case ObservedField => ph == Finish
  }

  ghost predicate Calmly(ph: Phase, a: Status, b: Status) { forall f :: !Touches(ph, f) ==> SameField(a, b, f) }

  // ---- What is left behind --------------------------------------------------

  predicate SecretKept(c: Context, o: Objects, role: SecretRole) {
    role in o.secrets && WithController(o.secrets[role].meta.owners, Self(c)) == Some(o.secrets[role].meta.owners)
  }

  predicate MapKept(c: Context, o: Objects, role: MapRole, data: Data) {
    && role in o.configMaps && Ours(c, o.configMaps[role].meta)
    && WithController(o.configMaps[role].meta.owners, Self(c)) == Some(o.configMaps[role].meta.owners)
    && MergedLabels(o.configMaps[role].meta.labels, LabelsFor(c, MapAt(role))) == o.configMaps[role].meta.labels
    && o.configMaps[role].data == data
  }

  predicate DeploymentKept(c: Context, o: Objects, comp: Component, template: PodTemplate) {
    comp in o.deployments && DeploymentCurrent(c, o.deployments[comp], comp, template)
  }

  predicate ServiceKept(c: Context, o: Objects, comp: Component) {
    && comp in o.services
    && WithController(o.services[comp].meta.owners, Self(c)) == Some(o.services[comp].meta.owners)
    && o.services[comp].ports == c.k.ports(comp) && o.services[comp].selector == SelectorFor(c, comp)
  }

  predicate StoreKept(c: Context, o: Objects, d: Durable, desired: StoreSpec) {
    && StoreAt(o, d).Some? && Ours(c, StoreAt(o, d).value.meta)
    && Repaired(c, StoreAt(o, d).value.meta, SlotOf(d)) == StoreAt(o, d).value.meta
    && MergedStore(StoreAt(o, d).value.spec, desired) == StoreAt(o, d).value.spec
  }

  predicate ScheduleKept(c: Context, o: Objects, desired: ScheduleSpec) {
    && o.schedule.Some? && Ours(c, o.schedule.value.meta)
    && Repaired(c, o.schedule.value.meta, ScheduleAt) == o.schedule.value.meta
    && desired.(rest := o.schedule.value.spec.rest) == o.schedule.value.spec
  }

  predicate ClusterKept(c: Context, o: Objects, names: Names) {
    && o.cluster.Some? && Ours(c, o.cluster.value.meta)
    && Repaired(c, o.cluster.value.meta, ClusterAt) == o.cluster.value.meta
    && !IntentChanged(o.cluster.value.spec, Desired(c, names))
    && MergeCluster(c.k.quantity, o.cluster.value.spec, Desired(c, names)).Merged?
    && !MergeCluster(c.k.quantity, o.cluster.value.spec, Desired(c, names)).changed
  }

  predicate PublicationKept(c: Context, o: Objects) {
    && DesiredPublication(c).Some? && o.publication.Some?
    && UpdatedPublication(c, o.publication.value, DesiredPublication(c).value) == o.publication
    && PublicationApplied(o.publication.value)
  }

  predicate JobKept(c: Context, o: Objects) {
    && o.job.Some? && Ours(c, o.job.value.meta) && HashOf(o.job.value) == ScriptHash(c)
    && WithController(o.job.value.meta.owners, Self(c)).Some? && OwnedJob(c, o.job.value) == o.job.value
    && Verdict(o.job.value.conditions) == Complete
  }

  predicate CronKept(c: Context, o: Objects, desired: CronSpec) {
    && o.cron.Some? && WithController(o.cron.value.meta.owners, Self(c)) == Some(o.cron.value.meta.owners)
    && MergedLabels(o.cron.value.meta.labels, LabelsFor(c, CronAt)) == o.cron.value.meta.labels
    && NormalCron(o.cron.value.spec) == NormalCron(desired)
  }

  predicate Gone(c: Context, o: Objects, slot: Slot) {
    PowerSyncMeta(o, slot).Some? ==> !ControlledBy(c, PowerSyncMeta(o, slot).value)
  }

  /** The condition is on, for that reason, at the current generation. */
  predicate Marked(c: Context, m: Status, t: ConditionType, reason: Reason) {
    t in m.conditions && m.conditions[t] == Condition(true, reason, c.generation, m.conditions[t].since)
  }

  predicate S3Present(c: Context, secret: string) {
    secret in c.ext.secrets && ACCESS_KEY in c.ext.secrets[secret] && SECRET_KEY in c.ext.secrets[secret]
  }

  /** CoreTemplate reads the objects and the generated names. */
  function TemplateFor(c: Context, o: Objects, m: Status, comp: Component): Option<PodTemplate> {
    CoreTemplate(c, State(o, m, m, []), comp)
  }

  function PsTemplateFor(c: Context, o: Objects, m: Status, comp: Component): PodTemplate {
    PowerSyncTemplate(c, State(o, m, m, []), comp)
  }

  /** A core service as served: its objects as declared, its status as observed. */
  predicate Served(c: Context, o: Objects, m: Status, comp: Component) {
    && TemplateFor(c, o, m, comp).Some? && DeploymentKept(c, o, comp, TemplateFor(c, o, m, comp).value)
    && ServiceKept(c, o, comp) && ServiceOf(m, comp) == Observed(o, comp) && comp in m.services
    && (ServiceOf(m, comp).ready ==> Marked(c, m, ConditionOf(comp), IsReady))
    && (comp == Gateway ==> MapKept(c, o, EnvoyConfig, c.k.mapData(c.name, c.spec, EnvoyConfig)) && m.endpoints.api)
    && (comp == Auth ==> EnvReadable(c))
  }

  /** The custom variables without the API's say. */
  predicate EntryReadable(c: Context, e: EnvEntry) {
    && !c.k.operatorOwned(e.name)
    && match e.source
       case Literal(_) => true
       case NoSource => false
       case FromKey(secretKey, mapKey) =>
         && secretKey.None? != mapKey.None?
         && (secretKey.Some? ==> KeyValid(true, secretKey.value, c.ext.secrets))
         && (mapKey.Some? ==> KeyValid(true, mapKey.value, c.ext.configMaps))
  }

  predicate EnvReadable(c: Context) { forall i :: 0 <= i < |c.spec.env| ==> EntryReadable(c, c.spec.env[i]) }

  predicate WithRulesMap(c: Context) {
    c.spec.powersync.Some? && c.spec.powersync.value.rules.configMapRef == ""
        && c.spec.powersync.value.rules.inline != ""
  }

  predicate WithCompact(c: Context) { c.spec.powersync.Some? && c.spec.powersync.value.compact }

  predicate TokenKept(c: Context, o: Objects) { SecretKept(c, o, PsToken) && c.k.tokenValid(o.secrets[PsToken].data) }

  predicate RoleSecretsKept(o: Objects) { PsStorage in o.secrets && PsReplication in o.secrets }

  predicate HookKept(c: Context, o: Objects, m: Status) {
    (c.spec.emailHook ==> EmailHook in o.secrets) && m.names.emailHook == if c.spec.emailHook then HookName(c)
        else NoSecret
  }

  predicate NamesKept(c: Context, m: Status) { NamesSet(c, m) && Marked(c, m, SecretsReady, CredentialsValidated) }

  predicate IntentKept(c: Context, o: Objects, names: Names) {
    o.cluster.Some? ==> !IntentChanged(o.cluster.value.spec, Built(c, names))
  }

  predicate DatabaseUp(o: Objects) { o.cluster.Some? && o.cluster.value.status.ready >= o.cluster.value.spec.instances }

  predicate DatabaseKept(c: Context, o: Objects, m: Status) {
    && DatabaseUp(o) && m.database == DatabaseOf(o.cluster.value) && m.endpoints.database
    && Marked(c, m, DatabaseReady, IsReady)
  }

  predicate ScriptKept(c: Context, o: Objects) {
    c.k.cdcScript(c.spec).Some? && MapKept(c, o, CdcScript, ScriptData(c))
  }

  predicate RulesKept(c: Context, o: Objects) { WithRulesMap(c) ==> MapKept(c, o, PsRules, RulesData(c)) }

  predicate CompactKept(c: Context, o: Objects, names: Names) {
    if WithCompact(c) then CronKept(c, o, c.k.cron(c.name, c.spec, names)) else Gone(c, o, CronAt)
  }

  predicate WorkloadsKept(c: Context, o: Objects, m: Status) {
    && Observed(o, PsApi).ready && Observed(o, PsReplicator).ready
    && PsApi in m.services && PsReplicator in m.services
    && m.services[PsApi] == Observed(o, PsApi) && m.services[PsReplicator] == Observed(o, PsReplicator)
    && Marked(c, m, PowersyncReady, IsReady)
  }

  predicate FinishKept(c: Context, m: Status) {
    m.phase == Running && m.observed == c.generation && Marked(c, m, Ready, AllComponentsReady)
  }

  /** Up to the implementation Secrets. */
  predicate SecretsStable(c: Context, o: Objects, m: Status, ph: Phase) {
    match ph
    case CheckCredentials => Bundle(c).Some?
    case ImplementationSecret(role) => SecretKept(c, o, role)
    case PsRoleSecrets => RoleSecretsKept(o)
    case PsTokenSecret => TokenKept(c, o)
    case EmailHookSecret => HookKept(c, o, m)
    case SecretsDone => NamesKept(c, m)
    case _ => true
  }

  /** Stores, schedule and their removal. */
  predicate StorageStable(c: Context, o: Objects, m: Status, ph: Phase) {
    match ph
    case BackupCredentials => S3Present(c, BackupDeclared(c).s3.credentials)
    case BackupStore => StoreKept(c, o, DurableBackup, BackupSpecOf(BackupDeclared(c)))
    case BackupSchedule => ScheduleKept(c, o, ScheduleOf(c, BackupDeclared(c)))
    case BackupDone => Marked(c, m, BackupReady, BackupConfigured)
    case CleanBackupDone => BackupReady !in m.conditions
    case RecoveryCredentials => S3Present(c, RecoveryDeclared(c).s3.credentials)
    case RecoveryStore => StoreKept(c, o, DurableRecovery, RecoverySpecOf(RecoveryDeclared(c)))
    case RecoveryDone => Marked(c, m, RecoveryReady, RecoveryConfigured)
    case CleanRecoveryDone => RecoveryReady !in m.conditions
    case _ => true
  }

  /** The database and the core services. */
  predicate CoreStable(c: Context, o: Objects, m: Status, ph: Phase) {
    match ph
    case ValidateBootstrap => IntentKept(c, o, m.names)
    case InitSqlMap => MapKept(c, o, InitSql, c.k.mapData(c.name, c.spec, InitSql))
    case JwksMap => MapKept(c, o, Jwks, JwksData(c))
    case EnsureCluster => ClusterKept(c, o, m.names)
    case WaitForDatabase => DatabaseKept(c, o, m)
    case Serve(comp) => Served(c, o, m, comp)
    case CoreGate => CoreReady(m)
    case Finish => FinishKept(c, m)
    case _ => true
  }

  /** The gates of PowerSync. */
  predicate GatesStable(c: Context, o: Objects, m: Status, ph: Phase) {
    match ph
    case RulesGate => Rules(c).Some?
    case RolesGate => RolesUp(o)
    case PublicationGate => PublicationKept(c, o)
    case CdcMap => ScriptKept(c, o)
    case CdcJob => JobKept(c, o) && Marked(c, m, CDCReady, CDCPermissionsApplied)
    case _ => true
  }

  /** PowerSync, and its removal. */
  predicate WorkloadsStable(c: Context, o: Objects, m: Status, ph: Phase) {
    match ph
    case PsConfigMap => MapKept(c, o, PsConfig, c.k.mapData(c.name, c.spec, PsConfig))
    case PsRulesMap => RulesKept(c, o)
    case PsApiDeployment => DeploymentKept(c, o, PsApi, PsTemplateFor(c, o, m, PsApi))
    case PsApiService => ServiceKept(c, o, PsApi)
    case PsReplicatorDeployment => DeploymentKept(c, o, PsReplicator, PsTemplateFor(c, o, m, PsReplicator))
    case PsCompact => CompactKept(c, o, m.names)
    case PsReady => WorkloadsKept(c, o, m)
    case CleanPowerSync(slot) => Gone(c, o, slot)
    case CleanPowerSyncStatus => !PowerSyncStatusLeft(m)
    case _ => true
  }

  /** What holds once the pass went past a phase. */
  predicate Stable(c: Context, o: Objects, m: Status, ph: Phase) {
    if ph.Protect? || SecretsPhase(ph) then SecretsStable(c, o, m, ph)
    else if BackupPhase(ph) || RecoveryPhase(ph) || CleaningPhase(ph) then StorageStable(c, o, m, ph)
    else if || ph.ValidateBootstrap? || ph.InitSqlMap? || ph.JwksMap? || ph.EnsureCluster? || ph.WaitForDatabase?
            || ph.Serve? || ph.CoreGate? || ph.Finish?
    then CoreStable(c, o, m, ph)
    else if ph.RulesGate? || ph.RolesGate? || ph.PublicationGate? || ph.CdcMap? || ph.CdcJob?
        then GatesStable(c, o, m, ph)
    else WorkloadsStable(c, o, m, ph)
  }

  // The same as equations, so that a proof about some phases need not look at the others.

  lemma StableSecrets(c: Context, o: Objects, m: Status)
    ensures Stable(c, o, m, CheckCredentials) == Bundle(c).Some?
    ensures Stable(c, o, m, PsRoleSecrets) == RoleSecretsKept(o)
    ensures Stable(c, o, m, PsTokenSecret) == TokenKept(c, o)
    ensures Stable(c, o, m, EmailHookSecret) == HookKept(c, o, m)
    ensures Stable(c, o, m, SecretsDone) == NamesKept(c, m)
  {
    hide StorageStable, CoreStable, GatesStable, WorkloadsStable, Bundle, SecretKept, RoleSecretsKept, TokenKept,
         HookKept, NamesKept;
  }

  lemma StableBackup(c: Context, o: Objects, m: Status)
    ensures Stable(c, o, m, BackupCredentials) == S3Present(c, BackupDeclared(c).s3.credentials)
    ensures Stable(c, o, m, BackupStore) == StoreKept(c, o, DurableBackup, BackupSpecOf(BackupDeclared(c)))
    ensures Stable(c, o, m, BackupSchedule) == ScheduleKept(c, o, ScheduleOf(c, BackupDeclared(c)))
    ensures Stable(c, o, m, BackupDone) == Marked(c, m, BackupReady, BackupConfigured)
    ensures Stable(c, o, m, CleanBackupDone) == (BackupReady !in m.conditions)
  {
    hide SecretsStable, CoreStable, GatesStable, WorkloadsStable, S3Present, BackupDeclared, RecoveryDeclared,
         StoreKept, ScheduleKept, Marked, BackupSpecOf, RecoverySpecOf, ScheduleOf;
  }

  lemma StableRecovery(c: Context, o: Objects, m: Status)
    ensures Stable(c, o, m, RecoveryCredentials) == S3Present(c, RecoveryDeclared(c).s3.credentials)
    ensures Stable(c, o, m, RecoveryStore) == StoreKept(c, o, DurableRecovery, RecoverySpecOf(RecoveryDeclared(c)))
    ensures Stable(c, o, m, RecoveryDone) == Marked(c, m, RecoveryReady, RecoveryConfigured)
    ensures Stable(c, o, m, CleanRecoveryDone) == (RecoveryReady !in m.conditions)
  {
    hide SecretsStable, CoreStable, GatesStable, WorkloadsStable, S3Present, BackupDeclared, RecoveryDeclared,
         StoreKept, ScheduleKept, Marked, BackupSpecOf, RecoverySpecOf, ScheduleOf;
  }

  lemma StableCluster(c: Context, o: Objects, m: Status)
    ensures Stable(c, o, m, ValidateBootstrap) == IntentKept(c, o, m.names)
    ensures Stable(c, o, m, EnsureCluster) == ClusterKept(c, o, m.names)
    ensures Stable(c, o, m, WaitForDatabase) == DatabaseKept(c, o, m)
  {
    hide SecretsStable, StorageStable, GatesStable, WorkloadsStable, IntentKept, MapKept, JwksData, ClusterKept,
         DatabaseKept, Served, CoreReady, FinishKept;
  }

  lemma StableServe(c: Context, o: Objects, m: Status, comp: Component)
    ensures Stable(c, o, m, Serve(comp)) == Served(c, o, m, comp)
  {
    hide SecretsStable, StorageStable, GatesStable, WorkloadsStable, IntentKept, MapKept, JwksData, ClusterKept,
         DatabaseKept, Served, CoreReady, FinishKept;
  }

  lemma StableCore(c: Context, o: Objects, m: Status)
    ensures Stable(c, o, m, CoreGate) == CoreReady(m)
    ensures Stable(c, o, m, Finish) == FinishKept(c, m)
  {
    hide SecretsStable, StorageStable, GatesStable, WorkloadsStable, IntentKept, MapKept, JwksData, ClusterKept,
         DatabaseKept, Served, CoreReady, FinishKept;
  }

  lemma StableGates(c: Context, o: Objects, m: Status)
    ensures Stable(c, o, m, RulesGate) == Rules(c).Some?
    ensures Stable(c, o, m, RolesGate) == RolesUp(o)
    ensures Stable(c, o, m, PublicationGate) == PublicationKept(c, o)
    ensures Stable(c, o, m, CdcMap) == ScriptKept(c, o)
    ensures Stable(c, o, m, CdcJob) == (JobKept(c, o) && Marked(c, m, CDCReady, CDCPermissionsApplied))
  {
    hide SecretsStable, StorageStable, CoreStable, WorkloadsStable, Marked, Rules, RolesUp, PublicationKept,
         ScriptKept, JobKept;
  }

  lemma StableWorkloads(c: Context, o: Objects, m: Status)
    ensures Stable(c, o, m, PsApiDeployment) == DeploymentKept(c, o, PsApi, PsTemplateFor(c, o, m, PsApi))
    ensures Stable(c, o, m, PsApiService) == ServiceKept(c, o, PsApi)
    ensures Stable(c, o, m, PsReplicatorDeployment)
        == DeploymentKept(c, o, PsReplicator, PsTemplateFor(c, o, m, PsReplicator))
    ensures Stable(c, o, m, PsCompact) == CompactKept(c, o, m.names)
  {
    hide SecretsStable, StorageStable, CoreStable, GatesStable, MapKept, RulesKept, DeploymentKept, ServiceKept,
         CompactKept, WorkloadsKept, Gone, PowerSyncStatusLeft, PsTemplateFor;
  }

}
