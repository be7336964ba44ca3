/** Later phases do not disturb what earlier ones left: each phase's result depends
    on few objects and few parts of the status, and a pass that goes on touches
    others. */
module Keeping {
  import opened Kube
  import opened Pods
  import opened Clusters
  import opened World
  import opened Operator
  import opened Steps
  import opened Frames
  import opened Durables
  import opened Gates
  import opened Settled

  // ---- A phase that goes on touches little of the status --------------------

  /** Changes of the fields a phase may set itself. */
  lemma SetCalmly(c: Context, a: Status, name: SecretRef)
    ensures forall ph :: Calmly(ph, a, a)
    ensures Calmly(EmailHookSecret, a, a.(names := a.names.(emailHook := name)))
    ensures Calmly(CheckCredentials, a, a.(phase := Provisioning))
    ensures Calmly(SecretsDone, a, a.(names := NamesFor(c, a.names.emailHook)))
    ensures Calmly(Serve(Gateway), a, a.(endpoints := a.endpoints.(api := true)))
    ensures Calmly(Finish, a, a.(phase := Running, observed := c.generation))
  {
  }

  lemma CalmlyThen(ph: Phase, a: Status, b: Status, c: Status)
    ensures Calmly(ph, a, b) && Calmly(ph, b, c) ==> Calmly(ph, a, c)
  {
    hide Touches;
    if Calmly(ph, a, b) && Calmly(ph, b, c) {
      forall f | !Touches(ph, f) ensures SameField(a, c, f) { assert SameField(a, b, f) && SameField(b, c, f); }
    }
  }

  /** Marking a condition of its own. */
  lemma MarkCalmly(c: Context, ph: Phase, s: State, t: ConditionType, isTrue: bool, reason: Reason)
    requires Touches(ph, ConditionField(t))
    ensures Calmly(ph, s.memory, Mark(c, s, t, isTrue, reason).memory)
  {
    hide Touches;
  }

  lemma RemoveCalmly(ph: Phase, a: Status, t: ConditionType)
    requires Touches(ph, ConditionField(t))
    ensures Calmly(ph, a, RemoveCondition(a, t))
  {
    hide Touches;
  }

  lemma ServiceCalmly(ph: Phase, s: State, comp: Component, status: ServiceStatus)
    requires Touches(ph, ServiceField(comp))
    ensures Calmly(ph, s.memory, WithService(s, comp, status).memory)
  {
    hide Touches;
  }

  /** Phases that, going on, leave the status in memory alone. */
  predicate Silent(ph: Phase) {
    || ph.Protect? || ph.ImplementationSecret? || ph.PsRoleSecrets? || ph.PsTokenSecret? || ph.ValidateBootstrap?
    || ph.InitSqlMap? || ph.JwksMap? || ph.BackupCredentials? || ph.BackupStore? || ph.BackupSchedule?
    || ph.CleanSchedule? || ph.CleanBackupStore? || ph.RecoveryCredentials? || ph.RecoveryStore?
        || ph.CleanRecoveryStore?
    || ph.EnsureCluster? || ph.CoreGate? || ph.RulesGate? || ph.RolesGate? || ph.PublicationGate? || ph.CdcMap?
    || ph.PsConfigMap? || ph.PsRulesMap? || ph.PsApiDeployment? || ph.PsApiService? || ph.PsReplicatorDeployment?
    || ph.PsCompact? || ph.CleanPowerSync?
  }

  lemma EnsureStoreSilent(c: Context, ph: Phase, s: State, d: Durable, desired: StoreSpec)
    ensures EnsureStore(c, ph, s, d, desired).state.memory == s.memory
        && EnsureStore(c, ph, s, d, desired).state.saved == s.saved
  { hide Repaired, MergedStore; }

  lemma EnsureScheduleSilent(c: Context, ph: Phase, s: State, desired: ScheduleSpec)
    ensures EnsureSchedule(c, ph, s, desired).state.memory == s.memory
        && EnsureSchedule(c, ph, s, desired).state.saved == s.saved
  { hide Repaired; }

  lemma EnsureSecretSilent(c: Context, ph: Phase, s: State, role: SecretRole, data: Data)
    ensures EnsureSecret(c, ph, s, role, data).state.memory == s.memory
        && EnsureSecret(c, ph, s, role, data).state.saved == s.saved
  { hide WithController, OwnedMeta, Self; }

  lemma EnsureMapSilent(c: Context, ph: Phase, s: State, role: MapRole, data: Data)
    ensures EnsureMap(c, ph, s, role, data).state.memory == s.memory
        && EnsureMap(c, ph, s, role, data).state.saved == s.saved
  { hide WithController, MergedLabels, OwnedMeta, Ours, LabelsFor, Self; }

  lemma EnsureDeploymentSilent(c: Context, ph: Phase, s: State, comp: Component, template: PodTemplate)
    ensures EnsureDeployment(c, ph, s, comp, template).state.memory == s.memory
        && EnsureDeployment(c, ph, s, comp, template).state.saved == s.saved
  { hide WithController, DeploymentCurrent, UpdatedDeployment; }

  lemma EnsureServiceSilent(c: Context, ph: Phase, s: State, comp: Component)
    ensures EnsureService(c, ph, s, comp).state.memory == s.memory
        && EnsureService(c, ph, s, comp).state.saved == s.saved
  { hide WithController, OwnedMeta, SelectorFor, Self; }

  lemma EnsureCronSilent(c: Context, ph: Phase, s: State, desired: CronSpec)
    ensures EnsureCron(c, ph, s, desired).state.memory == s.memory
        && EnsureCron(c, ph, s, desired).state.saved == s.saved
  { hide WithController, MergedLabels, NormalCron; }

  lemma DeleteSilent(c: Context, ph: Phase, s: State, slot: Slot)
    ensures DeleteOwned(c, ph, s, slot).state.memory == s.memory && DeleteOwned(c, ph, s, slot).state.saved == s.saved
  { hide ControlledBy, WithoutSlot; }

  lemma ProtectSilent(c: Context, s: State, d: Durable)
    ensures ProtectOne(c, s, d).state.memory == s.memory && ProtectOne(c, s, d).state.saved == s.saved
  {
    hide MetaOf, WithMeta, WithoutProject, Ours;
  }

  lemma CheckS3Silent(c: Context, ph: Phase, s: State, secret: string, t: ConditionType)
    ensures CheckS3(c, ph, s, secret, t).outcome == Next
        ==> CheckS3(c, ph, s, secret, t).state.memory == s.memory && CheckS3(c, ph, s, secret, t).state.saved == s.saved
  {
    hide S3Valid, MarkAndSave;
  }

  lemma CleanDurableSilent(c: Context, ph: Phase, s: State, d: Durable, t: ConditionType, without: Objects)
    ensures CleanDurable(c, ph, s, d, t, without).state.memory == s.memory
        && CleanDurable(c, ph, s, d, t, without).state.saved == s.saved
  {
    hide MetaOf, Ours;
  }

  /** Gates that go on change nothing at all. */
  predicate Passing(ph: Phase) {
    ph.ValidateBootstrap? || ph.EnsureCluster? || ph.CoreGate? || ph.RulesGate? || ph.RolesGate? || ph.PublicationGate?
  }

  lemma PassingStep(c: Context, s: State, ph: Phase)
    ensures Passing(ph) && Step(c, s, ph).outcome == Next ==> Step(c, s, ph).state == s
  {
    hide IntentChanged, Built, Desired, MergeCluster, Repaired, Rules, UpdatedPublication, DesiredPublication, Save,
         SameLocation, Step, RolesBlocked, RolesReconciled, CoreReady, OwnedMeta, NewCluster, Ours;
    match ph {
      case ValidateBootstrap => StepBootstrap(c, s);
      case EnsureCluster => StepCluster(c, s);
      case CoreGate => StepCoreGate(c, s);
      case RulesGate => StepRules(c, s);
      case RolesGate => StepRoles(c, s);
      case PublicationGate => StepPublication(c, s);
      case _ =>
    }
  }

  lemma SilentStorage(c: Context, s: State, ph: Phase)
    requires Silent(ph) && (BackupPhase(ph) || RecoveryPhase(ph) || CleaningPhase(ph))
    ensures Step(c, s, ph).outcome == Next
        ==> Step(c, s, ph).state.memory == s.memory && Step(c, s, ph).state.saved == s.saved
  {
    hide Step, EnsureStore, EnsureSchedule, CheckS3, CleanDurable, MarkAndSave, BackupSpecOf, RecoverySpecOf,
         ScheduleOf, BackupDeclared, RecoveryDeclared;
    match ph {
      case BackupStore => StepStores(c, s); EnsureStoreSilent(c, ph, s, DurableBackup, BackupSpecOf(BackupDeclared(c)));
      case BackupSchedule => StepSchedule(c, s); EnsureScheduleSilent(c, ph, s, ScheduleOf(c, BackupDeclared(c)));
      case RecoveryStore =>
        StepStores(c, s);
        EnsureStoreSilent(c, ph, s, DurableRecovery, RecoverySpecOf(RecoveryDeclared(c)));
      case BackupCredentials =>
        StepStorageCredentials(c, s);
        CheckS3Silent(c, ph, s, BackupDeclared(c).s3.credentials, BackupReady);
      case RecoveryCredentials =>
        StepStorageCredentials(c, s);
        CheckS3Silent(c, ph, s, RecoveryDeclared(c).s3.credentials, RecoveryReady);
      case CleanSchedule =>
        StepCleaning(c, s);
        CleanDurableSilent(c, ph, s, DurableSchedule, BackupReady, s.o.(schedule := None));
      case CleanBackupStore =>
        StepCleaning(c, s);
        CleanDurableSilent(c, ph, s, DurableBackup, BackupReady, s.o.(backup := None));
      case CleanRecoveryStore =>
        StepCleaning(c, s);
        CleanDurableSilent(c, ph, s, DurableRecovery, RecoveryReady, s.o.(recovery := None));
    }
  }

  /** Going on, such a phase leaves both statuses alone. */
  lemma SilentStep(c: Context, s: State, ph: Phase)
    ensures Silent(ph) && Step(c, s, ph).outcome == Next
        ==> Step(c, s, ph).state.memory == s.memory && Step(c, s, ph).state.saved == s.saved
  {
    hide Step, EnsureSecret, ProtectOne, EnsureMap, EnsureDeployment, EnsureService, EnsureCron, DeleteOwned,
         MarkAndSave, JwksData, ScriptData, RulesData, PowerSyncTemplate;
    match ph {
      case Protect(d) => StepProtect(c, s, d); ProtectSilent(c, s, d);
      case ImplementationSecret(role) =>
        StepSecret(c, s, role);
        EnsureSecretSilent(c, ph, s, role, c.k.generate(role, c.seed));
      case PsRoleSecrets =>
        StepRoleSecrets(c, s);
        var first := EnsureSecret(c, ph, s, PsStorage, c.k.generate(PsStorage, c.seed));
        EnsureSecretSilent(c, ph, s, PsStorage, c.k.generate(PsStorage, c.seed));
        EnsureSecretSilent(c, ph, first.state, PsReplication, c.k.generate(PsReplication, c.seed));
      case PsTokenSecret => StepToken(c, s); EnsureSecretSilent(c, ph, s, PsToken, c.k.generate(PsToken, c.seed));
      case InitSqlMap => StepInitSql(c, s); EnsureMapSilent(c, ph, s, InitSql, c.k.mapData(c.name, c.spec, InitSql));
      case JwksMap => StepJwks(c, s); EnsureMapSilent(c, ph, s, Jwks, JwksData(c));
      case CdcMap => StepCdcMap(c, s); EnsureMapSilent(c, ph, s, CdcScript, ScriptData(c));
      case PsConfigMap =>
        StepPsConfig(c, s);
        EnsureMapSilent(c, ph, s, PsConfig, c.k.mapData(c.name, c.spec, PsConfig));
      case PsRulesMap => StepPsRules(c, s); EnsureMapSilent(c, ph, s, PsRules, RulesData(c));
      case PsApiDeployment =>
        StepPsDeployments(c, s);
        EnsureDeploymentSilent(c, ph, s, PsApi, PowerSyncTemplate(c, s, PsApi));
      case PsReplicatorDeployment =>
        StepPsDeployments(c, s);
        EnsureDeploymentSilent(c, ph, s, PsReplicator, PowerSyncTemplate(c, s, PsReplicator));
      case PsApiService => StepPsService(c, s); EnsureServiceSilent(c, ph, s, PsApi);
      case PsCompact =>
        StepCompact(c, s);
        EnsureCronSilent(c, ph, s, c.k.cron(c.name, c.spec, s.memory.names));
        DeleteSilent(c, ph, s, CronAt);
      case CleanPowerSync(slot) => StepRemoval(c, s, slot); DeleteSilent(c, ph, s, slot);
      case _ =>
        if Passing(ph) {
          PassingStep(c, s, ph);
        } else if Silent(ph) {
          SilentStorage(c, s, ph);
        }
    }
  }

  lemma ReportCalm(c: Context, s: State, comp: Component)
    ensures ReportComponent(c, s, comp).outcome == Next
        ==> Calmly(Serve(comp), s.memory, ReportComponent(c, s, comp).state.memory)
  {
    hide Observed, SetCondition, Calmly, ConditionOf, MarkAndSave, NamesFor;
    var status := Observed(s.o, comp);
    var t := WithService(s, comp, status);
    var u := Mark(c, t, ConditionOf(comp), status.ready, if status.ready then IsReady else DeploymentPending);
    ServiceCalmly(Serve(comp), s, comp, status);
    MarkCalmly(c, Serve(comp), t, ConditionOf(comp), status.ready, if status.ready then IsReady else DeploymentPending);
    CalmlyThen(Serve(comp), s.memory, t.memory, u.memory);
    if comp == Gateway && ReportComponent(c, s, comp).outcome == Next {
      SetCalmly(c, u.memory, NoSecret);
      CalmlyThen(Serve(comp), s.memory, u.memory, ReportComponent(c, s, comp).state.memory);
    }
  }

  lemma HookCalm(c: Context, s: State)
    ensures MakeHook(c, s).outcome == Next ==> Calmly(EmailHookSecret, s.memory, MakeHook(c, s).state.memory)
  {
    hide SetCondition, Calmly, NamesFor, EnsureSecret, FailSecrets;
    FailsSecrets(c, s);
    SetCalmly(c, s.memory, NoSecret);
    if c.spec.emailHook && HookSecret(c, s).outcome == Next {
      EnsureSecretSilent(c, EmailHookSecret, s, EmailHook, c.k.generate(EmailHook, c.seed));
      var hook := HookSecret(c, s).state;
      var named := WithHookName(hook, HookName(c));
      SetCalmly(c, hook.memory, HookName(c));
      MarkCalmly(c, EmailHookSecret, named, SecretsReady, true, AllSecretsReady);
      CalmlyThen(EmailHookSecret, s.memory, named.memory, Mark(c, named, SecretsReady, true, AllSecretsReady).memory);
    }
  }

  lemma DatabaseCalm(c: Context, s: State)
    ensures AwaitDatabase(c, s).outcome == Next ==> Calmly(WaitForDatabase, s.memory, AwaitDatabase(c, s).state.memory)
  {
    hide DatabaseOf;
  }

  lemma JobCalm(c: Context, s: State)
    ensures AwaitJob(c, s).outcome == Next ==> Calmly(CdcJob, s.memory, AwaitJob(c, s).state.memory)
  {
    hide SetCondition, CheckJob, Frames.Effect, Calmly, MarkAndSave;
    CheckJobEffect(c, s);
    MarkCalmly(c, CdcJob, CheckJob(c, s).state, CDCReady, true, CDCPermissionsApplied);
  }

  /** The start and the end of the Secrets, and the end of the pass. */
  lemma EndsCalm(c: Context, s: State)
    ensures CheckBundle(c, s).outcome == Next ==> Calmly(CheckCredentials, s.memory, CheckBundle(c, s).state.memory)
    ensures Calmly(SecretsDone, s.memory, FinishSecrets(c, s).state.memory)
    ensures Calmly(Finish, s.memory, Finished(c, s).state.memory)
  {
    hide SetCondition, Calmly, NamesFor, Bundle, FailSecrets;
    FailsSecrets(c, s);
    SetCalmly(c, s.memory, NoSecret);
    var done := s.(memory := s.memory.(names := NamesFor(c, s.memory.names.emailHook)));
    MarkCalmly(c, SecretsDone, done, SecretsReady, true, CredentialsValidated);
    CalmlyThen(SecretsDone, s.memory, done.memory, Mark(c, done, SecretsReady, true, CredentialsValidated).memory);
    var end := s.(memory := s.memory.(phase := Running, observed := c.generation));
    MarkCalmly(c, Finish, end, Ready, true, AllComponentsReady);
    CalmlyThen(Finish, s.memory, end.memory, Mark(c, end, Ready, true, AllComponentsReady).memory);
  }

  lemma ServedCalm(c: Context, s: State, comp: Component)
    ensures ServeComponent(c, s, comp).outcome == Next
        ==> Calmly(Serve(comp), s.memory, ServeComponent(c, s, comp).state.memory)
  {
    hide EnsureDeployment, EnsureService, EnsureMap, ReportComponent, CoreTemplate, EnvValid, Calmly, MarkAndSave;
    EnsureMapSilent(c, Serve(Gateway), s, EnvoyConfig, c.k.mapData(c.name, c.spec, EnvoyConfig));
    if PrepareComponent(c, s, comp).outcome == Next && CoreTemplate(c, PrepareComponent(c, s, comp).state, comp).Some? {
      var p := PrepareComponent(c, s, comp).state;
      var template := CoreTemplate(c, p, comp).value;
      EnsureDeploymentSilent(c, Serve(comp), p, comp, template);
      var d := EnsureDeployment(c, Serve(comp), p, comp, template).state;
      EnsureServiceSilent(c, Serve(comp), d, comp);
      ReportCalm(c, EnsureService(c, Serve(comp), d, comp).state, comp);
    }
  }

  lemma PowerSyncCalm(c: Context, s: State)
    ensures AwaitPowerSync(c, s).outcome == Next ==> Calmly(PsReady, s.memory, AwaitPowerSync(c, s).state.memory)
  {
    hide Observed, Save, SetCondition, Calmly, WithService;
    var t := WithService(s, PsApi, Observed(s.o, PsApi));
    var u := WithService(t, PsReplicator, Observed(s.o, PsReplicator));
    ServiceCalmly(PsReady, s, PsApi, Observed(s.o, PsApi));
    ServiceCalmly(PsReady, t, PsReplicator, Observed(s.o, PsReplicator));
    CalmlyThen(PsReady, s.memory, t.memory, u.memory);
    MarkCalmly(c, PsReady, u, PowersyncReady, true, IsReady);
    CalmlyThen(PsReady, s.memory, u.memory, Mark(c, u, PowersyncReady, true, IsReady).memory);
  }

  lemma CleanedCalm(c: Context, s: State)
    ensures CleanStatus(c, s).outcome == Next ==> Calmly(CleanPowerSyncStatus, s.memory, CleanStatus(c, s).state.memory)
  {
    hide Calmly, WithService, PowerSyncStatusLeft, RemoveCondition, NamesFor;
    var ph := CleanPowerSyncStatus;
    SetCalmly(c, s.memory, NoSecret);
    var v := WithService(s, PsApi, NOT_READY);
    var w := WithService(v, PsReplicator, NOT_READY);
    ServiceCalmly(ph, s, PsApi, NOT_READY);
    ServiceCalmly(ph, v, PsReplicator, NOT_READY);
    CalmlyThen(ph, s.memory, v.memory, w.memory);
    var m := RemoveCondition(w.memory, CDCReady);
    RemoveCalmly(ph, w.memory, CDCReady);
    RemoveCalmly(ph, m, PowersyncReady);
    CalmlyThen(ph, s.memory, w.memory, m);
    CalmlyThen(ph, s.memory, m, RemoveCondition(m, PowersyncReady));
  }

  /** Going on, a phase touches the status only where it may. */
  lemma NextStatus(c: Context, s: State, ph: Phase)
    requires Step(c, s, ph).outcome == Next
    ensures Calmly(ph, s.memory, Step(c, s, ph).state.memory)
  {
    hide Step, Calmly, MakeHook, CheckBundle, FinishSecrets, AwaitJob, Finished, ServeComponent, AwaitPowerSync,
         CleanStatus, AwaitDatabase, NamesFor, SetCondition, RemoveCondition;
    SilentStep(c, s, ph);
    SetCalmly(c, s.memory, NoSecret);
    match ph {
      case CheckCredentials => StepCredentials(c, s); EndsCalm(c, s);
      case EmailHookSecret => StepHook(c, s); HookCalm(c, s);
      case SecretsDone => StepSecretsDone(c, s); EndsCalm(c, s);
      case BackupDone => StepConfigured(c, s); MarkCalmly(c, ph, s, BackupReady, true, BackupConfigured);
      case RecoveryDone => StepConfigured(c, s); MarkCalmly(c, ph, s, RecoveryReady, true, RecoveryConfigured);
      case CleanBackupDone => StepCleaned(c, s); RemoveCalmly(ph, s.memory, BackupReady);
      case CleanRecoveryDone => StepCleaned(c, s); RemoveCalmly(ph, s.memory, RecoveryReady);
      case WaitForDatabase => StepDatabase(c, s); DatabaseCalm(c, s);
      case Serve(comp) => StepServe(c, s, comp); ServedCalm(c, s, comp);
      case CdcJob => StepJob(c, s); JobCalm(c, s);
      case PsReady => StepPsReady(c, s); PowerSyncCalm(c, s);
      case CleanPowerSyncStatus => StepStatusRemoval(c, s); CleanedCalm(c, s);
      case Finish => StepFinish(c, s); EndsCalm(c, s);
      case _ =>
    }
  }

  /** Going on, a gate writes nothing, and any other phase only its own objects. */
  predicate NextWrites(ph: Phase, slot: Slot) { Writes(ph, slot) && !Passing(ph) }

  lemma NextObjects(c: Context, s: State, ph: Phase, slot: Slot)
    requires Step(c, s, ph).outcome == Next && !NextWrites(ph, slot)
    ensures SameSlot(s.o, Step(c, s, ph).state.o, slot)
  {
    hide Step;
    if Passing(ph) {
      PassingStep(c, s, ph);
    } else {
      StepKeeps(c, s, ph, slot);
    }
  }

  // ---- What a result depends on ---------------------------------------------

  predicate NeedsNames(ph: Phase) {
    || ph.ValidateBootstrap? || ph.EnsureCluster? || ph.Serve? || ph.PsApiDeployment? || ph.PsReplicatorDeployment?
        || ph.PsCompact?
  }

  predicate NeedsSlot(ph: Phase, slot: Slot) {
    match slot
    case SecretAt(x) =>
      || ph == ImplementationSecret(x) || (ph == PsRoleSecrets && (x == PsStorage || x == PsReplication))
      || (ph == PsTokenSecret && x == PsToken) || (x == EmailHook && (ph == EmailHookSecret || ph == Serve(Auth)))
    case MapAt(x) => Writes(ph, slot)
    case DeploymentAt(x) => Writes(ph, slot) || (ph == PsReady && IsPs(x))
    case ServiceAt(x) => Writes(ph, slot)
    case ClusterAt => ph == ValidateBootstrap || ph == EnsureCluster || ph == WaitForDatabase || ph == RolesGate
    case BackupAt => ph == BackupStore
    case RecoveryAt => ph == RecoveryStore
    case ScheduleAt => ph == BackupSchedule
    case _ => Writes(ph, slot)
  }

  predicate NeedsField(ph: Phase, f: Field) {
    match f
    case ConditionField(t) =>
      || (t == SecretsReady && ph == SecretsDone)
      || (t == BackupReady && (ph == BackupDone || ph == CleanBackupDone))
      || (t == RecoveryReady && (ph == RecoveryDone || ph == CleanRecoveryDone))
      || (t == DatabaseReady && ph == WaitForDatabase)
      || (ph.Serve? && t == ConditionOf(ph.core))
      || (t == CDCReady && (ph == CdcJob || ph == CleanPowerSyncStatus))
      || (t == PowersyncReady && (ph == PsReady || ph == CleanPowerSyncStatus))
      || (t == Ready && ph == Finish)
    case PhaseField => ph == Finish
    case DatabaseField => ph == WaitForDatabase
    case ServiceField(x) =>
      ph == Serve(x) || (ph == CoreGate && IsCore(x)) || (IsPs(x) && (ph == PsReady || ph == CleanPowerSyncStatus))
    case NamesField => ph == SecretsDone || NeedsNames(ph)
    case HookField => ph == EmailHookSecret || ph == SecretsDone || NeedsNames(ph)
    case ApiField => ph == Serve(Gateway)
    case DatabaseEndpointField => ph == WaitForDatabase
    case ObservedField => ph == Finish
  }

  ghost predicate Agree(ph: Phase, a: Objects, m: Status, b: Objects, n: Status) {
    && (forall slot :: NeedsSlot(ph, slot) ==> SameSlot(a, b, slot))
    && (forall f :: NeedsField(ph, f) ==> SameField(m, n, f))
  }

  lemma NamesAgree(m: Status, n: Status)
    requires SameField(m, n, NamesField) && SameField(m, n, HookField)
    ensures m.names == n.names
  {
  }

  lemma StoreKeptAgrees(c: Context, a: Objects, b: Objects, d: Durable, desired: StoreSpec)
    requires d == DurableBackup || d == DurableRecovery
    requires SameSlot(a, b, SlotOf(d)) && StoreKept(c, a, d, desired)
    ensures StoreKept(c, b, d, desired)
  {
    hide Repaired, MergedStore, Ours;
  }

  lemma ScheduleKeptAgrees(c: Context, a: Objects, b: Objects, desired: ScheduleSpec)
    requires SameSlot(a, b, ScheduleAt) && ScheduleKept(c, a, desired)
    ensures ScheduleKept(c, b, desired)
  {
    hide Repaired, Ours;
  }

  lemma MapKeptAgrees(c: Context, a: Objects, b: Objects, role: MapRole, data: Data)
    requires SameSlot(a, b, MapAt(role)) && MapKept(c, a, role, data)
    ensures MapKept(c, b, role, data)
  {
    hide WithController, MergedLabels, Ours, LabelsFor, Self;
  }

  /** The parts of Agree a core service reads. */
  lemma ServeNeeds(comp: Component, a: Objects, m: Status, b: Objects, n: Status)
    requires Agree(Serve(comp), a, m, b, n)
    ensures SameSlot(a, b, DeploymentAt(comp)) && SameSlot(a, b, ServiceAt(comp)) && m.names == n.names
    ensures SameField(m, n, ServiceField(comp)) && SameField(m, n, ConditionField(ConditionOf(comp)))
    ensures comp == Auth ==> SameSlot(a, b, SecretAt(EmailHook))
    ensures comp == Gateway ==> SameSlot(a, b, MapAt(EnvoyConfig)) && SameField(m, n, ApiField)
  {
    hide SameSlot;
    assert SameField(m, n, NamesField) && SameField(m, n, HookField);
    NamesAgree(m, n);
  }

  lemma ServeAgree(c: Context, comp: Component, a: Objects, m: Status, b: Objects, n: Status)
    requires Agree(Serve(comp), a, m, b, n) && Served(c, a, m, comp)
    ensures Served(c, b, n, comp)
  {
    hide Agree, TemplateFor, WithController, MergedLabels, DeploymentCurrent, EnvReadable, ConditionOf, SelectorFor,
         RolledOut;
    ServeNeeds(comp, a, m, b, n);
    TemplateAgrees(c, comp, a, m, b, n);
  }

  lemma TemplateAgrees(c: Context, comp: Component, a: Objects, m: Status, b: Objects, n: Status)
    requires m.names == n.names && (comp == Auth ==> SameSlot(a, b, SecretAt(EmailHook)))
    ensures TemplateFor(c, a, m, comp) == TemplateFor(c, b, n, comp)
  {
  }

  lemma ServiceKeptAgrees(c: Context, a: Objects, b: Objects, comp: Component)
    requires SameSlot(a, b, ServiceAt(comp)) && ServiceKept(c, a, comp)
    ensures ServiceKept(c, b, comp)
  {
    hide WithController, SelectorFor, Self;
  }

  lemma DeploymentKeptAgrees(c: Context, a: Objects, b: Objects, comp: Component, template: PodTemplate)
    requires SameSlot(a, b, DeploymentAt(comp)) && DeploymentKept(c, a, comp, template)
    ensures DeploymentKept(c, b, comp, template)
  {
    hide DeploymentCurrent;
  }

  lemma CompactKeptAgrees(c: Context, a: Objects, b: Objects, names: Names)
    requires SameSlot(a, b, CronAt) && CompactKept(c, a, names)
    ensures CompactKept(c, b, names)
  {
    hide WithController, MergedLabels, NormalCron, ControlledBy, Self, LabelsFor;
  }

  lemma PsTemplateAgrees(c: Context, a: Objects, m: Status, b: Objects, n: Status, comp: Component)
    requires m.names == n.names
    ensures PsTemplateFor(c, a, m, comp) == PsTemplateFor(c, b, n, comp)
  {
    hide Rules;
  }

  lemma ServicesAgree(m: Status, n: Status)
    requires forall f :: NeedsField(CoreGate, f) ==> SameField(m, n, f)
    ensures CoreReady(m) ==> CoreReady(n)
  {
    assert SameField(m, n, ServiceField(Auth)) && SameField(m, n, ServiceField(Rest))
        && SameField(m, n, ServiceField(Studio));
    assert SameField(m, n, ServiceField(MetaApi)) && SameField(m, n, ServiceField(Gateway));
  }

  lemma SecretsAgree(c: Context, ph: Phase, a: Objects, m: Status, b: Objects, n: Status)
    requires Agree(ph, a, m, b, n) && SecretsStable(c, a, m, ph)
    ensures SecretsStable(c, b, n, ph)
  {
    hide WithController, Bundle, Self, HookName, NamesFor;
    match ph {
      case ImplementationSecret(role) => assert SameSlot(a, b, SecretAt(role));
      case PsRoleSecrets => assert SameSlot(a, b, SecretAt(PsStorage)) && SameSlot(a, b, SecretAt(PsReplication));
      case PsTokenSecret => assert SameSlot(a, b, SecretAt(PsToken));
      case EmailHookSecret => assert SameSlot(a, b, SecretAt(EmailHook)) && SameField(m, n, HookField);
      case SecretsDone =>
        assert SameField(m, n, NamesField) && SameField(m, n, HookField)
            && SameField(m, n, ConditionField(SecretsReady));
        NamesAgree(m, n);
      case _ =>
    }
  }

  lemma StorageAgree(c: Context, ph: Phase, a: Objects, m: Status, b: Objects, n: Status)
    requires Agree(ph, a, m, b, n) && StorageStable(c, a, m, ph)
    ensures StorageStable(c, b, n, ph)
  {
    hide StoreKept, ScheduleKept, BackupSpecOf, RecoverySpecOf, ScheduleOf, S3Present, BackupDeclared,
         RecoveryDeclared, SameSlot;
    match ph {
      case BackupStore => StoreKeptAgrees(c, a, b, DurableBackup, BackupSpecOf(BackupDeclared(c)));
      case RecoveryStore => StoreKeptAgrees(c, a, b, DurableRecovery, RecoverySpecOf(RecoveryDeclared(c)));
      case BackupSchedule => ScheduleKeptAgrees(c, a, b, ScheduleOf(c, BackupDeclared(c)));
      case BackupDone => assert SameField(m, n, ConditionField(BackupReady));
      case CleanBackupDone => assert SameField(m, n, ConditionField(BackupReady));
      case RecoveryDone => assert SameField(m, n, ConditionField(RecoveryReady));
      case CleanRecoveryDone => assert SameField(m, n, ConditionField(RecoveryReady));
      case _ =>
    }
  }

  lemma ClusterAgrees(c: Context, a: Objects, b: Objects, names: Names)
    ensures SameSlot(a, b, ClusterAt) && IntentKept(c, a, names) ==> IntentKept(c, b, names)
    ensures SameSlot(a, b, ClusterAt) && ClusterKept(c, a, names) ==> ClusterKept(c, b, names)
  {
    hide IntentChanged, Built, Desired, MergeCluster, Repaired, Ours;
  }

  lemma CoreAgree(c: Context, ph: Phase, a: Objects, m: Status, b: Objects, n: Status)
    requires Agree(ph, a, m, b, n) && CoreStable(c, a, m, ph)
    ensures CoreStable(c, b, n, ph)
  {
    hide IntentKept, ClusterKept, DatabaseOf, MapKept, JwksData, Served, CoreReady;
    if ph.ValidateBootstrap? || ph.EnsureCluster? {
      assert SameSlot(a, b, ClusterAt) && SameField(m, n, NamesField) && SameField(m, n, HookField);
      NamesAgree(m, n);
      ClusterAgrees(c, a, b, m.names);
    }
    match ph {
      case InitSqlMap => MapKeptAgrees(c, a, b, InitSql, c.k.mapData(c.name, c.spec, InitSql));
      case JwksMap => MapKeptAgrees(c, a, b, Jwks, JwksData(c));
      case WaitForDatabase =>
        assert SameSlot(a, b, ClusterAt) && SameField(m, n, ConditionField(DatabaseReady));
        assert SameField(m, n, DatabaseField) && SameField(m, n, DatabaseEndpointField);
      case Serve(comp) => ServeAgree(c, comp, a, m, b, n);
      case CoreGate => ServicesAgree(m, n);
      case Finish =>
        assert SameField(m, n, PhaseField) && SameField(m, n, ObservedField) && SameField(m, n, ConditionField(Ready));
      case _ =>
    }
  }

  lemma GatesAgree(c: Context, ph: Phase, a: Objects, m: Status, b: Objects, n: Status)
    requires Agree(ph, a, m, b, n) && GatesStable(c, a, m, ph)
    ensures GatesStable(c, b, n, ph)
  {
    hide Rules, RolesReconciled, RolesBlocked, DesiredPublication, UpdatedPublication, WithController, OwnedJob,
         ScriptHash, Verdict, Ours, HashOf, PublicationApplied, Self, MapKept, ScriptData;
    match ph {
      case RolesGate => assert SameSlot(a, b, ClusterAt);
      case PublicationGate => assert SameSlot(a, b, PublicationAt);
      case CdcMap => MapKeptAgrees(c, a, b, CdcScript, ScriptData(c));
      case CdcJob => assert SameSlot(a, b, JobAt) && SameField(m, n, ConditionField(CDCReady));
      case _ =>
    }
  }

  lemma EndAgrees(c: Context, a: Objects, m: Status, b: Objects, n: Status)
    requires SameField(m, n, ServiceField(PsApi)) && SameField(m, n, ServiceField(PsReplicator))
        && SameField(m, n, ConditionField(PowersyncReady))
    ensures SameSlot(a, b, DeploymentAt(PsApi)) && SameSlot(a, b, DeploymentAt(PsReplicator)) && WorkloadsKept(c, a, m)
        ==> WorkloadsKept(c, b, n)
    ensures SameField(m, n, ConditionField(CDCReady)) && !PowerSyncStatusLeft(m) ==> !PowerSyncStatusLeft(n)
  {
    hide RolledOut;
  }

  /** The phases of PowerSync that read the names of the Secrets. */
  lemma TemplatesAgree(c: Context, ph: Phase, a: Objects, m: Status, b: Objects, n: Status)
    requires ph.PsApiDeployment? || ph.PsReplicatorDeployment? || ph.PsCompact?
    requires Agree(ph, a, m, b, n) && WorkloadsStable(c, a, m, ph)
    ensures WorkloadsStable(c, b, n, ph)
  {
    hide DeploymentKept, PsTemplateFor, CompactKept, MapKept, ServiceKept, WorkloadsKept, Gone, PowerSyncStatusLeft,
         SameSlot;
    assert SameField(m, n, NamesField) && SameField(m, n, HookField);
    NamesAgree(m, n);
    match ph {
      case PsApiDeployment =>
        PsTemplateAgrees(c, a, m, b, n, PsApi);
        DeploymentKeptAgrees(c, a, b, PsApi, PsTemplateFor(c, a, m, PsApi));
      case PsReplicatorDeployment =>
        PsTemplateAgrees(c, a, m, b, n, PsReplicator);
        DeploymentKeptAgrees(c, a, b, PsReplicator, PsTemplateFor(c, a, m, PsReplicator));
      case PsCompact => CompactKeptAgrees(c, a, b, m.names);
    }
  }

  lemma WorkloadsAgree(c: Context, ph: Phase, a: Objects, m: Status, b: Objects, n: Status)
    requires Agree(ph, a, m, b, n) && WorkloadsStable(c, a, m, ph)
    ensures WorkloadsStable(c, b, n, ph)
  {
    hide DeploymentKept, ServiceKept, PsTemplateFor, CompactKept, MapKept, RulesData, WithRulesMap, Gone,
         WorkloadsKept, PowerSyncStatusLeft, SameSlot;
    match ph {
      case PsConfigMap => MapKeptAgrees(c, a, b, PsConfig, c.k.mapData(c.name, c.spec, PsConfig));
      case PsRulesMap => if WithRulesMap(c) { MapKeptAgrees(c, a, b, PsRules, RulesData(c)); }
      case PsApiService => ServiceKeptAgrees(c, a, b, PsApi);
      case PsReady =>
        assert SameSlot(a, b, DeploymentAt(PsApi)) && SameSlot(a, b, DeploymentAt(PsReplicator));
        assert SameField(m, n, ServiceField(PsApi)) && SameField(m, n, ServiceField(PsReplicator))
            && SameField(m, n, ConditionField(PowersyncReady));
        EndAgrees(c, a, m, b, n);
      case CleanPowerSync(slot) =>
        assert PowerSyncMeta(a, slot).Some? || PowerSyncMeta(b, slot).Some?
            ==> NeedsSlot(ph, slot) && SameSlot(a, b, slot);
        GoneAgrees(c, slot, a, b);
      case CleanPowerSyncStatus =>
        assert SameField(m, n, ServiceField(PsApi)) && SameField(m, n, ServiceField(PsReplicator));
        assert SameField(m, n, ConditionField(PowersyncReady)) && SameField(m, n, ConditionField(CDCReady));
        EndAgrees(c, a, m, b, n);
      case _ =>
        if ph.PsApiDeployment? || ph.PsReplicatorDeployment? || ph.PsCompact? {
          TemplatesAgree(c, ph, a, m, b, n);
        }
    }
  }

  lemma GoneAgrees(c: Context, slot: Slot, a: Objects, b: Objects)
    ensures (PowerSyncMeta(a, slot).Some? || PowerSyncMeta(b, slot).Some? ==> SameSlot(a, b, slot)) && Gone(c, a, slot)
        ==> Gone(c, b, slot)
  {
    hide ControlledBy;
  }

  /** Equal where it matters means stable alike. */
  lemma StableAgree(c: Context, ph: Phase, a: Objects, m: Status, b: Objects, n: Status)
    requires Agree(ph, a, m, b, n) && Stable(c, a, m, ph)
    ensures Stable(c, b, n, ph)
  {
    hide Agree, SecretsStable, StorageStable, CoreStable, GatesStable, WorkloadsStable;
    if SecretsStable(c, a, m, ph) { SecretsAgree(c, ph, a, m, b, n); }
    if StorageStable(c, a, m, ph) { StorageAgree(c, ph, a, m, b, n); }
    if CoreStable(c, a, m, ph) { CoreAgree(c, ph, a, m, b, n); }
    if GatesStable(c, a, m, ph) { GatesAgree(c, ph, a, m, b, n); }
    if WorkloadsStable(c, a, m, ph) { WorkloadsAgree(c, ph, a, m, b, n); }
  }
}
