/** A complete pass leaves nothing to do: the next one, with nothing changed but the
    clock and the random draw, writes the status back and forth and no object. */
module Idempotence {
  import opened Kube
  import opened Pods
  import opened Clusters
  import opened World
  import opened Operator
  import opened Steps
  import opened Frames
  import opened Durables
  import opened Gates
  import opened Settled
  import opened Keeping
  import opened Ordering
  import opened Settling

  /** Every API call succeeds. */
  ghost predicate Healthy(c: Context) {
    (forall ph, site :: c.up(ph, site)) && (forall ph, site :: c.statusUp(ph, site))
  }

  /** Every planned phase has left what it leaves, and no durable object is owned by the project. */
  ghost predicate SettledWorld(c: Context, o: Objects, m: Status) {
    AllUnowned(c.name, o) && forall ph :: Planned(c, ph) ==> Stable(c, o, m, ph)
  }

  // ---- Settled phases rest --------------------------------------------------

  ghost predicate Rests(c: Context, s: State, ph: Phase) { Step(c, s, ph) == Result(s, Next) }

  lemma MarkRests(c: Context, s: State, t: ConditionType, reason: Reason)
    requires Marked(c, s.memory, t, reason)
    ensures Mark(c, s, t, true, reason) == s
  {
    assert s.memory.conditions[t := s.memory.conditions[t]] == s.memory.conditions;
  }

  lemma SecretRests(c: Context, ph: Phase, s: State, role: SecretRole, data: Data)
    requires Healthy(c) && SecretKept(c, s.o, role)
    ensures EnsureSecret(c, ph, s, role, data) == Result(s, Next)
  {
    hide WithController;
  }

  lemma MapRests(c: Context, ph: Phase, s: State, role: MapRole, data: Data)
    requires Healthy(c) && MapKept(c, s.o, role, data)
    ensures EnsureMap(c, ph, s, role, data) == Result(s, Next)
  {
    hide WithController, MergedLabels, Ours;
  }

  lemma DeploymentRests(c: Context, ph: Phase, s: State, comp: Component, template: PodTemplate)
    requires Healthy(c) && DeploymentKept(c, s.o, comp, template)
    ensures EnsureDeployment(c, ph, s, comp, template) == Result(s, Next)
  {
    hide WithController, Normal;
  }

  lemma ServiceRests(c: Context, ph: Phase, s: State, comp: Component)
    requires Healthy(c) && ServiceKept(c, s.o, comp)
    ensures EnsureService(c, ph, s, comp) == Result(s, Next)
  {
    hide WithController, SelectorFor;
  }

  lemma CronRests(c: Context, ph: Phase, s: State, desired: CronSpec)
    requires Healthy(c) && CronKept(c, s.o, desired)
    ensures EnsureCron(c, ph, s, desired) == Result(s, Next)
  {
    hide WithController, MergedLabels, NormalCron;
  }

  lemma DeleteRests(c: Context, ph: Phase, s: State, slot: Slot)
    requires Healthy(c) && Gone(c, s.o, slot)
    ensures DeleteOwned(c, ph, s, slot) == Result(s, Next)
  {
    hide ControlledBy;
  }

  lemma StoreRests(c: Context, ph: Phase, s: State, d: Durable, desired: StoreSpec)
    requires Healthy(c) && c.name != "" && StoreKept(c, s.o, d, desired)
    ensures EnsureStore(c, ph, s, d, desired) == Result(s, Next)
  {
    hide Repaired, Ours;
  }

  lemma CheckS3Rests(c: Context, ph: Phase, s: State, secret: string, t: ConditionType)
    requires Healthy(c) && S3Present(c, secret)
    ensures CheckS3(c, ph, s, secret, t) == Result(s, Next)
  {
    hide FailWith;
  }

  lemma ScheduleRests(c: Context, ph: Phase, s: State, desired: ScheduleSpec)
    requires Healthy(c) && c.name != "" && ScheduleKept(c, s.o, desired)
    ensures EnsureSchedule(c, ph, s, desired) == Result(s, Next)
  {
    hide Repaired, Ours;
  }

  lemma SavedRests(c: Context, ph: Phase, s: State, t: ConditionType, reason: Reason)
    requires Healthy(c) && s.saved == s.memory && Marked(c, s.memory, t, reason)
    ensures MarkAndSave(c, ph, 0, s, t, true, reason) == Result(s, Next)
  {
    hide Mark, Marked;
    MarkRests(c, s, t, reason);
  }

  lemma RulesRest(c: Context, s: State)
    requires Healthy(c) && Rules(c).Some?
    ensures CheckRules(c, s) == Result(s, Next)
  {
  }

  lemma ServiceSame(s: State, comp: Component)
    requires Observes(s.memory, s.o, comp)
    ensures WithService(s, comp, Observed(s.o, comp)) == s
  {
    hide Observed;
    assert s.memory.services[comp := Observed(s.o, comp)] == s.memory.services;
  }

  /** The status of a component is as observed, and ready. */
  predicate Observes(m: Status, o: Objects, comp: Component) {
    comp in m.services && m.services[comp] == Observed(o, comp) && Observed(o, comp).ready
  }

  // ---- Core services --------------------------------------------------------

  lemma EnvRests(c: Context)
    requires Healthy(c) && EnvReadable(c)
    ensures EnvValid(c)
  {
    forall i | 0 <= i < |c.spec.env| ensures EntryValid(c, c.spec.env[i], i) {
      assert EntryReadable(c, c.spec.env[i]);
    }
  }

  /** The status part, when the report says nothing new but the API endpoint. */
  function Reported(s: State, comp: Component): State {
    if comp == Gateway then s.(memory := s.memory.(endpoints := s.memory.endpoints.(api := true))) else s
  }

  lemma ReportRests(c: Context, s: State, comp: Component)
    requires Healthy(c) && Observes(s.memory, s.o, comp) && Marked(c, s.memory, ConditionOf(comp), IsReady)
    ensures ReportComponent(c, s, comp) == Result(Reported(s, comp), Next)
  {
    hide Observed, Mark, Marked, WithService, FailComponent, ConditionOf;
    ServiceSame(s, comp);
    MarkRests(c, s, ConditionOf(comp), IsReady);
  }

  /** Served but for the API endpoint. */
  predicate ServedObjects(c: Context, o: Objects, m: Status, comp: Component) {
    && TemplateFor(c, o, m, comp).Some? && DeploymentKept(c, o, comp, TemplateFor(c, o, m, comp).value)
    && ServiceKept(c, o, comp)
    && (comp == Gateway ==> MapKept(c, o, EnvoyConfig, c.k.mapData(c.name, c.spec, EnvoyConfig)))
    && (comp == Auth ==> EnvReadable(c))
  }

  lemma PrepareRests(c: Context, s: State, comp: Component)
    requires Healthy(c)
    requires comp == Gateway ==> MapKept(c, s.o, EnvoyConfig, c.k.mapData(c.name, c.spec, EnvoyConfig))
    requires comp == Auth ==> EnvReadable(c)
    ensures PrepareComponent(c, s, comp) == Result(s, Next)
  {
    hide EnsureMap, EnvReadable, EnvValid, MapKept, FailComponent;
    if comp == Auth { EnvRests(c); }
    if comp == Gateway { MapRests(c, Serve(Gateway), s, EnvoyConfig, c.k.mapData(c.name, c.spec, EnvoyConfig)); }
  }

  /** A core service as it should be: only its report is left. */
  lemma ServeReports(c: Context, s: State, comp: Component)
    requires Healthy(c) && ServedObjects(c, s.o, s.memory, comp)
    ensures ServeComponent(c, s, comp) == ServeReport(c, s, comp)
  {
    hide PrepareComponent, EnsureDeployment, EnsureService, ReportComponent, DeploymentKept, ServiceKept, MapKept,
         EnvReadable, FailCore, TemplateFor, CoreTemplate, Healthy, FailComponent;
    PrepareRests(c, s, comp);
    TemplateReads(c, s, comp, s.o, s.memory);
    DeploymentRests(c, Serve(comp), s, comp, CoreTemplate(c, s, comp).value);
    ServiceRests(c, Serve(comp), s, comp);
  }

  /** The report, and the end of the phase. */
  function ServeReport(c: Context, s: State, comp: Component): Result {
    var r := ReportComponent(c, s, comp);
    if r.outcome != Next then FailCore(c, Serve(comp), r.state) else r
  }

  lemma ServeRests(c: Context, s: State, comp: Component)
    requires Healthy(c) && ServedObjects(c, s.o, s.memory, comp)
    requires Observes(s.memory, s.o, comp) && Marked(c, s.memory, ConditionOf(comp), IsReady)
    ensures ServeComponent(c, s, comp) == Result(Reported(s, comp), Next)
  {
    hide ReportComponent, Marked, ServedObjects, Healthy, Reported, ServeComponent, Observes, FailCore, ConditionOf;
    ServeReports(c, s, comp);
    ReportRests(c, s, comp);
  }

  // ---- The phases that rest -------------------------------------------------

  /** Phases that change nothing in a settled world. */
  predicate Restful(ph: Phase) {
    !ph.EmailHookSecret? && !ph.SecretsDone? && !ph.WaitForDatabase? && !ph.Serve? && !ph.Finish?
  }

  /** What every phase may count on in a settled world. */
  predicate Grounds(c: Context, o: Objects, m: Status) {
    && AllUnowned(c.name, o) && m.phase == ProjectPhase.Running
    && (RecoveryEnabled(c.spec.database) ==> Stable(c, o, m, RecoveryStore))
    && (!BackupEnabled(c.spec.database) ==> BackupReady !in m.conditions)
    && (!RecoveryEnabled(c.spec.database) ==> RecoveryReady !in m.conditions)
  }

  // Each group of phases rests when what it leaves is there.

  lemma SecretsRest(c: Context, s: State, ph: Phase)
    requires Healthy(c) && SecretsStable(c, s.o, s.memory, ph) && s.memory.phase == ProjectPhase.Running
    requires ph.CheckCredentials? || ph.ImplementationSecret? || ph.PsRoleSecrets? || ph.PsTokenSecret?
    ensures Rests(c, s, ph)
  {
    hide EnsureSecret, Step, FailSecrets, MakeRoleSecret, WithController;
    match ph {
      case CheckCredentials => StepCredentials(c, s);
      case ImplementationSecret(role) =>
        StepSecret(c, s, role);
        SecretRests(c, ph, s, role, c.k.generate(role, c.seed));
      case PsRoleSecrets => StepRoleSecrets(c, s);
      case PsTokenSecret => StepToken(c, s); SecretRests(c, ph, s, PsToken, c.k.generate(PsToken, c.seed));
    }
  }

  lemma StorageRests(c: Context, s: State, ph: Phase)
    requires Healthy(c) && c.name != "" && StorageStable(c, s.o, s.memory, ph)
        && (BackupPhase(ph) || RecoveryPhase(ph) || CleaningPhase(ph))
    requires ph == BackupDone || ph == RecoveryDone ==> s.saved == s.memory
    requires ph.CleanRecoveryStore? ==> RecoveryReady !in s.memory.conditions
    requires ph.CleanSchedule? || ph.CleanBackupStore? ==> BackupReady !in s.memory.conditions
    ensures Rests(c, s, ph)
  {
    hide Step, Healthy, EnsureStore, EnsureSchedule, StoreKept, ScheduleKept, S3Present, CheckS3, MarkAndSave, Marked,
         BackupSpecOf, RecoverySpecOf, ScheduleOf, FailWith, BackupDeclared, RecoveryDeclared, MetaOf, Ours, Save;
    match ph {
      case BackupCredentials =>
        StepStorageCredentials(c, s);
        CheckS3Rests(c, ph, s, BackupDeclared(c).s3.credentials, BackupReady);
      case BackupStore => StepStores(c, s); StoreRests(c, ph, s, DurableBackup, BackupSpecOf(BackupDeclared(c)));
      case BackupSchedule => StepSchedule(c, s); ScheduleRests(c, ph, s, ScheduleOf(c, BackupDeclared(c)));
      case BackupDone => StepConfigured(c, s); SavedRests(c, ph, s, BackupReady, BackupConfigured);
      case RecoveryCredentials =>
        StepStorageCredentials(c, s);
        CheckS3Rests(c, ph, s, RecoveryDeclared(c).s3.credentials, RecoveryReady);
      case RecoveryStore =>
        StepStores(c, s);
        StoreRests(c, ph, s, DurableRecovery, RecoverySpecOf(RecoveryDeclared(c)));
      case RecoveryDone => StepConfigured(c, s); SavedRests(c, ph, s, RecoveryReady, RecoveryConfigured);
      case CleanBackupDone => StepCleaned(c, s);
      case CleanRecoveryDone => StepCleaned(c, s);
      case _ => StepCleaning(c, s);
    }
  }

  lemma DatabaseRests(c: Context, s: State, ph: Phase)
    requires Healthy(c) && CoreStable(c, s.o, s.memory, ph)
    requires ph.ValidateBootstrap? || ph.InitSqlMap? || ph.JwksMap? || ph.EnsureCluster? || ph.CoreGate?
    requires ph.ValidateBootstrap? && RecoveryEnabled(c.spec.database)
        ==> StorageStable(c, s.o, s.memory, RecoveryStore)
    ensures Rests(c, s, ph)
  {
    hide Step, EnsureMap, MapKept, JwksData, FailWith, IntentChanged, Built, Desired, Repaired, StorageAccepted,
         ReportsChange, MergedSpec, CoreReady, Wait, MarkAndSave, NewCluster;
    match ph {
      case ValidateBootstrap => StepBootstrap(c, s);
      case InitSqlMap => StepInitSql(c, s); MapRests(c, ph, s, InitSql, c.k.mapData(c.name, c.spec, InitSql));
      case JwksMap => StepJwks(c, s); MapRests(c, ph, s, Jwks, JwksData(c));
      case EnsureCluster => StepCluster(c, s);
      case CoreGate => StepCoreGate(c, s);
    }
  }

  lemma GatesRest(c: Context, s: State, ph: Phase)
    requires Healthy(c) && GatesStable(c, s.o, s.memory, ph)
    requires ph.RulesGate? || ph.RolesGate? || ph.PublicationGate? || ph.CdcMap? || ph.CdcJob?
    ensures Rests(c, s, ph)
  {
    hide Step, EnsureMap, MapKept, ScriptData, FailWith, Wait, MarkAndSave, RolesReconciled, RolesBlocked,
         DesiredPublication, UpdatedPublication, WithController, OwnedJob, ScriptHash, Verdict, HashOf, Mark, Marked,
         Ours, Self;
    match ph {
      case RulesGate => StepRules(c, s); RulesRest(c, s);
      case RolesGate => StepRoles(c, s);
      case PublicationGate => StepPublication(c, s);
      case CdcMap => StepCdcMap(c, s); MapRests(c, ph, s, CdcScript, ScriptData(c));
      case CdcJob => StepJob(c, s); MarkRests(c, s, CDCReady, CDCPermissionsApplied);
    }
  }

  lemma WorkloadsRest(c: Context, s: State, ph: Phase)
    requires Healthy(c) && WorkloadsStable(c, s.o, s.memory, ph)
    requires ph.PsConfigMap? || ph.PsRulesMap? || ph.PsApiDeployment? || ph.PsApiService? || ph.PsReplicatorDeployment?
        || ph.PsCompact?
             || ph.PsReady? || ph.CleanPowerSync? || ph.CleanPowerSyncStatus?
    ensures Rests(c, s, ph)
  {
    hide Step, Healthy, EnsureMap, MapKept, RulesData, EnsureDeployment, DeploymentKept, EnsureService, ServiceKept,
         EnsureCron, CronKept, DeleteOwned, Gone, FailWith, MarkAndSave, PsTemplateFor, PowerSyncTemplate,
         WorkloadsKept, PowerSyncStatusLeft, AwaitPowerSync, Save;
    match ph {
      case PsConfigMap => StepPsConfig(c, s); MapRests(c, ph, s, PsConfig, c.k.mapData(c.name, c.spec, PsConfig));
      case PsRulesMap => StepPsRules(c, s); if WithRulesMap(c) { MapRests(c, ph, s, PsRules, RulesData(c)); }
      case PsApiDeployment =>
        StepPsDeployments(c, s);
        PsTemplateReads(c, s, s, PsApi);
        DeploymentRests(c, ph, s, PsApi, PowerSyncTemplate(c, s, PsApi));
      case PsApiService => StepPsService(c, s); ServiceRests(c, ph, s, PsApi);
      case PsReplicatorDeployment =>
        StepPsDeployments(c, s);
        PsTemplateReads(c, s, s, PsReplicator);
        DeploymentRests(c, ph, s, PsReplicator, PowerSyncTemplate(c, s, PsReplicator));
      case PsCompact =>
        StepCompact(c, s);
        if WithCompact(c) { CronRests(c, ph, s, c.k.cron(c.name, c.spec, s.memory.names)); }
            else { DeleteRests(c, ph, s, CronAt); }
      case PsReady => StepPsReady(c, s); ReadyRests(c, s);
      case CleanPowerSync(slot) => StepRemoval(c, s, slot); DeleteRests(c, ph, s, slot);
      case CleanPowerSyncStatus => StepStatusRemoval(c, s);
    }
  }

  lemma ReadyRests(c: Context, s: State)
    requires Healthy(c) && WorkloadsKept(c, s.o, s.memory)
    ensures AwaitPowerSync(c, s) == Result(s, Next)
  {
    hide Mark, Marked, WithService, Observed;
    ServiceSame(s, PsApi);
    ServiceSame(s, PsReplicator);
    MarkRests(c, s, PowersyncReady, IsReady);
  }

  lemma SettledRests(c: Context, s: State, ph: Phase)
    requires Healthy(c) && c.name != "" && Grounds(c, s.o, s.memory) && Stable(c, s.o, s.memory, ph) && Planned(c, ph)
        && Restful(ph)
    requires ph == BackupDone || ph == RecoveryDone ==> s.saved == s.memory
    ensures Rests(c, s, ph)
  {
    hide Healthy, Rests, SecretsStable, StorageStable, CoreStable, GatesStable, WorkloadsStable, BackupEnabled,
         RecoveryEnabled, Removable, IsProjectOwner, ProtectOne, Step;
    if ph.Protect? {
      ProtectRests(c, s, ph.durable);
    } else if SecretsPhase(ph) {
      SecretsRest(c, s, ph);
    } else if BackupPhase(ph) || RecoveryPhase(ph) || CleaningPhase(ph) {
      StorageRests(c, s, ph);
    } else if ph.ValidateBootstrap? || ph.InitSqlMap? || ph.JwksMap? || ph.EnsureCluster? || ph.CoreGate? {
      DatabaseRests(c, s, ph);
    } else if ph.RulesGate? || ph.RolesGate? || ph.PublicationGate? || ph.CdcMap? || ph.CdcJob? {
      GatesRest(c, s, ph);
    } else {
      WorkloadsRest(c, s, ph);
    }
  }

  lemma ProtectRests(c: Context, s: State, d: Durable)
    requires Healthy(c) && AllUnowned(c.name, s.o)
    ensures Rests(c, s, Protect(d))
  {
    hide IsProjectOwner, Step;
    StepProtect(c, s, d);
    if MetaOf(s.o, d).Some? && Ours(c, MetaOf(s.o, d).value) {
      assert Unowned(c.name, MetaOf(s.o, d));
      WithoutProjectClean(MetaOf(s.o, d).value.owners, c.name);
    }
  }

  // ---- The phases that only restate the status ------------------------------

  function Hooked(m: Status): Status {
    if SecretsReady in m.conditions
    then m.(conditions := m.conditions[SecretsReady := m.conditions[SecretsReady].(reason := AllSecretsReady)]) else m
  }

  /** The secret of the email hook, if there is to be one, is there and valid. */
  predicate HookReady(c: Context, o: Objects) {
    c.spec.emailHook ==> EmailHook in o.secrets && c.k.hookValid(o.secrets[EmailHook].data)
  }

  /** The stored status moves to what is held. */
  function Restated(s: State, m: Status): State { State(s.o, m, m, s.log + [StatusWrite]) }

  function Unserved(m: Status): Status { m.(endpoints := m.endpoints.(api := false)) }

  /** The hook restates the reason of the Secrets, and their end takes it back. */
  lemma HookRestates(c: Context, s: State)
    requires Healthy(c) && s.saved == s.memory && c.spec.emailHook && HookReady(c, s.o) && HookKept(c, s.o, s.memory)
        && NamesKept(c, s.memory)
    ensures MakeHook(c, s) == Result(Restated(s, Hooked(s.memory)), Next)
  {
    hide NamesFor, FailSecrets, FailWith, EnsureSecret;
    assert s.memory.names.(emailHook := HookName(c)) == s.memory.names;
    assert Hooked(s.memory).conditions[SecretsReady].reason == AllSecretsReady;
  }

  lemma DoneTakesBack(c: Context, s: State, m: Status)
    requires Healthy(c) && NamesKept(c, m) && s.memory == s.saved == Hooked(m)
    ensures FinishSecrets(c, s) == Result(Restated(s, m), Next)
  {
    hide NamesFor;
    assert Hooked(m).conditions[SecretsReady].reason == AllSecretsReady;
    assert Hooked(m).conditions[SecretsReady := m.conditions[SecretsReady]] == m.conditions;
  }

  lemma HooklessRests(c: Context, s: State)
    requires Healthy(c) && s.saved == s.memory && !c.spec.emailHook && HookKept(c, s.o, s.memory)
        && NamesKept(c, s.memory)
    ensures MakeHook(c, s) == Result(s, Next) && FinishSecrets(c, s) == Result(s, Next)
  {
    hide NamesFor, Mark, Marked, FailSecrets, HookSecret;
    MarkRests(c, s, SecretsReady, CredentialsValidated);
  }

  lemma DatabaseRestates(c: Context, s: State)
    requires Healthy(c) && s.saved == s.memory && s.memory.endpoints.api && DatabaseKept(c, s.o, s.memory)
    ensures AwaitDatabase(c, s) == Result(Restated(s, Unserved(s.memory)), Next)
  {
    hide Mark, DatabaseOf;
    var t := s.(memory := Unserved(s.memory));
    assert s.memory.(database := DatabaseOf(s.o.cluster.value), endpoints := Endpoints(false, true))
        == Unserved(s.memory);
    MarkRests(c, t, DatabaseReady, IsReady);
  }

  lemma FinishRestates(c: Context, s: State)
    requires Healthy(c) && s.saved != s.memory && FinishKept(c, s.memory)
    ensures Finished(c, s) == Result(Restated(s, s.memory), Next)
  {
    hide Mark, Marked;
    assert s.memory.(phase := ProjectPhase.Running, observed := c.generation) == s.memory;
    MarkRests(c, s, Ready, AllComponentsReady);
  }

  lemma ServedParts(c: Context, o: Objects, m: Status, n: Status, comp: Component)
    requires Served(c, o, m, comp) && IsCore(comp) && CoreReady(m) && (n == m || n == Unserved(m))
    ensures ServedObjects(c, o, n, comp) && Observes(n, o, comp) && Marked(c, n, ConditionOf(comp), IsReady)
  {
    hide CoreTemplate, DeploymentKept, ServiceKept, MapKept, EnvReadable, Observed, ConditionOf;
    assert ServiceOf(m, comp).ready;
    TemplateReads(c, State(o, m, m, []), comp, o, n);
    TemplateReads(c, State(o, m, m, []), comp, o, m);
  }

  /** While the API endpoint is still to be put back, the other core services rest. */
  lemma CoreRests(c: Context, s: State, m: Status, comp: Component)
    requires Healthy(c) && Served(c, s.o, m, comp) && IsCore(comp) && CoreReady(m) && s.memory == Unserved(m)
    requires comp == Gateway ==> m.endpoints.api
    ensures Step(c, s, Serve(comp)) == Result(if comp == Gateway then s.(memory := m) else s, Next)
  {
    hide Healthy, Served, ServedObjects, Marked, Observed, CoreReady, Step, ConditionOf, ServeComponent;
    StepServe(c, s, comp);
    ServedParts(c, s.o, m, s.memory, comp);
    ServeRests(c, s, comp);
  }

  // ---- The whole pass -------------------------------------------------------

  lemma {:induction false} RestfulRun(c: Context, s: State, plan: seq<Phase>)
    requires Healthy(c) && c.name != "" && Grounds(c, s.o, s.memory)
    requires forall ph :: ph in plan ==> Planned(c, ph) && Restful(ph) && Stable(c, s.o, s.memory, ph)
    requires s.saved == s.memory || (BackupDone !in plan && RecoveryDone !in plan)
    ensures Run(c, s, plan) == Result(s, Next)
    decreases |plan|
  {
    hide Step, Planned, Restful, Stable, Grounds, Healthy;
    if plan != [] {
      assert plan[0] in plan;
      SettledRests(c, s, plan[0]);
      RestfulRun(c, s, plan[1..]);
    }
  }

  lemma RunOn(c: Context, s: State, a: seq<Phase>, t: State, b: seq<Phase>)
    ensures Run(c, s, a) == Result(t, Next) ==> Run(c, s, a + b) == Run(c, t, b)
  {
    hide Run;
    RunConcat(c, s, a, b);
  }

  lemma RunStep(c: Context, s: State, ph: Phase, t: State, b: seq<Phase>)
    ensures Step(c, s, ph) == Result(t, Next) ==> Run(c, s, [ph] + b) == Run(c, t, b)
  {
    hide Run, Step;
    RunCons(c, s, ph, b);
  }

  function BeforeHook(c: Context): seq<Phase> { ProtectPlan + ([CheckCredentials] + Implementation + PsSecrets(c)) }

  function BeforeDatabase(c: Context): seq<Phase> {
    [ValidateBootstrap, InitSqlMap, JwksMap] + BackupPlan(c) + RecoveryPlan(c) + [EnsureCluster]
  }

  function AfterCore(c: Context): seq<Phase> { [CoreGate] + PowerSyncPlan(c) }

  function FromDatabase(c: Context): seq<Phase> {
    [WaitForDatabase] + ([Serve(Auth)]
        + ([Serve(Rest)] + ([Serve(Studio)] + ([Serve(MetaApi)] + ([Serve(Gateway)] + (AfterCore(c) + [Finish]))))))
  }

  function FromHook(c: Context): seq<Phase> {
    [EmailHookSecret] + ([SecretsDone] + (BeforeDatabase(c) + FromDatabase(c)))
  }

  lemma PlanParts(c: Context)
    ensures Plan(c) == BeforeHook(c) + FromHook(c)
  {
    SecretsParts(c);
    hide SecretsPlan, BackupPlan, RecoveryPlan, PowerSyncPlan, PsSecrets;
  }

  lemma RestfulKinds(c: Context)
    ensures forall ph :: ph in ProtectPlan || ph in PsSecrets(c) || ph in Implementation ==> Restful(ph)
    ensures forall ph :: ph in BackupPlan(c) || ph in RecoveryPlan(c) ==> Restful(ph)
    ensures forall ph :: ph in PowerSyncPlan(c) ==> Restful(ph) && ph != BackupDone && ph != RecoveryDone
  {
    hide BackupEnabled, RecoveryEnabled;
  }

  /** The parts of the plan that change nothing in a settled world. */
  lemma RestfulParts(c: Context)
    ensures forall ph :: ph in BeforeHook(c) || ph in BeforeDatabase(c) || ph in AfterCore(c)
              ==> Planned(c, ph) && Restful(ph)
    ensures forall ph :: ph in AfterCore(c) ==> ph != BackupDone && ph != RecoveryDone
  {
    hide BackupPlan, RecoveryPlan, PsSecrets, PowerSyncPlan, Plan, Planned, Rank;
    RestfulKinds(c);
    PlanInOrder(c);
    PlanParts(c);
    assert forall ph :: ph in Plan(c) ==> Planned(c, ph);
  }

  /** The core services of a settled world, and the API endpoint. */
  lemma SettledCore(c: Context, o: Objects, m: Status)
    requires SettledWorld(c, o, m)
    ensures forall comp :: IsCore(comp) ==> Served(c, o, m, comp)
    ensures CoreReady(m) && m.endpoints.api
    ensures DatabaseKept(c, o, m) && FinishKept(c, m)
    ensures HookKept(c, o, m) && NamesKept(c, m) && HookReady(c, o)
    ensures Grounds(c, o, m) && m.phase == ProjectPhase.Running
  {
    hide Planned, Served, Stable, CoreReady, AllUnowned, HookKept, NamesKept, HookReady, DatabaseKept, IntentKept,
         ClusterKept, StoreKept, S3Present, Marked, ScheduleKept, BackupEnabled, RecoveryEnabled;
    PlannedPhases(c);
    StableBackup(c, o, m);
    StableRecovery(c, o, m);
    StableSecrets(c, o, m);
    StableCore(c, o, m);
    StableCluster(c, o, m);
    forall comp | IsCore(comp) ensures Served(c, o, m, comp) {
      assert Stable(c, o, m, Serve(comp));
      StableServe(c, o, m, comp);
    }
    ServedFacts(c, o, m);
  }

  lemma ServedFacts(c: Context, o: Objects, m: Status)
    ensures Served(c, o, m, Auth) ==> HookReady(c, o)
    ensures Served(c, o, m, Gateway) ==> m.endpoints.api
  {
    hide DeploymentKept, ServiceKept, EnvReadable, Observed, MapKept;
  }

  /** How often a settled pass writes the status before the database phase, and in all. */
  function HookLog(c: Context): seq<Write> { if c.spec.emailHook then [StatusWrite, StatusWrite] else [] }

  function QuietLog(c: Context): seq<Write> { HookLog(c) + [StatusWrite, StatusWrite] }

  /** Up to the database phase: with an email hook, the reason is restated and taken back. */
  lemma HooksRun(c: Context, s: State, rest: seq<Phase>)
    requires Healthy(c) && s.saved == s.memory && HookKept(c, s.o, s.memory) && NamesKept(c, s.memory)
        && HookReady(c, s.o)
    ensures Run(c, s, [EmailHookSecret] + ([SecretsDone] + rest)) == Run(c, s.(log := s.log + HookLog(c)), rest)
  {
    hide Run, Step, Healthy, HookKept, NamesKept, HookReady, Hooked, MakeHook, FinishSecrets;
    var m := s.memory;
    if c.spec.emailHook {
      StepHook(c, s);
      HookRestates(c, s);
      var t := Restated(s, Hooked(m));
      RunStep(c, s, EmailHookSecret, t, [SecretsDone] + rest);
      StepSecretsDone(c, t);
      DoneTakesBack(c, t, m);
      RunStep(c, t, SecretsDone, Restated(t, m), rest);
      assert s.log + [StatusWrite] + [StatusWrite] == s.log + HookLog(c);
    } else {
      StepHook(c, s);
      StepSecretsDone(c, s);
      HooklessRests(c, s);
      RunStep(c, s, EmailHookSecret, s, [SecretsDone] + rest);
      RunStep(c, s, SecretsDone, s, rest);
      assert s.log + HookLog(c) == s.log;
    }
  }

  /** The core services while the API endpoint is missing, and its return. */
  lemma CoreRun(c: Context, s: State, m: Status, rest: seq<Phase>)
    requires Healthy(c) && (forall comp :: IsCore(comp) ==> Served(c, s.o, m, comp)) && CoreReady(m) && m.endpoints.api
    requires s.memory == Unserved(m)
    ensures Run(c, s, [Serve(Auth)]
        + ([Serve(Rest)] + ([Serve(Studio)] + ([Serve(MetaApi)] + ([Serve(Gateway)] + rest)))))
         == Run(c, s.(memory := m), rest)
  {
    hide Run, Step, Healthy, Stable, Served, CoreReady;
    CoreRests(c, s, m, Auth);
    CoreRests(c, s, m, Rest);
    CoreRests(c, s, m, Studio);
    CoreRests(c, s, m, MetaApi);
    CoreRests(c, s, m, Gateway);
    var r1, r2, r3, r4 := [Serve(Gateway)] + rest, [Serve(MetaApi)] + ([Serve(Gateway)] + rest),
      [Serve(Studio)] + ([Serve(MetaApi)] + ([Serve(Gateway)] + rest)),
      [Serve(Rest)] + ([Serve(Studio)] + ([Serve(MetaApi)] + ([Serve(Gateway)] + rest)));
    RunStep(c, s, Serve(Auth), s, r4);
    RunStep(c, s, Serve(Rest), s, r3);
    RunStep(c, s, Serve(Studio), s, r2);
    RunStep(c, s, Serve(MetaApi), s, r1);
    RunStep(c, s, Serve(Gateway), s.(memory := m), rest);
  }

  /** From the database phase to the end. */
  lemma DatabaseRun(c: Context, s: State)
    requires Healthy(c) && c.name != "" && SettledWorld(c, s.o, s.memory) && s.saved == s.memory
    ensures Run(c, s, FromDatabase(c)) == Result(s.(log := s.log + [StatusWrite, StatusWrite]), Next)
  {
    hide Run, Step, Healthy, Grounds, Stable, Served, AfterCore, Planned, Restful, CoreReady, AllUnowned,
         AwaitDatabase, Finished, DatabaseKept, FinishKept;
    var m := s.memory;
    SettledCore(c, s.o, m);
    StepDatabase(c, s);
    DatabaseRestates(c, s);
    var t := Restated(s, Unserved(m));
    var tail := AfterCore(c) + [Finish];
    RunStep(c, s, WaitForDatabase, t, [Serve(Auth)]
        + ([Serve(Rest)] + ([Serve(Studio)] + ([Serve(MetaApi)] + ([Serve(Gateway)] + tail)))));
    CoreRun(c, t, m, tail);
    var u := t.(memory := m);
    RestfulParts(c);
    RestfulRun(c, u, AfterCore(c));
    RunOn(c, u, AfterCore(c), u, [Finish]);
    StepFinish(c, u);
    FinishRestates(c, u);
    RunOne(c, u, Finish);
    assert s.log + [StatusWrite] + [StatusWrite] == s.log + [StatusWrite, StatusWrite];
  }

  /** In a settled world a pass completes, leaves every object and the status value
      as they were, and writes the status twice, or four times with an email hook. */
  lemma SettledPass(c: Context, o: Objects, m: Status)
    requires Healthy(c) && c.name != "" && SettledWorld(c, o, m)
    ensures Pass(c, o, m) == Result(State(o, m, m, QuietLog(c)), Next)
  {
    hide Run, Healthy, Grounds, BeforeHook, BeforeDatabase, FromDatabase, Planned, Restful, Plan, Stable, AllUnowned,
         Served, CoreReady, Pass, HookKept, NamesKept, HookReady;
    SettledCore(c, o, m);
    RestfulParts(c);
    PlanParts(c);
    PassIs(c, o, m);
    var s := Begin(o, m);
    RestfulRun(c, s, BeforeHook(c));
    RunOn(c, s, BeforeHook(c), s, FromHook(c));
    HooksRun(c, s, BeforeDatabase(c) + FromDatabase(c));
    var t := s.(log := s.log + HookLog(c));
    assert [] + HookLog(c) == HookLog(c);
    RestfulRun(c, t, BeforeDatabase(c));
    RunOn(c, t, BeforeDatabase(c), t, FromDatabase(c));
    DatabaseRun(c, t);
  }

  // ---- After a complete pass ------------------------------------------------

  /** The same declaration in the same surroundings, at another time and with another random draw. */
  ghost predicate Alike(c: Context, d: Context) {
    d == c.(now := d.now, seed := d.seed, up := d.up, statusUp := d.statusUp)
  }

  lemma AlikeMeta(c: Context, d: Context)
    requires Alike(c, d)
    ensures Self(d) == Self(c) && forall slot :: LabelsFor(d, slot) == LabelsFor(c, slot)
    ensures Rules(d) == Rules(c) && Bundle(d) == Bundle(c) && DesiredPublication(d) == DesiredPublication(c)
        && ScriptHash(d) == ScriptHash(c)
  {
    hide ComponentLabels, Publications.Effective;
  }

  lemma AlikeTemplates(c: Context, d: Context, o: Objects, m: Status, comp: Component)
    requires Alike(c, d)
    ensures TemplateFor(d, o, m, comp) == TemplateFor(c, o, m, comp)
        && PsTemplateFor(d, o, m, comp) == PsTemplateFor(c, o, m, comp)
  {
    hide Rules, Bundle;
    AlikeMeta(c, d);
  }

  /** An object kept for one of the contexts is kept for the other. */
  lemma AlikeKept(c: Context, d: Context, o: Objects)
    requires Alike(c, d)
    ensures forall role, data :: MapKept(d, o, role, data) == MapKept(c, o, role, data)
    ensures forall comp, template :: DeploymentKept(d, o, comp, template) == DeploymentKept(c, o, comp, template)
    ensures forall comp :: ServiceKept(d, o, comp) == ServiceKept(c, o, comp)
    ensures forall names :: CompactKept(d, o, names) == CompactKept(c, o, names)
  {
    hide Normal, WithController, MergedLabels, NormalCron, LabelsFor, Self, Rules, DesiredPublication, ScriptHash,
         Bundle;
    AlikeMeta(c, d);
  }

  lemma AlikeServed(c: Context, d: Context, o: Objects, m: Status, comp: Component)
    requires Alike(c, d) && Served(c, o, m, comp)
    ensures Served(d, o, m, comp)
  {
    hide DeploymentKept, TemplateFor, Observed, ConditionOf, ServiceKept, MapKept;
    AlikeTemplates(c, d, o, m, comp);
    AlikeKept(c, d, o);
    if comp == Auth {
      forall i | 0 <= i < |d.spec.env| ensures EntryReadable(d, d.spec.env[i]) {
        assert EntryReadable(c, c.spec.env[i]);
      }
    }
  }

  lemma AlikeStorage(c: Context, d: Context, o: Objects, m: Status, ph: Phase)
    requires Alike(c, d)
    ensures SecretsStable(c, o, m, ph) ==> SecretsStable(d, o, m, ph)
    ensures StorageStable(c, o, m, ph) ==> StorageStable(d, o, m, ph)
  {
    hide WithController, MergedStore, WithoutProject, MergedLabels, BackupSpecOf, RecoverySpecOf, LabelsFor, Self,
         Rules, DesiredPublication, ScriptHash, Bundle;
    AlikeMeta(c, d);
  }

  lemma AlikeCore(c: Context, d: Context, o: Objects, m: Status, ph: Phase)
    requires Alike(c, d)
    ensures CoreStable(c, o, m, ph) ==> CoreStable(d, o, m, ph)
  {
    hide MergeCluster, IntentChanged, BuildCluster, WithoutProject, MergedLabels, LabelsFor, MapKept, Served,
         CoreReady, Bundle;
    AlikeMeta(c, d);
    AlikeKept(c, d, o);
    if ph.Serve? && Served(c, o, m, ph.core) { AlikeServed(c, d, o, m, ph.core); }
  }

  lemma AlikeGates(c: Context, d: Context, o: Objects, m: Status, ph: Phase)
    requires Alike(c, d)
    ensures GatesStable(c, o, m, ph) ==> GatesStable(d, o, m, ph)
  {
    hide WithController, MergedLabels, Rules, DesiredPublication, ScriptHash, Verdict, LabelsFor, Self, Bundle,
         RolesUp, HashOf, MapKept;
    AlikeMeta(c, d);
    AlikeKept(c, d, o);
  }

  lemma AlikeWorkloads(c: Context, d: Context, o: Objects, m: Status, ph: Phase)
    requires Alike(c, d)
    ensures WorkloadsStable(c, o, m, ph) ==> WorkloadsStable(d, o, m, ph)
  {
    hide DeploymentKept, PsTemplateFor, ServiceKept, CompactKept, MapKept, Observed, PowerSyncStatusLeft, Rules,
         LabelsFor;
    AlikeKept(c, d, o);
    AlikeMeta(c, d);
    AlikeTemplates(c, d, o, m, PsApi);
    AlikeTemplates(c, d, o, m, PsReplicator);
  }

  lemma AlikeStable(c: Context, d: Context, o: Objects, m: Status, ph: Phase)
    requires Alike(c, d) && Stable(c, o, m, ph)
    ensures Stable(d, o, m, ph)
  {
    hide Alike, SecretsStable, StorageStable, CoreStable, GatesStable, WorkloadsStable;
    AlikeStorage(c, d, o, m, ph);
    AlikeCore(c, d, o, m, ph);
    AlikeGates(c, d, o, m, ph);
    AlikeWorkloads(c, d, o, m, ph);
  }

  // Every planned phase is in the plan.

  lemma SectionHas(c: Context, ph: Phase)
    requires Planned(c, ph)
    ensures SecretsPhase(ph) ==> ph in SecretsPlan(c)
    ensures BackupPhase(ph) || RecoveryPhase(ph) || CleaningPhase(ph) ==> ph in BackupPlan(c) || ph in RecoveryPlan(c)
    ensures ph.Serve? || ph.CoreGate? ==> ph in ServicesPlan
  {
    hide BackupEnabled, RecoveryEnabled;
  }

  lemma PowerSyncHas(c: Context, ph: Phase)
    requires Planned(c, ph) && 90 <= Rank(ph) < 130
    ensures ph in PowerSyncPlan(c)
  {
    if c.spec.powersync.Some? {
      assert ph in GatesPlan || ph in WorkloadPlan;
    } else {
      assert ph in CleanupPlan;
    }
  }

  lemma PlannedInPlan(c: Context, ph: Phase)
    requires Planned(c, ph)
    ensures ph in Plan(c)
  {
    hide Planned, SecretsPlan, BackupPlan, RecoveryPlan, PowerSyncPlan;
    SectionHas(c, ph);
    if 90 <= Rank(ph) < 130 { PowerSyncHas(c, ph); }
  }

  /** A complete pass settles the world, for any later context like its own. */
  lemma CompletePassSettles(c: Context, d: Context, o: Objects, status: Status)
    requires Faithful(c.k) && Alike(c, d) && Pass(c, o, status).outcome == Next
    ensures SettledWorld(d, Pass(c, o, status).state.o, Pass(c, o, status).state.memory)
    ensures Pass(c, o, status).state.saved == Pass(c, o, status).state.memory
  {
    hide Pass, Faithful, Stable, AllUnowned, Run, Begin, Step, PlanBody, Plan, BackupEnabled, RecoveryEnabled,
         Removable, IsCore, SetCondition, BeforeFinish;
    var t := Pass(c, o, status).state;
    PassIs(c, o, status);
    PlanSplits(c);
    RunConcat(c, Begin(o, status), ProtectPlan, PlanBody(c));
    PassProtects(c, o, status);
    PlanFinishes(c);
    RunLast(c, Begin(o, status), BeforeFinish(c), Finish);
    StepFinish(c, Run(c, Begin(o, status), BeforeFinish(c)).state);
    forall ph | Planned(d, ph) ensures Stable(d, t.o, t.memory, ph) {
      assert Planned(c, ph);
      PlannedInPlan(c, ph);
      PassSettles(c, o, status, ph);
      AlikeStable(c, d, t.o, t.memory, ph);
    }
  }

  function BeforeFinish(c: Context): seq<Phase> { Plan(c)[..|Plan(c)| - 1] }

  lemma PlanFinishes(c: Context)
    ensures Plan(c) == BeforeFinish(c) + [Finish]
  {
    hide SecretsPlan, BackupPlan, RecoveryPlan, PowerSyncPlan;
  }

  /** Idempotence: after a complete pass, a pass in the same surroundings completes,
      writes no object, and ends with the same objects and the same status, whatever
      random values it draws. */
  lemma SecondPass(c: Context, d: Context, o: Objects, status: Status)
    requires Faithful(c.k) && Alike(c, d) && Healthy(d) && c.name != ""
    requires Pass(c, o, status).outcome == Next
    ensures var first := Pass(c, o, status).state;
            Pass(d, first.o, first.saved) == Result(State(first.o, first.saved, first.saved, QuietLog(d)), Next)
  {
    hide Pass, Faithful, Healthy, SettledWorld;
    CompletePassSettles(c, d, o, status);
    SettledPass(d, Pass(c, o, status).state.o, Pass(c, o, status).state.saved);
  }
}
