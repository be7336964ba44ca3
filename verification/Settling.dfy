/** A phase that goes on leaves its part of the world settled. */
module Settling {
  import opened Kube
  import opened Pods
  import opened Clusters
  import opened World
  import opened Operator
  import opened Steps
  import opened Frames
  import opened Durables
  import opened Gates
  import opened Settled
  import opened Keeping
  import opened Ordering

  /** The API server's defaulting stays within what the comparison normalises, and
      a generated PowerSync token passes its own validation. */
  ghost predicate Faithful(k: Platform) {
    && (forall t :: Stored(t, k.admit(t)))
    && (forall seed :: k.tokenValid(k.generate(PsToken, seed)))
  }

  lemma SelfIsSelf(c: Context)
    ensures SameObject(Self(c), Self(c)) && Self(c).controller
  {
    hide ParseGroup;
    GroupParses(PROJECT_GROUP, "v1alpha1");
  }

  lemma OwnedIsKept(c: Context, slot: Slot)
    ensures WithController(OwnedMeta(c, slot).owners, Self(c)) == Some(OwnedMeta(c, slot).owners)
    ensures MergedLabels(OwnedMeta(c, slot).labels, LabelsFor(c, slot)) == OwnedMeta(c, slot).labels
    ensures Ours(c, OwnedMeta(c, slot))
  {
    hide ParseGroup, Self;
    SelfIsSelf(c);
    assert [Self(c)] + [Self(c)][1..] == [Self(c)];
  }

  /** Metadata that was repaired once needs no second repair. */
  lemma RepairIsKept(c: Context, m: Meta, slot: Slot)
    requires WithController(m.owners, Self(c)).Some?
    ensures var n := Meta(MergedLabels(m.labels, LabelsFor(c, slot)), WithController(m.owners, Self(c)).value);
            && WithController(n.owners, Self(c)) == Some(n.owners)
            && MergedLabels(n.labels, LabelsFor(c, slot)) == n.labels && (Ours(c, m) ==> Ours(c, n))
  {
    hide ParseGroup, WithController, Self;
    SelfIsSelf(c);
    WithControllerIdempotent(m.owners, Self(c));
    MergedLabelsIdempotent(m.labels, LabelsFor(c, slot));
    assert Instance in LabelsFor(c, slot) && LabelsFor(c, slot)[Instance] == c.name;
  }

  lemma SecretSettles(c: Context, ph: Phase, s: State, role: SecretRole, data: Data)
    requires EnsureSecret(c, ph, s, role, data).outcome == Next
    ensures var o := EnsureSecret(c, ph, s, role, data).state.o;
            SecretKept(c, o, role) && o.secrets[role].data == if role in s.o.secrets then s.o.secrets[role].data
                else data
  {
    hide WithController, MergedLabels, Self, LabelsFor, Ours;
    OwnedIsKept(c, SecretAt(role));
    if role in s.o.secrets && WithController(s.o.secrets[role].meta.owners, Self(c)).Some? {
      RepairIsKept(c, s.o.secrets[role].meta, SecretAt(role));
    }
  }

  lemma MapSettles(c: Context, ph: Phase, s: State, role: MapRole, data: Data)
    requires EnsureMap(c, ph, s, role, data).outcome == Next
    ensures MapKept(c, EnsureMap(c, ph, s, role, data).state.o, role, data)
  {
    hide WithController, MergedLabels, Ours;
    OwnedIsKept(c, MapAt(role));
    if role in s.o.configMaps { RepairIsKept(c, s.o.configMaps[role].meta, MapAt(role)); }
  }

  /** What the API server stores compares equal to what was submitted. */
  lemma AdmittedNormal(k: Platform, t: PodTemplate)
    requires Faithful(k)
    ensures Normal(k.admit(t)) == Normal(t) && Normal(k.admit(Normal(t))) == Normal(t)
  {
    hide Normal, Stored;
    StoredNormal(t, k.admit(t));
    StoredNormal(Normal(t), k.admit(Normal(t)));
    NormalIdempotent(t);
  }

  lemma DeploymentSettles(c: Context, ph: Phase, s: State, comp: Component, template: PodTemplate)
    requires Faithful(c.k) && EnsureDeployment(c, ph, s, comp, template).outcome == Next
    ensures DeploymentKept(c, EnsureDeployment(c, ph, s, comp, template).state.o, comp, template)
  {
    hide WithController, MergedLabels, Normal, Faithful;
    OwnedIsKept(c, DeploymentAt(comp));
    if comp in s.o.deployments && WithController(s.o.deployments[comp].meta.owners, Self(c)).Some? {
      RepairIsKept(c, s.o.deployments[comp].meta, DeploymentAt(comp));
    }
    AdmittedNormal(c.k, template);
  }

  lemma ServiceSettles(c: Context, ph: Phase, s: State, comp: Component)
    requires EnsureService(c, ph, s, comp).outcome == Next
    ensures ServiceKept(c, EnsureService(c, ph, s, comp).state.o, comp)
  {
    hide WithController, MergedLabels, SelectorFor;
    OwnedIsKept(c, ServiceAt(comp));
    if comp in s.o.services { RepairIsKept(c, s.o.services[comp].meta, ServiceAt(comp)); }
  }

  lemma DurableIsKept(c: Context, slot: Slot)
    ensures Repaired(c, DurableMeta(c, slot), slot) == DurableMeta(c, slot) && Ours(c, DurableMeta(c, slot))
  {
    MergedLabelsIdempotent(LabelsFor(c, slot), LabelsFor(c, slot));
  }

  lemma RepairedIsKept(c: Context, m: Meta, slot: Slot)
    requires Ours(c, m)
    ensures Repaired(c, Repaired(c, m, slot), slot) == Repaired(c, m, slot) && Ours(c, Repaired(c, m, slot))
  {
    hide WithoutProject, MergedLabels;
    RepairedIsOurs(c, m, slot);
    MergedLabelsIdempotent(m.labels, LabelsFor(c, slot));
    WithoutProjectIdempotent(m.owners, c.name);
  }

  lemma StoreSettles(c: Context, ph: Phase, s: State, d: Durable, desired: StoreSpec)
    requires EnsureStore(c, ph, s, d, desired).outcome == Next && desired.rest == ""
    ensures StoreKept(c, EnsureStore(c, ph, s, d, desired).state.o, d, desired)
  {
    hide Repaired, Ours;
    DurableIsKept(c, SlotOf(d));
    if StoreAt(s.o, d).Some? && Ours(c, StoreAt(s.o, d).value.meta) {
      RepairedIsKept(c, StoreAt(s.o, d).value.meta, SlotOf(d));
    }
  }

  lemma ScheduleSettles(c: Context, ph: Phase, s: State, desired: ScheduleSpec)
    requires EnsureSchedule(c, ph, s, desired).outcome == Next && desired.rest == ""
    ensures ScheduleKept(c, EnsureSchedule(c, ph, s, desired).state.o, desired)
  {
    hide Repaired, Ours;
    DurableIsKept(c, ScheduleAt);
    if s.o.schedule.Some? && Ours(c, s.o.schedule.value.meta) {
      RepairedIsKept(c, s.o.schedule.value.meta, ScheduleAt);
    }
  }

  lemma CronSettles(c: Context, ph: Phase, s: State, desired: CronSpec)
    requires Faithful(c.k) && EnsureCron(c, ph, s, desired).outcome == Next
    ensures CronKept(c, EnsureCron(c, ph, s, desired).state.o, desired)
  {
    hide WithController, MergedLabels, Normal, Faithful;
    OwnedIsKept(c, CronAt);
    if s.o.cron.Some? && WithController(s.o.cron.value.meta.owners, Self(c)).Some? {
      RepairIsKept(c, s.o.cron.value.meta, CronAt);
    }
    AdmittedNormal(c.k, desired.template);
  }

  lemma DeleteSettles(c: Context, ph: Phase, s: State, slot: Slot)
    requires DeleteOwned(c, ph, s, slot).outcome == Next && Removable(slot)
    ensures Gone(c, DeleteOwned(c, ph, s, slot).state.o, slot)
  {
    hide ControlledBy;
  }

  lemma CheckJobSettles(c: Context, s: State)
    requires CheckJob(c, s).outcome == Next
    ensures JobKept(c, CheckJob(c, s).state.o)
  {
    hide WithController, MergedLabels, Ours, ScriptHash, Verdict, LabelsFor, Self;
    if s.o.job.Some? && WithController(s.o.job.value.meta.owners, Self(c)).Some? {
      RepairIsKept(c, s.o.job.value.meta, JobAt);
    }
  }

  lemma SecretsSettle(c: Context, s: State, ph: Phase)
    requires Faithful(c.k) && Step(c, s, ph).outcome == Next
    ensures SecretsStable(c, Step(c, s, ph).state.o, Step(c, s, ph).state.memory, ph)
  {
    hide EnsureSecret, SecretKept, Step, Faithful, MakeToken, MakeHook, FailSecrets, HookKept, TokenKept,
         RoleSecretsKept, MakeRoleSecrets;
    FailsSecrets(c, s);
    match ph {
      case CheckCredentials => StepCredentials(c, s);
      case ImplementationSecret(role) =>
        StepSecret(c, s, role);
        SecretSettles(c, ph, s, role, c.k.generate(role, c.seed));
      case PsRoleSecrets => StepRoleSecrets(c, s); RoleSecretsSettle(c, s);
      case PsTokenSecret => StepToken(c, s); TokenSettles(c, s);
      case EmailHookSecret => StepHook(c, s); HookSettles(c, s);
      case SecretsDone => StepSecretsDone(c, s);
      case _ =>
    }
  }

  lemma StorageSettles(c: Context, s: State, ph: Phase)
    requires Step(c, s, ph).outcome == Next
    ensures StorageStable(c, Step(c, s, ph).state.o, Step(c, s, ph).state.memory, ph)
  {
    hide Step, EnsureStore, EnsureSchedule, StoreKept, ScheduleKept, FailWith;
    FailsWith(c, s);
    match ph {
      case BackupStore => StepStores(c, s); StoreSettles(c, ph, s, DurableBackup, BackupSpecOf(BackupDeclared(c)));
      case BackupSchedule => StepSchedule(c, s); ScheduleSettles(c, ph, s, ScheduleOf(c, BackupDeclared(c)));
      case RecoveryStore =>
        StepStores(c, s);
        StoreSettles(c, ph, s, DurableRecovery, RecoverySpecOf(RecoveryDeclared(c)));
      case BackupCredentials => StepStorageCredentials(c, s);
      case RecoveryCredentials => StepStorageCredentials(c, s);
      case BackupDone => StepConfigured(c, s);
      case RecoveryDone => StepConfigured(c, s);
      case CleanBackupDone => StepCleaned(c, s);
      case CleanRecoveryDone => StepCleaned(c, s);
      case _ =>
    }
  }

  lemma CoreSettles(c: Context, s: State, ph: Phase)
    requires Faithful(c.k) && Step(c, s, ph).outcome == Next
    ensures CoreStable(c, Step(c, s, ph).state.o, Step(c, s, ph).state.memory, ph)
  {
    hide Step, Faithful, EnsureMap, MapKept, FailWith, JwksData, Served, ServeComponent, IntentChanged, Built,
         Desired, MergeCluster, Repaired, SameLocation, CoreReady, Ours, NewCluster, OwnedMeta;
    FailsWith(c, s);
    match ph {
      case ValidateBootstrap => StepBootstrap(c, s);
      case InitSqlMap => StepInitSql(c, s); MapSettles(c, ph, s, InitSql, c.k.mapData(c.name, c.spec, InitSql));
      case JwksMap => StepJwks(c, s); MapSettles(c, ph, s, Jwks, JwksData(c));
      case EnsureCluster => StepCluster(c, s);
      case WaitForDatabase => StepDatabase(c, s);
      case Serve(comp) => StepServe(c, s, comp); ServeSettles(c, s, comp);
      case CoreGate => StepCoreGate(c, s);
      case Finish => StepFinish(c, s);
      case _ =>
    }
  }

  lemma GatesSettle(c: Context, s: State, ph: Phase)
    requires Step(c, s, ph).outcome == Next
    ensures GatesStable(c, Step(c, s, ph).state.o, Step(c, s, ph).state.memory, ph)
  {
    hide Step, EnsureMap, MapKept, FailWith, ScriptData, Rules, UpdatedPublication, DesiredPublication,
         RolesReconciled, RolesBlocked, CheckJob, JobKept, Save;
    FailsWith(c, s);
    match ph {
      case RulesGate => StepRules(c, s);
      case RolesGate => StepRoles(c, s);
      case PublicationGate => StepPublication(c, s);
      case CdcMap => StepCdcMap(c, s); MapSettles(c, ph, s, CdcScript, ScriptData(c));
      case CdcJob => StepJob(c, s); if CheckJob(c, s).outcome == Next { CheckJobSettles(c, s); }
      case _ =>
    }
  }

  lemma WorkloadsSettle(c: Context, s: State, ph: Phase)
    requires Faithful(c.k) && Step(c, s, ph).outcome == Next && Planned(c, ph)
    ensures WorkloadsStable(c, Step(c, s, ph).state.o, Step(c, s, ph).state.memory, ph)
  {
    hide Step, Faithful, EnsureMap, MapKept, EnsureDeployment, DeploymentKept, EnsureService, ServiceKept, EnsureCron,
         CronKept, DeleteOwned, Gone, MarkAndSave, RulesData, PowerSyncTemplate, PsTemplateFor, RolledOut,
         BackupEnabled, RecoveryEnabled;
    var t := Step(c, s, ph).state;
    SilentStep(c, s, ph);
    match ph {
      case PsConfigMap => StepPsConfig(c, s); MapSettles(c, ph, s, PsConfig, c.k.mapData(c.name, c.spec, PsConfig));
      case PsRulesMap => StepPsRules(c, s); if WithRulesMap(c) { MapSettles(c, ph, s, PsRules, RulesData(c)); }
      case PsApiDeployment =>
        StepPsDeployments(c, s);
        DeploymentSettles(c, ph, s, PsApi, PowerSyncTemplate(c, s, PsApi));
        PsTemplateReads(c, s, t, PsApi);
      case PsReplicatorDeployment =>
        StepPsDeployments(c, s);
        DeploymentSettles(c, ph, s, PsReplicator, PowerSyncTemplate(c, s, PsReplicator));
        PsTemplateReads(c, s, t, PsReplicator);
      case PsApiService => StepPsService(c, s); ServiceSettles(c, ph, s, PsApi);
      case PsCompact =>
        StepCompact(c, s);
        if WithCompact(c) {
          CronSettles(c, ph, s, c.k.cron(c.name, c.spec, s.memory.names));
        } else {
          DeleteSettles(c, ph, s, CronAt);
        }
      case PsReady => StepPsReady(c, s);
      case CleanPowerSync(slot) => StepRemoval(c, s, slot); DeleteSettles(c, ph, s, slot);
      case CleanPowerSyncStatus => StepStatusRemoval(c, s);
      case _ =>
    }
  }

  lemma TokenSettles(c: Context, s: State)
    requires Faithful(c.k) && MakeToken(c, s).outcome == Next
    ensures TokenKept(c, MakeToken(c, s).state.o)
  {
    hide EnsureSecret, FailSecrets, Stored, WithController, Self;
    FailsSecrets(c, s);
    SecretSettles(c, PsTokenSecret, s, PsToken, c.k.generate(PsToken, c.seed));
  }

  lemma SecretAppears(c: Context, ph: Phase, s: State, role: SecretRole, data: Data)
    requires EnsureSecret(c, ph, s, role, data).outcome == Next
    ensures var o := EnsureSecret(c, ph, s, role, data).state.o;
            role in o.secrets && forall x :: x in s.o.secrets ==> x in o.secrets
  {
    hide WithController, OwnedMeta;
  }

  lemma RoleSecretsSettle(c: Context, s: State)
    requires MakeRoleSecrets(c, s).outcome == Next
    ensures RoleSecretsKept(MakeRoleSecrets(c, s).state.o)
  {
    hide EnsureSecret, MarkAndSave, FailSecrets;
    FailsSecrets(c, s);
    var r := EnsureSecret(c, PsRoleSecrets, s, PsStorage, c.k.generate(PsStorage, c.seed));
    if r.outcome == Next {
      SecretAppears(c, PsRoleSecrets, s, PsStorage, c.k.generate(PsStorage, c.seed));
      if EnsureSecret(c, PsRoleSecrets, r.state, PsReplication, c.k.generate(PsReplication, c.seed)).outcome == Next {
        SecretAppears(c, PsRoleSecrets, r.state, PsReplication, c.k.generate(PsReplication, c.seed));
      }
    }
  }

  lemma HookSettles(c: Context, s: State)
    requires MakeHook(c, s).outcome == Next
    ensures HookKept(c, MakeHook(c, s).state.o, MakeHook(c, s).state.memory)
  {
    hide EnsureSecret, FailSecrets;
    FailsSecrets(c, s);
    var data := c.k.generate(EmailHook, c.seed);
    if EnsureSecret(c, EmailHookSecret, s, EmailHook, data).outcome == Next {
      SecretAppears(c, EmailHookSecret, s, EmailHook, data);
    }
  }

  lemma PsTemplateReads(c: Context, s: State, t: State, comp: Component)
    requires t.memory == s.memory
    ensures PsTemplateFor(c, t.o, t.memory, comp) == PowerSyncTemplate(c, s, comp)
  {
    hide Rules;
  }

  // ---- Core services --------------------------------------------------------

  lemma EnvSettles(c: Context)
    requires EnvValid(c)
    ensures EnvReadable(c)
  {
    forall i | 0 <= i < |c.spec.env| ensures EntryReadable(c, c.spec.env[i]) {
      assert EntryValid(c, c.spec.env[i], i);
    }
  }

  lemma ReportSettles(c: Context, s: State, comp: Component)
    requires ReportComponent(c, s, comp).outcome == Next
    ensures var t := ReportComponent(c, s, comp).state;
            && t.o == s.o && t.memory.names == s.memory.names
            && comp in t.memory.services && t.memory.services[comp] == Observed(t.o, comp)
            && (ServiceOf(t.memory, comp).ready ==> Marked(c, t.memory, ConditionOf(comp), IsReady))
            && (comp == Gateway ==> t.memory.endpoints.api)
  {
    hide RolledOut, MarkAndSave;
  }

  lemma PrepareSettles(c: Context, s: State, comp: Component)
    requires PrepareComponent(c, s, comp).outcome == Next
    ensures var t := PrepareComponent(c, s, comp).state;
            && t.memory == s.memory
            && (comp == Auth ==> EnvReadable(c))
            && (comp == Gateway ==> MapKept(c, t.o, EnvoyConfig, c.k.mapData(c.name, c.spec, EnvoyConfig)))
  {
    hide EnvValid, EnvReadable, EnsureMap, MapKept, MarkAndSave;
    if comp == Auth { EnvSettles(c); }
    if comp == Gateway {
      EnsureMapSilent(c, Serve(Gateway), s, EnvoyConfig, c.k.mapData(c.name, c.spec, EnvoyConfig));
      MapSettles(c, Serve(Gateway), s, EnvoyConfig, c.k.mapData(c.name, c.spec, EnvoyConfig));
    }
  }

  lemma DeploymentObjects(c: Context, ph: Phase, s: State, comp: Component, template: PodTemplate)
    ensures var o := EnsureDeployment(c, ph, s, comp, template).state.o; o == s.o.(deployments := o.deployments)
  {
    hide RefreshDeployment, NewDeployment;
    if comp in s.o.deployments { RefreshedDeployments(c, ph, s, comp, template); }
  }

  lemma RefreshedDeployments(c: Context, ph: Phase, s: State, comp: Component, template: PodTemplate)
    requires comp in s.o.deployments
    ensures var o := RefreshDeployment(c, ph, s, comp, template).state.o; o == s.o.(deployments := o.deployments)
  {
    hide WithController, DeploymentCurrent, UpdatedDeployment, Self;
  }

  lemma ServiceObjects(c: Context, ph: Phase, s: State, comp: Component)
    ensures var o := EnsureService(c, ph, s, comp).state.o; o == s.o.(services := o.services)
  {
    hide RefreshService, OwnedMeta, SelectorFor;
    if comp in s.o.services { RefreshedServices(c, ph, s, comp); }
  }

  lemma RefreshedServices(c: Context, ph: Phase, s: State, comp: Component)
    requires comp in s.o.services
    ensures var o := RefreshService(c, ph, s, comp).state.o; o == s.o.(services := o.services)
  {
    hide WithController, SelectorFor, Self;
  }

  lemma TemplateReads(c: Context, s: State, comp: Component, o: Objects, m: Status)
    requires o.secrets == s.o.secrets && m.names == s.memory.names
    ensures TemplateFor(c, o, m, comp) == CoreTemplate(c, s, comp)
  {
  }

  lemma ServeSettles(c: Context, s: State, comp: Component)
    requires Faithful(c.k) && ServeComponent(c, s, comp).outcome == Next
    ensures Served(c, ServeComponent(c, s, comp).state.o, ServeComponent(c, s, comp).state.memory, comp)
  {
    hide EnsureDeployment, EnsureService, EnsureMap, ReportComponent, CoreTemplate, PrepareComponent, MarkAndSave,
         Marked, DeploymentCurrent, MergedLabels, WithController, RolledOut, Faithful, TemplateFor, EnvReadable,
         Observed, ConditionOf, SelectorFor, Ours;
    PrepareSettles(c, s, comp);
    var p := PrepareComponent(c, s, comp).state;
    var template := CoreTemplate(c, p, comp).value;
    DeploymentSettles(c, Serve(comp), p, comp, template);
    DeploymentObjects(c, Serve(comp), p, comp, template);
    EnsureDeploymentSilent(c, Serve(comp), p, comp, template);
    var d := EnsureDeployment(c, Serve(comp), p, comp, template).state;
    ServiceSettles(c, Serve(comp), d, comp);
    ServiceObjects(c, Serve(comp), d, comp);
    EnsureServiceSilent(c, Serve(comp), d, comp);
    var v := EnsureService(c, Serve(comp), d, comp).state;
    ReportSettles(c, v, comp);
    var t := ReportComponent(c, v, comp).state;
    TemplateReads(c, p, comp, t.o, t.memory);
  }

  // ---- All phases, and whole plans ------------------------------------------

  /** Going on, every phase settles its part. */
  lemma Settles(c: Context, s: State, ph: Phase)
    requires Faithful(c.k) && Planned(c, ph) && Step(c, s, ph).outcome == Next
    ensures Stable(c, Step(c, s, ph).state.o, Step(c, s, ph).state.memory, ph)
  {
    hide Faithful, Step, SecretsStable, StorageStable, CoreStable, GatesStable, WorkloadsStable, BackupEnabled,
         RecoveryEnabled;
    SecretsSettle(c, s, ph);
    StorageSettles(c, s, ph);
    CoreSettles(c, s, ph);
    GatesSettle(c, s, ph);
    WorkloadsSettle(c, s, ph);
  }

  /** What is settled stays settled while later phases run. */
  lemma {:induction false} RunKeepsStable(c: Context, s: State, first: Phase, plan: seq<Phase>)
    requires Planned(c, first) && InOrder(c, plan) && Stable(c, s.o, s.memory, first)
    requires (forall ph :: ph in plan ==> Rank(first) < Rank(ph)) && Run(c, s, plan).outcome == Next
    ensures Stable(c, Run(c, s, plan).state.o, Run(c, s, plan).state.memory, first)
    decreases |plan|
  {
    hide Step, Planned, Rank, Stable;
    if plan != [] {
      assert plan[0] in plan;
      LaterKeeps(c, s, first, plan[0]);
      RunKeepsStable(c, Step(c, s, plan[0]).state, first, plan[1..]);
    }
  }

  /** A plan run to its end settles all it planned. */
  lemma {:induction false} RunSettles(c: Context, s: State, plan: seq<Phase>, ph: Phase)
    requires Faithful(c.k) && InOrder(c, plan) && Run(c, s, plan).outcome == Next && ph in plan
    ensures Stable(c, Run(c, s, plan).state.o, Run(c, s, plan).state.memory, ph)
    decreases |plan|
  {
    hide Step, Planned, Rank, Stable, Faithful;
    var t := Step(c, s, plan[0]).state;
    assert InOrder(c, plan[1..]);
    if ph == plan[0] {
      Settles(c, s, ph);
      RunKeepsStable(c, t, ph, plan[1..]);
    } else {
      assert ph in plan[1..];
      RunSettles(c, t, plan[1..], ph);
    }
  }

  /** A complete pass settles every phase its declaration calls for. */
  lemma PassSettles(c: Context, o: Objects, status: Status, ph: Phase)
    requires Faithful(c.k) && Pass(c, o, status).outcome == Next && ph in Plan(c)
    ensures Stable(c, Pass(c, o, status).state.o, Pass(c, o, status).state.memory, ph)
  {
    hide *;
    PlanInOrder(c);
    PassIs(c, o, status);
    RunSettles(c, Begin(o, status), Plan(c), ph);
  }

}
