/** What belongs to others: no pass takes over, changes or deletes it. */
module Foreign {
  import opened Kube
  import opened Clusters
  import opened World
  import opened Operator
  import opened Steps
  import opened Frames
  import opened Durables
  import opened Gates
  import opened Ordering
  import Settling
  import opened Delivery

  function MetaAt(o: Objects, slot: Slot): Option<Meta> {
    match slot
    case SecretAt(x) => if x in o.secrets then Some(o.secrets[x].meta) else None
    case ClusterAt => MetaOf(o, DurableCluster)
    case BackupAt => MetaOf(o, DurableBackup)
    case RecoveryAt => MetaOf(o, DurableRecovery)
    case ScheduleAt => MetaOf(o, DurableSchedule)
    case _ => PowerSyncMeta(o, slot)
  }

  /** The first controller is something else than the project, and not an object with its UID. */
  predicate HeldByOther(c: Context, owners: seq<OwnerRef>) {
    exists i :: 0 <= i < |owners| && ControllerAt(owners, i) && !IsProjectOwner(owners[i], c.name)
                && owners[i].uid != c.uid
  }

  /** What is told by its label: durable objects, and as long as removal does not look at them,
      ConfigMaps, the Job and the publication. */
  predicate ByLabel(c: Context, slot: Slot) {
    || IsDurable(slot)
    || ((slot.MapAt? || slot == JobAt || slot == PublicationAt) && (c.spec.powersync.Some? || !Removable(slot)))
  }

  /** An object told by its label that carries another one, or one that something else controls,
      unless it is durable. */
  predicate Others(c: Context, o: Objects, slot: Slot) {
    && MetaAt(o, slot).Some?
    && (|| (ByLabel(c, slot) && LabelOf(MetaAt(o, slot).value.labels, Instance) != c.name)
        || (!IsDurable(slot) && HeldByOther(c, MetaAt(o, slot).value.owners)))
  }

  /** PowerSync is only removed when it is not declared. */
  predicate Fits(c: Context, ph: Phase) { ph.CleanPowerSync? ==> c.spec.powersync.None? && Removable(ph.slot) }

  predicate AllFit(c: Context, plan: seq<Phase>) { forall i :: 0 <= i < |plan| ==> Fits(c, plan[i]) }

  lemma HeldIsRefused(c: Context, m: Meta)
    requires HeldByOther(c, m.owners) && c.name != ""
    ensures WithController(m.owners, Self(c)).None? && !ControlledBy(c, m)
  {
    GroupParses(PROJECT_GROUP, "v1alpha1");
    ControlMeaning(m.owners, Self(c));
    ControlledMeaning(c, m);
    var i :| 0 <= i < |m.owners| && ControllerAt(m.owners, i) && !IsProjectOwner(m.owners[i], c.name)
             && m.owners[i].uid != c.uid;
    hide ParseGroup, WithController, ControlledBy;
    assert forall j :: ControllerAt(m.owners, j) ==> j == i;
  }

  // ---- One object at a time: every helper refuses it, touching nothing -------

  lemma SecretRefused(c: Context, ph: Phase, s: State, role: SecretRole, data: Data)
    requires Others(c, s.o, SecretAt(role)) && c.name != ""
    ensures EnsureSecret(c, ph, s, role, data) == Result(s, Failed)
  {
    HeldIsRefused(c, s.o.secrets[role].meta);
    hide WithController, HeldByOther, ControlledBy, Self;
  }

  lemma MapRefused(c: Context, ph: Phase, s: State, role: MapRole, data: Data)
    requires Others(c, s.o, MapAt(role)) && c.name != ""
    ensures EnsureMap(c, ph, s, role, data) == Result(s, Failed)
  {
    hide WithController, HeldByOther, ControlledBy, Self, MergedLabels, LabelsFor, Removable;
    if HeldByOther(c, s.o.configMaps[role].meta.owners) { HeldIsRefused(c, s.o.configMaps[role].meta); }
  }

  lemma DeploymentRefused(c: Context, ph: Phase, s: State, comp: Component, template: Pods.PodTemplate)
    requires Others(c, s.o, DeploymentAt(comp)) && c.name != ""
    ensures EnsureDeployment(c, ph, s, comp, template) == Result(s, Failed)
  {
    HeldIsRefused(c, s.o.deployments[comp].meta);
    hide WithController, HeldByOther, ControlledBy, Self, DeploymentCurrent;
  }

  lemma ServiceRefused(c: Context, ph: Phase, s: State, comp: Component)
    requires Others(c, s.o, ServiceAt(comp)) && c.name != ""
    ensures EnsureService(c, ph, s, comp) == Result(s, Failed)
  {
    HeldIsRefused(c, s.o.services[comp].meta);
    hide WithController, HeldByOther, ControlledBy, Self;
  }

  lemma CronRefused(c: Context, ph: Phase, s: State, desired: CronSpec)
    requires Others(c, s.o, CronAt) && c.name != ""
    ensures EnsureCron(c, ph, s, desired) == Result(s, Failed)
  {
    HeldIsRefused(c, s.o.cron.value.meta);
    hide WithController, HeldByOther, ControlledBy, Self;
  }

  lemma JobRefused(c: Context, s: State)
    requires Others(c, s.o, JobAt) && c.name != ""
    ensures CheckJob(c, s) == Result(s, Failed)
  {
    hide WithController, HeldByOther, ControlledBy, Self;
    if HeldByOther(c, s.o.job.value.meta.owners) { HeldIsRefused(c, s.o.job.value.meta); }
  }

  lemma PublicationRefused(c: Context, s: State)
    requires Others(c, s.o, PublicationAt) && c.name != ""
    ensures AwaitPublication(c, s) == Result(s, Failed)
  {
    hide WithController, HeldByOther, ControlledBy, Self, MergedLabels, LabelsFor, Removable, DesiredPublication;
    if HeldByOther(c, s.o.publication.value.meta.owners) { HeldIsRefused(c, s.o.publication.value.meta); }
  }

  lemma RemovalRefused(c: Context, ph: Phase, s: State, slot: Slot)
    requires Others(c, s.o, slot) && !ByLabel(c, slot) && !slot.SecretAt? && c.name != ""
    ensures DeleteOwned(c, ph, s, slot).state == s
  {
    HeldIsRefused(c, PowerSyncMeta(s.o, slot).value);
    hide WithController, HeldByOther, ControlledBy, Self;
  }

  lemma ProtectRefused(c: Context, s: State, d: Durable)
    requires Others(c, s.o, SlotOf(d))
    ensures ProtectOne(c, s, d).state == s
  {
    hide HeldByOther, WithoutProject;
  }

  lemma CleaningRefused(c: Context, ph: Phase, s: State, d: Durable, t: ConditionType, without: Objects)
    requires Others(c, s.o, SlotOf(d))
    ensures CleanDurable(c, ph, s, d, t, without).state == s
  {
    hide HeldByOther;
  }

  lemma StoreRefused(c: Context, ph: Phase, s: State, d: Durable, spec: StoreSpec)
    requires Others(c, s.o, SlotOf(d)) && (d.DurableBackup? || d.DurableRecovery?)
    ensures EnsureStore(c, ph, s, d, spec).state == s
  {
    hide HeldByOther, Repaired;
  }

  lemma ScheduleRefused(c: Context, ph: Phase, s: State, spec: ScheduleSpec)
    requires Others(c, s.o, ScheduleAt)
    ensures EnsureSchedule(c, ph, s, spec).state == s
  {
    hide HeldByOther, Repaired;
  }

  lemma ClusterRefused(c: Context, s: State)
    requires Others(c, s.o, ClusterAt)
    ensures MakeCluster(c, s).state == s
  {
    hide HeldByOther, IntentChanged, MergeCluster, Desired;
  }

  // ---- One phase ------------------------------------------------------------

  /** Reports of failure change no object. */
  lemma FailuresKeepObjects(c: Context)
    ensures forall ph, s, reason {:trigger FailSecrets(c, ph, s, reason)} ::
        FailSecrets(c, ph, s, reason).state.o == s.o
    ensures forall ph, s, t, reason {:trigger FailWith(c, ph, s, t, reason)} ::
        FailWith(c, ph, s, t, reason).state.o == s.o
    ensures forall ph, s {:trigger FailCore(c, ph, s)} :: FailCore(c, ph, s).state.o == s.o
    ensures forall s, x, reason {:trigger FailComponent(c, s, x, reason)} ::
        FailComponent(c, s, x, reason).state.o == s.o && FailComponent(c, s, x, reason).outcome == Failed
    ensures forall ph, s, t, reason {:trigger Wait(c, ph, s, t, reason)} :: Wait(c, ph, s, t, reason).state.o == s.o
  {
    hide SetCondition;
  }

  lemma StoreSpared(c: Context, s: State, ph: Phase, slot: Slot)
    requires Others(c, s.o, slot)
    requires (ph == BackupStore && slot == BackupAt) || (ph == RecoveryStore && slot == RecoveryAt)
    ensures Step(c, s, ph).state.o == s.o
  {
    hide Step, EnsureStore, FailWith, Others, BackupSpecOf, RecoverySpecOf, BackupDeclared, RecoveryDeclared;
    StepStores(c, s);
    if ph == BackupStore {
      var x := BackupSpecOf(BackupDeclared(c));
      StoreRefused(c, ph, s, DurableBackup, x);
      FailKeeps(c, ph, EnsureStore(c, ph, s, DurableBackup, x), BackupReady, ObjectStoreFailed);
    } else {
      var x := RecoverySpecOf(RecoveryDeclared(c));
      StoreRefused(c, ph, s, DurableRecovery, x);
      FailKeeps(c, ph, EnsureStore(c, ph, s, DurableRecovery, x), RecoveryReady, ObjectStoreFailed);
    }
  }

  lemma ScheduleSpared(c: Context, s: State)
    requires Others(c, s.o, ScheduleAt)
    ensures Step(c, s, BackupSchedule).state.o == s.o
  {
    hide Step, EnsureSchedule, FailWith, Others, ScheduleOf, BackupDeclared;
    StepSchedule(c, s);
    var x := ScheduleOf(c, BackupDeclared(c));
    ScheduleRefused(c, BackupSchedule, s, x);
    FailKeeps(c, BackupSchedule, EnsureSchedule(c, BackupSchedule, s, x), BackupReady, ScheduledBackupFailed);
  }

  lemma DurableSpared(c: Context, s: State, ph: Phase, slot: Slot)
    requires Others(c, s.o, slot) && IsDurable(slot) && Writes(ph, slot)
    ensures Step(c, s, ph).state.o == s.o
  {
    hide Step, ProtectOne, CleanDurable, MakeCluster, FailWith, Others;
    match ph {
      case Protect(d) => StepProtect(c, s, d); ProtectRefused(c, s, d);
      case EnsureCluster => StepCluster(c, s); ClusterRefused(c, s);
      case BackupStore => StoreSpared(c, s, ph, slot);
      case RecoveryStore => StoreSpared(c, s, ph, slot);
      case BackupSchedule => ScheduleSpared(c, s);
      case CleanSchedule =>
        StepCleaning(c, s);
        CleaningRefused(c, ph, s, DurableSchedule, BackupReady, s.o.(schedule := None));
      case CleanBackupStore =>
        StepCleaning(c, s);
        CleaningRefused(c, ph, s, DurableBackup, BackupReady, s.o.(backup := None));
      case CleanRecoveryStore =>
        StepCleaning(c, s);
        CleaningRefused(c, ph, s, DurableRecovery, RecoveryReady, s.o.(recovery := None));
    }
  }

  lemma SecretSpared(c: Context, s: State, ph: Phase, role: SecretRole)
    requires Others(c, s.o, SecretAt(role)) && Writes(ph, SecretAt(role)) && c.name != ""
    ensures SameSlot(s.o, Step(c, s, ph).state.o, SecretAt(role))
  {
    hide Step, EnsureSecret, FailSecrets, FailWith, Others, MakeRoleSecrets;
    FailuresKeepObjects(c);
    match ph {
      case ImplementationSecret(_) =>
        StepSecret(c, s, role);
        SecretRefused(c, ph, s, role, c.k.generate(role, c.seed));
      case PsTokenSecret =>
        StepToken(c, s);
        SecretRefused(c, ph, s, PsToken, c.k.generate(PsToken, c.seed));
      case EmailHookSecret =>
        StepHook(c, s);
        ReportsKeepObjects(c);
        HookIsThere(c, s.o);
        hide MarkAndSave;
      case PsRoleSecrets => StepRoleSecrets(c, s); RoleSecretSpared(c, s, role);
    }
  }

  lemma HookIsThere(c: Context, o: Objects)
    requires Others(c, o, SecretAt(EmailHook))
    ensures EmailHook in o.secrets
  {
    hide HeldByOther;
  }

  lemma RoleSecretSpared(c: Context, s: State, role: SecretRole)
    requires Others(c, s.o, SecretAt(role)) && (role == PsStorage || role == PsReplication) && c.name != ""
    ensures SameSlot(s.o, MakeRoleSecrets(c, s).state.o, SecretAt(role))
  {
    hide EnsureSecret, FailSecrets, MarkAndSave, Others;
    FailuresKeepObjects(c);
    ReportsKeepObjects(c);
    if role == PsStorage {
      SecretRefused(c, PsRoleSecrets, s, PsStorage, c.k.generate(PsStorage, c.seed));
    } else {
      var t := EnsureSecret(c, PsRoleSecrets, s, PsStorage, c.k.generate(PsStorage, c.seed)).state;
      OtherSecretKept(c, s);
      OthersAgrees(c, s.o, t.o, SecretAt(PsReplication));
      SecretRefused(c, PsRoleSecrets, t, PsReplication, c.k.generate(PsReplication, c.seed));
    }
  }

  lemma OtherSecretKept(c: Context, s: State)
    ensures SameKey(s.o.secrets,
                    EnsureSecret(c, PsRoleSecrets, s, PsStorage, c.k.generate(PsStorage, c.seed)).state.o.secrets,
                    PsReplication)
  {
    hide WithController, OwnedMeta, Self;
  }

  lemma OthersAgrees(c: Context, a: Objects, b: Objects, slot: Slot)
    requires SameSlot(a, b, slot) && Others(c, a, slot)
    ensures Others(c, b, slot)
  {
    hide HeldByOther;
  }

  lemma MapSpared(c: Context, s: State, ph: Phase, role: MapRole)
    requires Others(c, s.o, MapAt(role)) && Writes(ph, MapAt(role)) && Fits(c, ph) && c.name != ""
    ensures SameSlot(s.o, Step(c, s, ph).state.o, MapAt(role))
  {
    hide Step, EnsureMap, FailWith, Others, FailCore, FailComponent, MakeComponent, CoreTemplate, JwksData, ScriptData,
         RulesData, DeleteOwned, EnvValid;
    FailuresKeepObjects(c);
    match ph {
      case InitSqlMap => StepInitSql(c, s); MapRefused(c, ph, s, role, c.k.mapData(c.name, c.spec, InitSql));
      case JwksMap => StepJwks(c, s); MapRefused(c, ph, s, role, JwksData(c));
      case Serve(comp) =>
        StepServe(c, s, comp);
        MapRefused(c, ph, s, role, c.k.mapData(c.name, c.spec, EnvoyConfig));
      case CdcMap => StepCdcMap(c, s); MapRefused(c, ph, s, role, ScriptData(c));
      case PsConfigMap => StepPsConfig(c, s); MapRefused(c, ph, s, role, c.k.mapData(c.name, c.spec, PsConfig));
      case PsRulesMap => StepPsRules(c, s); MapRefused(c, ph, s, role, RulesData(c));
      case CleanPowerSync(slot) => StepRemoval(c, s, slot); RemovalRefused(c, ph, s, slot);
    }
  }

  lemma ServeSpared(c: Context, s: State, comp: Component)
    requires c.name != ""
    ensures Others(c, s.o, DeploymentAt(comp)) ==>
              SameSlot(s.o, ServeComponent(c, s, comp).state.o, DeploymentAt(comp))
    ensures Others(c, s.o, ServiceAt(comp)) ==> SameSlot(s.o, ServeComponent(c, s, comp).state.o, ServiceAt(comp))
  {
    hide EnsureDeployment, EnsureService, FailCore, FailComponent, CoreTemplate, PrepareComponent, ReportComponent,
         Others;
    FailuresKeepObjects(c);
    var p := PrepareComponent(c, s, comp).state;
    PrepareKeeps(c, s, comp);
    if CoreTemplate(c, p, comp).Some? {
      var template := CoreTemplate(c, p, comp).value;
      if Others(c, s.o, DeploymentAt(comp)) {
        OthersAgrees(c, s.o, p.o, DeploymentAt(comp));
        DeploymentRefused(c, Serve(comp), p, comp, template);
      }
      if Others(c, s.o, ServiceAt(comp)) {
        var d := EnsureDeployment(c, Serve(comp), p, comp, template).state;
        Settling.DeploymentObjects(c, Serve(comp), p, comp, template);
        OthersAgrees(c, s.o, d.o, ServiceAt(comp));
        ServiceRefused(c, Serve(comp), d, comp);
      }
    }
  }

  lemma PrepareKeeps(c: Context, s: State, comp: Component)
    ensures var o := PrepareComponent(c, s, comp).state.o;
            o.deployments == s.o.deployments && o.services == s.o.services
  {
    hide WithController, MergedLabels, FailComponent, Ours, Self, OwnedMeta, LabelsFor, EnvValid;
    FailuresKeepObjects(c);
  }

  lemma WorkloadSpared(c: Context, s: State, ph: Phase, slot: Slot)
    requires Others(c, s.o, slot) && Writes(ph, slot) && c.name != "" && (slot.DeploymentAt? || slot.ServiceAt?)
    ensures SameSlot(s.o, Step(c, s, ph).state.o, slot)
  {
    hide Step, EnsureDeployment, EnsureService, FailWith, Others, PowerSyncTemplate, DeleteOwned, ServeComponent;
    FailuresKeepObjects(c);
    match ph {
      case Serve(comp) => StepServe(c, s, comp); ServeSpared(c, s, comp);
      case PsApiDeployment =>
        StepPsDeployments(c, s);
        DeploymentRefused(c, ph, s, PsApi, PowerSyncTemplate(c, s, PsApi));
      case PsReplicatorDeployment =>
        StepPsDeployments(c, s);
        DeploymentRefused(c, ph, s, PsReplicator, PowerSyncTemplate(c, s, PsReplicator));
      case PsApiService => StepPsService(c, s); ServiceRefused(c, ph, s, PsApi);
      case CleanPowerSync(_) => StepRemoval(c, s, slot); RemovalRefused(c, ph, s, slot);
    }
  }

  lemma LastSpared(c: Context, s: State, ph: Phase, slot: Slot)
    requires Others(c, s.o, slot) && Writes(ph, slot) && Fits(c, ph) && c.name != ""
    requires slot == JobAt || slot == CronAt || slot == PublicationAt
    ensures SameSlot(s.o, Step(c, s, ph).state.o, slot)
  {
    hide Step, CheckJob, AwaitPublication, EnsureCron, FailWith, Wait, Others, DeleteOwned;
    FailuresKeepObjects(c);
    match ph {
      case CdcJob => StepJob(c, s); JobRefused(c, s);
      case PublicationGate => StepPublication(c, s); PublicationRefused(c, s);
      case PsCompact =>
        StepCompact(c, s);
        CronRefused(c, ph, s, c.k.cron(c.name, c.spec, s.memory.names));
        RemovalRefused(c, ph, s, slot);
      case CleanPowerSync(_) => StepRemoval(c, s, slot); RemovalRefused(c, ph, s, slot);
    }
  }

  lemma StepSpares(c: Context, s: State, ph: Phase, slot: Slot)
    requires Others(c, s.o, slot) && Fits(c, ph) && c.name != ""
    ensures SameSlot(s.o, Step(c, s, ph).state.o, slot)
  {
    hide Step, Others, Writes, SameSlot;
    if !Writes(ph, slot) {
      StepKeeps(c, s, ph, slot);
    } else if IsDurable(slot) {
      DurableSpared(c, s, ph, slot);
      SameAsItself(s.o, slot);
    } else {
      match slot {
        case SecretAt(role) => SecretSpared(c, s, ph, role);
        case MapAt(role) => MapSpared(c, s, ph, role);
        case DeploymentAt(_) => WorkloadSpared(c, s, ph, slot);
        case ServiceAt(_) => WorkloadSpared(c, s, ph, slot);
        case _ => LastSpared(c, s, ph, slot);
      }
    }
  }

  // ---- Whole passes ---------------------------------------------------------

  lemma {:induction false} RunSpares(c: Context, s: State, plan: seq<Phase>, slot: Slot)
    requires Others(c, s.o, slot) && c.name != "" && AllFit(c, plan)
    ensures SameSlot(s.o, Run(c, s, plan).state.o, slot)
    decreases |plan|
  {
    hide Step, Others, SameSlot, Fits;
    if plan == [] {
      SameAsItself(s.o, slot);
    } else {
      StepSpares(c, s, plan[0], slot);
      var r := Step(c, s, plan[0]);
      if r.outcome == Next {
        OthersAgrees(c, s.o, r.state.o, slot);
        RunSpares(c, r.state, plan[1..], slot);
        SlotsCompose(s.o, r.state.o, Run(c, r.state, plan[1..]).state.o, slot);
      }
    }
  }

  lemma PlanFits(c: Context)
    ensures AllFit(c, Plan(c))
  {
    hide Plan, Removable;
    PlanInOrder(c);
  }

  /** Whatever is declared and whatever fails: no pass takes over, changes or deletes an object
      told by its label that carries another instance label, or one that is not durable under
      another controller. */
  lemma OthersAreSpared(c: Context, o: Objects, status: Status, slot: Slot)
    requires Others(c, o, slot) && c.name != ""
    ensures SameSlot(o, Pass(c, o, status).state.o, slot)
  {
    hide Run, Others, SameSlot, Plan;
    PassIs(c, o, status);
    PlanFits(c);
    RunSpares(c, Begin(o, status), Plan(c), slot);
  }
}
