/** Where every pass ends, read off the world: at the first planned phase that the
    declaration and the objects do not let go on. And what that makes of Ready. */
module Endings {
  import opened Kube
  import opened Pods
  import opened Clusters
  import opened World
  import opened Operator
  import opened Steps
  import opened Frames
  import opened Durables
  import opened Gates
  import opened Chain
  import opened Settled
  import opened Keeping
  import opened Ordering
  import opened Settling
  import opened Idempotence
  import opened Progress
  import opened Arrivals

  // ---- What a phase needs of the world --------------------------------------

  /** The Cluster is the project's, carries its labels, and has every field that is merged as declared. */
  predicate ClusterCurrent(c: Context, o: Objects) {
    && o.cluster.Some? && Ours(c, o.cluster.value.meta)
    && MergedLabels(o.cluster.value.meta.labels, LabelsFor(c, ClusterAt)) == o.cluster.value.meta.labels
    && MergeCluster(c.k.quantity, o.cluster.value.spec, Desired(c, FinalNames(c))).Merged?
    && !MergeCluster(c.k.quantity, o.cluster.value.spec, Desired(c, FinalNames(c))).changed
  }

  /** The objects with the hook secret this pass would create. */
  function WithHook(c: Context, o: Objects): Objects {
    if c.spec.emailHook && EmailHook !in o.secrets
    then o.(secrets := o.secrets[EmailHook := Secret(OwnedMeta(c, SecretAt(EmailHook)),
        c.k.generate(EmailHook, c.seed))]) else o
  }

  function NamedStatus(c: Context): Status { FRESH_STATUS.(names := FinalNames(c)) }

  /** The template a core component gets in this pass. */
  function ServedTemplate(c: Context, o: Objects, comp: Component): Option<PodTemplate> {
    TemplateFor(c, WithHook(c, o), NamedStatus(c), comp)
  }

  /** A Deployment as a pass leaves it. */
  function Updated(c: Context, x: Deployment, comp: Component, template: PodTemplate): Deployment {
    if WithController(x.meta.owners, Self(c)).None? || DeploymentCurrent(c, x, comp, template) then x
    else UpdatedDeployment(c, x, comp, template)
  }

  /** The Deployment is there, and rolled out even after this pass updated it. */
  predicate DeploymentUp(c: Context, o: Objects, comp: Component, template: PodTemplate) {
    comp in o.deployments && RolledOut(Updated(c, o.deployments[comp], comp, template))
  }

  predicate UpAs(c: Context, o: Objects, comp: Component, template: Option<PodTemplate>) {
    template.Some? && DeploymentUp(c, o, comp, template.value)
  }

  predicate ComponentUp(c: Context, o: Objects, comp: Component) { UpAs(c, o, comp, ServedTemplate(c, o, comp)) }

  predicate CoreUp(c: Context, o: Objects) { forall comp | IsCore(comp) :: ComponentUp(c, o, comp) }

  predicate WorkloadUp(c: Context, o: Objects, comp: Component) {
    DeploymentUp(c, o, comp, PsTemplateFor(c, o, NamedStatus(c), comp))
  }

  predicate PowerSyncUp(c: Context, o: Objects) { WorkloadUp(c, o, PsApi) && WorkloadUp(c, o, PsReplicator) }

  /** What a phase needs in order to go on: valid inputs, and the world as it has to be. */
  predicate Lets(c: Context, o: Objects, ph: Phase) {
    Valid(c, ph) &&
    match ph
    case ValidateBootstrap => !ChangesOrigin(c, o)
    case EnsureCluster => ClusterCurrent(c, o)
    case WaitForDatabase => DatabaseUp(o)
    case CoreGate => CoreUp(c, o)
    case RolesGate => RolesUp(o)
    case PublicationGate => PublicationKept(c, o)
    case CdcJob => CurrentJobDone(c, o)
    case PsReady => PowerSyncUp(c, o)
    case _ => true
  }

  /** The first phase that is not let on. */
  function FirstHeld(c: Context, o: Objects, plan: seq<Phase>): Option<Phase> {
    if plan == [] then None else if Lets(c, o, plan[0]) then FirstHeld(c, o, plan[1..]) else Some(plan[0])
  }

  lemma {:induction false} FirstHeldConcat(c: Context, o: Objects, a: seq<Phase>, b: seq<Phase>)
    requires forall ph :: ph in a ==> Lets(c, o, ph)
    ensures FirstHeld(c, o, a + b) == FirstHeld(c, o, b)
    decreases |a|
  {
    hide Lets;
    if a == [] {
      assert a + b == b;
    } else {
      assert a[0] in a && (a + b)[0] == a[0] && (a + b)[1..] == a[1..] + b;
      FirstHeldConcat(c, o, a[1..], b);
    }
  }

  // ---- One phase at a time --------------------------------------------------

  lemma FailsComponent(c: Context, s: State)
    ensures forall ph, t {:trigger FailCore(c, ph, t)} :: FailCore(c, ph, t).outcome == Failed
    ensures forall t, comp, reason {:trigger FailComponent(c, t, comp, reason)} ::
        FailComponent(c, t, comp, reason).outcome == Failed
  {
  }

  /** A phase whose inputs are not valid does not go on. */
  lemma InvalidHolds(c: Context, s: State, ph: Phase)
    requires Healthy(c) && !IsGate(ph) && !Valid(c, ph)
    ensures Step(c, s, ph).outcome != Next
  {
    hide Step, CheckS3, S3Present, EnvValid, EnvReadable, CoreTemplate, MakeComponent, FailSecrets, FailWith,
         FailComponent, FailCore, Rules, DesiredPublication, BackupDeclared, RecoveryDeclared;
    FailsSecrets(c, s);
    FailsWith(c, s);
    FailsComponent(c, s);
    match ph {
      case CheckCredentials => StepCredentials(c, s);
      case BackupCredentials =>
        StepStorageCredentials(c, s);
        CheckS3Goes(c, ph, s, BackupDeclared(c).s3.credentials, BackupReady);
      case RecoveryCredentials =>
        StepStorageCredentials(c, s);
        CheckS3Goes(c, ph, s, RecoveryDeclared(c).s3.credentials, RecoveryReady);
      case Serve(comp) => StepServe(c, s, comp); if EnvValid(c) { EnvSettles(c); }
      case RulesGate => StepRules(c, s);
      case CdcMap => StepCdcMap(c, s);
    }
  }

  /** The bootstrap check goes on for an unchanged origin, else it withdraws DatabaseReady. */
  lemma BootstrapLets(c: Context, s: State, o: Objects)
    requires Healthy(c)
    ensures s.memory.names == FinalNames(c) && SameClusterSpec(o, s.o) && SameRecoverySpec(o, s.o)
        ==> (CheckBootstrap(c, s).outcome == Next <==> !ChangesOrigin(c, o))
    ensures if CheckBootstrap(c, s).outcome == Next then CheckBootstrap(c, s).state == s
            else !IsTrue(CheckBootstrap(c, s).state.saved, DatabaseReady)
  {
    hide IntentChanged, Built, SameLocation;
    if s.o.cluster.Some? { IntentReadsAdmin(c, s.o.cluster.value.spec, FinalNames(c), NamesFor(c, NoSecret)); }
  }

  /** The spec of a Cluster whose origin was validated. */
  predicate Validated(c: Context, x: Option<Cluster>) {
    x.Some? ==> !IntentChanged(x.value.spec, Built(c, FinalNames(c)))
  }

  lemma ClusterLets(c: Context, s: State, o: Objects)
    requires Healthy(c) && DefaultsKeep(c) && s.memory.names == FinalNames(c)
    requires s.o.cluster == ProtectedCluster(c, o.cluster) && Validated(c, s.o.cluster)
    ensures MakeCluster(c, s).outcome == Next <==> ClusterCurrent(c, o)
  {
    hide IntentChanged, Built, Desired, MergeCluster, FailWith, DefaultsKeep, FinalNames, NewCluster, SetCondition,
         RejectReason, WithoutProject, MergedLabels;
    FailsWith(c, s);
    if s.o.cluster.Some? {
      var x := s.o.cluster.value;
      DefaultsIntent(c, x.spec);
      WithoutProjectIdempotent(o.cluster.value.meta.owners, c.name);
    }
  }

  /** The waits go on when the objects are ready, and change none otherwise. */
  lemma WaitsLet(c: Context, s: State)
    requires Healthy(c)
    ensures AwaitDatabase(c, s).outcome == Next <==> DatabaseUp(s.o)
    ensures GateCore(c, s).outcome == Next <==> CoreReady(s.memory)
    ensures AwaitRoles(c, s).outcome == Next <==> RolesUp(s.o)
    ensures AwaitPowerSync(c, s).outcome == Next <==> Observed(s.o, PsApi).ready && Observed(s.o, PsReplicator).ready
    ensures AwaitDatabase(c, s).state.o == GateCore(c, s).state.o == AwaitRoles(c, s).state.o
        == AwaitPowerSync(c, s).state.o == s.o
    ensures Finished(c, s).state.o == s.o
  {
    hide SetCondition, DatabaseOf, CoreReady, RolesBlocked, RolesReconciled, Observed;
  }

  lemma SameDatabase(c: Context, s: State, o: Objects)
    ensures s.o.cluster == ProtectedCluster(c, o.cluster)
        ==> DatabaseUp(s.o) == DatabaseUp(o) && RolesUp(s.o) == RolesUp(o)
  {
    hide WithoutProject, Ours;
  }

  lemma PublicationLets(c: Context, s: State)
    requires Healthy(c)
    ensures AwaitPublication(c, s).outcome == Next <==> PublicationKept(c, s.o)
  {
    hide SetCondition, UpdatedPublication, DesiredPublication, OwnedMeta;
  }

  lemma JobLets(c: Context, s: State)
    requires Healthy(c) && CleanSlot(c, s.o, JobAt)
    ensures AwaitJob(c, s).outcome == Next <==> CurrentJobDone(c, s.o)
  {
    hide WithController, MergedLabels, ScriptHash, HashOf, Verdict, LabelsFor, Self, Ours, FailWith, SetCondition;
    FailsWith(c, s);
  }

  // ---- What is observed of a Deployment -------------------------------------

  lemma EnsureObserved(c: Context, ph: Phase, s: State, comp: Component, template: PodTemplate)
    requires Healthy(c) && EnsureDeployment(c, ph, s, comp, template).outcome == Next
    ensures Observed(EnsureDeployment(c, ph, s, comp, template).state.o, comp).ready
        == DeploymentUp(c, s.o, comp, template)
  {
    hide WithController, DeploymentCurrent, UpdatedDeployment, Self, StrategyOf;
  }

  /** What depends on one Deployment only. */
  lemma UpReads(c: Context, a: Objects, b: Objects, comp: Component)
    requires SameSlot(a, b, DeploymentAt(comp)) || a.deployments == b.deployments
    ensures forall template :: DeploymentUp(c, a, comp, template) == DeploymentUp(c, b, comp, template)
    ensures Observed(a, comp) == Observed(b, comp)
  {
    hide Updated, RolledOut;
  }

  lemma PreparedObjects(c: Context, s: State, comp: Component)
    requires PrepareComponent(c, s, comp).outcome == Next
    ensures var p := PrepareComponent(c, s, comp).state;
            p.memory == s.memory && p.o.deployments == s.o.deployments
                && CoreTemplate(c, p, comp) == CoreTemplate(c, s, comp)
  {
    hide EnsureMap, EnvValid, SetCondition, CoreTemplate, TemplateFor;
    var data := c.k.mapData(c.name, c.spec, EnvoyConfig);
    MapObjects(c, Serve(Gateway), s, EnvoyConfig, data);
    EnsureMapSilent(c, Serve(Gateway), s, EnvoyConfig, data);
    var p := PrepareComponent(c, s, comp).state;
    TemplateReads(c, s, comp, p.o, p.memory);
    TemplateReads(c, p, comp, p.o, p.memory);
  }

  lemma MakeObserved(c: Context, s: State, comp: Component, template: PodTemplate)
    requires Healthy(c) && MakeComponent(c, s, comp, template).outcome == Next
    ensures Observed(MakeComponent(c, s, comp, template).state.o, comp).ready == DeploymentUp(c, s.o, comp, template)
  {
    hide EnsureDeployment, EnsureService, FailWith, DeploymentUp, Observed, SetCondition, Healthy;
    FailsWith(c, s);
    EnsureObserved(c, Serve(comp), s, comp, template);
    var d := EnsureDeployment(c, Serve(comp), s, comp, template);
    if d.outcome == Next {
      var v := EnsureService(c, Serve(comp), d.state, comp);
      ServiceObjects(c, Serve(comp), d.state, comp);
      UpReads(c, d.state.o, v.state.o, comp);
    }
  }

  /** Serving a component leaves it as observed exactly when it is up. */
  lemma ServeObserved(c: Context, s: State, comp: Component)
    requires Healthy(c) && ServeComponent(c, s, comp).outcome == Next
    ensures Observed(ServeComponent(c, s, comp).state.o, comp).ready == UpAs(c, s.o, comp, CoreTemplate(c, s, comp))
  {
    hide PrepareComponent, CoreTemplate, MakeComponent, FailCore, Observed, DeploymentUp, Healthy;
    FailsComponent(c, s);
    if PrepareComponent(c, s, comp).outcome == Next {
      var p := PrepareComponent(c, s, comp).state;
      PreparedObjects(c, s, comp);
      if CoreTemplate(c, p, comp).Some? && MakeComponent(c, p, comp, CoreTemplate(c, p, comp).value).outcome == Next {
        MakeObserved(c, p, comp, CoreTemplate(c, p, comp).value);
        UpReads(c, s.o, p.o, comp);
      }
    }
  }

  // ---- Along a pass ---------------------------------------------------------

  lemma HookMade(c: Context, s: State, o: Objects)
    requires MakeHook(c, s).outcome == Next && SameSlot(o, s.o, SecretAt(EmailHook))
    ensures c.spec.emailHook ==> SameSlot(WithHook(c, o), MakeHook(c, s).state.o, SecretAt(EmailHook))
  {
    hide FailSecrets, WithController, OwnedMeta, SetCondition;
    FailsSecrets(c, s);
  }

  /** Who writes what the gates look at. */
  lemma Writers(c: Context)
    ensures WriterOf(c, SecretAt(EmailHook)) == EmailHookSecret
    ensures forall comp :: IsCore(comp) ==> WriterOf(c, DeploymentAt(comp)) == Serve(comp)
    ensures c.spec.powersync.Some? ==> WriterOf(c, DeploymentAt(PsApi)) == PsApiDeployment
                                       && WriterOf(c, DeploymentAt(PsReplicator)) == PsReplicatorDeployment
                                       && WriterOf(c, JobAt) == CdcJob && !Planned(c, WriterOf(c, PublicationAt))
    ensures forall slot ::
        IsDurable(slot) ==> !slot.SecretAt? && !slot.DeploymentAt? && !slot.JobAt? && !slot.PublicationAt?
  {
    hide BackupEnabled, RecoveryEnabled;
  }

  lemma TemplateIs(c: Context, o: Objects, s: State, comp: Component)
    requires s.memory.names == FinalNames(c)
        && (c.spec.emailHook ==> SameSlot(WithHook(c, o), s.o, SecretAt(EmailHook)))
    ensures CoreTemplate(c, s, comp) == ServedTemplate(c, o, comp)
  {
    hide NamesFor, WithHook, Bundle, HookName;
  }

  /** At the core gate, a component is reported ready exactly when it is up. */
  lemma ComponentAtGate(c: Context, o: Objects, status: Status, before: seq<Phase>, s: State, comp: Component)
    requires Healthy(c) && Faithful(c.k) && Arrives(c, o, status, before, CoreGate, s) && IsCore(comp)
    ensures ServiceOf(s.memory, comp).ready == ComponentUp(c, o, comp)
  {
    hide Arrives, Step, Rank, Planned, WriterOf, DeploymentUp, Observed, ServedTemplate, CoreTemplate, Served,
         Healthy, Faithful, SameSlot, FinalNames, WithHook, IsDurable, Stable, IsCore, MakeHook, ServeComponent;
    assert WriterOf(c, DeploymentAt(comp)) == Serve(comp) && !IsDurable(DeploymentAt(comp)) by { Writers(c); }
    assert WriterOf(c, SecretAt(EmailHook)) == EmailHookSecret && !IsDurable(SecretAt(EmailHook)) by { Writers(c); }
    assert 80 <= Rank(Serve(comp)) < Rank(CoreGate) && Rank(EmailHookSecret) == 30 by { Ranks(); }
    assert Planned(c, Serve(comp)) && Planned(c, EmailHookSecret) by { PlannedPhases(c); }
    ArrivalPlanned(c, o, status, before, CoreGate, s);
    var early, t := ArrivalWritten(c, o, status, before, CoreGate, s, DeploymentAt(comp));
    ArrivalKnows(c, o, status, early, Serve(comp), t);
    if c.spec.emailHook {
      ArrivalPlanned(c, o, status, early, Serve(comp), t);
      var first, u := ArrivalWritten(c, o, status, early, Serve(comp), t, SecretAt(EmailHook));
      StepHook(c, u);
      HookMade(c, u, o);
      SlotTrans(WithHook(c, o), MakeHook(c, u).state.o, t.o, SecretAt(EmailHook));
    }
    TemplateIs(c, o, t, comp);
    StepServe(c, t, comp);
    ServeObserved(c, t, comp);
    UpReads(c, o, t.o, comp);
    UpReads(c, ServeComponent(c, t, comp).state.o, s.o, comp);
    ArrivalStable(c, o, status, before, CoreGate, s, Serve(comp));
    Settled.StableServe(c, s.o, s.memory, comp);
    ServedIsObserved(c, s.o, s.memory, comp);
  }

  lemma ServedIsObserved(c: Context, o: Objects, m: Status, comp: Component)
    ensures Served(c, o, m, comp) ==> ServiceOf(m, comp) == Observed(o, comp)
  {
    hide TemplateFor, DeploymentKept, ServiceKept, MapKept, EnvReadable, Observed, Marked, ConditionOf;
  }

  lemma CoreAtGate(c: Context, o: Objects, status: Status, before: seq<Phase>, s: State)
    requires Healthy(c) && Faithful(c.k) && Arrives(c, o, status, before, CoreGate, s)
    ensures CoreReady(s.memory) == CoreUp(c, o)
  {
    hide Arrives, Healthy, Faithful, ServiceOf, ComponentUp;
    forall comp | IsCore(comp) ensures ServiceOf(s.memory, comp).ready == ComponentUp(c, o, comp) {
      ComponentAtGate(c, o, status, before, s, comp);
    }
    assert CoreReady(s.memory) ==> forall comp | IsCore(comp) :: ServiceOf(s.memory, comp).ready;
  }

  lemma PsTemplateIs(c: Context, o: Objects, s: State, comp: Component)
    requires s.memory.names == FinalNames(c)
    ensures PowerSyncTemplate(c, s, comp) == PsTemplateFor(c, o, NamedStatus(c), comp)
  {
    hide NamesFor, Rules, HookName;
  }

  /** At the last wait, a PowerSync workload is observed ready exactly when it is up. */
  lemma WorkloadAtEnd(c: Context, o: Objects, status: Status, before: seq<Phase>, s: State, ph: Phase, comp: Component)
    requires Healthy(c) && Faithful(c.k) && Arrives(c, o, status, before, PsReady, s) && c.spec.powersync.Some?
    requires (ph == PsApiDeployment && comp == PsApi) || (ph == PsReplicatorDeployment && comp == PsReplicator)
    ensures Observed(s.o, comp).ready == WorkloadUp(c, o, comp)
  {
    hide Arrives, Step, Rank, Planned, WriterOf, DeploymentUp, Observed, Healthy, Faithful, SameSlot, FinalNames,
         IsDurable, PowerSyncTemplate, PsTemplateFor, EnsureDeployment, FailWith;
    Writers(c);
    Ranks();
    PlannedKinds(c);
    ArrivalPlanned(c, o, status, before, PsReady, s);
    var early, t := ArrivalWritten(c, o, status, before, PsReady, s, DeploymentAt(comp));
    ArrivalKnows(c, o, status, early, ph, t);
    PsTemplateIs(c, o, t, comp);
    var template := PowerSyncTemplate(c, t, comp);
    FailsWith(c, t);
    StepPsDeployments(c, t);
    EnsureObserved(c, ph, t, comp, template);
    UpReads(c, o, t.o, comp);
    UpReads(c, EnsureDeployment(c, ph, t, comp, template).state.o, s.o, comp);
  }

  lemma WorkloadsAtEnd(c: Context, o: Objects, status: Status, before: seq<Phase>, s: State)
    requires Healthy(c) && Faithful(c.k) && Arrives(c, o, status, before, PsReady, s) && c.spec.powersync.Some?
    ensures (Observed(s.o, PsApi).ready && Observed(s.o, PsReplicator).ready) == PowerSyncUp(c, o)
  {
    hide Arrives, Healthy, Faithful, Observed, WorkloadUp;
    WorkloadAtEnd(c, o, status, before, s, PsApiDeployment, PsApi);
    WorkloadAtEnd(c, o, status, before, s, PsReplicatorDeployment, PsReplicator);
  }

  // ---- The gates ------------------------------------------------------------

  lemma EarlyBefore(c: Context, before: seq<Phase>)
    ensures (forall q :: q in before ==> Rank(q) < 61) ==> Early(before)
  {
  }

  lemma ArrivalValidated(c: Context, o: Objects, status: Status, before: seq<Phase>, ph: Phase, s: State)
    requires Faithful(c.k) && Arrives(c, o, status, before, ph, s) && Rank(ph) > 40
    ensures Validated(c, s.o.cluster)
  {
    hide Faithful, Arrives, Stable, Rank, Planned, FinalNames, IntentChanged, Built, ClusterKept, DatabaseKept;
    GateRanks();
    PlannedPhases(c);
    ArrivalStable(c, o, status, before, ph, s, ValidateBootstrap);
    ArrivalKnows(c, o, status, before, ph, s);
    Settled.StableCluster(c, s.o, s.memory);
  }

  /** What the gates of PowerSync look at. */
  lemma GrantsRead(c: Context, a: Objects, b: Objects)
    ensures SameSlot(a, b, PublicationAt)
        ==> PublicationKept(c, a) == PublicationKept(c, b) && PublicationAwaited(c, a) == PublicationAwaited(c, b)
    ensures SameSlot(a, b, JobAt) ==> a.job == b.job && CurrentJobDone(c, a) == CurrentJobDone(c, b)
  {
    hide UpdatedPublication, DesiredPublication, PublicationApplied, HashOf, ScriptHash, Verdict;
  }

  predicate IsGate(ph: Phase) {
    || ph.ValidateBootstrap? || ph.EnsureCluster? || ph.WaitForDatabase? || ph.CoreGate? || ph.RolesGate?
        || ph.PublicationGate?
    || ph.CdcJob? || ph.PsReady?
  }

  /** Lets, as equations. */
  lemma LetsAt(c: Context, o: Objects, ph: Phase)
    ensures Lets(c, o, ValidateBootstrap) == !ChangesOrigin(c, o) && Lets(c, o, EnsureCluster) == ClusterCurrent(c, o)
    ensures Lets(c, o, WaitForDatabase) == DatabaseUp(o) && Lets(c, o, CoreGate) == CoreUp(c, o)
    ensures Lets(c, o, RolesGate) == RolesUp(o) && Lets(c, o, PublicationGate) == PublicationKept(c, o)
    ensures Lets(c, o, CdcJob) == CurrentJobDone(c, o) && Lets(c, o, PsReady) == PowerSyncUp(c, o)
    ensures Lets(c, o, RulesGate) == Rules(c).Some? && (!IsGate(ph) ==> Lets(c, o, ph) == Valid(c, ph))
  {
    hide ChangesOrigin, ClusterCurrent, DatabaseUp, CoreUp, RolesUp, UpdatedPublication, DesiredPublication,
         CurrentJobDone, PowerSyncUp, Bundle, S3Present, EnvReadable, Rules, PublicationApplied;
  }

  /** The phase a pass comes to goes on exactly when the world lets it. */
  lemma Passes(c: Context, o: Objects, status: Status, before: seq<Phase>, ph: Phase, s: State)
    requires Working(c) && CleanBeside(c, o) && Arrives(c, o, status, before, ph, s)
    ensures Step(c, s, ph).outcome == Next <==> Lets(c, o, ph)
  {
    hide *;
    WorkingParts(c);
    LetsAt(c, o, ph);
    GateRanks();
    ArrivalPlanned(c, o, status, before, ph, s);
    ArrivalCluster(c, o, status, before, ph, s);
    ArrivalKnows(c, o, status, before, ph, s);
    PlannedPhases(c);
    Writers(c);
    WaitsLet(c, s);
    SameDatabase(c, s, o);
    GrantsRead(c, o, s.o);
    match ph {
      case ValidateBootstrap =>
        EarlyBefore(c, before);
        ArrivalParts(c, o, status, before, ph, s);
        RunEarly(c, Begin(o, status), before);
        PassIs(c, o, status);
        BootstrapLets(c, s, o);
        StepBootstrap(c, s);
      case EnsureCluster => ArrivalValidated(c, o, status, before, ph, s); ClusterLets(c, s, o); StepCluster(c, s);
      case WaitForDatabase => StepDatabase(c, s);
      case CoreGate => CoreAtGate(c, o, status, before, s); StepCoreGate(c, s);
      case RolesGate => StepRoles(c, s);
      case PublicationGate =>
        ArrivalKeeps(c, o, status, before, ph, s, PublicationAt);
        PublicationLets(c, s);
        StepPublication(c, s);
      case CdcJob =>
        ArrivalKeeps(c, o, status, before, ph, s, JobAt);
        ArrivalClean(c, o, status, before, ph, s);
        CleanAt(c, s.o, JobAt);
        JobLets(c, s);
        StepJob(c, s);
      case PsReady => WorkloadsAtEnd(c, o, status, before, s); StepPsReady(c, s);
      case _ => OthersPass(c, o, status, before, ph, s);
    }
  }

  lemma OthersPass(c: Context, o: Objects, status: Status, before: seq<Phase>, ph: Phase, s: State)
    requires Working(c) && CleanBeside(c, o) && Arrives(c, o, status, before, ph, s)
    requires !ph.ValidateBootstrap? && !ph.EnsureCluster? && !ph.WaitForDatabase? && !ph.CoreGate? && !ph.RolesGate?
    requires !ph.PublicationGate? && !ph.CdcJob? && !ph.PsReady?
    ensures Step(c, s, ph).outcome == Next <==> Lets(c, o, ph)
  {
    hide Working, CleanBeside, Arrives, Step, Lets, Valid, FitCluster, Goes;
    WorkingParts(c);
    LetsAt(c, o, ph);
    if Valid(c, ph) {
      OthersFit(c, s.o, ph);
      ArrivalGoes(c, o, status, before, ph, s);
    } else {
      InvalidHolds(c, s, ph);
    }
  }

  // ---- Where a pass ends ----------------------------------------------------

  lemma HeldAt(c: Context, o: Objects, before: seq<Phase>, ph: Phase, rest: seq<Phase>)
    requires forall q :: q in before ==> Lets(c, o, q)
    ensures FirstHeld(c, o, before + [ph] + rest) == if Lets(c, o, ph) then FirstHeld(c, o, rest) else Some(ph)
    ensures FirstHeld(c, o, []) == None
  {
    hide Lets;
    assert before + [ph] + rest == before + ([ph] + rest);
    assert ([ph] + rest)[1..] == rest;
    FirstHeldConcat(c, o, before, [ph] + rest);
  }

  lemma FinishIsLast(c: Context, before: seq<Phase>, rest: seq<Phase>)
    requires Plan(c) == before + [Finish] + rest
    ensures rest == []
  {
    hide Plan, Planned, Rank;
    PlanInOrder(c);
    if rest != [] {
      assert Plan(c)[|before|] == Finish && Plan(c)[|before| + 1] == rest[0];
      Ranks();
    }
  }

  /** A pass ends at the first phase it comes to that the world does not let on. */
  lemma PassEnds(c: Context, o: Objects, status: Status) returns (before: seq<Phase>, ph: Phase, s: State)
    requires Working(c) && CleanBeside(c, o)
    ensures Arrives(c, o, status, before, ph, s) && Pass(c, o, status) == Step(c, s, ph) && before + [ph] <= Plan(c)
    ensures FirstHeld(c, o, Plan(c)) == if Pass(c, o, status).outcome == Next then None else Some(ph)
    ensures (Pass(c, o, status).outcome == Next ==> ph == Finish) && forall q :: q in before ==> Lets(c, o, q)
    ensures Lets(c, o, ph) <==> Pass(c, o, status).outcome == Next
  {
    hide *;
    before, ph, s := EndArrives(c, o, status);
    ArrivalParts(c, o, status, before, ph, s);
    forall q | q in before ensures Lets(c, o, q) {
      var early, t, late := ArrivalEarlier(c, o, status, before, ph, s, q);
      Passes(c, o, status, early, q, t);
    }
    Passes(c, o, status, before, ph, s);
    var rest := Plan(c)[|before| + 1..];
    assert Plan(c) == before + [ph] + rest;
    HeldAt(c, o, before, ph, rest);
    if ph == Finish { FinishIsLast(c, before, rest); }
  }

  /** Every pass whose calls succeed, in a world with nothing foreign beside the Cluster,
      stops at the first planned phase that the world does not let on, and completes
      when there is none. */
  lemma StopsWhereHeld(c: Context, o: Objects, status: Status)
    requires Working(c) && CleanBeside(c, o)
    ensures StopsAt(c, Begin(o, status), Plan(c)) == FirstHeld(c, o, Plan(c))
    ensures Pass(c, o, status).outcome == Next <==> FirstHeld(c, o, Plan(c)).None?
  {
    hide *;
    var before, ph, s := PassEnds(c, o, status);
    PassIs(c, o, status);
    if Pass(c, o, status).outcome == Next {
      StopsAtConcat(c, Begin(o, status), Plan(c), []);
    } else {
      ArrivalParts(c, o, status, before, ph, s);
      var rest := Plan(c)[|before| + 1..];
      assert Plan(c) == before + ([ph] + rest);
      StopsAtConcat(c, Begin(o, status), before, [ph] + rest);
      StopsAtConcat(c, s, [ph], rest);
      StopsAtOne(c, s, ph);
    }
  }

  // ---- What becomes of a condition ------------------------------------------

  /** The conditions that one wait turns on, and that only phases which change no status while
      they go on report besides. */
  predicate Waited(c: Context, t: ConditionType) {
    t == DatabaseReady || (c.spec.powersync.Some? && (t == CDCReady || t == PowersyncReady))
  }

  predicate TurnsOn(ph: Phase, t: ConditionType) {
    (t == DatabaseReady && ph == WaitForDatabase) || (t == CDCReady && ph == CdcJob)
        || (t == PowersyncReady && ph == PsReady)
  }

  lemma WaitedReporters(c: Context, ph: Phase, t: ConditionType)
    requires Waited(c, t) && Planned(c, ph)
    ensures Reports(ph, t) ==> Silent(ph) || TurnsOn(ph, t)
  {
    hide BackupEnabled, RecoveryEnabled, Removable;
  }

  /** What the waits make of their conditions. */
  lemma WaitsReport(c: Context, s: State)
    requires Healthy(c)
    ensures var r := AwaitDatabase(c, s);
            r.outcome == Next ==> IsTrue(r.state.memory, DatabaseReady) && IsTrue(r.state.saved, DatabaseReady)
    ensures var r := AwaitDatabase(c, s);
            r.outcome != Next && s.o.cluster.Some? ==> !IsTrue(r.state.saved, DatabaseReady)
    ensures var r := AwaitJob(c, s); r.outcome == Next && IsTrue(s.saved, CDCReady)
                                     ==> IsTrue(r.state.memory, CDCReady) && IsTrue(r.state.saved, CDCReady)
    ensures var r := AwaitJob(c, s); r.outcome != Next ==> !IsTrue(r.state.saved, CDCReady)
  {
    hide DatabaseOf, CheckJob;
    CheckJobStatus(c, s);
  }

  lemma WorkloadsReport(c: Context, s: State)
    requires Healthy(c)
    ensures var r := AwaitPowerSync(c, s); r.outcome == Next && IsTrue(s.saved, PowersyncReady)
                                           ==> && IsTrue(r.state.memory, PowersyncReady)
                                               && IsTrue(r.state.saved, PowersyncReady)
    ensures var r := AwaitPowerSync(c, s); r.outcome != Next ==> !IsTrue(r.state.saved, PowersyncReady)
  {
    hide Observed;
  }

  lemma WaitKeepsOn(c: Context, s: State, ph: Phase, t: ConditionType)
    requires Healthy(c) && TurnsOn(ph, t) && IsTrue(s.saved, t) && Step(c, s, ph).outcome == Next
    ensures IsTrue(Step(c, s, ph).state.memory, t) && IsTrue(Step(c, s, ph).state.saved, t)
  {
    hide Step, IsTrue, AwaitDatabase, AwaitJob, AwaitPowerSync, Healthy;
    WaitsReport(c, s);
    WorkloadsReport(c, s);
    StepDatabase(c, s);
    StepJob(c, s);
    StepPsReady(c, s);
  }

  /** A phase that goes on leaves such a condition on. */
  lemma NextKeepsOn(c: Context, s: State, ph: Phase, t: ConditionType)
    requires Healthy(c) && Waited(c, t) && Planned(c, ph) && IsTrue(s.memory, t) && IsTrue(s.saved, t)
    ensures Step(c, s, ph).outcome == Next || !Reports(ph, t) ==> IsTrue(Step(c, s, ph).state.saved, t)
    ensures Step(c, s, ph).outcome == Next ==> IsTrue(Step(c, s, ph).state.memory, t)
  {
    hide Step, Reports, Silent, SameSlot, Writes, IsTrue, SecretsPhase, Planned, Healthy, TurnsOn, Waited;
    WaitedReporters(c, ph, t);
    if !Reports(ph, t) {
      assert IsTrue(Step(c, s, ph).state.memory, t)
          && IsTrue(Step(c, s, ph).state.saved, t) by { StepEffect(c, s, ph); }
    } else if Silent(ph) {
      SilentStep(c, s, ph);
    } else if Step(c, s, ph).outcome == Next {
      WaitKeepsOn(c, s, ph, t);
    }
  }

  lemma {:induction false} RunKeepsOn(c: Context, s: State, plan: seq<Phase>, t: ConditionType)
    requires Healthy(c) && Waited(c, t) && (forall ph :: ph in plan ==> Planned(c, ph))
        && Run(c, s, plan).outcome == Next
    requires IsTrue(s.memory, t) && IsTrue(s.saved, t)
    ensures IsTrue(Run(c, s, plan).state.memory, t) && IsTrue(Run(c, s, plan).state.saved, t)
    decreases |plan|
  {
    hide Step, Reports, IsTrue, Waited, Planned, Healthy;
    if plan != [] {
      assert plan[0] in plan;
      NextKeepsOn(c, s, plan[0], t);
      RunKeepsOn(c, Step(c, s, plan[0]).state, plan[1..], t);
    }
  }

  /** A pass comes to every phase with such a condition on, if it began so. */
  lemma ArrivalOn(c: Context, o: Objects, status: Status, before: seq<Phase>, ph: Phase, s: State, t: ConditionType)
    requires Healthy(c) && Waited(c, t) && Arrives(c, o, status, before, ph, s) && IsTrue(status, t)
    ensures IsTrue(s.memory, t) && IsTrue(s.saved, t)
  {
    hide Run, Arrives, Waited, Healthy, Planned, Rank;
    ArrivalParts(c, o, status, before, ph, s);
    ArrivalPlanned(c, o, status, before, ph, s);
    RunKeepsOn(c, Begin(o, status), before, t);
  }

  lemma ReadyStays(c: Context, o: Objects, status: Status)
    requires Working(c) && CleanBeside(c, o) && Chained(status) && IsTrue(status, Ready)
    ensures IsTrue(Pass(c, o, status).state.saved, Ready) <==> !ClearsAt(FirstHeld(c, o, Plan(c)))
  {
    hide *;
    StopsWhereHeld(c, o, status);
    WorkingParts(c);
    ClearsNothing(c, o, FirstHeld(c, o, Plan(c)));
    StatusChain(c, o, status);
  }

  lemma ClearsNothing(c: Context, o: Objects, held: Option<Phase>)
    ensures held.None? || DatabaseHeld(c, o, held) || GrantsHeld(c, o, held) || WorkloadsHeld(held) ==> !ClearsAt(held)
    ensures Healthy(c) ==> StatusWritesSucceed(c)
  {
    hide ClusterRefused, PublicationAwaited;
  }

  // ---- The database ---------------------------------------------------------

  /** There is no Cluster, or one of the project's whose storage the declaration would shrink or cannot be read. */
  predicate ClusterRefused(c: Context, o: Objects) {
    || o.cluster.None?
    || (Ours(c, o.cluster.value.meta)
        && !StorageAccepted(c.k.quantity, o.cluster.value.spec.storage, Desired(c, FinalNames(c)).storage))
  }

  lemma ClusterStops(c: Context, s: State, o: Objects)
    requires Healthy(c) && DefaultsKeep(c) && s.memory.names == FinalNames(c)
    requires s.o.cluster == ProtectedCluster(c, o.cluster) && Validated(c, s.o.cluster)
        && IsTrue(s.saved, DatabaseReady)
    ensures !IsTrue(MakeCluster(c, s).state.saved, DatabaseReady) <==> ClusterRefused(c, o)
  {
    hide IntentChanged, Built, Desired, MergeCluster, DefaultsKeep, FinalNames, NewCluster, RejectReason,
         WithoutProject, Repaired, MergedLabels, StorageAccepted;
    if s.o.cluster.Some? {
      var x := s.o.cluster.value;
      DefaultsIntent(c, x.spec);
      MergeAccepts(c, x.spec, Desired(c, FinalNames(c)));
    }
  }

  /** Does the phase the pass ends at clear DatabaseReady? */
  predicate DatabaseHeld(c: Context, o: Objects, held: Option<Phase>) {
    held == Some(ValidateBootstrap) || held == Some(WaitForDatabase)
        || (held == Some(EnsureCluster) && ClusterRefused(c, o))
  }

  lemma CurrentIsAccepted(c: Context, o: Objects)
    ensures ClusterCurrent(c, o) ==> !ClusterRefused(c, o)
  {
    hide Desired, FinalNames, StorageAccepted, MergedSpec, ReportsChange, Ours, MergedLabels;
    if o.cluster.Some? { MergeAccepts(c, o.cluster.value.spec, Desired(c, FinalNames(c))); }
  }

  lemma EndDatabase(c: Context, o: Objects, status: Status, before: seq<Phase>, ph: Phase, s: State)
    requires Working(c) && Arrives(c, o, status, before, ph, s) && IsTrue(status, DatabaseReady)
    ensures IsTrue(Step(c, s, ph).state.saved, DatabaseReady)
            <==> !DatabaseHeld(c, o, if Step(c, s, ph).outcome == Next then None else Some(ph))
  {
    hide Working, Arrives, Step, IsTrue, Rank, ClusterRefused, Healthy, Faithful, DefaultsKeep, ClusterKept,
         FinalNames, Planned, ProtectedCluster, Validated, CheckBootstrap, MakeCluster, AwaitDatabase, Reports,
         AwaitJob, AwaitPowerSync;
    WorkingParts(c);
    GateRanks();
    ArrivalPlanned(c, o, status, before, ph, s);
    ArrivalKnows(c, o, status, before, ph, s);
    ArrivalOn(c, o, status, before, ph, s, DatabaseReady);
    NextKeepsOn(c, s, ph, DatabaseReady);
    DatabaseReporters(ph);
    match ph {
      case ValidateBootstrap => StepBootstrap(c, s); BootstrapLets(c, s, o);
      case WaitForDatabase => StepDatabase(c, s); WaitsReport(c, s);
      case EnsureCluster =>
        ArrivalCluster(c, o, status, before, ph, s);
        ArrivalValidated(c, o, status, before, ph, s);
        ClusterStops(c, s, o);
        StepCluster(c, s);
      case _ =>
    }
  }

  lemma DatabaseReporters(ph: Phase)
    ensures Reports(ph, DatabaseReady) <==> ph == ValidateBootstrap || ph == EnsureCluster || ph == WaitForDatabase
  {
  }

  /** When a pass leaves Ready on and DatabaseReady off, whatever was declared and
      whatever became of the Cluster: exactly when it ends at the bootstrap, at the
      wait for the database, or at a Cluster that is absent or whose storage is refused. */
  lemma ReadyWithoutDatabase(c: Context, o: Objects, status: Status)
    requires Working(c) && CleanBeside(c, o) && Chained(status) && IsTrue(status, Ready)
        && IsTrue(status, DatabaseReady)
    ensures var saved := Pass(c, o, status).state.saved;
            IsTrue(saved, Ready) && !IsTrue(saved, DatabaseReady) <==> DatabaseHeld(c, o, FirstHeld(c, o, Plan(c)))
  {
    hide *;
    var before, ph, s := PassEnds(c, o, status);
    ReadyStays(c, o, status);
    EndDatabase(c, o, status, before, ph, s);
    ClearsNothing(c, o, FirstHeld(c, o, Plan(c)));
  }

  /** The origin would change, there is no Cluster, its storage is refused, or, when the
      Cluster needs no update, fewer instances are ready than it has. */
  predicate DatabaseMissed(c: Context, o: Objects) {
    ChangesOrigin(c, o) || ClusterRefused(c, o) || (ClusterCurrent(c, o) && !DatabaseUp(o))
  }

  /** The gates before a phase let the pass by. */
  predicate GatesPassed(c: Context, o: Objects, ph: Phase) {
    && (Rank(ph) > 40 ==> !ChangesOrigin(c, o)) && (Rank(ph) > 70 ==> ClusterCurrent(c, o))
    && (Rank(ph) > 71 ==> DatabaseUp(o)) && (Rank(ph) > 85 ==> CoreUp(c, o))
    && (c.spec.powersync.Some? ==> (Rank(ph) > 90 ==> Rules(c).Some?) && (Rank(ph) > 91 ==> RolesUp(o))
                                   && (Rank(ph) > 92 ==> PublicationKept(c, o))
                                       && (Rank(ph) > 94 ==> CurrentJobDone(c, o))
                                   && (Rank(ph) > 106 ==> PowerSyncUp(c, o)))
  }

  lemma GatesArePassed(c: Context, o: Objects, before: seq<Phase>, ph: Phase)
    requires before + [ph] <= Plan(c) && forall q :: q in before ==> Lets(c, o, q)
    ensures Planned(c, ph) && GatesPassed(c, o, ph)
  {
    hide Lets, Plan, Planned, Rank, Valid, ChangesOrigin, ClusterCurrent, DatabaseUp, CoreUp, RolesUp,
         PublicationKept, CurrentJobDone, PowerSyncUp, Rules;
    ArrivalOrder(c, before, ph);
    PlannedPhases(c);
    GateRanks();
    LetsAt(c, o, ph);
  }

  /** For valid inputs the phase a pass ends at, as far as the database goes. */
  lemma HeldMeansMissed(c: Context, o: Objects, ph: Phase)
    requires Sound(c) && Planned(c, ph) && GatesPassed(c, o, ph) && (Lets(c, o, ph) ==> ph == Finish)
    ensures DatabaseHeld(c, o, if Lets(c, o, ph) then None else Some(ph)) <==> DatabaseMissed(c, o)
  {
    hide Sound, Lets, Planned, Rank, Valid, ChangesOrigin, ClusterRefused, ClusterCurrent, DatabaseUp, CoreUp,
         RolesUp, PublicationKept, CurrentJobDone, PowerSyncUp, Rules;
    GateRanks();
    LetsAt(c, o, ph);
    CurrentIsAccepted(c, o);
    SoundValid(c, ph);
  }

  /** Ready without DatabaseReady, for valid inputs, read off the objects: the origin
      would change, there is no Cluster, its storage is refused, or it needs no update
      and has fewer ready instances than declared. */
  lemma ReadyMeansDatabase(c: Context, o: Objects, status: Status)
    requires Sound(c) && CleanBeside(c, o) && Chained(status) && IsTrue(status, Ready) && IsTrue(status, DatabaseReady)
    ensures var saved := Pass(c, o, status).state.saved;
            (IsTrue(saved, Ready) ==> IsTrue(saved, DatabaseReady)) <==> !DatabaseMissed(c, o)
  {
    hide *;
    SoundIsWorking(c);
    var before, ph, s := PassEnds(c, o, status);
    GatesArePassed(c, o, before, ph);
    HeldMeansMissed(c, o, ph);
    ReadyWithoutDatabase(c, o, status);
  }

  /** A Cluster that needs no update has the declared number of instances. */
  lemma CurrentInstances(c: Context, o: Objects)
    requires DefaultsKeep(c) && ClusterCurrent(c, o)
    ensures DatabaseUp(o) <==> o.cluster.value.status.ready >= Desired(c, FinalNames(c)).instances
  {
    hide DefaultsKeep, FinalNames, Desired, MergeCluster, Ours, MergedLabels;
    DefaultsIntent(c, o.cluster.value.spec);
    MergeIsExact(c.k.quantity, o.cluster.value.spec, Desired(c, FinalNames(c)));
  }

  // ---- PowerSync ------------------------------------------------------------

  /** The publication is to be created, or needs no update and is not applied yet. */
  predicate PublicationAwaited(c: Context, o: Objects) {
    && DesiredPublication(c).Some?
    && (o.publication.None? || (UpdatedPublication(c, o.publication.value, DesiredPublication(c).value) == o.publication
                                && !PublicationApplied(o.publication.value)))
  }

  /** Does the phase the pass ends at clear CDCReady? An update of the publication does not. */
  predicate GrantsHeld(c: Context, o: Objects, held: Option<Phase>) {
    held == Some(RolesGate) || held == Some(CdcJob) || (held == Some(PublicationGate) && PublicationAwaited(c, o))
  }

  /** Does the phase the pass ends at clear PowersyncReady? */
  predicate WorkloadsHeld(held: Option<Phase>) { held == Some(RulesGate) || held == Some(PsReady) }

  /** What the gates before the workloads make of the conditions when they hold. */
  lemma GrantsStop(c: Context, s: State)
    requires Healthy(c)
    ensures var r := AwaitRoles(c, s); r.outcome != Next && s.o.cluster.Some? ==> !IsTrue(r.state.saved, CDCReady)
    ensures var r := AwaitPublication(c, s); r.outcome != Next && IsTrue(s.saved, CDCReady)
                                             ==> (IsTrue(r.state.saved, CDCReady) <==> !PublicationAwaited(c, s.o))
    ensures Rules(c).None? ==> !IsTrue(CheckRules(c, s).state.saved, PowersyncReady)
  {
    hide RolesBlocked, RolesReconciled, UpdatedPublication, DesiredPublication, OwnedMeta, Rules, PublicationApplied;
  }

  /** The phases that report on PowerSync and are held by neither wait are let on. */
  lemma ReportersAreLet(c: Context, o: Objects, ph: Phase)
    requires c.spec.powersync.Some? && Planned(c, ph)
    ensures Reports(ph, PowersyncReady) ==> ph == RulesGate || ph == PsReady || Lets(c, o, ph)
    ensures Reports(ph, CDCReady) <==> ph == RolesGate || ph == PublicationGate || ph == CdcMap || ph == CdcJob
  {
    hide BackupEnabled, RecoveryEnabled, Removable, Bundle, S3Present, EnvReadable, Rules, DesiredPublication,
         ChangesOrigin, ClusterCurrent, DatabaseUp, CoreUp, RolesUp, PublicationKept, CurrentJobDone, PowerSyncUp,
         SecretsPhase, ConditionOf;
  }

  /** A script that cannot be built fails the pass without a word. */
  lemma ScriptStops(c: Context, s: State)
    ensures !Valid(c, CdcMap) ==> MakeCdcMap(c, s) == Result(s, Failed)
  {
    hide EnsureMap, FailWith;
  }

  lemma EndGrants(c: Context, o: Objects, status: Status, before: seq<Phase>, ph: Phase, s: State)
    requires Working(c) && CleanBeside(c, o) && Arrives(c, o, status, before, ph, s)
    requires c.spec.powersync.Some? && IsTrue(status, CDCReady)
    ensures IsTrue(Step(c, s, ph).state.saved, CDCReady)
            <==> !GrantsHeld(c, o, if Step(c, s, ph).outcome == Next then None else Some(ph))
  {
    hide Working, CleanBeside, Arrives, Step, IsTrue, Rank, Healthy, Faithful, DefaultsKeep, Planned, Reports,
         ClusterKept, FinalNames, Valid, Lets, AwaitRoles, AwaitPublication, AwaitJob, AwaitDatabase, AwaitPowerSync,
         MakeCdcMap, PublicationAwaited, WriterOf, IsDurable, Rules, SameSlot, ChangesOrigin, ClusterCurrent,
         DatabaseUp, CoreUp, RolesUp, PublicationKept, CurrentJobDone, PowerSyncUp;
    WorkingParts(c);
    GateRanks();
    ArrivalPlanned(c, o, status, before, ph, s);
    ArrivalKnows(c, o, status, before, ph, s);
    ArrivalOn(c, o, status, before, ph, s, CDCReady);
    NextKeepsOn(c, s, ph, CDCReady);
    ReportersAreLet(c, o, ph);
    GrantsStop(c, s);
    match ph {
      case RolesGate => StepRoles(c, s);
      case PublicationGate =>
        Writers(c);
        ArrivalKeeps(c, o, status, before, ph, s, PublicationAt);
        GrantsRead(c, o, s.o);
        StepPublication(c, s);
      case CdcMap =>
        assert Step(c, s, ph).outcome == Next || Step(c, s, ph) == Result(s, Failed) by {
          Passes(c, o, status, before, ph, s);
          LetsAt(c, o, ph);
          ScriptStops(c, s);
          StepCdcMap(c, s);
        }
      case CdcJob => StepJob(c, s); WaitsReport(c, s);
      case _ =>
    }
  }

  lemma EndPowerSync(c: Context, o: Objects, status: Status, before: seq<Phase>, ph: Phase, s: State)
    requires Working(c) && CleanBeside(c, o) && Arrives(c, o, status, before, ph, s)
    requires c.spec.powersync.Some? && IsTrue(status, PowersyncReady)
    ensures IsTrue(Step(c, s, ph).state.saved, PowersyncReady)
            <==> !WorkloadsHeld(if Step(c, s, ph).outcome == Next then None else Some(ph))
  {
    hide Working, CleanBeside, Arrives, Step, IsTrue, Rank, Healthy, Faithful, DefaultsKeep, Planned, Reports, Valid,
         Lets, Rules, CheckRules, AwaitDatabase, AwaitJob, AwaitPowerSync, AwaitRoles, AwaitPublication,
         PublicationAwaited, ChangesOrigin, ClusterCurrent, DatabaseUp, CoreUp, RolesUp, PublicationKept,
         CurrentJobDone, PowerSyncUp;
    WorkingParts(c);
    ArrivalPlanned(c, o, status, before, ph, s);
    ArrivalOn(c, o, status, before, ph, s, PowersyncReady);
    NextKeepsOn(c, s, ph, PowersyncReady);
    ReportersAreLet(c, o, ph);
    Passes(c, o, status, before, ph, s);
    LetsAt(c, o, ph);
    match ph {
      case RulesGate => StepRules(c, s); GrantsStop(c, s);
      case PsReady => StepPsReady(c, s); WorkloadsReport(c, s);
      case _ =>
    }
  }

  /** When a pass leaves Ready on and CDCReady off: exactly when it ends at the roles, at the Job,
      or at a publication that it creates or waits for; one that it updates leaves CDCReady on. */
  lemma ReadyWithoutGrants(c: Context, o: Objects, status: Status)
    requires Working(c) && CleanBeside(c, o) && Chained(status) && c.spec.powersync.Some?
    requires IsTrue(status, Ready) && IsTrue(status, CDCReady)
    ensures var saved := Pass(c, o, status).state.saved;
            IsTrue(saved, Ready) && !IsTrue(saved, CDCReady) <==> GrantsHeld(c, o, FirstHeld(c, o, Plan(c)))
  {
    hide *;
    var before, ph, s := PassEnds(c, o, status);
    ReadyStays(c, o, status);
    EndGrants(c, o, status, before, ph, s);
    ClearsNothing(c, o, FirstHeld(c, o, Plan(c)));
  }

  /** When a pass leaves Ready on and PowersyncReady off: exactly when it ends at invalid
      sync rules or at the wait for the workloads. */
  lemma ReadyWithoutPowerSync(c: Context, o: Objects, status: Status)
    requires Working(c) && CleanBeside(c, o) && Chained(status) && c.spec.powersync.Some?
    requires IsTrue(status, Ready) && IsTrue(status, PowersyncReady)
    ensures var saved := Pass(c, o, status).state.saved;
            IsTrue(saved, Ready) && !IsTrue(saved, PowersyncReady) <==> WorkloadsHeld(FirstHeld(c, o, Plan(c)))
  {
    hide *;
    var before, ph, s := PassEnds(c, o, status);
    ReadyStays(c, o, status);
    EndPowerSync(c, o, status, before, ph, s);
    ClearsNothing(c, o, FirstHeld(c, o, Plan(c)));
  }

  /** The core is up on a database that is up, and the sync rules are invalid, or the roles,
      the publication and the Job are in order and a workload is not rolled out. */
  predicate PowerSyncMissed(c: Context, o: Objects) {
    && !ChangesOrigin(c, o) && ClusterCurrent(c, o) && DatabaseUp(o) && CoreUp(c, o)
    && (Rules(c).None? || (RolesUp(o) && PublicationKept(c, o) && CurrentJobDone(c, o) && !PowerSyncUp(c, o)))
  }

  /** Valid inputs, but for the sync rules. */
  ghost predicate SoundButRules(c: Context) {
    Working(c) && forall ph :: Planned(c, ph) && ph != RulesGate ==> Valid(c, ph)
  }

  lemma ButRulesParts(c: Context, ph: Phase)
    requires SoundButRules(c)
    ensures Working(c) && (Planned(c, ph) && ph != RulesGate ==> Valid(c, ph))
  {
    hide Working, Planned, Valid;
  }

  lemma HeldMeansPowerSync(c: Context, o: Objects, ph: Phase)
    requires SoundButRules(c) && c.spec.powersync.Some? && Planned(c, ph) && GatesPassed(c, o, ph)
        && (Lets(c, o, ph) ==> ph == Finish)
    ensures WorkloadsHeld(if Lets(c, o, ph) then None else Some(ph)) <==> PowerSyncMissed(c, o)
  {
    hide SoundButRules, Planned, Rank, ChangesOrigin, ClusterCurrent, DatabaseUp, CoreUp, RolesUp, UpdatedPublication,
         DesiredPublication, PublicationApplied, CurrentJobDone, PowerSyncUp, Rules, Bundle, S3Present, EnvReadable;
    ButRulesParts(c, ph);
    GateRanks();
  }

  /** Ready without PowersyncReady, for valid inputs but the sync rules, read off the objects. */
  lemma ReadyMeansPowerSync(c: Context, o: Objects, status: Status)
    requires SoundButRules(c) && CleanBeside(c, o) && Chained(status) && c.spec.powersync.Some?
    requires IsTrue(status, Ready) && IsTrue(status, PowersyncReady)
    ensures var saved := Pass(c, o, status).state.saved;
            (IsTrue(saved, Ready) ==> IsTrue(saved, PowersyncReady)) <==> !PowerSyncMissed(c, o)
  {
    hide *;
    ButRulesParts(c, Finish);
    var before, ph, s := PassEnds(c, o, status);
    GatesArePassed(c, o, before, ph);
    HeldMeansPowerSync(c, o, ph);
    ReadyWithoutPowerSync(c, o, status);
  }
}
