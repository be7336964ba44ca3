/** Convergence: with valid inputs and no foreign objects in the way, no pass takes the world
    further from done, however little the environment does between passes, and every pass
    that asks to be called again brings it strictly closer once the environment caught up. */
module Convergence {
  import opened Kube
  import opened Pods
  import opened Clusters
  import opened World
  import opened Operator
  import opened Steps
  import opened Frames
  import opened Durables
  import opened Gates
  import opened Settled
  import opened Keeping
  import opened Ordering
  import opened Settling
  import opened Idempotence
  import opened Progress
  import opened Arrivals
  import opened Endings

  // ---- The environment between passes ---------------------------------------

  predicate ClusterCaughtUp(x: Option<Cluster>, y: Option<Cluster>) {
    && (x.Some? <==> y.Some?)
    && (x.Some? ==> y.value == x.value.(status := y.value.status) && y.value.status.ready >= y.value.spec.instances
                    && RolesReconciled(y.value) && !RolesBlocked(y.value))
  }

  /** The current generation is observed, and all declared replicas (one, unless declared) are
      updated, ready and available. */
  predicate AllServing(x: Deployment) {
    var n := if x.replicas.Some? then x.replicas.value else 1;
    x.status == RolloutStatus(x.generation, n, n, n, 0)
  }

  lemma ServingIsRolledOut(x: Deployment)
    ensures AllServing(x) <==> RolledOut(x)
  {
  }

  predicate DeploymentCaughtUp(x: Deployment, y: Deployment) { y == x.(status := y.status) && AllServing(y) }

  predicate PublicationCaughtUp(x: Option<Publication>, y: Option<Publication>) {
    && (x.Some? <==> y.Some?)
    && (x.Some? ==> && y.value == x.value.(observed := y.value.observed, applied := y.value.applied)
                    && PublicationApplied(y.value))
  }

  /** A Job marked for deletion goes, any other completes. */
  predicate JobCaughtUp(x: Option<Job>, y: Option<Job>) {
    if x.None? || x.value.deleting then y.None?
    else y.Some? && y.value == x.value.(conditions := y.value.conditions) && Verdict(y.value.conditions) == Complete
  }

  /** Every controller but the operator has done its work on `a`. */
  predicate CaughtUp(a: Objects, b: Objects) {
    && b == a.(cluster := b.cluster, deployments := b.deployments, publication := b.publication, job := b.job)
    && ClusterCaughtUp(a.cluster, b.cluster) && PublicationCaughtUp(a.publication, b.publication)
        && JobCaughtUp(a.job, b.job)
    && b.deployments.Keys == a.deployments.Keys
    && (forall comp :: comp in a.deployments ==> DeploymentCaughtUp(a.deployments[comp], b.deployments[comp]))
  }

  // Part of that work, none of it undone.

  predicate ClusterAdvances(x: Option<Cluster>, y: Option<Cluster>) {
    && (x.Some? <==> y.Some?)
    && (x.Some? ==> && y.value == x.value.(status := y.value.status)
                    && (x.value.status.ready >= x.value.spec.instances
                        ==> y.value.status.ready >= y.value.spec.instances)
                    && (RolesReconciled(x.value) ==> RolesReconciled(y.value))
                        && (RolesBlocked(y.value) ==> RolesBlocked(x.value)))
  }

  predicate DeploymentAdvances(x: Deployment, y: Deployment) {
    y == x.(status := y.status) && (AllServing(x) ==> AllServing(y))
  }

  predicate PublicationAdvances(x: Option<Publication>, y: Option<Publication>) {
    && (x.Some? <==> y.Some?)
    && (x.Some? ==> && y.value == x.value.(observed := y.value.observed, applied := y.value.applied)
                    && (PublicationApplied(x.value) ==> PublicationApplied(y.value)))
  }

  /** A Job marked for deletion may go; its verdict only gets better. */
  predicate JobAdvances(x: Option<Job>, y: Option<Job>) {
    if y.None? then x.None? || x.value.deleting
    else && x.Some? && y.value == x.value.(conditions := y.value.conditions)
         && (Verdict(x.value.conditions) == Complete ==> Verdict(y.value.conditions) == Complete)
         && (Verdict(y.value.conditions) == Broken ==> Verdict(x.value.conditions) == Broken)
  }

  /** The Secrets, the Cluster and the Deployments. */
  predicate CoreAdvances(a: Objects, b: Objects) {
    && b.secrets == a.secrets && ClusterAdvances(a.cluster, b.cluster) && b.deployments.Keys == a.deployments.Keys
    && (forall comp :: comp in a.deployments ==> DeploymentAdvances(a.deployments[comp], b.deployments[comp]))
  }

  /** Every controller but the operator has done some of its work on `a`, or none. */
  predicate Advances(a: Objects, b: Objects) {
    && b == a.(cluster := b.cluster, deployments := b.deployments, publication := b.publication, job := b.job)
    && CoreAdvances(a, b) && PublicationAdvances(a.publication, b.publication) && JobAdvances(a.job, b.job)
  }

  // ---- The measure ----------------------------------------------------------

  predicate ClusterDone(c: Context, o: Objects) { ClusterKept(c, o, FinalNames(c)) && DatabaseUp(o) }

  /** As declared, and rolled out. */
  predicate DeploymentDone(c: Context, o: Objects, comp: Component, template: PodTemplate) {
    DeploymentKept(c, o, comp, template) && RolledOut(o.deployments[comp])
  }

  predicate ComponentDone(c: Context, o: Objects, comp: Component) {
    TemplateFor(c, o, NamedStatus(c), comp).Some?
        && DeploymentDone(c, o, comp, TemplateFor(c, o, NamedStatus(c), comp).value)
  }

  predicate CoreDone(c: Context, o: Objects) { forall comp | IsCore(comp) :: ComponentDone(c, o, comp) }

  predicate JobDone(c: Context, o: Objects) { CurrentJobDone(c, o) && !o.job.value.deleting }

  /** A Job that has to go first. */
  predicate JobLeaving(c: Context, o: Objects) {
    o.job.Some? && (HashOf(o.job.value) != ScriptHash(c) || o.job.value.deleting)
  }

  predicate WorkloadDone(c: Context, o: Objects) {
    && DeploymentDone(c, o, PsApi, PsTemplateFor(c, o, NamedStatus(c), PsApi))
    && DeploymentDone(c, o, PsReplicator, PsTemplateFor(c, o, NamedStatus(c), PsReplicator))
  }

  /** How far the world is from letting a pass through: by the first gate that would hold it. */
  function Measure(c: Context, o: Objects): nat {
    if !ClusterDone(c, o) then 7
    else if !CoreDone(c, o) then 6
    else if c.spec.powersync.None? then 0
    else if !RolesUp(o) then 5
    else if !PublicationKept(c, o) then 4
    else if !JobDone(c, o) then (if JobLeaving(c, o) then 3 else 2)
    else if !WorkloadDone(c, o) then 1
    else 0
  }

  // What is done lets a pass on.

  lemma ClusterDoneLets(c: Context, o: Objects)
    requires ClusterDone(c, o)
    ensures ClusterCurrent(c, o) && DatabaseUp(o)
  {
    hide IntentChanged, Desired, MergeCluster, FinalNames, Ours, WithoutProject, MergedLabels;
  }

  lemma DoneIsUp(c: Context, o: Objects, comp: Component, template: PodTemplate)
    requires DeploymentDone(c, o, comp, template)
    ensures DeploymentUp(c, o, comp, template)
  {
    hide DeploymentCurrent, RolledOut, UpdatedDeployment, WithController;
  }

  lemma ComponentDoneIsUp(c: Context, o: Objects, comp: Component)
    requires ComponentDone(c, o, comp)
    ensures ComponentUp(c, o, comp)
  {
    hide TemplateFor, DeploymentDone, DeploymentUp, WithHook;
    if comp == Auth { HookIsThere(c, o); }
    TemplateAgrees(c, comp, o, NamedStatus(c), WithHook(c, o), NamedStatus(c));
    DoneIsUp(c, o, comp, TemplateFor(c, o, NamedStatus(c), comp).value);
  }

  lemma HookIsThere(c: Context, o: Objects)
    requires TemplateFor(c, o, NamedStatus(c), Auth).Some?
    ensures WithHook(c, o) == o
  {
    hide Bundle, NamesFor, OwnedMeta;
  }

  lemma CoreDoneLets(c: Context, o: Objects)
    requires CoreDone(c, o)
    ensures CoreUp(c, o)
  {
    hide ComponentDone, ComponentUp;
    forall comp | IsCore(comp) ensures ComponentUp(c, o, comp) { ComponentDoneIsUp(c, o, comp); }
  }

  lemma WorkloadDoneLets(c: Context, o: Objects)
    requires WorkloadDone(c, o)
    ensures PowerSyncUp(c, o)
  {
    hide DeploymentDone, DeploymentUp, PsTemplateFor;
    DoneIsUp(c, o, PsApi, PsTemplateFor(c, o, NamedStatus(c), PsApi));
    DoneIsUp(c, o, PsReplicator, PsTemplateFor(c, o, NamedStatus(c), PsReplicator));
  }

  /** The measure of a world that holds a pass at a gate. */
  lemma HeldMeasures(c: Context, o: Objects)
    ensures !ClusterCurrent(c, o) || !DatabaseUp(o) ==> Measure(c, o) == 7
    ensures !CoreUp(c, o) ==> Measure(c, o) >= 6
    ensures c.spec.powersync.Some? && !RolesUp(o) ==> Measure(c, o) >= 5
    ensures c.spec.powersync.Some? && !PublicationKept(c, o) ==> Measure(c, o) >= 4
    ensures c.spec.powersync.Some? && !CurrentJobDone(c, o) ==> Measure(c, o) >= if JobLeaving(c, o) then 3 else 2
    ensures c.spec.powersync.Some? && !PowerSyncUp(c, o) ==> Measure(c, o) >= 1
    ensures c.spec.powersync.Some? && !JobDone(c, o) && JobLeaving(c, o) ==> Measure(c, o) >= 3
  {
    hide ClusterDone, CoreDone, RolesUp, PublicationKept, CurrentJobDone, JobLeaving, WorkloadDone, ClusterCurrent,
         DatabaseUp, CoreUp, PowerSyncUp;
    if ClusterDone(c, o) { ClusterDoneLets(c, o); }
    if CoreDone(c, o) { CoreDoneLets(c, o); }
    if WorkloadDone(c, o) { WorkloadDoneLets(c, o); }
  }

  // ---- No failure over a pass -----------------------------------------------

  /** Phase 0 keeps a clean Cluster clean, and only the bootstrap check asks more of the world. */
  lemma ProtectedFits(c: Context, a: Objects, b: Objects, ph: Phase)
    requires CleanSlot(c, a, ClusterAt) && (b.cluster == a.cluster || b.cluster == ProtectedCluster(c, a.cluster))
    ensures CleanSlot(c, b, ClusterAt) && (ph != ValidateBootstrap || CleanSource(c, b) ==> FitCluster(c, b, ph))
  {
    hide IntentChanged, Built, Desired, StorageAccepted, FinalNames, WithoutProject, CleanSecret, CleanJob, CleanSource;
  }

  /** A Cluster may only be created from the declared source, once its store went on or while neither moved. */
  lemma SourceIsClean(c: Context, a: Objects, b: Objects)
    ensures SameRecoverySpec(a, b)
        && (SourceAt(a.recovery, RecoverySpecOf(RecoveryDeclared(c))) || (SameClusterSpec(a, b) && CleanSource(c, a)))
        ==> CleanSource(c, b)
    ensures !RecoveryEnabled(c.spec.database) ==> CleanSource(c, b)
  {
    hide RecoverySpecOf, RecoveryDeclared, RecoveryEnabled;
  }

  lemma SourceSettled(c: Context, o: Objects, m: Status)
    requires Stable(c, o, m, RecoveryStore)
    ensures SourceAt(o.recovery, RecoverySpecOf(RecoveryDeclared(c))) && CleanSource(c, o)
  {
    hide Repaired, Stable, S3Present, Marked, Ours;
    StableRecovery(c, o, m);
  }

  /** Up to the recovery store the recovery source is as the pass found it. */
  lemma ArrivalSource(c: Context, o: Objects, status: Status, before: seq<Phase>, ph: Phase, s: State)
    requires Arrives(c, o, status, before, ph, s) && Rank(ph) <= 61 && CleanSource(c, o)
    ensures CleanSource(c, s.o)
  {
    hide *;
    ArrivalPlanned(c, o, status, before, ph, s);
    ArrivalParts(c, o, status, before, ph, s);
    EarlyBefore(c, before);
    RunEarly(c, Begin(o, status), before);
    PassIs(c, o, status);
    SourceIsClean(c, o, s.o);
  }

  /** A clean pass ends at a phase that does not fail. */
  lemma CleanEnds(c: Context, o: Objects, status: Status) returns (before: seq<Phase>, ph: Phase, s: State)
    requires Sound(c) && Clean(c, o) && CleanSource(c, o)
    ensures Arrives(c, o, status, before, ph, s) && Pass(c, o, status) == Step(c, s, ph)
    ensures Pass(c, o, status).outcome == Next ==> ph == Finish
    ensures Goes(c, s, ph) && Step(c, s, ph).outcome != Failed && (!Waits(ph) ==> Step(c, s, ph).outcome == Next)
    ensures CleanBeside(c, s.o) && CleanSlot(c, s.o, ClusterAt)
    ensures Step(c, s, ph).outcome == Next <==> Lets(c, o, ph)
  {
    hide *;
    SoundIsWorking(c);
    CleanParts(c, o);
    GateRanks();
    before, ph, s := EndArrives(c, o, status);
    ArrivalPlanned(c, o, status, before, ph, s);
    SoundValid(c, ph);
    ArrivalClean(c, o, status, before, ph, s);
    ArrivalCluster(c, o, status, before, ph, s);
    if ph == ValidateBootstrap { ArrivalSource(c, o, status, before, ph, s); }
    ProtectedFits(c, o, s.o, ph);
    ArrivalGoes(c, o, status, before, ph, s);
    Passes(c, o, status, before, ph, s);
  }

  /** A clean pass does not fail and leaves the world clean. */
  lemma CleanPass(c: Context, o: Objects, status: Status)
    requires Sound(c) && Clean(c, o) && CleanSource(c, o)
    ensures Pass(c, o, status).outcome != Failed && Clean(c, Pass(c, o, status).state.o)
  {
    hide *;
    var before, ph, s := CleanEnds(c, o, status);
    GoesClean(c, s, ph);
    CleanParts(c, Step(c, s, ph).state.o);
  }

  lemma CleanPassSource(c: Context, o: Objects, status: Status)
    requires Sound(c) && Clean(c, o) && CleanSource(c, o)
    ensures CleanSource(c, Pass(c, o, status).state.o)
  {
    hide *;
    SourceIsClean(c, o, Pass(c, o, status).state.o);
    if RecoveryEnabled(c.spec.database) {
      SoundIsWorking(c);
      WorkingParts(c);
      GateRanks();
      PlannedPhases(c);
      var before, ph, s := CleanEnds(c, o, status);
      ArrivalPlanned(c, o, status, before, ph, s);
      if ph == RecoveryStore {
        StoreGoesOn(c, s);
      } else {
        if Rank(ph) > 61 {
          ArrivalStable(c, o, status, before, ph, s, RecoveryStore);
          SourceSettled(c, s.o, s.memory);
        } else {
          ArrivalSource(c, o, status, before, ph, s);
          StepClusterSpec(c, s, ph);
        }
        NoCleaning(c, ph);
        StepRecoverySpec(c, s, ph);
        SourceIsClean(c, s.o, Step(c, s, ph).state.o);
      }
    }
  }

  lemma NoCleaning(c: Context, ph: Phase)
    ensures Planned(c, ph) && RecoveryEnabled(c.spec.database) ==> ph != CleanRecoveryStore
  {
    hide BackupEnabled, RecoveryEnabled;
  }

  lemma StoreGoesOn(c: Context, s: State)
    requires Step(c, s, RecoveryStore).outcome != Failed
    ensures CleanSource(c, Step(c, s, RecoveryStore).state.o)
  {
    hide Repaired, FailWith, Step, Ours, RecoveryEnabled;
    StepStores(c, s);
    FailsWith(c, s);
  }

  lemma AdvancesClean(c: Context, a: Objects, b: Objects)
    requires Clean(c, a) && CleanSource(c, a) && Advances(a, b)
    ensures Clean(c, b) && CleanSource(c, b)
  {
    hide CleanSlot, RecoverySpecOf, RecoveryDeclared, DeploymentAdvances, PublicationAdvances, JobAdvances,
         RolesReconciled, RolesBlocked, Advances;
    AdvancesParts(a, b);
    forall slot | CleanSlot(c, a, slot) ensures CleanSlot(c, b, slot) { AdvancesSlot(c, a, b, slot); }
  }

  lemma AdvancesParts(a: Objects, b: Objects)
    requires Advances(a, b)
    ensures b.recovery == a.recovery && b.cluster.Some? == a.cluster.Some?
    ensures b.cluster.Some? ==> b.cluster.value == a.cluster.value.(status := b.cluster.value.status)
  {
    hide DeploymentAdvances, PublicationAdvances, JobAdvances, RolesReconciled, RolesBlocked;
  }

  lemma AdvancesSlot(c: Context, a: Objects, b: Objects, slot: Slot)
    requires Advances(a, b) && CleanSlot(c, a, slot)
    ensures CleanSlot(c, b, slot)
  {
    hide Mine, Ours, CleanSecret, IntentChanged, Built, Desired, StorageAccepted, AllServing, RolesReconciled, HashOf,
         ScriptHash, FinalNames, Verdict;
    if slot == JobAt && b.job.Some? { HashReads(a.job.value, b.job.value); }
  }

  /** Catching up is advancing. */
  lemma CaughtUpAdvances(a: Objects, b: Objects)
    ensures CaughtUp(a, b) ==> Advances(a, b)
  {
    hide AllServing, RolesReconciled, RolesBlocked, Verdict, PublicationApplied;
  }

  // ---- What is done after a stop --------------------------------------------

  lemma DoneCluster(c: Context, a: Objects, b: Objects)
    requires ClusterKept(c, a, FinalNames(c)) && ClusterCaughtUp(a.cluster, b.cluster)
    ensures ClusterDone(c, b) && RolesUp(b)
  {
    hide IntentChanged, Desired, MergeCluster, Repaired, Ours, RolesReconciled, FinalNames, RolesBlocked;
  }

  lemma TemplateNamed(c: Context, a: Objects, m: Status, b: Objects, comp: Component)
    requires m.names == FinalNames(c) && b.secrets == a.secrets
    ensures TemplateFor(c, b, NamedStatus(c), comp) == TemplateFor(c, a, m, comp)
    ensures PsTemplateFor(c, b, NamedStatus(c), comp) == PsTemplateFor(c, a, m, comp)
  {
    hide NamesFor, Rules, Bundle, HookName;
  }

  /** A kept Deployment that catches up is done. */
  lemma DoneDeployment(c: Context, a: Objects, b: Objects, comp: Component, template: PodTemplate)
    requires DeploymentKept(c, a, comp, template) && CaughtUp(a, b)
    ensures DeploymentDone(c, b, comp, template)
  {
    hide WithController, Normal, RolledOut, AllServing, ClusterCaughtUp, PublicationCaughtUp, JobCaughtUp, Self;
    assert comp in a.deployments;
    ServingIsRolledOut(b.deployments[comp]);
  }

  lemma DonePublication(c: Context, a: Option<Publication>, b: Objects)
    requires PublicationDeclared(c, a) && PublicationCaughtUp(a, b.publication)
    ensures PublicationKept(c, b)
  {
    hide WithController, MergedLabels, DesiredPublication, Ours, LabelsFor, Self;
  }

  /** The publication is the desired one, applied or not. */
  predicate PublicationDeclared(c: Context, x: Option<Publication>) {
    DesiredPublication(c).Some? && x.Some? && UpdatedPublication(c, x.value, DesiredPublication(c).value) == x
  }

  /** What a stop at or after the core gate leaves, once caught up. */
  lemma CoreSettled(c: Context, o: Objects, status: Status, before: seq<Phase>, ph: Phase, s: State, a: Objects,
      b: Objects)
    requires Faithful(c.k) && Arrives(c, o, status, before, ph, s) && Rank(ph) >= 85 && CaughtUp(a, b)
    requires a.secrets == s.o.secrets && a.cluster == s.o.cluster && a.deployments == s.o.deployments
    ensures ClusterDone(c, b) && CoreDone(c, b) && RolesUp(b)
  {
    hide Faithful, FinalNames, Arrives, ClusterKept, ClusterDone, ComponentDone, RolesUp, Served, CaughtUp, Rank,
         Stable, Planned, ClusterCaughtUp;
    Ranks();
    ArrivalKnows(c, o, status, before, ph, s);
    CaughtUpParts(a, b);
    ClusterAgrees(c, s.o, a, FinalNames(c));
    DoneCluster(c, a, b);
    PlannedPhases(c);
    forall comp | IsCore(comp) ensures ComponentDone(c, b, comp) {
      ArrivalStable(c, o, status, before, ph, s, Serve(comp));
      Settled.StableServe(c, s.o, s.memory, comp);
      ComponentCatchesUp(c, s.o, s.memory, a, b, comp);
    }
  }

  lemma CaughtUpParts(a: Objects, b: Objects)
    requires CaughtUp(a, b)
    ensures ClusterCaughtUp(a.cluster, b.cluster) && PublicationCaughtUp(a.publication, b.publication)
        && JobCaughtUp(a.job, b.job)
    ensures b.secrets == a.secrets && b.recovery == a.recovery && b.cluster.Some? == a.cluster.Some?
  {
    hide PublicationCaughtUp, JobCaughtUp, DeploymentCaughtUp, RolesReconciled, RolesBlocked;
  }

  lemma ComponentCatchesUp(c: Context, s: Objects, m: Status, a: Objects, b: Objects, comp: Component)
    requires Served(c, s, m, comp) && m.names == FinalNames(c) && CaughtUp(a, b)
    requires a.secrets == s.secrets && a.deployments == s.deployments
    ensures ComponentDone(c, b, comp)
  {
    hide CaughtUp, FinalNames, TemplateFor, DeploymentKept, DeploymentDone, ServiceKept, MapKept, EnvReadable,
         Observed, Marked, ConditionOf;
    CaughtUpParts(a, b);
    TemplateNamed(c, s, m, b, comp);
    DeploymentKeptAgrees(c, s, a, comp, TemplateFor(c, s, m, comp).value);
    DoneDeployment(c, a, b, comp, TemplateFor(c, s, m, comp).value);
  }

  // ---- The measure falls ----------------------------------------------------

  /** The measure of a world whose first gates are done. */
  lemma DoneMeasures(c: Context, b: Objects)
    ensures Measure(c, b) <= 7 && (ClusterDone(c, b) ==> Measure(c, b) <= 6)
    ensures ClusterDone(c, b) && CoreDone(c, b) ==> Measure(c, b) <= if c.spec.powersync.None? then 0 else 5
    ensures ClusterDone(c, b) && CoreDone(c, b) && RolesUp(b) ==> Measure(c, b) <= 4
    ensures ClusterDone(c, b) && CoreDone(c, b) && RolesUp(b) && PublicationKept(c, b)
        ==> Measure(c, b) <= if JobDone(c, b) then 1 else if JobLeaving(c, b) then 3 else 2
    ensures ClusterDone(c, b) && CoreDone(c, b) && RolesUp(b) && PublicationKept(c, b) && WorkloadDone(c, b)
            && JobDone(c, b)
        ==> Measure(c, b) == 0
  {
    hide ClusterDone, CoreDone, RolesUp, PublicationKept, JobDone, JobLeaving, WorkloadDone;
  }

  /** A stop at the publication: it is as declared now, whatever it was. */
  lemma PublicationWaits(c: Context, s: State)
    requires AwaitPublication(c, s).outcome == Requeue
    ensures var o := AwaitPublication(c, s).state.o;
            o == s.o.(publication := o.publication) && PublicationDeclared(c, o.publication)
  {
    hide DesiredPublication, WithController, MergedLabels, Ours, SetCondition, LabelsFor, Self;
    OwnedIsKept(c, PublicationAt);
    if s.o.publication.Some? && Mine(c, s.o.publication.value.meta) {
      RepairIsKept(c, s.o.publication.value.meta, PublicationAt);
    }
  }

  /** A stop at the Job: it was absent and is created, carries another hash and is
      deleted, or is still running. */
  predicate JobAwaited(c: Context, x: Option<Job>, y: Option<Job>) {
    && y.Some?
    && (if x.None? then HashOf(y.value) == ScriptHash(c) && !y.value.deleting
        else if HashOf(x.value) != ScriptHash(c) then y.value.deleting
        else && HashOf(y.value) == ScriptHash(c) && y.value.deleting == x.value.deleting
             && Verdict(x.value.conditions) != Complete)
  }

  /** The Job as the Job phase went on past it. */
  predicate JobPassed(c: Context, x: Option<Job>, y: Option<Job>) {
    x.Some? && y.Some? && HashOf(y.value) == ScriptHash(c) && y.value.deleting == x.value.deleting
  }

  lemma CheckJobMoves(c: Context, s: State)
    ensures var r := CheckJob(c, s); r.outcome != Failed ==> r.state.o == s.o.(job := r.state.o.job)
    ensures var r := CheckJob(c, s); r.outcome == Requeue ==> JobAwaited(c, s.o.job, r.state.o.job)
    ensures var r := CheckJob(c, s); r.outcome == Next ==> JobPassed(c, s.o.job, r.state.o.job)
  {
    hide WithController, MergedLabels, Ours, ScriptHash, Verdict, LabelsFor, Self, OwnedMeta;
    if s.o.job.Some? && Mine(c, s.o.job.value.meta) { HashReads(s.o.job.value, OwnedJob(c, s.o.job.value)); }
  }

  lemma JobMoves(c: Context, s: State)
    ensures var r := AwaitJob(c, s); r.outcome != Failed ==> r.state.o == s.o.(job := r.state.o.job)
    ensures var r := AwaitJob(c, s); r.outcome == Requeue ==> JobAwaited(c, s.o.job, r.state.o.job)
    ensures var r := AwaitJob(c, s); r.outcome == Next ==> JobPassed(c, s.o.job, r.state.o.job)
  {
    hide CheckJob, JobAwaited, JobPassed, SetCondition;
    CheckJobMoves(c, s);
  }

  /** The Job that was waited for, or passed, caught up. */
  lemma JobCaught(c: Context, o: Objects, y: Option<Job>, b: Objects)
    requires JobCaughtUp(y, b.job)
    ensures JobAwaited(c, o.job, y) ==> JobDone(c, b) || (!JobLeaving(c, b) && JobLeaving(c, o))
    ensures JobPassed(c, o.job, y) ==> JobDone(c, b) || (!JobLeaving(c, b) && !JobDone(c, o) && JobLeaving(c, o))
  {
    hide Verdict, ScriptHash;
    if y.Some? && b.job.Some? { HashReads(y.value, b.job.value); }
  }

  lemma ArrivalPublication(c: Context, o: Objects, status: Status, before: seq<Phase>, ph: Phase, s: State, b: Objects)
    requires Faithful(c.k) && Arrives(c, o, status, before, ph, s) && Rank(ph) > 92 && c.spec.powersync.Some?
    requires PublicationCaughtUp(s.o.publication, b.publication)
    ensures PublicationKept(c, b)
  {
    hide Faithful, Arrives, Rank, Stable, UpdatedPublication, DesiredPublication, Planned, PublicationCaughtUp,
         PublicationApplied, Rules, RolesUp, ScriptKept, JobKept, Marked;
    GateRanks();
    PlannedPhases(c);
    ArrivalStable(c, o, status, before, ph, s, PublicationGate);
    StableGates(c, s.o, s.memory);
    DonePublication(c, s.o.publication, b);
  }

  lemma WorkloadSettled(c: Context, o: Objects, status: Status, before: seq<Phase>, s: State, b: Objects)
    requires Faithful(c.k) && Arrives(c, o, status, before, PsReady, s) && c.spec.powersync.Some? && CaughtUp(s.o, b)
    ensures WorkloadDone(c, b)
  {
    hide Faithful, CaughtUp, Arrives, Stable, Rank, Planned, PsTemplateFor, DeploymentDone, DeploymentKept,
         ServiceKept, CompactKept, FinalNames;
    Ranks();
    PlannedKinds(c);
    ArrivalStable(c, o, status, before, PsReady, s, PsApiDeployment);
    ArrivalStable(c, o, status, before, PsReady, s, PsReplicatorDeployment);
    ArrivalKnows(c, o, status, before, PsReady, s);
    StableWorkloads(c, s.o, s.memory);
    CaughtUpParts(s.o, b);
    TemplateNamed(c, s.o, s.memory, b, PsApi);
    TemplateNamed(c, s.o, s.memory, b, PsReplicator);
    DoneDeployment(c, s.o, b, PsApi, PsTemplateFor(c, s.o, s.memory, PsApi));
    DoneDeployment(c, s.o, b, PsReplicator, PsTemplateFor(c, s.o, s.memory, PsReplicator));
  }

  /** A clean pass that asks to be called again has brought the world closer. */
  lemma RequeueFalls(c: Context, o: Objects, status: Status, b: Objects)
    requires Sound(c) && Clean(c, o) && CleanSource(c, o) && CaughtUp(Pass(c, o, status).state.o, b)
    requires Pass(c, o, status).outcome == Requeue
    ensures Measure(c, b) < Measure(c, o)
  {
    hide *;
    var before, ph, s := CleanEnds(c, o, status);
    var a := Step(c, s, ph).state.o;
    SoundIsWorking(c);
    WorkingParts(c);
    CaughtUpParts(a, b);
    GateRanks();
    PlannedPhases(c);
    Writers(c);
    WaitingPhases(ph);
    LetsAt(c, o, ph);
    HeldMeasures(c, o);
    DoneMeasures(c, b);
    ArrivalPlanned(c, o, status, before, ph, s);
    ArrivalKnows(c, o, status, before, ph, s);
    WaitsLet(c, s);
    match ph {
      case EnsureCluster => StepCluster(c, s); ClusterGoes(c, s); DoneCluster(c, a, b);
      case WaitForDatabase => StepDatabase(c, s); DoneCluster(c, a, b);
      case CoreGate => StepCoreGate(c, s); CoreSettled(c, o, status, before, ph, s, a, b);
      case RolesGate => StepRoles(c, s); CoreSettled(c, o, status, before, ph, s, a, b);
      case PublicationGate =>
        StepPublication(c, s);
        PublicationWaits(c, s);
        DonePublication(c, a.publication, b);
        CoreSettled(c, o, status, before, ph, s, a, b);
      case CdcJob =>
        ArrivalKeeps(c, o, status, before, ph, s, JobAt);
        GrantsRead(c, o, s.o);
        StepJob(c, s);
        JobMoves(c, s);
        JobCaught(c, o, a.job, b);
        ArrivalPublication(c, o, status, before, ph, s, b);
        CoreSettled(c, o, status, before, ph, s, a, b);
      case PsReady =>
        StepPsReady(c, s);
        ArrivalPublication(c, o, status, before, ph, s, b);
        WorkloadSettled(c, o, status, before, s, b);
        PassedJob(c, o, status, before, ph, s);
        JobCaught(c, o, s.o.job, b);
        CoreSettled(c, o, status, before, ph, s, a, b);
    }
  }

  lemma WaitingPhases(ph: Phase)
    ensures Waits(ph) <==> || ph.EnsureCluster? || ph.WaitForDatabase? || ph.CoreGate? || ph.RolesGate?
                           || ph.PublicationGate? || ph.CdcJob? || ph.PsReady?
  {
  }

  // ---- The measure never rises ----------------------------------------------

  lemma CoreStays(c: Context, a: Objects, b: Objects)
    requires CoreAdvances(a, b)
    ensures (ClusterDone(c, a) ==> ClusterDone(c, b)) && (RolesUp(a) ==> RolesUp(b))
    ensures forall comp, template :: DeploymentDone(c, a, comp, template) ==> DeploymentDone(c, b, comp, template)
  {
    hide IntentChanged, Desired, MergeCluster, Repaired, Ours, FinalNames, WithController, Normal, RolledOut,
         RolesReconciled, RolesBlocked, Self, AllServing;
    forall comp, template | DeploymentDone(c, a, comp, template) ensures DeploymentDone(c, b, comp, template) {
      assert comp in b.deployments.Keys;
      ServingIsRolledOut(a.deployments[comp]);
      ServingIsRolledOut(b.deployments[comp]);
    }
  }

  lemma ComponentsStay(c: Context, a: Objects, b: Objects)
    requires CoreAdvances(a, b)
    ensures (CoreDone(c, a) ==> CoreDone(c, b)) && (WorkloadDone(c, a) ==> WorkloadDone(c, b))
  {
    hide DeploymentDone, ClusterAdvances, DeploymentAdvances, ClusterDone, RolesUp, TemplateFor, PsTemplateFor,
         FinalNames;
    CoreStays(c, a, b);
    assert NamedStatus(c).names == FinalNames(c);
    forall comp ensures TemplateFor(c, b, NamedStatus(c), comp) == TemplateFor(c, a, NamedStatus(c), comp)
                        && PsTemplateFor(c, b, NamedStatus(c), comp) == PsTemplateFor(c, a, NamedStatus(c), comp)
    {
      TemplateNamed(c, a, NamedStatus(c), b, comp);
    }
    if CoreDone(c, a) {
      forall comp | IsCore(comp) ensures ComponentDone(c, b, comp) { assert ComponentDone(c, a, comp); }
    }
  }

  lemma GrantsStay(c: Context, a: Objects, b: Objects)
    requires PublicationAdvances(a.publication, b.publication) && JobAdvances(a.job, b.job)
    ensures (PublicationKept(c, a) ==> PublicationKept(c, b)) && (JobDone(c, a) ==> JobDone(c, b))
        && (JobLeaving(c, b) ==> JobLeaving(c, a))
  {
    hide DesiredPublication, WithController, MergedLabels, Ours, LabelsFor, Self, ScriptHash, Verdict;
    if a.job.Some? && b.job.Some? { HashReads(a.job.value, b.job.value); }
  }

  /** Whatever part of its work the environment does, the world comes no less close. */
  lemma AdvancesMeasure(c: Context, a: Objects, b: Objects)
    requires Advances(a, b)
    ensures Measure(c, b) <= Measure(c, a)
  {
    hide ClusterDone, CoreDone, RolesUp, PublicationKept, JobDone, JobLeaving, WorkloadDone, CoreAdvances,
         PublicationAdvances, JobAdvances;
    CoreStays(c, a, b);
    ComponentsStay(c, a, b);
    GrantsStay(c, a, b);
  }

  /** On arrival past the core gate, the Cluster and the core are done. */
  lemma CoreIsDone(c: Context, o: Objects, status: Status, before: seq<Phase>, ph: Phase, s: State)
    requires Faithful(c.k) && Arrives(c, o, status, before, ph, s)
    ensures Rank(ph) > 71 ==> ClusterDone(c, s.o)
    ensures Rank(ph) > 85 ==> CoreDone(c, s.o)
  {
    hide Faithful, FinalNames, Arrives, ClusterKept, Rank, Stable, Planned, Served, IntentKept, DeploymentDone,
         TemplateFor;
    Ranks();
    PlannedPhases(c);
    ArrivalKnows(c, o, status, before, ph, s);
    if Rank(ph) > 71 {
      ArrivalStable(c, o, status, before, ph, s, WaitForDatabase);
      Settled.StableCluster(c, s.o, s.memory);
    }
    if Rank(ph) > 85 {
      ArrivalStable(c, o, status, before, ph, s, CoreGate);
      StableCore(c, s.o, s.memory);
      forall comp | IsCore(comp) ensures ComponentDone(c, s.o, comp) {
        ArrivalStable(c, o, status, before, ph, s, Serve(comp));
        Settled.StableServe(c, s.o, s.memory, comp);
        TemplateNamed(c, s.o, s.memory, s.o, comp);
        ServedIsDone(c, s.o, s.memory, comp);
      }
    }
  }

  lemma ServedIsDone(c: Context, o: Objects, m: Status, comp: Component)
    requires Served(c, o, m, comp) && CoreReady(m) && IsCore(comp)
    ensures TemplateFor(c, o, m, comp).Some? && DeploymentDone(c, o, comp, TemplateFor(c, o, m, comp).value)
  {
    hide TemplateFor, DeploymentCurrent, ServiceKept, MapKept, EnvReadable, Marked, ConditionOf, RolledOut;
    assert ServiceOf(m, comp).ready;
  }

  /** On arrival past the gates of PowerSync, what they asked for is there. */
  lemma GrantsAreDone(c: Context, o: Objects, status: Status, before: seq<Phase>, ph: Phase, s: State)
    requires Faithful(c.k) && Arrives(c, o, status, before, ph, s) && c.spec.powersync.Some?
    ensures (Rank(ph) > 91 ==> RolesUp(s.o)) && (Rank(ph) > 92 ==> PublicationKept(c, s.o))
        && (Rank(ph) > 94 ==> CurrentJobDone(c, s.o))
  {
    hide Faithful, Arrives, Rank, Stable, Planned, PublicationKept, RolesUp, Rules, ScriptKept, Marked,
         WithController, OwnedJob, Self, Ours, ScriptHash, Verdict, HashOf;
    GateRanks();
    PlannedPhases(c);
    StableGates(c, s.o, s.memory);
    if Rank(ph) > 91 { ArrivalStable(c, o, status, before, ph, s, RolesGate); }
    if Rank(ph) > 92 { ArrivalStable(c, o, status, before, ph, s, PublicationGate); }
    if Rank(ph) > 94 { ArrivalStable(c, o, status, before, ph, s, CdcJob); }
  }

  /** At the end of a pass the workloads are rolled out. */
  lemma WorkloadsAreDone(c: Context, o: Objects, status: Status, before: seq<Phase>, s: State)
    requires Faithful(c.k) && Arrives(c, o, status, before, Finish, s) && c.spec.powersync.Some?
    ensures WorkloadDone(c, s.o)
  {
    hide Faithful, Arrives, Stable, Rank, Planned, PsTemplateFor, DeploymentCurrent, ServiceKept, CompactKept,
         FinalNames, RolledOut, Marked;
    Ranks();
    PlannedKinds(c);
    ArrivalStable(c, o, status, before, Finish, s, PsApiDeployment);
    ArrivalStable(c, o, status, before, Finish, s, PsReplicatorDeployment);
    ArrivalStable(c, o, status, before, Finish, s, PsReady);
    ArrivalKnows(c, o, status, before, Finish, s);
    StableWorkloads(c, s.o, s.memory);
    ReadyIsRolledOut(c, s.o, s.memory);
    TemplateNamed(c, s.o, s.memory, s.o, PsApi);
    TemplateNamed(c, s.o, s.memory, s.o, PsReplicator);
  }

  lemma ReadyIsRolledOut(c: Context, o: Objects, m: Status)
    requires Stable(c, o, m, PsReady)
    ensures PsApi in o.deployments && RolledOut(o.deployments[PsApi]) && PsReplicator in o.deployments
        && RolledOut(o.deployments[PsReplicator])
  {
    hide SecretsStable, StorageStable, CoreStable, GatesStable, RolledOut, Marked;
  }

  /** The Job that a pass waits for, or came by, leaves only if it was leaving. */
  lemma JobStays(c: Context, o: Objects, a: Objects)
    ensures JobAwaited(c, o.job, a.job) && JobLeaving(c, a) ==> JobLeaving(c, o)
    ensures JobPassed(c, o.job, a.job) && CurrentJobDone(c, a) ==> JobDone(c, a) || (!JobDone(c, o) && JobLeaving(c, o))
  {
    hide Verdict, ScriptHash, HashOf;
  }

  /** A clean pass leaves the world no less close, whether it completes or asks to be called again. */
  lemma PassStays(c: Context, o: Objects, status: Status)
    requires Sound(c) && Clean(c, o) && CleanSource(c, o)
    ensures Measure(c, Pass(c, o, status).state.o) <= Measure(c, o)
  {
    hide *;
    var before, ph, s := CleanEnds(c, o, status);
    var a := Step(c, s, ph).state.o;
    SoundIsWorking(c);
    WorkingParts(c);
    GateRanks();
    PlannedPhases(c);
    Writers(c);
    WaitingPhases(ph);
    LetsAt(c, o, ph);
    HeldMeasures(c, o);
    DoneMeasures(c, a);
    ArrivalPlanned(c, o, status, before, ph, s);
    CoreIsDone(c, o, status, before, ph, s);
    WaitsLet(c, s);
    if c.spec.powersync.Some? { GrantsAreDone(c, o, status, before, ph, s); }
    match ph {
      case EnsureCluster =>
      case WaitForDatabase =>
      case CoreGate => StepCoreGate(c, s);
      case RolesGate => StepRoles(c, s);
      case PublicationGate =>
        StepPublication(c, s);
        PublicationWaits(c, s);
        CoreUnmoved(c, s.o, a);
      case CdcJob =>
        ArrivalKeeps(c, o, status, before, ph, s, JobAt);
        GrantsRead(c, o, s.o);
        StepJob(c, s);
        JobMoves(c, s);
        CoreUnmoved(c, s.o, a);
        JobStays(c, o, a);
      case PsReady => StepPsReady(c, s); PassedJob(c, o, status, before, ph, s);
      case Finish =>
        StepFinish(c, s);
        if c.spec.powersync.Some? {
          PassedJob(c, o, status, before, ph, s);
          WorkloadsAreDone(c, o, status, before, s);
        }
    }
  }

  lemma CoreUnmoved(c: Context, a: Objects, b: Objects)
    requires b == a.(publication := b.publication, job := b.job)
    ensures (ClusterDone(c, a) ==> ClusterDone(c, b)) && (CoreDone(c, a) ==> CoreDone(c, b))
        && (RolesUp(a) ==> RolesUp(b))
    ensures b.publication == a.publication && PublicationKept(c, a) ==> PublicationKept(c, b)
  {
    hide ClusterDone, CoreDone, RolesUp, WorkloadDone, DeploymentDone, UpdatedPublication, DesiredPublication,
         PublicationApplied;
    CoreStays(c, a, b);
    ComponentsStay(c, a, b);
  }

  /** The Job at the end of the workloads, as the pass found it but for its metadata. */
  lemma PassedJob(c: Context, o: Objects, status: Status, before: seq<Phase>, ph: Phase, s: State)
    requires Faithful(c.k) && Arrives(c, o, status, before, ph, s) && c.spec.powersync.Some? && Rank(ph) > 94
    ensures JobPassed(c, o.job, s.o.job) && (JobDone(c, s.o) || (!JobDone(c, o) && JobLeaving(c, o)))
  {
    hide *;
    GateRanks();
    PlannedPhases(c);
    Writers(c);
    ArrivalPlanned(c, o, status, before, ph, s);
    GrantsAreDone(c, o, status, before, ph, s);
    var early, t := ArrivalWritten(c, o, status, before, ph, s, JobAt);
    GrantsRead(c, o, t.o);
    StepJob(c, t);
    JobMoves(c, t);
    GrantsRead(c, AwaitJob(c, t).state.o, s.o);
    JobStays(c, o, s.o);
  }

  /** With valid inputs and in a clean world: a pass never fails, the world stays clean and comes
      no less close whatever part of its work the environment does; and asking to be called
      again has brought it strictly closer once the environment caught up. */
  lemma MeasureFalls(c: Context, o: Objects, status: Status, b: Objects)
    requires Sound(c) && Clean(c, o) && CleanSource(c, o) && Advances(Pass(c, o, status).state.o, b)
    ensures Pass(c, o, status).outcome != Failed && Clean(c, b) && CleanSource(c, b) && Measure(c, b) <= Measure(c, o)
    ensures Pass(c, o, status).outcome == Requeue && CaughtUp(Pass(c, o, status).state.o, b)
        ==> Measure(c, b) < Measure(c, o)
  {
    hide *;
    var a := Pass(c, o, status).state.o;
    CleanPass(c, o, status);
    CleanPassSource(c, o, status);
    AdvancesClean(c, a, b);
    PassStays(c, o, status);
    AdvancesMeasure(c, a, b);
    if Pass(c, o, status).outcome == Requeue && CaughtUp(a, b) { RequeueFalls(c, o, status, b); }
  }

  // ---- Whole sequences of passes --------------------------------------------

  /** Measures agree between contexts that differ only in time and random draw. */
  lemma AlikeCore(c: Context, d: Context, o: Objects, comp: Component)
    requires Alike(c, d)
    ensures ComponentDone(c, o, comp) == ComponentDone(d, o, comp)
    ensures DeploymentDone(c, o, comp, PsTemplateFor(c, o, NamedStatus(c), comp))
        == DeploymentDone(d, o, comp, PsTemplateFor(d, o, NamedStatus(d), comp))
  {
    hide TemplateFor, PsTemplateFor, DeploymentKept, RolledOut, Alike, NamedStatus;
    AlikeNames(c, d);
    AlikeTemplates(c, d, o, NamedStatus(c), comp);
    AlikeKept(c, d, o);
  }

  lemma AlikeNames(c: Context, d: Context)
    requires Alike(c, d)
    ensures FinalNames(d) == FinalNames(c) && NamedStatus(d) == NamedStatus(c) && Alike(d, c) && d.spec == c.spec
        && d.name == c.name
  {
  }

  lemma AlikeGrants(c: Context, d: Context, o: Objects)
    requires Alike(c, d)
    ensures ClusterKept(c, o, FinalNames(c)) == ClusterKept(d, o, FinalNames(d))
    ensures PublicationKept(c, o) == PublicationKept(d, o) && ScriptHash(c) == ScriptHash(d)
  {
    hide MergeCluster, IntentChanged, BuildCluster, WithoutProject, WithController, MergedLabels, DesiredPublication,
         LabelsFor, Self, ScriptHash, Rules, Bundle, FinalNames, NamesFor;
    AlikeNames(c, d);
    AlikeMeta(c, d);
  }

  lemma AlikeMeasure(c: Context, d: Context, o: Objects)
    requires Alike(c, d)
    ensures Measure(c, o) == Measure(d, o)
  {
    hide ComponentDone, PublicationKept, ClusterKept, RolesUp, Verdict, HashOf, ScriptHash, FinalNames, PsTemplateFor,
         DeploymentDone, DatabaseUp, Alike;
    AlikeNames(c, d);
    AlikeGrants(c, d, o);
    forall comp ensures ComponentDone(c, o, comp) == ComponentDone(d, o, comp) { AlikeCore(c, d, o, comp); }
    AlikeCore(c, d, o, PsApi);
    AlikeCore(c, d, o, PsReplicator);
  }

  function Nth<T>(s: seq<T>, i: int, otherwise: T): T { if 0 <= i < |s| then s[i] else otherwise }

  /** The i-th pass of a sequence. */
  function RoundPass(c: Context, cs: seq<Context>, os: seq<Objects>, sts: seq<Status>, i: int): Result {
    Pass(Nth(cs, i, c), Nth(os, i, NO_OBJECTS), Nth(sts, i, FRESH_STATUS))
  }

  /** One pass, the environment doing some of its work after it. */
  ghost predicate Round(c: Context, cs: seq<Context>, os: seq<Objects>, sts: seq<Status>, i: int) {
    && Alike(c, Nth(cs, i, c)) && Sound(Nth(cs, i, c))
    && Advances(RoundPass(c, cs, os, sts, i).state.o, Nth(os, i + 1, NO_OBJECTS))
    && Nth(sts, i + 1, FRESH_STATUS) == RoundPass(c, cs, os, sts, i).state.saved
  }

  /** Did the environment catch up after it? */
  predicate FullRound(c: Context, cs: seq<Context>, os: seq<Objects>, sts: seq<Status>, i: int) {
    CaughtUp(RoundPass(c, cs, os, sts, i).state.o, Nth(os, i + 1, NO_OBJECTS))
  }

  /** How often it did in the first n rounds. */
  function FullRounds(c: Context, cs: seq<Context>, os: seq<Objects>, sts: seq<Status>, n: nat): nat {
    if n == 0 then 0 else FullRounds(c, cs, os, sts, n - 1) + if FullRound(c, cs, os, sts, n - 1) then 1 else 0
  }

  /** Passes over one unchanging declaration, the environment working between them. */
  ghost predicate Rounds(c: Context, cs: seq<Context>, os: seq<Objects>, sts: seq<Status>) {
    |os| == |sts| == |cs| + 1 && forall i :: 0 <= i < |cs| ==> Round(c, cs, os, sts, i)
  }

  /** The objects after n passes, clean. */
  ghost predicate CleanAfter(c: Context, os: seq<Objects>, n: int) {
    Clean(c, Nth(os, n, NO_OBJECTS)) && CleanSource(c, Nth(os, n, NO_OBJECTS))
  }

  function MeasureAfter(c: Context, os: seq<Objects>, n: int): nat { Measure(c, Nth(os, n, NO_OBJECTS)) }

  lemma AlikeClean(c: Context, d: Context, o: Objects)
    requires Alike(c, d) && Clean(c, o) && CleanSource(c, o)
    ensures Clean(d, o) && CleanSource(d, o)
  {
    hide CleanSlot, Alike, RecoverySpecOf;
    AlikeNames(c, d);
    forall slot | CleanSlot(c, o, slot) ensures CleanSlot(d, o, slot) { AlikeSlot(c, d, o, slot); }
  }

  lemma AlikeSlot(c: Context, d: Context, o: Objects, slot: Slot)
    requires Alike(c, d) && CleanSlot(c, o, slot)
    ensures CleanSlot(d, o, slot)
  {
    AlikeNames(c, d);
    AlikeMeta(c, d);
    hide IntentChanged, BuildCluster, WithController, Self, ScriptHash, NamesFor, Verdict, HashOf, StorageAccepted,
         RolesBlocked, Rules, Bundle, DesiredPublication, LabelsFor;
  }

  /** One round: the world stays clean, and a pass that did not complete brought it closer. */
  lemma RoundFalls(c: Context, cs: seq<Context>, os: seq<Objects>, sts: seq<Status>, i: int)
    requires Round(c, cs, os, sts, i) && CleanAfter(c, os, i)
    ensures CleanAfter(c, os, i + 1) && RoundPass(c, cs, os, sts, i).outcome != Failed
        && MeasureAfter(c, os, i + 1) <= MeasureAfter(c, os, i)
    ensures RoundPass(c, cs, os, sts, i).outcome == Requeue && FullRound(c, cs, os, sts, i)
        ==> MeasureAfter(c, os, i + 1) < MeasureAfter(c, os, i)
  {
    hide Pass, Sound, Clean, CleanSource, CaughtUp, Advances, Measure, Alike, Nth;
    var d, a, b := Nth(cs, i, c), Nth(os, i, NO_OBJECTS), Nth(os, i + 1, NO_OBJECTS);
    AlikeNames(c, d);
    AlikeClean(c, d, a);
    MeasureFalls(d, a, Nth(sts, i, FRESH_STATUS), b);
    AlikeClean(d, c, b);
    AlikeMeasure(c, d, a);
    AlikeMeasure(c, d, b);
  }

  /** Did the passes before the n-th ask to be called again? */
  ghost predicate AllRequeue(c: Context, cs: seq<Context>, os: seq<Objects>, sts: seq<Status>, n: int) {
    forall j :: 0 <= j < n ==> RoundPass(c, cs, os, sts, j).outcome == Requeue
  }

  /** From any clean world, whatever its status, and however slowly the environment works: once
      it has caught up after eight passes, one has completed; those before it asked to be called
      again, and the world stays clean. */
  lemma Converges(c: Context, cs: seq<Context>, os: seq<Objects>, sts: seq<Status>) returns (i: nat)
    requires Rounds(c, cs, os, sts) && CleanAfter(c, os, 0) && FullRounds(c, cs, os, sts, |cs|) >= 8
    ensures i < |cs| && RoundPass(c, cs, os, sts, i).outcome == Next && AllRequeue(c, cs, os, sts, i)
        && CleanAfter(c, os, i)
  {
    hide RoundPass, CleanAfter, Measure, Round, Nth, FullRound;
    i := 0;
    DoneMeasures(c, Nth(os, 0, NO_OBJECTS));
    while i < |cs| && RoundPass(c, cs, os, sts, i).outcome != Next
      invariant i <= |cs| && CleanAfter(c, os, i) && AllRequeue(c, cs, os, sts, i)
      invariant MeasureAfter(c, os, i) + FullRounds(c, cs, os, sts, i) <= 7
    {
      RoundFalls(c, cs, os, sts, i);
      i := i + 1;
    }
  }
}
