/** What a pass delivers, read off the objects it leaves: workloads with all their replicas,
    and, without PowerSync, nothing of PowerSync that the project controls. */
module Delivery {
  import opened Kube
  import opened World
  import opened Operator
  import opened Steps
  import opened Frames
  import opened Durables
  import opened Gates
  import opened Chain
  import opened Keeping
  import opened Settled
  import opened Ordering
  import opened Settling

  // ---- Workloads ------------------------------------------------------------

  /** Declared with n replicas, all of the current generation, all updated, ready and available. */
  predicate InService(x: Deployment, n: int) {
    x.replicas == Some(n) && x.status == RolloutStatus(x.generation, n, n, n, 0)
  }

  /** A component's Deployment has the declared replicas; that of the replicator, of which there
      must never be two, is recreated. */
  predicate Deployed(c: Context, o: Objects, comp: Component) {
    && comp in o.deployments && o.deployments[comp].replicas == Some(c.k.replicas(c.spec, comp))
    && (comp == PsReplicator ==> o.deployments[comp].strategy == Recreate)
  }

  /** Its status says ready exactly when the Deployment is in service, and how many are available. */
  predicate Shown(c: Context, o: Objects, m: Status, comp: Component) {
    && Deployed(c, o, comp)
    && ServiceOf(m, comp) == ServiceStatus(InService(o.deployments[comp], c.k.replicas(c.spec, comp)),
                                           o.deployments[comp].status.available)
  }

  lemma ObservedShows(c: Context, o: Objects, comp: Component)
    requires Deployed(c, o, comp)
    ensures Observed(o, comp) == ServiceStatus(InService(o.deployments[comp], c.k.replicas(c.spec, comp)),
                                               o.deployments[comp].status.available)
  {
  }

  lemma EnsureDeploys(c: Context, ph: Phase, s: State, comp: Component, template: Pods.PodTemplate)
    requires EnsureDeployment(c, ph, s, comp, template).outcome == Next
    ensures Deployed(c, EnsureDeployment(c, ph, s, comp, template).state.o, comp)
  {
    hide WithController, Pods.Normal, Self, OwnedMeta;
  }

  /** A core service that was served is shown as it is. */
  lemma ServeShows(c: Context, s: State, comp: Component)
    requires Step(c, s, Serve(comp)).outcome == Next
    ensures Shown(c, Step(c, s, Serve(comp)).state.o, Step(c, s, Serve(comp)).state.memory, comp)
  {
    hide Step, EnsureDeployment, EnsureService, ReportComponent, CoreTemplate, PrepareComponent, FailComponent,
         FailCore, Deployed, InService, Observed;
    StepServe(c, s, comp);
    ServeGoesThrough(c, s, comp);
    var p := PrepareComponent(c, s, comp).state;
    var template := CoreTemplate(c, p, comp).value;
    EnsureDeploys(c, Serve(comp), p, comp, template);
    var d := EnsureDeployment(c, Serve(comp), p, comp, template).state;
    ServiceObjects(c, Serve(comp), d, comp);
    var v := EnsureService(c, Serve(comp), d, comp).state;
    DeployedAgrees(c, d.o, v.o, comp);
    ReportSettles(c, v, comp);
    ObservedShows(c, v.o, comp);
  }

  /** What serving a component goes through. */
  lemma ServeGoesThrough(c: Context, s: State, comp: Component)
    requires ServeComponent(c, s, comp).outcome == Next
    ensures var p := PrepareComponent(c, s, comp).state;
            && CoreTemplate(c, p, comp).Some?
            && var d := EnsureDeployment(c, Serve(comp), p, comp, CoreTemplate(c, p, comp).value);
            && d.outcome == Next
            && var v := EnsureService(c, Serve(comp), d.state, comp);
            && v.outcome == Next
            && ReportComponent(c, v.state, comp) == ServeComponent(c, s, comp)
  {
    hide EnsureDeployment, EnsureService, ReportComponent, CoreTemplate, PrepareComponent, MarkAndSave;
  }

  lemma DeployedAgrees(c: Context, a: Objects, b: Objects, comp: Component)
    requires SameKey(a.deployments, b.deployments, comp)
    ensures Deployed(c, a, comp) ==> Deployed(c, b, comp)
  {
  }

  lemma ShownAgrees(c: Context, a: Objects, m: Status, b: Objects, n: Status, comp: Component)
    requires SameKey(a.deployments, b.deployments, comp) && ServiceOf(n, comp) == ServiceOf(m, comp)
    ensures Shown(c, a, m, comp) ==> Shown(c, b, n, comp)
  {
    hide InService;
  }

  /** Behind the core services nothing touches them, whatever fails. */
  predicate Behind(ph: Phase) { !ph.Serve? && !ph.CleanPowerSync? }

  lemma EndsSpareServices(c: Context, s: State, comp: Component)
    ensures ServiceOf(Step(c, s, CoreGate).state.memory, comp) == ServiceOf(s.memory, comp)
    ensures ServiceOf(Step(c, s, Finish).state.memory, comp) == ServiceOf(s.memory, comp)
  {
    hide Step, CoreReady, SetCondition;
    StepCoreGate(c, s);
    StepFinish(c, s);
    MarksSpareServices(s.memory.(phase := Provisioning), Ready, false, CoreServicesPending, c.generation, c.now);
    MarksSpareServices(s.memory.(phase := Running, observed := c.generation), Ready, true, AllComponentsReady,
                       c.generation, c.now);
  }

  lemma MarksSpareServices(m: Status, t: ConditionType, isTrue: bool, reason: Reason, generation: int, now: int)
    ensures SetCondition(m, t, isTrue, reason, generation, now).services == m.services
  {
  }

  lemma WritesNoDeployment(ph: Phase, comp: Component)
    requires IsCore(comp) && !ph.Serve? && (ph.CleanPowerSync? ==> ph.slot != DeploymentAt(comp))
    ensures !Writes(ph, DeploymentAt(comp))
  {
  }

  lemma StepKeepsShown(c: Context, s: State, ph: Phase, comp: Component)
    requires IsCore(comp) && Spares([ph], comp)
    requires Shown(c, s.o, s.memory, comp)
    ensures Shown(c, Step(c, s, ph).state.o, Step(c, s, ph).state.memory, comp)
    ensures ServiceOf(Step(c, s, ph).state.memory, comp) == ServiceOf(s.memory, comp)
  {
    hide Step, Shown, Writes, ServiceOf, SameConditions, Reports;
    assert ph == [ph][0];
    WritesNoDeployment(ph, comp);
    StepKeeps(c, s, ph, DeploymentAt(comp));
    StepEffect(c, s, ph);
    EndsSpareServices(c, s, comp);
    ShownAgrees(c, s.o, s.memory, Step(c, s, ph).state.o, Step(c, s, ph).state.memory, comp);
  }

  predicate Spares(plan: seq<Phase>, comp: Component) {
    forall i :: 0 <= i < |plan| ==> !plan[i].Serve? && (plan[i].CleanPowerSync? ==> plan[i].slot != DeploymentAt(comp))
  }

  lemma {:induction false} RunKeepsShown(c: Context, s: State, plan: seq<Phase>, comp: Component)
    requires IsCore(comp) && Spares(plan, comp) && Shown(c, s.o, s.memory, comp)
    ensures Shown(c, Run(c, s, plan).state.o, Run(c, s, plan).state.memory, comp)
    ensures ServiceOf(Run(c, s, plan).state.memory, comp) == ServiceOf(s.memory, comp)
    decreases |plan|
  {
    hide Step, Shown, ServiceOf;
    if plan != [] {
      assert Spares([plan[0]], comp);
      StepKeepsShown(c, s, plan[0], comp);
      var r := Step(c, s, plan[0]);
      if r.outcome == Next { RunKeepsShown(c, r.state, plan[1..], comp); }
    }
  }

  /** Serving another component and going on keeps what is shown. */
  lemma ServeKeepsShown(c: Context, s: State, other: Component, comp: Component)
    requires other != comp && Shown(c, s.o, s.memory, comp) && Step(c, s, Serve(other)).outcome == Next
    ensures Shown(c, Step(c, s, Serve(other)).state.o, Step(c, s, Serve(other)).state.memory, comp)
  {
    hide Step, Shown, Writes;
    assert !Writes(Serve(other), DeploymentAt(comp)) by { ServeWritesItsOwn(other, comp); }
    StepKeeps(c, s, Serve(other), DeploymentAt(comp));
    NextStatus(c, s, Serve(other));
    var t := Step(c, s, Serve(other)).state;
    assert SameField(s.memory, t.memory, ServiceField(comp));
    ShownAgrees(c, s.o, s.memory, t.o, t.memory, comp);
  }

  lemma ServeWritesItsOwn(other: Component, comp: Component)
    requires other != comp
    ensures !Writes(Serve(other), DeploymentAt(comp))
  {
  }

  lemma {:induction false} ServicesShow(c: Context, s: State, plan: seq<Phase>, comp: Component)
    requires (forall ph :: ph in plan ==> ph.Serve?) && Run(c, s, plan).outcome == Next
    requires Serve(comp) in plan || Shown(c, s.o, s.memory, comp)
    ensures Shown(c, Run(c, s, plan).state.o, Run(c, s, plan).state.memory, comp)
    decreases |plan|
  {
    hide Step, Shown;
    if plan != [] {
      assert plan[0] in plan;
      var other := plan[0].core;
      if other == comp { ServeShows(c, s, comp); }
      else if Shown(c, s.o, s.memory, comp) { ServeKeepsShown(c, s, other, comp); }
      ServicesShow(c, Step(c, s, plan[0]).state, plan[1..], comp);
    }
  }

  /** Whatever comes after the core services, a pass that got past them reports each of them
      ready exactly when its Deployment is in service with the declared number of replicas. */
  lemma ServicesAreShown(c: Context, o: Objects, status: Status, comp: Component)
    requires IsCore(comp) && Run(c, Begin(o, status), BeforeServices(c) + AllServices).outcome == Next
    ensures var v := Run(c, Begin(o, status), BeforeServices(c) + AllServices).state;
            var tail := [CoreGate] + (PowerSyncPlan(c) + [Finish]);
            && Pass(c, o, status) == Run(c, v, tail)
            && Shown(c, Pass(c, o, status).state.o, Pass(c, o, status).state.memory, comp)
            && ServiceOf(Pass(c, o, status).state.memory, comp) == ServiceOf(v.memory, comp)
  {
    hide Run, Shown, BeforeServices, PowerSyncPlan, ServiceOf;
    var s := Begin(o, status);
    var tail := [CoreGate] + (PowerSyncPlan(c) + [Finish]);
    PlanBehind(c);
    RunConcat(c, s, BeforeServices(c), AllServices);
    var b := Run(c, s, BeforeServices(c)).state;
    ServicesShow(c, b, AllServices, comp);
    RunConcat(c, s, BeforeServices(c) + AllServices, tail);
    TailSpares(c, comp);
    RunKeepsShown(c, Run(c, b, AllServices).state, tail, comp);
  }

  lemma PlanBehind(c: Context)
    ensures Plan(c) == (BeforeServices(c) + AllServices) + ([CoreGate] + (PowerSyncPlan(c) + [Finish]))
  {
    PlanAtServices(c);
    hide BeforeServices, PowerSyncPlan, Plan;
    assert ServicesPlan == AllServices + [CoreGate];
  }

  lemma TailSpares(c: Context, comp: Component)
    requires IsCore(comp)
    ensures Spares([CoreGate] + (PowerSyncPlan(c) + [Finish]), comp)
  {
  }

  /** All declared replicas of a component are updated, ready and available at the current
      generation, and that is what the status says. */
  predicate Delivered(c: Context, o: Objects, m: Status, comp: Component) {
    var n := c.k.replicas(c.spec, comp);
    && comp in o.deployments && InService(o.deployments[comp], n) && ServiceOf(m, comp) == ServiceStatus(true, n)
    && (comp == PsReplicator ==> o.deployments[comp].strategy == Recreate)
  }

  /** A complete pass has stored the status it holds. */
  lemma CompletePassSaves(c: Context, o: Objects, status: Status)
    requires Pass(c, o, status).outcome == Next
    ensures Pass(c, o, status).state.saved == Pass(c, o, status).state.memory
  {
    hide Run, SecretsPlan, BackupPlan, RecoveryPlan, PowerSyncPlan, Step, SetCondition;
    var before := ProtectPlan + SecretsPlan(c) + [ValidateBootstrap, InitSqlMap, JwksMap] + BackupPlan(c)
      + RecoveryPlan(c) + [EnsureCluster, WaitForDatabase] + ServicesPlan + PowerSyncPlan(c);
    assert Plan(c) == before + [Finish];
    RunLast(c, Begin(o, status), before, Finish);
    StepFinish(c, Run(c, Begin(o, status), before).state);
  }

  /** A complete pass delivers every core service. */
  lemma CompletePassServes(c: Context, o: Objects, status: Status, comp: Component)
    requires IsCore(comp) && Pass(c, o, status).outcome == Next
    ensures Delivered(c, Pass(c, o, status).state.o, Pass(c, o, status).state.saved, comp)
  {
    hide Run, BeforeServices, PowerSyncPlan, Shown, Delivered, ServiceOf, Plan;
    var s := Begin(o, status);
    CompletePassSaves(c, o, status);
    PlanBehind(c);
    RunConcat(c, s, BeforeServices(c) + AllServices, [CoreGate] + (PowerSyncPlan(c) + [Finish]));
    ServicesAreShown(c, o, status, comp);
    var v := Run(c, s, BeforeServices(c) + AllServices).state;
    RunCons(c, v, CoreGate, PowerSyncPlan(c) + [Finish]);
    GateMeansReady(c, v, comp);
    ReadyIsDelivered(c, Pass(c, o, status).state.o, Pass(c, o, status).state.memory, comp);
  }

  lemma GateMeansReady(c: Context, s: State, comp: Component)
    requires IsCore(comp) && Step(c, s, CoreGate).outcome == Next
    ensures ServiceOf(s.memory, comp).ready
  {
    hide Step, ServiceOf, MarkAndSave;
    StepCoreGate(c, s);
  }

  lemma ReadyIsDelivered(c: Context, o: Objects, m: Status, comp: Component)
    requires Shown(c, o, m, comp) && ServiceOf(m, comp).ready
    ensures Delivered(c, o, m, comp)
  {
  }

  // ---- PowerSync's workloads ------------------------------------------------

  function DeploymentPhase(comp: Component): Phase { if comp == PsApi then PsApiDeployment else PsReplicatorDeployment }

  lemma WorkloadDeploys(c: Context, s: State, comp: Component)
    requires IsPs(comp) && Step(c, s, DeploymentPhase(comp)).outcome == Next
    ensures Deployed(c, Step(c, s, DeploymentPhase(comp)).state.o, comp)
  {
    hide Step, EnsureDeployment, PowerSyncTemplate, FailWith, Deployed;
    StepPsDeployments(c, s);
    FailsWith(c, s);
    var ph := DeploymentPhase(comp);
    if EnsureDeployment(c, ph, s, comp, PowerSyncTemplate(c, s, comp)).outcome == Next {
      EnsureDeploys(c, ph, s, comp, PowerSyncTemplate(c, s, comp));
    }
  }

  /** Phases of PowerSync, which serve no component and remove nothing. */
  predicate WorksOn(plan: seq<Phase>) { forall i :: 0 <= i < |plan| ==> !plan[i].Serve? && !plan[i].CleanPowerSync? }

  lemma {:induction false} RunDeploys(c: Context, s: State, plan: seq<Phase>, comp: Component)
    requires IsPs(comp) && WorksOn(plan) && Run(c, s, plan).outcome == Next
    requires DeploymentPhase(comp) in plan || Deployed(c, s.o, comp)
    ensures Deployed(c, Run(c, s, plan).state.o, comp)
    decreases |plan|
  {
    hide Step, Deployed;
    if plan != [] {
      var r := Step(c, s, plan[0]);
      if plan[0] == DeploymentPhase(comp) {
        WorkloadDeploys(c, s, comp);
      } else if Deployed(c, s.o, comp) {
        StepKeeps(c, s, plan[0], DeploymentAt(comp));
        DeployedAgrees(c, s.o, r.state.o, comp);
      }
      RunDeploys(c, r.state, plan[1..], comp);
    }
  }

  lemma ReadyShows(c: Context, s: State, comp: Component)
    requires IsPs(comp) && Deployed(c, s.o, comp) && Step(c, s, PsReady).outcome == Next
    ensures Delivered(c, Step(c, s, PsReady).state.o, Step(c, s, PsReady).state.memory, comp)
  {
    hide Step, Deployed, Observed, SetCondition, InService;
    StepPsReady(c, s);
    ObservedShows(c, s.o, comp);
    MarksSpareServices(WithService(WithService(s, PsApi, Observed(s.o, PsApi)), PsReplicator,
                                   Observed(s.o, PsReplicator)).memory,
                       PowersyncReady, true, IsReady, c.generation, c.now);
    ReadyIsDelivered(c, s.o, Step(c, s, PsReady).state.memory, comp);
  }

  /** With PowerSync declared a complete pass delivers both its workloads too. */
  lemma CompletePassServesPowerSync(c: Context, o: Objects, status: Status, comp: Component)
    requires IsPs(comp) && c.spec.powersync.Some? && Pass(c, o, status).outcome == Next
    ensures Delivered(c, Pass(c, o, status).state.o, Pass(c, o, status).state.saved, comp)
  {
    hide Run, BeforeGates, Delivered, Step, Plan, Deployed;
    var s := Begin(o, status);
    var upto := WorkloadPlan[..6];
    CompletePassSaves(c, o, status);
    PlanAtGates(c);
    assert WorkloadPlan + [Finish] == upto + ([PsReady] + [Finish]);
    RunConcat(c, s, BeforeGates(c) + GatesPlan, WorkloadPlan + [Finish]);
    var g := Run(c, s, BeforeGates(c) + GatesPlan).state;
    RunConcat(c, g, upto, [PsReady] + [Finish]);
    assert upto[2] == PsApiDeployment && upto[4] == PsReplicatorDeployment;
    RunDeploys(c, g, upto, comp);
    var w := Run(c, g, upto).state;
    RunCons(c, w, PsReady, [Finish]);
    ReadyShows(c, w, comp);
    var r := Step(c, w, PsReady).state;
    RunOne(c, r, Finish);
    StepKeeps(c, r, Finish, DeploymentAt(comp));
    EndsSpareServices(c, r, comp);
    DeliveredAgrees(c, r.o, r.memory, Step(c, r, Finish).state.o, Step(c, r, Finish).state.memory, comp);
  }

  lemma DeliveredAgrees(c: Context, a: Objects, m: Status, b: Objects, n: Status, comp: Component)
    requires SameKey(a.deployments, b.deployments, comp) && ServiceOf(n, comp) == ServiceOf(m, comp)
    ensures Delivered(c, a, m, comp) ==> Delivered(c, b, n, comp)
  {
    hide InService;
  }

  // ---- What a pass changed is pending ---------------------------------------

  /** No controller has observed a generation that is yet to come. */
  predicate NotAhead(o: Objects, comp: Component) {
    comp in o.deployments ==> o.deployments[comp].status.observed <= o.deployments[comp].generation
  }

  /** A Deployment is as before but for its metadata, or of a generation not yet observed. */
  predicate SameOrPending(a: Objects, b: Objects, comp: Component) {
    || (comp !in b.deployments && comp !in a.deployments)
    || (comp in b.deployments && b.deployments[comp].status.observed < b.deployments[comp].generation)
    || (comp in b.deployments && comp in a.deployments
        && b.deployments[comp] == a.deployments[comp].(meta := b.deployments[comp].meta))
  }

  lemma EnsurePends(c: Context, ph: Phase, s: State, comp: Component, template: Pods.PodTemplate)
    requires NotAhead(s.o, comp)
    ensures SameOrPending(s.o, EnsureDeployment(c, ph, s, comp, template).state.o, comp)
  {
    hide WithController, Pods.Normal, Self, OwnedMeta;
  }

  lemma ServePends(c: Context, s: State, comp: Component)
    requires NotAhead(s.o, comp)
    ensures SameOrPending(s.o, Step(c, s, Serve(comp)).state.o, comp)
  {
    hide Step, EnsureDeployment, EnsureService, ReportComponent, CoreTemplate, PrepareComponent, FailComponent,
         FailCore;
    StepServe(c, s, comp);
    ServeLeaves(c, s, comp);
    var p := PrepareComponent(c, s, comp).state;
    PrepareKeepsDeployments(c, s, comp);
    if CoreTemplate(c, p, comp).Some? {
      var template := CoreTemplate(c, p, comp).value;
      EnsurePends(c, Serve(comp), p, comp, template);
      ServiceObjects(c, Serve(comp), EnsureDeployment(c, Serve(comp), p, comp, template).state, comp);
    }
  }

  /** Reports change no object. */
  lemma ReportsKeepObjects(c: Context)
    ensures forall ph, n, s, t, b, reason {:trigger MarkAndSave(c, ph, n, s, t, b, reason)} ::
        MarkAndSave(c, ph, n, s, t, b, reason).state.o == s.o
  {
    hide SetCondition;
  }

  lemma PrepareKeepsDeployments(c: Context, s: State, comp: Component)
    ensures PrepareComponent(c, s, comp).state.o.deployments == s.o.deployments
  {
    hide WithController, MergedLabels, MarkAndSave, Ours, Self, OwnedMeta, LabelsFor, EnvValid;
    ReportsKeepObjects(c);
  }

  /** The Deployments serving leaves, wherever it stops. */
  lemma ServeLeaves(c: Context, s: State, comp: Component)
    ensures var p := PrepareComponent(c, s, comp).state;
            var r := ServeComponent(c, s, comp).state.o.deployments;
            || r == p.o.deployments
            || (CoreTemplate(c, p, comp).Some?
                && var d := EnsureDeployment(c, Serve(comp), p, comp, CoreTemplate(c, p, comp).value).state;
                   r == d.o.deployments || r == EnsureService(c, Serve(comp), d, comp).state.o.deployments)
  {
    hide EnsureDeployment, EnsureService, CoreTemplate, PrepareComponent, MarkAndSave, Observed;
    ReportsKeepObjects(c);
  }

  lemma WorkloadPends(c: Context, s: State, comp: Component)
    requires IsPs(comp) && NotAhead(s.o, comp)
    ensures SameOrPending(s.o, Step(c, s, DeploymentPhase(comp)).state.o, comp)
  {
    hide Step, EnsureDeployment, PowerSyncTemplate, MarkAndSave, SameOrPending;
    StepPsDeployments(c, s);
    var ph := DeploymentPhase(comp);
    EnsurePends(c, ph, s, comp, PowerSyncTemplate(c, s, comp));
    var t := EnsureDeployment(c, ph, s, comp, PowerSyncTemplate(c, s, comp));
    FailKeeps(c, ph, t, PowersyncReady, ApiDeploymentFailed);
    FailKeeps(c, ph, t, PowersyncReady, ReplicationDeploymentFailed);
  }

  /** The one phase that writes a component's Deployment. */
  function WriterPhase(comp: Component): Phase { if IsCore(comp) then Serve(comp) else DeploymentPhase(comp) }

  lemma OnlyItsPhase(c: Context, ph: Phase, comp: Component)
    requires Planned(c, ph) && (IsCore(comp) || c.spec.powersync.Some?) && ph != WriterPhase(comp)
    ensures !Writes(ph, DeploymentAt(comp))
  {
    hide Clusters.BackupEnabled, Clusters.RecoveryEnabled;
  }

  lemma PendsAgrees(a: Objects, b: Objects, d: Objects, comp: Component)
    ensures SameSlot(b, d, DeploymentAt(comp)) && SameOrPending(a, b, comp) ==> SameOrPending(a, d, comp)
    ensures SameSlot(a, b, DeploymentAt(comp)) && SameOrPending(b, d, comp) ==> SameOrPending(a, d, comp)
    ensures SameSlot(a, b, DeploymentAt(comp)) && NotAhead(a, comp) ==> NotAhead(b, comp)
    ensures SameSlot(a, b, DeploymentAt(comp)) ==> SameOrPending(a, b, comp)
  {
  }

  lemma {:induction false} RunPends(c: Context, s: State, plan: seq<Phase>, comp: Component)
    requires InOrder(c, plan) && NotAhead(s.o, comp) && (IsCore(comp) || c.spec.powersync.Some?)
    ensures SameOrPending(s.o, Run(c, s, plan).state.o, comp)
    ensures WriterPhase(comp) !in plan ==> SameSlot(s.o, Run(c, s, plan).state.o, DeploymentAt(comp))
    decreases |plan|
  {
    hide Step, SameOrPending, NotAhead, SameSlot, Rank, Planned;
    if plan == [] {
      SameAsItself(s.o, DeploymentAt(comp));
      PendsAgrees(s.o, s.o, s.o, comp);
    } else {
      var r := Step(c, s, plan[0]);
      var t := Run(c, s, plan).state.o;
      assert InOrder(c, plan[1..]);
      if plan[0] == WriterPhase(comp) {
        if IsCore(comp) { ServePends(c, s, comp); } else { WorkloadPends(c, s, comp); }
        assert forall i :: 0 < i < |plan| ==> plan[i] != plan[0];
        if r.outcome == Next { RunSparesDeployment(c, r.state, plan[1..], comp); }
        PendsAgrees(s.o, r.state.o, t, comp);
      } else {
        OnlyItsPhase(c, plan[0], comp);
        StepKeeps(c, s, plan[0], DeploymentAt(comp));
        PendsAgrees(s.o, r.state.o, t, comp);
        if r.outcome == Next { RunPends(c, r.state, plan[1..], comp); }
        SlotsCompose(s.o, r.state.o, t, DeploymentAt(comp));
      }
    }
  }

  lemma {:induction false} RunSparesDeployment(c: Context, s: State, plan: seq<Phase>, comp: Component)
    requires InOrder(c, plan) && WriterPhase(comp) !in plan && (IsCore(comp) || c.spec.powersync.Some?)
    ensures SameSlot(s.o, Run(c, s, plan).state.o, DeploymentAt(comp))
    decreases |plan|
  {
    hide Step, SameSlot, Rank, Planned;
    if plan == [] {
      SameAsItself(s.o, DeploymentAt(comp));
    } else {
      assert InOrder(c, plan[1..]);
      OnlyItsPhase(c, plan[0], comp);
      StepKeeps(c, s, plan[0], DeploymentAt(comp));
      var r := Step(c, s, plan[0]);
      if r.outcome == Next {
        RunSparesDeployment(c, r.state, plan[1..], comp);
        SlotsCompose(s.o, r.state.o, Run(c, r.state, plan[1..]).state.o, DeploymentAt(comp));
      }
    }
  }

  /** Whatever a pass creates or changes of a workload's Deployment, however it ends, is of a
      generation that has not been observed yet. */
  lemma ChangesArePending(c: Context, o: Objects, status: Status, comp: Component)
    requires NotAhead(o, comp) && (IsCore(comp) || c.spec.powersync.Some?)
    ensures SameOrPending(o, Pass(c, o, status).state.o, comp)
  {
    hide Run, SameOrPending, NotAhead, InOrder;
    PlanInOrder(c);
    PassIs(c, o, status);
    RunPends(c, Begin(o, status), Plan(c), comp);
  }

  /** The Deployment was there, and only its metadata may have moved. */
  predicate Found(a: Objects, b: Objects, comp: Component) {
    && comp in a.deployments && comp in b.deployments
    && b.deployments[comp] == a.deployments[comp].(meta := b.deployments[comp].meta)
  }

  /** So a pass that completes found every workload as it leaves it. */
  lemma CompletePassFound(c: Context, o: Objects, status: Status, comp: Component)
    requires NotAhead(o, comp) && (IsCore(comp) || c.spec.powersync.Some?) && Pass(c, o, status).outcome == Next
    ensures Found(o, Pass(c, o, status).state.o, comp)
  {
    hide Pass, NotAhead;
    ChangesArePending(c, o, status, comp);
    if IsCore(comp) {
      CompletePassServes(c, o, status, comp);
    } else {
      CompletePassServesPowerSync(c, o, status, comp);
    }
  }

  predicate SpecNotAhead(x: Option<Publication>) { x.Some? && x.value.observed <= x.value.generation }

  predicate SpecKeptOrPending(x: Option<Publication>, y: Option<Publication>) {
    x.Some? && y.Some? && (y.value.spec == x.value.spec || y.value.observed < y.value.generation)
  }

  /** An updated publication waits for its new generation too. */
  lemma PublicationChangeIsPending(c: Context, s: State)
    requires SpecNotAhead(s.o.publication)
    ensures SpecKeptOrPending(s.o.publication, Step(c, s, PublicationGate).state.o.publication)
  {
    hide Step, WithController, MergedLabels, DesiredPublication, MarkAndSave, LabelsFor, Self, Ours;
    ReportsKeepObjects(c);
    StepPublication(c, s);
  }

  // ---- What PowerSync leaves behind -----------------------------------------

  /** The first owner marked as controller has that UID. */
  predicate Controls(owners: seq<OwnerRef>, uid: string) {
    exists i :: 0 <= i < |owners| && ControllerAt(owners, i) && owners[i].uid == uid
  }

  lemma ControlledMeaning(c: Context, m: Meta)
    ensures ControlledBy(c, m) <==> Controls(m.owners, c.uid)
  {
    var i := FirstController(m.owners);
    hide ControllerOf;
  }

  /** The project's own, by its UID. */
  predicate IsOurs(c: Context, o: Objects, slot: Slot) {
    PowerSyncMeta(o, slot).Some? && Controls(PowerSyncMeta(o, slot).value.owners, c.uid)
  }

  /** An object is left exactly as it was, or it was the project's and is gone. */
  predicate Spared(c: Context, a: Objects, b: Objects, slot: Slot) {
    SameSlot(a, b, slot) || (IsOurs(c, a, slot) && PowerSyncMeta(b, slot).None?)
  }

  lemma RemovalSpares(c: Context, s: State, slot: Slot)
    requires Removable(slot)
    ensures var r := Step(c, s, CleanPowerSync(slot));
            Spared(c, s.o, r.state.o, slot) && (r.outcome == Next ==> !IsOurs(c, r.state.o, slot))
  {
    hide Step, Controls, ControlledBy;
    StepRemoval(c, s, slot);
    if PowerSyncMeta(s.o, slot).Some? { ControlledMeaning(c, PowerSyncMeta(s.o, slot).value); }
  }

  lemma OursAgrees(c: Context, a: Objects, b: Objects, slot: Slot)
    requires SameSlot(a, b, slot) && Removable(slot)
    ensures IsOurs(c, a, slot) == IsOurs(c, b, slot) && PowerSyncMeta(a, slot) == PowerSyncMeta(b, slot)
  {
    hide Controls;
  }

  lemma SparedThen(c: Context, a: Objects, b: Objects, d: Objects, slot: Slot)
    requires Removable(slot) && Spared(c, a, b, slot) && SameSlot(b, d, slot)
    ensures Spared(c, a, d, slot)
  {
    hide Controls;
  }

  /** Only its own removal touches an object of PowerSync. */
  lemma OnlyItsRemoval(c: Context, ph: Phase, slot: Slot)
    requires c.spec.powersync.None? && Planned(c, ph) && Removable(slot) && ph != CleanPowerSync(slot)
    ensures !Writes(ph, slot)
  {
    hide Clusters.BackupEnabled, Clusters.RecoveryEnabled;
  }

  lemma {:induction false} RunSpares(c: Context, s: State, plan: seq<Phase>, slot: Slot)
    requires c.spec.powersync.None? && InOrder(c, plan) && Removable(slot)
    ensures var r := Run(c, s, plan);
            && Spared(c, s.o, r.state.o, slot)
            && (r.outcome == Next && CleanPowerSync(slot) in plan ==> !IsOurs(c, r.state.o, slot))
            && (CleanPowerSync(slot) !in plan ==> SameSlot(s.o, r.state.o, slot))
    decreases |plan|
  {
    hide Step, IsOurs, SameSlot, Rank, Planned, PowerSyncMeta, Removable;
    if plan == [] {
      SameAsItself(s.o, slot);
    } else {
      var r := Step(c, s, plan[0]);
      assert InOrder(c, plan[1..]);
      if r.outcome == Next { RunSpares(c, r.state, plan[1..], slot); }
      var t := Run(c, s, plan).state.o;
      if plan[0] == CleanPowerSync(slot) {
        RemovalSpares(c, s, slot);
        assert forall i :: 0 < i < |plan| ==> plan[i] != plan[0];
        if r.outcome == Next {
          OursAgrees(c, r.state.o, t, slot);
          SparedThen(c, s.o, r.state.o, t, slot);
        }
      } else {
        OnlyItsRemoval(c, plan[0], slot);
        StepKeeps(c, s, plan[0], slot);
        SlotsCompose(s.o, r.state.o, t, slot);
        OursAgrees(c, s.o, r.state.o, slot);
      }
    }
  }

  lemma SameAsItself(o: Objects, slot: Slot)
    ensures SameSlot(o, o, slot)
  {
  }

  lemma SlotsCompose(a: Objects, b: Objects, d: Objects, slot: Slot)
    requires SameSlot(a, b, slot)
    ensures SameSlot(b, d, slot) ==> SameSlot(a, d, slot)
  {
  }

  /** Without PowerSync no pass, however it ends, changes an object of it that the project does
      not control; and a complete one leaves none that the project does. */
  lemma PowerSyncIsRemoved(c: Context, o: Objects, status: Status, slot: Slot)
    requires c.spec.powersync.None? && Removable(slot)
    ensures Spared(c, o, Pass(c, o, status).state.o, slot)
    ensures Pass(c, o, status).outcome == Next ==> !IsOurs(c, Pass(c, o, status).state.o, slot)
  {
    hide Run, Spared, IsOurs, InOrder;
    PlanInOrder(c);
    PassIs(c, o, status);
    RunSpares(c, Begin(o, status), Plan(c), slot);
    if CleanPowerSync(slot) !in Plan(c) { RemovalIsPlanned(c, slot); }
  }

  lemma RemovalIsPlanned(c: Context, slot: Slot)
    requires c.spec.powersync.None? && Removable(slot)
    ensures CleanPowerSync(slot) in Plan(c)
  {
    assert CleanPowerSync(slot) in CleanupPlan;
    hide SecretsPlan, BackupPlan, RecoveryPlan;
  }

  /** A status that says nothing of PowerSync. */
  predicate Forgotten(m: Status) {
    && CDCReady !in m.conditions && PowersyncReady !in m.conditions
    && ServiceOf(m, PsApi) == ServiceOf(m, PsReplicator) == ServiceStatus(false, 0)
  }

  /** And its status says nothing of it any more. */
  lemma PowerSyncIsForgotten(c: Context, o: Objects, status: Status)
    requires c.spec.powersync.None? && Pass(c, o, status).outcome == Next
    ensures Forgotten(Pass(c, o, status).state.saved)
  {
    hide Run, Step, BeforeGates, Plan, Forgotten;
    var s := Begin(o, status);
    var removals := CleanupPlan[..9];
    CompletePassSaves(c, o, status);
    PlanWithoutPowerSync(c);
    assert BeforeGates(c) + CleanupPlan + [Finish] == (BeforeGates(c) + removals) + ([CleanPowerSyncStatus] + [Finish]);
    RunConcat(c, s, BeforeGates(c) + removals, [CleanPowerSyncStatus] + [Finish]);
    var r := Run(c, s, BeforeGates(c) + removals).state;
    RunCons(c, r, CleanPowerSyncStatus, [Finish]);
    CleanForgets(c, r);
    var t := Step(c, r, CleanPowerSyncStatus).state;
    RunOne(c, t, Finish);
    FinishForgets(c, t);
  }

  lemma CleanForgets(c: Context, s: State)
    requires Step(c, s, CleanPowerSyncStatus).outcome == Next
    ensures Forgotten(Step(c, s, CleanPowerSyncStatus).state.memory)
  {
    hide Step;
    StepStatusRemoval(c, s);
  }

  lemma FinishForgets(c: Context, s: State)
    requires Forgotten(s.memory)
    ensures Forgotten(Step(c, s, Finish).state.memory)
  {
    hide Step;
    StepFinish(c, s);
  }
}
