/** The reconciler as it runs: one object whose methods change the cluster state and
    the project status in place, phase by phase, and end where the specification says. */
module Reconciling {
  import opened Kube
  import opened Pods
  import opened Clusters
  import opened World
  import opened Operator
  import opened Steps
  import opened Durables
  import opened Gates
  import opened Chain

  lemma ConditionSet(st: Status, t: ConditionType, isTrue: bool, reason: Reason, generation: int, now: int, since: int)
    requires since == if t in st.conditions && st.conditions[t].isTrue == isTrue then st.conditions[t].since else now
    ensures SetCondition(st, t, isTrue, reason, generation, now)
        == st.(conditions := st.conditions[t := Condition(isTrue, reason, generation, since)])
  {
  }

  class Reconciler {
    const c: Context
    var objects: Objects
    var status: Status
    var stored: Status
    var log: seq<Write>

    /** The project as read. */
    constructor (c: Context, o: Objects, read: Status)
      ensures this.c == c && View() == State(o, read, read, [])
    {
      this.c := c;
      objects, status, stored, log := o, read, read, [];
    }

    function View(): State reads this { State(objects, status, stored, log) }

    // ---- Status ---------------------------------------------------------------

    /** updateProjectStatus. */
    method UpdateStatus(ph: Phase, n: int) returns (outcome: Outcome)
      modifies this
      ensures Result(View(), outcome) == Save(c, ph, n, old(View()))
    {
      if !c.statusUp(ph, SaveStatus(n)) {
        return Failed;
      }
      if stored != status {
        stored := status;
        log := log + [StatusWrite];
      }
      return Next;
    }

    /** setCondition. */
    method Set(t: ConditionType, isTrue: bool, reason: Reason)
      modifies this
      ensures View() == Mark(c, old(View()), t, isTrue, reason)
    {
      var since := c.now;
      if t in status.conditions && status.conditions[t].isTrue == isTrue {
        since := status.conditions[t].since;
      }
      ConditionSet(status, t, isTrue, reason, c.generation, c.now, since);
      hide SetCondition;
      status := status.(conditions := status.conditions[t := Condition(isTrue, reason, c.generation, since)]);
    }

    method Fail(ph: Phase, t: ConditionType, reason: Reason) returns (outcome: Outcome)
      modifies this
      ensures Result(View(), outcome) == FailWith(c, ph, old(View()), t, reason)
    {
      hide Save, Mark;
      Set(t, false, reason);
      outcome := UpdateStatus(ph, 0);
      return Failed;
    }

    method WaitFor(ph: Phase, t: ConditionType, reason: Reason) returns (outcome: Outcome)
      modifies this
      ensures Result(View(), outcome) == Wait(c, ph, old(View()), t, reason)
    {
      hide Save, Mark, Later;
      Set(t, false, reason);
      outcome := UpdateStatus(ph, 1);
      outcome := Later(outcome);
    }

    method OrFail(ph: Phase, result: Outcome, t: ConditionType, reason: Reason) returns (outcome: Outcome)
      modifies this
      ensures Result(View(), outcome) == OrFailWith(c, ph, Result(old(View()), result), t, reason)
    {
      hide FailWith;
      outcome := result;
      if result != Next {
        outcome := Fail(ph, t, reason);
      }
    }

    /** A phase that is a chain of calls already specified. */
    method Take(r: Result) returns (outcome: Outcome)
      modifies this
      ensures Result(View(), outcome) == r
    {
      objects, status, stored, log := r.state.o, r.state.memory, r.state.saved, r.state.log;
      return r.outcome;
    }

    // ---- Creating and updating ------------------------------------------------

    /** createOrUpdateConfigMap. */
    method CreateOrUpdateConfigMap(ph: Phase, role: MapRole, data: Data) returns (outcome: Outcome)
      modifies this
      ensures Result(View(), outcome) == EnsureMap(c, ph, old(View()), role, data)
    {
      hide OwnedMeta, RefreshMap;
      if !c.up(ph, Get(0)) {
        return Failed;
      }
      if role in objects.configMaps {
        outcome := UpdateConfigMap(ph, role, data);
        return;
      }
      if !c.up(ph, Create(0)) {
        return Failed;
      }
      objects := objects.(configMaps := objects.configMaps[role := ConfigMap(OwnedMeta(c, MapAt(role)), data)]);
      log := log + [ObjectWrite(MapAt(role))];
      return Next;
    }

    /** The update half: labels are merged key by key, data replaced. */
    method UpdateConfigMap(ph: Phase, role: MapRole, data: Data) returns (outcome: Outcome)
      requires role in objects.configMaps
      modifies this
      ensures Result(View(), outcome) == RefreshMap(c, ph, old(View()), role, data)
    {
      hide WithController, MergedLabels, Ours, LabelsFor, Self;
      var existing := objects.configMaps[role];
      var owners := WithController(existing.meta.owners, Self(c));
      var labels, changed := MergeLabels(existing.meta.labels, LabelsFor(c, MapAt(role)));
      if !Ours(c, existing.meta) || owners.None? {
        outcome := Failed;
      } else if !changed && owners.value == existing.meta.owners && data == existing.data {
        outcome := Next;
      } else if !c.up(ph, Update(0)) {
        outcome := Failed;
      } else {
        objects := objects.(configMaps := objects.configMaps[role := ConfigMap(Meta(labels, owners.value), data)]);
        log := log + [ObjectWrite(MapAt(role))];
        outcome := Next;
      }
    }

    /** Both templates are normalised in place before they are compared. */
    method Compare(existing: Deployment, owners: seq<OwnerRef>, comp: Component, template: PodTemplate)
      returns (current: bool, normal: PodTemplate, strategyChanged: bool)
      requires WithController(existing.meta.owners, Self(c)) == Some(owners)
      ensures current <==> DeploymentCurrent(c, existing, comp, template)
      ensures normal == Normal(template)
      ensures strategyChanged <==> StrategyChanged(existing, comp)
    {
      hide WithController, Normal, Self;
      var desired := new TemplateCell(template);
      desired.Normalize();
      var stored := new TemplateCell(existing.template);
      stored.Normalize();
      normal := desired.template;
      strategyChanged := StrategyOf(comp) != Unset && existing.strategy != StrategyOf(comp);
      current := owners == existing.meta.owners && existing.replicas == Some(c.k.replicas(c.spec, comp))
                 && stored.template == normal && !strategyChanged;
    }

    /** The update half of createOrUpdateDeployment: only operator-owned fields are replaced. */
    method UpdateDeployment(ph: Phase, comp: Component, template: PodTemplate) returns (outcome: Outcome)
      requires comp in objects.deployments
      modifies this
      ensures Result(View(), outcome) == RefreshDeployment(c, ph, old(View()), comp, template)
    {
      hide WithController, DeploymentCurrent, StrategyChanged, Bumped, Normal, Self;
      var existing := objects.deployments[comp];
      var owners := WithController(existing.meta.owners, Self(c));
      if owners.None? {
        return Failed;
      }
      var current, normal, strategyChanged := Compare(existing, owners.value, comp, template);
      if current {
        return Next;
      }
      if !c.up(ph, Update(1)) {
        return Failed;
      }
      var updated := existing.(meta := existing.meta.(owners := owners.value),
          replicas := Some(c.k.replicas(c.spec, comp)),
                               template := c.k.admit(normal));
      if strategyChanged {
        updated := updated.(strategy := StrategyOf(comp));
      }
      objects := objects.(deployments := objects.deployments[comp := Bumped(existing, updated)]);
      log := log + [ObjectWrite(DeploymentAt(comp))];
      return Next;
    }

    /** createOrUpdateDeployment. */
    method CreateOrUpdateDeployment(ph: Phase, comp: Component, template: PodTemplate) returns (outcome: Outcome)
      modifies this
      ensures Result(View(), outcome) == EnsureDeployment(c, ph, old(View()), comp, template)
    {
      hide NewDeployment, RefreshDeployment;
      if !c.up(ph, Get(1)) {
        return Failed;
      }
      if comp in objects.deployments {
        outcome := UpdateDeployment(ph, comp, template);
        return;
      }
      if !c.up(ph, Create(1)) {
        return Failed;
      }
      objects := objects.(deployments := objects.deployments[comp := NewDeployment(c, comp, template)]);
      log := log + [ObjectWrite(DeploymentAt(comp))];
      return Next;
    }

    // ---- Durable metadata and the Cluster -------------------------------------

    /** removeSupabaseProjectOwnerReference on the object's own list. */
    method DropProjectOwners(owners: seq<OwnerRef>) returns (rest: seq<OwnerRef>, changed: bool)
      ensures rest == WithoutProject(owners, c.name)
      ensures changed <==> rest != owners
    {
      hide WithoutProject;
      var list := new OwnerRef[|owners|](i requires 0 <= i < |owners| => owners[i]);
      assert list[..] == owners;
      var kept;
      kept, changed := RemoveProjectOwner(list, c.name);
      rest := list[..kept];
    }

    /** One object of reconcileDurableMetadataProtection. */
    method ProtectDurable(d: Durable) returns (outcome: Outcome)
      modifies this
      ensures Result(View(), outcome) == ProtectOne(c, old(View()), d)
    {
      hide WithoutProject, Ours;
      if !c.up(Protect(d), Get(0)) {
        return Failed;
      }
      if MetaOf(objects, d).None? {
        return Next;
      }
      var m := MetaOf(objects, d).value;
      var owners, changed := DropProjectOwners(m.owners);
      if Ours(c, m) && changed {
        if !c.up(Protect(d), Update(0)) {
          return Failed;
        }
        objects := WithMeta(objects, d, m.(owners := owners));
        log := log + [ObjectWrite(SlotOf(d))];
      }
      return Next;
    }

    /** Labels merged and the project's owner references dropped. */
    method RepairMetadata(m: Meta, slot: Slot) returns (repaired: Meta, changed: bool)
      ensures repaired == Repaired(c, m, slot)
      ensures changed <==> repaired != m
    {
      var labels, labelsChanged := MergeLabels(m.labels, LabelsFor(c, slot));
      var owners, ownersChanged := DropProjectOwners(m.owners);
      repaired := Meta(labels, owners);
      changed := labelsChanged || ownersChanged;
    }

    method RejectCluster(x: Cluster, reason: Reason) returns (outcome: Outcome)
      requires objects.cluster == Some(x)
      modifies this
      ensures Result(View(), outcome) == RepairThenFail(c, old(View()), x, reason)
    {
      hide Repaired, FailWith;
      var m, changed := RepairMetadata(x.meta, ClusterAt);
      if changed {
        if !c.up(EnsureCluster, Update(0)) {
          return Failed;
        }
        objects := objects.(cluster := Some(x.(meta := m)));
        log := log + [ObjectWrite(ClusterAt)];
      }
      outcome := Fail(EnsureCluster, DatabaseReady, reason);
    }

    /** reconcileCNPGCluster: the retained spec is merged field by field in a cell. */
    method ReconcileCluster() returns (outcome: Outcome)
      modifies this
      ensures Result(View(), outcome) == MakeCluster(c, old(View()))
    {
      hide IntentChanged, Repaired, RepairThenFail, MergeCluster, Wait, FailWith, Ours, Desired, NewCluster;
      var ph := EnsureCluster;
      if !c.up(ph, Get(0)) {
        return Failed;
      }
      var desired := Desired(c, status.names);
      if objects.cluster.None? {
        if !c.up(ph, Create(0)) {
          outcome := Fail(ph, DatabaseReady, CreateFailed);
          return;
        }
        objects := objects.(cluster := Some(NewCluster(c, status.names)));
        log := log + [ObjectWrite(ClusterAt)];
        outcome := WaitFor(ph, DatabaseReady, Creating);
        return;
      }
      var existing := objects.cluster.value;
      if !Ours(c, existing.meta) {
        return Failed;
      }
      if IntentChanged(existing.spec, desired) {
        outcome := RejectCluster(existing, BootstrapImmutable);
        return;
      }
      var cell := new ClusterCell(existing.spec);
      var changed, failed := cell.ReconcileMutableFields(c.k.quantity, desired);
      if failed {
        outcome := RejectCluster(existing, RejectReason(c, existing.spec.storage, desired.storage));
        return;
      }
      var m, repaired := RepairMetadata(existing.meta, ClusterAt);
      if !changed && !repaired {
        return Next;
      }
      if !c.up(ph, Update(1)) {
        return Failed;
      }
      objects := objects.(cluster := Some(existing.(meta := m, spec := cell.spec)));
      log := log + [ObjectWrite(ClusterAt)];
      return Requeue;
    }

    // ---- The grants Job -------------------------------------------------------

    /** The first terminal condition that is true decides. */
    method JobVerdictOf(conditions: seq<JobCondition>) returns (verdict: JobVerdict)
      ensures verdict == Verdict(conditions)
    {
      for i := 0 to |conditions|
        invariant Verdict(conditions) == Verdict(conditions[i..])
      {
        assert conditions[i..][1..] == conditions[i + 1..];
        if conditions[i].isTrue && conditions[i].kind == JobComplete {
          return Complete;
        }
        if conditions[i].isTrue && conditions[i].kind == JobFailed {
          return Broken;
        }
      }
      return StillRunning;
    }

    /** createOrCheckJob: a Job with another hash is deleted, never read. */
    method CreateOrCheckJob() returns (outcome: Outcome)
      modifies this
      ensures Result(View(), outcome) == CheckJob(c, old(View()))
    {
      hide WithController, MergedLabels, Ours, ScriptHash, HashOf, Verdict, NewJob;
      var ph := CdcJob;
      if !c.up(ph, Get(0)) {
        return Failed;
      }
      if objects.job.None? {
        if !c.up(ph, Create(0)) {
          return Failed;
        }
        objects := objects.(job := Some(NewJob(c)));
        log := log + [ObjectWrite(JobAt)];
        return Requeue;
      }
      var existing := objects.job.value;
      var owners := WithController(existing.meta.owners, Self(c));
      if !Ours(c, existing.meta) || owners.None? {
        return Failed;
      }
      if HashOf(existing) != ScriptHash(c) {
        if !c.up(ph, Delete(0)) {
          return Failed;
        }
        objects := objects.(job := Some(existing.(deleting := true)));
        log := log + [ObjectWrite(JobAt)];
        return Requeue;
      }
      var labels, changed := MergeLabels(existing.meta.labels, LabelsFor(c, JobAt));
      var owned := existing.(meta := Meta(labels, owners.value));
      if changed || owners.value != existing.meta.owners {
        if !c.up(ph, Update(0)) {
          return Failed;
        }
        objects := objects.(job := Some(owned));
        log := log + [ObjectWrite(JobAt)];
      }
      var verdict := JobVerdictOf(existing.conditions);
      match verdict {
        case Complete => return Next;
        case Broken => return Failed;
        case StillRunning => return Requeue;
      }
    }

    /** The Job part of reconcileCDCPermissions. */
    method ReconcileJob() returns (outcome: Outcome)
      modifies this
      ensures Result(View(), outcome) == AwaitJob(c, old(View()))
    {
      hide CheckJob, FailWith, Wait, SetCondition;
      outcome := CreateOrCheckJob();
      match outcome {
        case Failed => outcome := Fail(CdcJob, CDCReady, JobFailedReason);
        case Requeue => outcome := WaitFor(CdcJob, CDCReady, JobRunning);
        case Next => Set(CDCReady, true, CDCPermissionsApplied);
      }
    }

    // ---- The phases -----------------------------------------------------------

    /** One phase of the pass. */
    method RunPhase(ph: Phase) returns (outcome: Outcome)
      modifies this
      ensures Result(View(), outcome) == Step(c, old(View()), ph)
    {
      hide *;
      match ph {
        case Protect(d) =>
          outcome := ProtectDurable(d);
          StepProtect(c, old(View()), d);
        case InitSqlMap =>
          outcome := CreateOrUpdateConfigMap(ph, InitSql, c.k.mapData(c.name, c.spec, InitSql));
          StepInitSql(c, old(View()));
        case EnsureCluster =>
          outcome := ReconcileCluster();
          StepCluster(c, old(View()));
        case CdcJob =>
          outcome := ReconcileJob();
          StepJob(c, old(View()));
        case PsApiDeployment =>
          outcome := CreateOrUpdateDeployment(ph, PsApi, PowerSyncTemplate(c, View(), PsApi));
          outcome := OrFail(ph, outcome, PowersyncReady, ApiDeploymentFailed);
          StepPsDeployments(c, old(View()));
        case PsReplicatorDeployment =>
          outcome := CreateOrUpdateDeployment(ph, PsReplicator, PowerSyncTemplate(c, View(), PsReplicator));
          outcome := OrFail(ph, outcome, PowersyncReady, ReplicationDeploymentFailed);
          StepPsDeployments(c, old(View()));
        case _ => outcome := Take(Step(c, View(), ph));
      }
    }

    /** Phases in order, until one of them stops the pass. */
    method RunPhases(plan: seq<Phase>) returns (outcome: Outcome)
      modifies this
      ensures Result(View(), outcome) == Run(c, old(View()), plan)
    {
      hide Step;
      outcome := Next;
      for i := 0 to |plan|
        invariant outcome == Next && Run(c, old(View()), plan) == Run(c, View(), plan[i..])
      {
        assert plan[i..][0] == plan[i] && plan[i..][1..] == plan[i + 1..];
        outcome := RunPhase(plan[i]);
        if outcome != Next {
          return;
        }
      }
    }

    /** Reconcile on an existing project: the pass of the specification, from the status as read. */
    method Reconcile() returns (outcome: Outcome)
      requires status == stored && log == []
      modifies this
      ensures Result(View(), outcome) == Pass(c, old(objects), old(stored))
      // Past phase 0 no labelled durable object is owned by the project, and a Cluster keeps its origin.
      ensures outcome != Failed ==> AllUnowned(c.name, objects)
      ensures KeepsCluster(c.k.quantity, old(objects).cluster, objects.cluster)
      // A bad bundle, or a declaration that would move the origin, ends in a failure that left everything else alone.
      ensures Bundle(c).None? ==> outcome == Failed && OnlyDurableOwners(c.name, old(objects), objects)
      ensures OriginMoves(c, old(objects))
          ==> outcome == Failed && SameClusterSpec(old(objects), objects) && SameRecoverySpec(old(objects), objects)
      // The status chain.
      ensures StatusWritesSucceed(c) && Chained(old(stored)) ==>
                && Chained(stored)
                && (outcome == Next ==>
                      && stored.phase == Running && IsTrue(stored, Ready) && stored.observed == c.generation)
                && (outcome != Next ==> stored.observed == old(stored).observed)
    {
      ghost var o, read := objects, stored;
      hide Run, Plan, Begin, Pass, AllUnowned, KeepsCluster, Bundle, OnlyDurableOwners, OriginMoves, SameClusterSpec,
           SameRecoverySpec, Chained, IsTrue, StatusWritesSucceed;
      if status.phase == NoPhase {
        status := status.(phase := Pending);
      }
      BeginsHere(View(), o, read);
      outcome := RunPhases(Plan(c));
      PassIs(c, o, read);
      PassConcludes(c, o, read);
    }
  }

  lemma BeginsHere(s: State, o: Objects, read: Status)
    requires s == State(o, if read.phase == NoPhase then read.(phase := Pending) else read, read, [])
    ensures s == Begin(o, read)
  {
  }

  /** A pass that waits or completes got past phase 0. */
  lemma NotFailedProtects(c: Context, o: Objects, read: Status)
    requires Pass(c, o, read).outcome != Failed
    ensures AllUnowned(c.name, Pass(c, o, read).state.o)
  {
    hide *;
    var s := Begin(o, read);
    PassIs(c, o, read);
    PlanSplits(c);
    RunConcat(c, s, ProtectPlan, PlanBody(c));
    ProtectNeverWaits();
    RunFailsNotWaits(c, s, ProtectPlan);
    PassProtects(c, o, read);
  }

  lemma ProtectNeverWaits()
    ensures AllNeverWait(ProtectPlan)
  {
  }

  /** What the theorems about passes say of one. */
  lemma PassConcludes(c: Context, o: Objects, read: Status)
    ensures var r := Pass(c, o, read);
            && (r.outcome != Failed ==> AllUnowned(c.name, r.state.o))
            && KeepsCluster(c.k.quantity, o.cluster, r.state.o.cluster)
            && (Bundle(c).None? ==> r.outcome == Failed && OnlyDurableOwners(c.name, o, r.state.o))
            && (OriginMoves(c, o)
                ==> r.outcome == Failed && SameClusterSpec(o, r.state.o) && SameRecoverySpec(o, r.state.o))
            && (StatusWritesSucceed(c) && Chained(read) ==>
                  && Chained(r.state.saved)
                  && (r.outcome == Next
                      ==> && r.state.saved.phase == Running && IsTrue(r.state.saved, Ready)
                          && r.state.saved.observed == c.generation)
                  && (r.outcome != Next ==> r.state.saved.observed == read.observed))
  {
    hide *;
    if Pass(c, o, read).outcome != Failed { NotFailedProtects(c, o, read); }
    PassKeepsCluster(c, o, read);
    if Bundle(c).None? { InvalidBundleGate(c, o, read); }
    if OriginMoves(c, o) { ChangedOriginGate(c, o, read); }
    if StatusWritesSucceed(c) && Chained(read) {
      StatusChain(c, o, read);
    }
  }
}
