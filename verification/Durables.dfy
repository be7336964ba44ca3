/** Durable objects across a pass: what happens to their metadata, to the
    Cluster's creation-time input, and to the recovery source. */
module Durables {
  import opened Kube
  import opened Clusters
  import opened World
  import opened Operator
  import opened Steps
  import opened Frames

  // ---- Whole plans ----------------------------------------------------------

  predicate PlanWrites(plan: seq<Phase>, slot: Slot) {
    plan != [] && (Writes(plan[0], slot) || PlanWrites(plan[1..], slot))
  }

  lemma {:induction false} PlanWritesConcat(a: seq<Phase>, b: seq<Phase>, slot: Slot)
    ensures PlanWrites(a + b, slot) <==> PlanWrites(a, slot) || PlanWrites(b, slot)
  {
    if a == [] {
      assert a + b == b;
    } else {
      assert (a + b)[1..] == a[1..] + b;
      PlanWritesConcat(a[1..], b, slot);
    }
  }

  /** A plan run: the log grows by what its phases may write, and unlogged objects stand still. */
  ghost predicate RunEffect(plan: seq<Phase>, s: State, t: State) {
    && s.log <= t.log
    && (forall w :: w in t.log[|s.log|..] && w.ObjectWrite? ==> PlanWrites(plan, w.slot))
    && (forall slot :: ObjectWrite(slot) !in t.log[|s.log|..] ==> SameSlot(s.o, t.o, slot))
  }

  lemma EffectThenRun(ph: Phase, rest: seq<Phase>, s: State, t: State, u: State)
    requires Effect(ph, s, t) && RunEffect(rest, t, u)
    ensures RunEffect([ph] + rest, s, u)
  {
    assert ([ph] + rest)[1..] == rest;
    hide Writes, SameSlot, Calm;
    LogThen(s.log, t.log, u.log);
    SlotsThen(s, t, u, t.log[|s.log|..], u.log[|t.log|..]);
  }

  lemma EffectIsRun(ph: Phase, rest: seq<Phase>, s: State, t: State)
    requires Effect(ph, s, t)
    ensures RunEffect([ph] + rest, s, t)
  {
    hide Writes, SameSlot, Calm;
    assert ([ph] + rest)[0] == ph;
  }

  lemma {:induction false} RunHasEffect(c: Context, s: State, plan: seq<Phase>)
    ensures RunEffect(plan, s, Run(c, s, plan).state)
    decreases |plan|
  {
    hide Effect, Step;
    if plan != [] {
      StepEffect(c, s, plan[0]);
      var r := Step(c, s, plan[0]);
      assert plan == [plan[0]] + plan[1..];
      if r.outcome == Next {
        RunHasEffect(c, r.state, plan[1..]);
        EffectThenRun(plan[0], plan[1..], s, r.state, Run(c, r.state, plan[1..]).state);
      } else {
        EffectIsRun(plan[0], plan[1..], s, r.state);
      }
    }
  }

  /** What no phase of a plan may write stays as it was. */
  lemma RunKeeps(c: Context, s: State, plan: seq<Phase>, slot: Slot)
    requires !PlanWrites(plan, slot)
    ensures SameSlot(s.o, Run(c, s, plan).state.o, slot)
  {
    hide Run, SameSlot;
    RunHasEffect(c, s, plan);
    var t := Run(c, s, plan).state;
    if ObjectWrite(slot) in t.log[|s.log|..] {
      assert false;
    }
  }

  // ---- Metadata of durable objects ------------------------------------------

  /** A durable object stays, goes, appears without owners, or keeps its instance
      label and loses exactly the project's owner references. */
  predicate MetaStep(c: Context, m: Option<Meta>, n: Option<Meta>) {
    || n == m || n.None? || (m.None? && n.value.owners == [])
    || (m.Some? && Ours(c, m.value) && Ours(c, n.value) && n.value.owners == WithoutProject(m.value.owners, c.name))
  }

  lemma RepairedIsOurs(c: Context, m: Meta, slot: Slot)
    requires Ours(c, m)
    ensures Ours(c, Repaired(c, m, slot)) && MetaStep(c, Some(m), Some(Repaired(c, m, slot)))
  {
    assert Instance in LabelsFor(c, slot) && LabelsFor(c, slot)[Instance] == c.name;
  }

  lemma StoreMeta(c: Context, ph: Phase, s: State, d: Durable, desired: StoreSpec)
    requires d.DurableBackup? || d.DurableRecovery?
    ensures MetaStep(c, MetaOf(s.o, d), MetaOf(EnsureStore(c, ph, s, d, desired).state.o, d))
  {
    if StoreAt(s.o, d).Some? && Ours(c, StoreAt(s.o, d).value.meta) {
      RepairedIsOurs(c, StoreAt(s.o, d).value.meta, SlotOf(d));
    }
  }

  lemma ScheduleMeta(c: Context, ph: Phase, s: State, desired: ScheduleSpec)
    ensures MetaStep(c, MetaOf(s.o, DurableSchedule),
        MetaOf(EnsureSchedule(c, ph, s, desired).state.o, DurableSchedule))
  {
    if s.o.schedule.Some? && Ours(c, s.o.schedule.value.meta) {
      RepairedIsOurs(c, s.o.schedule.value.meta, ScheduleAt);
    }
  }

  /** The Cluster across one phase: unchanged, created as declared, its metadata
      repaired, or merged with a declaration. It never goes away, its status is
      not touched, and bootstrap and external clusters are never rewritten. */
  predicate ClusterStep(c: Context, names: Names, x: Option<Cluster>, y: Option<Cluster>) {
    || y == x
    || (x.None? && y == Some(NewCluster(c, names)))
    || (&& x.Some? && y.Some? && Ours(c, x.value.meta) && y.value.status == x.value.status
        && MetaStep(c, Some(x.value.meta), Some(y.value.meta))
        && (|| y.value.spec == x.value.spec
            || (exists changed ::
                MergeCluster(c.k.quantity, x.value.spec, Desired(c, names)) == Merged(y.value.spec, changed))))
  }

  /** Failure reports touch no object. */
  lemma FailKeeps(c: Context, ph: Phase, r: Result, t: ConditionType, reason: Reason)
    ensures FailWith(c, ph, r.state, t, reason).state.o == r.state.o
        && OrFailWith(c, ph, r, t, reason).state.o == r.state.o
  {
  }

  /** Phase 0 on one object. */
  lemma ProtectFacts(c: Context, s: State, d: Durable)
    ensures MetaStep(c, MetaOf(s.o, d), MetaOf(ProtectOne(c, s, d).state.o, d))
    ensures ProtectOne(c, s, d).outcome == Next ==> Unowned(c.name, MetaOf(ProtectOne(c, s, d).state.o, d))
    ensures d == DurableCluster ==> ClusterStep(c, s.memory.names, s.o.cluster, ProtectOne(c, s, d).state.o.cluster)
  {
    hide IsProjectOwner, Desired, NewCluster, MergeCluster;
  }

  lemma RepairCluster(c: Context, s: State, x: Cluster, reason: Reason)
    requires s.o.cluster == Some(x) && Ours(c, x.meta)
    ensures ClusterStep(c, s.memory.names, s.o.cluster, RepairThenFail(c, s, x, reason).state.o.cluster)
  {
    hide FailWith, Repaired, MetaStep, MergeCluster, Ours, Desired, NewCluster;
    RepairedIsOurs(c, x.meta, ClusterAt);
    FailKeeps(c, EnsureCluster, Result(s, Failed), DatabaseReady, reason);
    FailKeeps(c, EnsureCluster,
        Result(Put(s, s.o.(cluster := Some(x.(meta := Repaired(c, x.meta, ClusterAt)))), ClusterAt), Failed),
        DatabaseReady, reason);
  }

  lemma MakeClusterStep(c: Context, s: State)
    ensures ClusterStep(c, s.memory.names, s.o.cluster, MakeCluster(c, s).state.o.cluster)
  {
    hide RepairThenFail, MergeCluster, IntentChanged, Desired, Repaired, NewCluster;
    if s.o.cluster.Some? && Ours(c, s.o.cluster.value.meta) {
      var x := s.o.cluster.value;
      RepairCluster(c, s, x, BootstrapImmutable);
      RepairCluster(c, s, x, RejectReason(c, x.spec.storage, Desired(c, s.memory.names).storage));
      RepairedIsOurs(c, x.meta, ClusterAt);
    }
  }

  /** A phase that may not write a slot leaves it as it is. */
  lemma StepKeeps(c: Context, s: State, ph: Phase, slot: Slot)
    requires !Writes(ph, slot)
    ensures SameSlot(s.o, Step(c, s, ph).state.o, slot)
  {
    hide Step, SameSlot;
    StepEffect(c, s, ph);
    var t := Step(c, s, ph).state;
    if ObjectWrite(slot) in t.log[|s.log|..] {
      assert false;
    }
  }

  lemma ClusterOverStep(c: Context, s: State, ph: Phase)
    ensures ClusterStep(c, s.memory.names, s.o.cluster, Step(c, s, ph).state.o.cluster)
  {
    hide *;
    if ph == EnsureCluster {
      StepCluster(c, s);
      MakeClusterStep(c, s);
    } else if ph == Protect(DurableCluster) {
      StepProtect(c, s, DurableCluster);
      ProtectFacts(c, s, DurableCluster);
    } else {
      if Writes(ph, ClusterAt) { ClusterWriters(ph); }
      StepKeeps(c, s, ph, ClusterAt);
      SameCluster(c, s.memory.names, s.o, Step(c, s, ph).state.o);
    }
  }

  lemma ClusterWriters(ph: Phase)
    requires Writes(ph, ClusterAt)
    ensures ph == EnsureCluster || ph == Protect(DurableCluster)
  {
  }

  lemma SameCluster(c: Context, names: Names, a: Objects, b: Objects)
    requires SameSlot(a, b, ClusterAt)
    ensures ClusterStep(c, names, a.cluster, b.cluster)
  {
    hide MetaStep, Desired, NewCluster, MergeCluster;
  }

  lemma CleanMeta(c: Context, ph: Phase, s: State, d: Durable, t: ConditionType, without: Objects)
    requires MetaOf(without, d).None?
    ensures MetaStep(c, MetaOf(s.o, d), MetaOf(CleanDurable(c, ph, s, d, t, without).state.o, d))
  {
    hide Ours, WithoutProject;
  }

  lemma ClusterStepMeta(c: Context, names: Names, a: Objects, b: Objects)
    requires ClusterStep(c, names, a.cluster, b.cluster)
    ensures MetaStep(c, MetaOf(a, DurableCluster), MetaOf(b, DurableCluster))
  {
    hide MergeCluster, Desired, WithoutProject, Ours;
  }

  /** Whatever the phase and whatever fails, a durable object only ever loses the
      project's owner references; none is added. */
  lemma StepMeta(c: Context, s: State, ph: Phase, d: Durable)
    ensures MetaStep(c, MetaOf(s.o, d), MetaOf(Step(c, s, ph).state.o, d))
  {
    hide *;
    if !Writes(ph, SlotOf(d)) {
      StepKeeps(c, s, ph, SlotOf(d));
      MetaStepSame(c, s.o, Step(c, s, ph).state.o, d);
    } else {
      DurableWriters(ph, d);
      match ph {
        case Protect(_) => StepProtect(c, s, d); ProtectFacts(c, s, d);
        case EnsureCluster =>
          ClusterOverStep(c, s, ph);
          ClusterStepMeta(c, s.memory.names, s.o, Step(c, s, ph).state.o);
        case BackupStore =>
          StepStores(c, s);
          StoreMeta(c, ph, s, d, BackupSpecOf(BackupDeclared(c)));
          FailKeeps(c, ph, EnsureStore(c, ph, s, d, BackupSpecOf(BackupDeclared(c))), BackupReady, ObjectStoreFailed);
        case RecoveryStore =>
          StepStores(c, s);
          StoreMeta(c, ph, s, d, RecoverySpecOf(RecoveryDeclared(c)));
          FailKeeps(c, ph, EnsureStore(c, ph, s, d, RecoverySpecOf(RecoveryDeclared(c))), RecoveryReady,
              ObjectStoreFailed);
        case BackupSchedule =>
          StepSchedule(c, s);
          ScheduleMeta(c, ph, s, ScheduleOf(c, BackupDeclared(c)));
          FailKeeps(c, ph, EnsureSchedule(c, ph, s, ScheduleOf(c, BackupDeclared(c))), BackupReady,
              ScheduledBackupFailed);
        case CleanBackupStore =>
          StepCleaning(c, s);
          Removed(s.o);
          CleanMeta(c, ph, s, d, BackupReady, s.o.(backup := None));
        case CleanRecoveryStore =>
          StepCleaning(c, s);
          Removed(s.o);
          CleanMeta(c, ph, s, d, RecoveryReady, s.o.(recovery := None));
        case CleanSchedule =>
          StepCleaning(c, s);
          Removed(s.o);
          CleanMeta(c, ph, s, d, BackupReady, s.o.(schedule := None));
      }
    }
  }

  lemma Removed(o: Objects)
    ensures MetaOf(o.(backup := None), DurableBackup).None? && MetaOf(o.(recovery := None), DurableRecovery).None?
    ensures MetaOf(o.(schedule := None), DurableSchedule).None?
  {
  }

  /** The phases that write a durable object. */
  lemma DurableWriters(ph: Phase, d: Durable)
    requires Writes(ph, SlotOf(d))
    ensures || ph == Protect(d) || (ph == EnsureCluster && d == DurableCluster)
            || ((ph == BackupStore || ph == CleanBackupStore) && d == DurableBackup)
            || ((ph == RecoveryStore || ph == CleanRecoveryStore) && d == DurableRecovery)
            || ((ph == BackupSchedule || ph == CleanSchedule) && d == DurableSchedule)
  {
  }

  lemma MetaStepSame(c: Context, a: Objects, b: Objects, d: Durable)
    requires SameSlot(a, b, SlotOf(d))
    ensures MetaStep(c, MetaOf(a, d), MetaOf(b, d))
  {
  }

  // ---- Retention ------------------------------------------------------------

  /** A durable object carrying the project's instance label has no project among its owners. */
  predicate Unowned(project: string, m: Option<Meta>) {
    m.Some? && LabelOf(m.value.labels, Instance) == project ==>
      forall o :: o in m.value.owners ==> !IsProjectOwner(o, project)
  }

  predicate AllUnowned(project: string, o: Objects) { forall d :: Unowned(project, MetaOf(o, d)) }

  lemma MetaStepUnowned(c: Context, m: Option<Meta>, n: Option<Meta>)
    requires MetaStep(c, m, n) && Unowned(c.name, m)
    ensures Unowned(c.name, n)
  {
    hide IsProjectOwner;
  }

  lemma {:induction false} RunKeepsUnowned(c: Context, s: State, plan: seq<Phase>)
    requires AllUnowned(c.name, s.o)
    ensures AllUnowned(c.name, Run(c, s, plan).state.o)
    decreases |plan|
  {
    hide Step, Unowned, MetaStep;
    if plan != [] {
      var r := Step(c, s, plan[0]);
      forall d ensures Unowned(c.name, MetaOf(r.state.o, d)) {
        StepMeta(c, s, plan[0], d);
        MetaStepUnowned(c, MetaOf(s.o, d), MetaOf(r.state.o, d));
      }
      if r.outcome == Next {
        RunKeepsUnowned(c, r.state, plan[1..]);
      }
    }
  }

  lemma ProtectPlanStep(c: Context, s: State, d: Durable, rest: seq<Phase>)
    requires Run(c, s, [Protect(d)] + rest).outcome == Next
    ensures ProtectOne(c, s, d).outcome == Next
    ensures Run(c, ProtectOne(c, s, d).state, rest) == Run(c, s, [Protect(d)] + rest)
    ensures Unowned(c.name, MetaOf(ProtectOne(c, s, d).state.o, d))
    ensures forall e :: e != d ==> MetaOf(ProtectOne(c, s, d).state.o, e) == MetaOf(s.o, e)
  {
    hide Unowned, StorageStep, CoreStep, PowerSyncStep;
    assert ([Protect(d)] + rest)[0] == Protect(d) && ([Protect(d)] + rest)[1..] == rest;
    StepProtect(c, s, d);
    ProtectFacts(c, s, d);
  }

  /** Once phase 0 is over, no labelled durable object is owned by the project. */
  lemma PhaseZeroProtects(c: Context, s: State)
    requires Run(c, s, ProtectPlan).outcome == Next
    ensures AllUnowned(c.name, Run(c, s, ProtectPlan).state.o)
  {
    hide Unowned, ProtectOne, Run;
    var p1 := [Protect(DurableBackup), Protect(DurableRecovery), Protect(DurableSchedule)];
    var p2 := [Protect(DurableRecovery), Protect(DurableSchedule)];
    var p3 := [Protect(DurableSchedule)];
    assert ProtectPlan == [Protect(DurableCluster)] + p1;
    ProtectPlanStep(c, s, DurableCluster, p1);
    var s1 := ProtectOne(c, s, DurableCluster).state;
    assert p1 == [Protect(DurableBackup)] + p2;
    ProtectPlanStep(c, s1, DurableBackup, p2);
    var s2 := ProtectOne(c, s1, DurableBackup).state;
    assert p2 == [Protect(DurableRecovery)] + p3;
    ProtectPlanStep(c, s2, DurableRecovery, p3);
    var s3 := ProtectOne(c, s2, DurableRecovery).state;
    assert p3 == [Protect(DurableSchedule)] + [];
    ProtectPlanStep(c, s3, DurableSchedule, []);
    RunNone(c, ProtectOne(c, s3, DurableSchedule).state);
  }

  /** The phases after phase 0. */
  function PlanBody(c: Context): seq<Phase> {
    SecretsPlan(c) + [ValidateBootstrap, InitSqlMap, JwksMap] + BackupPlan(c) + RecoveryPlan(c)
    + [EnsureCluster, WaitForDatabase] + ServicesPlan + PowerSyncPlan(c) + [Finish]
  }

  lemma PlanSplits(c: Context)
    ensures Plan(c) == ProtectPlan + PlanBody(c)
  {
    hide SecretsPlan, BackupPlan, RecoveryPlan, PowerSyncPlan;
  }

  /** A pass that gets past phase 0, even one that fails later, leaves every
      labelled durable object free of the project. */
  lemma PassProtects(c: Context, o: Objects, status: Status)
    requires Run(c, Begin(o, status), ProtectPlan).outcome == Next
    ensures AllUnowned(c.name, Pass(c, o, status).state.o)
  {
    hide Run, AllUnowned, PlanBody, Plan;
    PlanSplits(c);
    RunConcat(c, Begin(o, status), ProtectPlan, PlanBody(c));
    PhaseZeroProtects(c, Begin(o, status));
    RunKeepsUnowned(c, Run(c, Begin(o, status), ProtectPlan).state, PlanBody(c));
  }

  // ---- The Cluster over a pass ----------------------------------------------

  /** The data a retained Cluster was created from, and its capacity. */
  predicate SameOrigin(parse: Quantity, x: ClusterSpec, y: ClusterSpec) {
    && y.bootstrap == x.bootstrap && y.externals == x.externals
    && (x.storage.size != "" && parse(x.storage.size).Some? ==>
          y.storage.size != "" && parse(y.storage.size).Some?
          && parse(y.storage.size).value >= parse(x.storage.size).value)
  }

  /** A Cluster that was there is still there, with its origin and as reported. */
  predicate KeepsCluster(parse: Quantity, x: Option<Cluster>, y: Option<Cluster>) {
    x.Some? ==> y.Some? && y.value.status == x.value.status && SameOrigin(parse, x.value.spec, y.value.spec)
  }

  predicate KeepsOrigin(parse: Quantity, x: Option<Cluster>, y: Option<Cluster>) {
    x.Some? ==> y.Some? && SameOrigin(parse, x.value.spec, y.value.spec)
  }

  lemma KeepsThen(parse: Quantity, x: Option<Cluster>, y: Option<Cluster>, z: Option<Cluster>)
    requires KeepsCluster(parse, x, y) && KeepsCluster(parse, y, z)
    ensures KeepsCluster(parse, x, z)
  {
  }

  lemma ClusterStepKeeps(c: Context, names: Names, x: Option<Cluster>, y: Option<Cluster>)
    requires ClusterStep(c, names, x, y)
    ensures KeepsCluster(c.k.quantity, x, y)
  {
    hide MetaStep, Desired, NewCluster;
  }

  /** No pass rewrites the bootstrap or the external clusters of an existing
      Cluster, shrinks its storage, or deletes it. */
  lemma {:induction false} RunKeepsCluster(c: Context, s: State, plan: seq<Phase>)
    ensures KeepsCluster(c.k.quantity, s.o.cluster, Run(c, s, plan).state.o.cluster)
    decreases |plan|
  {
    hide Step, ClusterStep;
    if plan != [] {
      ClusterOverStep(c, s, plan[0]);
      var r := Step(c, s, plan[0]);
      ClusterStepKeeps(c, s.memory.names, s.o.cluster, r.state.o.cluster);
      if r.outcome == Next {
        RunKeepsCluster(c, r.state, plan[1..]);
        KeepsThen(c.k.quantity, s.o.cluster, r.state.o.cluster, Run(c, r.state, plan[1..]).state.o.cluster);
      }
    }
  }

  lemma PassKeepsCluster(c: Context, o: Objects, status: Status)
    ensures KeepsCluster(c.k.quantity, o.cluster, Pass(c, o, status).state.o.cluster)
  {
    hide *;
    PassIs(c, o, status);
    RunKeepsCluster(c, Begin(o, status), Plan(c));
  }
}
