/** Runs: passes interleaved with edits, deletion and re-creation of the project,
    garbage collection, other controllers and removals by hand. */
module Runs {
  import opened Kube
  import opened Clusters
  import opened World
  import opened Operator
  import opened Steps
  import Frames
  import opened Durables
  import opened Gates
  import opened Chain

  datatype Universe = Universe(project: Option<Project>, o: Objects)

  datatype Action =
    | Operate(c: Context)          // one pass, whatever its API calls do
    | Edit | DeleteProject | CreateProject
    | Controllers                  // other controllers and users, away from durable specs and metadata
    | Collect                      // garbage collection of what a project owned
    | RemoveByHand(d: Durable)

  predicate SameDurables(a: Objects, b: Objects) {
    && a.cluster.Some? == b.cluster.Some?
    && (a.cluster.Some? ==> && a.cluster.value.meta == b.cluster.value.meta
                            && a.cluster.value.spec == b.cluster.value.spec)
    && a.backup == b.backup && a.recovery == b.recovery && a.schedule == b.schedule
  }

  /** Garbage collection takes only what an owner reference gives to the project. */
  predicate Collectable(project: string, m: Meta) { exists o :: o in m.owners && IsProjectOwner(o, project) }

  predicate Collected(project: string, a: Objects, b: Objects) {
    && (b.cluster == a.cluster || (b.cluster.None? && Collectable(project, a.cluster.value.meta)))
    && (b.backup == a.backup || (b.backup.None? && Collectable(project, a.backup.value.meta)))
    && (b.recovery == a.recovery || (b.recovery.None? && Collectable(project, a.recovery.value.meta)))
    && (b.schedule == a.schedule || (b.schedule.None? && Collectable(project, a.schedule.value.meta)))
  }

  function WithoutDurable(o: Objects, d: Durable): Objects {
    match d
    case DurableCluster => o.(cluster := None)
    case DurableBackup => o.(backup := None)
    case DurableRecovery => o.(recovery := None)
    case DurableSchedule => o.(schedule := None)
  }

  /** The status a pass reads. */
  function StatusOf(w: Universe): Status { if w.project.Some? then w.project.value.status else FRESH_STATUS }

  /** What a pass leaves. */
  function After(w: Universe, r: Result): Universe {
    Universe(if w.project.Some? then Some(w.project.value.(status := r.state.saved)) else None, r.state.o)
  }

  predicate Reads(c: Context, w: Universe) {
    && w.project.Some? && c.uid == w.project.value.uid && c.generation == w.project.value.generation
    && c.spec == w.project.value.spec
  }

  /** A step of anyone but the operator. */
  predicate Around(name: string, a: Action, w: Universe, v: Universe) {
    match a
    case Operate(_) => false
    case Edit =>
      && w.project.Some? && v.project.Some? && v.o == w.o
      && v.project.value.uid == w.project.value.uid && v.project.value.status == w.project.value.status
      && v.project.value.generation >= w.project.value.generation
    case DeleteProject => w.project.Some? && v.project.None? && v.o == w.o
    case CreateProject =>
      w.project.None? && v.project.Some? && v.project.value.status == FRESH_STATUS && v.project.value.generation >= 1
          && v.o == w.o
    case Controllers => v.project == w.project && SameDurables(w.o, v.o)
    case Collect => v.project == w.project && Collected(name, w.o, v.o)
    case RemoveByHand(d) => v.project == w.project && v.o == WithoutDurable(w.o, d)
  }

  ghost predicate Moves(k: Platform, name: string, a: Action, w: Universe, v: Universe) {
    match a
    case Operate(c) => c.k == k && c.name == name && Reads(c, w) && v == After(w, Pass(c, w.o, StatusOf(w)))
    case _ => Around(name, a, w, v)
  }

  const NOTHING := Universe(None, NO_OBJECTS)

  /** The i-th state of a run. */
  function At(ws: seq<Universe>, i: int): Universe { if 0 <= i < |ws| then ws[i] else NOTHING }

  function First(ws: seq<Universe>): Universe { At(ws, 0) }

  /** The i-th step of a run. */
  function StepAt(acts: seq<Action>, i: int): Action { if 0 <= i < |acts| then acts[i] else Edit }

  ghost predicate IsRun(k: Platform, name: string, ws: seq<Universe>, acts: seq<Action>) {
    |ws| == |acts| + 1 && forall i :: 0 <= i < |acts| ==> Moves(k, name, StepAt(acts, i), At(ws, i), At(ws, i + 1))
  }

  // ---- Durable retention ----------------------------------------------------

  lemma OthersMove(k: Platform, name: string, a: Action, w: Universe, v: Universe)
    requires Moves(k, name, a, w, v) && !a.Operate?
    ensures Around(name, a, w, v)
  {
    hide Pass, Around;
  }

  /** Whatever others do, a durable object keeps its metadata or goes. */
  lemma OtherMoves(name: string, a: Action, w: Universe, v: Universe, d: Durable)
    requires Around(name, a, w, v)
    ensures MetaOf(v.o, d) == MetaOf(w.o, d) || MetaOf(v.o, d).None?
  {
    hide MetaOf, SameDurables, Collected, WithoutDurable;
    match a {
      case Controllers => SameDurablesMeta(w.o, v.o, d);
      case Collect => CollectedMeta(name, w.o, v.o, d);
      case RemoveByHand(e) => RemovedMeta(w.o, e, d);
      case _ =>
    }
  }

  lemma SameDurablesMeta(a: Objects, b: Objects, d: Durable)
    requires SameDurables(a, b)
    ensures MetaOf(b, d) == MetaOf(a, d)
  {
  }

  lemma CollectedMeta(project: string, a: Objects, b: Objects, d: Durable)
    requires Collected(project, a, b)
    ensures MetaOf(b, d) == MetaOf(a, d) || MetaOf(b, d).None?
  {
    hide Collectable;
  }

  lemma RemovedMeta(o: Objects, e: Durable, d: Durable)
    ensures MetaOf(WithoutDurable(o, e), d) == MetaOf(o, d) || MetaOf(WithoutDurable(o, e), d).None?
  {
  }

  lemma OtherMovesUnowned(name: string, a: Action, w: Universe, v: Universe)
    requires Around(name, a, w, v) && AllUnowned(name, w.o)
    ensures AllUnowned(name, v.o)
  {
    hide Around, IsProjectOwner, MetaOf;
    forall d ensures Unowned(name, MetaOf(v.o, d)) {
      OtherMoves(name, a, w, v, d);
      assert Unowned(name, MetaOf(w.o, d));
    }
  }

  lemma OperateMoves(k: Platform, name: string, c: Context, w: Universe, v: Universe)
    requires Moves(k, name, Operate(c), w, v)
    ensures c.k == k && c.name == name && v.o == Pass(c, w.o, StatusOf(w)).state.o
    ensures w.project.Some? && Reads(c, w) && v == After(w, Pass(c, w.o, StatusOf(w)))
  {
    hide Pass, StatusOf;
  }

  /** Once no labelled durable object is owned by the project, none ever is again. */
  lemma {:induction false} UnownedForever(k: Platform, name: string, ws: seq<Universe>, acts: seq<Action>, i: nat,
      j: nat)
    requires IsRun(k, name, ws, acts) && i <= j < |ws| && AllUnowned(name, At(ws, i).o)
    ensures AllUnowned(name, At(ws, j).o)
    decreases j
  {
    hide Moves, AllUnowned, Around, Pass, Run, Plan, StatusOf, At, StepAt;
    if i < j {
      UnownedForever(k, name, ws, acts, i, j - 1);
      var a, w, v := StepAt(acts, j - 1), At(ws, j - 1), At(ws, j);
      if a.Operate? {
        OperateMoves(k, name, a.c, w, v);
        PassIs(a.c, w.o, StatusOf(w));
        RunKeepsUnowned(a.c, Begin(w.o, StatusOf(w)), Plan(a.c));
      } else {
        OthersMove(k, name, a, w, v);
        OtherMovesUnowned(name, a, w, v);
      }
    }
  }

  /** Retention from the first pass that got past phase 0. */
  lemma RetainedAfterFirstPass(k: Platform, name: string, ws: seq<Universe>, acts: seq<Action>, i: nat, j: nat)
    requires IsRun(k, name, ws, acts) && i < j < |ws| && PastPhaseZero(StepAt(acts, i), At(ws, i))
    ensures AllUnowned(name, At(ws, j).o)
  {
    hide Run, AllUnowned, Pass, Plan, Moves, StatusOf, At, StepAt;
    var c, w := StepAt(acts, i).c, At(ws, i);
    OperateMoves(k, name, c, w, At(ws, i + 1));
    PassProtects(c, w.o, StatusOf(w));
    UnownedForever(k, name, ws, acts, i + 1, j);
  }

  /** A pass that gets past the repair of durable metadata. */
  predicate PastPhaseZero(a: Action, w: Universe) {
    match a
    case Operate(c) => Run(c, Begin(w.o, StatusOf(w)), ProtectPlan).outcome == Next
    case _ => false
  }

  /** Deleting the project and collecting what it owned leaves every labelled durable object. */
  lemma CollectionSparesDurables(project: string, a: Objects, b: Objects)
    requires AllUnowned(project, a) && Collected(project, a, b)
    ensures forall d :: MetaOf(a, d).Some? && LabelOf(MetaOf(a, d).value.labels, Instance) == project
              ==> MetaOf(b, d) == MetaOf(a, d) && Frames.SameSlot(a, b, SlotOf(d))
  {
    hide IsProjectOwner;
    forall d | MetaOf(a, d).Some? && LabelOf(MetaOf(a, d).value.labels, Instance) == project
      ensures MetaOf(b, d) == MetaOf(a, d) && Frames.SameSlot(a, b, SlotOf(d))
    {
      assert Unowned(project, MetaOf(a, d));
    }
  }

  // ---- The Cluster ----------------------------------------------------------

  /** The project's own Cluster, out of reach of garbage collection. */
  predicate HoldsCluster(name: string, o: Objects) {
    o.cluster.Some? && LabelOf(o.cluster.value.meta.labels, Instance) == name
        && Unowned(name, MetaOf(o, DurableCluster))
  }

  lemma {:induction false} RunHoldsCluster(c: Context, s: State, plan: seq<Phase>)
    requires HoldsCluster(c.name, s.o)
    ensures HoldsCluster(c.name, Run(c, s, plan).state.o)
    decreases |plan|
  {
    hide Step, MetaStep, ClusterStep, IsProjectOwner, SameOrigin;
    if plan != [] {
      StepMeta(c, s, plan[0], DurableCluster);
      ClusterOverStep(c, s, plan[0]);
      var r := Step(c, s, plan[0]);
      ClusterStepKeeps(c, s.memory.names, s.o.cluster, r.state.o.cluster);
      MetaStepHolds(c, MetaOf(s.o, DurableCluster), MetaOf(r.state.o, DurableCluster));
      if r.outcome == Next {
        RunHoldsCluster(c, r.state, plan[1..]);
      }
    }
  }

  lemma MetaStepHolds(c: Context, m: Option<Meta>, n: Option<Meta>)
    requires MetaStep(c, m, n) && m.Some? && n.Some? && Ours(c, m.value) && Unowned(c.name, m)
    ensures Ours(c, n.value) && Unowned(c.name, n)
  {
    hide IsProjectOwner;
  }

  lemma PassHoldsCluster(c: Context, o: Objects, status: Status)
    requires HoldsCluster(c.name, o)
    ensures HoldsCluster(c.name, Pass(c, o, status).state.o)
        && KeepsOrigin(c.k.quantity, o.cluster, Pass(c, o, status).state.o.cluster)
  {
    hide *;
    PassIs(c, o, status);
    RunHoldsCluster(c, Begin(o, status), Plan(c));
    PassKeepsCluster(c, o, status);
    OriginFacts(c.k.quantity, o.cluster, Pass(c, o, status).state.o.cluster, None);
  }

  lemma AroundKeepsCluster(k: Platform, name: string, a: Action, w: Universe, v: Universe)
    requires Around(name, a, w, v) && HoldsCluster(name, w.o) && a != RemoveByHand(DurableCluster)
    ensures HoldsCluster(name, v.o) && KeepsOrigin(k.quantity, w.o.cluster, v.o.cluster)
  {
    hide IsProjectOwner;
  }

  lemma OriginFacts(parse: Quantity, x: Option<Cluster>, y: Option<Cluster>, z: Option<Cluster>)
    ensures KeepsOrigin(parse, x, x) && (KeepsCluster(parse, x, y) ==> KeepsOrigin(parse, x, y))
    ensures KeepsOrigin(parse, x, y) && KeepsOrigin(parse, y, z) ==> KeepsOrigin(parse, x, z)
  {
  }

  ghost predicate NotRemoved(acts: seq<Action>, i: nat, j: nat, d: Durable) {
    forall n :: i <= n < j ==> StepAt(acts, n) != RemoveByHand(d)
  }

  /** Over edits, deletions, garbage collection and re-creations, the Cluster
      survives with its bootstrap and external clusters, and never shrinks. */
  lemma {:induction false} ClusterOutlivesProject(k: Platform, name: string, ws: seq<Universe>, acts: seq<Action>,
      i: nat, j: nat)
    requires IsRun(k, name, ws, acts) && i <= j < |ws| && HoldsCluster(name, At(ws, i).o)
    requires NotRemoved(acts, i, j, DurableCluster)
    ensures HoldsCluster(name, At(ws, j).o) && KeepsOrigin(k.quantity, At(ws, i).o.cluster, At(ws, j).o.cluster)
    decreases j
  {
    hide Moves, HoldsCluster, KeepsOrigin, At, StepAt, Around, Pass, StatusOf;
    var x := At(ws, i).o.cluster;
    OriginFacts(k.quantity, x, x, x);
    if i < j {
      ClusterOutlivesProject(k, name, ws, acts, i, j - 1);
      var a, w, v := StepAt(acts, j - 1), At(ws, j - 1), At(ws, j);
      if a.Operate? {
        OperateMoves(k, name, a.c, w, v);
        PassHoldsCluster(a.c, w.o, StatusOf(w));
      } else {
        OthersMove(k, name, a, w, v);
        AroundKeepsCluster(k, name, a, w, v);
      }
      OriginFacts(k.quantity, x, w.o.cluster, v.o.cluster);
    }
  }

  // ---- Phase by phase --------------------------------------------------------

  /** One phase of some pass over this project, whatever that pass read and did before, or a step of anyone else. */
  datatype Turn = Phase(c: Context, memory: Status, saved: Status, ph: World.Phase) | Other(a: Action)

  ghost predicate Turns(k: Platform, name: string, t: Turn, w: Universe, v: Universe) {
    match t
    case Phase(c, memory, saved, ph) =>
      c.k == k && c.name == name && v.o == Step(c, State(w.o, memory, saved, []), ph).state.o
    case Other(a) => Around(name, a, w, v)
  }

  /** The i-th turn of a run. */
  function TurnAt(turns: seq<Turn>, i: int): Turn { if 0 <= i < |turns| then turns[i] else Other(Edit) }

  /** Passes of any number of operators, interleaved phase by phase with each other and with everyone else. */
  ghost predicate Interleaved(k: Platform, name: string, ws: seq<Universe>, turns: seq<Turn>) {
    |ws| == |turns| + 1 && forall i :: 0 <= i < |turns| ==> Turns(k, name, TurnAt(turns, i), At(ws, i), At(ws, i + 1))
  }

  /** Retention and origin hold between any two phases, too: no labelled durable object is taken
      over again, and the Cluster keeps its origin while nobody removes it by hand. */
  lemma {:induction false} OutlivesInterleaving(k: Platform, name: string, ws: seq<Universe>, turns: seq<Turn>, i: nat,
      j: nat)
    requires Interleaved(k, name, ws, turns) && i <= j < |ws|
    ensures AllUnowned(name, At(ws, i).o) ==> AllUnowned(name, At(ws, j).o)
    ensures && HoldsCluster(name, At(ws, i).o)
            && (forall n :: i <= n < j ==> TurnAt(turns, n) != Other(RemoveByHand(DurableCluster)))
            ==> HoldsCluster(name, At(ws, j).o) && KeepsOrigin(k.quantity, At(ws, i).o.cluster, At(ws, j).o.cluster)
    decreases j
  {
    hide Turns, AllUnowned, HoldsCluster, KeepsOrigin, At, TurnAt;
    var x := At(ws, i).o.cluster;
    OriginFacts(k.quantity, x, x, x);
    if i < j {
      OutlivesInterleaving(k, name, ws, turns, i, j - 1);
      TurnKeeps(k, name, TurnAt(turns, j - 1), At(ws, j - 1), At(ws, j));
      OriginFacts(k.quantity, x, At(ws, j - 1).o.cluster, At(ws, j).o.cluster);
    }
  }

  lemma TurnKeeps(k: Platform, name: string, t: Turn, w: Universe, v: Universe)
    requires Turns(k, name, t, w, v)
    ensures AllUnowned(name, w.o) ==> AllUnowned(name, v.o)
    ensures HoldsCluster(name, w.o) && t != Other(RemoveByHand(DurableCluster))
            ==> HoldsCluster(name, v.o) && KeepsOrigin(k.quantity, w.o.cluster, v.o.cluster)
  {
    hide AllUnowned, HoldsCluster, KeepsOrigin, Step, Around, Run;
    match t {
      case Phase(c, memory, saved, ph) =>
        var s := State(w.o, memory, saved, []);
        RunOne(c, s, ph);
        if AllUnowned(name, w.o) { RunKeepsUnowned(c, s, [ph]); }
        if HoldsCluster(name, w.o) { RunHoldsCluster(c, s, [ph]); }
        RunKeepsCluster(c, s, [ph]);
        OriginFacts(k.quantity, w.o.cluster, v.o.cluster, None);
      case Other(a) =>
        if AllUnowned(name, w.o) { OtherMovesUnowned(name, a, w, v); }
        if HoldsCluster(name, w.o) && a != RemoveByHand(DurableCluster) { AroundKeepsCluster(k, name, a, w, v); }
    }
  }

  // ---- The recovery source --------------------------------------------------

  /** A recovered Cluster and its source store, both the project's own. */
  predicate HoldsSource(name: string, o: Objects) {
    && HoldsCluster(name, o) && RecoveredCluster(o.cluster)
    && OwnStore(name, o.recovery)
  }

  /** A source store that is the project's own. */
  predicate OwnStore(name: string, x: Option<Store>) {
    x.Some? && LabelOf(x.value.meta.labels, Instance) == name && Unowned(name, Some(x.value.meta))
  }

  lemma {:induction false} RunKeepsStoreMeta(c: Context, s: State, plan: seq<Phase>)
    requires OwnStore(c.name, s.o.recovery) && CleanRecoveryStore !in plan
    ensures OwnStore(c.name, Run(c, s, plan).state.o.recovery)
    decreases |plan|
  {
    hide Step, MetaStep, IsProjectOwner;
    if plan != [] {
      StepMeta(c, s, plan[0], DurableRecovery);
      var r := Step(c, s, plan[0]);
      StoreStays(c, s, plan[0]);
      MetaStepHolds(c, MetaOf(s.o, DurableRecovery), MetaOf(r.state.o, DurableRecovery));
      if r.outcome == Next {
        RunKeepsStoreMeta(c, r.state, plan[1..]);
      }
    }
  }

  lemma StoreStays(c: Context, s: State, ph: Phase)
    requires s.o.recovery.Some? && ph != CleanRecoveryStore
    ensures Step(c, s, ph).state.o.recovery.Some?
  {
    hide Step;
    if ph == RecoveryStore {
      RecoveryStoreKeeps(c, s);
    } else {
      StepRecoverySpec(c, s, ph);
    }
  }

  lemma PassKeepsSource(c: Context, o: Objects, status: Status)
    requires HoldsSource(c.name, o)
    ensures HoldsSource(c.name, Pass(c, o, status).state.o)
        && SourceKept(o.recovery, Pass(c, o, status).state.o.recovery)
  {
    hide Run, Plan, Pass, IsProjectOwner, HoldsCluster, OwnStore, KeepsOrigin, RecoveredCluster, SourceKept;
    PassHoldsCluster(c, o, status);
    PassKeepsCluster(c, o, status);
    RecoverySourceKept(c, o, status);
    SourceMeta(c, o, status);
    StillRecovered(c.k.quantity, o.cluster, Pass(c, o, status).state.o.cluster);
  }

  lemma StillRecovered(parse: Quantity, x: Option<Cluster>, y: Option<Cluster>)
    requires KeepsCluster(parse, x, y) && RecoveredCluster(x)
    ensures RecoveredCluster(y)
  {
  }

  /** The source keeps its label and stays unowned over a pass. */
  lemma SourceMeta(c: Context, o: Objects, status: Status)
    requires HoldsSource(c.name, o)
    ensures OwnStore(c.name, Pass(c, o, status).state.o.recovery)
  {
    hide Run, Step, Plan, AfterValidation, SecretsPrefix, Early, HoldsCluster, Recovered, Unowned, LabelOf,
         SameLocation;
    var s := Begin(o, status);
    var prefix := SecretsPrefix(c) + [ValidateBootstrap];
    PlanAtValidation(c);
    SecretsPrefixFacts(c);
    EarlyNeverCleans(SecretsPrefix(c));
    RunEarly(c, s, SecretsPrefix(c));
    var r := Run(c, s, SecretsPrefix(c));
    RunKeepsStoreMeta(c, s, SecretsPrefix(c));
    RunLast(c, s, SecretsPrefix(c), ValidateBootstrap);
    RunConcat(c, s, prefix, AfterValidation(c));
    if r.outcome == Next {
      ValidationPasses(c, r.state);
      var v := Step(c, r.state, ValidateBootstrap);
      if v.outcome == Next {
        EnabledPlanNeverCleans(c);
        RunKeepsStoreMeta(c, v.state, AfterValidation(c));
      }
    }
  }

  lemma EarlyNeverCleans(plan: seq<Phase>)
    requires Early(plan)
    ensures CleanRecoveryStore !in plan
  {
  }

  lemma AroundKeepsSource(name: string, a: Action, w: Universe, v: Universe)
    requires Around(name, a, w, v) && HoldsSource(name, w.o)
    requires a != RemoveByHand(DurableCluster) && a != RemoveByHand(DurableRecovery)
    ensures HoldsSource(name, v.o) && SourceKept(w.o.recovery, v.o.recovery)
  {
    hide IsProjectOwner, Recovered;
  }

  /** While a recovered Cluster and its source are not removed by hand, the source
      stays, at the same destination and endpoint, whatever is declared meanwhile. */
  lemma {:induction false} SourceOutlivesEdits(k: Platform, name: string, ws: seq<Universe>, acts: seq<Action>, i: nat,
      j: nat)
    requires IsRun(k, name, ws, acts) && i <= j < |ws| && HoldsSource(name, At(ws, i).o)
    requires NotRemoved(acts, i, j, DurableCluster) && NotRemoved(acts, i, j, DurableRecovery)
    ensures HoldsSource(name, At(ws, j).o) && SourceKept(At(ws, i).o.recovery, At(ws, j).o.recovery)
    decreases j
  {
    hide Moves, HoldsCluster, Recovered, Unowned, At, StepAt, Around, Pass, StatusOf;
    if i < j {
      SourceOutlivesEdits(k, name, ws, acts, i, j - 1);
      var a, w, v := StepAt(acts, j - 1), At(ws, j - 1), At(ws, j);
      if a.Operate? {
        OperateMoves(k, name, a.c, w, v);
        PassKeepsSource(a.c, w.o, StatusOf(w));
      } else {
        OthersMove(k, name, a, w, v);
        AroundKeepsSource(name, a, w, v);
      }
    }
  }

  // ---- Status ---------------------------------------------------------------

  /** Chained, and the observed generation is one that existed. */
  predicate SoundStatus(w: Universe) {
    w.project.Some? ==>
      Chained(w.project.value.status) && 0 <= w.project.value.status.observed <= w.project.value.generation
  }

  /** A pass whose status writes succeed, or any other step. */
  ghost predicate Saves(a: Action) { a.Operate? ==> StatusWritesSucceed(a.c) }

  ghost predicate AllSave(acts: seq<Action>) { forall i :: Saves(StepAt(acts, i)) }

  /** Of a project that lives on, neither the observed nor the declared generation goes back. */
  predicate Grew(w: Universe, v: Universe) {
    w.project.Some? && v.project.Some? ==>
      && v.project.value.status.observed >= w.project.value.status.observed
      && v.project.value.generation >= w.project.value.generation
  }

  lemma MoveKeepsStatus(k: Platform, name: string, a: Action, w: Universe, v: Universe)
    requires Moves(k, name, a, w, v) && SoundStatus(w) && Saves(a)
    ensures SoundStatus(v) && Grew(w, v)
  {
    hide *;
    if a.Operate? {
      OperateMoves(k, name, a.c, w, v);
      StatusIs(a, w);
      StatusChain(a.c, w.o, StatusOf(w));
      PassGrows(a.c, w, v, Pass(a.c, w.o, StatusOf(w)));
    } else {
      OthersMove(k, name, a, w, v);
      AroundKeepsStatus(name, a, w, v);
    }
  }

  lemma StatusIs(a: Action, w: Universe)
    requires SoundStatus(w) && w.project.Some? && a.Operate? && Saves(a)
    ensures Chained(StatusOf(w)) && StatusWritesSucceed(a.c)
  {
    hide Chained, StatusWritesSucceed;
  }

  lemma PassGrows(c: Context, w: Universe, v: Universe, r: Result)
    requires SoundStatus(w) && Reads(c, w) && v == After(w, r) && Chained(r.state.saved)
    requires r.state.saved.observed == if r.outcome == Next then c.generation else StatusOf(w).observed
    ensures SoundStatus(v) && Grew(w, v)
  {
    hide Chained;
  }

  lemma AroundKeepsStatus(name: string, a: Action, w: Universe, v: Universe)
    requires Around(name, a, w, v) && SoundStatus(w)
    ensures SoundStatus(v) && Grew(w, v)
  {
    hide CoreReady, SameDurables, Collected, WithoutDurable;
    assert !IsTrue(FRESH_STATUS, Ready);
  }

  /** From a state without a project or with a sound status: at the end of every
      step Ready implies Running, Running implies five ready core services, and the
      observed generation is at most the generation. */
  lemma {:induction false} StatusForever(k: Platform, name: string, ws: seq<Universe>, acts: seq<Action>, j: nat)
    requires IsRun(k, name, ws, acts) && j < |ws| && SoundStatus(First(ws)) && AllSave(acts)
    ensures SoundStatus(At(ws, j))
    decreases j
  {
    hide Moves, SoundStatus, Saves;
    if j > 0 {
      StatusForever(k, name, ws, acts, j - 1);
      MoveKeepsStatus(k, name, StepAt(acts, j - 1), At(ws, j - 1), At(ws, j));
    }
  }

  /** While the project lives, its observed generation never goes back. */
  lemma {:induction false} ObservedGrows(k: Platform, name: string, ws: seq<Universe>, acts: seq<Action>, i: nat,
      j: nat)
    requires IsRun(k, name, ws, acts) && i <= j < |ws| && SoundStatus(First(ws)) && AllSave(acts)
    requires forall n :: i <= n <= j ==> At(ws, n).project.Some?
    ensures Grew(At(ws, i), At(ws, j))
    decreases j
  {
    hide Moves, SoundStatus, Saves, At, StepAt;
    if i < j {
      ObservedGrows(k, name, ws, acts, i, j - 1);
      StatusForever(k, name, ws, acts, j - 1);
      MoveKeepsStatus(k, name, StepAt(acts, j - 1), At(ws, j - 1), At(ws, j));
      assert At(ws, j - 1).project.Some?;
    }
  }
}
