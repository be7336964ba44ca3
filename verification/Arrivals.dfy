/** How a pass gets to where it ends: every earlier phase went on, left its part settled,
    and disturbed no object whose writer is still to come. */
module Arrivals {
  import opened Kube
  import opened Pods
  import opened Clusters
  import opened World
  import opened Operator
  import opened Steps
  import opened Frames
  import opened Durables
  import opened Gates
  import opened Settled
  import opened Keeping
  import opened Ordering
  import opened Settling
  import opened Idempotence
  import opened Progress

  /** A pass over (o, status) goes on through `before` and comes to `ph` in state `s`. */
  predicate Arrives(c: Context, o: Objects, status: Status, before: seq<Phase>, ph: Phase, s: State) {
    before + [ph] <= Plan(c) && Run(c, Begin(o, status), before) == Result(s, Next)
  }

  lemma ArrivalParts(c: Context, o: Objects, status: Status, before: seq<Phase>, ph: Phase, s: State)
    ensures Arrives(c, o, status, before, ph, s)
        <==> before + [ph] <= Plan(c) && Run(c, Begin(o, status), before) == Result(s, Next)
    ensures Arrives(c, o, status, [], ph, s) ==> s == Begin(o, status) && s.o == o
  {
    hide Run, Plan;
    RunNone(c, Begin(o, status));
  }

  lemma {:induction false} StopOf(c: Context, s: State, plan: seq<Phase>) returns (before: seq<Phase>, ph: Phase)
    requires Run(c, s, plan).outcome != Next
    ensures before + [ph] <= plan && Run(c, s, before).outcome == Next
    ensures Run(c, s, plan) == Step(c, Run(c, s, before).state, ph)
    decreases |plan|
  {
    hide Run, Step;
    if plan == [] {
      RunNone(c, s);
      assert false;
    } else {
      assert plan == [plan[0]] + plan[1..];
      RunCons(c, s, plan[0], plan[1..]);
      var r := Step(c, s, plan[0]);
      if r.outcome == Next {
        var rest;
        rest, ph := StopOf(c, r.state, plan[1..]);
        before := [plan[0]] + rest;
        RunCons(c, s, plan[0], rest);
      } else {
        before, ph := [], plan[0];
        RunNone(c, s);
      }
    }
  }

  /** However a pass ends, it ends with one phase reached by all earlier ones going on. */
  lemma EndArrives(c: Context, o: Objects, status: Status) returns (before: seq<Phase>, ph: Phase, s: State)
    ensures Arrives(c, o, status, before, ph, s) && Pass(c, o, status) == Step(c, s, ph)
    ensures Pass(c, o, status).outcome == Next ==> ph == Finish
  {
    hide *;
    PassIs(c, o, status);
    if Pass(c, o, status).outcome == Next {
      PlanFinishes(c);
      before, ph := BeforeFinish(c), Finish;
      RunLast(c, Begin(o, status), before, Finish);
    } else {
      before, ph := StopOf(c, Begin(o, status), Plan(c));
    }
    s := Run(c, Begin(o, status), before).state;
    ArrivalParts(c, o, status, before, ph, s);
  }

  lemma {:induction false} RanksClimb(c: Context, plan: seq<Phase>, i: nat)
    requires InOrder(c, plan) && i < |plan|
    ensures Rank(plan[i]) >= i
  {
    hide Planned, Rank;
    if i > 0 { RanksClimb(c, plan, i - 1); }
  }

  /** The phases before one in the plan are the planned ones of lower rank. */
  lemma ArrivalOrder(c: Context, before: seq<Phase>, ph: Phase)
    requires before + [ph] <= Plan(c)
    ensures Planned(c, ph) && InOrder(c, before) && |before| <= Rank(ph)
    ensures forall q :: q in before <==> Planned(c, q) && Rank(q) < Rank(ph)
  {
    hide Plan, Planned, Rank;
    PlanInOrder(c);
    var n := |before|;
    assert Plan(c)[n] == (before + [ph])[n] == ph;
    RanksClimb(c, Plan(c), n);
    assert forall i :: 0 <= i < n ==> before[i] == (before + [ph])[i] == Plan(c)[i];
    forall q | Planned(c, q) && Rank(q) < Rank(ph) ensures q in before {
      PlannedInPlan(c, q);
      var j :| 0 <= j < |Plan(c)| && Plan(c)[j] == q;
      assert j < n;
    }
  }

  lemma ArrivalPlanned(c: Context, o: Objects, status: Status, before: seq<Phase>, ph: Phase, s: State)
    requires Arrives(c, o, status, before, ph, s)
    ensures Planned(c, ph) && |before| <= Rank(ph)
    ensures forall q :: q in before <==> Planned(c, q) && Rank(q) < Rank(ph)
  {
    hide *;
    ArrivalParts(c, o, status, before, ph, s);
    ArrivalOrder(c, before, ph);
  }

  /** On arrival everything planned before is settled. */
  lemma ArrivalStable(c: Context, o: Objects, status: Status, before: seq<Phase>, ph: Phase, s: State, first: Phase)
    requires Faithful(c.k) && Arrives(c, o, status, before, ph, s) && Planned(c, first) && Rank(first) < Rank(ph)
    ensures Stable(c, s.o, s.memory, first)
  {
    hide *;
    ArrivalParts(c, o, status, before, ph, s);
    ArrivalOrder(c, before, ph);
    RunSettles(c, Begin(o, status), before, first);
  }

  lemma SplitOrder(c: Context, before: seq<Phase>, ph: Phase, first: Phase)
    returns (early: seq<Phase>, late: seq<Phase>)
    requires first in before && InOrder(c, before) && forall q :: q in before ==> Planned(c, q) && Rank(q) < Rank(ph)
    ensures before == early + [first] + late && (before[|before| - 1] == first ==> late == [])
    ensures forall q :: q in late ==> Planned(c, q) && Rank(first) < Rank(q) < Rank(ph)
  {
    hide Planned, Rank;
    var j :| 0 <= j < |before| && before[j] == first;
    early, late := before[..j], before[j + 1..];
    forall q | q in late ensures Planned(c, q) && Rank(first) < Rank(q) < Rank(ph) {
      var i :| 0 <= i < |late| && late[i] == q;
      assert before[j + 1 + i] == q;
    }
  }

  /** An earlier phase of the same pass, and what ran since. */
  lemma ArrivalEarlier(c: Context, o: Objects, status: Status, before: seq<Phase>, ph: Phase, s: State, first: Phase)
    returns (early: seq<Phase>, t: State, late: seq<Phase>)
    requires Arrives(c, o, status, before, ph, s) && first in before
    ensures before == early + [first] + late && Arrives(c, o, status, early, first, t)
    ensures Step(c, t, first).outcome == Next && Run(c, Step(c, t, first).state, late) == Result(s, Next)
    ensures (forall q :: q in late ==> Planned(c, q) && Rank(first) < Rank(q) < Rank(ph))
        && (before[|before| - 1] == first ==> late == [])
  {
    hide Run, Step, Plan, Arrives, Planned, Rank, InOrder;
    ArrivalParts(c, o, status, before, ph, s);
    ArrivalOrder(c, before, ph);
    early, late := SplitOrder(c, before, ph, first);
    assert early + [first] + late == early + ([first] + late);
    var b := Begin(o, status);
    RunConcat(c, b, early, [first] + late);
    t := Run(c, b, early).state;
    RunCons(c, t, first, late);
    assert early + [first] <= before && before <= before + [ph];
    ArrivalParts(c, o, status, early, first, t);
  }

  // ---- Objects along the way ------------------------------------------------

  ghost predicate NoneWrites(plan: seq<Phase>, slot: Slot) { forall ph :: ph in plan ==> !NextWrites(ph, slot) }

  /** Going on, a run leaves alone what none of its phases would write. */
  lemma {:induction false} NextRunKeeps(c: Context, s: State, plan: seq<Phase>, slot: Slot)
    requires Run(c, s, plan).outcome == Next && NoneWrites(plan, slot)
    ensures SameSlot(s.o, Run(c, s, plan).state.o, slot)
    decreases |plan|
  {
    assert SameSlot(s.o, s.o, slot);
    hide Step, NextWrites, SameSlot;
    if plan != [] {
      assert plan[0] in plan;
      NextObjects(c, s, plan[0], slot);
      NextRunKeeps(c, Step(c, s, plan[0]).state, plan[1..], slot);
      SlotTrans(s.o, Step(c, s, plan[0]).state.o, Run(c, s, plan).state.o, slot);
    }
  }

  /** An object whose writer is still to come is as the pass found it. */
  lemma ArrivalKeeps(c: Context, o: Objects, status: Status, before: seq<Phase>, ph: Phase, s: State, slot: Slot)
    requires Arrives(c, o, status, before, ph, s) && !IsDurable(slot) && WriterOf(c, slot) !in before
    ensures SameSlot(o, s.o, slot)
  {
    hide Run, Plan, Planned, Rank, NextWrites, SameSlot, WriterOf, Arrives, IsDurable, InOrder;
    ArrivalParts(c, o, status, before, ph, s);
    ArrivalOrder(c, before, ph);
    forall q | q in before ensures !NextWrites(q, slot) {
      if NextWrites(q, slot) { OnlyWriter(c, q, slot); }
    }
    NextRunKeeps(c, Begin(o, status), before, slot);
  }

  /** An object whose writer came by is what the writer made of what the pass found. */
  lemma ArrivalWritten(c: Context, o: Objects, status: Status, before: seq<Phase>, ph: Phase, s: State, slot: Slot)
    returns (early: seq<Phase>, t: State)
    requires Arrives(c, o, status, before, ph, s) && !IsDurable(slot) && WriterOf(c, slot) in before
    ensures Arrives(c, o, status, early, WriterOf(c, slot), t) && SameSlot(o, t.o, slot)
    ensures Step(c, t, WriterOf(c, slot)).outcome == Next && SameSlot(Step(c, t, WriterOf(c, slot)).state.o, s.o, slot)
  {
    hide Run, Plan, Planned, Rank, NextWrites, SameSlot, WriterOf, Arrives, IsDurable, Step, InOrder;
    var writer, late := WriterOf(c, slot), [];
    early, t, late := ArrivalEarlier(c, o, status, before, ph, s, writer);
    ArrivalPlanned(c, o, status, early, writer, t);
    ArrivalKeeps(c, o, status, early, writer, t, slot);
    forall q | q in late ensures !NextWrites(q, slot) {
      if NextWrites(q, slot) { OnlyWriter(c, q, slot); }
    }
    NextRunKeeps(c, Step(c, t, writer).state, late, slot);
  }

  /** Phase 0 leaves a labelled Cluster without project owners, and nothing else of it moves. */
  function ProtectedCluster(c: Context, x: Option<Cluster>): Option<Cluster> {
    if x.Some? && Ours(c, x.value.meta)
    then Some(x.value.(meta := x.value.meta.(owners := WithoutProject(x.value.meta.owners, c.name)))) else x
  }

  lemma ProtectsCluster(c: Context, s: State)
    requires ProtectOne(c, s, DurableCluster).outcome == Next
    ensures ProtectOne(c, s, DurableCluster).state.o.cluster == ProtectedCluster(c, s.o.cluster)
  {
    hide WithoutProject, Ours;
  }

  lemma ClusterWriter()
    ensures Rank(Protect(DurableCluster)) == 0 && forall ph ::
        NextWrites(ph, ClusterAt) ==> ph == Protect(DurableCluster)
  {
  }

  /** After the first phase, the Cluster is the one the pass found, but for the project's owner references. */
  lemma ArrivalCluster(c: Context, o: Objects, status: Status, before: seq<Phase>, ph: Phase, s: State)
    requires Arrives(c, o, status, before, ph, s)
    ensures s.o.cluster == if Rank(ph) > 0 then ProtectedCluster(c, o.cluster) else o.cluster
  {
    hide Run, Plan, Planned, Rank, NextWrites, Arrives, Step, ProtectedCluster, ProtectOne, Begin;
    ArrivalPlanned(c, o, status, before, ph, s);
    PlannedKinds(c);
    ClusterWriter();
    var first := Protect(DurableCluster);
    if Rank(ph) > 0 {
      var early, t, late := ArrivalEarlier(c, o, status, before, ph, s, first);
      ArrivalPlanned(c, o, status, early, first, t);
      ArrivalParts(c, o, status, [], first, t);
      StepProtect(c, t, DurableCluster);
      ProtectsCluster(c, t);
      NextRunKeeps(c, Step(c, t, first).state, late, ClusterAt);
    } else {
      ArrivalParts(c, o, status, [], ph, s);
    }
  }

  // ---- What a phase counts on -----------------------------------------------

  /** What a pass knows by then: the final names once the Secrets are made, and the Cluster as
      declared once it is ensured. */
  lemma ArrivalKnows(c: Context, o: Objects, status: Status, before: seq<Phase>, ph: Phase, s: State)
    requires Faithful(c.k) && Arrives(c, o, status, before, ph, s)
    ensures Rank(ph) >= 40 ==> s.memory.names == FinalNames(c) && (c.spec.emailHook ==> EmailHook in s.o.secrets)
    ensures Rank(ph) >= 71 ==> ClusterKept(c, s.o, FinalNames(c)) && s.o.cluster.Some?
    ensures Able(c, s, ph)
  {
    hide Faithful, Arrives, Stable, Rank, Planned, NamesFor, HookName, Marked, Bundle, TokenKept, ClusterKept,
         DatabaseKept, IntentKept;
    PlannedPhases(c);
    Ranks();
    StableSecrets(c, s.o, s.memory);
    Settled.StableCluster(c, s.o, s.memory);
    if Rank(ph) >= 40 {
      ArrivalStable(c, o, status, before, ph, s, EmailHookSecret);
      ArrivalStable(c, o, status, before, ph, s, SecretsDone);
    }
    if Rank(ph) >= 71 {
      ArrivalStable(c, o, status, before, ph, s, EnsureCluster);
      KeptIsOurs(c, s.o);
    }
  }

  // ---- Cleanliness along a pass ---------------------------------------------

  /** What went on found valid inputs. */
  lemma SettledValid(c: Context, o: Objects, m: Status, ph: Phase)
    requires Stable(c, o, m, ph)
    ensures Valid(c, ph)
  {
    hide Stable, Bundle, S3Present, EnvReadable, Rules, DesiredPublication, TemplateFor, DeploymentKept, ServiceKept,
         MapKept, Observed, Marked, HookKept, NamesKept, TokenKept, StoreKept, ScheduleKept, RolesUp, JobKept,
         UpdatedPublication;
    match ph {
      case CheckCredentials => StableSecrets(c, o, m);
      case BackupCredentials => StableBackup(c, o, m);
      case RecoveryCredentials => StableRecovery(c, o, m);
      case Serve(comp) => StableServe(c, o, m, comp);
      case RulesGate => StableGates(c, o, m);
      case PublicationGate => StableGates(c, o, m);
      case CdcMap => StableGates(c, o, m);
      case _ =>
    }
  }

  /** Phases that do not look at the Cluster ask nothing of it. */
  lemma OthersFit(c: Context, o: Objects, ph: Phase)
    ensures !Passing(ph) || (!Waits(ph) && ph != ValidateBootstrap) ==> FitCluster(c, o, ph)
  {
    hide CleanSlot, CleanSource;
  }

  lemma {:induction false} ArrivalClean(c: Context, o: Objects, status: Status, before: seq<Phase>, ph: Phase, s: State)
    requires Working(c) && Arrives(c, o, status, before, ph, s) && CleanBeside(c, o)
    ensures CleanBeside(c, s.o)
    decreases |before|
  {
    hide *;
    ArrivalParts(c, o, status, before, ph, s);
    if before != [] {
      ArrivalOrder(c, before, ph);
      var last := before[|before| - 1];
      var early, t, late := ArrivalEarlier(c, o, status, before, ph, s, last);
      RunNone(c, Step(c, t, last).state);
      WorkingParts(c);
      ArrivalClean(c, o, status, early, last, t);
      ArrivalKnows(c, o, status, early, last, t);
      PassingStep(c, t, last);
      if !Passing(last) {
        Settles(c, t, last);
        SettledValid(c, s.o, s.memory, last);
        OthersFit(c, t.o, last);
        AnyGoes(c, t, last);
        GoesClean(c, t, last);
      }
    }
  }

  /** The phase a pass comes to does not fail, if its inputs are valid and the Cluster fits. */
  lemma ArrivalGoes(c: Context, o: Objects, status: Status, before: seq<Phase>, ph: Phase, s: State)
    requires Working(c) && Arrives(c, o, status, before, ph, s) && CleanBeside(c, o) && Valid(c, ph)
        && FitCluster(c, s.o, ph)
    ensures Goes(c, s, ph) && Step(c, s, ph).outcome != Failed && (!Waits(ph) ==> Step(c, s, ph).outcome == Next)
  {
    hide *;
    WorkingParts(c);
    ArrivalClean(c, o, status, before, ph, s);
    ArrivalKnows(c, o, status, before, ph, s);
    ArrivalPlanned(c, o, status, before, ph, s);
    AnyGoes(c, s, ph);
  }

}
