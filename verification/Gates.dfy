/** What the gates of a pass let through: an invalid bundle, a changed bootstrap,
    a moved recovery source, and PowerSync before its prerequisites. */
module Gates {
  import opened Kube
  import Pods
  import opened Clusters
  import opened World
  import opened Operator
  import opened Frames
  import opened Durables
  import opened Steps

  /** A plan that stops inside a prefix is that prefix. */
  lemma RunStops(c: Context, s: State, a: seq<Phase>, b: seq<Phase>)
    requires Run(c, s, a).outcome != Next
    ensures Run(c, s, a + b) == Run(c, s, a)
  {
    hide Run;
    RunConcat(c, s, a, b);
  }

  lemma RunLast(c: Context, s: State, a: seq<Phase>, ph: Phase)
    ensures Run(c, s, a + [ph])
         == (var r := Run(c, s, a); if r.outcome == Next then Step(c, r.state, ph) else r)
  {
    hide Run, Step;
    RunConcat(c, s, a, [ph]);
    RunOne(c, Run(c, s, a).state, ph);
  }

  // ---- Specs that only one phase may change ---------------------------------

  predicate SameClusterSpec(a: Objects, b: Objects) {
    a.cluster.Some? == b.cluster.Some? && (a.cluster.Some? ==> a.cluster.value.spec == b.cluster.value.spec)
  }

  predicate SameRecoverySpec(a: Objects, b: Objects) {
    a.recovery.Some? == b.recovery.Some? && (a.recovery.Some? ==> a.recovery.value.spec == b.recovery.value.spec)
  }

  lemma StepClusterSpec(c: Context, s: State, ph: Phase)
    requires ph != EnsureCluster
    ensures SameClusterSpec(s.o, Step(c, s, ph).state.o)
  {
    hide Step;
    if ph == Protect(DurableCluster) {
      StepProtect(c, s, DurableCluster);
    } else {
      StepKeeps(c, s, ph, ClusterAt);
    }
  }

  lemma StepRecoverySpec(c: Context, s: State, ph: Phase)
    requires ph != RecoveryStore && ph != CleanRecoveryStore
    ensures SameRecoverySpec(s.o, Step(c, s, ph).state.o)
  {
    hide Step;
    if ph == Protect(DurableRecovery) {
      StepProtect(c, s, DurableRecovery);
    } else {
      StepKeeps(c, s, ph, RecoveryAt);
    }
  }

  /** Neither creates or merges the Cluster nor touches the recovery store. */
  predicate Early(plan: seq<Phase>) { EnsureCluster !in plan && RecoveryStore !in plan && CleanRecoveryStore !in plan }

  lemma {:induction false} RunEarly(c: Context, s: State, plan: seq<Phase>)
    requires Early(plan)
    ensures SameClusterSpec(s.o, Run(c, s, plan).state.o)
    ensures SameRecoverySpec(s.o, Run(c, s, plan).state.o)
    decreases |plan|
  {
    hide Step;
    if plan != [] {
      StepClusterSpec(c, s, plan[0]);
      StepRecoverySpec(c, s, plan[0]);
      var r := Step(c, s, plan[0]);
      if r.outcome == Next {
        RunEarly(c, r.state, plan[1..]);
      }
    }
  }

  // ---- The prefixes of a pass -----------------------------------------------

  /** Up to and including the implementation Secrets. */
  function SecretsPrefix(c: Context): seq<Phase> { ProtectPlan + SecretsPlan(c) }

  /** After the bootstrap was validated. */
  function AfterValidation(c: Context): seq<Phase> {
    [InitSqlMap, JwksMap] + BackupPlan(c) + RecoveryPlan(c) + [EnsureCluster, WaitForDatabase] + ServicesPlan
    + PowerSyncPlan(c) + [Finish]
  }

  lemma PlanAtValidation(c: Context)
    ensures Plan(c) == (SecretsPrefix(c) + [ValidateBootstrap]) + AfterValidation(c)
  {
    hide SecretsPlan, BackupPlan, RecoveryPlan, PowerSyncPlan;
  }

  lemma PlanAtCredentials(c: Context)
    ensures Plan(c) == (ProtectPlan + [CheckCredentials]) + PlanBody(c)[1..]
    ensures PlanBody(c) != [] && PlanBody(c)[0] == CheckCredentials
  {
    hide BackupPlan, RecoveryPlan, PowerSyncPlan;
    PlanSplits(c);
    assert SecretsPlan(c)[0] == CheckCredentials;
    assert PlanBody(c) == [CheckCredentials] + PlanBody(c)[1..];
  }

  lemma SecretsPrefixFacts(c: Context)
    ensures Early(SecretsPrefix(c)) && AllNeverWait(SecretsPrefix(c)) && SecretsOnly(SecretsPlan(c))
  {
  }

  predicate IsDurable(slot: Slot) { slot == ClusterAt || slot == BackupAt || slot == RecoveryAt || slot == ScheduleAt }

  predicate ProtectOnly(plan: seq<Phase>) { forall i :: 0 <= i < |plan| ==> plan[i].Protect? }

  lemma {:induction false} ProtectWrites(plan: seq<Phase>, slot: Slot)
    requires ProtectOnly(plan)
    ensures PlanWrites(plan, slot) ==> IsDurable(slot)
  {
    if plan != [] {
      ProtectWrites(plan[1..], slot);
    }
  }

  predicate SecretsOnly(plan: seq<Phase>) { forall i :: 0 <= i < |plan| ==> SecretsPhase(plan[i]) }

  lemma {:induction false} SecretsWrites(plan: seq<Phase>, slot: Slot)
    requires SecretsOnly(plan)
    ensures PlanWrites(plan, slot) ==> slot.SecretAt?
  {
    if plan != [] {
      SecretsWrites(plan[1..], slot);
    }
  }

  // ---- An invalid bundle ----------------------------------------------------

  /** Metadata changes alone: labels stay, owners lose at most the project, specs and statuses stay. */
  predicate OwnersOnly(project: string, a: Meta, b: Meta) {
    b.labels == a.labels && (b.owners == a.owners || b.owners == WithoutProject(a.owners, project))
  }

  predicate OnlyDurableOwners(project: string, a: Objects, b: Objects) {
    && a.(cluster := None, backup := None, recovery := None, schedule := None)
       == b.(cluster := None, backup := None, recovery := None, schedule := None)
    && (forall d :: MetaOf(a, d).Some? == MetaOf(b, d).Some?
                    && (MetaOf(a, d).Some? ==> OwnersOnly(project, MetaOf(a, d).value, MetaOf(b, d).value)))
    && SameClusterSpec(a, b) && (a.cluster.Some? ==> a.cluster.value.status == b.cluster.value.status)
    && SameRecoverySpec(a, b)
    && a.backup.Some? == b.backup.Some? && (a.backup.Some? ==> a.backup.value.spec == b.backup.value.spec)
    && a.schedule.Some? == b.schedule.Some? && (a.schedule.Some? ==> a.schedule.value.spec == b.schedule.value.spec)
  }

  lemma ProtectOwners(c: Context, s: State, d: Durable)
    ensures OnlyDurableOwners(c.name, s.o, ProtectOne(c, s, d).state.o)
  {
    hide WithoutProject, Ours, OnlyDurableOwners, WithMeta;
    NoOwners(c.name, s.o);
    if MetaOf(s.o, d).Some? { FewerOwners(c.name, s.o, d); }
  }

  lemma FewerOwners(project: string, o: Objects, d: Durable)
    requires MetaOf(o, d).Some?
    ensures var m := MetaOf(o, d).value;
            OnlyDurableOwners(project, o, WithMeta(o, d, m.(owners := WithoutProject(m.owners, project))))
  {
    hide WithoutProject;
    var m := MetaOf(o, d).value;
    var p := WithMeta(o, d, m.(owners := WithoutProject(m.owners, project)));
    forall e | MetaOf(o, e).Some?
        ensures MetaOf(p, e).Some? && OwnersOnly(project, MetaOf(o, e).value, MetaOf(p, e).value) {
      if e != d { assert MetaOf(p, e) == MetaOf(o, e); }
    }
  }

  lemma OwnersThen(project: string, a: Objects, b: Objects, c: Objects)
    requires OnlyDurableOwners(project, a, b) && OnlyDurableOwners(project, b, c)
    ensures OnlyDurableOwners(project, a, c)
  {
    forall d | MetaOf(a, d).Some? ensures OwnersOnly(project, MetaOf(a, d).value, MetaOf(c, d).value) {
      WithoutProjectIdempotent(MetaOf(a, d).value.owners, project);
    }
  }

  lemma {:induction false} ProtectRun(c: Context, s: State, plan: seq<Phase>)
    requires ProtectOnly(plan)
    ensures OnlyDurableOwners(c.name, s.o, Run(c, s, plan).state.o)
    decreases |plan|
  {
    hide Step, OnlyDurableOwners, ProtectOne;
    if plan == [] {
      NoOwners(c.name, s.o);
    } else {
      var d := plan[0].durable;
      StepProtect(c, s, d);
      ProtectOwners(c, s, d);
      var r := Step(c, s, plan[0]);
      if r.outcome == Next {
        ProtectRun(c, r.state, plan[1..]);
        OwnersThen(c.name, s.o, r.state.o, Run(c, r.state, plan[1..]).state.o);
      }
    }
  }

  lemma NoOwners(project: string, o: Objects)
    ensures OnlyDurableOwners(project, o, o)
  {
  }

  /** A status write, or one of a durable object. */
  predicate DurableWrite(w: Write) { w.ObjectWrite? ==> IsDurable(w.slot) }

  /** A status write, or one of a durable object or of an implementation Secret. */
  predicate SecretWrite(w: Write) { w.ObjectWrite? ==> IsDurable(w.slot) || w.slot.SecretAt? }

  lemma InvalidBundleStops(c: Context, s: State)
    requires Bundle(c).None?
    ensures Step(c, s, CheckCredentials).outcome == Failed && Step(c, s, CheckCredentials).state.o == s.o
  {
    hide Step, Bundle;
    StepCredentials(c, s);
  }

  /** A pass whose credential bundle is missing or invalid fails, and writes
      nothing but owner references of durable objects and the project status. */
  lemma InvalidBundleGate(c: Context, o: Objects, status: Status)
    requires Bundle(c).None?
    ensures var r := Pass(c, o, status);
            r.outcome == Failed && OnlyDurableOwners(c.name, o, r.state.o) && forall w ::
                w in r.state.log ==> DurableWrite(w)
  {
    hide Run, Step, OnlyDurableOwners, Plan, PlanBody, PlanWrites;
    var s := Begin(o, status);
    var prefix := ProtectPlan + [CheckCredentials];
    PlanAtCredentials(c);
    ProtectRun(c, s, ProtectPlan);
    RunLast(c, s, ProtectPlan, CheckCredentials);
    InvalidBundleStops(c, Run(c, s, ProtectPlan).state);
    RunFailsNotWaits(c, s, ProtectPlan);
    RunStops(c, s, prefix, PlanBody(c)[1..]);
    RunHasEffect(c, s, prefix);
    var t := Run(c, s, prefix).state;
    assert t.log[|s.log|..] == t.log;
    forall w | w in t.log && w.ObjectWrite? ensures IsDurable(w.slot) {
      PlanWritesConcat(ProtectPlan, [CheckCredentials], w.slot);
      ProtectWrites(ProtectPlan, w.slot);
      ChecksWriteNothing(w.slot);
    }
  }

  lemma ChecksWriteNothing(slot: Slot)
    ensures !PlanWrites([CheckCredentials], slot) && !PlanWrites([ValidateBootstrap], slot)
  {
    assert [CheckCredentials][1..] == [] && [ValidateBootstrap][1..] == [];
  }

  /** Phases that never ask to be called again. */
  predicate NeverWaits(ph: Phase) { ph.Protect? || SecretsPhase(ph) || ph.ValidateBootstrap? }

  predicate AllNeverWait(plan: seq<Phase>) { forall i :: 0 <= i < |plan| ==> NeverWaits(plan[i]) }

  lemma StepNeverWaits(c: Context, s: State, ph: Phase)
    requires NeverWaits(ph)
    ensures Step(c, s, ph).outcome != Requeue
  {
    hide Step, FailSecrets, EnsureSecret, FailWith, IntentChanged, WithoutProject;
    FailsSecrets(c, s);
    match ph {
      case Protect(d) => StepProtect(c, s, d);
      case CheckCredentials => StepCredentials(c, s);
      case ImplementationSecret(role) =>
        StepSecret(c, s, role);
        SecretNeverWaits(c, ph, s, role, c.k.generate(role, c.seed));
      case PsRoleSecrets => StepRoleSecrets(c, s);
      case PsTokenSecret => StepToken(c, s); SecretNeverWaits(c, ph, s, PsToken, c.k.generate(PsToken, c.seed));
      case EmailHookSecret => StepHook(c, s);
      case SecretsDone => StepSecretsDone(c, s);
      case ValidateBootstrap => StepBootstrap(c, s); FailsWith(c, s);
    }
  }

  lemma SecretNeverWaits(c: Context, ph: Phase, s: State, role: SecretRole, data: Data)
    ensures EnsureSecret(c, ph, s, role, data).outcome != Requeue
  {
  }

  lemma FailsSecrets(c: Context, s: State)
    ensures forall ph, t, reason {:trigger FailSecrets(c, ph, t, reason)} ::
        FailSecrets(c, ph, t, reason).outcome == Failed
  {
  }

  lemma FailsWith(c: Context, s: State)
    ensures forall ph, t, cond, reason {:trigger FailWith(c, ph, t, cond, reason)} ::
        FailWith(c, ph, t, cond, reason).outcome == Failed
  {
  }

  lemma {:induction false} RunFailsNotWaits(c: Context, s: State, plan: seq<Phase>)
    requires AllNeverWait(plan)
    ensures Run(c, s, plan).outcome != Requeue
    decreases |plan|
  {
    hide Step, NeverWaits;
    if plan != [] {
      StepNeverWaits(c, s, plan[0]);
      var r := Step(c, s, plan[0]);
      if r.outcome == Next {
        RunFailsNotWaits(c, r.state, plan[1..]);
      }
    }
  }

  // ---- A changed bootstrap or recovery source -------------------------------

  /** Every generated name but that of the email hook follows from the declaration. */
  predicate NamesSet(c: Context, m: Status) { m.names == NamesFor(c, m.names.emailHook) }

  lemma DoneSetsNames(c: Context, s: State)
    ensures NamesSet(c, Step(c, s, SecretsDone).state.memory)
  {
    hide Step;
    StepSecretsDone(c, s);
  }

  /** The secrets phases but the last. */
  function BeforeDone(c: Context): seq<Phase> { ProtectPlan + BeforeNames(c) }

  function BeforeNames(c: Context): seq<Phase> { BeforeHook(c) + [EmailHookSecret] }

  function BeforeHook(c: Context): seq<Phase> {
    [CheckCredentials, ImplementationSecret(GoTrueFallback), ImplementationSecret(SupabaseAdmin),
     ImplementationSecret(Authenticator), ImplementationSecret(AuthAdmin)]
    + (if c.spec.powersync.Some? then [PsRoleSecrets, PsTokenSecret] else [])
  }

  lemma SecretsPrefixEnds(c: Context)
    ensures SecretsPrefix(c) == BeforeDone(c) + [SecretsDone]
  {
    assert SecretsPlan(c) == BeforeNames(c) + [SecretsDone];
    hide SecretsPlan, BeforeNames;
  }

  /** The verdict on a bootstrap reads only the admin Secret's name. */
  lemma IntentReadsAdmin(c: Context, x: ClusterSpec, m: Names, n: Names)
    requires m.admin == n.admin
    ensures IntentChanged(x, Built(c, m)) <==> IntentChanged(x, Built(c, n))
  {
    hide AllRoles;
  }

  /** With the names the operator generates, two declarations of one project disagree
      about the bootstrap exactly when recovery was switched on or off, or its server
      name or target time moved. */
  lemma DeclaredIntentMeaning(c: Context, d: Context, hook: SecretRef, other: SecretRef)
    requires c.name == d.name && c.k.defaults == d.k.defaults
    ensures IntentChanged(Built(c, NamesFor(c, hook)), Built(d, NamesFor(d, other)))
        <==> RecoveryMoved(c.spec.database, d.spec.database)
  {
    hide IntentChanged, BuildCluster, RecoveryMoved;
    IntentChangedMeaning(c.k.defaults, c.name, c.spec.database, d.spec.database,
                         c.spec.powersync.Some?, d.spec.powersync.Some?, NamesFor(c, hook), NamesFor(d, other));
  }

  /** Immutable input that the declaration would change for an existing Cluster. */
  predicate ChangesOrigin(c: Context, o: Objects) {
    o.cluster.Some? &&
    (|| IntentChanged(o.cluster.value.spec, Built(c, NamesFor(c, NoSecret)))
     || (RecoveryEnabled(c.spec.database) && o.recovery.Some?
         && !SameLocation(o.recovery.value.spec, RecoverySpecOf(RecoveryDeclared(c)))))
  }

  /** The Cluster was not created as declared, or recovery is declared from elsewhere than the
      source store that is there. */
  predicate OriginMoves(c: Context, o: Objects) {
    o.cluster.Some? &&
    (|| !CreatedAs(c.name, c.spec.database, NamesFor(c, NoSecret), o.cluster.value.spec)
     || (c.spec.database.recovery.Some? && c.spec.database.recovery.value.enabled && o.recovery.Some?
         && (o.recovery.value.spec.destination != c.spec.database.recovery.value.s3.destination
             || o.recovery.value.spec.endpoint != c.spec.database.recovery.value.s3.endpoint)))
  }

  lemma OriginMovesMeaning(c: Context, o: Objects)
    ensures OriginMoves(c, o) <==> ChangesOrigin(c, o)
  {
    hide IntentChanged, BuildCluster, CreatedAs;
    if o.cluster.Some? {
      OriginMeaning(c.k.defaults, c.name, c.spec.database, c.spec.powersync.Some?, NamesFor(c, NoSecret),
                    o.cluster.value.spec);
    }
  }

  lemma ChangedOriginStops(c: Context, s: State, o: Objects)
    requires ChangesOrigin(c, o) && SameClusterSpec(o, s.o) && SameRecoverySpec(o, s.o) && NamesSet(c, s.memory)
    ensures Step(c, s, ValidateBootstrap).outcome == Failed && Step(c, s, ValidateBootstrap).state.o == s.o
  {
    hide IntentChanged, Built, Step;
    StepBootstrap(c, s);
    IntentReadsAdmin(c, s.o.cluster.value.spec, s.memory.names, NamesFor(c, NoSecret));
  }

  lemma SecretsPrefixWrites(c: Context, slot: Slot)
    requires PlanWrites(SecretsPrefix(c), slot)
    ensures IsDurable(slot) || slot.SecretAt?
  {
    hide PlanWrites, SecretsPlan, SecretsOnly;
    SecretsPrefixFacts(c);
    PlanWritesConcat(ProtectPlan, SecretsPlan(c), slot);
    ProtectWrites(ProtectPlan, slot);
    SecretsWrites(SecretsPlan(c), slot);
  }

  /** A pass that fails in a plan that only writes durable objects and Secrets. */
  lemma FailsEarly(c: Context, o: Objects, status: Status, plan: seq<Phase>, rest: seq<Phase>)
    requires Plan(c) == plan + rest && Run(c, Begin(o, status), plan).outcome == Failed
    requires forall slot :: PlanWrites(plan, slot) ==> IsDurable(slot) || slot.SecretAt?
    ensures var r := Pass(c, o, status);
            && r == Run(c, Begin(o, status), plan)
            && (forall slot :: !IsDurable(slot) && !slot.SecretAt? ==> SameSlot(o, r.state.o, slot))
            && forall w :: w in r.state.log ==> SecretWrite(w)
  {
    hide Run, Plan, PlanWrites, SameSlot;
    var s := Begin(o, status);
    RunStops(c, s, plan, rest);
    RunHasEffect(c, s, plan);
    var t := Run(c, s, plan).state;
    assert t.log[|s.log|..] == t.log;
  }

  /** A pass that would change the bootstrap or the recovery source of an existing
      Cluster fails. Besides owner references of durable objects it has written
      implementation Secrets at most: no ConfigMap, store, spec or workload. */
  lemma ChangedOriginGate(c: Context, o: Objects, status: Status)
    requires OriginMoves(c, o)
    ensures var r := Pass(c, o, status);
            && r.outcome == Failed
            && SameClusterSpec(o, r.state.o) && SameRecoverySpec(o, r.state.o)
            && (forall slot :: !IsDurable(slot) && !slot.SecretAt? ==> SameSlot(o, r.state.o, slot))
            && forall w :: w in r.state.log ==> SecretWrite(w)
  {
    hide Run, Step, Plan, PlanWrites, SecretsPlan, ChangesOrigin, SameClusterSpec, SameRecoverySpec, SameSlot,
         NamesSet, Early, NeverWaits, BeforeDone, SecretsOnly, OriginMoves;
    OriginMovesMeaning(c, o);
    var s := Begin(o, status);
    var prefix := SecretsPrefix(c) + [ValidateBootstrap];
    PlanAtValidation(c);
    SecretsPrefixFacts(c);
    RunEarly(c, s, SecretsPrefix(c));
    RunFailsNotWaits(c, s, SecretsPrefix(c));
    var r := Run(c, s, SecretsPrefix(c));
    RunLast(c, s, SecretsPrefix(c), ValidateBootstrap);
    if r.outcome == Next {
      SecretsPrefixEnds(c);
      RunLast(c, s, BeforeDone(c), SecretsDone);
      DoneSetsNames(c, Run(c, s, BeforeDone(c)).state);
      ChangedOriginStops(c, r.state, o);
    }
    forall slot | PlanWrites(prefix, slot) ensures IsDurable(slot) || slot.SecretAt? {
      PlanWritesConcat(SecretsPrefix(c), [ValidateBootstrap], slot);
      ChecksWriteNothing(slot);
      SecretsPrefixWrites(c, slot);
    }
    FailsEarly(c, o, status, prefix, AfterValidation(c));
  }

  // ---- An invalid email hook ------------------------------------------------

  predicate HookInvalid(c: Context, o: Objects) {
    c.spec.emailHook && EmailHook in o.secrets && !c.k.hookValid(o.secrets[EmailHook].data)
  }

  lemma HookStops(c: Context, a: Objects, s: State)
    requires HookInvalid(c, a) && SameSlot(a, s.o, SecretAt(EmailHook))
    ensures Step(c, s, EmailHookSecret).outcome == Failed && Step(c, s, EmailHookSecret).state.o == s.o
  {
    hide Step;
    StepHook(c, s);
  }

  lemma {:induction false} HookUnwritten(plan: seq<Phase>)
    requires EmailHookSecret !in plan && ImplementationSecret(EmailHook) !in plan
    ensures !PlanWrites(plan, SecretAt(EmailHook))
  {
    if plan != [] {
      assert plan[0] in plan;
      HookUnwritten(plan[1..]);
    }
  }

  lemma BeforeHookFacts(c: Context)
    ensures AllNeverWait(ProtectPlan + BeforeHook(c)) && !PlanWrites(ProtectPlan + BeforeHook(c), SecretAt(EmailHook))
    ensures BeforeDone(c) == (ProtectPlan + BeforeHook(c)) + [EmailHookSecret]
  {
    HookUnwritten(ProtectPlan + BeforeHook(c));
  }

  lemma BeforeDoneWrites(c: Context, slot: Slot)
    requires PlanWrites(BeforeDone(c), slot)
    ensures IsDurable(slot) || slot.SecretAt?
  {
    hide PlanWrites, BeforeDone, SecretsPrefix;
    SecretsPrefixEnds(c);
    PlanWritesConcat(BeforeDone(c), [SecretsDone], slot);
    SecretsPrefixWrites(c, slot);
  }

  /** A pass with the email hook on whose Secret is there but invalid fails, and leaves that
      Secret as it is and all but owner references and implementation Secrets alone. */
  lemma InvalidHookGate(c: Context, o: Objects, status: Status)
    requires HookInvalid(c, o)
    ensures var r := Pass(c, o, status);
            && r.outcome == Failed && SameSlot(o, r.state.o, SecretAt(EmailHook))
            && (forall slot :: !IsDurable(slot) && !slot.SecretAt? ==> SameSlot(o, r.state.o, slot))
            && forall w :: w in r.state.log ==> SecretWrite(w)
  {
    hide Run, Step, Plan, PlanWrites, NeverWaits, BeforeHook, BeforeDone, SecretsPrefix, AfterValidation, HookInvalid,
         SameSlot;
    var s := Begin(o, status);
    var early := ProtectPlan + BeforeHook(c);
    BeforeHookFacts(c);
    RunFailsNotWaits(c, s, early);
    RunLast(c, s, early, EmailHookSecret);
    RunKeeps(c, s, early, SecretAt(EmailHook));
    if Run(c, s, early).outcome == Next { HookStops(c, o, Run(c, s, early).state); }
    forall slot | PlanWrites(BeforeDone(c), slot) ensures IsDurable(slot) || slot.SecretAt? {
      BeforeDoneWrites(c, slot);
    }
    var rest := [SecretsDone] + [ValidateBootstrap] + AfterValidation(c);
    PlanAtValidation(c);
    SecretsPrefixEnds(c);
    assert Plan(c) == BeforeDone(c) + rest;
    FailsEarly(c, o, status, BeforeDone(c), rest);
  }

  // ---- The recovery source over a pass --------------------------------------

  /** A store at that destination and endpoint. */
  predicate SourceAt(x: Option<Store>, spec: StoreSpec) {
    x.Some? && x.value.spec.endpoint == spec.endpoint && x.value.spec.destination == spec.destination
  }

  /** A store that was there is still there, at its destination and endpoint. */
  predicate SourceKept(x: Option<Store>, y: Option<Store>) { x.Some? ==> SourceAt(y, x.value.spec) }

  lemma RecoveryStoreKeeps(c: Context, s: State)
    ensures var spec := RecoverySpecOf(RecoveryDeclared(c));
            SourceAt(s.o.recovery, spec) ==> SourceAt(Step(c, s, RecoveryStore).state.o.recovery, spec)
    ensures s.o.recovery.Some? ==> Step(c, s, RecoveryStore).state.o.recovery.Some?
  {
    hide WithoutProject, MergedLabels, FailWith, Step, Repaired;
    StepStores(c, s);
    FailKeeps(c, RecoveryStore, EnsureStore(c, RecoveryStore, s, DurableRecovery, RecoverySpecOf(RecoveryDeclared(c))),
        RecoveryReady, ObjectStoreFailed);
  }

  lemma {:induction false} RunKeepsLocation(c: Context, s: State, plan: seq<Phase>)
    requires CleanRecoveryStore !in plan && SourceAt(s.o.recovery, RecoverySpecOf(RecoveryDeclared(c)))
    ensures SourceAt(Run(c, s, plan).state.o.recovery, RecoverySpecOf(RecoveryDeclared(c)))
    decreases |plan|
  {
    hide Step, RecoverySpecOf, RecoveryDeclared, SameLocation;
    if plan != [] {
      if plan[0] == RecoveryStore {
        RecoveryStoreKeeps(c, s);
      } else {
        StepRecoverySpec(c, s, plan[0]);
      }
      var r := Step(c, s, plan[0]);
      if r.outcome == Next {
        RunKeepsLocation(c, r.state, plan[1..]);
      }
    }
  }

  /** Created by recovery. */
  predicate Recovered(x: ClusterSpec) { RecoveryOf(x.bootstrap).Some? }

  predicate RecoveredCluster(x: Option<Cluster>) { x.Some? && Recovered(x.value.spec) }

  /** The bootstrap check changes no object; a recovered Cluster gets past it only with its own source declared. */
  lemma ValidationPasses(c: Context, s: State)
    ensures Step(c, s, ValidateBootstrap).state.o == s.o
    ensures RecoveredCluster(s.o.cluster) && s.o.recovery.Some? && Step(c, s, ValidateBootstrap).outcome == Next
            ==> RecoveryEnabled(c.spec.database) && SourceAt(s.o.recovery, RecoverySpecOf(RecoveryDeclared(c)))
  {
    hide Step, AllRoles;
    StepBootstrap(c, s);
  }

  lemma EnabledPlanNeverCleans(c: Context)
    requires RecoveryEnabled(c.spec.database)
    ensures CleanRecoveryStore !in AfterValidation(c)
  {
    assert CleanRecoveryStore !in BackupPlan(c) && CleanRecoveryStore !in RecoveryPlan(c);
    PowerSyncNeverCleansRecovery(c);
    hide BackupPlan, RecoveryPlan, PowerSyncPlan;
  }

  lemma PowerSyncNeverCleansRecovery(c: Context)
    ensures CleanRecoveryStore !in PowerSyncPlan(c)
  {
  }

  /** While a Cluster created by recovery exists, no pass deletes its source store
      or moves the store's destination or endpoint, whatever was declared. */
  lemma RecoverySourceKept(c: Context, o: Objects, status: Status)
    requires RecoveredCluster(o.cluster)
    ensures SourceKept(o.recovery, Pass(c, o, status).state.o.recovery)
  {
    hide Run, Step, Plan, AfterValidation, SecretsPrefix, Early, RecoverySpecOf, RecoveryDeclared, RecoveryOf;
    var s := Begin(o, status);
    var prefix := SecretsPrefix(c) + [ValidateBootstrap];
    PlanAtValidation(c);
    SecretsPrefixFacts(c);
    RunEarly(c, s, SecretsPrefix(c));
    var r := Run(c, s, SecretsPrefix(c));
    RunLast(c, s, SecretsPrefix(c), ValidateBootstrap);
    RunConcat(c, s, prefix, AfterValidation(c));
    if r.outcome == Next && o.recovery.Some? {
      ValidationPasses(c, r.state);
      var v := Step(c, r.state, ValidateBootstrap);
      if v.outcome == Next {
        EnabledPlanNeverCleans(c);
        RunKeepsLocation(c, v.state, AfterValidation(c));
      }
    }
  }

  // ---- PowerSync ------------------------------------------------------------

  /** Both PowerSync roles are reconciled, and neither is blocked. */
  predicate RolesUp(o: Objects) {
    o.cluster.Some? && RolesReconciled(o.cluster.value) && !RolesBlocked(o.cluster.value)
  }

  /** The publication is the desired one, applied at its own generation. */
  predicate PublicationReady(c: Context, o: Objects) {
    o.publication.Some? && Some(o.publication.value.spec) == DesiredPublication(c)
        && PublicationApplied(o.publication.value)
  }

  /** The Job carries the current hash and is complete. */
  predicate CurrentJobDone(c: Context, o: Objects) {
    o.job.Some? && HashOf(o.job.value) == ScriptHash(c) && Verdict(o.job.value.conditions) == Complete
  }

  /** Roles, publication and grants as PowerSync needs them. */
  predicate PowerSyncAllowed(c: Context, o: Objects) {
    RolesUp(o) && PublicationReady(c, o) && CurrentJobDone(c, o) && c.k.cdcScript(c.spec).Some?
  }

  /** The first condition that is true and terminal says the Job is complete. */
  predicate Completed(conditions: seq<JobCondition>) {
    exists i :: 0 <= i < |conditions| && conditions[i] == JobCondition(JobComplete, true)
                && forall j :: 0 <= j < i ==> conditions[j] != JobCondition(JobFailed, true)
  }

  lemma {:induction false} CompletedMeaning(conditions: seq<JobCondition>)
    ensures Completed(conditions) <==> Verdict(conditions) == Complete
  {
    if conditions != [] {
      var rest := conditions[1..];
      CompletedMeaning(rest);
      assert forall i :: 0 < i < |conditions| ==> conditions[i] == rest[i - 1];
      if Completed(rest) && conditions[0] != JobCondition(JobFailed, true) {
        var i :| 0 <= i < |rest| && rest[i] == JobCondition(JobComplete, true)
                 && forall j :: 0 <= j < i ==> rest[j] != JobCondition(JobFailed, true);
        assert conditions[i + 1] == JobCondition(JobComplete, true);
      }
      if Completed(conditions) && conditions[0] != JobCondition(JobComplete, true) {
        var i :| 0 <= i < |conditions| && conditions[i] == JobCondition(JobComplete, true)
                 && forall j :: 0 <= j < i ==> conditions[j] != JobCondition(JobFailed, true);
        assert rest[i - 1] == JobCondition(JobComplete, true);
        assert forall j :: 0 <= j < i - 1 ==> rest[j] == conditions[j + 1];
      }
    }
  }

  /** The Cluster reports both PowerSync roles reconciled and neither in the way. */
  predicate RolesReported(o: Objects) {
    && o.cluster.Some?
    && {"powersync_storage", "powersync_replication"} <= o.cluster.value.status.roles.reconciled
    && {"powersync_storage", "powersync_replication"} !! o.cluster.value.status.roles.blocked
  }

  /** The publication lists the declared schemas of the project's database, "public" unless
      declared otherwise, and was applied at its current generation. */
  predicate Published(c: Context, o: Objects) {
    && o.publication.Some? && c.spec.powersync.Some?
    && var x := o.publication.value;
       && x.observed == x.generation && x.applied == Some(true)
       && x.spec == PublicationSpec(c.name, "powersync", "supabase", x.spec.schemas, "delete")
       && x.spec.schemas == if c.spec.powersync.value.schemas.Some? then c.spec.powersync.value.schemas.value
                            else ["public"]
  }

  /** The Job's annotation is the hash of the script of this declaration, and it has completed. */
  predicate ScriptApplied(c: Context, o: Objects) {
    && o.job.Some? && Completed(o.job.value.conditions) && c.k.cdcScript(c.spec).Some?
    && c.k.sha(c.k.cdcScript(c.spec).value)
       == if Pods.CdcScriptHash in o.job.value.annotations then o.job.value.annotations[Pods.CdcScriptHash] else ""
  }

  lemma AllowedMeaning(c: Context, o: Objects)
    requires c.spec.powersync.Some? && PowerSyncAllowed(c, o)
    ensures RolesReported(o) && Published(c, o) && ScriptApplied(c, o)
  {
    hide Completed, Verdict;
    CompletedMeaning(o.job.value.conditions);
  }

  lemma GrantGatesPass(c: Context, s: State)
    ensures Step(c, s, RolesGate).outcome == Next ==> Step(c, s, RolesGate).state == s && RolesUp(s.o)
    ensures Step(c, s, PublicationGate).outcome == Next
        ==> Step(c, s, PublicationGate).state == s && PublicationReady(c, s.o)
    ensures Step(c, s, CdcMap).outcome == Next ==> c.k.cdcScript(c.spec).Some?
  {
    hide Step, RolesReconciled, RolesBlocked, WithController, MergedLabels, DesiredPublication, Save, LabelsFor, Self,
         EnsureMap, OrFailWith;
    StepRoles(c, s);
    StepPublication(c, s);
    StepCdcMap(c, s);
  }

  /** A Job with another hash is never taken for complete. */
  lemma JobGatePasses(c: Context, s: State)
    requires Step(c, s, CdcJob).outcome == Next
    ensures CurrentJobDone(c, Step(c, s, CdcJob).state.o)
    ensures c.k.cdcScript(c.spec).Some? ==> ScriptApplied(c, Step(c, s, CdcJob).state.o)
  {
    hide Step, WithController, MergedLabels, Save, LabelsFor, Self, Ours, Completed;
    StepJob(c, s);
    CompletedMeaning(Step(c, s, CdcJob).state.o.job.value.conditions);
  }

  lemma GrantsKeep(c: Context, s: State, ph: Phase)
    requires ph == CdcMap || ph == CdcJob
    ensures RolesUp(s.o) ==> RolesUp(Step(c, s, ph).state.o)
    ensures PublicationReady(c, s.o) ==> PublicationReady(c, Step(c, s, ph).state.o)
  {
    hide *;
    GrantsSpared(ph, ClusterAt);
    GrantsSpared(ph, PublicationAt);
    StepKeeps(c, s, ph, ClusterAt);
    StepKeeps(c, s, ph, PublicationAt);
    GatesKept(c, s.o, Step(c, s, ph).state.o);
  }

  lemma GatesKept(c: Context, a: Objects, b: Objects)
    ensures SameSlot(a, b, ClusterAt) && RolesUp(a) ==> RolesUp(b)
    ensures SameSlot(a, b, PublicationAt) && PublicationReady(c, a) ==> PublicationReady(c, b)
    ensures SameSlot(a, b, JobAt) && CurrentJobDone(c, a) ==> CurrentJobDone(c, b)
  {
    hide RolesReconciled, RolesBlocked, DesiredPublication, PublicationApplied, Verdict, HashOf, ScriptHash;
  }

  /** Which phases after the gates leave alone what the gates saw. */
  lemma GrantsSpared(ph: Phase, slot: Slot)
    requires slot == ClusterAt || slot == PublicationAt || slot == JobAt
    ensures ph == Finish || ph in WorkloadPlan || ((ph == CdcMap || ph == CdcJob) && slot != JobAt)
        ==> !Writes(ph, slot)
  {
  }

  lemma RunCons(c: Context, s: State, ph: Phase, rest: seq<Phase>)
    ensures Run(c, s, [ph] + rest)
         == (var r := Step(c, s, ph); if r.outcome == Next then Run(c, r.state, rest) else r)
  {
    hide Step;
    assert ([ph] + rest)[1..] == rest;
  }

  /** Getting through the five gates means having seen everything PowerSync needs. */
  lemma GatesPass(c: Context, s: State)
    requires Run(c, s, GatesPlan).outcome == Next
    ensures PowerSyncAllowed(c, Run(c, s, GatesPlan).state.o)
  {
    hide Run, Step, RolesUp, PublicationReady, CurrentJobDone;
    var g1, g2, g3, g4 := [RolesGate, PublicationGate, CdcMap, CdcJob], [PublicationGate, CdcMap, CdcJob],
        [CdcMap, CdcJob], [CdcJob];
    assert GatesPlan == [RulesGate] + g1 && g1 == [RolesGate] + g2 && g2 == [PublicationGate] + g3
        && g3 == [CdcMap] + g4;
    RunCons(c, s, RulesGate, g1);
    var s1 := Step(c, s, RulesGate).state;
    RunCons(c, s1, RolesGate, g2);
    GrantGatesPass(c, s1);
    RunCons(c, s1, PublicationGate, g3);
    RunCons(c, s1, CdcMap, g4);
    var s2 := Step(c, s1, CdcMap).state;
    RunOne(c, s2, CdcJob);
    GrantsKeep(c, s1, CdcMap);
    GrantsKeep(c, s2, CdcJob);
    JobGatePasses(c, s2);
  }

  function BeforeGates(c: Context): seq<Phase> {
    ProtectPlan + SecretsPlan(c) + [ValidateBootstrap, InitSqlMap, JwksMap] + BackupPlan(c) + RecoveryPlan(c)
    + [EnsureCluster, WaitForDatabase] + ServicesPlan
  }

  lemma PlanAtGates(c: Context)
    requires c.spec.powersync.Some?
    ensures Plan(c) == (BeforeGates(c) + GatesPlan) + (WorkloadPlan + [Finish])
  {
    hide SecretsPlan, BackupPlan, RecoveryPlan;
  }

  predicate IsPowerSyncWorkload(slot: Slot) {
    slot == DeploymentAt(PsApi) || slot == DeploymentAt(PsReplicator)
  }

  predicate WorksOnPowerSync(ph: Phase) {
    ph == Serve(PsApi) || ph == Serve(PsReplicator) || ph.PsApiDeployment? || ph.PsReplicatorDeployment?
        || ph.CleanPowerSync?
  }

  predicate NoWorkload(plan: seq<Phase>) { forall ph :: ph in plan ==> !WorksOnPowerSync(ph) }

  lemma {:induction false} NoWorkloadWrites(plan: seq<Phase>, slot: Slot)
    requires NoWorkload(plan) && IsPowerSyncWorkload(slot)
    ensures !PlanWrites(plan, slot)
  {
    hide WorksOnPowerSync, Writes;
    if plan != [] {
      assert plan[0] in plan;
      WorkloadWriters(plan[0], slot);
      NoWorkloadWrites(plan[1..], slot);
    }
  }

  lemma WorkloadWriters(ph: Phase, slot: Slot)
    requires IsPowerSyncWorkload(slot) && !WorksOnPowerSync(ph)
    ensures !Writes(ph, slot)
  {
  }

  lemma BeforeWorkload(c: Context)
    ensures NoWorkload(BeforeGates(c) + GatesPlan)
  {
    StorageNoWorkload(c);
    FixedNoWorkload();
    hide WorksOnPowerSync, SecretsPlan, BackupPlan, RecoveryPlan;
  }

  lemma StorageNoWorkload(c: Context)
    ensures NoWorkload(BackupPlan(c)) && NoWorkload(RecoveryPlan(c)) && NoWorkload(SecretsPlan(c))
        && NoWorkload(ProtectPlan)
  {
    hide BackupEnabled, RecoveryEnabled;
  }

  lemma FixedNoWorkload()
    ensures NoWorkload([ValidateBootstrap, InitSqlMap, JwksMap]) && NoWorkload([EnsureCluster, WaitForDatabase])
    ensures NoWorkload(ServicesPlan) && NoWorkload(GatesPlan)
  {
  }

  /** Roles, publication and Job are left alone by the workload phases. */
  lemma WorkloadKeeps(c: Context, s: State)
    requires PowerSyncAllowed(c, s.o)
    ensures PowerSyncAllowed(c, Run(c, s, WorkloadPlan + [Finish]).state.o)
  {
    hide Run, PlanWrites, SameSlot, RolesUp, PublicationReady, CurrentJobDone;
    var plan := WorkloadPlan + [Finish];
    WorkloadWrites(plan, ClusterAt);
    RunKeeps(c, s, plan, ClusterAt);
    WorkloadWrites(plan, PublicationAt);
    RunKeeps(c, s, plan, PublicationAt);
    WorkloadWrites(plan, JobAt);
    RunKeeps(c, s, plan, JobAt);
    GatesKept(c, s.o, Run(c, s, plan).state.o);
  }

  lemma {:induction false} WorkloadWrites(plan: seq<Phase>, slot: Slot)
    requires slot == ClusterAt || slot == PublicationAt || slot == JobAt
    requires forall ph :: ph in plan ==> ph == Finish || ph in WorkloadPlan
    ensures !PlanWrites(plan, slot)
  {
    hide Writes;
    if plan != [] {
      assert plan[0] in plan;
      GrantsSpared(plan[0], slot);
      WorkloadWrites(plan[1..], slot);
    }
  }

  /** The PowerSync gate: a pass that writes a PowerSync Deployment for a project
      with PowerSync has, in that pass, seen reconciled roles that are not blocked,
      a publication equal to the desired one and applied at its own generation, and
      a complete Job annotated with the hash of the current script. */
  lemma PowerSyncGate(c: Context, o: Objects, status: Status)
    requires c.spec.powersync.Some?
    requires exists slot :: IsPowerSyncWorkload(slot) && ObjectWrite(slot) in Pass(c, o, status).state.log
    ensures var p := Pass(c, o, status).state.o; RolesReported(p) && Published(c, p) && ScriptApplied(c, p)
    ensures PowerSyncAllowed(c, Pass(c, o, status).state.o)
  {
    hide Run, Plan, PlanWrites, PowerSyncAllowed, BeforeGates, NoWorkload, IsPowerSyncWorkload;
    var s := Begin(o, status);
    var slot :| IsPowerSyncWorkload(slot) && ObjectWrite(slot) in Pass(c, o, status).state.log;
    PlanAtGates(c);
    RunConcat(c, s, BeforeGates(c) + GatesPlan, WorkloadPlan + [Finish]);
    RunHasEffect(c, s, BeforeGates(c) + GatesPlan);
    BeforeWorkload(c);
    NoWorkloadWrites(BeforeGates(c) + GatesPlan, slot);
    var g := Run(c, s, BeforeGates(c) + GatesPlan);
    assert g.state.log[|s.log|..] == g.state.log;
    assert g.outcome == Next;
    RunConcat(c, s, BeforeGates(c), GatesPlan);
    GatesPass(c, Run(c, s, BeforeGates(c)).state);
    WorkloadKeeps(c, g.state);
    AllowedMeaning(c, Pass(c, o, status).state.o);
  }
}
