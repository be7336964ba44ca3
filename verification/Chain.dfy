/** The aggregate status: Ready implies Running, Running implies that every core
    service is ready, and exactly when a pass leaves Ready on. */
module Chain {
  import opened Kube
  import opened World
  import opened Operator
  import opened Steps
  import opened Frames
  import opened Durables
  import opened Gates
  import opened Keeping

  predicate Chained(st: Status) {
    && (IsTrue(st, Ready) ==> st.phase == Running)
    && (st.phase == Running ==> CoreReady(st))
  }

  ghost predicate StatusWritesSucceed(c: Context) { forall ph, site :: c.statusUp(ph, site) }

  predicate Quiet(ph: Phase) { !ph.Serve? && !ph.CoreGate? && !ph.Finish? }

  /** Between quiet phases: the stored and the held status are chained, agree on
      Ready, and the core services and the observed generation stand still. */
  predicate Between(first: Status, s: State) {
    && Chained(s.memory) && Chained(s.saved) && IsTrue(s.saved, Ready) == IsTrue(s.memory, Ready)
    && s.memory.observed == s.saved.observed == first.observed && SameCore(first, s.memory)
  }

  lemma CalmBetween(ph: Phase, first: Status, s: State, t: State)
    requires Between(first, s) && Effect(ph, s, t) && Quiet(ph) && !SecretsPhase(ph)
    ensures Between(first, t) && IsTrue(t.saved, Ready) == IsTrue(s.saved, Ready)
  {
    CalmChained(ph, s.memory, t.memory);
    if t.saved != s.saved {
      CalmChained(ph, s.memory, t.saved);
    }
    hide Chained, SameSlot, Writes;
  }

  lemma CalmChained(ph: Phase, a: Status, b: Status)
    requires Calm(ph, a, b) && Quiet(ph) && Chained(a)
    ensures Chained(b)
  {
  }

  // ---- Secrets --------------------------------------------------------------

  lemma FailSecretsClears(c: Context, ph: Phase, s: State, reason: Reason)
    requires StatusWritesSucceed(c)
    ensures var t := FailSecrets(c, ph, s, reason).state;
            t.saved == t.memory && !IsTrue(t.memory, Ready)
  {
  }

  /** A Secret phase either leaves Ready as it is or, failing, clears it for good. */
  predicate SecretsOutcome(s: State, r: Result) {
    if r.outcome == Next then
      IsTrue(r.state.memory, Ready) == IsTrue(s.memory, Ready)
      && (r.state.saved == s.saved || r.state.saved == r.state.memory)
    else r.state.saved == r.state.memory && !IsTrue(r.state.memory, Ready)
  }

  lemma OrFailSecretsOutcome(c: Context, ph: Phase, s: State, r: Result)
    requires StatusWritesSucceed(c)
    requires r.outcome == Next ==> SecretsOutcome(s, r)
    ensures SecretsOutcome(s, OrFailSecrets(c, ph, r))
  {
    if r.outcome != Next {
      FailSecretsClears(c, ph, r.state, ImplementationSecretFailed);
    }
    hide FailSecrets;
  }

  lemma RoleSecretsOutcome(c: Context, s: State)
    requires StatusWritesSucceed(c)
    ensures SecretsOutcome(s, MakeRoleSecrets(c, s))
  {
    hide EnsureSecret, FailSecrets, MarkAndSave, OrFailSecrets;
    EnsureSecretSilent(c, PsRoleSecrets, s, Clusters.PsStorage, c.k.generate(Clusters.PsStorage, c.seed));
    var r := MakeRoleSecret(c, s, Clusters.PsStorage);
    EnsureSecretSilent(c, PsRoleSecrets, r.state, Clusters.PsReplication, c.k.generate(Clusters.PsReplication, c.seed));
    OrFailSecretsOutcome(c, PsRoleSecrets, s, Result(s, Failed));
    OrFailSecretsOutcome(c, PsRoleSecrets, s, Result(s, Next));
    OrFailSecretsOutcome(c, PsRoleSecrets, s, r);
    if r.outcome == Next {
      OrFailSecretsOutcome(c, PsRoleSecrets, s, MakeRoleSecret(c, r.state, Clusters.PsReplication));
    }
  }

  lemma HookOutcome(c: Context, s: State)
    requires StatusWritesSucceed(c)
    ensures SecretsOutcome(s, MakeHook(c, s))
  {
    hide EnsureSecret, FailSecrets, OrFailSecrets, FailWith;
    if !c.spec.emailHook {
      OrFailSecretsOutcome(c, EmailHookSecret, s, Result(s, Next));
      OrFailSecretsOutcome(c, EmailHookSecret, s, Save(c, EmailHookSecret, 1, WithHookName(s, Clusters.NoSecret)));
    } else {
      EnsureSecretSilent(c, EmailHookSecret, s, Clusters.EmailHook, c.k.generate(Clusters.EmailHook, c.seed));
      FailsWith(c, s);
      var r := HookSecret(c, s);
      OrFailSecretsOutcome(c, EmailHookSecret, s, r);
      if r.outcome == Next {
        OrFailSecretsOutcome(c, EmailHookSecret, s,
          MarkAndSave(c, EmailHookSecret, 2, WithHookName(r.state, HookName(c)), SecretsReady, true, AllSecretsReady));
      }
    }
  }

  lemma SecretsStepOutcome(c: Context, s: State, ph: Phase)
    requires StatusWritesSucceed(c) && SecretsPhase(ph)
    ensures SecretsOutcome(s, Step(c, s, ph))
    ensures ph == SecretsDone ==> Step(c, s, ph).outcome == Next
  {
    hide EnsureSecret, FailSecrets, OrFailSecrets, MakeRoleSecrets, MakeHook, SecretsOutcome, CheckBundle,
         FinishSecrets, Step;
    match ph {
      case CheckCredentials => StepCredentials(c, s); EndsOutcome(c, s);
      case ImplementationSecret(role) => StepSecret(c, s, role); SecretThenOutcome(c, ph, s, role);
      case PsRoleSecrets => StepRoleSecrets(c, s); RoleSecretsOutcome(c, s);
      case PsTokenSecret =>
        StepToken(c, s);
        SecretThenOutcome(c, ph, s, Clusters.PsToken);
        OrFailSecretsOutcome(c, ph, s, Result(s, Failed));
      case EmailHookSecret => StepHook(c, s); HookOutcome(c, s);
      case SecretsDone => StepSecretsDone(c, s); EndsOutcome(c, s);
    }
  }

  lemma SecretThenOutcome(c: Context, ph: Phase, s: State, role: Clusters.SecretRole)
    requires StatusWritesSucceed(c)
    ensures SecretsOutcome(s, OrFailSecrets(c, ph, EnsureSecret(c, ph, s, role, c.k.generate(role, c.seed))))
  {
    hide EnsureSecret, OrFailSecrets;
    EnsureSecretSilent(c, ph, s, role, c.k.generate(role, c.seed));
    OrFailSecretsOutcome(c, ph, s, EnsureSecret(c, ph, s, role, c.k.generate(role, c.seed)));
  }

  lemma EndsOutcome(c: Context, s: State)
    requires StatusWritesSucceed(c)
    ensures SecretsOutcome(s, CheckBundle(c, s))
    ensures SecretsOutcome(s, FinishSecrets(c, s)) && FinishSecrets(c, s).outcome == Next
  {
    hide FailSecrets, Bundle, NamesFor;
    var s1 := if s.memory.phase == Pending then s.(memory := s.memory.(phase := Provisioning)) else s;
    FailSecretsClears(c, CheckCredentials, s1, CredentialsReferenceMissing);
    FailSecretsClears(c, CheckCredentials, s1, CredentialsSecretUnavailable);
    FailSecretsClears(c, CheckCredentials, s1, InvalidProjectCredentials);
    FailsSecrets(c, s);
  }

  lemma OutcomeBetween(ph: Phase, first: Status, s: State, r: Result)
    requires SecretsPhase(ph) && Between(first, s) && Effect(ph, s, r.state) && SecretsOutcome(s, r)
    ensures Between(first, r.state) && IsTrue(r.state.saved, Ready) == (r.outcome == Next && IsTrue(s.saved, Ready))
  {
    CalmChained(ph, s.memory, r.state.memory);
    hide Chained, SameSlot, Writes;
  }

  // ---- Plans of quiet phases ------------------------------------------------

  predicate AllQuiet(plan: seq<Phase>) { forall i :: 0 <= i < |plan| ==> Quiet(plan[i]) }

  /** The phase a run stops at, if it stops. */
  function StopsAt(c: Context, s: State, plan: seq<Phase>): Option<Phase>
    decreases |plan|
  {
    if plan == [] then None
    else if Step(c, s, plan[0]).outcome == Next then StopsAt(c, Step(c, s, plan[0]).state, plan[1..])
    else Some(plan[0])
  }

  lemma {:induction false} StopsAtConcat(c: Context, s: State, a: seq<Phase>, b: seq<Phase>)
    ensures (StopsAt(c, s, a).None? <==> Run(c, s, a).outcome == Next)
    ensures StopsAt(c, s, a + b)
         == if StopsAt(c, s, a).None? then StopsAt(c, Run(c, s, a).state, b) else StopsAt(c, s, a)
    decreases |a|
  {
    hide Step;
    if a == [] {
      assert a + b == b;
    } else {
      assert (a + b)[1..] == a[1..] + b;
      var r := Step(c, s, a[0]);
      if r.outcome == Next {
        StopsAtConcat(c, r.state, a[1..], b);
      }
    }
  }

  /** Stopping here clears the aggregate condition. */
  predicate Clears(ph: Phase) { (SecretsPhase(ph) && ph != SecretsDone) || ph.Serve? || ph.CoreGate? }

  /** Does a run that stops there clear the aggregate condition? */
  predicate ClearsAt(stop: Option<Phase>) { stop.Some? && Clears(stop.value) }

  predicate NoneClears(plan: seq<Phase>) { forall i :: 0 <= i < |plan| ==> !Clears(plan[i]) }

  lemma ClearsIs(ph: Phase)
    ensures Quiet(ph) && Clears(ph) ==> SecretsPhase(ph) && ph != SecretsDone
    ensures SecretsPhase(ph) && ph != SecretsDone ==> Clears(ph)
    ensures !Clears(SecretsDone)
  {
  }

  lemma {:induction false} QuietRun(c: Context, first: Status, s: State, plan: seq<Phase>)
    requires StatusWritesSucceed(c) && AllQuiet(plan) && Between(first, s)
    ensures NoneClears(plan) ==> !ClearsAt(StopsAt(c, s, plan))
    ensures Between(first, Run(c, s, plan).state)
    ensures IsTrue(Run(c, s, plan).state.saved, Ready) <==> IsTrue(s.saved, Ready) && !ClearsAt(StopsAt(c, s, plan))
    decreases |plan|
  {
    hide Step, Between, Effect, StatusWritesSucceed, SecretsOutcome, Clears, Quiet;
    if plan != [] {
      var ph := plan[0];
      ClearsIs(ph);
      var r := Step(c, s, ph);
      if SecretsPhase(ph) {
        StepEffect(c, s, ph);
        SecretsStepOutcome(c, s, ph);
        OutcomeBetween(ph, first, s, r);
      } else {
        StepEffect(c, s, ph);
        CalmBetween(ph, first, s, r.state);
      }
      if r.outcome == Next {
        QuietRun(c, first, r.state, plan[1..]);
      }
    }
  }

  // ---- Core services --------------------------------------------------------

  /** While the core services are being served: the stored status is still the
      old one, the held one keeps its phase and its Ready. */
  predicate Serving(first: Status, s: State) {
    && Chained(s.saved) && IsTrue(s.memory, Ready) == IsTrue(s.saved, Ready)
    && (IsTrue(s.memory, Ready) ==> s.memory.phase == Running)
    && s.memory.observed == s.saved.observed == first.observed
  }

  /** A core failure is recorded: not Running, not Ready. */
  predicate Cleared(first: Status, s: State) {
    s.saved == s.memory && s.memory.phase == Provisioning && !IsTrue(s.memory, Ready)
        && s.memory.observed == first.observed
  }

  lemma FailCoreClears(c: Context, ph: Phase, s: State)
    requires StatusWritesSucceed(c)
    ensures var r := FailCore(c, ph, s);
            && r.outcome == Failed && r.state.saved == r.state.memory && r.state.memory.phase == Provisioning
            && !IsTrue(r.state.memory, Ready) && r.state.memory.observed == s.memory.observed
  {
  }

  lemma FailComponentObserved(c: Context, s: State, comp: Component, reason: Reason)
    ensures FailComponent(c, s, comp, reason).outcome == Failed
    ensures FailComponent(c, s, comp, reason).state.memory.observed == s.memory.observed
  {
  }

  lemma ReportStatus(c: Context, s: State, comp: Component)
    requires comp != PsApi && comp != PsReplicator
    ensures var r := ReportComponent(c, s, comp);
            && r.state.memory.observed == s.memory.observed
            && (r.outcome == Next ==> r.state.saved == s.saved && r.state.memory.phase == s.memory.phase
                                      && IsTrue(r.state.memory, Ready) == IsTrue(s.memory, Ready))
  {
    FailComponentObserved(c, s, comp, DeploymentStatusFailed);
    hide FailComponent;
  }

  lemma ComponentStatus(c: Context, s: State, comp: Component, template: Pods.PodTemplate)
    requires comp != PsApi && comp != PsReplicator
    ensures var r := MakeComponent(c, s, comp, template);
            && r.state.memory.observed == s.memory.observed
            && (r.outcome == Next ==> r.state.saved == s.saved && r.state.memory.phase == s.memory.phase
                                      && IsTrue(r.state.memory, Ready) == IsTrue(s.memory, Ready))
  {
    hide EnsureDeployment, EnsureService, FailComponent, ReportComponent;
    EnsureDeploymentSilent(c, Serve(comp), s, comp, template);
    var d := EnsureDeployment(c, Serve(comp), s, comp, template);
    FailComponentObserved(c, d.state, comp, DeploymentFailed);
    EnsureServiceSilent(c, Serve(comp), d.state, comp);
    var v := EnsureService(c, Serve(comp), d.state, comp);
    FailComponentObserved(c, v.state, comp, ServiceFailed);
    ReportStatus(c, v.state, comp);
  }

  lemma PrepareStatus(c: Context, s: State, comp: Component)
    ensures var r := PrepareComponent(c, s, comp);
            && r.state.memory.observed == s.memory.observed
            && (r.outcome == Next ==> r.state.saved == s.saved && r.state.memory == s.memory)
  {
    hide EnsureMap, FailComponent, EnvValid;
    FailComponentObserved(c, s, Auth, EnvSourceInvalid);
    if comp == Gateway {
      var data := c.k.mapData(c.name, c.spec, EnvoyConfig);
      EnsureMapSilent(c, Serve(Gateway), s, EnvoyConfig, data);
      FailComponentObserved(c, EnsureMap(c, Serve(Gateway), s, EnvoyConfig, data).state, Gateway, ConfigMapFailed);
    }
  }

  lemma ServeStatus(c: Context, first: Status, s: State, comp: Component)
    requires StatusWritesSucceed(c) && Serving(first, s) && comp != PsApi && comp != PsReplicator
    ensures var r := Step(c, s, Serve(comp));
            if r.outcome == Next then Serving(first, r.state) && r.state.saved == s.saved
            else r.outcome == Failed && Cleared(first, r.state)
  {
    hide PrepareComponent, CoreTemplate, MakeComponent, FailCore, Chained, StatusWritesSucceed, Step;
    StepServe(c, s, comp);
    PrepareStatus(c, s, comp);
    var p := PrepareComponent(c, s, comp).state;
    FailCoreClears(c, Serve(comp), p);
    var template := CoreTemplate(c, p, comp);
    if template.Some? {
      ComponentStatus(c, p, comp, template.value);
      FailCoreClears(c, Serve(comp), MakeComponent(c, p, comp, template.value).state);
    }
  }

  predicate ServesOne(ph: Phase) { ph.Serve? && ph.core != PsApi && ph.core != PsReplicator }

  predicate AllServe(plan: seq<Phase>) { forall ph :: ph in plan ==> ServesOne(ph) }

  /** The end of a run of core services. */
  predicate ServedRun(first: Status, s: State, r: Result, stop: Option<Phase>) {
    if r.outcome == Next then Serving(first, r.state) && r.state.saved == s.saved && stop.None?
    else r.outcome == Failed && Cleared(first, r.state) && ClearsAt(stop)
  }

  lemma {:induction false} ServeRun(c: Context, first: Status, s: State, plan: seq<Phase>)
    requires StatusWritesSucceed(c) && AllServe(plan) && Serving(first, s)
    ensures ServedRun(first, s, Run(c, s, plan), StopsAt(c, s, plan))
    decreases |plan|
  {
    hide Step, Serving, Cleared, StatusWritesSucceed;
    if plan != [] {
      assert plan[0] in plan;
      ServeStatus(c, first, s, plan[0].core);
      var r := Step(c, s, plan[0]);
      if r.outcome == Next {
        ServeRun(c, first, r.state, plan[1..]);
      }
    }
  }

  const AllServices: seq<Phase> := [Serve(Auth), Serve(Rest), Serve(Studio), Serve(MetaApi), Serve(Gateway)]

  lemma ServicesRun(c: Context, first: Status, s: State)
    requires StatusWritesSucceed(c) && Between(first, s)
    ensures var r := Run(c, s, ServicesPlan);
            var stop := StopsAt(c, s, ServicesPlan);
            if r.outcome == Next then
              stop.None? && Chained(r.state.memory) && CoreReady(r.state.memory) && r.state.saved == s.saved
              && Serving(first, r.state)
            else Cleared(first, r.state) && ClearsAt(stop)
  {
    hide Run, Step, StopsAt, CoreReady;
    assert ServicesPlan == AllServices + [CoreGate];
    assert Serving(first, s);
    ServeRun(c, first, s, AllServices);
    RunLast(c, s, AllServices, CoreGate);
    StopsAtConcat(c, s, AllServices, [CoreGate]);
    var r := Run(c, s, AllServices);
    StopsAtOne(c, r.state, CoreGate);
    if r.outcome == Next {
      StepCoreGate(c, r.state);
    }
  }

  lemma StopsAtOne(c: Context, s: State, ph: Phase)
    ensures StopsAt(c, s, [ph]) == if Step(c, s, ph).outcome == Next then None else Some(ph)
  {
    hide Step;
    assert [ph][1..] == [];
  }

  // ---- The whole pass -------------------------------------------------------

  function BeforeServices(c: Context): seq<Phase> {
    ProtectPlan + SecretsPlan(c) + [ValidateBootstrap, InitSqlMap, JwksMap] + BackupPlan(c) + RecoveryPlan(c)
    + [EnsureCluster, WaitForDatabase]
  }

  lemma PlanAtServices(c: Context)
    ensures Plan(c) == BeforeServices(c) + (ServicesPlan + (PowerSyncPlan(c) + [Finish]))
  {
    hide SecretsPlan, BackupPlan, RecoveryPlan, PowerSyncPlan;
  }

  lemma QuietConcat(a: seq<Phase>, b: seq<Phase>)
    ensures AllQuiet(a) && AllQuiet(b) ==> AllQuiet(a + b)
    ensures NoneClears(a) && NoneClears(b) ==> NoneClears(a + b)
  {
    hide Quiet, Clears;
  }

  lemma BeforeServicesQuiet(c: Context)
    ensures AllQuiet(BeforeServices(c)) && AllQuiet(PowerSyncPlan(c))
  {
    var middle, wait := [ValidateBootstrap, InitSqlMap, JwksMap], [EnsureCluster, WaitForDatabase];
    assert AllQuiet(ProtectPlan) && AllQuiet(SecretsPlan(c)) && AllQuiet(middle);
    assert AllQuiet(BackupPlan(c)) && AllQuiet(RecoveryPlan(c)) && AllQuiet(wait);
    PowerSyncQuiet(c);
    hide AllQuiet, SecretsPlan, BackupPlan, RecoveryPlan, PowerSyncPlan;
    QuietConcat(ProtectPlan, SecretsPlan(c));
    QuietConcat(ProtectPlan + SecretsPlan(c), middle);
    QuietConcat(ProtectPlan + SecretsPlan(c) + middle, BackupPlan(c));
    QuietConcat(ProtectPlan + SecretsPlan(c) + middle + BackupPlan(c), RecoveryPlan(c));
    QuietConcat(ProtectPlan + SecretsPlan(c) + middle + BackupPlan(c) + RecoveryPlan(c), wait);
  }

  lemma PowerSyncQuiet(c: Context)
    ensures AllQuiet(PowerSyncPlan(c)) && NoneClears(PowerSyncPlan(c))
  {
    assert forall ph :: ph in PowerSyncPlan(c) ==> Quiet(ph) && !Clears(ph);
    hide PowerSyncPlan, Quiet, Clears;
  }

  lemma FinishStatus(c: Context, s: State)
    requires StatusWritesSucceed(c)
    ensures Step(c, s, Finish).outcome == Next && Step(c, s, Finish).state.saved == Step(c, s, Finish).state.memory
    ensures FinishedStatus(c, Step(c, s, Finish).state.memory)
        && (CoreReady(s.memory) ==> CoreReady(Step(c, s, Finish).state.memory))
  {
    hide Step;
    StepFinish(c, s);
  }

  predicate FinishedStatus(c: Context, m: Status) {
    m.phase == Running && IsTrue(m, Ready) && m.observed == c.generation
  }

  lemma BeginBetween(o: Objects, status: Status)
    requires Chained(status)
    ensures Between(status, Begin(o, status)) && Begin(o, status).saved == status
  {
  }

  /** The tail of a pass, from the ready core services on. */
  lemma TailRun(c: Context, first: Status, s: State)
    requires StatusWritesSucceed(c) && Serving(first, s) && Chained(s.memory) && CoreReady(s.memory)
    ensures var r := Run(c, s, PowerSyncPlan(c) + [Finish]);
            var stop := StopsAt(c, s, PowerSyncPlan(c) + [Finish]);
            && Chained(r.state.saved)
            && (r.outcome == Next <==> stop.None?)
            && !ClearsAt(stop)
            && (if r.outcome == Next then FinishedStatus(c, r.state.saved)
                else && r.state.saved.observed == first.observed
                     && (IsTrue(r.state.saved, Ready) <==> IsTrue(s.saved, Ready)))
  {
    hide Run, Step, StopsAt, StatusWritesSucceed, CoreReady, SameCore, Clears, PowerSyncPlan, AllQuiet, NoneClears;
    SameCoreFacts(s.memory, s.memory);
    assert Between(s.memory, s);
    PowerSyncQuiet(c);
    QuietRun(c, s.memory, s, PowerSyncPlan(c));
    var r := Run(c, s, PowerSyncPlan(c));
    RunLast(c, s, PowerSyncPlan(c), Finish);
    StopsAtConcat(c, s, PowerSyncPlan(c), [Finish]);
    StopsAtOne(c, r.state, Finish);
    FinishStatus(c, r.state);
    SameCoreFacts(s.memory, r.state.memory);
  }

  lemma SameCoreFacts(a: Status, b: Status)
    ensures SameCore(a, a)
    ensures SameCore(a, b) && CoreReady(a) ==> CoreReady(b)
  {
  }

  /** The status chain and the exact meaning of Ready. When the status writes of a
      pass succeed: Ready still implies Running and Running implies five ready core
      services; a pass without error or requeue ends Running, Ready, at the current
      generation; any other pass leaves the observed generation, and leaves Ready on
      exactly when it was on and the pass did not stop at a Secret, at a core
      service or at the core gate. */
  lemma StatusChain(c: Context, o: Objects, status: Status)
    requires StatusWritesSucceed(c) && Chained(status)
    ensures var r := Pass(c, o, status);
            var stop := StopsAt(c, Begin(o, status), Plan(c));
            && Chained(r.state.saved)
            && (r.outcome == Next <==> stop.None?)
            && (IsTrue(r.state.saved, Ready) <==> stop.None? || (IsTrue(status, Ready) && !ClearsAt(stop)))
            && (if r.outcome == Next then r.state.saved.phase == Running && r.state.saved.observed == c.generation
                else r.state.saved.observed == status.observed)
  {
    hide Run, Step, StopsAt, StatusWritesSucceed, CoreReady, SameCore, Clears, PowerSyncPlan, AllQuiet, Plan,
         BeforeServices, Chained;
    var s := Begin(o, status);
    var tail := PowerSyncPlan(c) + [Finish];
    PlanAtServices(c);
    BeginBetween(o, status);
    BeforeServicesQuiet(c);
    QuietRun(c, status, s, BeforeServices(c));
    RunConcat(c, s, BeforeServices(c), ServicesPlan + tail);
    StopsAtConcat(c, s, BeforeServices(c), ServicesPlan + tail);
    var r := Run(c, s, BeforeServices(c));
    if r.outcome == Next {
      ServicesRun(c, status, r.state);
      RunConcat(c, r.state, ServicesPlan, tail);
      StopsAtConcat(c, r.state, ServicesPlan, tail);
      var q := Run(c, r.state, ServicesPlan);
      if q.outcome == Next {
        TailRun(c, status, q.state);
      } else {
        ClearedChained(status, q.state);
      }
    }
  }

  lemma ClearedChained(first: Status, s: State)
    requires Cleared(first, s)
    ensures Chained(s.saved)
  {
  }

  // ---- CDCReady -------------------------------------------------------------

  lemma {:induction false} CdcStaysOff(c: Context, s: State, plan: seq<Phase>)
    requires CdcJob !in plan && !IsTrue(s.memory, CDCReady) && !IsTrue(s.saved, CDCReady)
    ensures var t := Run(c, s, plan).state; !IsTrue(t.memory, CDCReady) && !IsTrue(t.saved, CDCReady)
    decreases |plan|
  {
    hide Step, SameSlot, Writes;
    if plan != [] {
      StepEffect(c, s, plan[0]);
      var r := Step(c, s, plan[0]);
      if r.outcome == Next {
        CdcStaysOff(c, r.state, plan[1..]);
      }
    }
  }

  lemma CdcJobOutcome(c: Context, s: State)
    requires !IsTrue(s.memory, CDCReady) && !IsTrue(s.saved, CDCReady)
    ensures var r := Step(c, s, CdcJob);
            r.outcome == Next || (!IsTrue(r.state.memory, CDCReady) && !IsTrue(r.state.saved, CDCReady))
  {
    hide CheckJob, Step;
    StepJob(c, s);
    CheckJobStatus(c, s);
  }

  lemma CheckJobStatus(c: Context, s: State)
    ensures CheckJob(c, s).state.memory == s.memory && CheckJob(c, s).state.saved == s.saved
  {
    hide WithController, OwnedJob, Verdict, ScriptHash, HashOf;
  }

  lemma BeforeCdcJob(c: Context)
    ensures CdcJob !in BeforeGates(c) + [RulesGate, RolesGate, PublicationGate, CdcMap]
    ensures CdcJob !in BeforeGates(c) + CleanupPlan + [Finish]
  {
    assert CdcJob !in SecretsPlan(c) && CdcJob !in BackupPlan(c) && CdcJob !in RecoveryPlan(c);
    assert CdcJob !in ProtectPlan && CdcJob !in ServicesPlan && CdcJob !in CleanupPlan;
    hide SecretsPlan, BackupPlan, RecoveryPlan;
  }

  lemma PlanWithoutPowerSync(c: Context)
    requires c.spec.powersync.None?
    ensures Plan(c) == BeforeGates(c) + CleanupPlan + [Finish]
  {
    hide SecretsPlan, BackupPlan, RecoveryPlan;
  }

  /** Turning CDCReady on has the same prerequisites as writing a PowerSync workload. */
  lemma CdcReadyGate(c: Context, o: Objects, status: Status)
    requires !IsTrue(status, CDCReady)
    requires IsTrue(Pass(c, o, status).state.memory, CDCReady) || IsTrue(Pass(c, o, status).state.saved, CDCReady)
    ensures c.spec.powersync.Some?
    ensures var p := Pass(c, o, status).state.o; RolesReported(p) && Published(c, p) && ScriptApplied(c, p)
  {
    hide Run, Step, Plan, BeforeGates, PowerSyncAllowed, RolesReported, Published, ScriptApplied;
    var s := Begin(o, status);
    var upto := [RulesGate, RolesGate, PublicationGate, CdcMap];
    BeforeCdcJob(c);
    if c.spec.powersync.None? {
      PlanWithoutPowerSync(c);
      CdcStaysOff(c, s, Plan(c));
      assert false;
    } else {
      PlanAtGates(c);
      assert GatesPlan == upto + [CdcJob];
      assert BeforeGates(c) + GatesPlan == (BeforeGates(c) + upto) + [CdcJob];
      CdcStaysOff(c, s, BeforeGates(c) + upto);
      RunLast(c, s, BeforeGates(c) + upto, CdcJob);
      CdcJobOutcome(c, Run(c, s, BeforeGates(c) + upto).state);
      RunConcat(c, s, BeforeGates(c) + GatesPlan, WorkloadPlan + [Finish]);
      var g := Run(c, s, BeforeGates(c) + GatesPlan);
      assert g.outcome == Next;
      RunConcat(c, s, BeforeGates(c), GatesPlan);
      GatesPass(c, Run(c, s, BeforeGates(c)).state);
      WorkloadKeeps(c, g.state);
      AllowedMeaning(c, Pass(c, o, status).state.o);
    }
  }
}
