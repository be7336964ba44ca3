/** What each phase may write, and that everything it writes is logged. */
module Frames {
  import opened Kube
  import opened Clusters
  import opened World
  import opened Operator
  import opened Steps

  predicate SameKey<K, V(==)>(a: map<K, V>, b: map<K, V>, k: K) {
    (k in a <==> k in b) && (k in a && k in b ==> a[k] == b[k])
  }

  predicate SameSlot(a: Objects, b: Objects, slot: Slot) {
    match slot
    case SecretAt(x) => SameKey(a.secrets, b.secrets, x)
    case MapAt(x) => SameKey(a.configMaps, b.configMaps, x)
    case DeploymentAt(x) => SameKey(a.deployments, b.deployments, x)
    case ServiceAt(x) => SameKey(a.services, b.services, x)
    case JobAt => a.job == b.job
    case CronAt => a.cron == b.cron
    case PublicationAt => a.publication == b.publication
    case ClusterAt => a.cluster == b.cluster
    case BackupAt => a.backup == b.backup
    case RecoveryAt => a.recovery == b.recovery
    case ScheduleAt => a.schedule == b.schedule
  }

  /** The one object a phase may write, besides those of Serve and PsRoleSecrets. */
  predicate Writes(ph: Phase, slot: Slot) {
    match slot
    case SecretAt(x) => || ph == ImplementationSecret(x)
                        || (ph == PsRoleSecrets && (x == PsStorage || x == PsReplication))
                        || (ph == PsTokenSecret && x == PsToken) || (ph == EmailHookSecret && x == EmailHook)
    case MapAt(x) => || (ph == InitSqlMap && x == InitSql) || (ph == JwksMap && x == Jwks)
                     || (ph == Serve(Gateway) && x == EnvoyConfig) || (ph == CdcMap && x == CdcScript)
                     || (ph == PsConfigMap && x == PsConfig) || (ph == PsRulesMap && x == PsRules)
                     || ph == CleanPowerSync(slot)
    case DeploymentAt(x) => || ph == Serve(x) || (ph == PsApiDeployment && x == PsApi)
                            || (ph == PsReplicatorDeployment && x == PsReplicator) || ph == CleanPowerSync(slot)
    case ServiceAt(x) => ph == Serve(x) || (ph == PsApiService && x == PsApi) || ph == CleanPowerSync(slot)
    case JobAt => ph == CdcJob || ph == CleanPowerSync(slot)
    case CronAt => ph == PsCompact || ph == CleanPowerSync(slot)
    case PublicationAt => ph == PublicationGate || ph == CleanPowerSync(slot)
    case ClusterAt => ph == Protect(DurableCluster) || ph == EnsureCluster
    case BackupAt => ph == Protect(DurableBackup) || ph == BackupStore || ph == CleanBackupStore
    case RecoveryAt => ph == Protect(DurableRecovery) || ph == RecoveryStore || ph == CleanRecoveryStore
    case ScheduleAt => ph == Protect(DurableSchedule) || ph == BackupSchedule || ph == CleanSchedule
  }

  predicate IsCore(comp: Component) { comp != PsApi && comp != PsReplicator }

  predicate SameCore(a: Status, b: Status) { forall comp | IsCore(comp) :: ServiceOf(a, comp) == ServiceOf(b, comp) }

  /** The conditions a phase may move, going on or failing. */
  predicate Reports(ph: Phase, t: ConditionType) {
    match t
    case Ready => SecretsPhase(ph) || ph.Serve? || ph.CoreGate? || ph.Finish?
    case SecretsReady => SecretsPhase(ph) || ph.JwksMap?
    case DatabaseReady => ph.ValidateBootstrap? || ph.EnsureCluster? || ph.WaitForDatabase?
    case BackupReady =>
      ph.BackupCredentials? || ph.BackupStore? || ph.BackupSchedule? || ph.BackupDone? || ph.CleanBackupDone?
    case RecoveryReady => ph.RecoveryCredentials? || ph.RecoveryStore? || ph.RecoveryDone? || ph.CleanRecoveryDone?
    case CDCReady => ph.RolesGate? || ph.PublicationGate? || ph.CdcMap? || ph.CdcJob? || ph.CleanPowerSyncStatus?
    case PowersyncReady => || (ph.Serve? && !IsCore(ph.core)) || ph.RulesGate? || ph.PsConfigMap? || ph.PsRulesMap?
                           || ph.PsApiDeployment? || ph.PsApiService? || ph.PsReplicatorDeployment? || ph.PsCompact?
                           || ph.PsReady? || ph.CleanPowerSyncStatus?
    case _ => ph.Serve? && t == ConditionOf(ph.core)
  }

  /** Other conditions stay as they are. */
  predicate SameConditions(ph: Phase, a: Status, b: Status) {
    forall t :: !Reports(ph, t) ==> IsTrue(b, t) == IsTrue(a, t)
  }

  /** A phase moves its own conditions only; only the CDC Job can turn CDCReady on. Away
      from the core services and the end of the pass, a status keeps its phase (but
      for leaving Pending), core services and observed generation, and a Secret
      phase can only clear aggregate Ready. */
  predicate Calm(ph: Phase, a: Status, b: Status) {
    && SameConditions(ph, a, b)
    && (ph.CdcJob? || (IsTrue(b, CDCReady) ==> IsTrue(a, CDCReady)))
    && (|| ph.Serve? || ph.CoreGate? || ph.Finish?
        || (&& (b.phase == a.phase || (a.phase == Pending && b.phase == Provisioning))
            && b.observed == a.observed
            && SameCore(a, b)
            && (SecretsPhase(ph) ==> (IsTrue(b, Ready) ==> IsTrue(a, Ready)))))
  }

  lemma MarkCalm(c: Context, ph: Phase, s: State, t: ConditionType, isTrue: bool, reason: Reason)
    requires Reports(ph, t) && (isTrue && t == CDCReady ==> ph.CdcJob?) && (isTrue && t == Ready ==> !SecretsPhase(ph))
    ensures Calm(ph, s.memory, Mark(c, s, t, isTrue, reason).memory)
  {
    hide Reports;
  }

  /** Names, database and endpoints are nobody's aggregate; services are a core service's own. */
  lemma PlainCalm(ph: Phase, a: Status, b: Status)
    requires b == a.(names := b.names, database := b.database, endpoints := b.endpoints)
        || (ph.Serve? && b == a.(services := b.services, endpoints := b.endpoints))
    ensures Calm(ph, a, b)
  {
    hide Reports;
  }

  predicate SecretsPhase(ph: Phase) {
    ph.CheckCredentials? || ph.ImplementationSecret? || ph.PsRoleSecrets? || ph.PsTokenSecret? || ph.EmailHookSecret?
        || ph.SecretsDone?
  }

  /** From `s` to `t` the log only grows, by status writes and object writes that
      the phase may make, and every object that changed was logged. */
  ghost predicate Effect(ph: Phase, s: State, t: State) {
    && s.log <= t.log
    && (forall w :: w in t.log[|s.log|..] && w.ObjectWrite? ==> Writes(ph, w.slot))
    && (forall slot :: ObjectWrite(slot) !in t.log[|s.log|..] ==> SameSlot(s.o, t.o, slot))
    && Calm(ph, s.memory, t.memory)
    && (t.saved == s.saved || Calm(ph, s.memory, t.saved))
  }

  lemma EffectUnchanged(ph: Phase, s: State, t: State)
    requires t.o == s.o && (t.log == s.log || t.log == s.log + [StatusWrite])
    requires Calm(ph, s.memory, t.memory) && (t.saved == s.saved || t.saved == t.memory)
    ensures Effect(ph, s, t)
  {
    hide Calm, Writes;
  }

  lemma EffectRefl(ph: Phase, s: State)
    ensures Effect(ph, s, s)
  {
    hide Calm, Effect;
    PlainCalm(ph, s.memory, s.memory);
    EffectUnchanged(ph, s, s);
  }

  /** One logged object write, possibly followed by a status write. */
  lemma EffectPut(ph: Phase, s: State, t: State, slot: Slot)
    requires t.memory == s.memory && t.saved == s.saved
    requires t.log == s.log + [ObjectWrite(slot)]
    requires Writes(ph, slot)
    requires forall x :: x != slot ==> SameSlot(s.o, t.o, x)
    ensures Effect(ph, s, t)
  {
    hide Calm, Writes, SameSlot;
    PlainCalm(ph, s.memory, s.memory);
    assert t.log[|s.log|..] == [ObjectWrite(slot)];
    forall x | ObjectWrite(x) !in t.log[|s.log|..] ensures SameSlot(s.o, t.o, x) {
      assert [ObjectWrite(slot)][0] == ObjectWrite(slot);
    }
  }

  lemma CalmThen(ph: Phase, a: Status, b: Status, c: Status)
    requires Calm(ph, a, b) && Calm(ph, b, c)
    ensures Calm(ph, a, c)
  {
    hide Reports;
  }

  lemma LogThen(a: seq<Write>, b: seq<Write>, c: seq<Write>)
    requires a <= b <= c
    ensures a <= c && c[|a|..] == b[|a|..] + c[|b|..]
  {
  }

  lemma SlotsThen(s: State, t: State, u: State, first: seq<Write>, second: seq<Write>)
    requires forall slot :: ObjectWrite(slot) !in first ==> SameSlot(s.o, t.o, slot)
    requires forall slot :: ObjectWrite(slot) !in second ==> SameSlot(t.o, u.o, slot)
    ensures forall slot :: ObjectWrite(slot) !in first + second ==> SameSlot(s.o, u.o, slot)
  {
    hide SameSlot;
    forall slot | ObjectWrite(slot) !in first + second ensures SameSlot(s.o, u.o, slot) {
      assert ObjectWrite(slot) !in first && ObjectWrite(slot) !in second;
      assert SameSlot(s.o, t.o, slot) && SameSlot(t.o, u.o, slot);
      SlotTrans(s.o, t.o, u.o, slot);
    }
  }

  lemma SlotTrans(a: Objects, b: Objects, c: Objects, slot: Slot)
    requires SameSlot(a, b, slot) && SameSlot(b, c, slot)
    ensures SameSlot(a, c, slot)
  {
  }

  lemma EffectThen(ph: Phase, s: State, t: State, u: State)
    requires Effect(ph, s, t) && Effect(ph, t, u)
    ensures Effect(ph, s, u)
  {
    hide Writes, SameSlot, Calm;
    LogThen(s.log, t.log, u.log);
    SlotsThen(s, t, u, t.log[|s.log|..], u.log[|t.log|..]);
    CalmThen(ph, s.memory, t.memory, u.memory);
    if t.saved != u.saved {
      CalmThen(ph, s.memory, t.memory, u.saved);
    }
  }

  // ---- The helpers ----------------------------------------------------------

  lemma PutSecret(ph: Phase, s: State, role: SecretRole, x: Secret)
    requires Writes(ph, SecretAt(role))
    ensures Effect(ph, s, Put(s, s.o.(secrets := s.o.secrets[role := x]), SecretAt(role)))
  {
    hide Effect, Writes;
    EffectPut(ph, s, Put(s, s.o.(secrets := s.o.secrets[role := x]), SecretAt(role)), SecretAt(role));
  }

  lemma SecretEffect(c: Context, ph: Phase, s: State, role: SecretRole, data: Data)
    requires Writes(ph, SecretAt(role))
    ensures Effect(ph, s, EnsureSecret(c, ph, s, role, data).state)
    ensures EnsureSecret(c, ph, s, role, data).state.memory == s.memory
  {
    hide Effect, WithController, MergedLabels, Writes, Self, Ours, LabelsFor, OwnedMeta, DeploymentCurrent,
         UpdatedDeployment, NewDeployment, SelectorFor;
    var t := EnsureSecret(c, ph, s, role, data).state;
    if t == s { EffectRefl(ph, s); } else { PutSecret(ph, s, role, t.o.secrets[role]); }
  }

  lemma PutMap(ph: Phase, s: State, role: MapRole, x: ConfigMap)
    requires Writes(ph, MapAt(role))
    ensures Effect(ph, s, Put(s, s.o.(configMaps := s.o.configMaps[role := x]), MapAt(role)))
  {
    hide Effect, Writes;
    EffectPut(ph, s, Put(s, s.o.(configMaps := s.o.configMaps[role := x]), MapAt(role)), MapAt(role));
  }

  lemma RefreshMapEffect(c: Context, ph: Phase, s: State, role: MapRole, data: Data)
    requires Writes(ph, MapAt(role)) && role in s.o.configMaps
    ensures Effect(ph, s, RefreshMap(c, ph, s, role, data).state)
    ensures RefreshMap(c, ph, s, role, data).state.memory == s.memory
  {
    hide Effect, WithController, MergedLabels, Writes, Self, Ours, LabelsFor;
    var t := RefreshMap(c, ph, s, role, data).state;
    if t == s { EffectRefl(ph, s); } else { PutMap(ph, s, role, t.o.configMaps[role]); }
  }

  lemma MapEffect(c: Context, ph: Phase, s: State, role: MapRole, data: Data)
    requires Writes(ph, MapAt(role))
    ensures Effect(ph, s, EnsureMap(c, ph, s, role, data).state)
    ensures EnsureMap(c, ph, s, role, data).state.memory == s.memory
  {
    hide Effect, Writes, OwnedMeta, RefreshMap;
    EffectRefl(ph, s);
    PutMap(ph, s, role, ConfigMap(OwnedMeta(c, MapAt(role)), data));
    if role in s.o.configMaps { RefreshMapEffect(c, ph, s, role, data); }
  }

  lemma PutDeployment(ph: Phase, s: State, comp: Component, x: Deployment)
    requires Writes(ph, DeploymentAt(comp))
    ensures Effect(ph, s, Put(s, s.o.(deployments := s.o.deployments[comp := x]), DeploymentAt(comp)))
  {
    hide Effect, Writes;
    EffectPut(ph, s, Put(s, s.o.(deployments := s.o.deployments[comp := x]), DeploymentAt(comp)), DeploymentAt(comp));
  }

  lemma DeploymentEffect(c: Context, ph: Phase, s: State, comp: Component, template: Pods.PodTemplate)
    requires Writes(ph, DeploymentAt(comp))
    ensures Effect(ph, s, EnsureDeployment(c, ph, s, comp, template).state)
    ensures EnsureDeployment(c, ph, s, comp, template).state.memory == s.memory
  {
    hide Effect, WithController, MergedLabels, Writes, Self, Ours, LabelsFor, OwnedMeta, DeploymentCurrent,
         UpdatedDeployment, NewDeployment, SelectorFor;
    var t := EnsureDeployment(c, ph, s, comp, template).state;
    if t == s { EffectRefl(ph, s); } else { PutDeployment(ph, s, comp, t.o.deployments[comp]); }
  }

  lemma PutService(ph: Phase, s: State, comp: Component, x: Service)
    requires Writes(ph, ServiceAt(comp))
    ensures Effect(ph, s, Put(s, s.o.(services := s.o.services[comp := x]), ServiceAt(comp)))
  {
    hide Effect, Writes;
    EffectPut(ph, s, Put(s, s.o.(services := s.o.services[comp := x]), ServiceAt(comp)), ServiceAt(comp));
  }

  lemma ServiceEffect(c: Context, ph: Phase, s: State, comp: Component)
    requires Writes(ph, ServiceAt(comp))
    ensures Effect(ph, s, EnsureService(c, ph, s, comp).state)
    ensures EnsureService(c, ph, s, comp).state.memory == s.memory
  {
    hide Effect, WithController, MergedLabels, Writes, Self, Ours, LabelsFor, OwnedMeta, DeploymentCurrent,
         UpdatedDeployment, NewDeployment, SelectorFor;
    var t := EnsureService(c, ph, s, comp).state;
    if t == s { EffectRefl(ph, s); } else { PutService(ph, s, comp, t.o.services[comp]); }
  }

  /** Changing the status in memory and saving it, however it is done. */
  lemma SaveEffect(c: Context, ph: Phase, n: int, s: State, t: State)
    requires t.o == s.o && t.log == s.log && t.saved == s.saved
    requires Calm(ph, s.memory, t.memory)
    ensures Effect(ph, s, Save(c, ph, n, t).state)
    ensures Save(c, ph, n, t).state.o == s.o && Save(c, ph, n, t).state.memory == t.memory
  {
    hide Calm, Effect;
    EffectUnchanged(ph, s, Save(c, ph, n, t).state);
  }

  /** Marking one of its own conditions, and saving. */
  lemma MarkEffect(c: Context, ph: Phase, n: int, s: State, t: ConditionType, isTrue: bool, reason: Reason)
    requires Reports(ph, t) && (isTrue && t == CDCReady ==> ph.CdcJob?) && (isTrue && t == Ready ==> !SecretsPhase(ph))
    ensures Effect(ph, s, MarkAndSave(c, ph, n, s, t, isTrue, reason).state)
    ensures MarkAndSave(c, ph, n, s, t, isTrue, reason).state.o == s.o
  {
    hide Calm, Effect, Reports, SetCondition, Save;
    MarkCalm(c, ph, s, t, isTrue, reason);
    SaveEffect(c, ph, n, s, Mark(c, s, t, isTrue, reason));
  }

  /** A helper followed by a failure report. */
  lemma FailAfter(c: Context, ph: Phase, s: State, t: State, cond: ConditionType, reason: Reason)
    requires Effect(ph, s, t) && Reports(ph, cond)
    ensures Effect(ph, s, FailWith(c, ph, t, cond, reason).state)
    ensures FailWith(c, ph, t, cond, reason).state.o == t.o
  {
    hide Calm, Effect, Reports, MarkAndSave;
    MarkEffect(c, ph, 0, t, cond, false, reason);
    EffectThen(ph, s, t, FailWith(c, ph, t, cond, reason).state);
  }

  lemma WaitAfter(c: Context, ph: Phase, s: State, t: State, cond: ConditionType, reason: Reason)
    requires Effect(ph, s, t) && Reports(ph, cond)
    ensures Effect(ph, s, Wait(c, ph, t, cond, reason).state)
    ensures Wait(c, ph, t, cond, reason).state.o == t.o
  {
    hide Calm, Effect, Reports, MarkAndSave;
    MarkEffect(c, ph, 1, t, cond, false, reason);
    EffectThen(ph, s, t, Wait(c, ph, t, cond, reason).state);
  }

  lemma SecretsAfter(c: Context, ph: Phase, s: State, r: Result)
    requires Effect(ph, s, r.state) && SecretsPhase(ph)
    ensures Effect(ph, s, OrFailSecrets(c, ph, r).state)
    ensures OrFailSecrets(c, ph, r).state.o == r.state.o
  {
    hide Effect, FailSecrets;
    if r.outcome != Next {
      FailSecretsEffect(c, ph, s, r.state, ImplementationSecretFailed);
    }
  }

  lemma OrFailAfter(c: Context, ph: Phase, s: State, r: Result, t: ConditionType, reason: Reason)
    requires Effect(ph, s, r.state) && Reports(ph, t)
    ensures Effect(ph, s, OrFailWith(c, ph, r, t, reason).state)
  {
    hide Effect, FailWith, Reports;
    FailAfter(c, ph, s, r.state, t, reason);
  }

  lemma FailSecretsEffect(c: Context, ph: Phase, s: State, t: State, reason: Reason)
    requires Effect(ph, s, t) && SecretsPhase(ph)
    ensures Effect(ph, s, FailSecrets(c, ph, t, reason).state)
    ensures FailSecrets(c, ph, t, reason).state.o == t.o
  {
    hide Calm, Effect, SetCondition, Save;
    var u := Mark(c, t, SecretsReady, false, reason);
    MarkCalm(c, ph, t, SecretsReady, false, reason);
    MarkCalm(c, ph, u, Ready, false, SecretsNotReady);
    CalmThen(ph, t.memory, u.memory, Mark(c, u, Ready, false, SecretsNotReady).memory);
    SaveEffect(c, ph, 9, t, Mark(c, u, Ready, false, SecretsNotReady));
    EffectThen(ph, s, t, FailSecrets(c, ph, t, reason).state);
  }

  lemma MapPhaseEffect(c: Context, ph: Phase, s: State, role: MapRole, data: Data, t: ConditionType, reason: Reason)
    requires Writes(ph, MapAt(role)) && Reports(ph, t)
    ensures Effect(ph, s, OrFailWith(c, ph, EnsureMap(c, ph, s, role, data), t, reason).state)
  {
    hide *;
    MapEffect(c, ph, s, role, data);
    OrFailAfter(c, ph, s, EnsureMap(c, ph, s, role, data), t, reason);
  }

  // ---- The phases -----------------------------------------------------------

  lemma ProtectEffect(c: Context, s: State, d: Durable)
    ensures Effect(Protect(d), s, ProtectOne(c, s, d).state)
    ensures ProtectOne(c, s, d).state.memory == s.memory
  {
    hide Effect, WithoutProject, Ours;
    var t := ProtectOne(c, s, d).state;
    if t == s { EffectRefl(Protect(d), s); } else { EffectPut(Protect(d), s, t, SlotOf(d)); }
  }

  lemma RoleSecretsEffect(c: Context, s: State)
    ensures Effect(PsRoleSecrets, s, MakeRoleSecrets(c, s).state)
  {
    hide Effect, MakeRoleSecret, FailSecrets;
    var ph := PsRoleSecrets;
    RoleSecretEffect(c, s, PsStorage);
    var r := MakeRoleSecret(c, s, PsStorage);
    RoleSecretEffect(c, r.state, PsReplication);
    var q := MakeRoleSecret(c, r.state, PsReplication);
    EffectThen(ph, s, r.state, q.state);
    EffectRefl(ph, s);
    SecretsAfter(c, ph, s, Result(s, Failed));
    SecretsAfter(c, ph, s, r);
    SecretsAfter(c, ph, s, q);
  }

  lemma RoleSecretEffect(c: Context, s: State, role: SecretRole)
    requires role == PsStorage || role == PsReplication
    ensures Effect(PsRoleSecrets, s, MakeRoleSecret(c, s, role).state)
  {
    hide Effect, EnsureSecret, MarkAndSave;
    var ph := PsRoleSecrets;
    SecretEffect(c, ph, s, role, c.k.generate(role, c.seed));
    var r := EnsureSecret(c, ph, s, role, c.k.generate(role, c.seed));
    MarkEffect(c, ph, 1, r.state, SecretsReady, false, CreateFailed);
    EffectThen(ph, s, r.state, MarkAndSave(c, ph, 1, r.state, SecretsReady, false, CreateFailed).state);
  }

  lemma HookEffect(c: Context, s: State)
    ensures Effect(EmailHookSecret, s, MakeHook(c, s).state)
  {
    hide Effect, HookSecret, Save, SetCondition, FailSecrets, OrFailSecrets, Calm;
    var ph := EmailHookSecret;
    if !c.spec.emailHook {
      EffectRefl(ph, s);
      SecretsAfter(c, ph, s, Result(s, Next));
      PlainCalm(ph, s.memory, WithHookName(s, NoSecret).memory);
      SaveEffect(c, ph, 1, s, WithHookName(s, NoSecret));
      SecretsAfter(c, ph, s, Save(c, ph, 1, WithHookName(s, NoSecret)));
    } else {
      HookSecretEffect(c, s);
      var r := HookSecret(c, s);
      if r.outcome != Next {
        SecretsAfter(c, ph, s, r);
      } else {
        HookMarkEffect(c, s, r.state);
        SecretsAfter(c, ph, s,
            MarkAndSave(c, ph, 2, WithHookName(r.state, HookName(c)), SecretsReady, true, AllSecretsReady));
      }
    }
  }

  lemma HookMarkEffect(c: Context, s: State, t: State)
    requires Effect(EmailHookSecret, s, t)
    ensures Effect(EmailHookSecret, s,
        MarkAndSave(c, EmailHookSecret, 2, WithHookName(t, HookName(c)), SecretsReady, true, AllSecretsReady).state)
  {
    hide Effect, Save, SetCondition, Calm;
    var ph := EmailHookSecret;
    var u := WithHookName(t, HookName(c));
    PlainCalm(ph, t.memory, u.memory);
    MarkCalm(c, ph, u, SecretsReady, true, AllSecretsReady);
    CalmThen(ph, t.memory, u.memory, Mark(c, u, SecretsReady, true, AllSecretsReady).memory);
    SaveEffect(c, ph, 2, t, Mark(c, u, SecretsReady, true, AllSecretsReady));
    EffectThen(ph, s, t, MarkAndSave(c, ph, 2, u, SecretsReady, true, AllSecretsReady).state);
  }

  lemma HookSecretEffect(c: Context, s: State)
    ensures Effect(EmailHookSecret, s, HookSecret(c, s).state)
  {
    hide Effect, EnsureSecret, FailWith;
    var ph := EmailHookSecret;
    EffectRefl(ph, s);
    FailAfter(c, ph, s, s, SecretsReady, HookSecretUnavailable);
    FailAfter(c, ph, s, s, SecretsReady, InvalidHookSecret);
    SecretEffect(c, ph, s, EmailHook, c.k.generate(EmailHook, c.seed));
    FailAfter(c, ph, s, EnsureSecret(c, ph, s, EmailHook, c.k.generate(EmailHook, c.seed)).state, SecretsReady,
        HookSecretCreateFailed);
  }

  lemma SecretsPhaseEffect(c: Context, s: State, ph: Phase)
    requires SecretsPhase(ph)
    ensures Effect(ph, s, Step(c, s, ph).state)
  {
    hide Effect, EnsureSecret, FailSecrets, OrFailSecrets, MakeRoleSecrets, MakeHook, CheckBundle, FinishSecrets, Step;
    match ph {
      case CheckCredentials => StepCredentials(c, s); CredentialsEffect(c, s);
      case ImplementationSecret(role) =>
        StepSecret(c, s, role);
        SecretEffect(c, ph, s, role, c.k.generate(role, c.seed));
        SecretsAfter(c, ph, s, EnsureSecret(c, ph, s, role, c.k.generate(role, c.seed)));
      case PsRoleSecrets => StepRoleSecrets(c, s); RoleSecretsEffect(c, s);
      case PsTokenSecret =>
        StepToken(c, s);
        EffectRefl(ph, s);
        SecretEffect(c, ph, s, PsToken, c.k.generate(PsToken, c.seed));
        SecretsAfter(c, ph, s, EnsureSecret(c, ph, s, PsToken, c.k.generate(PsToken, c.seed)));
        SecretsAfter(c, ph, s, Result(s, Failed));
      case EmailHookSecret => StepHook(c, s); HookEffect(c, s);
      case SecretsDone => StepSecretsDone(c, s); DoneEffect(c, s);
    }
  }

  lemma CredentialsEffect(c: Context, s: State)
    ensures Effect(CheckCredentials, s, CheckBundle(c, s).state)
  {
    hide Effect, FailSecrets, Bundle, Reports;
    var ph := CheckCredentials;
    var s1 := if s.memory.phase == Pending then s.(memory := s.memory.(phase := Provisioning)) else s;
    EffectUnchanged(ph, s, s1);
    FailSecretsEffect(c, ph, s, s1, CredentialsReferenceMissing);
    FailSecretsEffect(c, ph, s, s1, CredentialsSecretUnavailable);
    FailSecretsEffect(c, ph, s, s1, InvalidProjectCredentials);
  }

  lemma DoneEffect(c: Context, s: State)
    ensures Effect(SecretsDone, s, FinishSecrets(c, s).state)
  {
    hide Effect, Save, SetCondition, NamesFor, Calm;
    var t := s.(memory := s.memory.(names := NamesFor(c, s.memory.names.emailHook)));
    PlainCalm(SecretsDone, s.memory, t.memory);
    MarkCalm(c, SecretsDone, t, SecretsReady, true, CredentialsValidated);
    CalmThen(SecretsDone, s.memory, t.memory, Mark(c, t, SecretsReady, true, CredentialsValidated).memory);
    SaveEffect(c, SecretsDone, 0, s, Mark(c, t, SecretsReady, true, CredentialsValidated));
  }

  lemma StoreEffect(c: Context, ph: Phase, s: State, d: Durable, desired: StoreSpec)
    requires d.DurableBackup? || d.DurableRecovery?
    requires Writes(ph, SlotOf(d))
    ensures Effect(ph, s, EnsureStore(c, ph, s, d, desired).state)
  {
    hide Effect, WithController, MergedLabels, Writes;
    var t := EnsureStore(c, ph, s, d, desired).state;
    if t == s { EffectRefl(ph, s); } else { EffectPut(ph, s, t, SlotOf(d)); }
  }

  lemma ScheduleEffect(c: Context, ph: Phase, s: State, desired: ScheduleSpec)
    requires Writes(ph, ScheduleAt)
    ensures Effect(ph, s, EnsureSchedule(c, ph, s, desired).state)
  {
    hide Effect, WithController, MergedLabels, Writes;
    var t := EnsureSchedule(c, ph, s, desired).state;
    if t == s { EffectRefl(ph, s); } else { EffectPut(ph, s, t, ScheduleAt); }
  }

  lemma CleanEffect(c: Context, ph: Phase, s: State, d: Durable, t: ConditionType, without: Objects)
    requires Writes(ph, SlotOf(d))
    requires forall x :: x != SlotOf(d) ==> SameSlot(s.o, without, x)
    ensures Effect(ph, s, CleanDurable(c, ph, s, d, t, without).state)
  {
    hide Effect, WithController, MergedLabels, Writes;
    var u := CleanDurable(c, ph, s, d, t, without).state;
    if u == s { EffectRefl(ph, s); } else { EffectPut(ph, s, u, SlotOf(d)); }
  }

  predicate BackupPhase(ph: Phase) { ph.BackupCredentials? || ph.BackupStore? || ph.BackupSchedule? || ph.BackupDone? }
  predicate RecoveryPhase(ph: Phase) { ph.RecoveryCredentials? || ph.RecoveryStore? || ph.RecoveryDone? }
  predicate CleaningPhase(ph: Phase) {
    ph.CleanSchedule? || ph.CleanBackupStore? || ph.CleanBackupDone? || ph.CleanRecoveryStore? || ph.CleanRecoveryDone?
  }

  lemma StorageEffect(c: Context, s: State, ph: Phase)
    requires BackupPhase(ph) || RecoveryPhase(ph) || CleaningPhase(ph)
    ensures Effect(ph, s, Step(c, s, ph).state)
  {
    hide Effect, EnsureStore, EnsureSchedule, FailWith, S3Valid, BackupSpecOf, RecoverySpecOf, ScheduleOf,
         MarkAndSave, OrFailWith, Step, BackupDeclared, RecoveryDeclared, CleanDurable, CleanCondition;
    EffectRefl(ph, s);
    StepStorageCredentials(c, s);
    StepStores(c, s);
    StepSchedule(c, s);
    StepConfigured(c, s);
    StepCleaning(c, s);
    StepCleaned(c, s);
    match ph {
      case BackupCredentials => FailAfter(c, ph, s, s, BackupReady, SecretError);
      case BackupStore =>
        StoreEffect(c, ph, s, DurableBackup, BackupSpecOf(BackupDeclared(c)));
        OrFailAfter(c, ph, s, EnsureStore(c, ph, s, DurableBackup, BackupSpecOf(BackupDeclared(c))), BackupReady,
            ObjectStoreFailed);
      case BackupSchedule =>
        ScheduleEffect(c, ph, s, ScheduleOf(c, BackupDeclared(c)));
        OrFailAfter(c, ph, s, EnsureSchedule(c, ph, s, ScheduleOf(c, BackupDeclared(c))), BackupReady,
            ScheduledBackupFailed);
      case BackupDone => MarkEffect(c, ph, 0, s, BackupReady, true, BackupConfigured);
      case RecoveryCredentials => FailAfter(c, ph, s, s, RecoveryReady, SecretError);
      case RecoveryStore =>
        StoreEffect(c, ph, s, DurableRecovery, RecoverySpecOf(RecoveryDeclared(c)));
        OrFailAfter(c, ph, s, EnsureStore(c, ph, s, DurableRecovery, RecoverySpecOf(RecoveryDeclared(c))),
            RecoveryReady, ObjectStoreFailed);
      case RecoveryDone => MarkEffect(c, ph, 0, s, RecoveryReady, true, RecoveryConfigured);
      case CleanSchedule => CleanEffect(c, ph, s, DurableSchedule, BackupReady, s.o.(schedule := None));
      case CleanBackupStore => CleanEffect(c, ph, s, DurableBackup, BackupReady, s.o.(backup := None));
      case CleanBackupDone => ConditionEffect(c, ph, s, BackupReady);
      case CleanRecoveryStore => CleanEffect(c, ph, s, DurableRecovery, RecoveryReady, s.o.(recovery := None));
      case CleanRecoveryDone => ConditionEffect(c, ph, s, RecoveryReady);
    }
  }

  lemma ConditionEffect(c: Context, ph: Phase, s: State, t: ConditionType)
    requires (ph == CleanBackupDone && t == BackupReady) || (ph == CleanRecoveryDone && t == RecoveryReady)
    ensures Effect(ph, s, CleanCondition(c, ph, s, t).state)
  {
    hide Effect, Save;
    EffectRefl(ph, s);
    SaveEffect(c, ph, 0, s, s.(memory := RemoveCondition(s.memory, t)));
  }

  lemma PutEffect(ph: Phase, s: State, o: Objects, slot: Slot)
    requires Writes(ph, slot)
    requires forall x :: x != slot ==> SameSlot(s.o, o, x)
    ensures Effect(ph, s, Put(s, o, slot))
  {
    EffectPut(ph, s, Put(s, o, slot), slot);
  }

  lemma NewClusterEffect(c: Context, s: State)
    ensures Effect(EnsureCluster, s,
        Wait(c, EnsureCluster, Put(s, s.o.(cluster := Some(NewCluster(c, s.memory.names))), ClusterAt), DatabaseReady,
        Creating).state)
  {
    hide Effect, NewCluster, Wait;
    var o := s.o.(cluster := Some(NewCluster(c, s.memory.names)));
    PutEffect(EnsureCluster, s, o, ClusterAt);
    WaitAfter(c, EnsureCluster, s, Put(s, o, ClusterAt), DatabaseReady, Creating);
  }

  lemma ClusterEffect(c: Context, s: State)
    ensures Effect(EnsureCluster, s, MakeCluster(c, s).state)
  {
    hide Effect, NewCluster, Wait, FailWith, IntentChanged, MergeCluster, RepairThenFail, Repaired, Desired;
    if s.o.cluster.None? {
      EffectRefl(EnsureCluster, s);
      FailAfter(c, EnsureCluster, s, s, DatabaseReady, CreateFailed);
      NewClusterEffect(c, s);
    } else {
      RetainedClusterEffect(c, s);
    }
  }

  lemma RetainedClusterEffect(c: Context, s: State)
    requires s.o.cluster.Some?
    ensures Effect(EnsureCluster, s, MakeCluster(c, s).state)
  {
    hide Effect, Writes, IntentChanged, MergeCluster, RepairThenFail, Repaired, Desired;
    var ph := EnsureCluster;
    EffectRefl(ph, s);
    var x := s.o.cluster.value;
    var desired := Desired(c, s.memory.names);
    if IntentChanged(x.spec, desired) {
      RepairEffect(c, s, x, BootstrapImmutable);
      return;
    }
    var merge := MergeCluster(c.k.quantity, x.spec, desired);
    if merge.Rejected? {
      RepairEffect(c, s, x, RejectReason(c, x.spec.storage, desired.storage));
    } else {
      PutEffect(ph, s, s.o.(cluster := Some(x.(meta := Repaired(c, x.meta, ClusterAt), spec := merge.spec))),
          ClusterAt);
    }
  }

  lemma RepairEffect(c: Context, s: State, x: Cluster, reason: Reason)
    ensures Effect(EnsureCluster, s, RepairThenFail(c, s, x, reason).state)
  {
    hide Effect, FailWith, Repaired;
    var ph := EnsureCluster;
    EffectRefl(ph, s);
    FailAfter(c, ph, s, s, DatabaseReady, reason);
    var t := Put(s, s.o.(cluster := Some(x.(meta := Repaired(c, x.meta, ClusterAt)))), ClusterAt);
    EffectPut(ph, s, t, ClusterAt);
    FailAfter(c, ph, s, t, DatabaseReady, reason);
  }

  lemma DatabaseEffect(c: Context, s: State)
    ensures Effect(WaitForDatabase, s, AwaitDatabase(c, s).state)
  {
    hide Effect, Wait, Save, SetCondition, Calm, Reports;
    var ph := WaitForDatabase;
    EffectRefl(ph, s);
    OwnConditions(Auth);
    WaitAfter(c, ph, s, s, DatabaseReady, WaitingForInstances);
    if s.o.cluster.Some? {
      var x := s.o.cluster.value;
      var s1 := s.(memory := s.memory.(database := DatabaseOf(x), endpoints := Endpoints(false, true)));
      PlainCalm(ph, s.memory, s1.memory);
      MarkCalm(c, ph, s1, DatabaseReady, true, IsReady);
      CalmThen(ph, s.memory, s1.memory, Mark(c, s1, DatabaseReady, true, IsReady).memory);
      SaveEffect(c, ph, 0, s, Mark(c, s1, DatabaseReady, true, IsReady));
    }
  }

  lemma FailComponentEffect(c: Context, s: State, t: State, comp: Component, reason: Reason)
    requires Effect(Serve(comp), s, t)
    ensures Effect(Serve(comp), s, FailComponent(c, t, comp, reason).state)
  {
    hide Effect, FailWith;
    var u := WithService(t, comp, NOT_READY);
    EffectUnchanged(Serve(comp), t, u);
    EffectThen(Serve(comp), s, t, u);
    FailAfter(c, Serve(comp), s, u, ConditionOf(comp), reason);
  }

  lemma FailCoreEffect(c: Context, s: State, t: State, comp: Component)
    requires Effect(Serve(comp), s, t)
    ensures Effect(Serve(comp), s, FailCore(c, Serve(comp), t).state)
  {
    hide Effect, Save;
    var u := t.(memory := t.memory.(phase := Provisioning));
    EffectUnchanged(Serve(comp), t, u);
    MarkEffect(c, Serve(comp), 8, u, Ready, false, CoreServicesFailed);
    EffectThen(Serve(comp), s, t, u);
    EffectThen(Serve(comp), s, u, FailCore(c, Serve(comp), t).state);
  }

  lemma ReportEffect(c: Context, s: State, comp: Component)
    ensures Effect(Serve(comp), s, ReportComponent(c, s, comp).state)
  {
    hide Effect, FailComponent, Observed, Calm, SetCondition;
    EffectRefl(Serve(comp), s);
    FailComponentEffect(c, s, s, comp, DeploymentStatusFailed);
    if c.up(Serve(comp), Get(3)) {
      var status := Observed(s.o, comp);
      var t := WithService(s, comp, status);
      var u := Mark(c, t, ConditionOf(comp), status.ready, if status.ready then IsReady else DeploymentPending);
      PlainCalm(Serve(comp), s.memory, t.memory);
      OwnConditions(comp);
      MarkCalm(c, Serve(comp), t, ConditionOf(comp), status.ready, if status.ready then IsReady else DeploymentPending);
      CalmThen(Serve(comp), s.memory, t.memory, u.memory);
      var v := ReportComponent(c, s, comp).state;
      PlainCalm(Serve(comp), u.memory, v.memory);
      CalmThen(Serve(comp), s.memory, u.memory, v.memory);
      EffectUnchanged(Serve(comp), s, v);
    }
  }

  lemma OwnConditions(comp: Component)
    ensures Reports(Serve(comp), ConditionOf(comp)) && ConditionOf(comp) != CDCReady && ConditionOf(comp) != Ready
    ensures Reports(WaitForDatabase, DatabaseReady) && !SecretsPhase(WaitForDatabase)
        && Reports(PsReady, PowersyncReady)
  {
  }

  lemma ComponentEffect(c: Context, s: State, comp: Component, template: Pods.PodTemplate)
    ensures Effect(Serve(comp), s, MakeComponent(c, s, comp, template).state)
  {
    hide Effect, EnsureDeployment, EnsureService, ReportComponent, FailComponent, Writes;
    var ph := Serve(comp);
    ServeWritesOwn(comp);
    DeploymentEffect(c, ph, s, comp, template);
    var d := EnsureDeployment(c, ph, s, comp, template);
    FailComponentEffect(c, s, d.state, comp, DeploymentFailed);
    ServiceEffect(c, ph, d.state, comp);
    var v := EnsureService(c, ph, d.state, comp);
    EffectThen(ph, s, d.state, v.state);
    FailComponentEffect(c, s, v.state, comp, ServiceFailed);
    ReportEffect(c, v.state, comp);
    EffectThen(ph, s, v.state, ReportComponent(c, v.state, comp).state);
  }

  lemma ServeWritesOwn(comp: Component)
    ensures Writes(Serve(comp), DeploymentAt(comp)) && Writes(Serve(comp), ServiceAt(comp))
        && Writes(Serve(Gateway), MapAt(EnvoyConfig))
  {
  }

  lemma PrepareEffect(c: Context, s: State, comp: Component)
    ensures Effect(Serve(comp), s, PrepareComponent(c, s, comp).state)
  {
    hide Effect, EnsureMap, FailComponent, EnvValid, Writes;
    EffectRefl(Serve(comp), s);
    FailComponentEffect(c, s, s, comp, EnvSourceInvalid);
    if comp == Gateway {
      ServeWritesOwn(comp);
      MapEffect(c, Serve(Gateway), s, EnvoyConfig, c.k.mapData(c.name, c.spec, EnvoyConfig));
      FailComponentEffect(c, s,
          EnsureMap(c, Serve(Gateway), s, EnvoyConfig, c.k.mapData(c.name, c.spec, EnvoyConfig)).state, Gateway,
          ConfigMapFailed);
    }
  }

  lemma ServeEffect(c: Context, s: State, comp: Component)
    ensures Effect(Serve(comp), s, ServeComponent(c, s, comp).state)
  {
    hide Effect, PrepareComponent, CoreTemplate, MakeComponent, FailCore;
    PrepareEffect(c, s, comp);
    var p := PrepareComponent(c, s, comp).state;
    FailCoreEffect(c, s, p, comp);
    var template := CoreTemplate(c, p, comp);
    if template.Some? {
      ComponentEffect(c, p, comp, template.value);
      var r := MakeComponent(c, p, comp, template.value).state;
      EffectThen(Serve(comp), s, p, r);
      FailCoreEffect(c, s, r, comp);
    }
  }

  predicate MapPhase(ph: Phase) { ph.InitSqlMap? || ph.JwksMap? || ph.CdcMap? || ph.PsConfigMap? || ph.PsRulesMap? }

  lemma MapsEffect(c: Context, s: State, ph: Phase)
    requires MapPhase(ph)
    ensures Effect(ph, s, Step(c, s, ph).state)
  {
    hide Effect, EnsureMap, FailWith, Step, JwksData, ScriptData, RulesData;
    EffectRefl(ph, s);
    match ph {
      case InitSqlMap => StepInitSql(c, s); MapEffect(c, ph, s, InitSql, c.k.mapData(c.name, c.spec, InitSql));
      case JwksMap => StepJwks(c, s); MapPhaseEffect(c, ph, s, Jwks, JwksData(c), SecretsReady, JwksFailed);
      case CdcMap => StepCdcMap(c, s); MapPhaseEffect(c, ph, s, CdcScript, ScriptData(c), CDCReady, ConfigMapFailed);
      case PsConfigMap =>
        StepPsConfig(c, s);
        MapPhaseEffect(c, ph, s, PsConfig, c.k.mapData(c.name, c.spec, PsConfig), PowersyncReady, ConfigMapFailed);
      case PsRulesMap =>
        StepPsRules(c, s);
        MapPhaseEffect(c, ph, s, PsRules, RulesData(c), PowersyncReady, RulesConfigMapFailed);
    }
  }

  predicate CorePhase(ph: Phase) {
    || ph.Protect? || ph.ValidateBootstrap? || ph.EnsureCluster? || ph.WaitForDatabase?
    || ph.Serve? || ph.CoreGate? || ph.Finish?
  }

  lemma GateEffect(c: Context, s: State)
    ensures Effect(CoreGate, s, GateCore(c, s).state) && Effect(Finish, s, Finished(c, s).state)
  {
    hide Effect, Wait, CoreReady, Save, SetCondition;
    var u := s.(memory := s.memory.(phase := Provisioning));
    EffectRefl(CoreGate, s);
    EffectUnchanged(CoreGate, s, u);
    WaitAfter(c, CoreGate, s, u, Ready, CoreServicesPending);
    var t := s.(memory := s.memory.(phase := Running, observed := c.generation));
    EffectUnchanged(Finish, s, t);
    MarkEffect(c, Finish, 0, t, Ready, true, AllComponentsReady);
    EffectThen(Finish, s, t, Finished(c, s).state);
  }

  lemma ChecksEffect(c: Context, s: State)
    ensures Effect(ValidateBootstrap, s, CheckBootstrap(c, s).state)
    ensures Effect(RulesGate, s, CheckRules(c, s).state)
    ensures Effect(RolesGate, s, AwaitRoles(c, s).state)
  {
    hide Effect, FailWith, IntentChanged, Built, SameLocation, Rules, RolesBlocked, RolesReconciled, Wait;
    EffectRefl(ValidateBootstrap, s);
    EffectRefl(RulesGate, s);
    EffectRefl(RolesGate, s);
    FailAfter(c, ValidateBootstrap, s, s, DatabaseReady, BootstrapImmutable);
    FailAfter(c, RulesGate, s, s, PowersyncReady, InvalidSyncRules);
    FailAfter(c, RolesGate, s, s, CDCReady, ManagedRolesFailed);
    WaitAfter(c, RolesGate, s, s, CDCReady, ManagedRolesPending);
  }

  lemma CorePhaseEffect(c: Context, s: State, ph: Phase)
    requires CorePhase(ph)
    ensures Effect(ph, s, Step(c, s, ph).state)
  {
    hide Effect, CheckBootstrap, ProtectOne, MakeCluster, AwaitDatabase, ServeComponent, GateCore, Finished, Step,
         CheckRules, AwaitRoles;
    match ph {
      case Protect(d) => StepProtect(c, s, d); ProtectEffect(c, s, d);
      case ValidateBootstrap => StepBootstrap(c, s); ChecksEffect(c, s);
      case EnsureCluster => StepCluster(c, s); ClusterEffect(c, s);
      case WaitForDatabase => StepDatabase(c, s); DatabaseEffect(c, s);
      case Serve(comp) => StepServe(c, s, comp); ServeEffect(c, s, comp);
      case CoreGate => StepCoreGate(c, s); GateEffect(c, s);
      case Finish => StepFinish(c, s); GateEffect(c, s);
    }
  }

  lemma PublicationEffect(c: Context, s: State)
    ensures Effect(PublicationGate, s, AwaitPublication(c, s).state)
  {
    hide Effect, UpdatedPublication, Wait, DesiredPublication, OwnedMeta;
    var ph := PublicationGate;
    EffectRefl(ph, s);
    WaitAfter(c, ph, s, s, CDCReady, PublicationPending);
    if DesiredPublication(c).Some? {
      var spec := DesiredPublication(c).value;
      if s.o.publication.None? {
        var o := s.o.(publication := Some(Publication(OwnedMeta(c, PublicationAt), spec, 1, 0, None)));
        PutEffect(ph, s, o, PublicationAt);
        WaitAfter(c, ph, s, Put(s, o, PublicationAt), CDCReady, PublicationPending);
      } else {
        PutEffect(ph, s, s.o.(publication := UpdatedPublication(c, s.o.publication.value, spec)), PublicationAt);
      }
    }
  }

  lemma ConfirmEffect(c: Context, s: State, x: Job)
    requires WithController(x.meta.owners, Self(c)).Some?
    ensures Effect(CdcJob, s, ConfirmJob(c, s, x).state)
    ensures ConfirmJob(c, s, x).state.memory == s.memory
  {
    hide Effect, WithController, MergedLabels, Writes;
    EffectRefl(CdcJob, s);
    PutEffect(CdcJob, s, s.o.(job := Some(OwnedJob(c, x))), JobAt);
  }

  lemma CheckJobEffect(c: Context, s: State)
    ensures Effect(CdcJob, s, CheckJob(c, s).state)
    ensures CheckJob(c, s).state.memory == s.memory
  {
    hide Effect, Writes, WithController, HashOf, ScriptHash, ConfirmJob, OwnedJob;
    EffectRefl(CdcJob, s);
    if s.o.job.None? {
      PutEffect(CdcJob, s, s.o.(job := Some(NewJob(c))), JobAt);
      return;
    }
    var x := s.o.job.value;
    PutEffect(CdcJob, s, s.o.(job := Some(x.(deleting := true))), JobAt);
    if WithController(x.meta.owners, Self(c)).Some? {
      ConfirmEffect(c, s, x);
    }
  }

  lemma JobEffect(c: Context, s: State)
    ensures Effect(CdcJob, s, AwaitJob(c, s).state)
  {
    hide Effect, CheckJob, FailWith, Wait, SetCondition;
    CheckJobEffect(c, s);
    var t := CheckJob(c, s).state;
    FailAfter(c, CdcJob, s, t, CDCReady, JobFailedReason);
    WaitAfter(c, CdcJob, s, t, CDCReady, JobRunning);
    var u := Mark(c, t, CDCReady, true, CDCPermissionsApplied);
    MarkCalm(c, CdcJob, t, CDCReady, true, CDCPermissionsApplied);
    EffectUnchanged(CdcJob, t, u);
    EffectThen(CdcJob, s, t, u);
  }

  lemma CronEffect(c: Context, ph: Phase, s: State, desired: CronSpec)
    requires Writes(ph, CronAt)
    ensures Effect(ph, s, EnsureCron(c, ph, s, desired).state)
  {
    hide Effect, WithController, MergedLabels, Writes;
    var t := EnsureCron(c, ph, s, desired).state;
    if t == s { EffectRefl(ph, s); } else { EffectPut(ph, s, t, CronAt); }
  }

  lemma DeleteEffect(c: Context, ph: Phase, s: State, slot: Slot)
    requires PowerSyncMeta(s.o, slot).Some? ==> Writes(ph, slot)
    ensures Effect(ph, s, DeleteOwned(c, ph, s, slot).state)
    ensures DeleteOwned(c, ph, s, slot).state.memory == s.memory
  {
    hide Effect, WithController, MergedLabels, Writes;
    var t := DeleteOwned(c, ph, s, slot).state;
    if t == s { EffectRefl(ph, s); } else { EffectPut(ph, s, t, slot); }
  }

  lemma PsReadyEffect(c: Context, s: State)
    ensures Effect(PsReady, s, AwaitPowerSync(c, s).state)
  {
    hide Effect, Wait, Observed, SetCondition, Reports;
    var s1 := WithService(WithService(s, PsApi, Observed(s.o, PsApi)), PsReplicator, Observed(s.o, PsReplicator));
    EffectRefl(PsReady, s);
    EffectUnchanged(PsReady, s, s1);
    OwnConditions(PsApi);
    MarkCalm(c, PsReady, s1, PowersyncReady, true, IsReady);
    EffectUnchanged(PsReady, s1, Mark(c, s1, PowersyncReady, true, IsReady));
    EffectThen(PsReady, s, s1, Mark(c, s1, PowersyncReady, true, IsReady));
    WaitAfter(c, PsReady, s, s1, PowersyncReady, DeploymentsPending);
  }

  predicate WaitingPhase(ph: Phase) {
    ph.RulesGate? || ph.RolesGate? || ph.PublicationGate? || ph.CdcJob? || ph.PsReady?
  }

  lemma WaitingPhaseEffect(c: Context, s: State, ph: Phase)
    requires WaitingPhase(ph)
    ensures Effect(ph, s, Step(c, s, ph).state)
  {
    hide Effect, CheckBootstrap, CheckRules, AwaitRoles, AwaitPublication, AwaitJob, AwaitPowerSync, Step;
    match ph {
      case RulesGate => StepRules(c, s); ChecksEffect(c, s);
      case RolesGate => StepRoles(c, s); ChecksEffect(c, s);
      case PublicationGate => StepPublication(c, s); PublicationEffect(c, s);
      case CdcJob => StepJob(c, s); JobEffect(c, s);
      case PsReady => StepPsReady(c, s); PsReadyEffect(c, s);
    }
  }

  predicate WorkloadPhase(ph: Phase) {
    || ph.PsApiDeployment? || ph.PsApiService? || ph.PsReplicatorDeployment? || ph.PsCompact?
    || ph.CleanPowerSync? || ph.CleanPowerSyncStatus?
  }

  lemma CompactEffect(c: Context, s: State)
    ensures Effect(PsCompact, s, MakeCompact(c, s).state)
  {
    hide Effect, EnsureCron, DeleteOwned, OrFailWith;
    CronEffect(c, PsCompact, s, c.k.cron(c.name, c.spec, s.memory.names));
    OrFailAfter(c, PsCompact, s, EnsureCron(c, PsCompact, s, c.k.cron(c.name, c.spec, s.memory.names)), PowersyncReady,
        CronJobFailed);
    DeleteEffect(c, PsCompact, s, CronAt);
  }

  lemma CleanStatusEffect(c: Context, s: State)
    ensures Effect(CleanPowerSyncStatus, s, CleanStatus(c, s).state)
  {
    hide Effect, Save, PowerSyncStatusLeft;
    EffectRefl(CleanPowerSyncStatus, s);
    var s1 := WithService(WithService(s, PsApi, NOT_READY), PsReplicator, NOT_READY);
    SaveEffect(c, CleanPowerSyncStatus, 0, s,
        s1.(memory := RemoveCondition(RemoveCondition(s1.memory, CDCReady), PowersyncReady)));
  }

  lemma WorkloadPhaseEffect(c: Context, s: State, ph: Phase)
    requires WorkloadPhase(ph)
    ensures Effect(ph, s, Step(c, s, ph).state)
  {
    hide Effect, OrFailWith, EnsureDeployment, EnsureService, PowerSyncTemplate, MakeCompact, DeleteOwned,
         CleanStatus, Step;
    StepPsDeployments(c, s);
    match ph {
      case PsApiDeployment =>
        DeploymentEffect(c, ph, s, PsApi, PowerSyncTemplate(c, s, PsApi));
        OrFailAfter(c, ph, s, EnsureDeployment(c, ph, s, PsApi, PowerSyncTemplate(c, s, PsApi)), PowersyncReady,
            ApiDeploymentFailed);
      case PsApiService =>
        StepPsService(c, s);
        ServiceEffect(c, ph, s, PsApi);
        OrFailAfter(c, ph, s, EnsureService(c, ph, s, PsApi), PowersyncReady, ApiServiceFailed);
      case PsReplicatorDeployment =>
        DeploymentEffect(c, ph, s, PsReplicator, PowerSyncTemplate(c, s, PsReplicator));
        OrFailAfter(c, ph, s, EnsureDeployment(c, ph, s, PsReplicator, PowerSyncTemplate(c, s, PsReplicator)),
            PowersyncReady,
          ReplicationDeploymentFailed);
      case PsCompact => StepCompact(c, s); CompactEffect(c, s);
      case CleanPowerSync(slot) => StepRemoval(c, s, slot); DeleteEffect(c, ph, s, slot);
      case CleanPowerSyncStatus => StepStatusRemoval(c, s); CleanStatusEffect(c, s);
    }
  }

  /** Every phase, whatever fails in it: it writes only what it may, logs what it
      writes, and away from the core services leaves the aggregate status alone. */
  lemma StepEffect(c: Context, s: State, ph: Phase)
    ensures Effect(ph, s, Step(c, s, ph).state)
  {
    hide Effect, Step;
    if SecretsPhase(ph) {
      SecretsPhaseEffect(c, s, ph);
    } else if BackupPhase(ph) || RecoveryPhase(ph) || CleaningPhase(ph) {
      StorageEffect(c, s, ph);
    } else if MapPhase(ph) {
      MapsEffect(c, s, ph);
    } else if CorePhase(ph) {
      CorePhaseEffect(c, s, ph);
    } else if WaitingPhase(ph) {
      WaitingPhaseEffect(c, s, ph);
    } else {
      assert WorkloadPhase(ph);
      WorkloadPhaseEffect(c, s, ph);
    }
  }
}
