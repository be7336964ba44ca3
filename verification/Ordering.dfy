/** The order of the plan: no phase disturbs what an earlier phase of the same pass left. */
module Ordering {
  import opened Kube
  import opened Clusters
  import opened World
  import opened Operator
  import opened Frames
  import opened Durables
  import opened Gates
  import opened Settled
  import opened Keeping

  /** What PowerSync's removal looks at. */
  predicate Removable(slot: Slot) {
    || slot == DeploymentAt(PsApi) || slot == DeploymentAt(PsReplicator) || slot == ServiceAt(PsApi)
    || slot == MapAt(PsConfig) || slot == MapAt(PsRules) || slot == MapAt(CdcScript)
    || slot == JobAt || slot == CronAt || slot == PublicationAt
  }

  predicate PowerSyncPhase(ph: Phase) {
    || ph.PsRoleSecrets? || ph.PsTokenSecret? || ph.RulesGate? || ph.RolesGate? || ph.PublicationGate? || ph.CdcMap?
    || ph.CdcJob? || ph.PsConfigMap? || ph.PsRulesMap? || ph.PsApiDeployment? || ph.PsApiService?
    || ph.PsReplicatorDeployment? || ph.PsCompact? || ph.PsReady?
  }

  /** The phases a project's declaration calls for. */
  predicate Planned(c: Context, ph: Phase) {
    && (PowerSyncPhase(ph) ==> c.spec.powersync.Some?)
    && (ph.CleanPowerSync? ==> c.spec.powersync.None? && Removable(ph.slot))
    && (ph.CleanPowerSyncStatus? ==> c.spec.powersync.None?)
    && (BackupPhase(ph) ==> BackupEnabled(c.spec.database))
    && (ph.CleanSchedule? || ph.CleanBackupStore? || ph.CleanBackupDone? ==> !BackupEnabled(c.spec.database))
    && (RecoveryPhase(ph) ==> RecoveryEnabled(c.spec.database))
    && (ph.CleanRecoveryStore? || ph.CleanRecoveryDone? ==> !RecoveryEnabled(c.spec.database))
    && (ph.Serve? ==> IsCore(ph.core))
    && (ph.ImplementationSecret? ==>
          ph.role == GoTrueFallback || ph.role == SupabaseAdmin || ph.role == Authenticator || ph.role == AuthAdmin)
  }

  function DurableRank(d: Durable): nat {
    match d case DurableCluster => 0 case DurableBackup => 1 case DurableRecovery => 2 case DurableSchedule => 3
  }

  function RoleRank(role: SecretRole): nat {
    match role case GoTrueFallback => 0 case SupabaseAdmin => 1 case Authenticator => 2 case AuthAdmin => 3 case _ => 4
  }

  function CoreRank(comp: Component): nat {
    match comp case Auth => 0 case Rest => 1 case Studio => 2 case MetaApi => 3 case _ => 4
  }

  function RemovalRank(slot: Slot): nat {
    match slot
    case DeploymentAt(x) => if x == PsApi then 0 else 1
    case ServiceAt(_) => 2
    case MapAt(x) => if x == PsConfig then 3 else if x == PsRules then 4 else 5
    case JobAt => 6
    case CronAt => 7
    case _ => 8
  }

  /** Where a phase stands in the pass. */
  function Rank(ph: Phase): nat {
    match ph
    case Protect(d) => DurableRank(d)
    case CheckCredentials => 10
    case ImplementationSecret(role) => 11 + RoleRank(role)
    case PsRoleSecrets => 20
    case PsTokenSecret => 21
    case EmailHookSecret => 30
    case SecretsDone => 31
    case ValidateBootstrap => 40
    case InitSqlMap => 41
    case JwksMap => 42
    case BackupCredentials => 50
    case BackupStore => 51
    case BackupSchedule => 52
    case BackupDone => 53
    case CleanSchedule => 54
    case CleanBackupStore => 55
    case CleanBackupDone => 56
    case RecoveryCredentials => 60
    case RecoveryStore => 61
    case RecoveryDone => 62
    case CleanRecoveryStore => 63
    case CleanRecoveryDone => 64
    case EnsureCluster => 70
    case WaitForDatabase => 71
    case Serve(comp) => 80 + CoreRank(comp)
    case CoreGate => 85
    case RulesGate => 90
    case RolesGate => 91
    case PublicationGate => 92
    case CdcMap => 93
    case CdcJob => 94
    case PsConfigMap => 100
    case PsRulesMap => 101
    case PsApiDeployment => 102
    case PsApiService => 103
    case PsReplicatorDeployment => 104
    case PsCompact => 105
    case PsReady => 106
    case CleanPowerSync(slot) => 110 + RemovalRank(slot)
    case CleanPowerSyncStatus => 120
    case Finish => 130
  }

  // An object that an earlier phase needs is not among those a later one writes:
  // each object has one planned writer, and whoever else needs it comes after.

  /** The planned phase that writes an object, for a given declaration. */
  function WriterOf(c: Context, slot: Slot): Phase {
    var ps := c.spec.powersync.Some?;
    match slot
    case SecretAt(x) => (match x case PsStorage => PsRoleSecrets case PsReplication => PsRoleSecrets
                                 case PsToken => PsTokenSecret case EmailHook => EmailHookSecret
                                 case _ => ImplementationSecret(x))
    case MapAt(x) => (match x case InitSql => InitSqlMap case Jwks => JwksMap case EnvoyConfig => Serve(Gateway)
                              case PsConfig => if ps then PsConfigMap else CleanPowerSync(slot)
                              case PsRules => if ps then PsRulesMap else CleanPowerSync(slot)
                              case CdcScript => if ps then CdcMap else CleanPowerSync(slot))
    case DeploymentAt(x) => (match x case PsApi => if ps then PsApiDeployment else CleanPowerSync(slot)
                                     case PsReplicator => if ps then PsReplicatorDeployment else CleanPowerSync(slot)
                                     case _ => Serve(x))
    case ServiceAt(x) => if x == PsApi then (if ps then PsApiService else CleanPowerSync(slot)) else Serve(x)
    case JobAt => if ps then CdcJob else CleanPowerSync(slot)
    case CronAt => if ps then PsCompact else CleanPowerSync(slot)
    case PublicationAt => CleanPowerSync(slot)
    case ClusterAt => Protect(DurableCluster)
    case BackupAt => if BackupEnabled(c.spec.database) then BackupStore else CleanBackupStore
    case RecoveryAt => if RecoveryEnabled(c.spec.database) then RecoveryStore else CleanRecoveryStore
    case ScheduleAt => if BackupEnabled(c.spec.database) then BackupSchedule else CleanSchedule
  }

  lemma SecretWriter(c: Context, ph: Phase, slot: Slot)
    requires Planned(c, ph) && NextWrites(ph, slot) && (slot.SecretAt? || slot.MapAt? || slot.JobAt? || slot.CronAt?)
    ensures ph == WriterOf(c, slot)
  {
    hide BackupEnabled, RecoveryEnabled;
  }

  lemma WorkloadWriter(c: Context, ph: Phase, slot: Slot)
    requires Planned(c, ph) && NextWrites(ph, slot) && (slot.DeploymentAt? || slot.ServiceAt? || slot.PublicationAt?)
    ensures ph == WriterOf(c, slot)
  {
    hide BackupEnabled, RecoveryEnabled;
  }

  lemma OnlyWriter(c: Context, ph: Phase, slot: Slot)
    requires Planned(c, ph) && NextWrites(ph, slot)
    ensures ph == WriterOf(c, slot) || (ph.Protect? && IsDurable(slot))
  {
    hide BackupEnabled, RecoveryEnabled;
    if slot.SecretAt? || slot.MapAt? || slot.JobAt? || slot.CronAt? {
      SecretWriter(c, ph, slot);
    } else if slot.DeploymentAt? || slot.ServiceAt? || slot.PublicationAt? {
      WorkloadWriter(c, ph, slot);
    }
  }

  /** Who needs an object without writing it. */
  predicate OnlyReads(ph: Phase, slot: Slot) {
    || (slot == SecretAt(EmailHook) && ph == Serve(Auth))
    || (slot == PublicationAt && ph == PublicationGate)
    || ((slot == DeploymentAt(PsApi) || slot == DeploymentAt(PsReplicator)) && ph == PsReady)
    || (slot == ClusterAt
        && (ph == ValidateBootstrap || ph == EnsureCluster || ph == WaitForDatabase || ph == RolesGate))
  }

  lemma Reader(c: Context, ph: Phase, slot: Slot)
    requires Planned(c, ph) && NeedsSlot(ph, slot)
    ensures NextWrites(ph, slot) || !Planned(c, WriterOf(c, slot)) || Rank(WriterOf(c, slot)) < Rank(ph)
  {
    hide BackupEnabled, RecoveryEnabled, Planned, WriterOf, Rank;
    if !NextWrites(ph, slot) {
      assert OnlyReads(ph, slot);
      ReaderAfterWriter(c, ph, slot);
    }
  }

  lemma ReaderAfterWriter(c: Context, ph: Phase, slot: Slot)
    requires Planned(c, ph) && OnlyReads(ph, slot)
    ensures !Planned(c, WriterOf(c, slot)) || Rank(WriterOf(c, slot)) < Rank(ph)
  {
    hide BackupEnabled, RecoveryEnabled;
  }

  lemma NeedsRank(ph: Phase, slot: Slot)
    ensures NeedsSlot(ph, slot) ==> Rank(ph) >= 10
    ensures Rank(ph) < 10 <==> ph.Protect?
  {
  }

  lemma NoObjectClash(c: Context, first: Phase, later: Phase, slot: Slot)
    requires Planned(c, first) && Planned(c, later) && Rank(first) < Rank(later)
    ensures NeedsSlot(first, slot) ==> !NextWrites(later, slot)
  {
    hide *;
    if NeedsSlot(first, slot) && NextWrites(later, slot) {
      OnlyWriter(c, later, slot);
      Reader(c, first, slot);
      if NextWrites(first, slot) {
        OnlyWriter(c, first, slot);
      }
      NeedsRank(first, slot);
      NeedsRank(later, slot);
    }
  }

  // The same for the parts of the status.

  /** The planned phase that has the last word on a part of the status. */
  predicate LastToucher(ph: Phase, f: Field) {
    match f
    case ConditionField(t) => (match t case SecretsReady => ph == SecretsDone
                                       case DatabaseReady => ph == WaitForDatabase case Ready => ph == Finish
                                       case CDCReady => ph == CdcJob || ph == CleanPowerSyncStatus
                                       case PowersyncReady => ph == PsReady || ph == CleanPowerSyncStatus
                                       case BackupReady => ph == BackupDone || ph == CleanBackupDone
                                       case RecoveryReady => ph == RecoveryDone || ph == CleanRecoveryDone
                                       case AuthReady => ph == Serve(Auth) case RestReady => ph == Serve(Rest)
                                       case StudioReady => ph == Serve(Studio) case MetaReady => ph == Serve(MetaApi)
                                       case GatewayReady => ph == Serve(Gateway))
    case PhaseField => ph == Finish
    case DatabaseField => ph == WaitForDatabase
    case ServiceField(x) => if IsPs(x) then ph == PsReady || ph == CleanPowerSyncStatus else ph == Serve(x)
    case NamesField => ph == SecretsDone
    case HookField => ph == EmailHookSecret
    case ApiField => ph == Serve(Gateway)
    case DatabaseEndpointField => ph == WaitForDatabase
    case ObservedField => ph == Finish
  }

  /** Earlier touchers of a part that has a later one. */
  predicate EarlyToucher(ph: Phase, f: Field) {
    || (f == ConditionField(SecretsReady) && ph == EmailHookSecret)
    || (f == PhaseField && ph == CheckCredentials)
    || (f == ApiField && ph == WaitForDatabase)
  }

  lemma ToucherOf(c: Context, ph: Phase, f: Field)
    requires Planned(c, ph) && Touches(ph, f)
    ensures LastToucher(ph, f) || EarlyToucher(ph, f)
  {
    hide BackupEnabled, RecoveryEnabled, Removable;
  }

  predicate NamesReader(ph: Phase) {
    NeedsNames(ph) || ph == SecretsDone
  }

  /** Who needs a part of the status has the last word on it, or comes later. */
  lemma NeederOf(c: Context, ph: Phase, f: Field)
    requires Planned(c, ph) && NeedsField(ph, f)
    ensures LastToucher(ph, f) || (f == NamesField && NeedsNames(ph)) || (f == HookField && NamesReader(ph))
            || (f.ServiceField? && ph == CoreGate && IsCore(f.comp))
  {
    hide BackupEnabled, RecoveryEnabled, Removable;
  }

  /** The phases with the last word on an optional part: one that runs it, one that cleans it up. */
  function LastRuns(f: Field): Phase {
    match f
    case ConditionField(t) =>
      (match t
       case SecretsReady => SecretsDone
       case DatabaseReady => WaitForDatabase
       case Ready => Finish
       case CDCReady => CdcJob
       case PowersyncReady => PsReady
       case BackupReady => BackupDone
       case RecoveryReady => RecoveryDone
       case AuthReady => Serve(Auth)
       case RestReady => Serve(Rest)
       case StudioReady => Serve(Studio)
       case MetaReady => Serve(MetaApi)
       case GatewayReady => Serve(Gateway))
    case PhaseField => Finish
    case DatabaseField => WaitForDatabase
    case ServiceField(x) => if IsPs(x) then PsReady else Serve(x)
    case NamesField => SecretsDone
    case HookField => EmailHookSecret
    case ApiField => Serve(Gateway)
    case DatabaseEndpointField => WaitForDatabase
    case ObservedField => Finish
  }

  predicate Cleans(run: Phase, clean: Phase) {
    || ((run == CdcJob || run == PsReady) && clean == CleanPowerSyncStatus)
    || (run == BackupDone && clean == CleanBackupDone) || (run == RecoveryDone && clean == CleanRecoveryDone)
  }

  lemma LastMeans(ph: Phase, f: Field)
    requires LastToucher(ph, f)
    ensures ph == LastRuns(f) || Cleans(LastRuns(f), ph)
    ensures forall other :: EarlyToucher(other, f) ==> Rank(other) < Rank(ph)
  {
  }

  /** Running PowerSync, backup or recovery excludes cleaning it up. */
  lemma CleansExcluded(c: Context, run: Phase, clean: Phase)
    ensures Planned(c, run) && Planned(c, clean) ==> !Cleans(run, clean)
    ensures forall other :: Cleans(run, clean) && Cleans(run, other) ==> other == clean
  {
    hide BackupEnabled, RecoveryEnabled, IsCore, Removable;
  }

  /** Two planned phases with the last word are one phase. */
  lemma LastIsOne(c: Context, a: Phase, b: Phase, f: Field)
    requires Planned(c, a) && Planned(c, b) && LastToucher(a, f) && LastToucher(b, f)
    ensures a == b
  {
    hide *;
    LastMeans(a, f);
    LastMeans(b, f);
    CleansExcluded(c, a, b);
    CleansExcluded(c, b, a);
    CleansExcluded(c, LastRuns(f), a);
  }

  /** The names, the hook and the core services are touched before they are read. */
  lemma ReadLater(ph: Phase, f: Field, later: Phase)
    requires LastToucher(later, f) || EarlyToucher(later, f)
    ensures (f == NamesField && NeedsNames(ph)) || (f == HookField && NamesReader(ph))
        || (f.ServiceField? && ph == CoreGate && IsCore(f.comp))
        ==> Rank(later) < Rank(ph)
  {
  }

  lemma NoStatusClash(c: Context, first: Phase, later: Phase, f: Field)
    requires Planned(c, first) && Planned(c, later) && Rank(first) < Rank(later)
    ensures NeedsField(first, f) ==> !Touches(later, f)
  {
    hide *;
    if NeedsField(first, f) && Touches(later, f) {
      NeederOf(c, first, f);
      ToucherOf(c, later, f);
      if !LastToucher(first, f) {
        ReadLater(first, f, later);
      } else if LastToucher(later, f) {
        LastIsOne(c, first, later, f);
      } else {
        LastMeans(first, f);
      }
    }
  }

  /** What an earlier phase left survives every later phase that goes on. */
  lemma LaterKeeps(c: Context, s: State, first: Phase, later: Phase)
    requires Planned(c, first) && Planned(c, later) && Rank(first) < Rank(later)
    requires Step(c, s, later).outcome == Next && Stable(c, s.o, s.memory, first)
    ensures Stable(c, Step(c, s, later).state.o, Step(c, s, later).state.memory, first)
  {
    hide Step, Stable, NeedsSlot, NextWrites, NeedsField, Touches, Planned, Rank, SameSlot, SameField;
    var t := Step(c, s, later).state;
    NextStatus(c, s, later);
    forall slot | NeedsSlot(first, slot) ensures SameSlot(s.o, t.o, slot) {
      NoObjectClash(c, first, later, slot);
      NextObjects(c, s, later, slot);
    }
    forall f | NeedsField(first, f) ensures SameField(s.memory, t.memory, f) {
      NoStatusClash(c, first, later, f);
    }
    StableAgree(c, first, s.o, s.memory, t.o, t.memory);
  }

  // ---- The plan is in order -------------------------------------------------

  predicate InOrder(c: Context, plan: seq<Phase>) {
    && (forall i :: 0 <= i < |plan| ==> Planned(c, plan[i]))
    && (forall i, j :: 0 <= i < j < |plan| ==> Rank(plan[i]) < Rank(plan[j]))
  }

  /** Planned phases whose ranks climb within [low, high). */
  predicate Climbs(c: Context, plan: seq<Phase>, low: nat, high: nat)
    decreases |plan|
  {
    if plan == [] then low <= high
    else Planned(c, plan[0]) && low <= Rank(plan[0]) < high && Climbs(c, plan[1..], Rank(plan[0]) + 1, high)
  }

  lemma {:induction false} ClimbsConcat(c: Context, a: seq<Phase>, b: seq<Phase>, low: nat, cut: nat, high: nat)
    requires Climbs(c, a, low, cut) && Climbs(c, b, cut, high)
    ensures Climbs(c, a + b, low, high)
    decreases |a|
  {
    hide Planned, Rank;
    ClimbsBounds(c, b, cut, high);
    if a == [] {
      assert a + b == b;
      ClimbsLower(c, b, low, cut, high);
    } else {
      assert (a + b)[1..] == a[1..] + b && (a + b)[0] == a[0];
      ClimbsConcat(c, a[1..], b, Rank(a[0]) + 1, cut, high);
    }
  }

  lemma ClimbsLower(c: Context, a: seq<Phase>, low: nat, cut: nat, high: nat)
    requires Climbs(c, a, cut, high) && low <= cut
    ensures Climbs(c, a, low, high)
  {
    hide Planned, Rank;
    ClimbsBounds(c, a, cut, high);
  }

  lemma {:induction false} ClimbsBounds(c: Context, a: seq<Phase>, low: nat, high: nat)
    requires Climbs(c, a, low, high)
    ensures low <= high && forall i :: 0 <= i < |a| ==> Planned(c, a[i]) && low <= Rank(a[i]) < high
    decreases |a|
  {
    hide Planned, Rank;
    if a != [] {
      ClimbsBounds(c, a[1..], Rank(a[0]) + 1, high);
      assert forall i :: 0 < i < |a| ==> a[i] == a[1..][i - 1];
    }
  }

  lemma {:induction false} ClimbsInOrder(c: Context, a: seq<Phase>, low: nat, high: nat)
    requires Climbs(c, a, low, high)
    ensures InOrder(c, a)
    decreases |a|
  {
    hide Planned, Rank;
    if a != [] {
      ClimbsInOrder(c, a[1..], Rank(a[0]) + 1, high);
      ClimbsBounds(c, a[1..], Rank(a[0]) + 1, high);
      assert a == [a[0]] + a[1..];
    }
  }

  lemma ClimbsOne(c: Context, ph: Phase, low: nat, high: nat)
    requires Planned(c, ph) && low <= Rank(ph) < high
    ensures Climbs(c, [ph], low, high)
  {
    hide Planned, Rank;
    assert [ph][1..] == [];
  }

  lemma ClimbsTwo(c: Context, a: Phase, b: Phase, low: nat, high: nat)
    requires Planned(c, a) && Planned(c, b) && low <= Rank(a) < Rank(b) < high
    ensures Climbs(c, [a, b], low, high)
  {
    hide Planned, Rank;
    ClimbsOne(c, b, Rank(a) + 1, high);
    assert [a, b][1..] == [b];
  }

  lemma ClimbsFour(c: Context, p: Phase, q: Phase, r: Phase, t: Phase, low: nat, high: nat)
    requires Planned(c, p) && Planned(c, q) && Planned(c, r) && Planned(c, t)
    requires low <= Rank(p) < Rank(q) < Rank(r) < Rank(t) < high
    ensures Climbs(c, [p, q, r, t], low, high)
  {
    hide Planned, Rank;
    ClimbsTwo(c, p, q, low, Rank(r));
    ClimbsTwo(c, r, t, Rank(r), high);
    ClimbsConcat(c, [p, q], [r, t], low, Rank(r), high);
    assert [p, q] + [r, t] == [p, q, r, t];
  }

  predicate CoreRanked(ph: Phase, rank: nat) {
    && (ph.CheckCredentials? ==> rank == 10) && (ph.PsRoleSecrets? ==> rank == 20) && (ph.PsTokenSecret? ==> rank == 21)
    && (ph.EmailHookSecret? ==> rank == 30) && (ph.SecretsDone? ==> rank == 31)
        && (ph.ValidateBootstrap? ==> rank == 40)
    && (ph.InitSqlMap? ==> rank == 41) && (ph.JwksMap? ==> rank == 42) && (ph.RecoveryStore? ==> rank == 61)
    && (ph.EnsureCluster? ==> rank == 70) && (ph.WaitForDatabase? ==> rank == 71)
    && (ph.Serve? ==> rank == 80 + CoreRank(ph.core)) && (ph.CoreGate? ==> rank == 85) && (ph.Finish? ==> rank == 130)
  }

  predicate GrantRanked(ph: Phase, rank: nat) {
    && (ph.RulesGate? ==> rank == 90) && (ph.RolesGate? ==> rank == 91) && (ph.PublicationGate? ==> rank == 92)
    && (ph.CdcMap? ==> rank == 93) && (ph.CdcJob? ==> rank == 94) && (ph.PsConfigMap? ==> rank == 100)
    && (ph.PsRulesMap? ==> rank == 101) && (ph.PsApiDeployment? ==> rank == 102) && (ph.PsApiService? ==> rank == 103)
    && (ph.PsReplicatorDeployment? ==> rank == 104) && (ph.PsCompact? ==> rank == 105) && (ph.PsReady? ==> rank == 106)
  }

  /** Where the phases stand, as equations. */
  lemma Ranks()
    ensures forall ph :: CoreRanked(ph, Rank(ph)) && GrantRanked(ph, Rank(ph)) && (Rank(ph) < 130 || ph == Finish)
  {
  }

  /** The same, one by one, for the phases that stop a pass and those they look back to. */
  lemma GateRanks()
    ensures Rank(EmailHookSecret) == 30 && Rank(SecretsDone) == 31 && Rank(ValidateBootstrap) == 40
        && Rank(RecoveryStore) == 61
    ensures Rank(EnsureCluster) == 70 && Rank(WaitForDatabase) == 71 && Rank(CoreGate) == 85 && Rank(RulesGate) == 90
    ensures Rank(RolesGate) == 91 && Rank(PublicationGate) == 92 && Rank(CdcMap) == 93 && Rank(CdcJob) == 94
    ensures Rank(PsReady) == 106 && Rank(Finish) == 130
  {
    hide Rank;
    Ranks();
  }

  predicate Mandatory(ph: Phase) {
    || ph.Protect? || ph.CheckCredentials? || ph.EmailHookSecret? || ph.SecretsDone? || ph.ValidateBootstrap?
        || ph.InitSqlMap?
    || ph.JwksMap? || ph.EnsureCluster? || ph.WaitForDatabase? || (ph.Serve? && IsCore(ph.core)) || ph.CoreGate?
        || ph.Finish?
  }

  lemma PlannedKinds(c: Context)
    ensures forall ph: Phase :: Mandatory(ph) ==> Planned(c, ph)
    ensures forall ph: Phase :: PowerSyncPhase(ph) ==> Planned(c, ph) == c.spec.powersync.Some?
    ensures forall ph: Phase :: ph.RecoveryStore? ==> Planned(c, ph) == RecoveryEnabled(c.spec.database)
    ensures forall ph: Phase :: ph.CleanRecoveryDone? ==> Planned(c, ph) == !RecoveryEnabled(c.spec.database)
    ensures forall ph: Phase :: ph.CleanBackupDone? ==> Planned(c, ph) == !BackupEnabled(c.spec.database)
  {
    hide BackupEnabled, RecoveryEnabled, Removable, IsCore;
  }

  /** The phases every declaration calls for, and those of its optional parts, one by one. */
  lemma PlannedPhases(c: Context)
    ensures Planned(c, CheckCredentials) && Planned(c, EmailHookSecret) && Planned(c, SecretsDone)
        && Planned(c, ValidateBootstrap)
    ensures Planned(c, InitSqlMap) && Planned(c, JwksMap) && Planned(c, EnsureCluster) && Planned(c, WaitForDatabase)
    ensures (forall comp :: IsCore(comp) ==> Planned(c, Serve(comp))) && Planned(c, CoreGate) && Planned(c, Finish)
    ensures Planned(c, RecoveryStore) == RecoveryEnabled(c.spec.database)
        && Planned(c, CleanRecoveryDone) == !RecoveryEnabled(c.spec.database)
    ensures Planned(c, CleanBackupDone) == !BackupEnabled(c.spec.database)
    ensures Planned(c, RulesGate) == Planned(c, RolesGate) == Planned(c, PublicationGate) == Planned(c, CdcMap)
        == c.spec.powersync.Some?
    ensures Planned(c, CdcJob) == Planned(c, PsReady) == Planned(c, PsTokenSecret) == Planned(c, PsRoleSecrets)
        == c.spec.powersync.Some?
  {
    hide Planned, BackupEnabled, RecoveryEnabled, IsCore;
    PlannedKinds(c);
  }

  lemma RemovalRanks(c: Context)
    requires c.spec.powersync.None?
    ensures forall slot ::
        Removable(slot) ==> Planned(c, CleanPowerSync(slot)) && Rank(CleanPowerSync(slot)) == 110 + RemovalRank(slot)
    ensures Planned(c, CleanPowerSyncStatus) && Rank(CleanPowerSyncStatus) == 120
  {
    hide BackupEnabled, RecoveryEnabled;
  }

  lemma ProtectClimbs(c: Context)
    ensures Climbs(c, ProtectPlan, 0, 10)
  {
    ClimbsFour(c, Protect(DurableCluster), Protect(DurableBackup), Protect(DurableRecovery), Protect(DurableSchedule),
        0, 10);
  }

  const Implementation: seq<Phase> := [ImplementationSecret(GoTrueFallback), ImplementationSecret(SupabaseAdmin),
    ImplementationSecret(Authenticator), ImplementationSecret(AuthAdmin)]

  function PsSecrets(c: Context): seq<Phase> { if c.spec.powersync.Some? then [PsRoleSecrets, PsTokenSecret] else [] }

  lemma SecretsParts(c: Context)
    ensures SecretsPlan(c) == [CheckCredentials] + Implementation + PsSecrets(c) + [EmailHookSecret, SecretsDone]
  {
  }

  lemma SecretsClimb(c: Context)
    ensures Climbs(c, SecretsPlan(c), 10, 40)
  {
    hide Planned, Rank, SecretsPlan;
    Ranks();
    PlannedKinds(c);
    ImplementationClimbs(c);
    ClimbsOne(c, CheckCredentials, 10, 11);
    ClimbsTwo(c, EmailHookSecret, SecretsDone, 30, 40);
    if c.spec.powersync.Some? { ClimbsTwo(c, PsRoleSecrets, PsTokenSecret, 20, 30); }
    ClimbsConcat(c, [CheckCredentials], Implementation, 10, 11, 20);
    ClimbsConcat(c, [CheckCredentials] + Implementation, PsSecrets(c), 10, 20, 30);
    ClimbsConcat(c, [CheckCredentials] + Implementation + PsSecrets(c), [EmailHookSecret, SecretsDone], 10, 30, 40);
    SecretsParts(c);
  }

  lemma ImplementationClimbs(c: Context)
    ensures Climbs(c, Implementation, 11, 20)
  {
    hide Climbs, BackupEnabled, RecoveryEnabled, Removable;
    ClimbsFour(c, ImplementationSecret(GoTrueFallback), ImplementationSecret(SupabaseAdmin),
      ImplementationSecret(Authenticator), ImplementationSecret(AuthAdmin), 11, 20);
  }

  lemma BackupClimbs(c: Context)
    ensures Climbs(c, BackupPlan(c), 50, 60)
  {
    hide Climbs, BackupEnabled, RecoveryEnabled, Removable;
    if BackupEnabled(c.spec.database) {
      ClimbsFour(c, BackupCredentials, BackupStore, BackupSchedule, BackupDone, 50, 60);
    } else {
      ClimbsTwo(c, CleanSchedule, CleanBackupStore, 50, 56);
      ClimbsOne(c, CleanBackupDone, 56, 60);
      ClimbsConcat(c, [CleanSchedule, CleanBackupStore], [CleanBackupDone], 50, 56, 60);
      assert BackupPlan(c) == [CleanSchedule, CleanBackupStore] + [CleanBackupDone];
    }
  }

  lemma RecoveryClimbs(c: Context)
    ensures Climbs(c, RecoveryPlan(c), 60, 70)
  {
    if RecoveryEnabled(c.spec.database) {
      ClimbsTwo(c, RecoveryCredentials, RecoveryStore, 60, 62);
      ClimbsOne(c, RecoveryDone, 62, 70);
      hide Climbs, Planned, Rank;
      ClimbsConcat(c, [RecoveryCredentials, RecoveryStore], [RecoveryDone], 60, 62, 70);
      assert RecoveryPlan(c) == [RecoveryCredentials, RecoveryStore] + [RecoveryDone];
    } else {
      ClimbsTwo(c, CleanRecoveryStore, CleanRecoveryDone, 60, 70);
    }
  }

  lemma ServicesClimb(c: Context)
    ensures Climbs(c, ServicesPlan, 80, 90)
  {
    hide Planned, Rank, Climbs;
    Ranks();
    PlannedKinds(c);
    ClimbsFour(c, Serve(Auth), Serve(Rest), Serve(Studio), Serve(MetaApi), 80, 84);
    ClimbsTwo(c, Serve(Gateway), CoreGate, 84, 90);
    ClimbsConcat(c, [Serve(Auth), Serve(Rest), Serve(Studio), Serve(MetaApi)], [Serve(Gateway), CoreGate], 80, 84, 90);
    assert ServicesPlan == [Serve(Auth), Serve(Rest), Serve(Studio), Serve(MetaApi)] + [Serve(Gateway), CoreGate];
  }

  lemma GatesClimb(c: Context)
    requires c.spec.powersync.Some?
    ensures Climbs(c, GatesPlan, 90, 100)
  {
    hide Planned, Rank, Climbs;
    Ranks();
    PlannedKinds(c);
    ClimbsFour(c, RulesGate, RolesGate, PublicationGate, CdcMap, 90, 94);
    ClimbsOne(c, CdcJob, 94, 100);
    ClimbsConcat(c, [RulesGate, RolesGate, PublicationGate, CdcMap], [CdcJob], 90, 94, 100);
    assert GatesPlan == [RulesGate, RolesGate, PublicationGate, CdcMap] + [CdcJob];
  }

  const WorkloadFirst: seq<Phase> := [PsConfigMap, PsRulesMap, PsApiDeployment, PsApiService]
  const WorkloadSecond: seq<Phase> := [PsReplicatorDeployment, PsCompact]

  lemma WorkloadClimbs(c: Context)
    requires c.spec.powersync.Some?
    ensures Climbs(c, WorkloadPlan, 100, 130)
  {
    hide Planned, Rank, Climbs;
    Ranks();
    PlannedKinds(c);
    ClimbsFour(c, PsConfigMap, PsRulesMap, PsApiDeployment, PsApiService, 100, 104);
    ClimbsTwo(c, PsReplicatorDeployment, PsCompact, 104, 106);
    ClimbsOne(c, PsReady, 106, 130);
    assert WorkloadPlan == WorkloadFirst + WorkloadSecond + [PsReady];
    ClimbsConcat(c, WorkloadFirst, WorkloadSecond, 100, 104, 106);
    ClimbsConcat(c, WorkloadFirst + WorkloadSecond, [PsReady], 100, 106, 130);
  }

  const CleanupFirst: seq<Phase> := [CleanPowerSync(DeploymentAt(PsApi)), CleanPowerSync(DeploymentAt(PsReplicator)),
    CleanPowerSync(ServiceAt(PsApi)), CleanPowerSync(MapAt(PsConfig))]
  const CleanupSecond: seq<Phase> := [CleanPowerSync(MapAt(PsRules)), CleanPowerSync(MapAt(CdcScript)),
      CleanPowerSync(JobAt), CleanPowerSync(CronAt)]
  const CleanupThird: seq<Phase> := [CleanPowerSync(PublicationAt), CleanPowerSyncStatus]

  lemma CleanupClimbs(c: Context)
    requires c.spec.powersync.None?
    ensures Climbs(c, CleanupPlan, 90, 130)
  {
    hide Climbs, Planned, Rank;
    RemovalRanks(c);
    ClimbsFour(c, CleanPowerSync(DeploymentAt(PsApi)), CleanPowerSync(DeploymentAt(PsReplicator)),
      CleanPowerSync(ServiceAt(PsApi)), CleanPowerSync(MapAt(PsConfig)), 90, 114);
    ClimbsFour(c, CleanPowerSync(MapAt(PsRules)), CleanPowerSync(MapAt(CdcScript)), CleanPowerSync(JobAt),
        CleanPowerSync(CronAt), 114, 118);
    ClimbsTwo(c, CleanPowerSync(PublicationAt), CleanPowerSyncStatus, 118, 130);
    assert CleanupPlan == CleanupFirst + CleanupSecond + CleanupThird;
    ClimbsConcat(c, CleanupFirst, CleanupSecond, 90, 114, 118);
    ClimbsConcat(c, CleanupFirst + CleanupSecond, CleanupThird, 90, 118, 130);
  }

  lemma PowerSyncClimbs(c: Context)
    ensures Climbs(c, PowerSyncPlan(c), 90, 130)
  {
    hide Climbs, BackupEnabled, RecoveryEnabled;
    if c.spec.powersync.Some? {
      GatesClimb(c);
      WorkloadClimbs(c);
      ClimbsConcat(c, GatesPlan, WorkloadPlan, 90, 100, 130);
    } else {
      CleanupClimbs(c);
    }
  }

  lemma EarlyClimbs(c: Context)
    ensures Climbs(c, [ValidateBootstrap, InitSqlMap, JwksMap], 40, 50)
    ensures Climbs(c, [EnsureCluster, WaitForDatabase], 70, 80)
    ensures Climbs(c, [Finish], 130, 131)
  {
    hide Planned, Rank, Climbs;
    Ranks();
    PlannedKinds(c);
    ClimbsTwo(c, ValidateBootstrap, InitSqlMap, 40, 42);
    ClimbsOne(c, JwksMap, 42, 50);
    ClimbsOne(c, Finish, 130, 131);
    ClimbsTwo(c, EnsureCluster, WaitForDatabase, 70, 80);
    ClimbsConcat(c, [ValidateBootstrap, InitSqlMap], [JwksMap], 40, 42, 50);
    assert [ValidateBootstrap, InitSqlMap, JwksMap] == [ValidateBootstrap, InitSqlMap] + [JwksMap];
  }

  lemma PlanInOrder(c: Context)
    ensures InOrder(c, Plan(c))
  {
    hide Climbs, InOrder, SecretsPlan, BackupPlan, RecoveryPlan, PowerSyncPlan, Planned, Rank;
    ProtectClimbs(c);
    SecretsClimb(c);
    EarlyClimbs(c);
    BackupClimbs(c);
    RecoveryClimbs(c);
    ServicesClimb(c);
    PowerSyncClimbs(c);
    var p := ProtectPlan + SecretsPlan(c);
    ClimbsConcat(c, ProtectPlan, SecretsPlan(c), 0, 10, 40);
    ClimbsConcat(c, p, [ValidateBootstrap, InitSqlMap, JwksMap], 0, 40, 50);
    var q := p + [ValidateBootstrap, InitSqlMap, JwksMap];
    ClimbsConcat(c, q, BackupPlan(c), 0, 50, 60);
    ClimbsConcat(c, q + BackupPlan(c), RecoveryPlan(c), 0, 60, 70);
    var r := q + BackupPlan(c) + RecoveryPlan(c);
    ClimbsConcat(c, r, [EnsureCluster, WaitForDatabase], 0, 70, 80);
    ClimbsConcat(c, r + [EnsureCluster, WaitForDatabase], ServicesPlan, 0, 80, 90);
    var t := r + [EnsureCluster, WaitForDatabase] + ServicesPlan;
    ClimbsConcat(c, t, PowerSyncPlan(c), 0, 90, 130);
    ClimbsConcat(c, t + PowerSyncPlan(c), [Finish], 0, 130, 131);
    ClimbsInOrder(c, Plan(c), 0, 131);
  }
}
