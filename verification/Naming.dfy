/** Object names: project name and role determine them, and they determine both. */
module Naming {
  import opened Kube
  import opened Clusters
  import opened World
  import opened Operator
  import opened Frames
  import opened Durables

  datatype Kind = SecretKind | ConfigMapKind | DeploymentKind | ServiceKind | JobKind | CronJobKind | PublicationKind
                | ClusterKind | ObjectStoreKind | ScheduledBackupKind

  function KindOf(slot: Slot): Kind {
    match slot
    case SecretAt(_) => SecretKind
    case MapAt(_) => ConfigMapKind
    case DeploymentAt(_) => DeploymentKind
    case ServiceAt(_) => ServiceKind
    case JobAt => JobKind
    case CronAt => CronJobKind
    case PublicationAt => PublicationKind
    case ClusterAt => ClusterKind
    case BackupAt => ObjectStoreKind
    case RecoveryAt => ObjectStoreKind
    case ScheduleAt => ScheduledBackupKind
  }

  function SecretSuffix(role: SecretRole): string {
    match role
    case GoTrueFallback => "-gotrue-jwt-secret"
    case SupabaseAdmin => "-supabase-admin-password"
    case Authenticator => "-authenticator-password"
    case AuthAdmin => "-auth-admin-password"
    case EmailHook => "-email-hook"
    case PsStorage => "-powersync-storage-password"
    case PsReplication => "-powersync-replication-password"
    case PsToken => "-powersync-api-token"
  }

  function MapSuffix(role: MapRole): string {
    match role
    case InitSql => "-init-sql"
    case Jwks => "-auth-jwks"
    case EnvoyConfig => "-envoy-config"
    case PsConfig => "-powersync-config"
    case PsRules => "-powersync-sync-rules"
    case CdcScript => "-cdc-migrations"
  }

  /** Deployments and Services of a component share their name. */
  function ComponentSuffix(comp: Component): string {
    match comp
    case Auth => "-auth"
    case Rest => "-rest"
    case Studio => "-studio"
    case MetaApi => "-meta"
    case Gateway => "-api-gw"
    case PsApi => "-powersync-api"
    case PsReplicator => "-powersync-replication"
  }

  function Suffix(slot: Slot): string {
    match slot
    case SecretAt(role) => SecretSuffix(role)
    case MapAt(role) => MapSuffix(role)
    case DeploymentAt(comp) => ComponentSuffix(comp)
    case ServiceAt(comp) => ComponentSuffix(comp)
    case JobAt => "-cdc-permissions"
    case CronAt => "-powersync-compact"
    case PublicationAt => "-powersync"
    case ClusterAt => "-pg"
    case BackupAt => "-backup"
    case RecoveryAt => "-recovery"
    case ScheduleAt => "-backup"
  }

  function ObjectName(project: string, slot: Slot): string { project + Suffix(slot) }

  function FromEnd(s: string, k: nat): char
    requires k < |s|
  { s[|s| - 1 - k] }

  /** Equal names agree character by character from the end. */
  lemma SameEnd(p: string, s: string, q: string, t: string, k: nat)
    requires p + s == q + t && k < |s| && k < |t|
    ensures FromEnd(s, k) == FromEnd(t, k)
  {
    assert (p + s)[|p + s| - 1 - k] == s[|s| - 1 - k] && (q + t)[|q + t| - 1 - k] == t[|t| - 1 - k];
  }

  lemma SecretsApart(p: string, a: SecretRole, q: string, b: SecretRole)
    requires p + SecretSuffix(a) == q + SecretSuffix(b)
    ensures a == b
  {
    SameEnd(p, SecretSuffix(a), q, SecretSuffix(b), 0);
    SameEnd(p, SecretSuffix(a), q, SecretSuffix(b), 9);
    SameEnd(p, SecretSuffix(a), q, SecretSuffix(b), 10);
    if (a == SupabaseAdmin && b == AuthAdmin) || (a == AuthAdmin && b == SupabaseAdmin) {
      SameEnd(p, SecretSuffix(a), q, SecretSuffix(b), 15);
    }
  }

  lemma MapsApart(p: string, a: MapRole, q: string, b: MapRole)
    requires p + MapSuffix(a) == q + MapSuffix(b)
    ensures a == b
  {
    SameEnd(p, MapSuffix(a), q, MapSuffix(b), 0);
    SameEnd(p, MapSuffix(a), q, MapSuffix(b), 1);
    SameEnd(p, MapSuffix(a), q, MapSuffix(b), 7);
  }

  lemma ComponentsApart(p: string, a: Component, q: string, b: Component)
    requires p + ComponentSuffix(a) == q + ComponentSuffix(b)
    ensures a == b
  {
    SameEnd(p, ComponentSuffix(a), q, ComponentSuffix(b), 0);
  }

  lemma StoresApart(p: string, q: string)
    ensures ObjectName(p, BackupAt) != ObjectName(q, RecoveryAt)
  {
    if ObjectName(p, BackupAt) == ObjectName(q, RecoveryAt) { SameEnd(p, "-backup", q, "-recovery", 0); }
  }

  lemma SlotsApart(p: string, a: Slot, q: string, b: Slot)
    requires KindOf(a) == KindOf(b) && ObjectName(p, a) == ObjectName(q, b)
    ensures a == b
  {
    hide SecretSuffix, MapSuffix, ComponentSuffix;
    match a {
      case SecretAt(role) => SecretsApart(p, role, q, b.secret);
      case MapAt(role) => MapsApart(p, role, q, b.configMap);
      case DeploymentAt(comp) => ComponentsApart(p, comp, q, b.component);
      case ServiceAt(comp) => ComponentsApart(p, comp, q, b.served);
      case _ => StoresApart(p, q); StoresApart(q, p);
    }
  }

  /** Within a kind, a name comes from one project and one role only. */
  lemma NamesAreUnique(p: string, a: Slot, q: string, b: Slot)
    requires KindOf(a) == KindOf(b) && ObjectName(p, a) == ObjectName(q, b)
    ensures p == q && a == b
  {
    SlotsApart(p, a, q, b);
    hide Suffix;
    assert ObjectName(p, a)[..|p|] == p && ObjectName(q, b)[..|q|] == q;
  }

  datatype Key = Key(kind: Kind, name: string)

  function Written(project: string, log: seq<Write>): set<Key> {
    set w | w in log && w.ObjectWrite? :: Key(KindOf(w.slot), ObjectName(project, w.slot))
  }

  /** Passes for two projects in one namespace never write the same object. */
  lemma WritesAreDisjoint(c: Context, o: Objects, st: Status, d: Context, p: Objects, su: Status)
    requires c.name != d.name
    ensures Written(c.name, Pass(c, o, st).state.log) !! Written(d.name, Pass(d, p, su).state.log)
  {
    hide Pass, ObjectName, KindOf;
    var a, b := Pass(c, o, st).state.log, Pass(d, p, su).state.log;
    forall v, w | v in a && v.ObjectWrite? && w in b && w.ObjectWrite?
      ensures Key(KindOf(v.slot), ObjectName(c.name, v.slot)) != Key(KindOf(w.slot), ObjectName(d.name, w.slot))
    {
      if KindOf(v.slot) == KindOf(w.slot) && ObjectName(c.name, v.slot) == ObjectName(d.name, w.slot) {
        NamesAreUnique(c.name, v.slot, d.name, w.slot);
      }
    }
  }
}
