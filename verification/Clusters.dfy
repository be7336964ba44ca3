/** The CNPG Cluster: what the project declares, what a retained Cluster takes
    over from that declaration, and the creation-time inputs that must not change. */
module Clusters {
  import opened Kube

  /** The Secrets the operator generates for a project; Names renders them as strings. */
  datatype SecretRole = GoTrueFallback | SupabaseAdmin | Authenticator | AuthAdmin
                      | EmailHook | PsStorage | PsReplication | PsToken

  /** A Secret name held in status or in a role: empty, generated, or the user's own. */
  datatype SecretRef = NoSecret | Generated(project: string, role: SecretRole) | Foreign(name: string)

  datatype Names = Names(fallback: SecretRef, admin: SecretRef, authenticator: SecretRef, authAdmin: SecretRef,
                         emailHook: SecretRef, psStorage: SecretRef, psReplication: SecretRef)

  const NO_NAMES := Names(NoSecret, NoSecret, NoSecret, NoSecret, NoSecret, NoSecret, NoSecret)

  // ---- The declaration ------------------------------------------------------

  datatype S3 = S3(destination: string, endpoint: string, credentials: string)
  datatype Backup = Backup(enabled: bool, schedule: string, retention: string, s3: S3,
                           walCompression: string, dataCompression: string)
  datatype Recovery = Recovery(enabled: bool, serverName: string, targetTime: string, s3: S3)

  /** Quantities are compared by value, so requests and limits map to numbers. */
  datatype Resources = Resources(requests: map<string, int>, limits: map<string, int>)

  datatype Storage = Storage(size: string, storageClass: Option<string>, resizeInUse: Option<bool>,
      claimTemplate: Option<string>)

  datatype Role = Role(name: string, login: bool, createDB: bool, createRole: bool, bypassRLS: bool,
                       replication: bool, inherit: Option<bool>, inRoles: seq<string>,
                       password: SecretRef, connectionLimit: int)

  datatype DatabaseSpec = DatabaseSpec(instances: int, storage: Storage, image: string, resources: Resources,
                                       superuser: bool, parameters: map<string, string>, libraries: seq<string>,
                                       backup: Option<Backup>, recovery: Option<Recovery>, additionalRoles: seq<Role>)

  /** Constants of the build: default image, default parameters and libraries, and host rules. */
  datatype Defaults = Defaults(image: string, parameters: map<string, string>, libraries: seq<string>, hba: seq<string>)

  // ---- The Cluster ----------------------------------------------------------

  datatype InitDB = InitDB(database: string, owner: string, secret: SecretRef, sqlRefs: seq<string>, rest: string)
  datatype RecoveryBootstrap = RecoveryBootstrap(source: ExternalName, database: string, owner: string,
      secret: SecretRef,
                                                 targetTime: Option<string>, rest: string)
  datatype Bootstrap = Bootstrap(initdb: Option<InitDB>, recovery: Option<RecoveryBootstrap>)
  datatype ExternalName = NoExternal | RecoverySource(project: string) | OtherExternal(name: string)
  datatype StoreName = NoStore | BackupStoreOf(project: string) | RecoveryStoreOf(project: string)
                     | OtherStore(name: string)
  datatype PluginName = Barman | OtherPlugin(name: string)
  /** `serverName` and `store` are the plugin parameters "serverName" and "barmanObjectName";
      `more` holds any others. */
  datatype Plugin = Plugin(name: PluginName, enabled: Option<bool>, walArchiver: Option<bool>,
                           store: StoreName, serverName: string, more: map<string, string>)
  datatype ExternalCluster = ExternalCluster(name: ExternalName, plugin: Option<Plugin>, rest: string)

  datatype ClusterSpec = ClusterSpec(instances: int, image: string, superuser: Option<bool>,
      bootstrap: Option<Bootstrap>,
                                     externals: seq<ExternalCluster>, resources: Resources,
                                     parameters: map<string, string>, hba: seq<string>, libraries: seq<string>,
                                     antiAffinity: Option<bool>, storage: Storage, managed: Option<seq<Role>>,
                                     plugins: seq<Plugin>, rest: string)

  // ---- Building -------------------------------------------------------------

  const DATABASE := "supabase"
  const OWNER_ROLE := "supabase_admin"
  const INIT_SQL_KEY := "init.sql"

  function MergeParameters(base: map<string, string>, custom: map<string, string>): map<string, string> {
    base + custom
  }

  /** mergeParameters: two ranges over maps into a fresh one. */
  method BuildParameters(base: map<string, string>, custom: map<string, string>) returns (result: map<string, string>)
    ensures result == MergeParameters(base, custom)
  {
    result := map[];
    var todo := base.Keys;
    while todo != {}
      invariant todo <= base.Keys
      invariant result == map k | k in base && k !in todo :: base[k]
      decreases todo
    {
      var k :| k in todo;
      result := result[k := base[k]];
      todo := todo - {k};
    }
    assert result == base;
    todo := custom.Keys;
    while todo != {}
      invariant todo <= custom.Keys
      invariant result == base + (map k | k in custom && k !in todo :: custom[k])
      decreases todo
    {
      var k :| k in todo;
      result := result[k := custom[k]];
      todo := todo - {k};
    }
    assert custom == map k | k in custom && k !in todo :: custom[k];
  }

  function WithRoleDefaults(role: Role): Role {
    role.(connectionLimit := -1, inherit := if role.inherit.None? then Some(true) else role.inherit)
  }

  function AllWithRoleDefaults(roles: seq<Role>): seq<Role> {
    seq(|roles|, i requires 0 <= i < |roles| => WithRoleDefaults(roles[i]))
  }

  /** applyGeneratedRoleDefaults changes the slice it is given. */
  method ApplyRoleDefaults(roles: array<Role>)
    modifies roles
    ensures roles[..] == AllWithRoleDefaults(old(roles[..]))
  {
    for i := 0 to roles.Length
      invariant forall j :: 0 <= j < i ==> roles[j] == WithRoleDefaults(old(roles[j]))
      invariant forall j :: i <= j < roles.Length ==> roles[j] == old(roles[j])
    {
      roles[i] := roles[i].(connectionLimit := -1);
      if roles[i].inherit.None? {
        roles[i] := roles[i].(inherit := Some(true));
      }
    }
  }

  function Group(name: string, inherit: Option<bool>, inRoles: seq<string>, bypass: bool): Role {
    Role(name, false, false, false, bypass, false, inherit, inRoles, NoSecret, 0)
  }

  function BaseRoles(names: Names): seq<Role> {
    [ Group("api_access_role", None, [], false),
      Group("anon", Some(true), ["api_access_role"], false),
      Group("authenticated", Some(true), ["api_access_role"], false),
      Group("service_role", Some(true), ["api_access_role"], true),
      Role(OWNER_ROLE, true, true, true, true, true, None, ["pg_read_all_data", "pg_write_all_data"], names.admin, 0),
      Role("authenticator", true, false, false, false, false, Some(false),
           ["anon", "authenticated", "service_role"], names.authenticator, 0),
      Role("supabase_auth_admin", true, false, true, false, false, Some(false), [], names.authAdmin, 0) ]
  }

  const PS_STORAGE_ROLE := "powersync_storage"
  const PS_REPLICATION_ROLE := "powersync_replication"

  function PowerSyncRoles(names: Names): seq<Role> {
    [ Role(PS_STORAGE_ROLE, true, false, false, false, false, None, [], names.psStorage, 0),
      Role(PS_REPLICATION_ROLE, true, false, false, true, true, None, [], names.psReplication, 0) ]
  }

  function AllRoles(db: DatabaseSpec, powersync: bool, names: Names): seq<Role> {
    AllWithRoleDefaults(BaseRoles(names)) + db.additionalRoles
    + if powersync && names.psStorage != NoSecret && names.psReplication != NoSecret
      then AllWithRoleDefaults(PowerSyncRoles(names)) else []
  }

  predicate RecoveryEnabled(db: DatabaseSpec) { db.recovery.Some? && db.recovery.value.enabled }
  predicate BackupEnabled(db: DatabaseSpec) { db.backup.Some? && db.backup.value.enabled }

  function BuildBootstrap(project: string, db: DatabaseSpec, names: Names): Bootstrap {
    if RecoveryEnabled(db) then
      Bootstrap(None, Some(RecoveryBootstrap(RecoverySource(project), DATABASE, OWNER_ROLE, names.admin,
        if db.recovery.value.targetTime != "" then Some(db.recovery.value.targetTime) else None, "")))
    else
      Bootstrap(Some(InitDB(DATABASE, OWNER_ROLE, names.admin, [project, INIT_SQL_KEY], "")), None)
  }

  function BuildCluster(d: Defaults, project: string, db: DatabaseSpec, powersync: bool, names: Names): ClusterSpec {
    ClusterSpec(
      if db.instances <= 0 then 1 else db.instances,
      if db.image != "" then db.image else d.image,
      Some(db.superuser),
      Some(BuildBootstrap(project, db, names)),
      if RecoveryEnabled(db)
      then [ExternalCluster(RecoverySource(project),
              Some(Plugin(Barman, None, None, RecoveryStoreOf(project), db.recovery.value.serverName, map[])), "")]
      else [],
      db.resources,
      MergeParameters(d.parameters, db.parameters), d.hba, d.libraries + db.libraries,
      if db.instances > 1 then Some(true) else None,
      db.storage,
      Some(AllRoles(db, powersync, names)),
      if BackupEnabled(db)
      then [Plugin(Barman, Some(true), Some(true), BackupStoreOf(project), "", map[])] else [],
      "")
  }

  // ---- Merging into a retained Cluster --------------------------------------

  /** resource.ParseQuantity, by numeric value. */
  type Quantity = string -> Option<int>

  predicate StorageAccepted(parse: Quantity, existing: Storage, desired: Storage) {
    desired.size == "" ||
    (parse(desired.size).Some? &&
     (existing.size == "" ||
      (parse(existing.size).Some? && parse(existing.size).value <= parse(desired.size).value)))
  }

  function MergedStorage(existing: Storage, desired: Storage): Storage {
    Storage(if desired.size != "" then desired.size else existing.size,
            if desired.storageClass.Some? then desired.storageClass else existing.storageClass,
            if desired.resizeInUse.Some? then desired.resizeInUse else existing.resizeInUse,
            if desired.claimTemplate.Some? then desired.claimTemplate else existing.claimTemplate)
  }

  function FirstBarman(plugins: seq<Plugin>): (r: Option<Plugin>)
    ensures r.Some? ==> r.value in plugins && r.value.name == Barman
    ensures r.None? ==> forall p :: p in plugins ==> p.name != Barman
  {
    if plugins == [] then None
    else if plugins[0].name == Barman then Some(plugins[0]) else FirstBarman(plugins[1..])
  }

  function OthersThanBarman(plugins: seq<Plugin>): seq<Plugin> {
    if plugins == [] then []
    else (if plugins[0].name == Barman then [] else [plugins[0]]) + OthersThanBarman(plugins[1..])
  }

  function Replaced(existing: seq<Plugin>, wanted: Option<Plugin>): (r: seq<Plugin>)
    ensures FirstBarman(existing).None? ==> r == existing
  {
    if existing == [] then []
    else (if existing[0].name != Barman then [existing[0]]
          else if wanted.Some? then [wanted.value] else []) + Replaced(existing[1..], wanted)
  }

  /** Every barman entry becomes the wanted one (or goes), and it is appended when there was none. */
  function MergedPlugins(existing: seq<Plugin>, wanted: Option<Plugin>): seq<Plugin> {
    Replaced(existing, wanted) + if wanted.Some? && FirstBarman(existing).None? then [wanted.value] else []
  }

  lemma {:induction false} ReplacedFacts(existing: seq<Plugin>, wanted: Option<Plugin>)
    requires wanted.Some? ==> wanted.value.name == Barman
    ensures OthersThanBarman(Replaced(existing, wanted)) == OthersThanBarman(existing)
    ensures Replaced(Replaced(existing, wanted), wanted) == Replaced(existing, wanted)
    ensures wanted.Some? ==>
              FirstBarman(Replaced(existing, wanted)) == if FirstBarman(existing).None? then None else wanted
    ensures wanted.None? ==> FirstBarman(Replaced(existing, wanted)).None?
  {
    if existing != [] {
      ReplacedFacts(existing[1..], wanted);
      var head := if existing[0].name != Barman then [existing[0]] else if wanted.Some? then [wanted.value] else [];
      var tail := Replaced(existing[1..], wanted);
      assert Replaced(existing, wanted) == head + tail;
      if head == [] {
        assert Replaced(existing, wanted) == tail;
      } else {
        assert (head + tail)[1..] == tail;
      }
      assert OthersThanBarman(existing)
          == (if existing[0].name == Barman then [] else [existing[0]]) + OthersThanBarman(existing[1..]);
      assert [] + OthersThanBarman(tail) == OthersThanBarman(tail);
    }
  }

  lemma {:induction false} AppendBarman(plugins: seq<Plugin>, wanted: Plugin)
    requires wanted.name == Barman && FirstBarman(plugins).None?
    ensures FirstBarman(plugins + [wanted]) == Some(wanted)
    ensures OthersThanBarman(plugins + [wanted]) == OthersThanBarman(plugins)
    ensures Replaced(plugins + [wanted], Some(wanted)) == plugins + [wanted]
  {
    if plugins == [] {
      assert plugins + [wanted] == [wanted];
      assert [wanted][1..] == [];
      assert Replaced([wanted], Some(wanted)) == [wanted] + Replaced([], Some(wanted));
    } else {
      assert plugins[0] in plugins;
      forall p | p in plugins[1..] ensures p.name != Barman { assert p in plugins; }
      AppendBarman(plugins[1..], wanted);
      assert (plugins + [wanted])[1..] == plugins[1..] + [wanted];
    }
  }

  /** Foreign plugins survive in order, the barman entry is exactly the wanted one,
      and merging again changes nothing. */
  lemma MergedPluginsFacts(existing: seq<Plugin>, wanted: Option<Plugin>)
    requires wanted.Some? ==> wanted.value.name == Barman
    ensures var m := MergedPlugins(existing, wanted);
            && OthersThanBarman(m) == OthersThanBarman(existing)
            && FirstBarman(m) == wanted
            && MergedPlugins(m, wanted) == m
  {
    ReplacedFacts(existing, wanted);
    if wanted.Some? && FirstBarman(existing).None? {
      AppendBarman(existing, wanted.value);
    } else {
      assert MergedPlugins(existing, wanted) == Replaced(existing, wanted);
    }
  }

  /** The first barman entry of the declaration. */
  method FindBarman(desired: seq<Plugin>) returns (wanted: Option<Plugin>)
    ensures wanted == FirstBarman(desired)
  {
    wanted := None;
    for i := 0 to |desired|
      invariant wanted.None?
      invariant FirstBarman(desired) == FirstBarman(desired[i..])
    {
      if desired[i].name == Barman {
        wanted := Some(desired[i]);
        break;
      }
      assert desired[i..][1..] == desired[i + 1..];
    }
  }

  /** What one retained plugin becomes. */
  function Kept(plugin: Plugin, wanted: Option<Plugin>): seq<Plugin> {
    if plugin.name != Barman then [plugin] else if wanted.Some? then [wanted.value] else []
  }

  lemma {:induction false} ReplacedConcat(a: seq<Plugin>, b: Plugin, wanted: Option<Plugin>)
    ensures Replaced(a + [b], wanted) == Replaced(a, wanted) + Kept(b, wanted)
  {
    if a == [] {
      assert a + [b] == [b] && [b][1..] == [];
      assert Replaced([b], wanted) == Kept(b, wanted) + Replaced([], wanted);
    } else {
      assert (a + [b])[1..] == a[1..] + [b];
      ReplacedConcat(a[1..], b, wanted);
      assert Replaced(a + [b], wanted) == Kept(a[0], wanted) + Replaced(a[1..] + [b], wanted);
      assert Replaced(a, wanted) == Kept(a[0], wanted) + Replaced(a[1..], wanted);
      hide *;
      ConcatAssociates(Kept(a[0], wanted), Replaced(a[1..], wanted), Kept(b, wanted));
    }
  }

  lemma ConcatAssociates<T>(a: seq<T>, b: seq<T>, c: seq<T>)
    ensures a + (b + c) == (a + b) + c
  {
  }

  lemma {:induction false} FirstBarmanConcat(a: seq<Plugin>, b: Plugin)
    ensures FirstBarman(a + [b]).Some? <==> FirstBarman(a).Some? || b.name == Barman
  {
    if a == [] {
      assert a + [b] == [b] && [b][1..] == [];
    } else {
      assert (a + [b])[1..] == a[1..] + [b];
      FirstBarmanConcat(a[1..], b);
    }
  }

  /** The state of the merging loop after the retained plugins `done`. */
  ghost predicate Merging(done: seq<Plugin>, wanted: Option<Plugin>, result: seq<Plugin>, found: bool, changed: bool) {
    && result == Replaced(done, wanted)
    && |result| <= |done|
    && (wanted.Some? ==> |result| == |done| && (FirstBarman(done).Some? <==> found))
    && (wanted.None? ==> (changed <==> |result| < |done|))
    && (changed <==> result != done)
  }

  lemma MergingStep(done: seq<Plugin>, plugin: Plugin, wanted: Option<Plugin>, result: seq<Plugin>, found: bool,
      changed: bool)
    requires Merging(done, wanted, result, found, changed)
    ensures Merging(done + [plugin], wanted, result + Kept(plugin, wanted),
                    found || (plugin.name == Barman && wanted.Some?),
                    changed || (plugin.name == Barman && wanted != Some(plugin)))
  {
    ReplacedConcat(done, plugin, wanted);
    FirstBarmanConcat(done, plugin);
    var next := result + Kept(plugin, wanted);
    if |next| == |done| + 1 {
      assert next[..|done|] == result && (done + [plugin])[..|done|] == done;
      assert next[|done|] == Kept(plugin, wanted)[0] && (done + [plugin])[|done|] == plugin;
    }
  }

  lemma MergingDone(existing: seq<Plugin>, wanted: Option<Plugin>, result: seq<Plugin>, found: bool, changed: bool)
    requires Merging(existing, wanted, result, found, changed)
    ensures MergedPlugins(existing, wanted) == result + if wanted.Some? && !found then [wanted.value] else []
    ensures changed || (wanted.Some? && !found) <==> MergedPlugins(existing, wanted) != existing
  {
  }

  /** reconcileBarmanPlugin. */
  method ReconcileBarmanPlugin(existing: seq<Plugin>, desired: seq<Plugin>) returns (result: seq<Plugin>, changed: bool)
    ensures result == MergedPlugins(existing, FirstBarman(desired))
    ensures changed <==> result != existing
  {
    var wanted := FindBarman(desired);
    var found := false;
    result, changed := [], false;
    assert existing[..0] == [];
    assert Merging(existing[..0], wanted, result, found, changed);
    hide Merging, Replaced, FirstBarman, MergedPlugins;
    for i := 0 to |existing|
      invariant Merging(existing[..i], wanted, result, found, changed)
    {
      var plugin := existing[i];
      MergingStep(existing[..i], plugin, wanted, result, found, changed);
      assert existing[..i + 1] == existing[..i] + [plugin];
      if plugin.name != Barman {
        result := result + [plugin];
      } else if wanted.None? {
        assert result + [] == result;
        changed := true;
      } else {
        result := result + [wanted.value];
        found := true;
        if plugin != wanted.value {
          changed := true;
        }
      }
    }
    assert existing[..|existing|] == existing;
    MergingDone(existing, wanted, result, found, changed);
    if wanted.Some? && !found {
      result := result + [wanted.value];
      changed := true;
    } else {
      assert result + [] == result;
    }
  }

  /** Everything the declaration projects onto a retained Cluster. */
  function MergedSpec(existing: ClusterSpec, desired: ClusterSpec): ClusterSpec {
    existing.(
      storage := MergedStorage(existing.storage, desired.storage),
      instances := desired.instances,
      image := if desired.image != "" then desired.image else existing.image,
      resources := desired.resources,
      superuser := if desired.superuser.Some? then desired.superuser else existing.superuser,
      parameters := desired.parameters, hba := desired.hba, libraries := desired.libraries,
      antiAffinity := desired.antiAffinity,
      managed := if desired.managed.Some? then desired.managed else existing.managed,
      plugins := MergedPlugins(existing.plugins, FirstBarman(desired.plugins)))
  }

  datatype Merge = Merged(spec: ClusterSpec, changed: bool) | Rejected

  /** Appearing managed roles alone go unreported when the declaration has none. */
  predicate ReportsChange(existing: ClusterSpec, desired: ClusterSpec) {
    var m := MergedSpec(existing, desired);
    && m != existing
    && !(desired.managed == Some([]) && existing.managed.None? && m == existing.(managed := Some([])))
  }

  function MergeCluster(parse: Quantity, existing: ClusterSpec, desired: ClusterSpec): Merge {
    if !StorageAccepted(parse, existing.storage, desired.storage) then Rejected
    else Merged(MergedSpec(existing, desired), ReportsChange(existing, desired))
  }

  /** A Cluster spec updated in place. */
  class ClusterCell {
    var spec: ClusterSpec

    constructor (s: ClusterSpec)
      ensures spec == s
    {
      spec := s;
    }

    /** reconcileStorage. */
    method ReconcileStorage(parse: Quantity, desired: Storage) returns (changed: bool, failed: bool)
      modifies this
      ensures failed <==> !StorageAccepted(parse, old(spec.storage), desired)
      ensures failed ==> spec == old(spec) && !changed
      ensures !failed ==> spec == old(spec).(storage := MergedStorage(old(spec.storage), desired))
      ensures !failed ==> (changed <==> spec != old(spec))
    {
      changed := false;
      failed := false;
      if desired.size != "" {
        if parse(desired.size).None? {
          failed := true;
          return;
        }
        if spec.storage.size != "" {
          if parse(spec.storage.size).None? || parse(desired.size).value < parse(spec.storage.size).value {
            failed := true;
            return;
          }
        }
        if spec.storage.size != desired.size {
          spec := spec.(storage := spec.storage.(size := desired.size));
          changed := true;
        }
      }
      if desired.storageClass.Some? && spec.storage.storageClass != desired.storageClass {
        spec := spec.(storage := spec.storage.(storageClass := desired.storageClass));
        changed := true;
      }
      if desired.resizeInUse.Some? && spec.storage.resizeInUse != desired.resizeInUse {
        spec := spec.(storage := spec.storage.(resizeInUse := desired.resizeInUse));
        changed := true;
      }
      if desired.claimTemplate.Some? && spec.storage.claimTemplate != desired.claimTemplate {
        spec := spec.(storage := spec.storage.(claimTemplate := desired.claimTemplate));
        changed := true;
      }
    }

    /** The scalar part of reconcileClusterMutableFields. */
    method ReconcileScalars(desired: ClusterSpec) returns (changed: bool)
      modifies this
      ensures spec == old(spec).(instances := desired.instances,
                                 image := if desired.image != "" then desired.image else old(spec).image,
                                 resources := desired.resources,
                                 superuser := if desired.superuser.Some? then desired.superuser
                                     else old(spec).superuser)
      ensures changed <==> spec != old(spec)
    {
      changed := false;
      if spec.instances != desired.instances {
        spec := spec.(instances := desired.instances);
        changed := true;
      }
      if desired.image != "" && spec.image != desired.image {
        spec := spec.(image := desired.image);
        changed := true;
      }
      if spec.resources != desired.resources {
        spec := spec.(resources := desired.resources);
        changed := true;
      }
      if spec.superuser != desired.superuser && desired.superuser.Some? {
        spec := spec.(superuser := desired.superuser);
        changed := true;
      }
    }

    /** The PostgreSQL and affinity part. */
    method ReconcilePostgres(desired: ClusterSpec) returns (changed: bool)
      modifies this
      ensures spec == old(spec).(parameters := desired.parameters, hba := desired.hba,
                                 libraries := desired.libraries, antiAffinity := desired.antiAffinity)
      ensures changed <==> spec != old(spec)
    {
      changed := false;
      if spec.parameters != desired.parameters {
        spec := spec.(parameters := desired.parameters);
        changed := true;
      }
      if spec.hba != desired.hba {
        spec := spec.(hba := desired.hba);
        changed := true;
      }
      if spec.libraries != desired.libraries {
        spec := spec.(libraries := desired.libraries);
        changed := true;
      }
      if spec.antiAffinity != desired.antiAffinity {
        spec := spec.(antiAffinity := desired.antiAffinity);
        changed := true;
      }
    }

    /** The managed roles; an absent section is created on the way. */
    method ReconcileRoles(desired: ClusterSpec) returns (changed: bool)
      modifies this
      ensures spec == old(spec).(managed := if desired.managed.Some? then desired.managed else old(spec).managed)
      ensures changed <==> spec != old(spec) && !(old(spec).managed.None? && desired.managed == Some([]))
    {
      changed := false;
      if desired.managed.Some? {
        if spec.managed.None? {
          spec := spec.(managed := Some([]));
        }
        if spec.managed != desired.managed {
          spec := spec.(managed := desired.managed);
          changed := true;
        }
      }
    }

    /** reconcileClusterMutableFields. */
    method ReconcileMutableFields(parse: Quantity, desired: ClusterSpec) returns (changed: bool, failed: bool)
      modifies this
      ensures failed <==> MergeCluster(parse, old(spec), desired).Rejected?
      ensures failed ==> spec == old(spec) && !changed
      ensures !failed ==> MergeCluster(parse, old(spec), desired) == Merged(spec, changed)
    {
      changed, failed := ReconcileStorage(parse, desired.storage);
      if failed {
        return;
      }
      var scalars := ReconcileScalars(desired);
      var postgres := ReconcilePostgres(desired);
      var roles := ReconcileRoles(desired);
      changed := changed || scalars || postgres || roles;
      var plugins, pluginsChanged := ReconcileBarmanPlugin(spec.plugins, desired.plugins);
      if pluginsChanged {
        spec := spec.(plugins := plugins);
        changed := true;
      }
    }
  }

  /** The projection: the fields a retained Cluster takes from its declaration. */
  predicate Projects(spec: ClusterSpec, desired: ClusterSpec) {
    && spec.instances == desired.instances && spec.image == desired.image && spec.resources == desired.resources
    && spec.superuser == desired.superuser && spec.parameters == desired.parameters && spec.hba == desired.hba
    && spec.libraries == desired.libraries && spec.antiAffinity == desired.antiAffinity
    && spec.managed == desired.managed && FirstBarman(spec.plugins) == FirstBarman(desired.plugins)
    && (desired.storage.size != "" ==> spec.storage.size == desired.storage.size)
    && (desired.storage.storageClass.Some? ==> spec.storage.storageClass == desired.storage.storageClass)
    && (desired.storage.resizeInUse.Some? ==> spec.storage.resizeInUse == desired.storage.resizeInUse)
    && (desired.storage.claimTemplate.Some? ==> spec.storage.claimTemplate == desired.storage.claimTemplate)
  }

  /** What lies outside the projection, foreign plugins included. */
  predicate SameOutside(a: ClusterSpec, b: ClusterSpec, desired: ClusterSpec) {
    && a.bootstrap == b.bootstrap && a.externals == b.externals && a.rest == b.rest
    && OthersThanBarman(a.plugins) == OthersThanBarman(b.plugins)
    && (desired.storage.size == "" ==> a.storage.size == b.storage.size)
    && (desired.storage.storageClass.None? ==> a.storage.storageClass == b.storage.storageClass)
    && (desired.storage.resizeInUse.None? ==> a.storage.resizeInUse == b.storage.resizeInUse)
    && (desired.storage.claimTemplate.None? ==> a.storage.claimTemplate == b.storage.claimTemplate)
  }

  /** A declared size that cannot be read, that follows one that cannot, or that is smaller. */
  predicate Refused(parse: Quantity, size: string, declared: string) {
    && declared != ""
    && (parse(declared).None?
        || (size != "" && (parse(size).None? || parse(declared).value < parse(size).value)))
  }

  lemma RefusedMeaning(parse: Quantity, existing: Storage, desired: Storage)
    ensures Refused(parse, existing.size, desired.size) <==> !StorageAccepted(parse, existing, desired)
  {
  }

  /** A declaration as BuildCluster makes it, before or after CNPG's own defaulting. */
  predicate Declared(desired: ClusterSpec) {
    && desired.image != "" && desired.superuser.Some? && desired.managed.Some? && desired.managed.value != []
  }

  lemma BuiltIsDeclared(d: Defaults, project: string, db: DatabaseSpec, powersync: bool, names: Names)
    requires d.image != ""
    ensures Declared(BuildCluster(d, project, db, powersync, names))
  {
    assert |AllWithRoleDefaults(BaseRoles(names))| == 7;
  }

  /** Size and settings: at least one instance, spread exactly when there are several; declared
      parameters win over the defaults and all others stay; declared libraries follow them. */
  lemma BuiltSettings(d: Defaults, project: string, db: DatabaseSpec, powersync: bool, names: Names)
    ensures var x := BuildCluster(d, project, db, powersync, names);
            && x.instances >= 1 && (db.instances >= 1 ==> x.instances == db.instances)
            && x.antiAffinity == (if x.instances > 1 then Some(true) else None)
            && x.image == (if db.image == "" then d.image else db.image) && x.superuser == Some(db.superuser)
            && x.storage == db.storage && x.resources == db.resources && x.hba == d.hba
            && (forall k :: k in x.parameters <==> k in d.parameters || k in db.parameters)
            && (forall k :: k in x.parameters ==>
                  x.parameters[k] == if k in db.parameters then db.parameters[k] else d.parameters[k])
            && |x.libraries| == |d.libraries| + |db.libraries|
            && d.libraries <= x.libraries && x.libraries[|d.libraries|..] == db.libraries
  {
    hide AllRoles;
  }

  /** Origin: one of the two bootstraps, by recovery; either way the database belongs to a role
      whose password is the one the same Cluster declares for it. Recovery reads from the one
      external cluster it names, and backups never go to the store it reads from. */
  lemma BuiltOrigin(d: Defaults, project: string, db: DatabaseSpec, powersync: bool, names: Names)
    ensures var x := BuildCluster(d, project, db, powersync, names);
            && x.bootstrap.Some? && x.managed.Some? && |x.managed.value| > 4
            && x.bootstrap.value.initdb.Some? != x.bootstrap.value.recovery.Some?
            && (x.bootstrap.value.recovery.Some? <==> db.recovery.Some? && db.recovery.value.enabled)
            && (x.bootstrap.value.initdb.Some? ==>
                  var b := x.bootstrap.value.initdb.value;
                  && b.database == "supabase" && b.owner == x.managed.value[4].name
                  && b.secret == x.managed.value[4].password && x.externals == [])
            && (x.bootstrap.value.recovery.Some? ==>
                  var b := x.bootstrap.value.recovery.value;
                  && b.database == "supabase" && b.owner == x.managed.value[4].name
                  && b.secret == x.managed.value[4].password
                  && (b.targetTime.Some? ==> b.targetTime.value == db.recovery.value.targetTime != "")
                  && (b.targetTime.None? ==> db.recovery.value.targetTime == "")
                  && |x.externals| == 1 && x.externals[0].name == b.source != NoExternal
                  && x.externals[0].plugin.Some?
                  && x.externals[0].plugin.value.name == Barman
                  && x.externals[0].plugin.value.serverName == db.recovery.value.serverName
                  && x.externals[0].plugin.value.store == RecoveryStoreOf(project))
            && (FirstBarman(x.plugins).Some? <==> db.backup.Some? && db.backup.value.enabled)
            && (FirstBarman(x.plugins).Some? ==>
                  && FirstBarman(x.plugins).value.store == BackupStoreOf(project) && |x.plugins| == 1
                  && FirstBarman(x.plugins).value.walArchiver == FirstBarman(x.plugins).value.enabled == Some(true))
  {
    assert |AllWithRoleDefaults(BaseRoles(names))| == 7;
  }

  /** The merge is exact: the projection is the declaration, the rest is untouched,
      `changed` tells the truth, and a second merge is a no-op. */
  lemma MergeIsExact(parse: Quantity, existing: ClusterSpec, desired: ClusterSpec)
    requires Declared(desired)
    ensures MergeCluster(parse, existing, desired).Rejected?
            <==> Refused(parse, existing.storage.size, desired.storage.size)
    ensures var r := MergeCluster(parse, existing, desired);
            r.Merged? ==>
              && Projects(r.spec, desired)
              && SameOutside(r.spec, existing, desired)
              && (r.changed <==> r.spec != existing)
              && MergeCluster(parse, r.spec, desired) == Merged(r.spec, false)
  {
    MergedPluginsFacts(existing.plugins, FirstBarman(desired.plugins));
  }

  /** No roles section meets an empty declared one, and merging anything else would change nothing. */
  predicate OnlyRolesAppear(existing: ClusterSpec, desired: ClusterSpec) {
    existing.managed.None? && desired.managed == Some([]) && MergedSpec(existing, desired.(managed := None)) == existing
  }

  /** For every declaration: an accepted merge tells the truth about a change if and only if
      an empty roles section is not the only thing to appear; when it is, the change goes
      unreported, and the next merge finds nothing left to report. */
  lemma ReportIsTrue(parse: Quantity, existing: ClusterSpec, desired: ClusterSpec)
    requires MergeCluster(parse, existing, desired).Merged?
    ensures var r := MergeCluster(parse, existing, desired);
            && ((r.changed <==> r.spec != existing) <==> !OnlyRolesAppear(existing, desired))
            && (OnlyRolesAppear(existing, desired) ==>
                  r == Merged(existing.(managed := Some([])), false) && MergeCluster(parse, r.spec, desired) == r)
  {
    hide StorageAccepted, MergedStorage, MergedPlugins, FirstBarman;
    var m := MergedSpec(existing, desired.(managed := None));
    if existing.managed.None? {
      assert MergedSpec(existing, desired) == m.(managed := desired.managed);
      assert m == existing <==> m.(managed := Some([])) == existing.(managed := Some([]));
    }
  }

  /** A retained Cluster without a roles section, and the same declared with an empty one. */
  lemma ChangeGoesUnreported(parse: Quantity) returns (existing: ClusterSpec, desired: ClusterSpec)
    ensures MergeCluster(parse, existing, desired) == Merged(desired, false) && desired != existing
  {
    existing := ClusterSpec(1, "image", Some(true), None, [], Resources(map[], map[]), map[], [], [], None,
                            Storage("", None, None, None), None, [], "");
    desired := existing.(managed := Some([]));
  }

  /** Projection and frame determine the merge up to where the barman entry sits. */
  lemma MergeIsDetermined(parse: Quantity, existing: ClusterSpec, desired: ClusterSpec, other: ClusterSpec)
    requires Declared(desired)
    requires MergeCluster(parse, existing, desired).Merged?
    requires Projects(other, desired) && SameOutside(other, existing, desired)
    ensures other.(plugins := []) == MergeCluster(parse, existing, desired).spec.(plugins := [])
  {
  }

  /** Storage never shrinks: whatever the declaration, an accepted merge keeps at least the old capacity. */
  lemma StorageNeverShrinks(parse: Quantity, existing: ClusterSpec, desired: ClusterSpec)
    requires MergeCluster(parse, existing, desired).Merged?
    requires existing.storage.size != "" && parse(existing.storage.size).Some?
    ensures var size := MergeCluster(parse, existing, desired).spec.storage.size;
            size != "" && parse(size).Some? && parse(size).value >= parse(existing.storage.size).value
  {
  }

  // ---- Immutability of the bootstrap ----------------------------------------

  function RecoveryOf(b: Option<Bootstrap>): Option<RecoveryBootstrap> {
    if b.Some? then b.value.recovery else None
  }

  function SourceOf(r: Option<RecoveryBootstrap>): ExternalName {
    if r.Some? then r.value.source else NoExternal
  }

  /** recoveryExternalCluster: the first external cluster of that name. */
  function FindExternal(externals: seq<ExternalCluster>, name: ExternalName): Option<ExternalCluster> {
    if name == NoExternal || externals == [] then None
    else if externals[0].name == name then Some(externals[0])
    else FindExternal(externals[1..], name)
  }

  datatype Identity = Identity(name: ExternalName, plugin: Option<PluginName>, store: StoreName, serverName: string)

  function IdentityOf(e: ExternalCluster): Identity {
    if e.plugin.Some? then Identity(e.name, Some(e.plugin.value.name), e.plugin.value.store, e.plugin.value.serverName)
    else Identity(e.name, None, NoStore, "")
  }

  predicate InitDBChanged(a: Option<Bootstrap>, b: Option<Bootstrap>) {
    a.Some? && b.Some? && a.value.initdb.Some? && b.value.initdb.Some? &&
    (a.value.initdb.value.database != b.value.initdb.value.database
     || a.value.initdb.value.owner != b.value.initdb.value.owner
     || a.value.initdb.value.secret != b.value.initdb.value.secret
     || a.value.initdb.value.sqlRefs != b.value.initdb.value.sqlRefs)
  }

  /** recoveryBootstrapIntentChanged. */
  predicate IntentChanged(existing: ClusterSpec, desired: ClusterSpec) {
    var r, q := RecoveryOf(existing.bootstrap), RecoveryOf(desired.bootstrap);
    var e, d := FindExternal(existing.externals, SourceOf(r)), FindExternal(desired.externals, SourceOf(q));
    || r.Some? != q.Some?
    || InitDBChanged(existing.bootstrap, desired.bootstrap)
    || (r.Some? && r != q)
    || e.Some? != d.Some?
    || (e.Some? && IdentityOf(e.value) != IdentityOf(d.value))
  }

  lemma IntentReflexive(spec: ClusterSpec)
    ensures !IntentChanged(spec, spec)
  {
  }

  function DeclaredSource(c: ClusterSpec): Option<ExternalCluster> {
    FindExternal(c.externals, SourceOf(RecoveryOf(c.bootstrap)))
  }

  /** The declared recovery source, when recovery is on. */
  lemma BuiltSource(d: Defaults, project: string, db: DatabaseSpec, powersync: bool, names: Names)
    ensures DeclaredSource(BuildCluster(d, project, db, powersync, names)) ==
            if RecoveryEnabled(db)
            then Some(ExternalCluster(RecoverySource(project),
              Some(Plugin(Barman, None, None, RecoveryStoreOf(project), db.recovery.value.serverName, map[])), ""))
            else None
  {
  }

  /** Recovery was switched on or off, or its server name or target time moved. */
  predicate RecoveryMoved(a: DatabaseSpec, b: DatabaseSpec) {
    || RecoveryEnabled(a) != RecoveryEnabled(b)
    || (RecoveryEnabled(a) && RecoveryEnabled(b)
        && (a.recovery.value.serverName != b.recovery.value.serverName
            || a.recovery.value.targetTime != b.recovery.value.targetTime))
  }

  /** For one project, whatever else differs between two declarations, the test
      fires exactly when recovery was switched on or off, or its server name or
      target time moved. */
  lemma IntentChangedMeaning(d: Defaults, project: string, before: DatabaseSpec, after: DatabaseSpec,
                             beforePs: bool, afterPs: bool, beforeNames: Names, afterNames: Names)
    requires beforeNames.admin == afterNames.admin
    ensures IntentChanged(BuildCluster(d, project, before, beforePs, beforeNames),
        BuildCluster(d, project, after, afterPs, afterNames))
       <==> RecoveryMoved(before, after)
  {
    BuiltSource(d, project, before, beforePs, beforeNames);
    BuiltSource(d, project, after, afterPs, afterNames);
  }

  /** The first external cluster of that name reads the project's recovery store under that server name. */
  predicate ReadsFrom(externals: seq<ExternalCluster>, project: string, serverName: string) {
    exists i :: 0 <= i < |externals| && externals[i].name == RecoverySource(project)
                && (forall j :: 0 <= j < i ==> externals[j].name != RecoverySource(project))
                && externals[i].plugin.Some? && externals[i].plugin.value.name == Barman
                && externals[i].plugin.value.store == RecoveryStoreOf(project)
                && externals[i].plugin.value.serverName == serverName
  }

  lemma {:induction false} FindExternalMeaning(externals: seq<ExternalCluster>, name: ExternalName) returns (i: int)
    requires name != NoExternal
    ensures if FindExternal(externals, name).None? then forall j :: 0 <= j < |externals| ==> externals[j].name != name
            else 0 <= i < |externals| && externals[i].name == name
                 && externals[i] == FindExternal(externals, name).value
                 && forall j :: 0 <= j < i ==> externals[j].name != name
  {
    i := 0;
    if externals != [] && externals[0].name != name {
      i := FindExternalMeaning(externals[1..], name);
      i := i + 1;
      assert forall j :: 0 < j < |externals| ==> externals[j] == externals[1..][j - 1];
    }
  }

  /** A retained Cluster that was created as this declaration would create it: recovered from the
      same source to the same target, or not recovered and, if it was initialised, with the same
      database, owner, Secret and SQL. */
  predicate CreatedAs(project: string, db: DatabaseSpec, names: Names, x: ClusterSpec) {
    if db.recovery.Some? && db.recovery.value.enabled then
      && x.bootstrap.Some? && x.bootstrap.value.recovery.Some?
      && var b := x.bootstrap.value.recovery.value;
         && b.source == RecoverySource(project) && b.database == "supabase" && b.owner == "supabase_admin"
         && b.secret == names.admin && b.rest == ""
         && b.targetTime == (if db.recovery.value.targetTime == "" then None else Some(db.recovery.value.targetTime))
         && ReadsFrom(x.externals, project, db.recovery.value.serverName)
    else
      x.bootstrap.Some? ==>
        && x.bootstrap.value.recovery.None?
        && (x.bootstrap.value.initdb.Some? ==>
              var b := x.bootstrap.value.initdb.value;
              && b.database == "supabase" && b.owner == "supabase_admin" && b.secret == names.admin
              && b.sqlRefs == [project, "init.sql"])
  }

  /** For every retained Cluster and every declaration the test fires exactly when the Cluster
      was not created as declared. */
  lemma OriginMeaning(d: Defaults, project: string, db: DatabaseSpec, powersync: bool, names: Names, x: ClusterSpec)
    ensures IntentChanged(x, BuildCluster(d, project, db, powersync, names)) <==> !CreatedAs(project, db, names, x)
  {
    BuiltSource(d, project, db, powersync, names);
    var i := FindExternalMeaning(x.externals, RecoverySource(project));
    hide AllRoles, FindExternal, MergeParameters;
    if RecoveryOf(x.bootstrap).Some? && SourceOf(RecoveryOf(x.bootstrap)) == RecoverySource(project) {
      var e := FindExternal(x.externals, RecoverySource(project));
      assert RecoveryEnabled(db) ==> (ReadsFrom(x.externals, project, db.recovery.value.serverName)
        <==> e.Some? && IdentityOf(e.value) == Identity(RecoverySource(project), Some(Barman), RecoveryStoreOf(project),
                                                        db.recovery.value.serverName));
    }
  }

  /** Same source by the fields that matter; any further plugin parameters and settings may differ. */
  predicate SameSource(a: ExternalCluster, b: ExternalCluster) { IdentityOf(a) == IdentityOf(b) }

  lemma {:induction false} FindExternalInserted(before: seq<ExternalCluster>, extra: ExternalCluster,
                                                after: seq<ExternalCluster>, name: ExternalName)
    requires extra.name != name
    ensures FindExternal(before + [extra] + after, name) == FindExternal(before + after, name)
  {
    if before == [] {
      assert [extra] + after == before + [extra] + after;
      assert ([extra] + after)[1..] == after;
      assert before + after == after;
    } else {
      assert (before + [extra] + after)[1..] == before[1..] + [extra] + after;
      assert (before + after)[1..] == before[1..] + after;
      FindExternalInserted(before[1..], extra, after, name);
    }
  }

  /** External clusters under other names never alter the verdict, on either side. */
  lemma ForeignExternalsIgnored(existing: ClusterSpec, desired: ClusterSpec, before: seq<ExternalCluster>,
                                extra: ExternalCluster, after: seq<ExternalCluster>)
    requires existing.externals == before + after
    requires extra.name != SourceOf(RecoveryOf(existing.bootstrap))
    ensures IntentChanged(existing.(externals := before + [extra] + after), desired)
        <==> IntentChanged(existing, desired)
    ensures IntentChanged(desired, existing.(externals := before + [extra] + after))
        <==> IntentChanged(desired, existing)
  {
    if SourceOf(RecoveryOf(existing.bootstrap)) != NoExternal {
      FindExternalInserted(before, extra, after, SourceOf(RecoveryOf(existing.bootstrap)));
    }
  }

  lemma {:induction false} FindExternalReplaced(externals: seq<ExternalCluster>, i: nat, e: ExternalCluster,
      name: ExternalName)
    requires i < |externals| && SameSource(externals[i], e)
    ensures var a, b := FindExternal(externals, name), FindExternal(externals[i := e], name);
            a.Some? == b.Some? && (a.Some? ==> IdentityOf(a.value) == IdentityOf(b.value))
  {
    if i > 0 {
      assert externals[i := e][1..] == externals[1..][i - 1 := e];
      FindExternalReplaced(externals[1..], i - 1, e, name);
    } else {
      assert externals[i := e][1..] == externals[1..];
    }
  }

  /** Extra plugin parameters on the source never alter the verdict. */
  lemma ExtraParametersIgnored(existing: ClusterSpec, desired: ClusterSpec, i: nat, e: ExternalCluster)
    requires i < |existing.externals| && SameSource(existing.externals[i], e)
    ensures IntentChanged(existing.(externals := existing.externals[i := e]), desired)
        <==> IntentChanged(existing, desired)
  {
    FindExternalReplaced(existing.externals, i, e, SourceOf(RecoveryOf(existing.bootstrap)));
  }
}
