/** The database roles a Cluster declares: what each may do, whose password it has, and
    what it can become through the roles it is a member of. */
module Roles {
  import opened Kube
  import opened Clusters
  import World
  import Operator

  /** The roles the operator generates: all but the declared ones, which stand behind the first seven. */
  function Generated(spec: ClusterSpec, db: DatabaseSpec): seq<Role> {
    var roles := if spec.managed.Some? then spec.managed.value else [];
    if |roles| < 7 + |db.additionalRoles| then [] else roles[..7] + roles[7 + |db.additionalRoles|..]
  }

  predicate WithPowerSync(powersync: bool, names: Names) {
    powersync && names.psStorage != NoSecret && names.psReplication != NoSecret
  }

  lemma BaseCount(names: Names)
    ensures |AllWithRoleDefaults(BaseRoles(names))| == 7 && |AllWithRoleDefaults(PowerSyncRoles(names))| == 2
  {
  }

  lemma GeneratedIs(d: Defaults, project: string, db: DatabaseSpec, powersync: bool, names: Names)
    ensures var spec := BuildCluster(d, project, db, powersync, names);
            && Generated(spec, db) == AllWithRoleDefaults(BaseRoles(names))
                 + (if WithPowerSync(powersync, names) then AllWithRoleDefaults(PowerSyncRoles(names)) else [])
            && spec.managed.Some? && |spec.managed.value| >= 7 + |db.additionalRoles|
            && spec.managed.value[7..7 + |db.additionalRoles|] == db.additionalRoles
  {
    BaseCount(names);
    hide BaseRoles, PowerSyncRoles, AllWithRoleDefaults;
  }

  // ---- Each role by its name ------------------------------------------------

  const LOGIN: set<string> :=
    {"supabase_admin", "authenticator", "supabase_auth_admin", "powersync_storage", "powersync_replication"}

  /** The Secret that holds a role's password. */
  function SecretOf(names: Names, name: string): SecretRef {
    if name == "supabase_admin" then names.admin
    else if name == "authenticator" then names.authenticator
    else if name == "supabase_auth_admin" then names.authAdmin
    else if name == "powersync_storage" then names.psStorage
    else if name == "powersync_replication" then names.psReplication else NoSecret
  }

  /** The roles a role of that name is a member of. */
  function MemberOf(name: string): seq<string> {
    if name == "anon" || name == "authenticated" || name == "service_role" then ["api_access_role"]
    else if name == "authenticator" then ["anon", "authenticated", "service_role"]
    else if name == "supabase_admin" then ["pg_read_all_data", "pg_write_all_data"] else []
  }

  /** What a role of that name may do. */
  predicate Entitled(names: Names, r: Role) {
    && (r.bypassRLS <==> r.name in {"service_role", "supabase_admin", "powersync_replication"})
    && (r.replication <==> r.name in {"supabase_admin", "powersync_replication"})
    && (r.createRole <==> r.name in {"supabase_admin", "supabase_auth_admin"})
    && (r.createDB <==> r.name == "supabase_admin")
    && (r.login <==> r.name in LOGIN)
    && r.password == SecretOf(names, r.name)
    && r.inherit == Some(r.name != "authenticator" && r.name != "supabase_auth_admin")
    && r.connectionLimit == -1 && r.inRoles == MemberOf(r.name)
  }

  lemma BaseEntitled(names: Names, i: nat)
    requires i < 7
    ensures Entitled(names, WithRoleDefaults(BaseRoles(names)[i]))
  {
    match i {
      case 0 =>
      case 1 =>
      case 2 =>
      case 3 =>
      case 4 =>
      case 5 =>
      case _ =>
    }
  }

  lemma PowerSyncEntitled(names: Names, i: nat)
    requires i < 2
    ensures Entitled(names, WithRoleDefaults(PowerSyncRoles(names)[i]))
  {
  }

  /** The i-th generated role. */
  lemma RoleAt(d: Defaults, project: string, db: DatabaseSpec, powersync: bool, names: Names, i: nat)
    requires i < |Generated(BuildCluster(d, project, db, powersync, names), db)|
    ensures Generated(BuildCluster(d, project, db, powersync, names), db)[i]
         == if i < 7 then WithRoleDefaults(BaseRoles(names)[i]) else WithRoleDefaults(PowerSyncRoles(names)[i - 7])
    ensures i < if WithPowerSync(powersync, names) then 9 else 7
  {
    GeneratedIs(d, project, db, powersync, names);
    BaseCount(names);
    hide BuildCluster, Generated, WithRoleDefaults;
  }

  /** The names in their order. */
  const NAMES: seq<string> :=
    ["api_access_role", "anon", "authenticated", "service_role", "supabase_admin", "authenticator",
     "supabase_auth_admin", "powersync_storage", "powersync_replication"]

  lemma NamesDiffer(i: nat, j: nat)
    requires i < j < 9
    ensures NAMES[i] != NAMES[j]
  {
    if i == 2 && j == 5 { assert NAMES[2][11] == 'e' && NAMES[5][11] == 'o'; }
  }

  lemma NameAt(names: Names, i: nat)
    requires i < 9
    ensures (if i < 7 then BaseRoles(names)[i] else PowerSyncRoles(names)[i - 7]).name == NAMES[i]
  {
  }

  /** For every declaration: the generated roles have names of their own, the seven of every
      project and, exactly when PowerSync is declared with both its Secrets, PowerSync's two.
      Whatever their order, each may do what its name entitles it to, and no more. */
  lemma RolesByName(d: Defaults, project: string, db: DatabaseSpec, powersync: bool, names: Names)
    ensures var own := Generated(BuildCluster(d, project, db, powersync, names), db);
            && |own| == (if WithPowerSync(powersync, names) then 9 else 7)
            && (forall i :: 0 <= i < |own| ==> Entitled(names, own[i]) && own[i].name == NAMES[i])
            && (forall i, j :: 0 <= i < j < |own| ==> own[i].name != own[j].name)
  {
    var own := Generated(BuildCluster(d, project, db, powersync, names), db);
    GeneratedIs(d, project, db, powersync, names);
    BaseCount(names);
    hide BuildCluster, Generated, BaseRoles, PowerSyncRoles, Entitled, WithRoleDefaults;
    forall i | 0 <= i < |own| ensures Entitled(names, own[i]) && own[i].name == NAMES[i] {
      RoleAt(d, project, db, powersync, names, i);
      NameAt(names, i);
      if i < 7 { BaseEntitled(names, i); } else { PowerSyncEntitled(names, i - 7); }
      DefaultsKeepName(names, i);
    }
    forall i, j | 0 <= i < j < |own| ensures own[i].name != own[j].name { NamesDiffer(i, j); }
  }

  lemma DefaultsKeepName(names: Names, i: nat)
    requires i < 9
    ensures WithRoleDefaults(if i < 7 then BaseRoles(names)[i] else PowerSyncRoles(names)[i - 7]).name
        == (if i < 7 then BaseRoles(names)[i] else PowerSyncRoles(names)[i - 7]).name
  {
    hide BaseRoles, PowerSyncRoles;
  }

  /** The Secret the operator generates for a role. */
  function OperatorSecret(project: string, name: string): SecretRef {
    if name == "supabase_admin" then SecretRef.Generated(project, SupabaseAdmin)
    else if name == "authenticator" then SecretRef.Generated(project, Authenticator)
    else if name == "supabase_auth_admin" then SecretRef.Generated(project, AuthAdmin)
    else if name == "powersync_storage" then SecretRef.Generated(project, PsStorage)
    else if name == "powersync_replication" then SecretRef.Generated(project, PsReplication) else NoSecret
  }

  /** With the names the operator gives: exactly the roles that log in have a Secret, no two
      share one, and PowerSync's are there exactly when it is declared. */
  lemma SecretsAreTheirOwn(c: World.Context, hook: SecretRef)
    ensures var own := Generated(Operator.Built(c, Operator.NamesFor(c, hook)), c.spec.database);
            && (forall i :: 0 <= i < |own| ==> (own[i].login <==> own[i].password != NoSecret))
            && (forall i, j :: 0 <= i < j < |own| && own[i].login ==> own[i].password != own[j].password)
            && (forall i :: 0 <= i < |own| ==> own[i].password == OperatorSecret(c.name, own[i].name))
            && |own| == if c.spec.powersync.Some? then 9 else 7
  {
    var names := Operator.NamesFor(c, hook);
    var own := Generated(Operator.Built(c, names), c.spec.database);
    RolesByName(c.k.defaults, c.name, c.spec.database, c.spec.powersync.Some?, names);
    hide BuildCluster, Generated, WithRoleDefaults;
  }

  // ---- What a role can become -----------------------------------------------

  predicate IsMember(roles: seq<Role>, a: string, b: string) {
    exists i :: 0 <= i < |roles| && roles[i].name == a && b in roles[i].inRoles
  }

  /** Each name on the path is a member of the next. */
  predicate Path(roles: seq<Role>, path: seq<string>) {
    path != [] && forall i :: 0 <= i < |path| - 1 ==> IsMember(roles, path[i], path[i + 1])
  }

  /** No declared role goes by one of the names. */
  predicate Apart(db: DatabaseSpec, names: set<string>) {
    forall i :: 0 <= i < |db.additionalRoles| ==> db.additionalRoles[i].name !in names
  }

  /** A set of names that memberships do not lead out of. */
  predicate Closed(roles: seq<Role>, names: set<string>) {
    forall i :: 0 <= i < |roles| && roles[i].name in names ==> forall b :: b in roles[i].inRoles ==> b in names
  }

  lemma {:induction false} StaysInside(roles: seq<Role>, names: set<string>, path: seq<string>)
    requires Path(roles, path) && Closed(roles, names) && path[0] in names
    ensures path[|path| - 1] in names
    decreases |path|
  {
    if |path| > 1 {
      assert IsMember(roles, path[0], path[1]);
      forall i | 0 <= i < |path[1..]| - 1 ensures IsMember(roles, path[1..][i], path[1..][i + 1]) {
        assert IsMember(roles, path[i + 1], path[i + 2]);
      }
      StaysInside(roles, names, path[1..]);
    }
  }

  /** Nothing but API access: what the two client roles lead to. */
  const CLIENT: set<string> := {"anon", "authenticated", "api_access_role"}

  /** What the role that serves requests can switch to, itself included. */
  const SWITCHED: set<string> := {"authenticator", "anon", "authenticated", "service_role", "api_access_role"}

  lemma BaseCloses(names: Names, i: nat)
    requires i < 9
    ensures var r := if i < 7 then BaseRoles(names)[i] else PowerSyncRoles(names)[i - 7];
            && (r.name in CLIENT ==> forall b :: b in r.inRoles ==> b in CLIENT)
            && (r.name in SWITCHED ==> forall b :: b in r.inRoles ==> b in SWITCHED && b != "authenticator")
            && WithRoleDefaults(r).inRoles == r.inRoles && WithRoleDefaults(r).name == r.name
  {
    match i {
      case 0 =>
      case 1 =>
      case 2 =>
      case 3 =>
      case 4 =>
      case 5 =>
      case 6 =>
      case 7 =>
      case _ =>
    }
  }

  /** Where the i-th managed role comes from. */
  lemma ManagedAt(d: Defaults, project: string, db: DatabaseSpec, powersync: bool, names: Names, i: nat)
    requires i < |BuildCluster(d, project, db, powersync, names).managed.value|
    ensures var role := BuildCluster(d, project, db, powersync, names).managed.value[i];
            var own := Generated(BuildCluster(d, project, db, powersync, names), db);
            if 7 <= i < 7 + |db.additionalRoles| then role == db.additionalRoles[i - 7]
            else var j := if i < 7 then i else i - |db.additionalRoles|; j < |own| && role == own[j]
  {
    GeneratedIs(d, project, db, powersync, names);
    hide BuildCluster;
  }

  lemma ManagedCloses(d: Defaults, project: string, db: DatabaseSpec, powersync: bool, names: Names, own: set<string>)
    requires Apart(db, own) && (own == CLIENT || own == SWITCHED)
    ensures Closed(BuildCluster(d, project, db, powersync, names).managed.value, own)
  {
    var managed := BuildCluster(d, project, db, powersync, names).managed.value;
    hide BuildCluster, BaseRoles, PowerSyncRoles, WithRoleDefaults, Generated;
    forall i | 0 <= i < |managed| && managed[i].name in own
      ensures forall b :: b in managed[i].inRoles ==> b in own
    {
      ManagedAt(d, project, db, powersync, names, i);
      var j := if i < 7 then i else i - |db.additionalRoles|;
      RoleAt(d, project, db, powersync, names, j);
      BaseCloses(names, j);
    }
  }

  /** Whatever roles a user declares beside these three: along every chain of memberships
      from the anonymous and the authenticated role there are only roles that neither log in nor
      bypass row-level security, and that create and replicate nothing. */
  lemma ClientsAreConfined(d: Defaults, project: string, db: DatabaseSpec, powersync: bool, names: Names,
      path: seq<string>, i: nat)
    requires Apart(db, CLIENT)
    requires var managed := BuildCluster(d, project, db, powersync, names).managed.value;
             Path(managed, path) && (path[0] == "anon" || path[0] == "authenticated")
             && i < |managed| && managed[i].name == path[|path| - 1]
    ensures var r := BuildCluster(d, project, db, powersync, names).managed.value[i];
            !r.login && !r.bypassRLS && !r.replication && !r.createDB && !r.createRole && r.password == NoSecret
  {
    ManagedCloses(d, project, db, powersync, names, CLIENT);
    hide BuildCluster, BaseRoles, PowerSyncRoles, Generated, Closed;
    StaysInside(BuildCluster(d, project, db, powersync, names).managed.value, CLIENT, path);
    ManagedAt(d, project, db, powersync, names, i);
    RolesByName(d, project, db, powersync, names);
  }

  /** Whatever roles a user declares beside these five: along every chain of memberships from the
      role that serves requests the only further power is to bypass row-level security, as the
      service role; it inherits none of them and has to switch. */
  lemma AuthenticatorIsConfined(d: Defaults, project: string, db: DatabaseSpec, powersync: bool, names: Names,
      path: seq<string>, i: nat)
    requires Apart(db, SWITCHED)
    requires var managed := BuildCluster(d, project, db, powersync, names).managed.value;
             Path(managed, path) && path[0] == "authenticator" && i < |managed| && managed[i].name == path[|path| - 1]
    ensures var r := BuildCluster(d, project, db, powersync, names).managed.value[i];
            && !r.replication && !r.createDB && !r.createRole && (r.bypassRLS <==> r.name == "service_role")
            && (r.login <==> r.name == "authenticator") && (r.login ==> r.inherit == Some(false))
  {
    ManagedCloses(d, project, db, powersync, names, SWITCHED);
    hide BuildCluster, BaseRoles, PowerSyncRoles, Generated, Closed;
    StaysInside(BuildCluster(d, project, db, powersync, names).managed.value, SWITCHED, path);
    ManagedAt(d, project, db, powersync, names, i);
    RolesByName(d, project, db, powersync, names);
  }
}
