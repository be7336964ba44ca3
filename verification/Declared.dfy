/** What a complete pass leaves is what was declared, field by field. */
module Declared {
  import opened Kube
  import opened Pods
  import opened Clusters
  import opened World
  import opened Operator
  import opened Steps
  import opened Frames
  import opened Gates
  import opened Settled
  import opened Ordering
  import opened Settling
  import opened Idempotence
  import opened Delivery

  // ---- Credentials and rules ------------------------------------------------

  /** The referenced Secret holds a valid bundle, and its public keys are published. */
  predicate KeysPublished(c: Context, o: Objects) {
    && c.spec.credentialsSecret != "" && c.spec.credentialsSecret in c.ext.secrets
    && c.k.credentials(c.ext.secrets[c.spec.credentialsSecret]).Some?
    && Jwks in o.configMaps && o.configMaps[Jwks].data
       == map["jwks.json" := c.k.credentials(c.ext.secrets[c.spec.credentialsSecret]).value.jwks]
  }

  /** The sync rules are the inline text, or the text under their key in the referenced ConfigMap,
      not empty there; and they are valid. */
  predicate RulesInEffect(c: Context, text: string) {
    && c.spec.powersync.Some? && c.k.rulesValid(text)
    && var r := c.spec.powersync.value.rules;
       if r.configMapRef == "" then text == r.inline
       else r.configMapRef in c.ext.configMaps && "sync_rules.yaml" in c.ext.configMaps[r.configMapRef]
            && text == c.ext.configMaps[r.configMapRef]["sync_rules.yaml"] != ""
  }

  lemma RulesMeaning(c: Context, text: string)
    ensures Rules(c) == Some(text) <==> RulesInEffect(c, text)
  {
  }

  // ---- Custom variables -----------------------------------------------------

  /** The key is there, unless it may be missing. */
  predicate KeyThere(ref: KeyRef, sources: map<string, Data>) {
    && ref.name != "" && ref.key != ""
    && (!ref.optional ==> ref.name in sources && ref.key in sources[ref.name])
  }

  /** A variable that the operator does not own, with a value or one key of a Secret or a ConfigMap. */
  predicate VariableThere(c: Context, e: EnvEntry) {
    && !c.k.operatorOwned(e.name)
    && (|| e.source.Literal?
        || (e.source.FromKey? && e.source.mapKey.None? && e.source.secretKey.Some?
            && KeyThere(e.source.secretKey.value, c.ext.secrets))
        || (e.source.FromKey? && e.source.secretKey.None? && e.source.mapKey.Some?
            && KeyThere(e.source.mapKey.value, c.ext.configMaps)))
  }

  predicate VariablesThere(c: Context) { forall i :: 0 <= i < |c.spec.env| ==> VariableThere(c, c.spec.env[i]) }

  lemma VariablesMeaning(c: Context)
    ensures EnvReadable(c) <==> VariablesThere(c)
  {
    assert forall e :: EntryReadable(c, e) <==> VariableThere(c, e);
    hide EntryReadable, VariableThere;
  }

  /** An API that fails on a key makes the variables invalid, whatever it holds. */
  lemma ValidMeansReadable(c: Context, i: nat)
    requires EnvValid(c) && i < |c.spec.env|
    ensures VariableThere(c, c.spec.env[i]) && (c.spec.env[i].source.FromKey? ==> c.up(Serve(Auth), Get(100 + i)))
  {
    assert EntryValid(c, c.spec.env[i], i);
  }

  // ---- Stores ---------------------------------------------------------------

  predicate StoreAs(x: Option<Store>, project: string, s3: S3) {
    && x.Some? && LabelOf(x.value.meta.labels, Instance) == project
    && x.value.spec.destination == s3.destination && x.value.spec.endpoint == s3.endpoint
    && x.value.spec.credentials == s3.credentials
  }

  predicate KeysThere(c: Context, s3: S3) {
    && s3.credentials in c.ext.secrets && "ACCESS_KEY_ID" in c.ext.secrets[s3.credentials]
    && "SECRET_ACCESS_KEY" in c.ext.secrets[s3.credentials]
  }

  /** Backups go where they are declared to go, when they are declared to. */
  predicate BackupsAs(c: Context, o: Objects) {
    c.spec.database.backup.Some? && c.spec.database.backup.value.enabled ==>
      var b := c.spec.database.backup.value;
      && KeysThere(c, b.s3) && StoreAs(o.backup, c.name, b.s3) && o.backup.value.spec.retention == b.retention
      && o.backup.value.spec.wal == Some(if b.walCompression == "" then "gzip" else b.walCompression)
      && o.backup.value.spec.data == Some(if b.dataCompression == "" then "gzip" else b.dataCompression)
      && o.schedule.Some? && LabelOf(o.schedule.value.meta.labels, Instance) == c.name
      && o.schedule.value.spec == ScheduleSpec(if b.schedule == "" then "0 0 2 * * *" else b.schedule, c.name, "self",
                                               "plugin", "barman", o.schedule.value.spec.rest)
  }

  /** Recovery reads from where it is declared to. */
  predicate RecoveryAs(c: Context, o: Objects) {
    c.spec.database.recovery.Some? && c.spec.database.recovery.value.enabled ==>
      KeysThere(c, c.spec.database.recovery.value.s3) && StoreAs(o.recovery, c.name, c.spec.database.recovery.value.s3)
  }

  // ---- The database ---------------------------------------------------------

  /** The Cluster is the project's and has every mutable field of the declaration as CNPG defaults
      it; all its instances are ready, and the status says what it reports. */
  predicate DatabaseAs(c: Context, o: Objects, m: Status) {
    && o.cluster.Some? && LabelOf(o.cluster.value.meta.labels, Instance) == c.name
    && o.cluster.value.status.ready >= o.cluster.value.spec.instances
    && m.database == DatabaseStatus(true, o.cluster.value.status.phase, o.cluster.value.status.ready,
                                    o.cluster.value.status.primary)
    && m.endpoints == Endpoints(true, true)
    && var x := o.cluster.value.spec;
       var d := c.k.defaulting(BuildCluster(c.k.defaults, c.name, c.spec.database, c.spec.powersync.Some?, m.names));
       && x.instances == d.instances && x.resources == d.resources && x.parameters == d.parameters && x.hba == d.hba
       && x.libraries == d.libraries && x.antiAffinity == d.antiAffinity
       && (d.image != "" ==> x.image == d.image) && (d.superuser.Some? ==> x.superuser == d.superuser)
       && (d.storage.size != "" ==> x.storage.size == d.storage.size)
       && (d.managed.Some? && d.managed != Some([]) ==> x.managed == d.managed)
       && FirstBarman(x.plugins) == FirstBarman(d.plugins)
  }

  // ---- Services -------------------------------------------------------------

  /** The component's Service sends to the component's pods of this project only. */
  predicate SelectsAs(c: Context, o: Objects, comp: Component) {
    && comp in o.services && o.services[comp].ports == c.k.ports(comp)
    && o.services[comp].selector
       == map[Instance := c.name, LabelKey.Component := c.k.component(ServiceAt(comp))]
  }

  lemma ServiceMeaning(c: Context, o: Objects, comp: Component)
    requires ServiceKept(c, o, comp)
    ensures SelectsAs(c, o, comp) && Controls(o.services[comp].meta.owners, c.uid)
  {
    KeptIsControlled(c, o.services[comp].meta.owners);
    hide WithController, Controls;
  }

  /** An owner list that taking control leaves as it is has the project as its controller. */
  lemma KeptIsControlled(c: Context, owners: seq<OwnerRef>)
    requires WithController(owners, Self(c)) == Some(owners)
    ensures Controls(owners, c.uid)
  {
    hide ParseGroup, Upsert;
    SelfIsSelf(c);
    WithControllerIdempotent(owners, Self(c));
    var i := FirstController(owners);
    hide ControllerOf, WithController;
  }

  // ---- Pods -----------------------------------------------------------------

  /** The hash of the bundle in effect. */
  function BundleHash(c: Context): string {
    if c.spec.credentialsSecret != "" && c.spec.credentialsSecret in c.ext.secrets
       && c.k.credentials(c.ext.secrets[c.spec.credentialsSecret]).Some?
    then c.k.credentials(c.ext.secrets[c.spec.credentialsSecret]).value.hash else ""
  }

  /** The pods of a core service are as built, but for the annotations that roll them: the hash
      of the hook secret on Auth's when the hook is on, and on all but the metadata service's,
      which consumes no credential, the hash of the bundle. */
  ghost predicate PodsAs(c: Context, o: Objects, m: Status, comp: Component) {
    && comp in o.deployments
    && var x, built := Normal(o.deployments[comp].template), Normal(c.k.template(c.name, c.spec, m.names, comp));
       && x.(annotations := map[]) == built.(annotations := map[])
       && (comp == MetaApi ==> x.annotations == built.annotations)
       && (comp != MetaApi && BundleHash(c) != "" ==>
             CredentialsHash in x.annotations && x.annotations[CredentialsHash] == BundleHash(c))
       && (comp == Auth && c.spec.emailHook ==>
             && EmailHook in o.secrets && c.k.hookValid(o.secrets[EmailHook].data)
             && EmailHookHash in x.annotations
             && x.annotations[EmailHookHash]
                == c.k.sha(if "secret" in o.secrets[EmailHook].data then o.secrets[EmailHook].data["secret"] else ""))
       && (forall key :: key != CredentialsHash && key != EmailHookHash ==>
             SameKey(x.annotations, built.annotations, key))
  }

  /** Normalising neither reads nor moves annotations. */
  lemma NormalApart(t: PodTemplate, u: PodTemplate)
    requires t.(annotations := map[]) == u.(annotations := map[])
    ensures Normal(t).(annotations := map[]) == Normal(u).(annotations := map[])
    ensures Normal(t).annotations == t.annotations && Normal(u).annotations == u.annotations
  {
    hide NormalVolumes, NormalContainers;
  }

  lemma TemplateMeaning(c: Context, o: Objects, m: Status, comp: Component)
    requires TemplateFor(c, o, m, comp).Some? && comp in o.deployments
    requires Normal(o.deployments[comp].template) == Normal(TemplateFor(c, o, m, comp).value)
    ensures PodsAs(c, o, m, comp)
  {
    hide Normal;
    NormalApart(TemplateFor(c, o, m, comp).value, c.k.template(c.name, c.spec, m.names, comp));
  }

  // ---- A complete pass ------------------------------------------------------

  lemma LeavesStable(c: Context, o: Objects, status: Status, ph: Phase)
    requires Faithful(c.k) && Pass(c, o, status).outcome == Next && Planned(c, ph)
    ensures Stable(c, Pass(c, o, status).state.o, Pass(c, o, status).state.saved, ph)
  {
    hide *;
    CompletePassSaves(c, o, status);
    PlannedInPlan(c, ph);
    PassSettles(c, o, status, ph);
  }

  /** A complete pass has published the keys of a valid bundle. */
  lemma CompletePassPublishesKeys(c: Context, o: Objects, status: Status)
    requires Faithful(c.k) && Pass(c, o, status).outcome == Next
    ensures KeysPublished(c, Pass(c, o, status).state.o)
  {
    hide Pass, Faithful, Stable, MapKept, Planned;
    PlannedPhases(c);
    LeavesStable(c, o, status, CheckCredentials);
    LeavesStable(c, o, status, JwksMap);
    StableSecrets(c, Pass(c, o, status).state.o, Pass(c, o, status).state.saved);
    KeysMeaning(c, Pass(c, o, status).state.o, Pass(c, o, status).state.saved);
  }

  lemma KeysMeaning(c: Context, o: Objects, m: Status)
    requires Bundle(c).Some? && Stable(c, o, m, JwksMap)
    ensures KeysPublished(c, o)
  {
    hide SecretsStable, StorageStable, GatesStable, WorkloadsStable, Ours, WithController, MergedLabels;
  }

  /** A complete pass has backups and recovery set up as declared. */
  lemma CompletePassStores(c: Context, o: Objects, status: Status)
    requires Faithful(c.k) && Pass(c, o, status).outcome == Next
    ensures BackupsAs(c, Pass(c, o, status).state.o) && RecoveryAs(c, Pass(c, o, status).state.o)
  {
    hide Pass, Faithful, Stable, StoreKept, ScheduleKept, S3Present, BackupDeclared, RecoveryDeclared, BackupsAs,
         RecoveryAs;
    var p, m := Pass(c, o, status).state.o, Pass(c, o, status).state.saved;
    StableBackup(c, p, m);
    StableRecovery(c, p, m);
    if BackupEnabled(c.spec.database) {
      LeavesStable(c, o, status, BackupCredentials);
      LeavesStable(c, o, status, BackupStore);
      LeavesStable(c, o, status, BackupSchedule);
    }
    if RecoveryEnabled(c.spec.database) {
      LeavesStable(c, o, status, RecoveryCredentials);
      LeavesStable(c, o, status, RecoveryStore);
    }
    BackupsMeaning(c, p);
    RecoveryMeaning(c, p);
  }

  lemma BackupsMeaning(c: Context, o: Objects)
    requires BackupEnabled(c.spec.database) ==>
               && S3Present(c, BackupDeclared(c).s3.credentials)
               && StoreKept(c, o, DurableBackup, BackupSpecOf(BackupDeclared(c)))
               && ScheduleKept(c, o, ScheduleOf(c, BackupDeclared(c)))
    ensures BackupsAs(c, o)
  {
    hide Repaired;
  }

  lemma RecoveryMeaning(c: Context, o: Objects)
    requires RecoveryEnabled(c.spec.database) ==>
               && S3Present(c, RecoveryDeclared(c).s3.credentials)
               && StoreKept(c, o, DurableRecovery, RecoverySpecOf(RecoveryDeclared(c)))
    ensures RecoveryAs(c, o)
  {
    hide Repaired;
  }

  /** A complete pass has the database as declared and up. */
  lemma CompletePassRunsDatabase(c: Context, o: Objects, status: Status)
    requires Faithful(c.k) && Pass(c, o, status).outcome == Next
    ensures DatabaseAs(c, Pass(c, o, status).state.o, Pass(c, o, status).state.saved)
  {
    hide Pass, Faithful, Stable, ClusterKept, DatabaseKept, Served, Planned, DatabaseAs;
    var p, m := Pass(c, o, status).state.o, Pass(c, o, status).state.saved;
    PlannedPhases(c);
    LeavesStable(c, o, status, EnsureCluster);
    LeavesStable(c, o, status, WaitForDatabase);
    LeavesStable(c, o, status, Serve(Gateway));
    StableCluster(c, p, m);
    Settled.StableServe(c, p, m, Gateway);
    DatabaseMeaning(c, p, m);
  }

  lemma DatabaseMeaning(c: Context, o: Objects, m: Status)
    requires ClusterKept(c, o, m.names) && DatabaseKept(c, o, m) && Served(c, o, m, Gateway)
    ensures DatabaseAs(c, o, m)
  {
    hide BuildCluster, IntentChanged, Repaired, StorageAccepted, DeploymentKept, ServiceKept, MapKept, TemplateFor,
         Marked, FirstBarman, MergedPlugins;
    var x, d := o.cluster.value.spec, Desired(c, m.names);
    assert MergedPlugins(x.plugins, FirstBarman(d.plugins)) == x.plugins;
    BarmanMerged(x.plugins, d.plugins);
  }

  lemma BarmanMerged(existing: seq<Plugin>, desired: seq<Plugin>)
    requires MergedPlugins(existing, FirstBarman(desired)) == existing
    ensures FirstBarman(existing) == FirstBarman(desired)
  {
    hide MergedPlugins;
    MergedPluginsFacts(existing, FirstBarman(desired));
  }

  /** A complete pass has every core service behind a Service of its own, its pods as built and
      annotated, and both under the project's control. */
  lemma CompletePassRunsServices(c: Context, o: Objects, status: Status, comp: Component)
    requires Faithful(c.k) && Pass(c, o, status).outcome == Next && IsCore(comp)
    ensures var r := Pass(c, o, status).state;
            && SelectsAs(c, r.o, comp) && PodsAs(c, r.o, r.saved, comp)
            && IsOurs(c, r.o, ServiceAt(comp)) && IsOurs(c, r.o, DeploymentAt(comp))
    ensures comp == Auth ==> VariablesThere(c)
  {
    hide Pass, Faithful, Stable, Served, Planned, PodsAs, SelectsAs, IsOurs, VariablesThere, IsCore;
    PlannedPhases(c);
    LeavesStable(c, o, status, Serve(comp));
    Settled.StableServe(c, Pass(c, o, status).state.o, Pass(c, o, status).state.saved, comp);
    ServedMeaning(c, Pass(c, o, status).state.o, Pass(c, o, status).state.saved, comp);
  }

  lemma ServedMeaning(c: Context, o: Objects, m: Status, comp: Component)
    requires Served(c, o, m, comp)
    ensures SelectsAs(c, o, comp) && PodsAs(c, o, m, comp) && IsOurs(c, o, ServiceAt(comp))
        && IsOurs(c, o, DeploymentAt(comp))
    ensures comp == Auth ==> VariablesThere(c)
  {
    hide WithController, Controls, PodsAs, TemplateFor, Normal, MapKept, EnvReadable, VariablesThere, SelectorFor,
         SelectsAs, Observed, Marked, Self;
    TemplateMeaning(c, o, m, comp);
    ServiceMeaning(c, o, comp);
    KeptIsControlled(c, o.deployments[comp].meta.owners);
    VariablesMeaning(c);
  }

  /** With PowerSync declared, a complete pass has rules in effect, and PowerSync's objects
      under the project's control, so that a later pass without PowerSync removes them. */
  lemma CompletePassRunsPowerSync(c: Context, o: Objects, status: Status) returns (text: string)
    requires Faithful(c.k) && Pass(c, o, status).outcome == Next && c.spec.powersync.Some?
    ensures RulesInEffect(c, text)
    ensures var p := Pass(c, o, status).state.o;
            && SelectsAs(c, p, PsApi) && IsOurs(c, p, ServiceAt(PsApi)) && IsOurs(c, p, DeploymentAt(PsApi))
            && IsOurs(c, p, DeploymentAt(PsReplicator)) && IsOurs(c, p, MapAt(PsConfig))
            && IsOurs(c, p, MapAt(CdcScript)) && IsOurs(c, p, JobAt) && IsOurs(c, p, PublicationAt)
  {
    hide Pass, Faithful, Stable, Planned, SelectsAs, IsOurs, RulesInEffect;
    var p, m := Pass(c, o, status).state.o, Pass(c, o, status).state.saved;
    PlannedPhases(c);
    PlannedWorkloads(c);
    LeavesStable(c, o, status, RulesGate);
    LeavesStable(c, o, status, CdcMap);
    LeavesStable(c, o, status, CdcJob);
    LeavesStable(c, o, status, PublicationGate);
    LeavesStable(c, o, status, PsConfigMap);
    LeavesStable(c, o, status, PsApiDeployment);
    LeavesStable(c, o, status, PsApiService);
    LeavesStable(c, o, status, PsReplicatorDeployment);
    StableGates(c, p, m);
    text := Rules(c).value;
    RulesMeaning(c, text);
    PowerSyncMeaning(c, p, m);
  }

  lemma PlannedWorkloads(c: Context)
    requires c.spec.powersync.Some?
    ensures Planned(c, PsConfigMap) && Planned(c, PsApiDeployment) && Planned(c, PsApiService)
        && Planned(c, PsReplicatorDeployment)
  {
    hide BackupEnabled, RecoveryEnabled;
  }

  lemma PowerSyncMeaning(c: Context, o: Objects, m: Status)
    requires Stable(c, o, m, CdcMap) && Stable(c, o, m, CdcJob) && Stable(c, o, m, PublicationGate)
    requires Stable(c, o, m, PsConfigMap) && Stable(c, o, m, PsApiDeployment) && Stable(c, o, m, PsApiService)
        && Stable(c, o, m, PsReplicatorDeployment)
    ensures SelectsAs(c, o, PsApi) && IsOurs(c, o, ServiceAt(PsApi)) && IsOurs(c, o, DeploymentAt(PsApi))
    ensures IsOurs(c, o, DeploymentAt(PsReplicator)) && IsOurs(c, o, MapAt(PsConfig)) && IsOurs(c, o, MapAt(CdcScript))
    ensures IsOurs(c, o, JobAt) && IsOurs(c, o, PublicationAt)
  {
    hide SelectsAs, Controls, WithController, Normal, MergedLabels, Self, SelectorFor, LabelsFor, ScriptData, Ours,
         DesiredPublication, Verdict, ScriptHash, Marked, PsTemplateFor, StrategyChanged, CompactKept, Rules, RolesUp,
         PublicationApplied, Stable, MapKept;
    StableGates(c, o, m);
    StableWorkloads(c, o, m);
    ServiceMeaning(c, o, PsApi);
    KeptIsControlled(c, o.deployments[PsApi].meta.owners);
    KeptIsControlled(c, o.deployments[PsReplicator].meta.owners);
    KeptIsControlled(c, o.job.value.meta.owners);
    KeptIsControlled(c, o.publication.value.meta.owners);
    ConfigStable(c, o, m);
    MapIsOurs(c, o, PsConfig, c.k.mapData(c.name, c.spec, PsConfig));
    MapIsOurs(c, o, CdcScript, ScriptData(c));
  }

  lemma ConfigStable(c: Context, o: Objects, m: Status)
    ensures Stable(c, o, m, PsConfigMap) == MapKept(c, o, PsConfig, c.k.mapData(c.name, c.spec, PsConfig))
  {
    hide SecretsStable, StorageStable, CoreStable, GatesStable, MapKept;
  }

  lemma MapIsOurs(c: Context, o: Objects, role: MapRole, data: Data)
    requires MapKept(c, o, role, data)
    ensures IsOurs(c, o, MapAt(role))
  {
    KeptIsControlled(c, o.configMaps[role].meta.owners);
    hide WithController, Controls, MergedLabels, Ours;
  }
}
