/** PowerSync's publication, its grants and the Job that applies them, when the platform
    builds the script as Grants does and its hash does not collide. */
module Replication {
  import opened Kube
  import Pods
  import opened World
  import opened Operator
  import opened Gates
  import opened Publications
  import opened Grants

  /** The script buildCDCSetupScript gives for a declaration. */
  function GrantScript(spec: Spec): Option<string> {
    var list := Effective(if spec.powersync.Some? then spec.powersync.value.schemas else None);
    if list.None? then None else Some(Rendered(ScriptLines(spec.powersync.Some?, list.value)))
  }

  ghost predicate Builds(k: Platform) {
    && (forall spec {:trigger k.cdcScript(spec)} :: k.cdcScript(spec) == GrantScript(spec))
    && (forall a, b {:trigger k.sha(a), k.sha(b)} :: k.sha(a) == k.sha(b) ==> a == b)
  }

  /** A script that grants the replication role usage, all tables and the owner's future tables
      of exactly these schemas, in order, and the storage role its own schema, and no more. */
  predicate GrantsExactly(script: string, schemas: seq<string>) {
    var grants := ReadGrants(LinesOf(script));
    grants == [STORAGE_GRANT] + NeededOnAll(schemas) && UsageOf(grants) == schemas
  }

  lemma ScriptGrants(c: Context)
    requires c.spec.powersync.Some? && GrantScript(c.spec).Some?
    ensures Schemas(c).Some? && GrantsExactly(GrantScript(c.spec).value, Schemas(c).value)
  {
    hide Rendered, ScriptLines, ReadGrants, LinesOf, UsageOf, NeededOnAll, Distinct, AllIdentifiers;
    ScriptAgrees(c.spec.powersync.value.schemas);
  }

  /** The text that was hashed into the annotation of the current Job. */
  lemma HashedScript(c: Context, o: Objects, script: string)
    requires Builds(c.k) && CurrentJobDone(c, o) && c.k.cdcScript(c.spec).Some?
        && c.k.sha(script) == HashOf(o.job.value)
    ensures GrantScript(c.spec) == Some(script)
  {
    hide GrantScript, HashOf, Verdict;
  }

  /** The Job is complete, the publication applied with the declared schemas, and a text the
      Job is annotated for grants exactly these. */
  predicate GrantedAsPublished(c: Context, o: Objects, script: string) {
    && o.job.Some? && Completed(o.job.value.conditions) && Published(c, o)
    && (Pods.CdcScriptHash in o.job.value.annotations
        && c.k.sha(script) == o.job.value.annotations[Pods.CdcScriptHash]
        ==> GrantsExactly(script, o.publication.value.spec.schemas))
  }

  lemma ListsAgree(c: Context, o: Objects)
    requires Published(c, o) && PublicationReady(c, o)
    ensures Schemas(c) == Some(o.publication.value.spec.schemas)
  {
  }

  lemma HashIsAnnotated(x: Job)
    ensures Pods.CdcScriptHash in x.annotations ==> HashOf(x) == x.annotations[Pods.CdcScriptHash]
  {
  }

  lemma AllowedIsGranted(c: Context, o: Objects, script: string)
    requires Builds(c.k) && c.spec.powersync.Some? && PowerSyncAllowed(c, o)
    ensures GrantedAsPublished(c, o, script)
  {
    hide Builds, GrantScript, GrantsExactly, HashOf, Verdict, Completed, RolesUp, Published, Schemas, RolesReported;
    AllowedMeaning(c, o);
    ListsAgree(c, o);
    HashIsAnnotated(o.job.value);
    if c.k.sha(script) == HashOf(o.job.value) {
      HashedScript(c, o, script);
      ScriptGrants(c);
    }
  }

  /** A pass that writes a PowerSync Deployment leaves grants and publication in agreement,
      whatever text its Job is annotated for. */
  lemma GrantsMatchPublication(c: Context, o: Objects, status: Status, script: string)
    requires Builds(c.k) && c.spec.powersync.Some?
    requires exists slot :: IsPowerSyncWorkload(slot) && ObjectWrite(slot) in Pass(c, o, status).state.log
    ensures GrantedAsPublished(c, Pass(c, o, status).state.o, script)
  {
    hide *;
    PowerSyncGate(c, o, status);
    AllowedIsGranted(c, Pass(c, o, status).state.o, script);
  }

  /** One complete Job cannot be current for two declarations that publish different schemas. */
  lemma OneJobOneList(c: Context, d: Context, o: Objects)
    requires Builds(c.k) && d.k == c.k && c.spec.powersync.Some? && d.spec.powersync.Some?
    requires CurrentJobDone(c, o) && CurrentJobDone(d, o) && c.k.cdcScript(c.spec).Some? && c.k.cdcScript(d.spec).Some?
    ensures Schemas(c) == Schemas(d)
  {
    hide GrantScript, HashOf, Verdict, CurrentJobDone;
    SameHash(c, d, o);
    ScriptNamesList(c, d);
  }

  lemma SameHash(c: Context, d: Context, o: Objects)
    requires Builds(c.k) && d.k == c.k && CurrentJobDone(c, o) && CurrentJobDone(d, o)
    requires c.k.cdcScript(c.spec).Some? && c.k.cdcScript(d.spec).Some?
    ensures GrantScript(c.spec) == GrantScript(d.spec)
  {
    hide GrantScript, HashOf, Verdict;
  }

  lemma ScriptNamesList(c: Context, d: Context)
    requires c.spec.powersync.Some? && d.spec.powersync.Some? && GrantScript(c.spec).Some?
        && GrantScript(c.spec) == GrantScript(d.spec)
    ensures Schemas(c) == Schemas(d)
  {
    hide Rendered, ScriptLines, Distinct, AllIdentifiers;
    ScriptIsInjective(c.spec.powersync.value.schemas, d.spec.powersync.value.schemas);
  }
}
