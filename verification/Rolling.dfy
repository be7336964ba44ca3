/** When a rotation or a new configuration rolls the pods: the annotations a complete pass
    leaves are the same exactly when what they hash is, for a hash that does not collide. */
module Rolling {
  import opened Kube
  import opened Pods
  import opened Clusters
  import opened World
  import opened Operator
  import opened Frames
  import opened Durables
  import opened Gates
  import opened Settled
  import opened Ordering
  import opened Settling
  import opened Idempotence
  import Bundles = Credentials
  import Rollout

  /** The bundle of a Secret, field by field. */
  function FieldsOf(data: Data): Bundles.Fields {
    map f | f in Bundles.REQUIRED && Bundles.FieldName(f) in data :: data[Bundles.FieldName(f)]
  }

  /** The five values of the bundle a declaration refers to. */
  function BundleValue(c: Context, f: Bundles.Field): string {
    var data: Data := if c.spec.credentialsSecret in c.ext.secrets then c.ext.secrets[c.spec.credentialsSecret]
        else map[];
    Bundles.ValueOf(FieldsOf(data), map[], f)
  }

  /** A hash that does not collide, and is taken of a bundle as ValidateProjectCredentials takes it. */
  ghost predicate Digests(k: Platform) {
    && (forall a, b {:trigger k.sha(a), k.sha(b)} :: k.sha(a) == k.sha(b) ==> a == b) && (forall a :: k.sha(a) != "")
    && (forall data :: k.credentials(data).Some? ==>
          k.credentials(data).value.hash
              == k.sha(Bundles.Preimage(Bundles.Values(FieldsOf(data), map[]), Bundles.REQUIRED)))
  }

  /** The generated configuration is the fixed text around one quoted URL. */
  ghost predicate Configures(k: Platform, t: Rollout.Template, printable: Rollout.Printable,
      url: (string, Spec) -> string) {
    && Rollout.NUL !in t.head && Rollout.NUL !in t.tail
    && forall name, spec ::
        k.mapData(name, spec, PsConfig) == map[CONFIG_KEY := Rollout.Config(t, printable, url(name, spec))]
  }

  function AnnotationOf(o: Objects, comp: Component, key: AnnotationKey): Option<string> {
    if comp in o.deployments && key in o.deployments[comp].template.annotations
    then Some(o.deployments[comp].template.annotations[key]) else None
  }

  // ---- What a complete pass annotates ---------------------------------------

  /** What the annotation of the PowerSync pods hashes. */
  function RolloutText(c: Context): string {
    var data := c.k.mapData(c.name, c.spec, PsConfig);
    (if CONFIG_KEY in data then data[CONFIG_KEY] else "") + "\0" + if Rules(c).Some? then Rules(c).value else ""
  }

  lemma KeptAnnotations(c: Context, o: Objects, comp: Component, template: PodTemplate)
    ensures DeploymentKept(c, o, comp, template)
        ==> comp in o.deployments && o.deployments[comp].template.annotations == template.annotations
  {
    hide WithController, StrategyChanged, Self;
  }

  lemma PowerSyncAnnotated(c: Context, o: Objects, m: Status, comp: Component)
    requires SettledWorld(c, o, m) && c.spec.powersync.Some? && IsPs(comp)
    ensures Rules(c).Some? && AnnotationOf(o, comp, PowerSyncConfigHash) == Some(c.k.sha(RolloutText(c)))
  {
    hide AllUnowned, Stable, Planned, DeploymentKept, ServiceKept, CompactKept, RolesUp, PublicationKept, ScriptKept,
         JobKept, Marked, Rules;
    PlannedKinds(c);
    StableWorkloads(c, o, m);
    StableGates(c, o, m);
    KeptAnnotations(c, o, comp, PsTemplateFor(c, o, m, comp));
  }

  lemma CoreAnnotated(c: Context, o: Objects, m: Status, comp: Component)
    requires SettledWorld(c, o, m) && IsCore(comp) && comp != MetaApi
    ensures Bundle(c).Some?
        && (CredentialHash(c) != "" ==> AnnotationOf(o, comp, CredentialsHash) == Some(CredentialHash(c)))
  {
    hide AllUnowned, Stable, Planned, DeploymentKept, ServiceKept, MapKept, EnvReadable, Observed, Marked,
         ConditionOf, SecretKept, TokenKept, HookKept, NamesKept, RoleSecretsKept, Bundle, AuthTemplate, BaseTemplate;
    PlannedPhases(c);
    StableSecrets(c, o, m);
    StableServe(c, o, m, comp);
    KeptAnnotations(c, o, comp, TemplateFor(c, o, m, comp).value);
  }

  // ---- What the annotations tell --------------------------------------------

  /** After two complete passes the PowerSync pods carry one annotation exactly when
      configuration and sync rules were the same. */
  lemma SameConfigSameRollout(c: Context, d: Context, t: Rollout.Template, printable: Rollout.Printable,
      url: (string, Spec) -> string,
                              o: Objects, st: Status, p: Objects, su: Status, comp: Component)
    requires d.k == c.k && Faithful(c.k) && Digests(c.k) && Configures(c.k, t, printable, url)
    requires c.spec.powersync.Some? && d.spec.powersync.Some? && IsPs(comp)
    requires Pass(c, o, st).outcome == Next && Pass(d, p, su).outcome == Next
    ensures AnnotationOf(Pass(c, o, st).state.o, comp, PowerSyncConfigHash)
        == AnnotationOf(Pass(d, p, su).state.o, comp, PowerSyncConfigHash)
        <==> c.k.mapData(c.name, c.spec, PsConfig) == d.k.mapData(d.name, d.spec, PsConfig) && Rules(c) == Rules(d)
  {
    hide Pass, SettledWorld, Faithful, Rules, Rollout.Config;
    CompletePassSettles(c, c, o, st);
    CompletePassSettles(d, d, p, su);
    PowerSyncAnnotated(c, Pass(c, o, st).state.o, Pass(c, o, st).state.memory, comp);
    PowerSyncAnnotated(d, Pass(d, p, su).state.o, Pass(d, p, su).state.memory, comp);
    var a, b := url(c.name, c.spec), url(d.name, d.spec);
    if Rollout.Hashed(Rollout.Config(t, printable, a), Rules(c).value)
        == Rollout.Hashed(Rollout.Config(t, printable, b), Rules(d).value) {
      Rollout.HashedTextIsUnambiguous(t, printable, a, Rules(c).value, b, Rules(d).value);
    }
  }

  lemma {:induction false} PreimageReads(v: Bundles.Field -> string, w: Bundles.Field -> string,
      fields: seq<Bundles.Field>)
    requires forall f :: f in fields ==> v(f) == w(f)
    ensures Bundles.Preimage(v, fields) == Bundles.Preimage(w, fields)
  {
    if fields != [] {
      assert fields[0] in fields;
      PreimageReads(v, w, fields[1..]);
    }
  }

  lemma CredentialHashes(c: Context, d: Context)
    requires d.k == c.k && Digests(c.k) && Bundle(c).Some? && Bundle(d).Some?
    ensures CredentialHash(c) != ""
    ensures CredentialHash(c) == CredentialHash(d)
            <==> forall f :: f in Bundles.REQUIRED ==> BundleValue(c, f) == BundleValue(d, f)
  {
    hide FieldsOf, Bundles.ValueOf, Bundles.Preimage;
    var x, y := FieldsOf(c.ext.secrets[c.spec.credentialsSecret]), FieldsOf(d.ext.secrets[d.spec.credentialsSecret]);
    var v, w := Bundles.Values(x, map[]), Bundles.Values(y, map[]);
    if Bundles.Preimage(v, Bundles.REQUIRED) == Bundles.Preimage(w, Bundles.REQUIRED) {
      Bundles.HashedTextIsUnambiguous(x, map[], y, map[]);
    }
    if forall f :: f in Bundles.REQUIRED ==> v(f) == w(f) {
      PreimageReads(v, w, Bundles.REQUIRED);
    }
  }

  /** After two complete passes the pods of a service that consumes credentials carry one
      annotation exactly when the bundles held the same five values. */
  lemma SameBundleSameRollout(c: Context, d: Context, o: Objects, st: Status, p: Objects, su: Status, comp: Component)
    requires d.k == c.k && Faithful(c.k) && Digests(c.k) && IsCore(comp) && comp != MetaApi
    requires Pass(c, o, st).outcome == Next && Pass(d, p, su).outcome == Next
    ensures AnnotationOf(Pass(c, o, st).state.o, comp, CredentialsHash)
        == AnnotationOf(Pass(d, p, su).state.o, comp, CredentialsHash)
        <==> forall f :: f in Bundles.REQUIRED ==> BundleValue(c, f) == BundleValue(d, f)
  {
    hide Pass, SettledWorld, Faithful, CredentialHash, Bundle, BundleValue, Digests, AnnotationOf;
    CompletePassSettles(c, c, o, st);
    CompletePassSettles(d, d, p, su);
    CoreAnnotated(c, Pass(c, o, st).state.o, Pass(c, o, st).state.memory, comp);
    CoreAnnotated(d, Pass(d, p, su).state.o, Pass(d, p, su).state.memory, comp);
    CredentialHashes(c, d);
    CredentialHashes(d, c);
  }
}
