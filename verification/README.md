# A verified model of the Supabase operator

This project models the Kubernetes operator that turns a `SupabaseProject` into a CNPG
database, core services, a gateway and PowerSync, and proves what its reconciliation
keeps, converges to and repeats. One pass of `Reconcile` is a function over the objects
of one project, its status and a context (declaration, clock, random draw, and which API
calls succeed); it is an ordered plan of phases, each of which goes on, asks to be called
again, or fails. What the source does in place (owner compaction, label and template
normalisation, the merge into a retained Cluster, the Deployment, ConfigMap and Job
handlers, status writes) is written as it runs, in a class proved equal to the function;
of the pass itself phase 0, the init map, the Cluster, the Job and the two PowerSync
Deployments are statements, and every other phase is taken from the function.
Around the pass stand the environment (edits, deletion, re-creation, garbage collection,
other controllers, removals by hand) and four smaller parts: the credential pipeline, the
gateway's Lua filters, the PowerSync schema list, and the GoTrue environment merge.

| file | what it holds |
|---|---|
| `Kube`, `Pods` | owner references, labels, and pod-template defaulting, in place |
| `Clusters`, `Roles` | building the Cluster and its roles, merging a retained one in place, the immutability test |
| `World`, `Operator`, `Steps` | objects, status and context; the pass as a function, phase by phase |
| `Reconciling` | the pass as it runs, proved equal to `Operator`, and what it guarantees |
| `Frames`, `Durables`, `Gates`, `Chain` | what each phase writes; durable objects; the gates; the status chain |
| `Runs` | safety over runs of passes and environment steps |
| `Settled`, `Keeping`, `Ordering`, `Settling`, `Idempotence` | what a complete pass leaves, and that the next one leaves it |
| `Delivery`, `Declared`, `Foreign` | the same in the fields of the objects: workloads in service, all as declared, PowerSync removed, and what belongs to others |
| `Progress`, `Arrivals`, `Endings` | phases do not fail; how a pass comes to a phase; where every pass ends and what Ready says then |
| `Convergence`, `Witness` | a measure falls until a pass completes, and the hypotheses are met |
| `Text`, `Base64`, `Credentials`, `Wizard`, `Rollout` | the credential pipeline and the hashed texts |
| `Envoy`, `Gateway` | the filter chain; the chain under an accepted credential bundle |
| `Publications`, `Grants`, `Replication` | schema list, grant script, and their agreement with the Job a pass waits for |
| `Rolling` | the hashes above as a complete pass annotates the pods with them |
| `GoTrue`, `Naming` | environment merge, object names |

## Findings

Three promises do not hold as written; for each the model gives the input and the exact
condition.

- **Ready and the database.** The repository's `README.md:331-334` says that Ready is
  reported only after the database and any PowerSync workloads are ready. The gates before
  the core services (`supabaseproject_controller.go:157-163`, 548-621, 893-899) and those of
  PowerSync (236-246, 2145-2150) set their own condition and leave an earlier Ready alone.
  For every pass with succeeding calls, valid inputs and nothing foreign beside the Cluster
  that starts Ready and DatabaseReady, whatever was declared or removed since: it ends Ready
  without DatabaseReady if and only if the declaration would change the Cluster's origin, or
  there is no Cluster, or its declared storage is refused, or the Cluster needs no update and
  fewer instances are ready than declared (`Endings.ReadyMeansDatabase`,
  `Endings.CurrentInstances`; for any inputs, by the phase it ends at,
  `Endings.ReadyWithoutDatabase`). When PowerSync is declared, the inputs are valid but perhaps
  for the sync rules, and such a pass starts Ready and PowersyncReady, it ends Ready without
  PowersyncReady if and only if the core is up on its database and the sync rules are invalid,
  or roles, publication and Job are in order besides and a workload is not rolled out
  (`Endings.ReadyMeansPowerSync`; for any inputs, by the phase it ends at,
  `Endings.ReadyWithoutPowerSync`, and for CDCReady `Endings.ReadyWithoutGrants`).
  `Witness.ReadyWithoutDatabase` gives the case of lost instances for every sound project,
  `Witness.ReadyWithoutCluster` that of a removed Cluster, and `Witness.ProjectWithoutDatabase`
  a concrete project.
- **Opaque keys in the URL.** The filter that replaces a query key reads parts as
  `^([^=]+)=`, the one that finds it scans `([^&=]+)=([^&]*)`. A key behind a leading equals
  sign (`?=apikey=K`) is therefore translated but stays in the forwarded URL
  (`Envoy.KeyStays`). For every forwarded request whose query key translates, the URL still
  shows an opaque key if and only if one of its parts has such a key behind a leading equals
  sign (`Envoy.KeyLeavesPath`, `Envoy.ForwardedQuery`).
- **`changed` and managed roles.** `reconcileClusterMutableFields` may turn absent managed
  roles into an empty section without reporting a change (785-787). For every declaration an
  accepted merge reports a change exactly when it made one, if and only if an empty roles
  section is not the only thing to appear (`Clusters.ReportIsTrue`);
  `Clusters.ChangeGoesUnreported` is an input. A declaration that `BuildCluster` makes always
  has roles, so for it `changed` is exact (`Clusters.MergeIsExact`).

## Model

| member | source | states |
|---|---|---|
| `Kube.RemoveProjectOwner` | internal/controller/supabaseproject_controller.go:1264-1286 | compacting the owner array in place leaves exactly the owners that are not this project, in order, and reports a change exactly when one was dropped |
| `Kube.ProjectOwnerMeaning` | internal/controller/supabaseproject_controller.go:1264-1286 | the references that count are exactly those with the kind and name of the project, under any version of its group |
| `Kube.WithoutProjectConcat` | internal/controller/supabaseproject_controller.go:1264-1286 | the filter distributes over concatenation, so every other owner keeps its place |
| `Kube.WithoutProjectIdempotent` | internal/controller/supabaseproject_controller.go:1264-1286 | a second filtering removes nothing more |
| `Kube.MergeLabels` | internal/controller/supabaseproject_controller.go:1288-1305 | whatever the order of the range, the labels end merged and `changed` says whether they moved |
| `Kube.WithControllerIdempotent` | internal/controller/supabaseproject_controller.go:1313-1333 | taking control of an object twice is taking it once, and the project is its controller afterwards |
| `Kube.ControlMeaning` | internal/controller/supabaseproject_controller.go:1307-1333 | taking control is refused exactly when the first controller among the owners is something else than the project |
| `Kube.UpsertMeaning` | internal/controller/supabaseproject_controller.go:1307-1333 | taking control replaces the first reference to the project or appends one, and moves no other |
| `Pods.TemplateCell.Normalize` | internal/controller/supabaseproject_controller.go:1419-1499 | mutating a template field by field and slice by slice gives its normal form |
| `Pods.StoredNormal` | internal/controller/supabaseproject_controller.go:1419-1499 | however many of the unset fields the API server has filled with its defaults, the stored template normalises like the submitted one |
| `Pods.NormalIsStored` | internal/controller/supabaseproject_controller.go:1419-1499 | the normal form is the template with each unset field at the default of the API, and no other field moved |
| `Pods.NormalIdempotent` | internal/controller/supabaseproject_controller.go:1419-1499 | normalising twice is normalising once |
| `Clusters.BuildParameters` | internal/resources/cnpg/cluster.go:363-372 | two ranges over maps yield the base overridden by the custom parameters |
| `Clusters.ApplyRoleDefaults` | internal/resources/cnpg/cluster.go:321-329 | every role of the slice gets its defaults in place |
| `Clusters.BuiltSettings` | internal/resources/cnpg/cluster.go:48-145 | size, anti-affinity, image, storage and resources as declared, each declared parameter over its default and all other defaults kept, declared libraries behind the default ones |
| `Clusters.BuiltOrigin` | internal/resources/cnpg/cluster.go:153-200 | one bootstrap, recovery exactly when it is switched on; the database belongs to the role the same Cluster declares with that password; recovery reads its one external cluster from the recovery store, and backups go to the other |
| `Clusters.BuiltIsDeclared` | internal/resources/cnpg/cluster.go:48-145 | a built Cluster always names an image, a superuser setting and managed roles |
| `Roles.RolesByName` | internal/resources/cnpg/cluster.go:202-329 | the generated roles are seven, and nine exactly when PowerSync is declared with both Secrets, under names of their own; by name: `service_role`, `supabase_admin` and `powersync_replication` bypass row-level security and no other, exactly the login roles have a Secret, the one given for them |
| `Roles.SecretsAreTheirOwn` | internal/resources/cnpg/cluster.go:202-329 | with the names the operator gives, exactly the roles that log in have a Secret, no two share one, and there are nine exactly when PowerSync is declared |
| `Roles.ClientsAreConfined` | internal/resources/cnpg/cluster.go:240-319 | along every chain of memberships from `anon` or `authenticated`, whatever roles a user declares beside them and `api_access_role`, no role logs in, bypasses row-level security, replicates or creates |
| `Roles.AuthenticatorIsConfined` | internal/resources/cnpg/cluster.go:240-319 | along every chain of memberships from `authenticator`, whatever roles a user declares beside those on it, the one role that bypasses row-level security is `service_role`, none but itself logs in, and it inherits none of them |
| `Clusters.ReconcileBarmanPlugin` | internal/controller/supabaseproject_controller.go:804-837 | every barman entry becomes the declared one or goes, foreign plugins stay in order, and `changed` is exact |
| `Clusters.ClusterCell.ReconcileStorage` | internal/controller/supabaseproject_controller.go:839-873 | a shrink or an unreadable quantity is refused with nothing changed, else exactly the declared storage fields are taken |
| `Clusters.ClusterCell.ReconcileMutableFields` | internal/controller/supabaseproject_controller.go:730-802 | the in-place merge is the merge function, and an error changes nothing |
| `Clusters.MergeIsExact` | internal/controller/supabaseproject_controller.go:730-873 | on success every projected field is the declaration's, all else is kept, `changed` is true exactly when something changed, and a second merge changes nothing; it is refused exactly when a declared size cannot be read, or meets one that cannot be read or is larger |
| `Clusters.ReportIsTrue` | internal/controller/supabaseproject_controller.go:730-802 | for every declaration an accepted merge reports a change exactly when it made one, if and only if an empty roles section is not the only thing to appear; then the change goes unreported and the next merge finds nothing to report |
| `Clusters.ChangeGoesUnreported` | internal/controller/supabaseproject_controller.go:785-787 | a retained Cluster and a declaration whose merge changes the spec and reports no change |
| `Clusters.MergeIsDetermined` | internal/controller/supabaseproject_controller.go:730-873 | any spec with those projected and kept parts is the merge, up to the place of the barman entry |
| `Clusters.StorageNeverShrinks` | internal/controller/supabaseproject_controller.go:839-873 | an accepted merge keeps at least the parsed capacity |
| `Clusters.IntentChangedMeaning` | internal/controller/supabaseproject_controller.go:631-718 | for two declarations of one project, whatever else differs, the immutability test fires exactly when recovery was switched on or off, or its server name or target time moved |
| `Clusters.OriginMeaning` | internal/controller/supabaseproject_controller.go:631-718 | for every retained Cluster, however it came about, and every declaration the test fires exactly when the Cluster was not created as declared: no recovery and an initdb, if any, for the declared role, or recovery whose source is the first external cluster of its name with the declared server, store and target time |
| `Gates.DeclaredIntentMeaning` | internal/controller/supabaseproject_controller.go:631-718 | the same with the Secret names the operator generates, without any premise on them |
| `Clusters.ForeignExternalsIgnored` | internal/controller/supabaseproject_controller.go:687-697 | external clusters under other names never alter the verdict, on either side |
| `Clusters.ExtraParametersIgnored` | internal/controller/supabaseproject_controller.go:706-718 | further plugin parameters of the source never alter the verdict |
| `Frames.StepEffect` | internal/controller/supabaseproject_controller.go:121-234 | every phase, whatever fails in it, writes only the objects that are its own, logs what it writes, moves only its own conditions, and away from the core services leaves phase, core services and observed generation alone |
| `Durables.StepMeta` | internal/controller/supabaseproject_controller.go:1264-1286 | in every phase a durable object keeps its instance label and loses at most the project's owner references |
| `Durables.PassProtects` | internal/controller/supabaseproject_controller.go:1551-1580 | a pass that gets past phase 0, even one that fails later, leaves every labelled durable object unowned by the project |
| `Durables.RunKeepsCluster` | internal/controller/supabaseproject_controller.go:573-621 | no phases rewrite bootstrap or external clusters of an existing Cluster, shrink its storage or delete it |
| `Gates.InvalidBundleGate` | internal/controller/supabaseproject_controller.go:321-366 | with a missing or invalid bundle the pass fails having changed nothing but owner references of durables and the status |
| `Gates.InvalidHookGate` | internal/controller/supabaseproject_controller.go:393-424 | with the email hook on and an invalid Secret there the pass fails, leaving that Secret as it is and touching at most implementation Secrets and owner references |
| `Gates.ChangedOriginGate` | internal/controller/supabaseproject_controller.go:154-164 | a pass over a Cluster that was not created as declared, or whose recovery store moved, fails having touched at most implementation Secrets besides owner references |
| `Gates.OriginMovesMeaning` | internal/controller/supabaseproject_controller.go:1586-1629 | that premise, stated over the stored Cluster and store, is exactly what the bootstrap check tests |
| `Gates.RecoverySourceKept` | internal/controller/supabaseproject_controller.go:1586-1629 | while a Cluster created by recovery exists no pass deletes its source store or moves its destination or endpoint |
| `Gates.JobGatePasses` | internal/controller/supabaseproject_controller.go:2329-2401 | a Job is taken for complete only with the hash of the current script in its annotation and a true Complete before any true Failed condition |
| `Gates.CompletedMeaning` | internal/controller/supabaseproject_controller.go:2329-2401 | the loop over conditions finds completion exactly when a true Complete stands before every true Failed |
| `Gates.PowerSyncGate` | internal/controller/supabaseproject_controller.go:199-218 | a pass that writes a PowerSync Deployment has in that pass seen both roles reported reconciled and neither as not reconcilable, the publication applied at its generation with exactly the accepted schemas, and the complete Job of the current script |
| `Chain.CdcReadyGate` | internal/controller/supabaseproject_controller.go:1933-1976 | a pass that turns CDCReady on has PowerSync declared and has seen the same roles, publication and Job |
| `Chain.StatusChain` | internal/controller/supabaseproject_controller.go:194-233 | at pass ends Ready implies Running and Running implies five core services reported ready (what that report means is `Delivery.ServicesAreShown`); a pass completes exactly when no phase stops it, then Running, Ready and at the current generation; else Ready stays exactly when it was on and the stop was not at a Secret, a core service or the core gate |
| `Delivery.ServicesAreShown` | internal/controller/supabaseproject_controller.go:982-1029 | a pass that got past the core services reports each ready exactly when its Deployment has the declared replicas, its current generation observed, that many updated, ready and available and none unavailable |
| `Delivery.CompletePassServes` | internal/controller/supabaseproject_controller.go:2232-2256 | a pass that completes leaves each core Deployment so in service, and saves it as ready |
| `Delivery.CompletePassServesPowerSync` | internal/controller/supabaseproject_controller.go:2061-2157 | with PowerSync declared it leaves both its workloads in service too |
| `Delivery.CompletePassFound` | internal/controller/supabaseproject_controller.go:1370-1417 | a pass that completes found every workload as it leaves it but for metadata: one it changed is of a generation nobody has observed, so the pass waits |
| `Delivery.PublicationChangeIsPending` | internal/controller/supabaseproject_controller.go:1985-2053 | an updated publication is at a generation not yet observed |
| `Delivery.PowerSyncIsRemoved` | internal/controller/supabaseproject_controller.go:2174-2230 | without PowerSync no pass, however it ends, changes an object of it that the project does not control, and a complete one leaves none that it does |
| `Delivery.PowerSyncIsForgotten` | internal/controller/supabaseproject_controller.go:2174-2209 | and a complete one saves no PowerSync condition or service |
| `Declared.CompletePassPublishesKeys` | internal/controller/supabaseproject_controller.go:321-357 | a complete pass has the public keys of a valid bundle in the published map |
| `Declared.CompletePassStores` | internal/controller/supabaseproject_controller.go:1632-1769 | a complete pass has the declared stores at destination and endpoint with their keys readable, retention, compression and schedule as declared or by default, and both under the project's label |
| `Declared.CompletePassRunsDatabase` | internal/controller/supabaseproject_controller.go:537-625 | a complete pass has the project's Cluster with every mutable field as declared and all instances ready, and reports it so |
| `Declared.CompletePassRunsServices` | internal/controller/supabaseproject_controller.go:982-1029 | a complete pass has each core service behind a Service that selects its pods, the pods as built and annotated with the current hashes, and every custom variable of Auth readable |
| `Declared.ValidMeansReadable` | internal/controller/supabaseproject_controller.go:1067-1131 | variables that validate are each readable as declared, and the API let their keys be read |
| `Declared.CompletePassRunsPowerSync` | internal/controller/supabaseproject_controller.go:2061-2157 | a complete pass with PowerSync has valid rules, and controls every object that removal later deletes |
| `Foreign.OthersAreSpared` | internal/controller/supabaseproject_controller.go:1307-1417 | no pass, whatever is declared and fails, takes over, changes or deletes a durable object with another instance label, a ConfigMap, Job or publication with another one (unless PowerSync's removal looks at it), or any other object under another controller |
| `Runs.UnownedForever` | README.md:302-311 | over any run, once no labelled durable object is owned by the project none is again |
| `Runs.RetainedAfterFirstPass` | internal/controller/supabaseproject_controller.go:1551-1580 | that holds from the first pass past phase 0 on |
| `Runs.CollectionSparesDurables` | README.md:302-311 | deleting the project and collecting what it owned leaves every labelled durable object as it was |
| `Runs.ClusterOutlivesProject` | internal/controller/supabaseproject_controller.go:573-621 | over edits, deletions, collections and re-creations the Cluster survives with its bootstrap and external clusters and never shrinks, unless removed by hand |
| `Runs.SourceOutlivesEdits` | internal/controller/supabaseproject_controller.go:1713-1769 | over the same runs the source store of a recovered Cluster stays at its destination and endpoint |
| `Runs.OutlivesInterleaving` | internal/controller/supabaseproject_controller.go:1264-1286 | with phases of passes and environment steps interleaved in any order, retention and origin hold between any two of them: no labelled durable object is taken over again, and the Cluster keeps its origin and size while nobody removes it by hand |
| `Runs.StatusForever` | internal/controller/supabaseproject_controller.go:194-233 | after every step of every run the status chain holds and the observed generation is at most the generation |
| `Runs.ObservedGrows` | internal/controller/supabaseproject_controller.go:223-230 | while a project lives its observed generation never decreases |
| `Settling.PassSettles` | internal/controller/supabaseproject_controller.go:121-234 | after a complete pass every planned phase still finds what it leaves, undisturbed by all later phases |
| `Idempotence.SettledPass` | internal/controller/supabaseproject_controller.go:121-234 | in a settled world a pass completes, changes no object and no status value, and writes exactly the status: twice, or four times with an email hook |
| `Idempotence.CompletePassSettles` | internal/controller/supabaseproject_controller.go:121-234 | a complete pass leaves a settled world for every later context of the same declaration |
| `Idempotence.SecondPass` | internal/controller/supabaseproject_controller.go:121-234 | after a complete pass a second one, at another time and with other random values, writes no object and ends with the same status |
| `Progress.ClusterGoes` | internal/controller/supabaseproject_controller.go:537-625 | for a sound declaration the Cluster phase never fails, asks again only when the Cluster was not as declared, and leaves it as declared |
| `Endings.StopsWhereHeld` | internal/controller/supabaseproject_controller.go:121-234 | every pass with succeeding calls and nothing foreign beside the Cluster, from any status, whatever was declared or removed since, stops at the first planned phase the objects as found do not let on, and completes exactly when there is none |
| `Endings.ReadyWithoutDatabase` | internal/controller/supabaseproject_controller.go:154-164 | such a pass, starting Ready and DatabaseReady, ends Ready without DatabaseReady if and only if that phase is the bootstrap check, the wait for the database, or the Cluster being absent or its storage refused |
| `Endings.ReadyMeansDatabase` | README.md:331-334 | with valid inputs: Ready implies DatabaseReady at the end if and only if the declaration keeps the origin, the Cluster exists, its storage is accepted, and, when it needs no update, as many instances are ready as it has |
| `Endings.CurrentInstances` | internal/controller/supabaseproject_controller.go:876-921 | a Cluster that needs no update has its database up exactly when as many instances are ready as declared |
| `Endings.ReadyWithoutPowerSync` | internal/controller/supabaseproject_controller.go:236-246 | such a pass, starting Ready and PowersyncReady, ends Ready without PowersyncReady if and only if it stops at invalid sync rules or at the wait for the workloads |
| `Endings.ReadyWithoutGrants` | internal/controller/supabaseproject_controller.go:1933-1976 | such a pass, starting Ready and CDCReady, ends Ready without CDCReady if and only if it stops at the roles, at the Job, or at a publication it creates or waits for; one that it updates leaves CDCReady on |
| `Endings.ReadyMeansPowerSync` | README.md:331-334 | with valid inputs but for the sync rules: Ready implies PowersyncReady at the end unless the core is up on its database and the rules are invalid, or roles, publication and Job are in order and a workload is not rolled out; exactly then it does not |
| `Convergence.CleanPass` | internal/controller/supabaseproject_controller.go:121-234 | with sound inputs and no foreign objects a pass from any status never fails, and the world stays clean |
| `Convergence.MeasureFalls` | internal/controller/supabaseproject_controller.go:121-234 | no such pass takes the world further from done by a natural-number measure, whatever part of its work the environment does after it, and one that asks to be called again has brought it strictly closer once the environment caught up |
| `Convergence.Converges` | internal/controller/supabaseproject_controller.go:121-234 | from any clean world and any status, however little the environment does between passes: once it has caught up after eight of them, one has completed and all before it asked to be called again |
| `Witness.ProjectIsSound` | internal/controller/supabaseproject_controller.go:121-234 | a concrete project with PowerSync and an email hook meets the hypotheses of convergence |
| `Witness.ReachesSettled` | internal/controller/supabaseproject_controller.go:121-234 | every sound project in a clean world has passes and environment steps that end in a settled and clean world |
| `Witness.ReadyWithoutDatabase` | internal/controller/supabaseproject_controller.go:893-899 | every sound project, followed to a settled world and then short of an instance, ends the next pass Ready with DatabaseReady off |
| `Witness.ProjectWithoutDatabase` | internal/controller/supabaseproject_controller.go:893-899 | a concrete project, followed from an empty namespace, does so |
| `Witness.ReadyWithoutCluster` | internal/controller/supabaseproject_controller.go:548-571 | every sound project, followed to a settled world and then stripped of its Cluster, ends the next pass Ready with DatabaseReady off, no instance having been lost |
| `Reconciling.Reconciler.UpdateStatus` | internal/controller/supabaseproject_controller.go:2267-2276 | the stored status becomes the held one, written only when it differs |
| `Reconciling.Reconciler.ProtectDurable` | internal/controller/supabaseproject_controller.go:1551-1580 | one durable object loses the project from its owner array, compacted in place, and is written exactly when it was labelled and owned |
| `Reconciling.Reconciler.RepairMetadata` | internal/controller/supabaseproject_controller.go:1288-1305 | labels merged key by key and project owners dropped, with an exact flag |
| `Reconciling.Reconciler.CreateOrUpdateConfigMap` | internal/controller/supabaseproject_controller.go:1336-1368 | data, labels and owner are written exactly when one of them differs, and a foreign map is refused |
| `Reconciling.Reconciler.CreateOrUpdateDeployment` | internal/controller/supabaseproject_controller.go:1370-1417 | a Deployment is written exactly when owner, replicas, strategy or normalised template differ |
| `Reconciling.Reconciler.UpdateDeployment` | internal/controller/supabaseproject_controller.go:1386-1417 | an existing Deployment keeps every field the operator does not own, and its templates are compared after normalising both in place |
| `Reconciling.Reconciler.ReconcileCluster` | internal/controller/supabaseproject_controller.go:537-625 | create and ask again, repair metadata and refuse, or merge in place, as the Cluster phase of the pass |
| `Reconciling.Reconciler.CreateOrCheckJob` | internal/controller/supabaseproject_controller.go:2329-2401 | the Job is created, deleted for another hash, or judged by its first true terminal condition |
| `Reconciling.Reconciler.Reconcile` | internal/controller/supabaseproject_controller.go:121-234 | the pass, of which phase 0, the init map, the Cluster, the Job and the PowerSync Deployments run statement by statement and the other phases as the function gives them, is the function the theorems are about, and so: a pass that does not fail leaves no labelled durable object owned by the project, a Cluster keeps its origin, a bad bundle or a changed origin fails leaving all else alone, and the status chain holds |
| `Publications.EffectivePublicationSchemas` | api/v1alpha1/publication_schemas.go:12-31 | a list is accepted exactly when omitted or non-empty, free of duplicates and made of identifiers of 1 to 63 characters; each refusal names the first offender |
| `Grants.BuildScript` | internal/resources/jobs/cdc_permissions.go:66-102 | the script grown piece by piece is the rendering of its lines |
| `Grants.BuildTargets` | internal/resources/cnpg/publication.go:14-39 | the target list filled by index is the accepted list in order |
| `Grants.ScriptAgrees` | internal/resources/jobs/cdc_permissions.go:66-102 | read back from the script's text by privilege, object and grantee: `powersync_replication` is granted usage, all tables and the owner's future tables of each accepted schema, in order, `powersync_storage` may create in the database, and nothing else is granted to anyone |
| `Grants.BodyIsNotCut` | internal/resources/jobs/cdc_permissions.go:77-95 | no statement line equals the here-document's terminator |
| `Grants.ScriptIsInjective` | internal/resources/jobs/cdc_permissions.go:66-102 | two accepted lists with one script are equal |
| `Replication.GrantsMatchPublication` | internal/resources/jobs/cdc_permissions.go:66-102 | a pass that writes a PowerSync Deployment leaves a complete Job and an applied publication such that any text the Job is annotated for grants the replication role exactly the published schemas, three grants each, in order |
| `Replication.OneJobOneList` | internal/controller/supabaseproject_controller.go:2329-2401 | one complete Job is current for two declarations only if they publish the same schemas |
| `GoTrue.ApplyEnv` | internal/resources/deployments/auth.go:260-288 | the merge through an index map keeps base positions, appends new names by first appearance, gives each its last configured value, and keeps names unique |
| `GoTrue.OwnedKept` | internal/resources/deployments/auth.go:290-314 | operator-owned names keep exactly their built value and none is added |
| `GoTrue.OwnedIsContract` | internal/resources/deployments/auth.go:290-314 | the operator-owned names are exactly the signing settings it builds and those it leaves unset |
| `GoTrue.ContractIsKept` | internal/resources/deployments/auth.go:260-314 | whatever is configured, every built signing setting keeps value and place, and none left unset appears |
| `GoTrue.MergedIsUnique` | internal/resources/deployments/auth.go:260-288 | that description admits one result only |
| `Base64.RoundTrip` | pkg/crypto/es256.go:325-331 | every byte string survives unpadded URL-safe encoding and decoding (section 5 of RFC 4648) |
| `Base64.PaddedRoundTrip` | pkg/crypto/es256.go:325-331 | and every byte string survives in padded text, which the first decoder refuses and the second reads |
| `Base64.LineEndsIgnored` | pkg/crypto/es256.go:325-331 | a line end anywhere in a text never changes what is decoded |
| `Base64.PaddedOfNumber` | pkg/crypto/es256.go:314-338 | big-endian bytes survive reading as a number and padding back to their width |
| `Base64.PaddedInteger` | cmd/project-credentials-wizard/generator.go:180-185 | copying the minimal bytes to the end of a zeroed buffer gives the 32-byte form (sections 3.4 and 6.2.1.2 of RFC 7518) |
| `Credentials.PublicJwk` | pkg/crypto/es256.go:130-156 | fails exactly when the key is no signing key with any point and scalar, else yields its point in fixed width, its key id and verification as only use |
| `Credentials.SigningKeyMeaning` | pkg/crypto/es256.go:101-128 | the checks accept exactly the P-256 keys whose scalar lies below the order and whose point is that of the scalar, and read both off them |
| `Credentials.VerifiedMeansSigned` | pkg/crypto/es256.go:204-255 | a token is accepted if and only if it is three segments, the header decodes to ES256 and the key's id, the claims to role, audience and an expiry ahead, and the third to two 32-byte numbers that verify with the point over the digest of the first two |
| `Credentials.PublicVerification` | pkg/crypto/es256.go:193-255 | with a published key a token is accepted if and only if the key has a point and the token is so signed by it |
| `Credentials.OneRole` | pkg/crypto/es256.go:204-255 | no token is signed for two roles |
| `Credentials.PublicProjection` | pkg/crypto/es256.go:130-255 | for every signing key, however its coordinates were written, the projection holds no private part and accepts exactly the tokens the private key signed |
| `Credentials.MatchAudience` | pkg/crypto/es256.go:257-269 | a text or a list of which one item is the expected audience |
| `Credentials.ValidateOpaqueKey` | internal/resources/secrets/secrets.go:185-223 | accepts exactly prefix, 22 alphabet characters, a separator and the checksum of what precedes it |
| `Credentials.ChecksumMeaning` | internal/resources/secrets/secrets.go:185-218 | the checksum is the first six bytes of the digest of what precedes it |
| `Credentials.CheckFields` | internal/resources/secrets/secrets.go:98-125 | accepts exactly the five fields, each given once and not empty |
| `Credentials.ValidateProjectCredentials` | internal/resources/secrets/secrets.go:98-169 | accepts exactly the bundles with each of the five fields once, two well-formed and different opaque keys, and one signing key whose point signed both tokens, each for its own role; the result is that key's public half and the hash of the five values |
| `Credentials.CheckedMeansConsistent` | internal/resources/secrets/secrets.go:98-169 | what the operator checks holds exactly of the bundles so signed |
| `Credentials.HashText` | internal/resources/secrets/secrets.go:153-158 | the text written field by field is the preimage in fixed order |
| `Credentials.HashedTextIsUnambiguous` | internal/resources/secrets/secrets.go:153-158 | two bundles with one preimage hold the same five values |
| `Wizard.GenerateKeyId` | cmd/project-credentials-wizard/generator.go:130-139 | the key id is that of the random bytes with version and variant bits set in place: 36 characters with their dashes, version digit 4, variant digit 8, 9, a or b (section 5.4 of RFC 9562) |
| `Wizard.NewTokenVerifies` | cmd/project-credentials-wizard/generator.go:141-174 | a signed role token verifies with the point of its scalar before it expires |
| `Wizard.GeneratedIsAcceptable` | cmd/project-credentials-wizard/generator.go:48-106 | every generated bundle is acceptable to the validator before it expires |
| `Rollout.HashedTextIsUnambiguous` | internal/controller/supabaseproject_controller.go:2159-2168 | configuration, NUL and rules hash the same text only when the URL and the rules are the same, whatever they contain |
| `Rollout.QuotedApart` | internal/controller/supabaseproject_controller.go:2159-2168 | a quoted text ends at its closing quote and determines what was quoted, escapes included |
| `Rolling.SameConfigSameRollout` | internal/controller/supabaseproject_controller.go:2159-2168 | after two complete passes the PowerSync pods carry one annotation if and only if configuration and sync rules were the same, for a hash that does not collide |
| `Rolling.SameBundleSameRollout` | internal/controller/supabaseproject_controller.go:1031-1040 | after two complete passes the pods of every service that consumes credentials carry one annotation if and only if the bundles held the same five values |
| `Envoy.ScanByPart` | internal/resources/configmaps/envoy.go:610-616 | scanning a query character by character yields the pairs of its parts |
| `Envoy.FindKey` | internal/resources/configmaps/envoy.go:611-616 | the loop finds the first apikey pair |
| `Envoy.FirstKeyMeaning` | internal/resources/configmaps/envoy.go:610-616 | the key found is that of the first such pair, and none is found only when there is none |
| `Envoy.NamesKeyMeaning` | internal/resources/configmaps/envoy.go:687-697 | the parts rewritten are exactly those that start with the name and an equals sign |
| `Envoy.ReplaceQueryKey` | internal/resources/configmaps/envoy.go:678-699 | the table built part by part is the rewritten path |
| `Envoy.RewrittenParts` | internal/resources/configmaps/envoy.go:678-699 | rewriting keeps everything before the query and all other parts in order, and gives each named part the replacement |
| `Envoy.Request.CopyQueryKey` | internal/resources/configmaps/envoy.go:594-617 | a missing header is filled from the first non-empty query key |
| `Envoy.Request.Admit` | internal/resources/configmaps/envoy.go:637-648 | exactly the two opaque keys are admitted |
| `Envoy.Request.TranslateQuery` | internal/resources/configmaps/envoy.go:701-725 | header and path change together when the first query key translates |
| `Envoy.Request.Filter` | internal/resources/configmaps/envoy.go:582-817 | the filters run in listener order: on a protected route the chain function; elsewhere all is forwarded, with only a key in the header replaced, the publishable one by the anonymous token and the secret one by the service token |
| `Envoy.ChainMeaning` | internal/resources/configmaps/envoy.go:580-817 | for every protected request, by the key that decides (the first query key if it is one of the two and the request is admitted, else the admitted header): without one unauthorized; the publishable key is forwarded with the anonymous token, and forbidden on meta and schema routes; the secret key is forwarded with the service token; a genuine bearer is kept, else the token is the bearer |
| `Envoy.GenuineMeaning` | internal/resources/configmaps/envoy.go:753-780 | a bearer is genuine exactly when it is three non-empty segments without dots behind "Bearer " that do not start like an opaque key |
| `Envoy.ForwardedIsGenuine` | internal/resources/configmaps/envoy.go:753-780 | what is forwarded carries a three-segment bearer |
| `Envoy.KeyLeavesPath` | internal/resources/configmaps/envoy.go:701-725 | after translation the query shows an opaque key if and only if a part has one behind a leading equals sign; every named part holds the token of the key that decided, and all others are kept in order |
| `Envoy.ForwardedQuery` | internal/resources/configmaps/envoy.go:701-725 | the same for the URL of every forwarded request, which is unchanged when no query key translates |
| `Envoy.KeyStays` | internal/resources/configmaps/envoy.go:687-697 | on every protected route `?=apikey=K` is admitted, translated and forwarded with K still in the URL |
| `Gateway.AcceptedKeys` | internal/resources/secrets/secrets.go:98-169 | the keys and tokens of every bundle the validator accepts meet the premises of the chain theorems, and the two tokens differ |
| `Gateway.ForwardedVerifies` | internal/resources/configmaps/envoy.go:580-817 | whatever a protected route forwards under an accepted bundle: with the secret key a token that verifies with the published key for the service role; with the publishable key one that verifies for the anonymous role and not for the service role, never on meta and schema routes; the same token as bearer unless the client sent its own |
| `Gateway.ServiceNeedsSecret` | internal/resources/configmaps/envoy.go:670-741 | under an accepted bundle the service token is forwarded only for a request that gave the secret key |
| `Naming.NamesAreUnique` | internal/resources/secrets/secrets.go:364-372 | within a kind a name comes from one project and one role only |
| `Naming.WritesAreDisjoint` | internal/resources/common/names.go:24-36 | passes of two projects in one namespace never write the same object |

## Left out

- Reads of the API server are consistent: stale caches, conflicts and resource versions are not modelled; a failing call is.
- Texts of condition messages are left out; types, states, reasons, generations and transition times are in.
- CNPG's webhook defaulting is a parameter applied to a declaration; on a retained Cluster it is taken to leave its own output alone.
- Deployment, Service, Job, CronJob and ConfigMap builders are parameters beyond the fields the controller compares.
- External Secrets and ConfigMaps are parameters of a pass; watches and requeue timing are not modelled.
- Reconciling.Reconciler.Reconcile: runs (in `RunPhase`) phase 0, the init map, the Cluster, the Job and the PowerSync Deployments statement by statement; every other phase is applied as the function gives it, so for it the equality holds by construction.
- Endings.ReadyMeansDatabase: like all of `Endings`, speaks of passes whose calls succeed; for every pass `Chain.StatusChain` says when Ready stays on.
- Gates.PowerSyncGate: speaks of the annotation of the Job, not of the script the Job ran, because its ConfigMap can change under it.
- Elliptic-curve arithmetic, SHA-256, JSON and random sources are parameters; `Wizard.GeneratedIsAcceptable` needs that signing then verifying and writing then reading succeed, `Gateway.AcceptedKeys` that a JSON text starts with an ASCII character, and `Replication` and `Rolling` that the hash does not collide.
- Roles.ClientsAreConfined: a user's own role under one of the three names, or under one of the five of `Roles.AuthenticatorIsConfined`, is excluded by the premise; both speak of role attributes and memberships, not of grants on tables.
- Declared.CompletePassRunsServices: like all of `Declared` and `Idempotence`, takes the API's defaulting of a template to stay within the fields the comparison normalises, and a generated PowerSync token to pass its own check.
- Envoy.ChainMeaning: repeated headers, header removal by the router and CORS are not modelled; a header has at most one value.
- Rollout.HashedTextIsUnambiguous: the fixed text of the PowerSync configuration is a parameter without NUL; only the quoted URL is built.
- GoTrue.ApplyEnv: the list built before the merge is any list of distinct names.
- URL normalisation, status conditions of the wizard's dialogue, TLS, metrics, the manager, Helm chart, Tanka and images are plumbing without a property here.
- The standard-base64 check of an email-hook Secret and the parsing of sync rules are parameters of the validators that call them.
