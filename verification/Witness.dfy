/** The hypotheses of convergence and of the Ready results are met: a project and an
    environment that satisfy them, followed from an empty namespace to a settled one. */
module Witness {
  import opened Kube
  import opened Pods
  import opened Clusters
  import opened World
  import opened Operator
  import opened Frames
  import opened Durables
  import opened Ordering
  import opened Chain
  import opened Settled
  import opened Settling
  import opened Idempotence
  import opened Progress
  import opened Endings
  import opened Convergence

  // ---- An environment that catches up ---------------------------------------

  function ClusterCaught(x: Cluster): Cluster {
    x.(status := ClusterStatus(x.spec.instances, "", "", RolesStatus({PS_STORAGE_ROLE, PS_REPLICATION_ROLE}, {})))
  }

  function DeploymentCaught(x: Deployment): Deployment {
    var expected := if x.replicas.Some? then x.replicas.value else 1;
    x.(status := RolloutStatus(x.generation, expected, expected, expected, 0))
  }

  function JobFinished(x: Option<Job>): Option<Job> {
    if x.None? || x.value.deleting then None else Some(x.value.(conditions := [JobCondition(JobComplete, true)]))
  }

  /** Every controller does its work at once. */
  function Caught(o: Objects): Objects {
    o.(cluster := if o.cluster.Some? then Some(ClusterCaught(o.cluster.value)) else None,
       deployments := map comp | comp in o.deployments :: DeploymentCaught(o.deployments[comp]),
       publication := if o.publication.Some?
                      then Some(o.publication.value.(observed := o.publication.value.generation,
                          applied := Some(true))) else None,
       job := JobFinished(o.job))
  }

  lemma CaughtCatchesUp(o: Objects)
    ensures CaughtUp(o, Caught(o)) && Advances(o, Caught(o))
  {
    CaughtUpAdvances(o, Caught(o));
    hide Advances;
  }

  /** The worlds and statuses of n passes, the environment catching up after each. */
  function Follow(c: Context, o: Objects, st: Status, n: nat): (r: (seq<Objects>, seq<Status>))
    ensures |r.0| == |r.1| == n + 1 && r.0[0] == o && r.1[0] == st
    decreases n
  {
    if n == 0 then ([o], [st])
    else
      var p := Pass(c, o, st).state;
      var rest := Follow(c, Caught(p.o), p.saved, n - 1);
      ([o] + rest.0, [st] + rest.1)
  }

  /** The environment catches up after each of the first n passes. */
  predicate AllFull(c: Context, cs: seq<Context>, os: seq<Objects>, sts: seq<Status>, n: nat) {
    forall i :: 0 <= i < n ==> FullRound(c, cs, os, sts, i)
  }

  lemma {:induction false} FollowRounds(c: Context, o: Objects, st: Status, n: nat)
    requires Sound(c)
    ensures Rounds(c, seq(n, _ => c), Follow(c, o, st, n).0, Follow(c, o, st, n).1)
    ensures AllFull(c, seq(n, _ => c), Follow(c, o, st, n).0, Follow(c, o, st, n).1, n)
    decreases n
  {
    hide Sound, Pass, CaughtUp, Caught, Advances;
    if n > 0 {
      var p := Pass(c, o, st).state;
      CaughtCatchesUp(p.o);
      FollowRounds(c, Caught(p.o), p.saved, n - 1);
      var rest := Follow(c, Caught(p.o), p.saved, n - 1);
      var cs, ds, os, sts := seq(n, _ => c), seq(n - 1, _ => c), [o] + rest.0, [st] + rest.1;
      forall i | 0 <= i < n ensures Round(c, cs, os, sts, i) && FullRound(c, cs, os, sts, i) {
        if i > 0 {
          assert Round(c, ds, rest.0, rest.1, i - 1) && FullRound(c, ds, rest.0, rest.1, i - 1);
          assert Nth(os, i, NO_OBJECTS) == Nth(rest.0, i - 1, NO_OBJECTS)
              && Nth(os, i + 1, NO_OBJECTS) == Nth(rest.0, i, NO_OBJECTS);
          assert Nth(sts, i, FRESH_STATUS) == Nth(rest.1, i - 1, FRESH_STATUS)
              && Nth(sts, i + 1, FRESH_STATUS) == Nth(rest.1, i, FRESH_STATUS);
        }
      }
    }
  }

  lemma {:induction false} FullCount(c: Context, cs: seq<Context>, os: seq<Objects>, sts: seq<Status>, n: nat)
    requires AllFull(c, cs, os, sts, n)
    ensures FullRounds(c, cs, os, sts, n) == n
  {
    hide FullRound;
    if n > 0 { FullCount(c, cs, os, sts, n - 1); }
  }

  /** Whatever the declaration, a clean world of a sound project leads to a settled one. */
  lemma ReachesSettled(c: Context, o: Objects, st: Status) returns (p: Objects, m: Status)
    requires Sound(c) && Clean(c, o) && CleanSource(c, o)
    ensures SettledWorld(c, p, m) && Clean(c, p)
  {
    hide Sound, Clean, CleanSource, Rounds, AllFull, FullRounds, Pass, SettledWorld, Working, Healthy, Faithful,
         DefaultsKeep;
    var cs, os, sts := seq(8, _ => c), Follow(c, o, st, 8).0, Follow(c, o, st, 8).1;
    FollowRounds(c, o, st, 8);
    FullCount(c, cs, os, sts, 8);
    var i := Converges(c, cs, os, sts);
    SoundIsWorking(c);
    WorkingParts(c);
    assert cs[i] == c && Alike(c, c);
    CompletePassSettles(c, c, os[i], sts[i]);
    CleanPass(c, os[i], sts[i]);
    p, m := Pass(c, os[i], sts[i]).state.o, Pass(c, os[i], sts[i]).state.memory;
  }

  // ---- A project ------------------------------------------------------------

  const BARE_TEMPLATE := PodTemplate(map[], "", None, "", None, "", [], [], [], "")

  const PLATFORM := Platform(
    Defaults("postgres", map[], [], []), spec => spec, _ => Some(1), (_, _, _, _) => BARE_TEMPLATE, (_, _) => 1,
        _ => [], _ => "part",
    (_, _, _) => map[], (_, _, _) => CronSpec(None, BARE_TEMPLATE, ""), _ => Some("script"), (_, _) => map[], t => t,
        s => s,
    _ => Some(Credentials("jwks", "hash")), _ => true, _ => true, _ => true, _ => false)

  const DECLARED := Spec(
    DatabaseSpec(1, Storage("1Gi", None, None, None), "", Resources(map[], map[]), false, map[], [], None, None, []),
    "bundle", true, [], Some(PowerSync(None, SyncRules("rules", ""), true)), "")

  /** A project with PowerSync and an email hook, and calls that succeed. */
  const PROJECT := Context(PLATFORM, External(map["bundle" := map[]], map[]), "demo", "uid", 1, DECLARED, 0, 0,
                           (_, _) => true, (_, _) => true)

  lemma AdmitsAsStored()
    ensures Faithful(PLATFORM)
  {
    forall t ensures Stored(t, PLATFORM.admit(t)) { assert PLATFORM.admit(t) == t; }
  }

  lemma ProjectIsSound()
    ensures Sound(PROJECT) && Clean(PROJECT, NO_OBJECTS) && CleanSource(PROJECT, NO_OBJECTS)
  {
    AdmitsAsStored();
    hide Faithful, IntentChanged;
    BuiltIsDeclared(PLATFORM.defaults, PROJECT.name, DECLARED.database, true, FinalNames(PROJECT));
  }

  /** A settled status is chained, Ready and DatabaseReady, and its Cluster needs no update. */
  lemma SettledIsReady(c: Context, o: Objects, m: Status)
    requires SettledWorld(c, o, m)
    ensures Chained(m) && IsTrue(m, Ready) && IsTrue(m, DatabaseReady) && o.cluster.Some? && ClusterCurrent(c, o)
  {
    hide Stable, CoreReady, AllUnowned, Planned, IsCore, BackupEnabled, RecoveryEnabled, IntentChanged, Built,
         Desired, MergeCluster, WithoutProject, MergedLabels, NamesFor, Bundle, SecretKept, TokenKept,
         RoleSecretsKept, HookName;
    PlannedPhases(c);
    StableCore(c, o, m);
    Settled.StableCluster(c, o, m);
    StableSecrets(c, o, m);
  }

  lemma CleanWithoutCluster(c: Context, o: Objects)
    requires Clean(c, o)
    ensures CleanBeside(c, o.(cluster := None))
  {
    hide CleanSecret, CleanJob, CleanCluster, Ours, Mine;
    forall slot | slot != ClusterAt ensures CleanSlot(c, o.(cluster := None), slot) { assert CleanSlot(c, o, slot); }
  }

  /** The world when one instance fewer than declared is ready. */
  function Short(o: Objects): Objects {
    if o.cluster.None? then o
    else
      var x := o.cluster.value;
      o.(cluster := Some(x.(status := x.status.(ready := x.spec.instances - 1))))
  }

  lemma CleanWhenShort(c: Context, o: Objects)
    requires Clean(c, o) && o.cluster.Some?
    ensures CleanBeside(c, Short(o)) && (ClusterCurrent(c, o) ==> ClusterCurrent(c, Short(o))) && !DatabaseUp(Short(o))
  {
    hide CleanSecret, CleanJob, CleanCluster, Ours, Mine, MergeCluster, Desired, MergedLabels, FinalNames;
    forall slot | slot != ClusterAt ensures CleanSlot(c, Short(o), slot) { assert CleanSlot(c, o, slot); }
  }

  /** Every sound project, settled and then short of an instance, ends the next pass Ready without its database. */
  lemma ReadyWithoutDatabase(c: Context, o: Objects, st: Status) returns (p: Objects, m: Status)
    requires Sound(c) && Clean(c, o) && CleanSource(c, o)
    ensures SettledWorld(c, p, m) && p.cluster.Some?
    ensures var saved := Pass(c, Short(p), m).state.saved; IsTrue(saved, Ready) && !IsTrue(saved, DatabaseReady)
  {
    hide Sound, Clean, CleanSource, SettledWorld, Pass, Chained, CleanBeside, ClusterCurrent, DatabaseUp, Short, IsTrue;
    p, m := ReachesSettled(c, o, st);
    SettledIsReady(c, p, m);
    CleanWhenShort(c, p);
    Endings.ReadyMeansDatabase(c, Short(p), m);
  }

  /** So does the project above, followed from an empty namespace. */
  lemma ProjectWithoutDatabase() returns (o: Objects, m: Status)
    ensures var saved := Pass(PROJECT, Short(o), m).state.saved;
            SettledWorld(PROJECT, o, m) && IsTrue(saved, Ready) && !IsTrue(saved, DatabaseReady)
  {
    hide *;
    ProjectIsSound();
    o, m := ReadyWithoutDatabase(PROJECT, NO_OBJECTS, FRESH_STATUS);
  }

  /** The other way: every sound project, settled and then stripped of its Cluster, ends
      the next pass Ready without a database, though no instance was lost. */
  lemma ReadyWithoutCluster(c: Context, o: Objects, st: Status) returns (p: Objects, m: Status)
    requires Sound(c) && Clean(c, o) && CleanSource(c, o)
    ensures SettledWorld(c, p, m) && p.cluster.Some?
    ensures var saved := Pass(c, p.(cluster := None), m).state.saved;
            IsTrue(saved, Ready) && !IsTrue(saved, DatabaseReady)
  {
    hide Sound, Clean, CleanSource, SettledWorld, Pass, Chained, CleanBeside, ClusterCurrent, DatabaseUp;
    p, m := ReachesSettled(c, o, st);
    SettledIsReady(c, p, m);
    CleanWithoutCluster(c, p);
    Endings.ReadyMeansDatabase(c, p.(cluster := None), m);
  }
}
