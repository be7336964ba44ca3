/** The environment of the Auth container: configured variables written over the
    built ones through an index map. */
module GoTrue {
  import opened Kube
  import opened World

  const OWNED: set<string> := {
    "GOTRUE_JWT_KEYS", "GOTRUE_JWT_SECRET", "GOTRUE_JWT_ALG", "GOTRUE_JWT_KEY_ID", "GOTRUE_JWT_ISSUER",
        "GOTRUE_JWT_AUD",
    "GOTRUE_JWT_EXP", "GOTRUE_JWT_VALID_METHODS", "GOTRUE_JWT_ALLOWED_ALGS", "GOTRUE_JWT_ADMIN_ROLES",
    "GOTRUE_JWT_ADMIN_GROUP_NAME", "GOTRUE_JWT_DEFAULT_GROUP_NAME", "GOTRUE_JWT_ROLE_CLAIM" }

  /** IsOperatorOwnedGoTrueEnv. */
  predicate OperatorOwned(name: string) { name in OWNED }

  /** A configured entry as a container variable; without a source its value is empty. */
  function Variable(e: EnvEntry): EnvEntry { if e.source == NoSource then EnvEntry(e.name, Literal("")) else e }

  function NamesOf(env: seq<EnvEntry>): seq<string> { seq(|env|, i requires 0 <= i < |env| => env[i].name) }

  predicate DistinctNames(env: seq<EnvEntry>) { forall i, j :: 0 <= i < j < |env| ==> env[i].name != env[j].name }

  // ---- The result, declared -------------------------------------------------

  /** The last entry of that name. */
  function LastOf(configured: seq<EnvEntry>, name: string): Option<EnvEntry> {
    if configured == [] then None
    else if configured[|configured| - 1].name == name then Some(Variable(configured[|configured| - 1]))
    else LastOf(configured[..|configured| - 1], name)
  }

  /** Names configured but not built, in order of first appearance. */
  function NewNames(base: seq<EnvEntry>, configured: seq<EnvEntry>): seq<string> {
    if configured == [] then []
    else
      var before := NewNames(base, configured[..|configured| - 1]);
      var name := configured[|configured| - 1].name;
      if OperatorOwned(name) || name in NamesOf(base) || name in before then before else before + [name]
  }

  /** The built entries in place, then the new names; every name an operator does not
      own and that is configured has its last configured value, every other its
      built one. */
  predicate Merged(base: seq<EnvEntry>, configured: seq<EnvEntry>, env: seq<EnvEntry>) {
    && NamesOf(env) == NamesOf(base) + NewNames(base, configured)
    && (forall i :: 0 <= i < |env| ==>
          if !OperatorOwned(env[i].name) && LastOf(configured, env[i].name).Some?
              then env[i] == LastOf(configured, env[i].name).value
          else i < |base| && env[i] == base[i])
  }

  lemma NameAt(env: seq<EnvEntry>, i: nat)
    requires i < |env|
    ensures NamesOf(env)[i] == env[i].name && env[i].name in NamesOf(env)
  {
    assert NamesOf(env)[i] in NamesOf(env);
  }

  lemma NamesMore(env: seq<EnvEntry>, e: EnvEntry)
    ensures NamesOf(env + [e]) == NamesOf(env) + [e.name]
  {
  }

  lemma NoneMerged(base: seq<EnvEntry>)
    ensures Merged(base, [], base)
  {
  }

  lemma LastMore(configured: seq<EnvEntry>, e: EnvEntry, name: string)
    ensures LastOf(configured + [e], name) == if e.name == name then Some(Variable(e)) else LastOf(configured, name)
    ensures NewNames([], []) == []
  {
    assert (configured + [e])[..|configured|] == configured;
  }

  lemma NewMore(base: seq<EnvEntry>, configured: seq<EnvEntry>, e: EnvEntry)
    ensures var before := NewNames(base, configured);
            NewNames(base, configured + [e]) ==
              if OperatorOwned(e.name) || e.name in NamesOf(base) || e.name in before then before else before + [e.name]
  {
    assert (configured + [e])[..|configured|] == configured;
  }

  /** An operator-owned entry changes nothing. */
  lemma OwnedMerged(base: seq<EnvEntry>, configured: seq<EnvEntry>, env: seq<EnvEntry>, e: EnvEntry)
    requires Merged(base, configured, env) && OperatorOwned(e.name)
    ensures Merged(base, configured + [e], env)
  {
    hide OperatorOwned, LastOf, NewNames;
    NewMore(base, configured, e);
    forall i | 0 <= i < |env| && env[i].name != e.name
        ensures LastOf(configured + [e], env[i].name) == LastOf(configured, env[i].name) {
      LastMore(configured, e, env[i].name);
    }
  }

  /** A known name is overwritten where it stands. */
  lemma KnownMerged(base: seq<EnvEntry>, configured: seq<EnvEntry>, env: seq<EnvEntry>, e: EnvEntry, at: nat)
    requires Merged(base, configured, env) && DistinctNames(env) && !OperatorOwned(e.name) && at < |env|
        && env[at].name == e.name
    ensures Merged(base, configured + [e], env[at := Variable(e)]) && DistinctNames(env[at := Variable(e)])
  {
    hide OperatorOwned, LastOf, NewNames;
    var next := env[at := Variable(e)];
    NewMore(base, configured, e);
    assert NamesOf(next) == NamesOf(env);
    NameAt(env, at);
    assert e.name in NamesOf(base) || e.name in NewNames(base, configured);
    forall i | 0 <= i < |next| ensures LastOf(configured + [e], next[i].name) == if i == at then Some(Variable(e))
        else LastOf(configured, env[i].name) {
      assert next[i].name == env[i].name;
      LastMore(configured, e, next[i].name);
    }
  }

  /** A new name is appended. */
  lemma NewMerged(base: seq<EnvEntry>, configured: seq<EnvEntry>, env: seq<EnvEntry>, e: EnvEntry)
    requires Merged(base, configured, env) && DistinctNames(env) && !OperatorOwned(e.name) && e.name !in NamesOf(env)
    ensures Merged(base, configured + [e], env + [Variable(e)]) && DistinctNames(env + [Variable(e)])
  {
    hide OperatorOwned, LastOf, NewNames;
    var next := env + [Variable(e)];
    NewMore(base, configured, e);
    NamesMore(env, Variable(e));
    forall i | 0 <= i < |env| ensures next[i].name != e.name { NameAt(env, i); }
    forall i | 0 <= i < |next| ensures LastOf(configured + [e], next[i].name) == if i == |env| then Some(Variable(e))
        else LastOf(configured, env[i].name) {
      LastMore(configured, e, next[i].name);
    }
  }

  /** The map leads to an entry of that name, and every name is in it. */
  ghost predicate Indexed(env: seq<EnvEntry>, indexes: map<string, int>) {
    && (forall n :: n in indexes ==> 0 <= indexes[n] < |env| && env[indexes[n]].name == n)
    && (forall j :: 0 <= j < |env| ==> env[j].name in indexes)
  }

  method IndexNames(env: seq<EnvEntry>) returns (indexes: map<string, int>)
    ensures Indexed(env, indexes)
  {
    indexes := map[];
    for i := 0 to |env|
      invariant forall n :: n in indexes ==> 0 <= indexes[n] < i && env[indexes[n]].name == n
      invariant forall j :: 0 <= j < i ==> env[j].name in indexes
    {
      indexes := indexes[env[i].name := i];
    }
  }

  lemma IndexedMore(env: seq<EnvEntry>, indexes: map<string, int>, v: EnvEntry)
    requires Indexed(env, indexes)
    ensures v.name in indexes
         ==> 0 <= indexes[v.name] < |env| && env[indexes[v.name]].name == v.name
             && Indexed(env[indexes[v.name] := v], indexes)
    ensures v.name !in indexes ==> Indexed(env + [v], indexes[v.name := |env|]) && v.name !in NamesOf(env)
  {
    if v.name !in indexes {
      forall j | 0 <= j < |env| + 1 ensures (env + [v])[j].name in indexes[v.name := |env|] {
        if j < |env| { assert env[j].name in indexes; }
      }
    }
  }

  /** applyGoTrueEnv: the slice is changed through a map from names to positions. */
  method ApplyEnv(base: seq<EnvEntry>, configured: seq<EnvEntry>) returns (env: seq<EnvEntry>)
    requires DistinctNames(base)
    ensures Merged(base, configured, env) && DistinctNames(env)
  {
    env := base;
    var indexes := IndexNames(env);
    assert configured[..0] == [];
    NoneMerged(base);
    hide Merged, OperatorOwned, Indexed, DistinctNames, NamesOf;
    for i := 0 to |configured|
      invariant Merged(base, configured[..i], env) && DistinctNames(env) && Indexed(env, indexes)
    {
      var e := configured[i];
      var variable := Variable(e);
      assert configured[..i + 1] == configured[..i] + [e];
      IndexedMore(env, indexes, variable);
      if OperatorOwned(e.name) {
        OwnedMerged(base, configured[..i], env, e);
      } else if e.name in indexes {
        KnownMerged(base, configured[..i], env, e, indexes[e.name]);
        env := env[indexes[e.name] := variable];
      } else {
        NewMerged(base, configured[..i], env, e);
        indexes := indexes[e.name := |env|];
        env := env + [variable];
      }
    }
    assert configured[..|configured|] == configured;
  }

  /** Operator-owned names keep exactly their built value, and none is added. */
  lemma OwnedKept(base: seq<EnvEntry>, configured: seq<EnvEntry>, env: seq<EnvEntry>, i: nat)
    requires Merged(base, configured, env) && i < |env| && OperatorOwned(env[i].name)
    ensures i < |base| && env[i] == base[i]
  {
    hide OperatorOwned, LastOf;
  }

  /** The names that carry the ES256 contract: those the operator builds itself, and those it
      leaves unset so that GoTrue's own choice stands. */
  const BUILT_JWT: seq<string> :=
    ["GOTRUE_JWT_DEFAULT_GROUP_NAME", "GOTRUE_JWT_ADMIN_ROLES", "GOTRUE_JWT_AUD", "GOTRUE_JWT_EXP",
     "GOTRUE_JWT_ISSUER", "GOTRUE_JWT_VALID_METHODS", "GOTRUE_JWT_KEYS", "GOTRUE_JWT_SECRET"]
  const UNSET_JWT: seq<string> :=
    ["GOTRUE_JWT_ALG", "GOTRUE_JWT_KEY_ID", "GOTRUE_JWT_ALLOWED_ALGS", "GOTRUE_JWT_ADMIN_GROUP_NAME",
     "GOTRUE_JWT_ROLE_CLAIM"]

  lemma OwnedIsContract(name: string)
    ensures OperatorOwned(name) <==> name in BUILT_JWT || name in UNSET_JWT
  {
  }

  /** Whatever is configured: every setting of the contract that the operator builds is there
      with the value it built, in its place, and none that it leaves unset appears. */
  lemma ContractIsKept(base: seq<EnvEntry>, configured: seq<EnvEntry>, env: seq<EnvEntry>, i: nat)
    requires Merged(base, configured, env)
    ensures i < |base| && base[i].name in BUILT_JWT ==> i < |env| && env[i] == base[i]
    ensures i < |env| && env[i].name in UNSET_JWT ==> i < |base| && env[i] == base[i]
  {
    hide OperatorOwned, LastOf, NewNames;
    if i < |base| && base[i].name in BUILT_JWT {
      OwnedIsContract(base[i].name);
      NameAt(base, i);
      assert |env| == |NamesOf(env)| && NamesOf(env)[i] == NamesOf(base)[i];
      OwnedKept(base, configured, env, i);
    }
    if i < |env| && env[i].name in UNSET_JWT {
      OwnedIsContract(env[i].name);
      OwnedKept(base, configured, env, i);
    }
  }

  /** The declared result is the only one. */
  lemma MergedIsUnique(base: seq<EnvEntry>, configured: seq<EnvEntry>, a: seq<EnvEntry>, b: seq<EnvEntry>)
    requires Merged(base, configured, a) && Merged(base, configured, b)
    ensures a == b
  {
    hide OperatorOwned, LastOf, NewNames;
    assert |a| == |NamesOf(a)| && |b| == |NamesOf(b)|;
    forall i | 0 <= i < |a| ensures a[i] == b[i] {
      NameAt(a, i);
      NameAt(b, i);
    }
  }
}
