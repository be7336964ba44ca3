/** Kubernetes object metadata as the operator uses it: owner references, the
    controller reference, and labels. */
module Kube {

  datatype Option<+T> = None | Some(value: T)

  /** Label keys the operator writes (internal/resources/common/labels.go), and any other key. */
  datatype LabelKey = ManagedBy | Instance | PartOf | Component | AppName | OtherLabel(key: string)

  type Labels = map<LabelKey, string>

  /** Reading an absent key of a Go map yields the empty string. */
  function LabelOf(labels: Labels, key: LabelKey): string {
    if key in labels then labels[key] else ""
  }

  function ComponentLabels(project: string, component: string): Labels {
    map[ManagedBy := "cloudnative-supabase", Instance := project, PartOf := "supabase",
        Component := component, AppName := component]
  }

  /** The labels an object ends with when `desired` is merged into it. */
  function MergedLabels(labels: Labels, desired: Labels): Labels {
    labels + (map k | k in desired && LabelOf(labels, k) != desired[k] :: desired[k])
  }

  datatype OwnerRef = OwnerRef(apiVersion: string, kind: string, name: string, uid: string, controller: bool)

  datatype Meta = Meta(labels: Labels, owners: seq<OwnerRef>)

  function SlashCount(s: string): nat {
    if s == [] then 0 else (if s[0] == '/' then 1 else 0) + SlashCount(s[1..])
  }

  function BeforeSlash(s: string): string {
    if s == [] || s[0] == '/' then [] else [s[0]] + BeforeSlash(s[1..])
  }

  /** schema.ParseGroupVersion keeping the group: empty and "/" have no group,
      a lone version has no group, and two slashes are an error. */
  function ParseGroup(apiVersion: string): Option<string> {
    if apiVersion == "" || apiVersion == "/" || SlashCount(apiVersion) == 0 then Some("")
    else if SlashCount(apiVersion) == 1 then Some(BeforeSlash(apiVersion))
    else None
  }

  lemma {:induction false} NoSlash(s: string)
    requires '/' !in s
    ensures SlashCount(s) == 0 && BeforeSlash(s) == s
  {
    if s != [] {
      NoSlash(s[1..]);
      assert s == [s[0]] + s[1..];
    }
  }

  lemma {:induction false} OneSlash(group: string, version: string)
    requires '/' !in group && '/' !in version
    ensures SlashCount(group + "/" + version) == 1 && BeforeSlash(group + "/" + version) == group
  {
    var s := group + "/" + version;
    if group == [] {
      assert s[1..] == version;
      NoSlash(version);
    } else {
      assert s[1..] == group[1..] + "/" + version && s[0] == group[0];
      OneSlash(group[1..], version);
    }
  }

  /** A group and a version around one slash parse to the group. */
  lemma GroupParses(group: string, version: string)
    requires '/' !in group && '/' !in version && group != ""
    ensures ParseGroup(group + "/" + version) == Some(group)
  {
    OneSlash(group, version);
  }

  const PROJECT_GROUP := "supabase.guion.dev"
  const PROJECT_KIND := "SupabaseProject"

  /** Does the reference point at this operator's project of that name, whatever its version and UID? */
  predicate IsProjectOwner(owner: OwnerRef, project: string) {
    && project != ""
    && ParseGroup(owner.apiVersion) == Some(PROJECT_GROUP)
    && owner.kind == PROJECT_KIND
    && owner.name == project
  }

  /** A group and a version: one slash between two texts without any. */
  predicate GroupVersion(text: string, group: string, version: string) {
    text == group + "/" + version && '/' !in group && '/' !in version
  }

  lemma {:induction false} SlashesCounted(s: string)
    ensures SlashCount(s) == 0 <==> '/' !in s
    ensures '/' in s ==>
              && BeforeSlash(s) < s && '/' !in BeforeSlash(s) && s[|BeforeSlash(s)|] == '/'
              && SlashCount(s) == 1 + SlashCount(s[|BeforeSlash(s)| + 1..])
  {
    if s != [] && s[0] != '/' {
      SlashesCounted(s[1..]);
      if '/' in s {
        assert '/' in s[1..];
        var b := BeforeSlash(s[1..]);
        assert BeforeSlash(s) == [s[0]] + b && s[1..][|b| + 1..] == s[|b| + 2..];
      }
    }
  }

  /** The references that point at a project: its kind and name, under any version of its group. */
  lemma ProjectOwnerMeaning(owner: OwnerRef, project: string)
    ensures IsProjectOwner(owner, project)
        <==> project != "" && owner.name == project && owner.kind == "SupabaseProject"
             && exists version :: GroupVersion(owner.apiVersion, "supabase.guion.dev", version)
  {
    var s := owner.apiVersion;
    if IsProjectOwner(owner, project) {
      SlashesCounted(s);
      var version := s[|BeforeSlash(s)| + 1..];
      SlashesCounted(version);
      assert s == BeforeSlash(s) + "/" + version;
      assert GroupVersion(s, "supabase.guion.dev", version);
    }
    if version :| GroupVersion(s, "supabase.guion.dev", version) {
      GroupParses("supabase.guion.dev", version);
    }
  }

  /** The owners other than the project, in order. */
  function WithoutProject(owners: seq<OwnerRef>, project: string): (rest: seq<OwnerRef>)
    ensures |rest| <= |owners|
    ensures forall o :: o in rest <==> o in owners && !IsProjectOwner(o, project)
    ensures |rest| == |owners| ==> rest == owners
  {
    if owners == [] then []
    else if IsProjectOwner(owners[0], project) then WithoutProject(owners[1..], project)
    else [owners[0]] + WithoutProject(owners[1..], project)
  }

  /** Filtering distributes over concatenation, so every foreign owner keeps its place. */
  lemma {:induction false} WithoutProjectConcat(a: seq<OwnerRef>, b: seq<OwnerRef>, project: string)
    ensures WithoutProject(a + b, project) == WithoutProject(a, project) + WithoutProject(b, project)
  {
    if a == [] {
      assert a + b == b;
    } else {
      assert (a + b)[1..] == a[1..] + b;
      WithoutProjectConcat(a[1..], b, project);
    }
  }

  /** Owners already free of the project are left as they are. */
  lemma {:induction false} WithoutProjectClean(owners: seq<OwnerRef>, project: string)
    requires forall o :: o in owners ==> !IsProjectOwner(o, project)
    ensures WithoutProject(owners, project) == owners
  {
    if owners != [] {
      WithoutProjectClean(owners[1..], project);
      assert owners == [owners[0]] + owners[1..];
    }
  }

  lemma WithoutProjectIdempotent(owners: seq<OwnerRef>, project: string)
    ensures WithoutProject(WithoutProject(owners, project), project) == WithoutProject(owners, project)
  {
    WithoutProjectClean(WithoutProject(owners, project), project);
  }

  /** The filter over one more owner. */
  lemma WithoutProjectStep(owners: seq<OwnerRef>, i: nat, project: string)
    requires i < |owners|
    ensures WithoutProject(owners[..i + 1], project)
         == if IsProjectOwner(owners[i], project) then WithoutProject(owners[..i], project)
            else WithoutProject(owners[..i], project) + [owners[i]]
  {
    assert owners[..i + 1] == owners[..i] + [owners[i]];
    WithoutProjectConcat(owners[..i], [owners[i]], project);
    assert WithoutProject([], project) == [];
  }

  /** removeSupabaseProjectOwnerReference: the survivors are compacted to the
      front of the same backing array, then installed when one was dropped. */
  method RemoveProjectOwner(owners: array<OwnerRef>, project: string) returns (kept: nat, changed: bool)
    modifies owners
    ensures kept <= owners.Length
    ensures owners[..kept] == WithoutProject(old(owners[..]), project)
    ensures changed <==> WithoutProject(old(owners[..]), project) != old(owners[..])
    ensures !changed ==> owners[..] == old(owners[..])
  {
    changed := false;
    if project == "" {
      WithoutProjectClean(owners[..], project);
      kept := owners.Length;
      assert owners[..kept] == owners[..];
      return;
    }
    kept, changed := CompactOwners(owners, project);
  }

  /** The loop: owners that stay move up to the first free place. */
  method CompactOwners(owners: array<OwnerRef>, project: string) returns (kept: nat, changed: bool)
    modifies owners
    ensures kept <= owners.Length && owners[..kept] == WithoutProject(old(owners[..]), project)
    ensures changed <==> kept < owners.Length
    ensures !changed ==> owners[..] == old(owners[..])
  {
    hide *;
    kept, changed := 0, false;
    ghost var was := owners[..];
    ghost var rest: seq<OwnerRef> := [];
    NoOwners(was, project);
    for i := 0 to owners.Length
      invariant kept == |rest| <= i
      invariant changed <==> kept < i
      invariant rest == WithoutProject(was[..i], project)
      invariant forall j :: 0 <= j < kept ==> owners[j] == rest[j]
      invariant forall j :: i <= j < owners.Length ==> owners[j] == was[j]
      invariant !changed ==> forall j :: 0 <= j < i ==> owners[j] == was[j]
    {
      WithoutProjectStep(was, i, project);
      var owner := owners[i];
      if IsProjectOwner(owner, project) {
        changed := true;
      } else {
        owners[kept] := owner;
        kept, rest := kept + 1, rest + [owner];
      }
    }
    assert was[..owners.Length] == was;
  }

  lemma NoOwners(owners: seq<OwnerRef>, project: string)
    ensures WithoutProject(owners[..0], project) == []
  {
  }

  /** mergeLabels: ranges over the desired map in any order. */
  method MergeLabels(labels: Labels, desired: Labels) returns (merged: Labels, changed: bool)
    ensures merged == MergedLabels(labels, desired)
    ensures changed <==> merged != labels
  {
    merged := labels;
    changed := false;
    var todo := desired.Keys;
    while todo != {}
      invariant todo <= desired.Keys
      invariant forall k :: k in merged.Keys <==>
                  k in labels || (k in desired && k !in todo && LabelOf(labels, k) != desired[k])
      invariant forall k :: k in merged ==>
                  merged[k] == if k in desired && k !in todo then desired[k] else labels[k]
      invariant changed <==> exists k :: k in desired && k !in todo && LabelOf(labels, k) != desired[k]
      decreases todo
    {
      var key :| key in todo;
      assert LabelOf(merged, key) == LabelOf(labels, key);
      if LabelOf(merged, key) != desired[key] {
        merged := merged[key := desired[key]];
        changed := true;
      }
      todo := todo - {key};
    }
    assert merged == MergedLabels(labels, desired);
    MergedLabelsChanged(labels, desired);
  }

  lemma MergedLabelsChanged(labels: Labels, desired: Labels)
    ensures MergedLabels(labels, desired) != labels
       <==> exists k :: k in desired && LabelOf(labels, k) != desired[k]
  {
    if k :| k in desired && LabelOf(labels, k) != desired[k] {
      assert LabelOf(MergedLabels(labels, desired), k) == desired[k];
    }
  }

  lemma MergedLabelsIdempotent(labels: Labels, desired: Labels)
    ensures MergedLabels(MergedLabels(labels, desired), desired) == MergedLabels(labels, desired)
    ensures MergedLabels(desired, desired) == desired
  {
  }

  /** referSameObject: the same group, kind and name; a malformed version matches nothing. */
  predicate SameObject(a: OwnerRef, b: OwnerRef) {
    && ParseGroup(a.apiVersion).Some? && ParseGroup(a.apiVersion) == ParseGroup(b.apiVersion)
    && a.kind == b.kind && a.name == b.name
  }

  /** metav1.GetControllerOf: the first reference marked as controller. */
  function ControllerOf(owners: seq<OwnerRef>): (r: Option<OwnerRef>)
    ensures r.Some? ==> r.value in owners && r.value.controller
    ensures r.None? ==> forall o :: o in owners ==> !o.controller
  {
    if owners == [] then None
    else if owners[0].controller then Some(owners[0])
    else ControllerOf(owners[1..])
  }

  function Upsert(owners: seq<OwnerRef>, self: OwnerRef): seq<OwnerRef> {
    if owners == [] then [self]
    else if SameObject(owners[0], self) then [self] + owners[1..]
    else [owners[0]] + Upsert(owners[1..], self)
  }

  /** controllerutil.SetControllerReference: refuses a different controller. */
  function WithController(owners: seq<OwnerRef>, self: OwnerRef): Option<seq<OwnerRef>> {
    var current := ControllerOf(owners);
    if current.Some? && !SameObject(current.value, self) then None else Some(Upsert(owners, self))
  }

  /** The first owner marked as controller. */
  predicate ControllerAt(owners: seq<OwnerRef>, i: int) {
    0 <= i < |owners| && owners[i].controller && forall j :: 0 <= j < i ==> !owners[j].controller
  }

  /** The first reference to the project. */
  predicate ProjectAt(owners: seq<OwnerRef>, project: string, i: int) {
    0 <= i < |owners| && IsProjectOwner(owners[i], project)
    && forall j :: 0 <= j < i ==> !IsProjectOwner(owners[j], project)
  }

  lemma {:induction false} FirstController(owners: seq<OwnerRef>) returns (i: int)
    ensures if ControllerOf(owners).None? then forall j :: 0 <= j < |owners| ==> !owners[j].controller
            else ControllerAt(owners, i) && owners[i] == ControllerOf(owners).value
  {
    i := 0;
    if owners != [] && !owners[0].controller {
      i := FirstController(owners[1..]);
      i := i + 1;
      assert forall j :: 0 < j < |owners| ==> owners[j] == owners[1..][j - 1];
    }
  }

  /** The reference replaces the first to the same project, or is appended; no other moves. */
  lemma {:induction false} UpsertMeaning(owners: seq<OwnerRef>, self: OwnerRef) returns (i: int)
    requires IsProjectOwner(self, self.name)
    ensures if ProjectAt(owners, self.name, i) then Upsert(owners, self) == owners[i := self]
            else Upsert(owners, self) == owners + [self]
                 && forall j :: 0 <= j < |owners| ==> !IsProjectOwner(owners[j], self.name)
  {
    i := 0;
    if owners != [] && !SameObject(owners[0], self) {
      i := UpsertMeaning(owners[1..], self);
      i := i + 1;
      assert owners == [owners[0]] + owners[1..];
      assert forall j :: 0 < j < |owners| ==> owners[j] == owners[1..][j - 1];
    }
  }

  /** Taking control for a project is refused exactly when the first controller is something else. */
  lemma ControlMeaning(owners: seq<OwnerRef>, self: OwnerRef)
    requires IsProjectOwner(self, self.name)
    ensures WithController(owners, self).None?
        <==> exists i :: ControllerAt(owners, i) && !IsProjectOwner(owners[i], self.name)
    ensures WithController(owners, self).Some? ==> WithController(owners, self).value == Upsert(owners, self)
  {
    var i := FirstController(owners);
    hide ParseGroup, ControllerOf, Upsert;
    if j :| ControllerAt(owners, j) && !IsProjectOwner(owners[j], self.name) { assert i == j; }
  }

  lemma {:induction false} UpsertFacts(owners: seq<OwnerRef>, self: OwnerRef)
    requires SameObject(self, self) && self.controller
    requires ControllerOf(owners).None? || SameObject(ControllerOf(owners).value, self)
    ensures Upsert(Upsert(owners, self), self) == Upsert(owners, self)
    ensures ControllerOf(Upsert(owners, self)) == Some(self)
  {
    if owners != [] && !SameObject(owners[0], self) {
      assert !owners[0].controller;
      UpsertFacts(owners[1..], self);
      assert Upsert(owners, self)[1..] == Upsert(owners[1..], self);
    }
  }

  /** Taking control twice is taking control once, and then the object's controller is the owner. */
  lemma WithControllerIdempotent(owners: seq<OwnerRef>, self: OwnerRef)
    requires SameObject(self, self) && self.controller
    requires WithController(owners, self).Some?
    ensures WithController(WithController(owners, self).value, self) == WithController(owners, self)
    ensures ControllerOf(WithController(owners, self).value) == Some(self)
  {
    UpsertFacts(owners, self);
  }
}
