/** The list of schemas PowerSync replicates: which lists are accepted, the
    publication built from one, and the grant script that has to agree with it. */
module Publications {
  import opened Kube

  datatype SchemaError = EmptyList | NotIdentifier(index: nat) | Duplicate(schema: string)
  datatype Accepted = Accepted(schemas: seq<string>) | Refused(error: SchemaError)

  predicate IsLetter(c: char) { 'a' <= c <= 'z' || c == '_' }
  predicate IsLetterOrDigit(c: char) { IsLetter(c) || '0' <= c <= '9' }

  /** A lower-case ASCII identifier of 1 to 63 characters. */
  predicate IsIdentifier(s: string) {
    && 1 <= |s| <= 63
    && IsLetter(s[0])
    && forall i :: 0 <= i < |s| ==> IsLetterOrDigit(s[i])
  }

  predicate Distinct(s: seq<string>) { forall i, j :: 0 <= i < j < |s| ==> s[i] != s[j] }

  predicate AllIdentifiers(s: seq<string>) { forall i :: 0 <= i < |s| ==> IsIdentifier(s[i]) }

  /** The contract of a list: omitted, or non-empty, free of duplicates and made of identifiers. */
  predicate Acceptable(schemas: Option<seq<string>>) {
    schemas.Some? ==> schemas.value != [] && Distinct(schemas.value) && AllIdentifiers(schemas.value)
  }

  const PUBLIC := "public"

  /** The list in effect: only an omitted one is replaced by the default. */
  function Effective(schemas: Option<seq<string>>): Option<seq<string>> {
    if schemas.None? then Some([PUBLIC]) else if Acceptable(schemas) then schemas else None
  }

  /** The regular expression and the length bound, checked character by character. */
  method MatchesIdentifier(s: string) returns (ok: bool)
    ensures ok <==> IsIdentifier(s)
  {
    if |s| > 63 || s == "" || !('a' <= s[0] <= 'z' || s[0] == '_') {
      return false;
    }
    for i := 0 to |s|
      invariant forall j :: 0 <= j < i ==> IsLetterOrDigit(s[j])
    {
      if !('a' <= s[i] <= 'z' || s[i] == '_' || '0' <= s[i] <= '9') {
        return false;
      }
    }
    return true;
  }

  /** EffectivePublicationSchemas: one loop over the list and a map of those seen. */
  method EffectivePublicationSchemas(schemas: Option<seq<string>>) returns (r: Accepted)
    ensures r.Accepted? <==> Acceptable(schemas)
    ensures r.Accepted? ==> Effective(schemas) == Some(r.schemas)
    ensures schemas.None? ==> r == Accepted(["public"])
    ensures r.Refused? && r.error.EmptyList? ==> schemas == Some([])
    ensures r.Refused? && r.error.NotIdentifier? ==>
              var i := r.error.index;
              && i < |schemas.value| && !IsIdentifier(schemas.value[i])
              && AllIdentifiers(schemas.value[..i]) && Distinct(schemas.value[..i])
    ensures r.Refused? && r.error.Duplicate? ==>
              exists i, j :: 0 <= i < j < |schemas.value|
                             && schemas.value[i] == schemas.value[j] == r.error.schema
                             && Distinct(schemas.value[..j])
  {
    if schemas.None? {
      return Accepted([PUBLIC]);
    }
    var list := schemas.value;
    if |list| == 0 {
      return Refused(EmptyList);
    }
    var seen: map<string, bool> := map[];
    hide IsIdentifier;
    for i := 0 to |list|
      invariant forall j :: 0 <= j < i ==> IsIdentifier(list[j])
      invariant forall j, k :: 0 <= j < k < i ==> list[j] != list[k]
      invariant forall s :: s in seen ==> seen[s] && exists j :: 0 <= j < i && list[j] == s
      invariant forall j :: 0 <= j < i ==> list[j] in seen
    {
      var schema := list[i];
      var ok := MatchesIdentifier(schema);
      if !ok {
        return Refused(NotIdentifier(i));
      }
      if schema in seen && seen[schema] {
        return Refused(Duplicate(schema));
      }
      seen := seen[schema := true];
    }
    return Accepted(list);
  }
}
