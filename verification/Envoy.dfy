/** The gateway's filter chain: which key a protected request carries, which role
    token and which bearer it is forwarded with, and what happens to its query. */
module Envoy {
  import opened Kube
  import opened Text

  // ---- Scanning the query ---------------------------------------------------

  datatype Pair = Pair(key: string, value: string)

  predicate Stops(c: char) { c == '&' || c == '=' }

  /** Length of the leading run without & and =. */
  function RunLength(s: string): (n: nat)
    ensures n <= |s| && (forall i :: 0 <= i < n ==> !Stops(s[i])) && (n < |s| ==> Stops(s[n]))
  {
    if s == "" || Stops(s[0]) then 0 else 1 + RunLength(s[1..])
  }

  /** string.gmatch(query, "([^&=]+)=([^&]*)"): matches are sought from left to
      right, each search starting where the last match ended. */
  function Scan(s: string): seq<Pair>
    decreases |s|
  {
    if s == "" then []
    else
      var n := RunLength(s);
      if n > 0 && n < |s| && s[n] == '=' then
        var v := Find(s[n + 1..], '&');
        [Pair(s[..n], s[n + 1..][..v])] + Scan(s[n + 1..][v..])
      else Scan(s[1..])
  }

  /** One part of a query as key and value; leading equals signs do not count. */
  function PairOf(part: string): seq<Pair> {
    if part == "" then []
    else if part[0] == '=' then PairOf(part[1..])
    else
      var i := Find(part, '=');
      if i == |part| then [] else [Pair(part[..i], part[i + 1..])]
  }

  function PairsOf(parts: seq<string>): seq<Pair> {
    if parts == [] then [] else PairOf(parts[0]) + PairsOf(parts[1..])
  }

  /** The leading run up to an equals sign, and the value up to the next &. */
  lemma PairInPart(s: string, n: nat, v: nat)
    requires 0 < n < |s| && n == RunLength(s) && s[n] == '=' && v == Find(s[n + 1..], '&')
    ensures Find(s, '&') == n + 1 + v
    ensures var part := s[..n + 1 + v]; Find(part, '=') == n && part[..n] == s[..n] && part[n + 1..] == s[n + 1..][..v]
  {
    RunIsPlain(s, n);
    hide *;
    FindAfter(s, '&', n);
    FindBounds(s[n + 1..]);
    var part := s[..n + 1 + v];
    assert part[..n] == s[..n] && part[n + 1..] == s[n + 1..][..v];
    FindIs(part, '=', n);
  }

  lemma RunIsPlain(s: string, n: nat)
    requires n == RunLength(s) && n < |s| && s[n] == '='
    ensures '&' !in s[..n + 1] && '=' !in s[..n]
  {
    assert forall j :: 0 <= j < n ==> !Stops(s[j]);
    hide RunLength;
  }

  /** A leading run that does not end at an equals sign is the whole part. */
  lemma NoPairInPart(s: string, n: nat)
    requires n == RunLength(s) && (n == |s| || s[n] == '&')
    ensures Find(s, '&') == n && '=' !in s[..n]
  {
    forall j | 0 <= j < n ensures s[j] != '&' && s[j] != '=' { assert !Stops(s[j]); }
    FindIs(s, '&', n);
  }

  lemma FindTail(s: string, c: char)
    requires s != "" && s[0] != c
    ensures Find(s[1..], c) == Find(s, c) - 1 && s[..Find(s, c)][1..] == s[1..][..Find(s[1..], c)]
  {
  }

  lemma NoEquals(part: string)
    requires '=' !in part
    ensures PairOf(part) == []
  {
    assert part[..|part|] == part;
    FindIs(part, '=', |part|);
    assert part != "" ==> part[0] in part;
  }

  /** What the scan yields for the first part, and then for the rest. */
  function FirstScan(s: string): seq<Pair> {
    var i := Find(s, '&');
    PairOf(s[..i]) + if i == |s| then [] else Scan(s[i + 1..])
  }

  /** One match of the scan. */
  lemma ScanMatches(s: string, n: nat, v: nat)
    requires 0 < n < |s| && n == RunLength(s) && s[n] == '=' && v == Find(s[n + 1..], '&')
    ensures Scan(s) == [Pair(s[..n], s[n + 1..][..v])] + Scan(s[n + 1 + v..])
  {
    hide Find, RunLength;
    FindBounds(s[n + 1..]);
    assert s[n + 1..][v..] == s[n + 1 + v..];
  }

  lemma PairIs(part: string, n: nat)
    requires 0 < n < |part| && Find(part, '=') == n
    ensures PairOf(part) == [Pair(part[..n], part[n + 1..])]
  {
    hide Find;
  }

  lemma ScanPair(s: string, n: nat)
    requires 0 < n < |s| && n == RunLength(s) && s[n] == '='
    ensures Scan(s) == FirstScan(s)
  {
    hide *;
    var v := Find(s[n + 1..], '&');
    FindBounds(s[n + 1..]);
    PairInPart(s, n, v);
    ScanMatches(s, n, v);
    var i := n + 1 + v;
    PairIs(s[..i], n);
    FirstScanIs(s);
    if i < |s| {
      FindStops(s);
      ScanSeparator(s[i..]);
      assert s[i..][1..] == s[i + 1..];
    } else {
      assert s[i..] == "";
      ScanNothing();
    }
  }

  lemma FindStops(s: string)
    ensures Find(s, '&') < |s| ==> Stops(s[Find(s, '&')])
  {
  }

  lemma ScanNothing()
    ensures Scan("") == []
  {
  }

  lemma ScanSeparator(s: string)
    requires s != "" && Stops(s[0])
    ensures Scan(s) == Scan(s[1..])
  {
  }

  lemma {:induction false} ScanFirst(s: string)
    ensures Scan(s) == FirstScan(s)
    decreases |s|
  {
    var n := RunLength(s);
    if s == "" {
      assert s[..0] == "";
    } else if n == 0 {
      ScanSeparator(s);
      if s[0] == '&' {
        assert s[..0] == "";
      } else {
        ScanFirst(s[1..]);
        FindTail(s, '&');
        ScanShorter(s);
      }
    } else if n < |s| && s[n] == '=' {
      ScanPair(s, n);
    } else {
      NoPairInPart(s, n);
      ScanFirst(s[1..]);
      FindTail(s, '&');
      ScanShorter(s);
      NoEquals(s[..n]);
      NoEquals(s[..n][1..]);
    }
  }

  /** Dropping the first character of a part drops it from the first scan. */
  lemma ScanShorter(s: string)
    requires s != "" && s[0] != '&'
    ensures var i := Find(s, '&');
            FirstScan(s[1..]) == PairOf(s[..i][1..]) + if i == |s| then [] else Scan(s[i + 1..])
  {
    FindTail(s, '&');
    hide Find, Scan, PairOf;
    var i := Find(s, '&');
    if i < |s| { assert s[1..][i - 1 + 1..] == s[i + 1..]; }
  }

  /** The character-level scan is the list of its parts' pairs. */
  lemma {:induction false} ScanByPart(s: string)
    ensures Scan(s) == PairsOf(Split(s, '&'))
    decreases |s|
  {
    hide *;
    var i := Find(s, '&');
    ScanFirst(s);
    FirstScanIs(s);
    SplitFirst(s);
    if i < |s| {
      ScanByPart(s[i + 1..]);
      PairsCons(s[..i], Split(s[i + 1..], '&'));
    } else {
      PairsCons(s[..i], []);
      assert [s[..i]] + [] == [s[..i]];
    }
  }

  lemma FirstScanIs(s: string)
    ensures var i := Find(s, '&'); FirstScan(s) == PairOf(s[..i]) + if i == |s| then [] else Scan(s[i + 1..])
  {
    hide Find, PairOf, Scan;
  }

  lemma PairsCons(part: string, rest: seq<string>)
    ensures PairsOf([part] + rest) == PairOf(part) + PairsOf(rest)
    ensures PairsOf([]) == []
  {
    hide PairOf;
    assert ([part] + rest)[1..] == rest;
  }

  lemma SplitFirst(s: string)
    ensures var i := Find(s, '&');
            Split(s, '&') == [s[..i]] + if i == |s| then [] else Split(s[i + 1..], '&')
  {
    hide Find;
    assert s[..|s|] == s;
  }

  const APIKEY := "apikey"

  /** The first pair with that key, and with a value if one is demanded. */
  function FirstKey(pairs: seq<Pair>, nonEmpty: bool): Option<string> {
    if pairs == [] then None
    else if pairs[0].key == APIKEY && (nonEmpty ==> pairs[0].value != "") then Some(pairs[0].value)
    else FirstKey(pairs[1..], nonEmpty)
  }

  /** Is this the first apikey pair, or the first with a value? */
  predicate FirstAt(pairs: seq<Pair>, nonEmpty: bool, i: int) {
    && 0 <= i < |pairs| && pairs[i].key == "apikey" && (nonEmpty ==> pairs[i].value != "")
    && forall j :: 0 <= j < i ==> pairs[j].key != "apikey" || (nonEmpty && pairs[j].value == "")
  }

  /** The key found is that of the first such pair, and nothing is found only when there is none. */
  lemma {:induction false} FirstKeyMeaning(pairs: seq<Pair>, nonEmpty: bool) returns (i: int)
    ensures if FirstKey(pairs, nonEmpty).Some?
            then FirstAt(pairs, nonEmpty, i) && FirstKey(pairs, nonEmpty) == Some(pairs[i].value)
            else forall j :: 0 <= j < |pairs| ==> pairs[j].key != "apikey" || (nonEmpty && pairs[j].value == "")
  {
    i := 0;
    if pairs != [] && !(pairs[0].key == APIKEY && (nonEmpty ==> pairs[0].value != "")) {
      var j := FirstKeyMeaning(pairs[1..], nonEmpty);
      i := j + 1;
      assert forall n :: 0 < n < |pairs| ==> pairs[n] == pairs[1..][n - 1];
    }
  }

  function QueryOf(path: string): Option<string> {
    var i := Find(path, '?');
    if i == |path| then None else Some(path[i + 1..])
  }

  function QueryKey(path: Option<string>, nonEmpty: bool): Option<string> {
    if path.None? || QueryOf(path.value).None? then None else FirstKey(Scan(QueryOf(path.value).value), nonEmpty)
  }

  /** The loop both query filters run over string.gmatch. */
  method FindKey(query: string, nonEmpty: bool) returns (value: Option<string>)
    ensures value == FirstKey(Scan(query), nonEmpty)
  {
    var rest := query;
    while rest != ""
      invariant FirstKey(Scan(query), nonEmpty) == FirstKey(Scan(rest), nonEmpty)
      decreases |rest|
    {
      var n := RunLength(rest);
      if n > 0 && n < |rest| && rest[n] == '=' {
        var v := Find(rest[n + 1..], '&');
        var pair := Pair(rest[..n], rest[n + 1..][..v]);
        assert Scan(rest)[0] == pair && Scan(rest)[1..] == Scan(rest[n + 1..][v..]);
        if pair.key == APIKEY && (!nonEmpty || pair.value != "") {
          return Some(pair.value);
        }
        rest := rest[n + 1..][v..];
      } else {
        rest := rest[1..];
      }
    }
    return None;
  }

  // ---- Rewriting the query --------------------------------------------------

  function NonEmpty(parts: seq<string>): (r: seq<string>)
    ensures forall p :: p in r <==> p in parts && p != ""
  {
    if parts == [] then [] else (if parts[0] == "" then [] else [parts[0]]) + NonEmpty(parts[1..])
  }

  /** string.match(part, "^([^=]+)="). */
  predicate NamesKey(part: string) { var i := Find(part, '='); 0 < i < |part| && part[..i] == APIKEY }

  /** The parts that name the key are those that start with its name and an equals sign. */
  lemma NamesKeyMeaning(part: string)
    ensures NamesKey(part) <==> exists value: string :: part == "apikey" + ['='] + value
  {
    var i := Find(part, '=');
    if NamesKey(part) { assert part == part[..i] + ['='] + part[i + 1..]; }
    if value: string :| part == "apikey" + ['='] + value { FindAt("apikey", '=', value); assert part[..6] == "apikey"; }
  }

  function Rekeyed(parts: seq<string>, replacement: string): seq<string> {
    seq(|parts|, i requires 0 <= i < |parts| => if NamesKey(parts[i]) then APIKEY + "=" + replacement else parts[i])
  }

  function Others(parts: seq<string>): seq<string> {
    if parts == [] then [] else (if NamesKey(parts[0]) then [] else [parts[0]]) + Others(parts[1..])
  }

  predicate HasKey(parts: seq<string>) { exists i :: 0 <= i < |parts| && NamesKey(parts[i]) }

  function PartsOf(path: string): seq<string> {
    if QueryOf(path).None? then [] else NonEmpty(Split(QueryOf(path).value, '&'))
  }

  /** replace_query_apikey. */
  function Rewritten(path: string, replacement: string): string {
    if !HasKey(PartsOf(path)) then path
    else path[..Find(path, '?') + 1] + Join(Rekeyed(PartsOf(path), replacement), '&')
  }

  /** The parts as string.gmatch(query, "([^&]+)") yields them. */
  lemma NextPart(rest: string)
    ensures var i := Find(rest, '&');
            NonEmpty(Split(rest, '&')) == (if i == 0 then [] else [rest[..i]])
                + (if i == |rest| then [] else NonEmpty(Split(rest[i + 1..], '&')))
  {
    SplitFirst(rest);
    hide Find, Split;
    var i := Find(rest, '&');
    var more := if i == |rest| then [] else Split(rest[i + 1..], '&');
    assert ([rest[..i]] + more)[1..] == more;
  }

  /** replace_query_apikey: a table built part by part. */
  method ReplaceQueryKey(path: string, replacement: string) returns (r: string)
    ensures r == Rewritten(path, replacement)
  {
    hide *;
    var start := Find(path, '?');
    RewrittenIs(path, replacement);
    if start == |path| {
      return path;
    }
    var parts, replaced := RekeyParts(path[start + 1..], replacement);
    if !replaced {
      return path;
    }
    return path[..start + 1] + Join(parts, '&');
  }

  lemma RewrittenIs(path: string, replacement: string)
    ensures var start := Find(path, '?');
            Rewritten(path, replacement) ==
              if start == |path| then path
              else
                var parts := NonEmpty(Split(path[start + 1..], '&'));
                if HasKey(parts) then path[..start + 1] + Join(Rekeyed(parts, replacement), '&') else path
  {
    hide Find, Split, NonEmpty, Rekeyed, NamesKey, Join;
  }

  method RekeyParts(query: string, replacement: string) returns (parts: seq<string>, replaced: bool)
    ensures var all := NonEmpty(Split(query, '&')); parts == Rekeyed(all, replacement) && (replaced <==> HasKey(all))
  {
    hide *;
    var rest := query;
    parts, replaced := [], false;
    ghost var done: seq<string> := [];
    ghost var all := NonEmpty(Split(query, '&'));
    RekeyedNone(replacement);
    while rest != ""
      invariant all == done + NonEmpty(Split(rest, '&'))
      invariant parts == Rekeyed(done, replacement)
      invariant replaced <==> HasKey(done)
      decreases |rest|
    {
      NextPart(rest);
      FindBounds(rest);
      var i := Find(rest, '&');
      var part := rest[..i];
      rest := if i == |rest| then "" else rest[i + 1..];
      if i > 0 {
        RekeyedMore(done, part, replacement);
        done := done + [part];
        if NamesKey(part) {
          part := APIKEY + "=" + replacement;
          replaced := true;
        }
        parts := parts + [part];
      }
      NoParts();
    }
    NoParts();
    assert all == done;
  }

  lemma NoParts()
    ensures NonEmpty(Split("", '&')) == []
  {
    NextPart("");
  }

  lemma FindBounds(s: string)
    ensures Find(s, '&') <= |s|
  {
  }

  lemma RekeyedNone(replacement: string)
    ensures Rekeyed([], replacement) == [] && !HasKey([])
  {
  }

  lemma RekeyedMore(done: seq<string>, part: string, replacement: string)
    ensures Rekeyed(done + [part], replacement) == Rekeyed(done, replacement)
        + [if NamesKey(part) then APIKEY + "=" + replacement else part]
    ensures HasKey(done + [part]) <==> HasKey(done) || NamesKey(part)
  {
    assert (done + [part])[|done|] == part;
    if HasKey(done) {
      var i :| 0 <= i < |done| && NamesKey(done[i]);
      assert (done + [part])[i] == done[i];
    }
  }

  lemma {:induction false} NamesTheKey(replacement: string)
    ensures NamesKey(APIKEY + "=" + replacement)
  {
    FindAt(APIKEY, '=', replacement);
    assert (APIKEY + ['='] + replacement) == APIKEY + "=" + replacement;
    assert (APIKEY + "=" + replacement)[..6] == APIKEY;
  }

  lemma {:induction false} OthersRekeyed(parts: seq<string>, replacement: string)
    ensures Others(Rekeyed(parts, replacement)) == Others(parts)
  {
    NamesTheKey(replacement);
    if parts != [] {
      assert Rekeyed(parts, replacement)[1..] == Rekeyed(parts[1..], replacement);
      OthersRekeyed(parts[1..], replacement);
    }
  }

  lemma {:induction false} NonEmptyKept(parts: seq<string>)
    requires forall p :: p in parts ==> p != ""
    ensures NonEmpty(parts) == parts
  {
    if parts != [] {
      assert parts[0] in parts && forall p :: p in parts[1..] ==> p in parts;
      NonEmptyKept(parts[1..]);
      assert parts == [parts[0]] + parts[1..];
    }
  }

  /** Rewriting leaves the part before the query, keeps every other part in order,
      and gives every part that names the key the replacement. */
  lemma RewrittenParts(path: string, replacement: string)
    requires HasKey(PartsOf(path)) && '&' !in replacement
    ensures var r := Rewritten(path, replacement);
            && r[..Find(path, '?') + 1] == path[..Find(path, '?') + 1] && Find(r, '?') == Find(path, '?')
            && PartsOf(r) == Rekeyed(PartsOf(path), replacement)
            && Others(PartsOf(r)) == Others(PartsOf(path))
            && forall p :: p in PartsOf(r) && NamesKey(p) ==> p == APIKEY + "=" + replacement
  {
    hide *;
    var parts := PartsOf(path);
    NewQuery(path, replacement);
    RekeyedClean(path, replacement);
    JoinedParts(Rewritten(path, replacement), Rekeyed(parts, replacement));
    OthersRekeyed(parts, replacement);
    RekeyedNames(parts, replacement);
  }

  /** The query after rewriting, behind an unchanged start. */
  lemma NewQuery(path: string, replacement: string)
    requires HasKey(PartsOf(path))
    ensures var r := Rewritten(path, replacement);
            && r[..Find(path, '?') + 1] == path[..Find(path, '?') + 1] && Find(r, '?') == Find(path, '?')
            && QueryOf(r) == Some(Join(Rekeyed(PartsOf(path), replacement), '&'))
  {
    NamedIsQuery(path);
    hide Find, Join, Rekeyed, HasKey, PartsOf;
    var start := Find(path, '?');
    var query := Join(Rekeyed(PartsOf(path), replacement), '&');
    assert path[..start + 1] == path[..start] + ['?'];
    FindAt(path[..start], '?', query);
    assert (path[..start] + ['?'] + query)[start + 1..] == query;
  }

  lemma NamedIsQuery(path: string)
    requires HasKey(PartsOf(path))
    ensures QueryOf(path).Some? && Find(path, '?') < |path| && path[Find(path, '?')] == '?'
        && '?' !in path[..Find(path, '?')]
  {
  }

  lemma RekeyedClean(path: string, replacement: string)
    requires HasKey(PartsOf(path)) && '&' !in replacement
    ensures Rekeyed(PartsOf(path), replacement) != []
    ensures forall p :: p in Rekeyed(PartsOf(path), replacement) ==> '&' !in p && p != ""
  {
    NoAmpersand(path);
    hide PartsOf, NamesKey;
  }

  /** A query of non-empty parts joined by & has those parts. */
  lemma JoinedParts(path: string, parts: seq<string>)
    requires QueryOf(path) == Some(Join(parts, '&')) && parts != []
    requires forall p :: p in parts ==> '&' !in p && p != ""
    ensures PartsOf(path) == parts
  {
    hide Join, Split, QueryOf, NonEmpty;
    SplitJoin(parts, '&');
    NonEmptyKept(parts);
  }

  lemma RekeyedNames(parts: seq<string>, replacement: string)
    ensures forall p :: p in Rekeyed(parts, replacement) && NamesKey(p) ==> p == APIKEY + "=" + replacement
  {
    hide NamesKey;
  }

  lemma NoAmpersand(path: string)
    ensures forall i :: 0 <= i < |PartsOf(path)| ==> '&' !in PartsOf(path)[i] && PartsOf(path)[i] != ""
  {
    forall i | 0 <= i < |PartsOf(path)| ensures '&' !in PartsOf(path)[i] && PartsOf(path)[i] != "" {
      assert PartsOf(path)[i] in PartsOf(path);
    }
  }

  // ---- The filters ----------------------------------------------------------

  datatype Route = AuthProtected | RestOpenApiProtected | RestProtected | PgProtected | Unprotected

  predicate Protected(route: Route) { route != Unprotected }

  datatype Keys = Keys(publishable: string, secret: string, anon: string, service: string)

  function Translate(k: Keys, key: string): Option<string> {
    if key == k.publishable then Some(k.anon) else if key == k.secret then Some(k.service) else None
  }

  datatype Headers = Headers(apikey: Option<string>, authorization: Option<string>, path: Option<string>)

  function Copied(h: Headers): Headers {
    if h.apikey.Some? then h else h.(apikey := QueryKey(h.path, true))
  }

  predicate Admitted(k: Keys, h: Headers) { h.apikey.Some? && Translate(k, h.apikey.value).Some? }

  function QueryToken(k: Keys, path: Option<string>): Option<string> {
    if QueryKey(path, false).None? then None else Translate(k, QueryKey(path, false).value)
  }

  function QueryTranslated(k: Keys, h: Headers): Headers {
    var token := QueryToken(k, h.path);
    if token.None? then h else h.(apikey := token, path := Some(Rewritten(h.path.value, token.value)))
  }

  function HeaderTranslated(k: Keys, h: Headers): Headers {
    if h.apikey.Some? && Translate(k, h.apikey.value).Some? then h.(apikey := Translate(k, h.apikey.value)) else h
  }

  const BEARER := "Bearer "
  const OPAQUE := "sb_"

  predicate StartsWith(s: string, prefix: string) { |prefix| <= |s| && s[..|prefix|] == prefix }

  /** Three dot-separated segments, none empty. */
  predicate Dotted(token: string) {
    var parts := Split(token, '.');
    |parts| == 3 && parts[0] != "" && parts[1] != "" && parts[2] != ""
  }

  predicate Genuine(authorization: Option<string>) {
    && authorization.Some? && StartsWith(authorization.value, BEARER)
    && var token := authorization.value[|BEARER|..]; token != "" && !StartsWith(token, OPAQUE) && Dotted(token)
  }

  function WithBearer(h: Headers): Headers {
    if Genuine(h.authorization) || h.apikey.None? || h.apikey.value == "" then h
    else h.(authorization := Some(BEARER + h.apikey.value))
  }

  /** Who may pass after translation: the role tokens, and only the service role to the meta and schema routes. */
  predicate Permitted(k: Keys, route: Route, apikey: Option<string>) {
    match route
    case Unprotected => true
    case AuthProtected => apikey == Some(k.anon) || apikey == Some(k.service)
    case RestProtected => apikey == Some(k.anon) || apikey == Some(k.service)
    case _ => apikey == Some(k.service)
  }

  datatype Outcome = Forwarded(headers: Headers) | Unauthorized | Forbidden

  /** The chain on a protected route. */
  function Guarded(k: Keys, route: Route, h: Headers): Outcome {
    var c := Copied(h);
    if !Admitted(k, c) then Unauthorized
    else
      var r := WithBearer(HeaderTranslated(k, QueryTranslated(k, c)));
      if Permitted(k, route, r.apikey) then Forwarded(r) else Forbidden
  }

  /** A request passing through the filters, its headers changed in place. */
  class Request {
    const route: Route
    var apikey: Option<string>
    var authorization: Option<string>
    var path: Option<string>

    constructor (route: Route, h: Headers)
      ensures this.route == route && View() == h
    {
      this.route := route;
      apikey, authorization, path := h.apikey, h.authorization, h.path;
    }

    function View(): Headers reads this { Headers(apikey, authorization, path) }

    method CopyQueryKey()
      modifies this
      ensures View() == if Protected(route) then Copied(old(View())) else old(View())
    {
      hide Find, Scan;
      if Protected(route) && apikey.None? && path.Some? {
        var start := Find(path.value, '?');
        if start != |path.value| {
          apikey := FindKey(path.value[start + 1..], true);
        }
      }
    }

    method Admit(k: Keys) returns (ok: bool)
      ensures ok <==> Protected(route) ==> Admitted(k, View())
    {
      ok := !Protected(route) || apikey == Some(k.publishable) || apikey == Some(k.secret);
    }

    method TranslateQuery(k: Keys)
      modifies this
      ensures View() == if Protected(route) then QueryTranslated(k, old(View())) else old(View())
    {
      hide Find, Scan, Rewritten, Translate;
      if Protected(route) && path.Some? {
        var start := Find(path.value, '?');
        if start != |path.value| {
          var key := FindKey(path.value[start + 1..], false);
          var token := if key.None? then None else Translate(k, key.value);
          if token.Some? {
            var rewritten := ReplaceQueryKey(path.value, token.value);
            apikey, path := token, Some(rewritten);
          }
        }
      }
    }

    method TranslateHeader(k: Keys)
      modifies this
      ensures View() == HeaderTranslated(k, old(View()))
    {
      if apikey == Some(k.publishable) {
        apikey := Some(k.anon);
      } else if apikey == Some(k.secret) {
        apikey := Some(k.service);
      }
    }

    method SynthesizeBearer()
      modifies this
      ensures View() == if Protected(route) then WithBearer(old(View())) else old(View())
    {
      if !Protected(route) || Genuine(authorization) {
        return;
      }
      if apikey.Some? && apikey.value != "" {
        authorization := Some(BEARER + apikey.value);
      }
    }

    /** The filters in the order of the listener, then the RBAC filter. */
    method Filter(k: Keys) returns (outcome: Outcome)
      modifies this
      ensures Protected(route) ==> outcome == Guarded(k, route, old(View()))
      ensures !Protected(route) ==>
                outcome == Forwarded(old(View()).(apikey :=
                  if old(apikey) == Some(k.publishable) then Some(k.anon)
                  else if old(apikey) == Some(k.secret) then Some(k.service) else old(apikey)))
    {
      CopyQueryKey();
      var ok := Admit(k);
      if !ok {
        return Unauthorized;
      }
      TranslateQuery(k);
      TranslateHeader(k);
      SynthesizeBearer();
      if Permitted(k, route, apikey) {
        outcome := Forwarded(View());
      } else {
        outcome := Forbidden;
      }
    }
  }

  // ---- What comes out -------------------------------------------------------

  /** One of the two keys a project hands out. */
  predicate IsKey(k: Keys, key: Option<string>) { key == Some(k.publishable) || key == Some(k.secret) }

  lemma TranslateMeaning(k: Keys, key: string)
    ensures Translate(k, key) ==
              if !IsKey(k, Some(key)) then None else if key == k.publishable then Some(k.anon) else Some(k.service)
  {
  }

  /** A bearer is genuine exactly when it is "Bearer " and three segments without dots,
      none empty, that do not start like an opaque key. */
  lemma GenuineMeaning(value: string)
    ensures Genuine(Some(value))
        <==> exists a: string, b: string, c: string :: Segments(value, "Bearer ", a, b, c) && !StartsWith(a, "sb_")
  {
    hide Split;
    if Genuine(Some(value)) {
      var token := value[|BEARER|..];
      var p := Split(token, '.');
      ThreeParts(token);
      assert value == BEARER + token;
      assert Segments(value, "Bearer ", p[0], p[1], p[2]);
      StartInFirst(token, p[0], p[1] + "." + p[2]);
    }
    if a: string, b: string, c: string :| Segments(value, "Bearer ", a, b, c) && !StartsWith(a, "sb_") {
      var token := a + "." + b + "." + c;
      assert value[|BEARER|..] == token && value[..|BEARER|] == BEARER;
      SplitThree(a, b, c);
      StartInFirst(token, a, b + "." + c);
    }
  }

  /** `prefix` followed by three segments. */
  predicate Segments(value: string, prefix: string, a: string, b: string, c: string) {
    value == prefix + (a + "." + b + "." + c) && a != "" && b != "" && c != "" && '.' !in a && '.' !in b && '.' !in c
  }

  /** A text starts like an opaque key exactly when its first segment does. */
  lemma StartInFirst(token: string, first: string, rest: string)
    requires token == first + "." + rest
    ensures StartsWith(first, OPAQUE) <==> StartsWith(token, OPAQUE)
  {
    if StartsWith(token, OPAQUE) {
      assert token[..3][0] != '.' && token[..3][1] != '.' && token[..3][2] != '.';
      assert token[|first|] == '.';
      assert token[..3] == first[..3];
    } else if |first| >= 3 {
      assert token[..3] == first[..3];
    }
  }

  /** Keys and tokens as bundle validation leaves them: opaque keys are distinct and
      hold neither dots nor separators, role tokens have three segments and are no opaque keys. */
  predicate ValidKeys(k: Keys) {
    && k.publishable != k.secret && '.' !in k.publishable && '.' !in k.secret
    && StartsWith(k.secret, OPAQUE) && '&' !in k.secret
    && Dotted(k.anon) && Dotted(k.service) && !StartsWith(k.anon, OPAQUE) && !StartsWith(k.service, OPAQUE)
    && '&' !in k.anon && '&' !in k.service
  }

  lemma DottedHasDot(token: string)
    requires Dotted(token)
    ensures '.' in token && token != ""
  {
    if '.' !in token { SplitAt(token, '.', ""); }
  }

  /** A role token is never taken for an opaque key. */
  lemma TokensAreNotKeys(k: Keys, token: string)
    requires ValidKeys(k) && (token == k.anon || token == k.service)
    ensures !IsKey(k, Some(token)) && Translate(k, token).None? && token != ""
  {
    DottedHasDot(token);
  }

  lemma BearerIsGenuine(token: string)
    requires Dotted(token) && !StartsWith(token, OPAQUE)
    ensures Genuine(Some(BEARER + token))
  {
    DottedHasDot(token);
    assert (BEARER + token)[|BEARER|..] == token && (BEARER + token)[..|BEARER|] == BEARER;
  }

  /** The key that decides about a request: the first apikey pair of the query when it
      holds one of the two keys, else the header, or failing a header the first non-empty
      apikey of the query; but without one of the two keys there, none does. */
  function DecidingKey(k: Keys, h: Headers): Option<string> {
    var header := if h.apikey.Some? then h.apikey else QueryKey(h.path, true);
    if !IsKey(k, header) then None
    else if IsKey(k, QueryKey(h.path, false)) then QueryKey(h.path, false) else header
  }

  predicate ServiceOnly(route: Route) { route == PgProtected || route == RestOpenApiProtected }

  /** What a request is forwarded with for a role token: the token as apikey, and as bearer
      unless a genuine one was sent, and in the query where that held one of the keys. */
  function WithToken(k: Keys, h: Headers, token: string): Headers {
    Headers(Some(token), if Genuine(h.authorization) then h.authorization else Some("Bearer " + token),
            if IsKey(k, QueryKey(h.path, false)) then Some(Rewritten(h.path.value, token)) else h.path)
  }

  /** Every request on a protected route, by the key that decides: without one it is turned
      away; the publishable key makes it anonymous, which the meta and schema routes forbid
      unless the two role tokens are one; the secret key makes it the service role's. */
  lemma ChainMeaning(k: Keys, route: Route, h: Headers)
    requires ValidKeys(k) && Protected(route)
    ensures match DecidingKey(k, h)
            case None => Guarded(k, route, h) == Unauthorized
            case Some(key) =>
              && (key == k.publishable || key == k.secret)
              && (key == k.publishable ==>
                    Guarded(k, route, h) == if ServiceOnly(route) && k.anon != k.service then Forbidden
                                            else Forwarded(WithToken(k, h, k.anon)))
              && (key == k.secret ==> Guarded(k, route, h) == Forwarded(WithToken(k, h, k.service)))
  {
    hide Dotted, Scan, QueryOf, Rewritten, Genuine, FirstKey;
    TokensAreNotKeys(k, k.anon);
    TokensAreNotKeys(k, k.service);
  }

  /** What is forwarded from a protected route always carries a genuine bearer. */
  lemma ForwardedIsGenuine(k: Keys, route: Route, h: Headers)
    requires ValidKeys(k) && Protected(route) && Guarded(k, route, h).Forwarded?
    ensures Genuine(Guarded(k, route, h).headers.authorization)
  {
    hide Dotted, Guarded, QueryKey, Rewritten;
    ChainMeaning(k, route, h);
    BearerIsGenuine(k.anon);
    BearerIsGenuine(k.service);
  }

  // ---- Which opaque keys stay in the URL ------------------------------------

  /** A pair that carries one of the two opaque keys. */
  predicate Opaque(k: Keys, pair: Pair) { pair.key == "apikey" && IsKey(k, Some(pair.value)) }

  predicate AnyOpaque(k: Keys, pairs: seq<Pair>) { exists i :: 0 <= i < |pairs| && Opaque(k, pairs[i]) }

  /** Scanning the path's query the way the filters do, an opaque key is found. */
  predicate ShowsKey(k: Keys, path: string) { QueryOf(path).Some? && AnyOpaque(k, Scan(QueryOf(path).value)) }

  predicate PartShows(k: Keys, part: string) { AnyOpaque(k, PairOf(part)) }

  /** The key behind at least one leading equals sign. */
  predicate HidesKey(k: Keys, part: string) { part != "" && part[0] == '=' && PartShows(k, part) }

  predicate AnyShows(k: Keys, parts: seq<string>) { exists i :: 0 <= i < |parts| && PartShows(k, parts[i]) }

  predicate AnyHides(k: Keys, parts: seq<string>) { exists i :: 0 <= i < |parts| && HidesKey(k, parts[i]) }

  lemma OpaqueConcat(k: Keys, a: seq<Pair>, b: seq<Pair>)
    ensures AnyOpaque(k, a + b) <==> AnyOpaque(k, a) || AnyOpaque(k, b)
  {
    hide Opaque;
    if AnyOpaque(k, a) {
      var i :| 0 <= i < |a| && Opaque(k, a[i]);
      assert Opaque(k, (a + b)[i]);
    }
    if AnyOpaque(k, b) {
      var i :| 0 <= i < |b| && Opaque(k, b[i]);
      assert Opaque(k, (a + b)[|a| + i]);
    }
  }

  lemma {:induction false} PartsShow(k: Keys, parts: seq<string>)
    ensures AnyOpaque(k, PairsOf(parts)) <==> AnyShows(k, parts)
  {
    hide Opaque, PairOf;
    if parts != [] {
      PartsShow(k, parts[1..]);
      OpaqueConcat(k, PairOf(parts[0]), PairsOf(parts[1..]));
      assert AnyShows(k, parts[1..]) ==> AnyShows(k, parts) by {
        if AnyShows(k, parts[1..]) {
          var i :| 0 <= i < |parts[1..]| && PartShows(k, parts[1..][i]);
          assert PartShows(k, parts[i + 1]);
        }
      }
      assert forall i :: 0 < i < |parts| ==> parts[i] == parts[1..][i - 1];
    }
  }

  lemma {:induction false} EmptyPartsShowNothing(parts: seq<string>)
    ensures PairsOf(NonEmpty(parts)) == PairsOf(parts)
  {
    if parts != [] {
      var rest := NonEmpty(parts[1..]);
      EmptyPartsShowNothing(parts[1..]);
      if parts[0] == "" {
        assert [] + rest == rest;
      } else {
        PairsCons(parts[0], rest);
      }
    }
  }

  /** What the scan of a path's query shows is what its parts show. */
  lemma ShownByParts(k: Keys, path: string)
    ensures ShowsKey(k, path) <==> AnyShows(k, PartsOf(path))
  {
    hide Opaque, Scan, Split, PairsOf, NonEmpty, QueryOf;
    if QueryOf(path).Some? {
      var query := QueryOf(path).value;
      ScanByPart(query);
      EmptyPartsShowNothing(Split(query, '&'));
      PartsShow(k, PartsOf(path));
    }
  }

  /** A part that shows a key names it, unless it starts with an equals sign. */
  lemma ShowsOrNames(k: Keys, part: string)
    ensures PartShows(k, part) ==> NamesKey(part) || HidesKey(k, part)
    ensures HidesKey(k, part) ==> !NamesKey(part)
  {
    hide IsKey;
    if part != "" && part[0] == '=' {
      assert part[..0] == "";
      FindIs(part, '=', 0);
    }
  }

  /** With a role token in its place no part shows an opaque key. */
  lemma TokenShowsNothing(k: Keys, token: string)
    requires !IsKey(k, Some(token))
    ensures !PartShows(k, APIKEY + "=" + token)
  {
    var part: string := APIKEY + ['='] + token;
    FindAt(APIKEY, '=', token);
    assert part == APIKEY + "=" + token && part[..6] == APIKEY && part[7..] == token;
    hide Find, IsKey;
    assert PairOf(part) == [Pair(APIKEY, token)];
  }

  lemma RekeyedShows(k: Keys, parts: seq<string>, token: string)
    requires !IsKey(k, Some(token))
    ensures AnyShows(k, Rekeyed(parts, token)) <==> AnyHides(k, parts)
  {
    TokenShowsNothing(k, token);
    hide PartShows, NamesKey, IsKey;
    forall i | 0 <= i < |parts| ensures PartShows(k, Rekeyed(parts, token)[i]) <==> HidesKey(k, parts[i]) {
      ShowsOrNames(k, parts[i]);
    }
    var rekeyed := Rekeyed(parts, token);
    if AnyHides(k, parts) {
      var i :| 0 <= i < |parts| && HidesKey(k, parts[i]);
      assert PartShows(k, rekeyed[i]);
    }
  }

  /** For every path whose first apikey pair holds one of the keys, and the role token it is
      worth: after the translation its query still shows an opaque key if and only if one of
      its parts has such a key behind a leading equals sign. Otherwise every named key became
      the role token and all other parts are kept in order. */
  lemma KeyLeavesPath(k: Keys, path: string)
    requires ValidKeys(k) && IsKey(k, QueryKey(Some(path), false))
    ensures var r := QueryTranslated(k, Headers(None, None, Some(path))).path.value;
            var token := if QueryKey(Some(path), false) == Some(k.publishable) then k.anon else k.service;
            && (ShowsKey(k, r) <==> AnyHides(k, PartsOf(path)))
            && (!HasKey(PartsOf(path)) ==> r == path)
            && (HasKey(PartsOf(path)) ==>
                  && Others(PartsOf(r)) == Others(PartsOf(path))
                  && (forall p :: p in PartsOf(r) && NamesKey(p) ==> p == "apikey=" + token))
  {
    hide Dotted, Scan, PartsOf, NamesKey, Rewritten, ShowsKey, AnyShows, AnyHides, QueryKey;
    var token := if QueryKey(Some(path), false) == Some(k.publishable) then k.anon else k.service;
    TranslateMeaning(k, QueryKey(Some(path), false).value);
    TokensAreNotKeys(k, token);
    RekeyedShows(k, PartsOf(path), token);
    if HasKey(PartsOf(path)) {
      RewrittenParts(path, token);
      ShownByParts(k, Rewritten(path, token));
    } else {
      NotRewritten(path, token);
      ShownByParts(k, path);
      NothingNamed(PartsOf(path), token);
    }
  }

  lemma NothingNamed(parts: seq<string>, replacement: string)
    requires !HasKey(parts)
    ensures Rekeyed(parts, replacement) == parts
  {
  }

  /** The URL any forwarded request leaves with: translated, it shows an opaque key
      exactly when one was behind a leading equals sign; else it is as it came. */
  lemma ForwardedQuery(k: Keys, route: Route, h: Headers)
    requires ValidKeys(k) && Protected(route) && h.path.Some? && Guarded(k, route, h).Forwarded?
    ensures var r := Guarded(k, route, h).headers.path;
            && r.Some?
            && (IsKey(k, QueryKey(h.path, false)) ==> (ShowsKey(k, r.value) <==> AnyHides(k, PartsOf(h.path.value))))
            && (!IsKey(k, QueryKey(h.path, false)) ==> r == h.path)
  {
    hide Dotted, Guarded, Rewritten, ShowsKey, AnyHides, PartsOf, QueryKey, Genuine;
    ChainMeaning(k, route, h);
    if IsKey(k, QueryKey(h.path, false)) {
      TranslateMeaning(k, QueryKey(h.path, false).value);
      KeyLeavesPath(k, h.path.value);
    }
  }

  lemma NotRewritten(path: string, replacement: string)
    requires !HasKey(PartsOf(path))
    ensures Rewritten(path, replacement) == path
  {
    hide PartsOf, HasKey;
  }

  /** Behind a leading equals sign a key admits the request and is translated, but the
      request is forwarded with the key in its URL. */
  lemma KeyStays(k: Keys, route: Route, h: Headers, start: string, query: string)
    requires ValidKeys(k) && Protected(route) && '?' !in start && h.apikey.None?
    requires h.path == Some(start + ['?'] + query) && query == "=" + (APIKEY + ['='] + k.secret)
    ensures Guarded(k, route, h) ==
              Forwarded(Headers(Some(k.service), if Genuine(h.authorization) then h.authorization
                  else Some(BEARER + k.service), h.path))
    ensures ShowsKey(k, h.path.value)
  {
    var path := start + ['?'] + query;
    QueryAfterMark(path, start, query);
    LeadingEquals(k.secret);
    NotNamed(query, APIKEY + ['='] + k.secret);
    OnePart(query, k.secret);
    hide *;
    QueryReads(path, query);
    NotRewritten(path, k.service);
    SecretFound(k, path, query);
    SecretForwards(k, route, h);
  }

  lemma OnePart(query: string, value: string)
    requires query == "=" + (APIKEY + ['='] + value) && '&' !in value
    ensures Split(query, '&') == [query] && query != ""
  {
    hide Split;
    SplitAt(query, '&', "");
  }

  lemma SecretFound(k: Keys, path: string, query: string)
    requires ValidKeys(k) && QueryOf(path) == Some(query) && Scan(query) == [Pair(APIKEY, k.secret)]
    ensures QueryKey(Some(path), true) == QueryKey(Some(path), false) == Some(k.secret) && ShowsKey(k, path)
  {
    hide Scan, QueryOf, Dotted;
    assert Opaque(k, Scan(query)[0]);
  }

  lemma SecretForwards(k: Keys, route: Route, h: Headers)
    requires ValidKeys(k) && Protected(route) && h.apikey.None? && h.path.Some?
        && Rewritten(h.path.value, k.service) == h.path.value
    requires QueryKey(h.path, true) == QueryKey(h.path, false) == Some(k.secret)
    ensures Guarded(k, route, h) ==
              Forwarded(Headers(Some(k.service), if Genuine(h.authorization) then h.authorization
                  else Some(BEARER + k.service), h.path))
  {
    hide Dotted, QueryKey, Rewritten, Genuine, Guarded;
    ChainMeaning(k, route, h);
  }

  lemma QueryAfterMark(path: string, start: string, query: string)
    requires path == start + ['?'] + query && '?' !in start
    ensures QueryOf(path) == Some(query)
  {
    FindAt(start, '?', query);
    assert path[|start| + 1..] == query;
  }

  lemma NotNamed(query: string, pair: string)
    requires query == "=" + pair
    ensures !NamesKey(query)
  {
    assert query[..0] == "" && query[0] == '=';
    FindIs(query, '=', 0);
  }

  lemma LeadingEquals(value: string)
    requires '&' !in value
    ensures Scan("=" + (APIKEY + ['='] + value)) == [Pair(APIKEY, value)]
  {
    var pair: string := APIKEY + ['='] + value;
    var query: string := "=" + pair;
    PairAfterEquals(query, pair, value);
    assert '&' !in query;
    hide *;
    ScanByPart(query);
    SplitAt(query, '&', "");
    PairsCons(query, []);
    assert [query] + [] == [query];
  }

  lemma PairAfterEquals(query: string, pair: string, value: string)
    requires pair == APIKEY + ['='] + value && query == "=" + pair
    ensures PairOf(query) == [Pair(APIKEY, value)]
  {
    FindAt(APIKEY, '=', value);
    assert query[1..] == pair && pair[..6] == APIKEY && pair[7..] == value;
    hide Find;
    assert PairOf(query) == PairOf(pair);
  }

  lemma QueryReads(path: string, query: string)
    requires QueryOf(path) == Some(query) && query != "" && Split(query, '&') == [query] && !NamesKey(query)
    ensures PartsOf(path) == [query] && !HasKey(PartsOf(path))
  {
    hide Split, NamesKey, QueryOf;
    assert [query][1..] == [];
    assert NonEmpty([query]) == [query] + NonEmpty([query][1..]);
  }
}
