/** The gateway under a credential bundle the validator accepts: its keys and tokens are
    fit for the filter chain, and what a protected route forwards can be verified. */
module Gateway {
  import opened Kube
  import opened Text
  import opened Base64
  import opened Credentials
  import opened Envoy

  /** A JSON text is not empty and starts with an ASCII character (section 2 of RFC 8259). */
  ghost predicate ReadsJson(cr: Crypto) {
    && (forall b :: cr.header(b).Some? ==> b != [] && b[0] < 128)
    && (forall b :: cr.claims(b).Some? ==> b != [] && b[0] < 128)
  }

  /** The keys of a bundle as the gateway is given them. */
  function KeysOf(data: Fields, stringData: Fields): Keys {
    Keys(ValueOf(data, stringData, PublishableKey), ValueOf(data, stringData, SecretKey),
         ValueOf(data, stringData, AnonRoleJwt), ValueOf(data, stringData, ServiceRoleJwt))
  }

  // ---- Opaque keys ----------------------------------------------------------

  lemma AlphabetSpares(s: string)
    requires AllInAlphabet(s)
    ensures '.' !in s && '&' !in s
  {
    assert forall i :: 0 <= i < |s| ==> InAlphabet(s[i]);
  }

  lemma OpaqueIsPlain(cr: Crypto, value: string, prefix: string)
    requires IsOpaque(cr, value, prefix) && StartsWith(prefix, OPAQUE) && '.' !in prefix && '&' !in prefix
    ensures StartsWith(value, OPAQUE) && '.' !in value && '&' !in value
  {
    hide Checksum, AllInAlphabet, InAlphabet;
    var random: string :| |random| == 22 && AllInAlphabet(random) && value == OpaqueKey(cr, prefix, random);
    AlphabetSpares(random);
    AlphabetSpares(Checksum(cr, prefix + random));
    assert value[..3] == prefix[..3];
  }

  // ---- Role tokens ----------------------------------------------------------

  lemma {:induction false} RawIsPlain(s: string)
    requires DecodeRaw(s).Some?
    ensures '&' !in s
    decreases |s|
  {
    hide Value;
    if |s| < 4 {
      AlphabetHasNoMark(s);
    } else {
      AlphabetHasNoMark(s[..4]);
      RawIsPlain(s[4..]);
      assert s == s[..4] + s[4..];
    }
  }

  lemma AlphabetHasNoMark(s: string)
    ensures AllInAlphabet(s) ==> '&' !in s
  {
  }

  lemma {:induction false} PaddedIsPlain(s: string)
    requires DecodePadded(s).Some?
    ensures '&' !in s
    decreases |s|
  {
    hide Value;
    if |s| >= 4 {
      if |s| == 4 && s[3] == '=' {
        AlphabetHasNoMark(s[..2]);
        AlphabetHasNoMark(s[..3]);
        assert s == s[..2] + [s[2], s[3]] && s == s[..3] + [s[3]];
      } else {
        AlphabetHasNoMark(s[..4]);
        PaddedIsPlain(s[4..]);
        assert s == s[..4] + s[4..];
      }
    }
  }

  lemma {:induction false} LineEndsKeepMark(s: string)
    ensures '&' in WithoutLineEnds(s) <==> '&' in s
  {
    if s != "" {
      LineEndsKeepMark(s[1..]);
      assert s == [s[0]] + s[1..];
    }
  }

  /** A text that decodes has no separator in it. */
  lemma DecodedIsPlain(s: string)
    requires Decode(s).Some?
    ensures '&' !in s
  {
    hide DecodeRaw, DecodePadded, WithoutLineEnds;
    var t := WithoutLineEnds(s);
    if DecodeRaw(t).Some? { RawIsPlain(t); } else { PaddedIsPlain(t); }
    LineEndsKeepMark(s);
  }

  /** A text that starts like an opaque key decodes to bytes no JSON text starts with. */
  lemma OpaqueIsNoJson(s: string)
    requires StartsWith(s, OPAQUE) && Decode(s).Some?
    ensures Decode(s).value != [] && Decode(s).value[0] >= 128
  {
    var t := WithoutLineEnds(s);
    StartStays(s);
    hide WithoutLineEnds;
    HighRaw(t);
    HighPadded(t);
  }

  lemma StartStays(s: string)
    requires StartsWith(s, OPAQUE)
    ensures StartsWith(WithoutLineEnds(s), OPAQUE)
  {
    assert s == OPAQUE + s[3..];
    var rest := WithoutLineEnds(s[3..]);
    assert s[1..][1..] == s[2..] && s[2..][1..] == s[3..];
    assert s[0] == 's' && s[1..][0] == 'b' && s[2..][0] == '_';
    assert WithoutLineEnds(s[2..]) == "_" + rest;
    assert WithoutLineEnds(s[1..]) == "b" + ("_" + rest);
    assert WithoutLineEnds(s) == "s" + ("b" + ("_" + rest));
    assert WithoutLineEnds(s)[..3] == OPAQUE;
  }

  lemma HighRaw(t: string)
    requires StartsWith(t, OPAQUE)
    ensures DecodeRaw(t).Some? ==> DecodeRaw(t).value != [] && DecodeRaw(t).value[0] >= 128
  {
    assert t[..3][0] == t[0] == 's' && t[..3][1] == t[1] == 'b';
  }

  lemma HighPadded(t: string)
    requires StartsWith(t, OPAQUE)
    ensures DecodePadded(t).Some? ==> DecodePadded(t).value != [] && DecodePadded(t).value[0] >= 128
  {
    assert t[..3][0] == t[0] == 's' && t[..3][1] == t[1] == 'b' && t[..3][2] == t[2] == '_';
  }

  /** A signed token has three segments, none empty, no separator, and is no opaque key. */
  lemma SignedIsToken(cr: Crypto, now: int, token: string, point: Point, kid: string, role: string, audience: string)
    requires ReadsJson(cr) && Signed(cr, now, token, point, kid, role, audience)
    ensures Dotted(token) && !StartsWith(token, OPAQUE) && '&' !in token
  {
    hide Split, Decode, Power, Padded;
    var h, p, s, r, t :| ThreeSegments(token, h, p, s) && SignedAs(cr, now, h, p, s, r, t, point, kid, role, audience);
    SplitThree(h, p, s);
    EmptyDecodes();
    DecodedIsPlain(h);
    DecodedIsPlain(p);
    DecodedIsPlain(s);
    StartInFirst(token, h, p + "." + s);
    if StartsWith(h, OPAQUE) { OpaqueIsNoJson(h); }
  }

  // ---- What the chain theorems need -----------------------------------------

  /** The keys and tokens of every accepted bundle are fit for the filter chain, and its
      two role tokens differ. */
  lemma AcceptedKeys(cr: Crypto, now: int, data: Fields, stringData: Fields)
    requires ReadsJson(cr) && Acceptable(cr, now, data, stringData)
    ensures var k := KeysOf(data, stringData); ValidKeys(k) && k.anon != k.service
  {
    hide ReadsJson, Complete, IsOpaque, Signed, HoldsKey, Dotted, AllInAlphabet;
    var k, v := KeysOf(data, stringData), Values(data, stringData);
    OpaqueIsPlain(cr, k.publishable, "sb_publishable_");
    OpaqueIsPlain(cr, k.secret, "sb_secret_");
    var key, point :| HoldsKey(cr, v, key, point) && TokensSigned(cr, now, v, point, key.kid);
    SignedIsToken(cr, now, k.anon, point, key.kid, "anon", "authenticated");
    SignedIsToken(cr, now, k.service, point, key.kid, "service_role", "authenticated");
    if k.anon == k.service { OneRole(cr, now, k.anon, point, key.kid, "anon", "service_role", "authenticated"); }
  }

  /** A bundle's result is its one key's public half, so its tokens verify with it, each for
      its own role only. */
  lemma ResultVerifies(cr: Crypto, now: int, v: Field -> string, r: Projection)
    requires IsResult(cr, now, v, r)
    ensures VerifyPublic(cr, now, v(AnonRoleJwt), r.jwk, "anon", "authenticated").None?
    ensures VerifyPublic(cr, now, v(ServiceRoleJwt), r.jwk, "service_role", "authenticated").None?
    ensures VerifyPublic(cr, now, v(AnonRoleJwt), r.jwk, "service_role", "authenticated").Some?
  {
    hide Signed, IsSigningKey, ProjectsKey, VerifyPublic, Preimage;
    var key, point :|
      HoldsKey(cr, v, key, point) && TokensSigned(cr, now, v, point, key.kid) && ProjectsKey(key, point, r.jwk);
    var d :| IsSigningKey(cr, key, point, d);
    var anon, service := v(AnonRoleJwt), v(ServiceRoleJwt);
    PublicProjection(cr, now, anon, key, point, d, r.jwk, "anon", "authenticated");
    PublicProjection(cr, now, service, key, point, d, r.jwk, "service_role", "authenticated");
    PublicProjection(cr, now, anon, key, point, d, r.jwk, "service_role", "authenticated");
    if Signed(cr, now, anon, point, key.kid, "service_role", "authenticated") {
      OneRole(cr, now, anon, point, key.kid, "anon", "service_role", "authenticated");
    }
  }

  /** Whatever a protected route forwards under an accepted bundle: one of its two opaque keys
      decided. With the secret key the apikey header is a token that verifies with the
      published key for the service role; with the publishable key one that verifies for the
      anonymous role, and not for the service role, and the meta and schema routes are closed.
      The bearer is the same token unless the client sent one of its own. */
  lemma ForwardedVerifies(cr: Crypto, now: int, data: Fields, stringData: Fields, r: Projection, route: Route,
      h: Headers)
    requires ReadsJson(cr) && Acceptable(cr, now, data, stringData) && IsResult(cr, now, Values(data, stringData), r)
    requires Protected(route) && Guarded(KeysOf(data, stringData), route, h).Forwarded?
    ensures var k := KeysOf(data, stringData);
            var out := Guarded(k, route, h).headers;
            && out.apikey.Some?
            && (DecidingKey(k, h) == Some(k.publishable) || DecidingKey(k, h) == Some(k.secret))
            && (DecidingKey(k, h) == Some(k.secret) ==>
                  VerifyPublic(cr, now, out.apikey.value, r.jwk, "service_role", "authenticated").None?)
            && (DecidingKey(k, h) == Some(k.publishable) ==>
                  && !ServiceOnly(route)
                  && VerifyPublic(cr, now, out.apikey.value, r.jwk, "anon", "authenticated").None?
                  && VerifyPublic(cr, now, out.apikey.value, r.jwk, "service_role", "authenticated").Some?)
            && out.authorization == if Genuine(h.authorization) then h.authorization
                                    else Some("Bearer " + out.apikey.value)
  {
    hide ReadsJson, Acceptable, Dotted, Guarded, DecidingKey, Rewritten, Genuine, ValidKeys, VerifyPublic, IsResult,
         QueryKey;
    AcceptedKeys(cr, now, data, stringData);
    ResultVerifies(cr, now, Values(data, stringData), r);
    ChainMeaning(KeysOf(data, stringData), route, h);
  }

  /** Under an accepted bundle nothing but the secret key brings the service role's token. */
  lemma ServiceNeedsSecret(cr: Crypto, now: int, data: Fields, stringData: Fields, route: Route, h: Headers)
    requires ReadsJson(cr) && Acceptable(cr, now, data, stringData) && Protected(route)
    requires var k := KeysOf(data, stringData);
             Guarded(k, route, h).Forwarded? && Guarded(k, route, h).headers.apikey == Some(k.service)
    ensures var k := KeysOf(data, stringData);
            h.apikey == Some(k.secret) || QueryKey(h.path, true) == Some(k.secret)
            || QueryKey(h.path, false) == Some(k.secret)
  {
    hide ReadsJson, Acceptable, Dotted, Guarded, Rewritten, Genuine, ValidKeys, QueryKey;
    AcceptedKeys(cr, now, data, stringData);
    ChainMeaning(KeysOf(data, stringData), route, h);
  }
}
