/** The credential wizard: what it generates, the validator accepts. */
module Wizard {
  import opened Kube
  import opened Text
  import opened Base64
  import opened Credentials

  /** JSON is read back as written, the empty text is no key list, and the points of
      private scalars lie on the curve within the 32 bytes of a coordinate. */
  ghost predicate Lawful(cr: Crypto) {
    && (forall ks :: cr.keys(cr.writeKeys(ks)) == Some(ks)) && cr.keys("").None?
    && (forall h :: cr.header(cr.writeHeader(h)) == Some(h)) && (forall c :: cr.claims(cr.writeClaims(c)) == Some(c))
    && cr.order <= Power(32)
    && (forall d {:trigger cr.generator(d)} :: 0 < d < cr.order ==>
          cr.onCurve(cr.generator(d)) && cr.generator(d).0 < Power(32) && cr.generator(d).1 < Power(32))
  }

  type Signer = Digest -> (nat, nat)

  /** What is signed with a scalar verifies with its point. */
  ghost predicate Signs(cr: Crypto, d: nat, sign: Signer) {
    forall m :: sign(m).0 < Power(32) && sign(m).1 < Power(32) && cr.verifies(cr.generator(d), m, sign(m).0, sign(m).1)
  }

  // ---- Identifiers ----------------------------------------------------------

  function Hex(b: Bytes): string { if b == [] then "" else [HexDigit(b[0] / 16), HexDigit(b[0] % 16)] + Hex(b[1..]) }

  function KeyId(b: Bytes): string
    requires |b| == 16
  {
    Hex(b[0..4]) + "-" + Hex(b[4..6]) + "-" + Hex(b[6..8]) + "-" + Hex(b[8..10]) + "-" + Hex(b[10..16])
  }

  /** The random bytes with the version and variant bits of a version 4 UUID. */
  function Versioned(b: Bytes): Bytes
    requires |b| == 16
  {
    b[6 := b[6] % 16 + 64][8 := b[8] % 64 + 128]
  }

  lemma {:induction false} HexAt(b: Bytes, i: nat)
    requires i < |b|
    ensures |Hex(b)| == 2 * |b| && Hex(b)[2 * i] == HexDigit(b[i] / 16) && Hex(b)[2 * i + 1] == HexDigit(b[i] % 16)
  {
    if |b| > 1 { HexAt(b[1..], if i > 0 then i - 1 else 0); }
  }

  lemma KeyIdParts(b: Bytes)
    requires |b| == 16
    ensures |Hex(b[0..4])| == 8 && |Hex(b[4..6])| == |Hex(b[6..8])| == |Hex(b[8..10])| == 4 && |Hex(b[10..16])| == 12
  {
    hide Hex, HexDigit;
    HexAt(b[0..4], 0);
    HexAt(b[4..6], 0);
    HexAt(b[6..8], 0);
    HexAt(b[8..10], 0);
    HexAt(b[10..16], 0);
  }

  /** A version 4 UUID in its text form, RFC 9562 section 5.4: 36 characters with their
      dashes, the version digit 4, and a variant digit of 8, 9, a or b. */
  predicate Version4(kid: string) {
    && |kid| == 36 && kid[8] == kid[13] == kid[18] == kid[23] == '-'
    && kid[14] == '4' && (kid[19] == '8' || kid[19] == '9' || kid[19] == 'a' || kid[19] == 'b')
  }

  lemma KeyIdIsVersion4(b: Bytes)
    requires |b| == 16
    ensures Version4(KeyId(Versioned(b)))
  {
    hide Hex;
    var v := Versioned(b);
    KeyIdParts(v);
    HexAt(v[6..8], 0);
    HexAt(v[8..10], 0);
    VersionDigits(b);
  }

  lemma VersionDigits(b: Bytes)
    requires |b| == 16
    ensures HexDigit(Versioned(b)[6] / 16) == '4'
    ensures var d := HexDigit(Versioned(b)[8] / 16); d == '8' || d == '9' || d == 'a' || d == 'b'
  {
    assert Versioned(b)[8] / 16 == 8 + b[8] % 64 / 16;
  }

  /** generateKeyID: two bytes of the buffer are changed in place. */
  method GenerateKeyId(value: array<Byte>) returns (kid: string)
    requires value.Length == 16
    modifies value
    ensures kid == KeyId(Versioned(old(value[..]))) && Version4(kid)
  {
    value[6] := value[6] % 16 + 64;
    value[8] := value[8] % 64 + 128;
    assert value[..] == Versioned(old(value[..]));
    hide Hex, Version4, KeyId;
    KeyIdIsVersion4(old(value[..]));
    kid := KeyId(value[..]);
  }

  // ---- Keys and tokens ------------------------------------------------------

  /** generateOpaqueKey: 22 of the 23 characters of 17 random bytes. */
  function NewOpaqueKey(cr: Crypto, prefix: string, random: Bytes): string
    requires |random| == 17
  {
    OpaqueKey(cr, prefix, Encode(random)[..22])
  }

  function NewJwk(cr: Crypto, d: nat, kid: string): Jwk
    requires d < Power(32) && cr.generator(d).0 < Power(32) && cr.generator(d).1 < Power(32)
  {
    Jwk(EC, ES256, SIG, P256, Encode(Padded(cr.generator(d).0, 32)), Encode(Padded(cr.generator(d).1, 32)),
        Encode(Padded(d, 32)),
        kid, [SIGN], Some(true))
  }

  function Message(cr: Crypto, header: Header, claims: Claims): string {
    Encode(cr.writeHeader(header)) + "." + Encode(cr.writeClaims(claims))
  }

  /** signRoleJWT. */
  function NewToken(cr: Crypto, sign: Signer, kid: string, role: string, issued: int, expires: int): string
    requires forall m :: sign(m).0 < Power(32) && sign(m).1 < Power(32)
  {
    var message := Message(cr, Header(ES256, "JWT", kid), Claims(role, One(AUDIENCE), "supabase", issued, expires));
    var signature := sign(cr.digest(message));
    message + "." + Encode(Padded(signature.0, 32) + Padded(signature.1, 32))
  }

  /** The bundle the wizard assembles. */
  function NewBundle(cr: Crypto, d: nat, kid: string, sign: Signer, p: Bytes, q: Bytes, issued: int,
      expires: int): Fields
    requires d < Power(32) && cr.generator(d).0 < Power(32) && cr.generator(d).1 < Power(32)
    requires |p| == |q| == 17 && forall m :: sign(m).0 < Power(32) && sign(m).1 < Power(32)
  {
    map[SigningKeys := cr.writeKeys([NewJwk(cr, d, kid)]),
        PublishableKey := NewOpaqueKey(cr, PUBLISHABLE_PREFIX, p), SecretKey := NewOpaqueKey(cr, SECRET_PREFIX, q),
        AnonRoleJwt := NewToken(cr, sign, kid, ANON, issued, expires),
        ServiceRoleJwt := NewToken(cr, sign, kid, SERVICE_ROLE, issued, expires)]
  }

  // ---- They are accepted ----------------------------------------------------

  lemma NewKeyIsValid(cr: Crypto, d: nat, kid: string)
    requires Lawful(cr) && 0 < d < cr.order && kid != ""
    ensures SigningKeyProblem(cr, NewJwk(cr, d, kid)).None?
    ensures ReadPrivate(cr, NewJwk(cr, d, kid)) == Ok(PrivateKey(cr.generator(d), d))
  {
    hide Power, Padded, Encode, Coordinate;
    var p := cr.generator(d);
    CoordinateRoundTrip(p.0);
    CoordinateRoundTrip(p.1);
    CoordinateRoundTrip(d);
    PaddedLength(p.0);
    PaddedLength(p.1);
    PaddedLength(d);
  }

  lemma NoDots(b: Bytes)
    ensures '.' !in Encode(b)
  {
    hide Encode;
    assert forall i :: 0 <= i < |Encode(b)| ==> InAlphabet(Encode(b)[i]);
  }

  /** The two halves of a signature are read back. */
  lemma SignatureVerifies(cr: Crypto, d: nat, sign: Signer, message: string)
    requires Signs(cr, d, sign)
    ensures var s := sign(cr.digest(message));
            SignatureProblem(cr, message, SignatureText(cr, sign, message), cr.generator(d)).None?
  {
    hide Power, Padded, Encode, Number, Decode;
    var s := sign(cr.digest(message));
    assert s.0 < Power(32) && s.1 < Power(32);
    var halves := Padded(s.0, 32) + Padded(s.1, 32);
    RoundTrip(halves);
    NumberOfPadded(s.0, 32);
    NumberOfPadded(s.1, 32);
    assert halves[..32] == Padded(s.0, 32) && halves[32..] == Padded(s.1, 32);
  }

  lemma PartsVerify(cr: Crypto, now: int, token: string, parts: seq<string>, header: Header, claims: Claims,
      point: Point)
    requires Split(token, '.') == parts && |parts| == 3
    requires Decode(parts[0]).Some? && cr.header(Decode(parts[0]).value) == Some(header) && header.alg == ES256
    requires Decode(parts[1]).Some? && cr.claims(Decode(parts[1]).value) == Some(claims) && claims.aud == One(AUDIENCE)
        && now < claims.exp
    requires SignatureProblem(cr, parts[0] + "." + parts[1], parts[2], point).None?
    ensures VerifyWith(cr, now, token, point, header.kid, claims.role, AUDIENCE).None?
  {
    hide Split, Decode, SignatureProblem;
  }

  function SignatureText(cr: Crypto, sign: Signer, message: string): string
    requires forall m :: sign(m).0 < Power(32) && sign(m).1 < Power(32)
  {
    Encode(Padded(sign(cr.digest(message)).0, 32) + Padded(sign(cr.digest(message)).1, 32))
  }

  lemma NewTokenVerifies(cr: Crypto, d: nat, kid: string, sign: Signer, role: string, issued: int, expires: int,
      now: int)
    requires Lawful(cr) && Signs(cr, d, sign) && now < expires
    ensures VerifyWith(cr, now, NewToken(cr, sign, kid, role, issued, expires), cr.generator(d), kid, role,
        AUDIENCE).None?
    ensures NewToken(cr, sign, kid, role, issued, expires) != ""
  {
    var header, claims := Header(ES256, "JWT", kid), Claims(role, One(AUDIENCE), "supabase", issued, expires);
    var message := Message(cr, header, claims);
    var a, b, c := Encode(cr.writeHeader(header)), Encode(cr.writeClaims(claims)), SignatureText(cr, sign, message);
    NoDots(cr.writeHeader(header));
    NoDots(cr.writeClaims(claims));
    NoDots(Padded(sign(cr.digest(message)).0, 32) + Padded(sign(cr.digest(message)).1, 32));
    TokenIs(cr, sign, kid, role, issued, expires);
    hide *;
    SplitThree(a, b, c);
    RoundTrip(cr.writeHeader(header));
    RoundTrip(cr.writeClaims(claims));
    SignatureVerifies(cr, d, sign, message);
    LawfulReads(cr, header, claims);
    PartsVerify(cr, now, NewToken(cr, sign, kid, role, issued, expires), [a, b, c], header, claims, cr.generator(d));
  }

  lemma LawfulReads(cr: Crypto, header: Header, claims: Claims)
    requires Lawful(cr)
    ensures cr.header(cr.writeHeader(header)) == Some(header) && cr.claims(cr.writeClaims(claims)) == Some(claims)
  {
  }

  lemma TokenIs(cr: Crypto, sign: Signer, kid: string, role: string, issued: int, expires: int)
    requires forall m :: sign(m).0 < Power(32) && sign(m).1 < Power(32)
    ensures var header, claims := Header(ES256, "JWT", kid), Claims(role, One(AUDIENCE), "supabase", issued, expires);
            var a, b := Encode(cr.writeHeader(header)), Encode(cr.writeClaims(claims));
            Message(cr, header, claims) == a + "." + b
            && NewToken(cr, sign, kid, role, issued, expires) == a + "." + b + "."
                + SignatureText(cr, sign, Message(cr, header, claims))
  {
    hide Encode, Padded, Power;
  }

  lemma NewOpaqueIsOpaque(cr: Crypto, prefix: string, random: Bytes)
    requires |random| == 17
    ensures IsOpaque(cr, NewOpaqueKey(cr, prefix, random), prefix)
  {
    hide Encode, OpaqueKey;
    assert AllInAlphabet(Encode(random)[..22]);
  }

  lemma PrefixesDiffer(cr: Crypto, p: Bytes, q: Bytes)
    requires |p| == |q| == 17
    ensures NewOpaqueKey(cr, PUBLISHABLE_PREFIX, p) != NewOpaqueKey(cr, SECRET_PREFIX, q)
    ensures NewOpaqueKey(cr, PUBLISHABLE_PREFIX, p) != "" && NewOpaqueKey(cr, SECRET_PREFIX, q) != ""
  {
    hide Encode, Checksum;
    assert NewOpaqueKey(cr, PUBLISHABLE_PREFIX, p)[3] == 'p' && NewOpaqueKey(cr, SECRET_PREFIX, q)[3] == 's';
  }

  /** Five good values make an acceptable bundle. */
  lemma FieldsAreAcceptable(cr: Crypto, now: int, fields: Fields, key: Jwk, keys: string, publishable: string,
      secret: string,
                            anon: string, service: string)
    requires fields == map[SigningKeys := keys, PublishableKey := publishable, SecretKey := secret,
        AnonRoleJwt := anon, ServiceRoleJwt := service]
    requires keys != "" && publishable != "" && secret != "" && anon != "" && service != ""
    requires SoleKey(cr, keys) == Some(key) && SigningKeyProblem(cr, key).None?
    requires IsOpaque(cr, publishable, PUBLISHABLE_PREFIX) && IsOpaque(cr, secret, SECRET_PREFIX)
        && publishable != secret
    requires Verify(cr, now, anon, key, ANON, AUDIENCE).None?
        && Verify(cr, now, service, key, SERVICE_ROLE, AUDIENCE).None?
    ensures Acceptable(cr, now, map[], fields)
  {
    hide IsOpaque, SigningKeyProblem, Verify, SoleKey, Consistent;
    CheckedMeansConsistent(cr, now, Values(map[], fields));
  }

  lemma TokenAccepted(cr: Crypto, now: int, token: string, key: Jwk, point: Point, role: string)
    requires SigningKeyProblem(cr, key).None? && ReadPrivate(cr, key).Ok? && ReadPrivate(cr, key).value.point == point
    requires VerifyWith(cr, now, token, point, key.kid, role, AUDIENCE).None?
    ensures Verify(cr, now, token, key, role, AUDIENCE).None?
  {
    hide VerifyWith, SigningKeyProblem, ReadPrivate;
  }

  lemma SoleOfNew(cr: Crypto, key: Jwk)
    requires Lawful(cr)
    ensures SoleKey(cr, cr.writeKeys([key])) == Some(key) && cr.writeKeys([key]) != ""
  {
    hide Power;
    assert cr.keys(cr.writeKeys([key])) == Some([key]);
  }

  /** The wizard's bundle is acceptable before it expires, whatever the scalar, the
      random bytes and the signatures. */
  lemma GeneratedIsAcceptable(cr: Crypto, d: nat, kid: string, sign: Signer, p: Bytes, q: Bytes, issued: int,
      expires: int, now: int)
    requires Lawful(cr) && 0 < d < cr.order && kid != "" && Signs(cr, d, sign) && |p| == |q| == 17 && now < expires
    ensures Acceptable(cr, now, map[], NewBundle(cr, d, kid, sign, p, q, issued, expires))
  {
    BundleFields(cr, d, kid, sign, p, q, issued, expires);
    hide *;
    NewKeyIsValid(cr, d, kid);
    NewTokenAccepted(cr, d, kid, sign, ANON, issued, expires, now);
    NewTokenAccepted(cr, d, kid, sign, SERVICE_ROLE, issued, expires, now);
    SoleOfNew(cr, NewJwk(cr, d, kid));
    NewOpaqueIsOpaque(cr, PUBLISHABLE_PREFIX, p);
    NewOpaqueIsOpaque(cr, SECRET_PREFIX, q);
    PrefixesDiffer(cr, p, q);
    FieldsAreAcceptable(cr, now, NewBundle(cr, d, kid, sign, p, q, issued, expires), NewJwk(cr, d, kid),
                        cr.writeKeys([NewJwk(cr, d, kid)]), NewOpaqueKey(cr, PUBLISHABLE_PREFIX, p),
                            NewOpaqueKey(cr, SECRET_PREFIX, q),
                        NewToken(cr, sign, kid, ANON, issued, expires),
                            NewToken(cr, sign, kid, SERVICE_ROLE, issued, expires));
  }

  /** A signed role token is accepted with the key it was signed with. */
  lemma NewTokenAccepted(cr: Crypto, d: nat, kid: string, sign: Signer, role: string, issued: int, expires: int,
      now: int)
    requires Lawful(cr) && 0 < d < cr.order && kid != "" && Signs(cr, d, sign) && now < expires
    ensures Verify(cr, now, NewToken(cr, sign, kid, role, issued, expires), NewJwk(cr, d, kid), role, AUDIENCE).None?
    ensures NewToken(cr, sign, kid, role, issued, expires) != ""
  {
    LawfulPoint(cr, d);
    hide *;
    NewKeyIsValid(cr, d, kid);
    NewTokenVerifies(cr, d, kid, sign, role, issued, expires, now);
    KidOfNewJwk(cr, d, kid);
    TokenAccepted(cr, now, NewToken(cr, sign, kid, role, issued, expires), NewJwk(cr, d, kid), cr.generator(d), role);
  }

  lemma LawfulPoint(cr: Crypto, d: nat)
    requires Lawful(cr) && 0 < d < cr.order
    ensures d < Power(32) && cr.generator(d).0 < Power(32) && cr.generator(d).1 < Power(32)
  {
    hide Power;
  }

  lemma BundleFields(cr: Crypto, d: nat, kid: string, sign: Signer, p: Bytes, q: Bytes, issued: int, expires: int)
    requires d < Power(32) && cr.generator(d).0 < Power(32) && cr.generator(d).1 < Power(32)
    requires |p| == |q| == 17 && forall m :: sign(m).0 < Power(32) && sign(m).1 < Power(32)
    ensures NewBundle(cr, d, kid, sign, p, q, issued, expires)
         == map[SigningKeys := cr.writeKeys([NewJwk(cr, d, kid)]),
                PublishableKey := NewOpaqueKey(cr, PUBLISHABLE_PREFIX, p),
                    SecretKey := NewOpaqueKey(cr, SECRET_PREFIX, q),
                AnonRoleJwt := NewToken(cr, sign, kid, ANON, issued, expires),
                ServiceRoleJwt := NewToken(cr, sign, kid, SERVICE_ROLE, issued, expires)]
  {
    hide NewOpaqueKey, NewToken, NewJwk, Power;
  }

  lemma KidOfNewJwk(cr: Crypto, d: nat, kid: string)
    requires d < Power(32) && cr.generator(d).0 < Power(32) && cr.generator(d).1 < Power(32)
    ensures NewJwk(cr, d, kid).kid == kid
  {
  }
}
