/** The externally managed credential bundle: ES256 keys and role tokens, opaque
    API keys, and the validation of the five fields. Curve arithmetic, SHA-256
    and JSON are parameters. */
module Credentials {
  import opened Kube
  import opened Text
  import opened Base64

  datatype Outcome<+T, +E> = Ok(value: T) | Err(error: E)

  datatype Jwk = Jwk(kty: string, alg: string, use: string, crv: string, x: string, y: string, d: string, kid: string,
                     keyOps: seq<string>, ext: Option<bool>)
  datatype AudienceItem = Named(name: string) | Unnamed
  datatype Audience = One(name: string) | Many(items: seq<AudienceItem>) | NoAudience
  datatype Header = Header(alg: string, typ: string, kid: string)
  datatype Claims = Claims(role: string, aud: Audience, iss: string, iat: int, exp: int)

  type Digest = b: Bytes | |b| == 32 witness seq(32, _ => 0)
  type Point = (nat, nat)

  datatype Crypto = Crypto(
    digest: string -> Digest,
    onCurve: Point -> bool, order: nat, generator: nat -> Point, verifies: (Point, Digest, nat, nat) -> bool,
    keys: string -> Option<seq<Jwk>>, writeKeys: seq<Jwk> -> string,
    header: Bytes -> Option<Header>, writeHeader: Header -> Bytes,
    claims: Bytes -> Option<Claims>, writeClaims: Claims -> Bytes)

  // ---- Keys -----------------------------------------------------------------

  const EC := "EC"
  const P256 := "P-256"
  const ES256 := "ES256"
  const SIG := "sig"
  const SIGN := "sign"
  const VERIFY := "verify"

  /** decodeCoordinate. */
  function Coordinate(text: string): (n: Option<nat>)
    ensures n.Some? ==> n.value < Power(32)
  {
    if text == "" || Decode(text).None? || |Decode(text).value| != 32 then None else Some(Number(Decode(text).value))
  }

  datatype KeyProblem = WrongKty | WrongCrv | WrongAlg | WrongUse | NoKid | WrongOps | Incomplete
                      | BadX | BadY | BadD | OffCurve | BadScalar | Mismatch

  datatype PrivateKey = PrivateKey(point: Point, scalar: nat)

  /** ecdsaPrivateKey. */
  function ReadPrivate(cr: Crypto, key: Jwk): (r: Outcome<PrivateKey, KeyProblem>)
    ensures r.Ok? ==> r.value.point.0 < Power(32) && r.value.point.1 < Power(32) && cr.onCurve(r.value.point)
  {
    var x, y, d := Coordinate(key.x), Coordinate(key.y), Coordinate(key.d);
    if x.None? then Err(BadX) else if y.None? then Err(BadY) else if d.None? then Err(BadD)
    else if !cr.onCurve((x.value, y.value)) then Err(OffCurve)
    else if d.value == 0 || d.value >= cr.order then Err(BadScalar)
    else if cr.generator(d.value) != (x.value, y.value) then Err(Mismatch)
    else Ok(PrivateKey((x.value, y.value), d.value))
  }

  /** ecdsaPublicKey. */
  function ReadPublic(cr: Crypto, key: Jwk): Outcome<Point, KeyProblem> {
    var x, y := Coordinate(key.x), Coordinate(key.y);
    if x.None? then Err(BadX) else if y.None? then Err(BadY)
    else if !cr.onCurve((x.value, y.value)) then Err(OffCurve) else Ok((x.value, y.value))
  }

  /** ValidateSigningJWK. */
  function SigningKeyProblem(cr: Crypto, key: Jwk): Option<KeyProblem> {
    if key.kty != EC then Some(WrongKty)
    else if key.crv != P256 then Some(WrongCrv)
    else if key.alg != ES256 then Some(WrongAlg)
    else if key.use != "" && key.use != SIG then Some(WrongUse)
    else if key.kid == "" then Some(NoKid)
    else if key.keyOps != [] && SIGN !in key.keyOps then Some(WrongOps)
    else if key.x == "" || key.y == "" || key.d == "" then Some(Incomplete)
    else if ReadPrivate(cr, key).Err? then Some(ReadPrivate(cr, key).error) else None
  }

  // ---- Tokens ---------------------------------------------------------------

  datatype TokenProblem = NotThreeSegments | BadHeaderText | BadHeader | TokenAlg | TokenKid | BadClaimsText | BadClaims
                         | WrongRole | WrongAudience | Expired | BadSignature | Unverified | NotPublic
                         | BadKey(problem: KeyProblem)

  predicate AudienceMatches(aud: Audience, expected: string) {
    match aud
    case One(name) => name == expected
    case Many(items) => Named(expected) in items
    case NoAudience => false
  }

  /** audienceMatches: the list is searched item by item. */
  method MatchAudience(aud: Audience, expected: string) returns (ok: bool)
    ensures ok <==> AudienceMatches(aud, expected)
  {
    match aud {
      case One(name) => return name == expected;
      case NoAudience => return false;
      case Many(items) =>
        for i := 0 to |items|
          invariant Named(expected) !in items[..i]
        {
          if items[i] == Named(expected) {
            return true;
          }
        }
        return false;
    }
  }

  /** verifyWithPublicKey. */
  function VerifyWith(cr: Crypto, now: int, token: string, point: Point, kid: string, role: string,
      audience: string): Option<TokenProblem> {
    var parts := Split(token, '.');
    if |parts| != 3 then Some(NotThreeSegments)
    else
      var header := Decode(parts[0]);
      if header.None? then Some(BadHeaderText)
      else if cr.header(header.value).None? then Some(BadHeader)
      else if cr.header(header.value).value.alg != ES256 then Some(TokenAlg)
      else if cr.header(header.value).value.kid != kid then Some(TokenKid)
      else ClaimsProblem(cr, now, parts, point, role, audience)
  }

  function ClaimsProblem(cr: Crypto, now: int, parts: seq<string>, point: Point, role: string,
      audience: string): Option<TokenProblem>
    requires |parts| == 3
  {
    var text := Decode(parts[1]);
    if text.None? then Some(BadClaimsText)
    else if cr.claims(text.value).None? then Some(BadClaims)
    else
      var claims := cr.claims(text.value).value;
      if claims.role != role then Some(WrongRole)
      else if !AudienceMatches(claims.aud, audience) then Some(WrongAudience)
      else if claims.exp <= now then Some(Expired)
      else SignatureProblem(cr, parts[0] + "." + parts[1], parts[2], point)
  }

  function SignatureProblem(cr: Crypto, message: string, text: string, point: Point): Option<TokenProblem> {
    var signature := Decode(text);
    if signature.None? || |signature.value| != 64 then Some(BadSignature)
    else if !cr.verifies(point, cr.digest(message), Number(signature.value[..32]), Number(signature.value[32..]))
        then Some(Unverified)
    else None
  }

  /** VerifyES256JWT. */
  function Verify(cr: Crypto, now: int, token: string, key: Jwk, role: string, audience: string): Option<TokenProblem> {
    if SigningKeyProblem(cr, key).Some? then Some(BadKey(SigningKeyProblem(cr, key).value))
    else VerifyWith(cr, now, token, ReadPrivate(cr, key).value.point, key.kid, role, audience)
  }

  /** VerifyES256JWTWithPublicKey. */
  function VerifyPublic(cr: Crypto, now: int, token: string, key: Jwk, role: string,
      audience: string): Option<TokenProblem> {
    if key.kty != EC || key.crv != P256 || key.alg != ES256 || key.kid == "" then Some(NotPublic)
    else if ReadPublic(cr, key).Err? then Some(BadKey(ReadPublic(cr, key).error))
    else VerifyWith(cr, now, token, ReadPublic(cr, key).value, key.kid, role, audience)
  }

  /** A number encoded in 32 bytes is read back. */
  lemma CoordinateRoundTrip(n: nat)
    requires n < Power(32)
    ensures Coordinate(Encode(Padded(n, 32))) == Some(n)
  {
    hide Power, Padded, Encode, Decode, Number;
    RoundTrip(Padded(n, 32));
    NumberOfPadded(n, 32);
    PaddedLength(n);
  }

  lemma PaddedLength(n: nat)
    requires n < Power(32)
    ensures |Padded(n, 32)| == 32 && Encode(Padded(n, 32)) != ""
  {
    hide Power;
    assert |Encode(Padded(n, 32))| == 43;
  }

  // ---- What acceptance means ------------------------------------------------

  /** An ES256 signing key with that point and scalar: its coordinates are the 32-byte
      big-endian numbers (section 6.2 of RFC 7518), the point is on the curve, and the
      scalar generates it. */
  predicate IsSigningKey(cr: Crypto, key: Jwk, point: Point, d: nat) {
    && key.kty == "EC" && key.crv == "P-256" && key.alg == "ES256" && key.kid != ""
    && (key.use == "" || key.use == "sig") && (key.keyOps == [] || "sign" in key.keyOps)
    && point.0 < Power(32) && point.1 < Power(32) && d < Power(32)
    && Decode(key.x) == Some(Padded(point.0, 32)) && Decode(key.y) == Some(Padded(point.1, 32))
    && Decode(key.d) == Some(Padded(d, 32))
    && cr.onCurve(point) && 0 < d < cr.order && cr.generator(d) == point
  }

  /** A 32-byte number and its text. */
  lemma CoordinateMeaning(text: string, n: nat)
    ensures Coordinate(text) == Some(n) <==> n < Power(32) && Decode(text) == Some(Padded(n, 32))
  {
    hide Power, Padded, Decode, Number;
    if Decode(text).Some? && |Decode(text).value| == 32 { PaddedOfNumber(Decode(text).value); }
    if n < Power(32) { NumberOfPadded(n, 32); }
    EmptyDecodes();
  }

  lemma EmptyDecodes()
    ensures Decode("") == Some([])
  {
  }

  /** The operator's checks accept exactly the signing keys, and read point and scalar off them. */
  lemma SigningKeyMeaning(cr: Crypto, key: Jwk, point: Point, d: nat)
    ensures IsSigningKey(cr, key, point, d)
        <==> SigningKeyProblem(cr, key).None? && ReadPrivate(cr, key) == Ok(PrivateKey(point, d))
  {
    hide Power, Padded, Decode, Coordinate;
    CoordinateMeaning(key.x, point.0);
    CoordinateMeaning(key.y, point.1);
    CoordinateMeaning(key.d, d);
    assert Coordinate("").None? by { CoordinateOfNothing(); }
  }

  lemma CoordinateOfNothing()
    ensures Coordinate("").None?
  {
    hide Decode, Number;
  }

  /** Header, claims and signature of a token (section 7.1 of RFC 7515): the header names
      ES256 and the key, the claims name role and audience and have not expired, and the two
      32-byte numbers of the signature verify with the point over the first two segments. */
  predicate SignedAs(cr: Crypto, now: int, h: string, p: string, s: string, r: nat, t: nat, point: Point, kid: string,
      role: string, audience: string)
  {
    && Decode(h).Some? && cr.header(Decode(h).value).Some?
    && cr.header(Decode(h).value).value.alg == "ES256" && cr.header(Decode(h).value).value.kid == kid
    && Decode(p).Some? && cr.claims(Decode(p).value).Some?
    && cr.claims(Decode(p).value).value.role == role && now < cr.claims(Decode(p).value).value.exp
    && (cr.claims(Decode(p).value).value.aud == One(audience)
        || (cr.claims(Decode(p).value).value.aud.Many?
            && Named(audience) in cr.claims(Decode(p).value).value.aud.items))
    && r < Power(32) && t < Power(32) && Decode(s) == Some(Padded(r, 32) + Padded(t, 32))
    && cr.verifies(point, cr.digest(h + "." + p), r, t)
  }

  predicate ThreeSegments(token: string, h: string, p: string, s: string) {
    token == h + "." + p + "." + s && '.' !in h && '.' !in p && '.' !in s
  }

  /** The token is three segments so signed. */
  ghost predicate Signed(cr: Crypto, now: int, token: string, point: Point, kid: string, role: string,
      audience: string)
  {
    exists h, p, s, r, t ::
      ThreeSegments(token, h, p, s) && SignedAs(cr, now, h, p, s, r, t, point, kid, role, audience)
  }

  /** A signature checks out exactly when it is two numbers of 32 bytes that verify. */
  lemma SignatureMeaning(cr: Crypto, message: string, text: string, point: Point)
    returns (r: nat, t: nat)
    ensures SignatureProblem(cr, message, text, point).None? ==>
              r < Power(32) && t < Power(32) && Decode(text) == Some(Padded(r, 32) + Padded(t, 32))
              && cr.verifies(point, cr.digest(message), r, t)
  {
    hide Power, Padded, Decode, Number;
    r, t := 0, 0;
    if SignatureProblem(cr, message, text, point).None? {
      var b := Decode(text).value;
      r, t := Number(b[..32]), Number(b[32..]);
      PaddedOfNumber(b[..32]);
      PaddedOfNumber(b[32..]);
      assert b == b[..32] + b[32..];
    }
  }

  lemma NumbersVerify(cr: Crypto, message: string, text: string, point: Point, r: nat, t: nat)
    requires r < Power(32) && t < Power(32) && Decode(text) == Some(Padded(r, 32) + Padded(t, 32))
    requires cr.verifies(point, cr.digest(message), r, t)
    ensures SignatureProblem(cr, message, text, point).None?
  {
    hide Power, Padded, Decode, Number;
    var b := Padded(r, 32) + Padded(t, 32);
    NumberOfPadded(r, 32);
    NumberOfPadded(t, 32);
    assert b[..32] == Padded(r, 32) && b[32..] == Padded(t, 32);
  }

  /** For every token, key, role and audience: verification accepts exactly the signed tokens. */
  lemma VerifiedMeansSigned(cr: Crypto, now: int, token: string, point: Point, kid: string, role: string,
      audience: string)
    ensures VerifyWith(cr, now, token, point, kid, role, audience).None?
        <==> Signed(cr, now, token, point, kid, role, audience)
  {
    hide Split, Decode, Power, Padded, SignatureProblem;
    var parts := Split(token, '.');
    if VerifyWith(cr, now, token, point, kid, role, audience).None? {
      ThreeParts(token);
      var r, t := SignatureMeaning(cr, parts[0] + "." + parts[1], parts[2], point);
      assert ThreeSegments(token, parts[0], parts[1], parts[2])
        && SignedAs(cr, now, parts[0], parts[1], parts[2], r, t, point, kid, role, audience);
    }
    if Signed(cr, now, token, point, kid, role, audience) {
      var h, p, s, r, t :|
        ThreeSegments(token, h, p, s) && SignedAs(cr, now, h, p, s, r, t, point, kid, role, audience);
      SplitThree(h, p, s);
      NumbersVerify(cr, h + "." + p, s, point, r, t);
    }
  }

  /** One token is not signed for two roles. */
  lemma OneRole(cr: Crypto, now: int, token: string, point: Point, kid: string, a: string, b: string, audience: string)
    requires Signed(cr, now, token, point, kid, a, audience) && Signed(cr, now, token, point, kid, b, audience)
    ensures a == b
  {
    hide Split, Decode, Power, Padded, Signed, SignatureProblem;
    VerifiedMeansSigned(cr, now, token, point, kid, a, audience);
    VerifiedMeansSigned(cr, now, token, point, kid, b, audience);
  }

  /** PublicJWK. */
  method PublicJwk(cr: Crypto, key: Jwk) returns (r: Outcome<Jwk, KeyProblem>)
    ensures r.Ok? ==> IsProjection(cr, key, r.value)
    ensures r.Err? ==> forall point, d :: !IsSigningKey(cr, key, point, d)
    ensures r.Ok? <==> SigningKeyProblem(cr, key).None?
  {
    hide Power, Padded, Encode, Decode, ReadPrivate, SigningKeyProblem, IsSigningKey;
    var problem := SigningKeyProblem(cr, key);
    if problem.Some? {
      forall point, d ensures !IsSigningKey(cr, key, point, d) { SigningKeyMeaning(cr, key, point, d); }
      return Err(problem.value);
    }
    KeyIsRead(cr, key);
    var private := ReadPrivate(cr, key).value;
    SigningKeyMeaning(cr, key, private.point, private.scalar);
    var x := PaddedInteger(private.point.0);
    var y := PaddedInteger(private.point.1);
    r := Ok(Jwk(EC, ES256, SIG, P256, Encode(x[..]), Encode(y[..]), "", key.kid, [VERIFY], key.ext));
  }

  lemma KeyIsRead(cr: Crypto, key: Jwk)
    requires SigningKeyProblem(cr, key).None?
    ensures ReadPrivate(cr, key).Ok?
  {
    hide ReadPrivate;
  }

  /** A public key with that point. */
  predicate IsPublicKey(cr: Crypto, key: Jwk, point: Point) {
    && key.kty == "EC" && key.crv == "P-256" && key.alg == "ES256" && key.kid != ""
    && point.0 < Power(32) && point.1 < Power(32) && cr.onCurve(point)
    && Decode(key.x) == Some(Padded(point.0, 32)) && Decode(key.y) == Some(Padded(point.1, 32))
  }

  lemma ReadPublicMeaning(cr: Crypto, key: Jwk, point: Point)
    ensures ReadPublic(cr, key) == Ok(point)
        <==> point.0 < Power(32) && point.1 < Power(32) && cr.onCurve(point)
             && Decode(key.x) == Some(Padded(point.0, 32)) && Decode(key.y) == Some(Padded(point.1, 32))
  {
    hide Power, Padded, Decode, Coordinate;
    CoordinateMeaning(key.x, point.0);
    CoordinateMeaning(key.y, point.1);
  }

  /** For every published key and token: verification accepts exactly the tokens signed by the
      key's point, and none without one. */
  lemma PublicVerification(cr: Crypto, now: int, token: string, key: Jwk, role: string, audience: string)
    ensures VerifyPublic(cr, now, token, key, role, audience).None?
        <==> exists point :: IsPublicKey(cr, key, point) && Signed(cr, now, token, point, key.kid, role, audience)
  {
    hide Power, Padded, Decode, VerifyWith, Signed, ReadPublic, IsPublicKey;
    forall point ensures IsPublicKey(cr, key, point)
        <==> ReadPublic(cr, key) == Ok(point) && key.kty == EC && key.crv == P256 && key.alg == ES256 && key.kid != ""
    {
      PublicKeyRead(cr, key, point);
    }
    if ReadPublic(cr, key).Ok? {
      VerifiedMeansSigned(cr, now, token, ReadPublic(cr, key).value, key.kid, role, audience);
    }
  }

  lemma PublicKeyRead(cr: Crypto, key: Jwk, point: Point)
    ensures IsPublicKey(cr, key, point)
        <==> ReadPublic(cr, key) == Ok(point) && key.kty == EC && key.crv == P256 && key.alg == ES256 && key.kid != ""
  {
    ReadPublicMeaning(cr, key, point);
    hide Power, Padded, Decode, ReadPublic;
  }

  /** The public half of a signing key: its point, its name, and nothing private. */
  predicate ProjectsKey(key: Jwk, point: Point, public: Jwk) {
    && point.0 < Power(32) && point.1 < Power(32)
    && public == Jwk("EC", "ES256", "sig", "P-256", Encode(Padded(point.0, 32)), Encode(Padded(point.1, 32)), "",
                     key.kid, ["verify"], key.ext)
  }

  ghost predicate IsProjection(cr: Crypto, key: Jwk, public: Jwk) {
    exists point, d :: IsSigningKey(cr, key, point, d) && ProjectsKey(key, point, public)
  }

  /** The public projection of every signing key, however its coordinates were written, holds
      no private part and accepts exactly the tokens the private key signed. */
  lemma PublicProjection(cr: Crypto, now: int, token: string, key: Jwk, point: Point, d: nat, public: Jwk, role: string,
      audience: string)
    requires IsSigningKey(cr, key, point, d) && ProjectsKey(key, point, public)
    ensures public.d == "" && "sign" !in public.keyOps
    ensures VerifyPublic(cr, now, token, public, role, audience).None?
        <==> Signed(cr, now, token, point, key.kid, role, audience)
    ensures Verify(cr, now, token, key, role, audience).None?
        <==> Signed(cr, now, token, point, key.kid, role, audience)
  {
    SigningKeyMeaning(cr, key, point, d);
    hide Power, Padded, Encode, Decode, VerifyWith, Coordinate, Signed, ReadPrivate, SigningKeyProblem;
    VerifiedMeansSigned(cr, now, token, point, key.kid, role, audience);
    CoordinateRoundTrip(point.0);
    CoordinateRoundTrip(point.1);
  }

  // ---- Opaque keys ----------------------------------------------------------

  const CONTEXT := "supabase-self-hosted"

  function Checksum(cr: Crypto, base: string): (s: string)
    ensures |s| == 8 && AllInAlphabet(s)
  {
    Encode(cr.digest(CONTEXT + "|" + base))[..8]
  }

  function OpaqueKey(cr: Crypto, prefix: string, random: string): string {
    prefix + random + "_" + Checksum(cr, prefix + random)
  }

  /** The checksum is the first six bytes of the digest. */
  lemma ChecksumMeaning(cr: Crypto, base: string)
    ensures Decode(Checksum(cr, base)) == Some(cr.digest("supabase-self-hosted|" + base)[..6])
  {
    var b: Bytes := cr.digest(CONTEXT + "|" + base);
    assert CONTEXT + "|" + base == "supabase-self-hosted|" + base;
    hide Encode, Decode;
    EncodePrefix(b, 2);
    RoundTrip(b[..6]);
  }

  datatype TextProblem = WrongPrefix | WrongLength | NoSeparator | BadRandom | BadChecksum | WrongChecksum

  method OnlyAlphabet(s: string) returns (ok: bool)
    ensures ok <==> AllInAlphabet(s)
  {
    for i := 0 to |s|
      invariant AllInAlphabet(s[..i])
    {
      if !InAlphabet(s[i]) {
        return false;
      }
      assert s[..i + 1] == s[..i] + [s[i]];
    }
    assert s[..|s|] == s;
    return true;
  }

  /** validateOpaqueKey accepts exactly the prefix, 22 characters of the alphabet, a
      separator and the checksum of what precedes it. */
  method ValidateOpaqueKey(cr: Crypto, value: string, prefix: string) returns (problem: Option<TextProblem>)
    ensures problem.None?
        <==> exists random: string :: |random| == 22 && AllInAlphabet(random) && value == OpaqueKey(cr, prefix, random)
  {
    if |value| != |prefix| + 31 || value[..|prefix|] != prefix {
      OpaqueShape(cr, value, prefix);
      return Some(if |value| < |prefix| || value[..|prefix|] != prefix then WrongPrefix else WrongLength);
    }
    var end := |prefix| + 22;
    var random, checksum := value[|prefix|..end], value[end + 1..];
    OpaqueParts(cr, value, prefix);
    if value[end] != '_' {
      return Some(NoSeparator);
    }
    var ok := OnlyAlphabet(random);
    if !ok {
      return Some(BadRandom);
    }
    ok := OnlyAlphabet(checksum);
    if !ok {
      return Some(BadChecksum);
    }
    if checksum != Checksum(cr, value[..end]) {
      return Some(WrongChecksum);
    }
    return None;
  }

  lemma OpaqueShape(cr: Crypto, value: string, prefix: string)
    ensures forall random: string ::
        |random| == 22 && value == OpaqueKey(cr, prefix, random)
        ==> |value| == |prefix| + 31 && value[..|prefix|] == prefix
  {
    forall random: string | |random| == 22 && value == OpaqueKey(cr, prefix, random)
        ensures |value| == |prefix| + 31 && value[..|prefix|] == prefix {
      assert value == prefix + (random + "_" + Checksum(cr, prefix + random));
    }
  }

  /** The pieces of a text of the right length determine whether it is an opaque key. */
  lemma OpaqueParts(cr: Crypto, value: string, prefix: string)
    requires |value| == |prefix| + 31 && value[..|prefix|] == prefix
    ensures var end := |prefix| + 22;
            var random, checksum := value[|prefix|..end], value[end + 1..];
            (exists r: string :: |r| == 22 && AllInAlphabet(r) && value == OpaqueKey(cr, prefix, r))
             <==> (value[end] == '_' && AllInAlphabet(random) && AllInAlphabet(checksum)
                  && checksum == Checksum(cr, value[..end]))
  {
    var end := |prefix| + 22;
    var random, checksum := value[|prefix|..end], value[end + 1..];
    assert value[..end] == prefix + random;
    if value[end] == '_' && AllInAlphabet(random) && checksum == Checksum(cr, value[..end]) {
      assert value == value[..end] + [value[end]] + checksum;
      assert value == OpaqueKey(cr, prefix, random);
    }
    forall r: string | |r| == 22 && AllInAlphabet(r) && value == OpaqueKey(cr, prefix, r)
      ensures r == random && value[end] == '_' && checksum == Checksum(cr, value[..end])
    {
      assert value == (prefix + r) + ("_" + Checksum(cr, prefix + r));
      assert value[|prefix|..end] == r;
    }
  }

  // ---- The bundle -----------------------------------------------------------

  datatype Field = SigningKeys | PublishableKey | SecretKey | AnonRoleJwt | ServiceRoleJwt | OtherField(name: string)

  const REQUIRED: seq<Field> := [SigningKeys, PublishableKey, SecretKey, AnonRoleJwt, ServiceRoleJwt]

  function FieldName(f: Field): string {
    match f
    case SigningKeys => "signingKeys"
    case PublishableKey => "publishableKey"
    case SecretKey => "secretKey"
    case AnonRoleJwt => "anonRoleJwt"
    case ServiceRoleJwt => "serviceRoleJwt"
    case OtherField(name) => name
  }

  type Fields = map<Field, string>

  const PUBLISHABLE_PREFIX := "sb_publishable_"
  const SECRET_PREFIX := "sb_secret_"
  const AUDIENCE := "authenticated"
  const ANON := "anon"
  const SERVICE_ROLE := "service_role"

  /** The five fields and nothing else, each given once and not empty. */
  ghost predicate Complete(data: Fields, stringData: Fields) {
    && data.Keys !! stringData.Keys
    && (forall f :: f in data || f in stringData ==> f in REQUIRED)
    && (forall f :: f in REQUIRED ==> (f in data && data[f] != "") || (f in stringData && stringData[f] != ""))
  }

  function ValueOf(data: Fields, stringData: Fields, f: Field): string {
    if f in data then data[f] else if f in stringData then stringData[f] else ""
  }

  function Values(data: Fields, stringData: Fields): Field -> string { f => ValueOf(data, stringData, f) }

  function SoleKey(cr: Crypto, raw: string): Option<Jwk> {
    if cr.keys(raw).None? || |cr.keys(raw).value| != 1 then None else Some(cr.keys(raw).value[0])
  }

  ghost predicate IsOpaque(cr: Crypto, value: string, prefix: string) {
    exists random: string :: |random| == 22 && AllInAlphabet(random) && value == OpaqueKey(cr, prefix, random)
  }

  /** Both role tokens are signed by the key, each for its own role. */
  ghost predicate TokensSigned(cr: Crypto, now: int, v: Field -> string, point: Point, kid: string) {
    && Signed(cr, now, v(AnonRoleJwt), point, kid, "anon", "authenticated")
    && Signed(cr, now, v(ServiceRoleJwt), point, kid, "service_role", "authenticated")
  }

  /** The bundle holds one key, a signing key with that point. */
  ghost predicate HoldsKey(cr: Crypto, v: Field -> string, key: Jwk, point: Point) {
    cr.keys(v(SigningKeys)) == Some([key]) && exists d :: IsSigningKey(cr, key, point, d)
  }

  /** What the values of a complete bundle have to satisfy. */
  ghost predicate Consistent(cr: Crypto, now: int, v: Field -> string) {
    && IsOpaque(cr, v(PublishableKey), "sb_publishable_") && IsOpaque(cr, v(SecretKey), "sb_secret_")
    && v(PublishableKey) != v(SecretKey)
    && exists key, point :: HoldsKey(cr, v, key, point) && TokensSigned(cr, now, v, point, key.kid)
  }

  /** The same as the operator checks it. */
  ghost predicate Checked(cr: Crypto, now: int, v: Field -> string) {
    && SoleKey(cr, v(SigningKeys)).Some? && SigningKeyProblem(cr, SoleKey(cr, v(SigningKeys)).value).None?
    && IsOpaque(cr, v(PublishableKey), PUBLISHABLE_PREFIX) && IsOpaque(cr, v(SecretKey), SECRET_PREFIX)
    && v(PublishableKey) != v(SecretKey)
    && Verify(cr, now, v(AnonRoleJwt), SoleKey(cr, v(SigningKeys)).value, ANON, AUDIENCE).None?
    && Verify(cr, now, v(ServiceRoleJwt), SoleKey(cr, v(SigningKeys)).value, SERVICE_ROLE, AUDIENCE).None?
  }

  lemma SoleKeyMeaning(cr: Crypto, raw: string, key: Jwk)
    ensures SoleKey(cr, raw) == Some(key) <==> cr.keys(raw) == Some([key])
  {
    if SoleKey(cr, raw) == Some(key) { assert cr.keys(raw).value == [key]; }
  }

  /** The key of a bundle whose sole key was checked. */
  lemma KeyHeld(cr: Crypto, v: Field -> string, key: Jwk)
    requires SoleKey(cr, v(SigningKeys)) == Some(key) && SigningKeyProblem(cr, key).None?
    ensures ReadPrivate(cr, key).Ok? && HoldsKey(cr, v, key, ReadPrivate(cr, key).value.point)
  {
    hide ReadPrivate, IsSigningKey;
    SoleKeyMeaning(cr, v(SigningKeys), key);
    SigningKeyMeaning(cr, key, ReadPrivate(cr, key).value.point, ReadPrivate(cr, key).value.scalar);
  }

  lemma HeldKey(cr: Crypto, v: Field -> string, key: Jwk, point: Point)
    requires HoldsKey(cr, v, key, point)
    ensures SoleKey(cr, v(SigningKeys)) == Some(key) && SigningKeyProblem(cr, key).None?
    ensures ReadPrivate(cr, key).Ok? && ReadPrivate(cr, key).value.point == point
  {
    hide ReadPrivate, IsSigningKey, SigningKeyProblem;
    SoleKeyMeaning(cr, v(SigningKeys), key);
    var d :| IsSigningKey(cr, key, point, d);
    SigningKeyMeaning(cr, key, point, d);
  }

  /** What is checked is exactly consistency. */
  lemma CheckedMeansConsistent(cr: Crypto, now: int, v: Field -> string)
    ensures Checked(cr, now, v) <==> Consistent(cr, now, v)
  {
    hide ReadPrivate, IsSigningKey, SigningKeyProblem, VerifyWith, Signed, IsOpaque, HoldsKey, SoleKey;
    if Checked(cr, now, v) {
      var key := SoleKey(cr, v(SigningKeys)).value;
      KeyHeld(cr, v, key);
      TokensVerify(cr, now, v, key, ReadPrivate(cr, key).value.point);
      assert HoldsKey(cr, v, key, ReadPrivate(cr, key).value.point);
    }
    if Consistent(cr, now, v) {
      var key, point :| HoldsKey(cr, v, key, point) && TokensSigned(cr, now, v, point, key.kid);
      HeldKey(cr, v, key, point);
      TokensVerify(cr, now, v, key, point);
    }
  }

  lemma TokensVerify(cr: Crypto, now: int, v: Field -> string, key: Jwk, point: Point)
    requires SigningKeyProblem(cr, key).None? && ReadPrivate(cr, key).Ok? && ReadPrivate(cr, key).value.point == point
    ensures TokensSigned(cr, now, v, point, key.kid)
        <==> Verify(cr, now, v(AnonRoleJwt), key, ANON, AUDIENCE).None?
             && Verify(cr, now, v(ServiceRoleJwt), key, SERVICE_ROLE, AUDIENCE).None?
  {
    hide ReadPrivate, SigningKeyProblem, VerifyWith, Signed;
    VerifiedMeansSigned(cr, now, v(AnonRoleJwt), point, key.kid, ANON, AUDIENCE);
    VerifiedMeansSigned(cr, now, v(ServiceRoleJwt), point, key.kid, SERVICE_ROLE, AUDIENCE);
  }

  ghost predicate Acceptable(cr: Crypto, now: int, data: Fields, stringData: Fields) {
    Complete(data, stringData) && Consistent(cr, now, Values(data, stringData))
  }

  function Decimal(n: nat): (s: string)
    ensures s != "" && forall c :: c in s ==> '0' <= c <= '9'
  {
    if n < 10 then [('0' as int + n) as char] else Decimal(n / 10) + [('0' as int + n % 10) as char]
  }

  /** One field of the hashed text: name, length, value. */
  function Entry(name: string, value: string): string { name + ":" + Decimal(|value|) + ":" + value }

  function Preimage(v: Field -> string, fields: seq<Field>): string {
    if fields == [] then "" else Entry(FieldName(fields[0]), v(fields[0])) + Preimage(v, fields[1..])
  }

  datatype Projection = Projection(jwk: Jwk, hash: Digest)

  datatype Problem = Unexpected(field: Field) | Twice(field: Field) | Missing(field: Field) | BadSigningKey
                   | BadOpaque(field: Field, text: TextProblem) | SameKeys | BadToken(field: Field, token: TokenProblem)

  /** The field contract: every key allowed, none given twice, all there. */
  method CheckFields(data: Fields, stringData: Fields) returns (problem: Option<Problem>)
    ensures problem.None? <==> Complete(data, stringData)
  {
    var todo := data.Keys;
    while todo != {}
      invariant todo <= data.Keys && forall f :: f in data && f !in todo ==> f in REQUIRED
      decreases todo
    {
      var f :| f in todo;
      if f !in REQUIRED {
        return Some(Unexpected(f));
      }
      todo := todo - {f};
    }
    todo := stringData.Keys;
    while todo != {}
      invariant todo <= stringData.Keys && forall f :: f in stringData && f !in todo ==> f in REQUIRED && f !in data
      decreases todo
    {
      var f :| f in todo;
      if f !in REQUIRED {
        return Some(Unexpected(f));
      }
      if f in data {
        return Some(Twice(f));
      }
      todo := todo - {f};
    }
    for i := 0 to |REQUIRED|
      invariant forall j :: 0 <= j < i ==> ValueOf(data, stringData, REQUIRED[j]) != ""
    {
      if ValueOf(data, stringData, REQUIRED[i]) == "" {
        assert REQUIRED[i] in REQUIRED;
        return Some(Missing(REQUIRED[i]));
      }
    }
    forall f | f in REQUIRED ensures ValueOf(data, stringData, f) != "" {
      var j :| 0 <= j < |REQUIRED| && REQUIRED[j] == f;
    }
    return None;
  }

  /** The two opaque keys and the two role tokens of the bundle. */
  method CheckValues(cr: Crypto, now: int, v: Field -> string, key: Jwk) returns (problem: Option<Problem>)
    requires SoleKey(cr, v(SigningKeys)) == Some(key) && SigningKeyProblem(cr, key).None?
    ensures problem.None? <==> Checked(cr, now, v)
  {
    hide OpaqueKey, Verify, SigningKeyProblem, SoleKey;
    var text := ValidateOpaqueKey(cr, v(PublishableKey), PUBLISHABLE_PREFIX);
    if text.Some? {
      return Some(BadOpaque(PublishableKey, text.value));
    }
    text := ValidateOpaqueKey(cr, v(SecretKey), SECRET_PREFIX);
    if text.Some? {
      return Some(BadOpaque(SecretKey, text.value));
    }
    if v(PublishableKey) == v(SecretKey) {
      return Some(SameKeys);
    }
    var token := Verify(cr, now, v(AnonRoleJwt), key, ANON, AUDIENCE);
    if token.Some? {
      return Some(BadToken(AnonRoleJwt, token.value));
    }
    token := Verify(cr, now, v(ServiceRoleJwt), key, SERVICE_ROLE, AUDIENCE);
    if token.Some? {
      return Some(BadToken(ServiceRoleJwt, token.value));
    }
    return None;
  }

  /** The result for a bundle: the public half of its one key, with which both its tokens
      verify, and the digest of its five values. */
  ghost predicate IsResult(cr: Crypto, now: int, v: Field -> string, r: Projection) {
    && r.hash == cr.digest(Preimage(v, REQUIRED))
    && exists key, point ::
         HoldsKey(cr, v, key, point) && TokensSigned(cr, now, v, point, key.kid) && ProjectsKey(key, point, r.jwk)
  }

  /** ValidateProjectCredentials. */
  method ValidateProjectCredentials(cr: Crypto, now: int, data: Fields, stringData: Fields)
    returns (r: Outcome<Projection, Problem>)
    ensures r.Ok? <==> Acceptable(cr, now, data, stringData)
    ensures r.Ok? ==> IsResult(cr, now, Values(data, stringData), r.value)
  {
    hide Complete, IsOpaque, Verify, Preimage, SoleKey, Consistent, SigningKeyProblem, IsResult, IsProjection,
         IsSigningKey;
    var problem := CheckFields(data, stringData);
    if problem.Some? {
      return Err(problem.value);
    }
    var v := Values(data, stringData);
    CheckedMeansConsistent(cr, now, v);
    var keys := SoleKey(cr, v(SigningKeys));
    if keys.None? {
      return Err(BadSigningKey);
    }
    var public := PublicJwk(cr, keys.value);
    if public.Err? {
      return Err(BadSigningKey);
    }
    problem := CheckValues(cr, now, v, keys.value);
    if problem.Some? {
      return Err(problem.value);
    }
    ResultMeaning(cr, now, v, keys.value, public.value);
    var hashed := HashText(v, REQUIRED);
    r := Ok(Projection(public.value, cr.digest(hashed)));
  }

  lemma ResultMeaning(cr: Crypto, now: int, v: Field -> string, key: Jwk, public: Jwk)
    requires SoleKey(cr, v(SigningKeys)) == Some(key) && SigningKeyProblem(cr, key).None? && Checked(cr, now, v)
    requires IsProjection(cr, key, public)
    ensures IsResult(cr, now, v, Projection(public, cr.digest(Preimage(v, REQUIRED))))
  {
    hide ReadPrivate, IsSigningKey, SigningKeyProblem, VerifyWith, Signed, IsOpaque, SoleKey, ProjectsKey, Preimage;
    var point, d :| IsSigningKey(cr, key, point, d) && ProjectsKey(key, point, public);
    SigningKeyMeaning(cr, key, point, d);
    KeyHeld(cr, v, key);
    TokensVerify(cr, now, v, key, point);
  }

  /** The text written to the hash, field by field. */
  method HashText(v: Field -> string, fields: seq<Field>) returns (hashed: string)
    ensures hashed == Preimage(v, fields)
  {
    hide FieldName, Decimal;
    hashed := "";
    for i := 0 to |fields|
      invariant Preimage(v, fields) == hashed + Preimage(v, fields[i..])
    {
      assert fields[i..][0] == fields[i] && fields[i..][1..] == fields[i + 1..];
      hashed := hashed + Entry(FieldName(fields[i]), v(fields[i]));
    }
  }

  // ---- The hashed text is unambiguous ---------------------------------------

  function DecimalValue(s: string): int {
    if s == "" then 0 else DecimalValue(s[..|s| - 1]) * 10 + (s[|s| - 1] as int - '0' as int)
  }

  lemma {:induction false} DecimalRoundTrip(n: nat)
    ensures DecimalValue(Decimal(n)) == n
  {
    if n >= 10 {
      DecimalRoundTrip(n / 10);
      var s := Decimal(n);
      assert s[..|s| - 1] == Decimal(n / 10);
    }
  }

  lemma EntryCut(name: string, v: string, w: string, x: string, y: string)
    requires Entry(name, v) + x == Entry(name, w) + y
    ensures v == w && x == y
  {
    var a, b := Decimal(|v|), Decimal(|w|);
    var head := name + ":";
    assert Entry(name, v) + x == head + (a + [':'] + (v + x));
    assert Entry(name, w) + y == head + (b + [':'] + (w + y));
    Prefixed(head, a + [':'] + (v + x), b + [':'] + (w + y));
    CutAt(a, b, ':', v + x, w + y);
    DecimalRoundTrip(|v|);
    DecimalRoundTrip(|w|);
    assert (v + x)[..|v|] == v && (w + y)[..|w|] == w;
    assert (v + x)[|v|..] == x && (w + y)[|w|..] == y;
  }

  lemma Prefixed(head: string, a: string, b: string)
    requires head + a == head + b
    ensures a == b
  {
    assert (head + a)[|head|..] == a && (head + b)[|head|..] == b;
  }

  lemma {:induction false} PreimageCut(v: Field -> string, w: Field -> string, fields: seq<Field>)
    requires Preimage(v, fields) == Preimage(w, fields)
    ensures forall f :: f in fields ==> v(f) == w(f)
  {
    if fields != [] {
      EntryCut(FieldName(fields[0]), v(fields[0]), w(fields[0]), Preimage(v, fields[1..]), Preimage(w, fields[1..]));
      PreimageCut(v, w, fields[1..]);
      assert fields == [fields[0]] + fields[1..];
    }
  }

  /** Two bundles that hash the same text hold the same five values. */
  lemma HashedTextIsUnambiguous(a: Fields, a2: Fields, b: Fields, b2: Fields)
    requires Preimage(Values(a, a2), REQUIRED) == Preimage(Values(b, b2), REQUIRED)
    ensures forall f :: f in REQUIRED ==> ValueOf(a, a2, f) == ValueOf(b, b2, f)
  {
    PreimageCut(Values(a, a2), Values(b, b2), REQUIRED);
  }
}
