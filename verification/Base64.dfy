/** Base64url as Go reads and writes it, and fixed-width big-endian integers. */
module Base64 {
  import opened Kube

  type Byte = b: nat | b < 256
  type Bytes = seq<Byte>

  // ---- The alphabet (section 5 of RFC 4648) ---------------------------------

  function Digit(n: nat): char
    requires n < 64
  {
    if n < 26 then ('A' as int + n) as char
    else if n < 52 then ('a' as int + n - 26) as char
    else if n < 62 then ('0' as int + n - 52) as char
    else if n == 62 then '-' else '_'
  }

  function Value(c: char): (v: Option<nat>)
    ensures v.Some? ==> v.value < 64 && Digit(v.value) == c
  {
    if 'A' <= c <= 'Z' then Some(c as int - 'A' as int)
    else if 'a' <= c <= 'z' then Some(c as int - 'a' as int + 26)
    else if '0' <= c <= '9' then Some(c as int - '0' as int + 52)
    else if c == '-' then Some(62) else if c == '_' then Some(63) else None
  }

  predicate InAlphabet(c: char) { Value(c).Some? }

  lemma ValueOfDigit(n: nat)
    requires n < 64
    ensures Value(Digit(n)) == Some(n)
  {
  }

  predicate AllInAlphabet(s: string) { forall i :: 0 <= i < |s| ==> InAlphabet(s[i]) }

  // ---- Encoding and decoding ------------------------------------------------

  /** RawURLEncoding.EncodeToString. */
  function Encode(b: Bytes): (s: string)
    ensures AllInAlphabet(s) && |s| == (4 * |b| + 2) / 3
  {
    if |b| == 0 then ""
    else if |b| == 1 then ValueOfDigit(b[0] / 4); ValueOfDigit(b[0] % 4 * 16); [Digit(b[0] / 4), Digit(b[0] % 4 * 16)]
    else if |b| == 2 then
      ValueOfDigit(b[0] / 4); ValueOfDigit(b[0] % 4 * 16 + b[1] / 16); ValueOfDigit(b[1] % 16 * 4);
      [Digit(b[0] / 4), Digit(b[0] % 4 * 16 + b[1] / 16), Digit(b[1] % 16 * 4)]
    else
      ValueOfDigit(b[0] / 4); ValueOfDigit(b[0] % 4 * 16 + b[1] / 16); ValueOfDigit(b[1] % 16 * 4
          + b[2] / 64); ValueOfDigit(b[2] % 64);
      [Digit(b[0] / 4), Digit(b[0] % 4 * 16 + b[1] / 16), Digit(b[1] % 16 * 4 + b[2] / 64), Digit(b[2] % 64)]
          + Encode(b[3..])
  }

  function Quantum(p: char, q: char, r: char, t: char): Option<Bytes> {
    if InAlphabet(p) && InAlphabet(q) && InAlphabet(r) && InAlphabet(t)
    then Some([Value(p).value * 4 + Value(q).value / 16, Value(q).value % 16 * 16 + Value(r).value / 4,
        Value(r).value % 4 * 64 + Value(t).value])
    else None
  }

  /** Two or three characters at the end; the bits beyond the last byte are ignored. */
  function Tail(s: string): Option<Bytes>
    requires |s| < 4
  {
    if !AllInAlphabet(s) || |s| == 1 then None
    else if s == "" then Some([])
    else if |s| == 2 then Some([Value(s[0]).value * 4 + Value(s[1]).value / 16])
    else Some([Value(s[0]).value * 4 + Value(s[1]).value / 16, Value(s[1]).value % 16 * 16 + Value(s[2]).value / 4])
  }

  function Both(a: Option<Bytes>, b: Option<Bytes>): Option<Bytes> {
    if a.Some? && b.Some? then Some(a.value + b.value) else None
  }

  function DecodeRaw(s: string): Option<Bytes> {
    if |s| < 4 then Tail(s) else Both(Quantum(s[0], s[1], s[2], s[3]), DecodeRaw(s[4..]))
  }

  function DecodePadded(s: string): Option<Bytes> {
    if s == "" then Some([])
    else if |s| < 4 then None
    else if |s| == 4 && s[3] == '=' then if s[2] == '=' then Tail(s[..2]) else Tail(s[..3])
    else Both(Quantum(s[0], s[1], s[2], s[3]), DecodePadded(s[4..]))
  }

  /** The decoder skips line ends wherever they stand. */
  function WithoutLineEnds(s: string): string {
    if s == "" then "" else (if s[0] == '\n' || s[0] == '\r' then "" else [s[0]]) + WithoutLineEnds(s[1..])
  }

  /** decodeBase64URL: unpadded text first, padded text second. */
  function Decode(s: string): Option<Bytes> {
    var raw := DecodeRaw(WithoutLineEnds(s));
    if raw.Some? then raw else DecodePadded(WithoutLineEnds(s))
  }

  lemma {:induction false} NoLineEnds(s: string)
    requires '\n' !in s && '\r' !in s
    ensures WithoutLineEnds(s) == s
  {
    if s != "" {
      NoLineEnds(s[1..]);
    }
  }

  lemma SixBits(a: Byte, b: Byte, c: Byte)
    ensures a / 4 * 4 + (a % 4 * 16 + b / 16) / 16 == a
    ensures (a % 4 * 16 + b / 16) % 16 * 16 + (b % 16 * 4 + c / 64) / 4 == b
    ensures (b % 16 * 4 + c / 64) % 4 * 64 + c % 64 == c
  {
  }

  lemma QuantumRoundTrip(a: Byte, b: Byte, c: Byte)
    ensures Quantum(Digit(a / 4), Digit(a % 4 * 16 + b / 16), Digit(b % 16 * 4 + c / 64), Digit(c % 64))
        == Some([a, b, c])
  {
    hide Digit, Value;
    ValueOfDigit(a / 4);
    ValueOfDigit(a % 4 * 16 + b / 16);
    ValueOfDigit(b % 16 * 4 + c / 64);
    ValueOfDigit(c % 64);
    SixBits(a, b, c);
  }

  lemma {:induction false} TailRoundTrip(b: Bytes)
    requires |b| < 3
    ensures DecodeRaw(Encode(b)) == Some(b)
  {
    if |b| == 2 {
      ValueOfDigit(b[0] / 4);
      ValueOfDigit(b[0] % 4 * 16 + b[1] / 16);
      ValueOfDigit(b[1] % 16 * 4);
      assert b == [b[0], b[1]];
    } else if |b| == 1 {
      ValueOfDigit(b[0] / 4);
      ValueOfDigit(b[0] % 4 * 16);
      assert b == [b[0]];
    }
  }

  lemma {:induction false} LongRoundTrip(b: Bytes)
    requires |b| >= 3 && DecodeRaw(Encode(b[3..])) == Some(b[3..])
    ensures DecodeRaw(Encode(b)) == Some(b)
  {
    QuantumRoundTrip(b[0], b[1], b[2]);
    hide Quantum, Digit;
    assert Encode(b)[4..] == Encode(b[3..]);
    assert b == [b[0], b[1], b[2]] + b[3..];
  }

  lemma {:induction false} RawRoundTrip(b: Bytes)
    ensures DecodeRaw(Encode(b)) == Some(b)
  {
    hide Encode, DecodeRaw;
    if |b| >= 3 {
      RawRoundTrip(b[3..]);
      LongRoundTrip(b);
    } else {
      TailRoundTrip(b);
    }
  }

  /** Every byte string survives encoding and decoding. */
  lemma RoundTrip(b: Bytes)
    ensures Decode(Encode(b)) == Some(b)
  {
    NoLineEnds(Encode(b));
    RawRoundTrip(b);
  }

  /** What fills the last quantum of a padded text. */
  function Padding(b: Bytes): (s: string)
    ensures s != "" ==> s[0] == '=' && s[|s| - 1] == '=' && |s| < 3
  {
    if |b| >= 3 then Padding(b[3..]) else if |b| == 1 then "==" else if |b| == 2 then "=" else ""
  }

  lemma DigitIsNoPad(n: nat)
    requires n < 64
    ensures Digit(n) != '='
  {
    ValueOfDigit(n);
  }

  lemma PaddedQuantum(p: char, q: char, r: char, t: char, x: string, b: Bytes, rest: Bytes)
    requires t != '=' && Quantum(p, q, r, t) == Some(b) && DecodePadded(x) == Some(rest)
    ensures DecodePadded([p, q, r, t] + x) == Some(b + rest)
  {
    hide Quantum, Tail;
    assert ([p, q, r, t] + x)[4..] == x;
  }

  lemma PaddedEnd(e: string)
    ensures |e| == 2 ==> DecodePadded(e + "==") == Tail(e)
    ensures |e| == 3 && e[2] != '=' ==> DecodePadded(e + "=") == Tail(e)
  {
    hide Quantum, Tail;
    if |e| == 2 { assert (e + "==")[..2] == e; }
    if |e| == 3 { assert (e + "=")[..3] == e; }
  }

  lemma EncodedEnd(b: Bytes)
    requires 0 < |b| < 3
    ensures |Encode(b)| == |b| + 1 && Tail(Encode(b)) == Some(b) && (|b| == 2 ==> Encode(b)[2] != '=')
  {
    TailRoundTrip(b);
    if |b| == 2 { DigitIsNoPad(b[1] % 16 * 4); }
    hide Tail, Digit;
  }

  lemma PaddedTail(b: Bytes)
    requires |b| < 3
    ensures DecodePadded(Encode(b) + Padding(b)) == Some(b)
  {
    if b != [] {
      hide Encode, DecodePadded, Tail;
      EncodedEnd(b);
      PaddedEnd(Encode(b));
    }
  }

  lemma EncodedStart(b: Bytes, tail: string) returns (p: char, q: char, r: char, t: char)
    requires |b| >= 3
    ensures t != '=' && Quantum(p, q, r, t) == Some(b[..3])
    ensures Encode(b) + tail == [p, q, r, t] + (Encode(b[3..]) + tail)
  {
    p, q, r, t := Digit(b[0] / 4), Digit(b[0] % 4 * 16 + b[1] / 16), Digit(b[1] % 16 * 4 + b[2] / 64),
      Digit(b[2] % 64);
    QuantumRoundTrip(b[0], b[1], b[2]);
    DigitIsNoPad(b[2] % 64);
    hide Digit, Quantum;
    assert b[..3] == [b[0], b[1], b[2]];
  }

  lemma PaddingOfRest(b: Bytes)
    requires |b| >= 3
    ensures Padding(b) == Padding(b[3..])
  {
  }

  lemma PaddedLong(b: Bytes)
    requires |b| >= 3 && DecodePadded(Encode(b[3..]) + Padding(b[3..])) == Some(b[3..])
    ensures DecodePadded(Encode(b) + Padding(b)) == Some(b)
  {
    hide *;
    var rest := b[3..];
    var p, q, r, t := EncodedStart(b, Padding(rest));
    PaddedQuantum(p, q, r, t, Encode(rest) + Padding(rest), b[..3], rest);
    PaddingOfRest(b);
    assert b == b[..3] + rest;
  }

  lemma {:induction false} DecodePaddedRoundTrip(b: Bytes)
    ensures DecodePadded(Encode(b) + Padding(b)) == Some(b)
  {
    hide Encode, DecodePadded, Padding;
    if |b| >= 3 {
      DecodePaddedRoundTrip(b[3..]);
      PaddedLong(b);
    } else {
      PaddedTail(b);
    }
  }

  lemma {:induction false} RawRefuses(s: string, i: nat)
    requires i < |s| && !InAlphabet(s[i])
    ensures DecodeRaw(s).None?
  {
    hide InAlphabet;
    if |s| >= 4 && i >= 4 {
      RawRefuses(s[4..], i - 4);
    }
  }

  /** Every byte string survives in padded text too. */
  lemma PaddedRoundTrip(b: Bytes)
    ensures Decode(Encode(b) + Padding(b)) == Some(b)
  {
    hide Encode, DecodeRaw, DecodePadded, WithoutLineEnds;
    var e, p := Encode(b), Padding(b);
    assert forall i :: 0 <= i < |e| ==> InAlphabet(e[i]);
    if p == "" {
      assert e + p == e;
      RoundTrip(b);
    } else {
      NoLineEnds(e + p);
      assert (e + p)[|e|] == '=';
      RawRefuses(e + p, |e|);
      DecodePaddedRoundTrip(b);
    }
  }

  predicate IsLineEnd(c: char) { c == '\n' || c == '\r' }

  /** Line ends anywhere in a text do not matter. */
  lemma {:induction false} LineEndsIgnored(a: string, c: char, b: string)
    requires IsLineEnd(c)
    ensures WithoutLineEnds(a + [c] + b) == WithoutLineEnds(a + b) && Decode(a + [c] + b) == Decode(a + b)
  {
    if a == "" {
      assert a + [c] + b == [c] + b && ([c] + b)[1..] == b && a + b == b;
    } else {
      hide DecodeRaw, DecodePadded;
      LineEndsIgnored(a[1..], c, b);
      assert (a + [c] + b)[1..] == a[1..] + [c] + b && (a + b)[1..] == a[1..] + b;
    }
  }

  /** Whole quanta are encoded on their own. */
  lemma {:induction false} EncodePrefix(b: Bytes, n: nat)
    requires 3 * n <= |b|
    ensures |Encode(b)| >= 4 * n && Encode(b)[..4 * n] == Encode(b[..3 * n])
  {
    hide Digit;
    if n == 0 {
      assert b[..0] == [];
    } else {
      EncodePrefix(b[3..], n - 1);
      assert b[..3 * n][3..] == b[3..][..3 * (n - 1)];
      assert Encode(b)[4..] == Encode(b[3..]);
      assert Encode(b)[..4 * n] == Encode(b)[..4] + Encode(b[3..])[..4 * (n - 1)];
    }
  }

  // ---- Fixed-width integers -------------------------------------------------

  function Power(n: nat): (r: nat) ensures r > 0 { if n == 0 then 1 else 256 * Power(n - 1) }

  /** big.Int.SetBytes. */
  function Number(b: Bytes): (n: nat)
    ensures n < Power(|b|)
  {
    if b == [] then 0 else Number(b[..|b| - 1]) * 256 + b[|b| - 1]
  }

  /** The big-endian bytes of a number in a field of that width. */
  function Padded(n: nat, width: nat): (b: Bytes)
    requires n < Power(width)
    ensures |b| == width
  {
    if width == 0 then [] else Padded(n / 256, width - 1) + [n % 256]
  }

  lemma {:induction false} NumberOfPadded(n: nat, width: nat)
    requires n < Power(width)
    ensures Number(Padded(n, width)) == n
  {
    if width > 0 {
      NumberOfPadded(n / 256, width - 1);
      assert Padded(n, width)[..width - 1] == Padded(n / 256, width - 1);
    }
  }

  lemma {:induction false} PaddedOfNumber(b: Bytes)
    ensures Padded(Number(b), |b|) == b
  {
    if b != [] {
      PaddedOfNumber(b[..|b| - 1]);
      assert Number(b) / 256 == Number(b[..|b| - 1]);
      assert b == b[..|b| - 1] + [b[|b| - 1]];
    }
  }

  /** big.Int.Bytes: no leading zeroes. */
  function Minimal(n: nat): Bytes { if n == 0 then [] else Minimal(n / 256) + [n % 256] }

  lemma {:induction false} PaddedIsMinimal(n: nat, width: nat)
    requires n < Power(width)
    ensures |Minimal(n)| <= width
    ensures forall i :: 0 <= i < width ==>
              Padded(n, width)[i] == if i < width - |Minimal(n)| then 0 else Minimal(n)[i - (width - |Minimal(n)|)]
  {
    if width > 0 { PaddedIsMinimal(n / 256, width - 1); }
  }

  /** paddedInteger and paddedCoordinate: the bytes are copied to the end of a zeroed buffer. */
  method PaddedInteger(value: nat) returns (result: array<Byte>)
    requires value < Power(32)
    ensures fresh(result) && result[..] == Padded(value, 32)
  {
    result := new Byte[32](_ => 0);
    var encoded := Minimal(value);
    PaddedIsMinimal(value, 32);
    var start := 32 - |encoded|;
    for i := 0 to |encoded|
      invariant forall j :: 0 <= j < 32 ==> result[j] == if start <= j < start + i then encoded[j - start] else 0
    {
      result[start + i] := encoded[i];
    }
  }
}
