/** The text whose hash rolls the PowerSync pods: the generated configuration, a NUL
    byte, and the sync rules. */
module Rollout {
  import opened Text

  /** Characters strconv counts as printable beyond ASCII. */
  type Printable = char -> bool

  function HexByte(n: nat): string
    requires n < 256
  { [HexDigit(n / 16), HexDigit(n % 16)] }

  /** How %q writes one character. */
  function Escaped(printable: Printable, c: char): string {
    if c == '"' || c == '\\' then ['\\', c]
    else if ' ' <= c <= '~' then [c]
    else if c == 7 as char then "\\a" else if c == 8 as char then "\\b" else if c == 12 as char then "\\f"
    else if c == '\n' then "\\n" else if c == '\r' then "\\r" else if c == '\t' then "\\t" else if c == 11 as char
        then "\\v"
    else if c as int < 128 then "\\x" + HexByte(c as int)
    else if printable(c) then [c]
    else if c as int < 0x1_0000 then "\\u" + HexByte(c as int / 256) + HexByte(c as int % 256)
    else "\\U00" + HexByte(c as int / 0x1_0000 % 256) + HexByte(c as int / 256 % 256) + HexByte(c as int % 256)
  }

  function EscapedAll(printable: Printable, s: string): string {
    if s == "" then "" else Escaped(printable, s[0]) + EscapedAll(printable, s[1..])
  }

  function Quoted(printable: Printable, s: string): string { "\"" + EscapedAll(printable, s) + "\"" }

  /** The fixed text of config.yaml around the one value it quotes. */
  datatype Template = Template(head: string, tail: string)

  /** The config.yaml of BuildPowersyncConfigMap. */
  function Config(t: Template, printable: Printable, jwksUrl: string): string {
    t.head + Quoted(printable, jwksUrl) + t.tail
  }

  const NUL := '\0'

  /** What applyPowerSyncConfigHash hashes. */
  function Hashed(config: string, rules: string): string { config + [NUL] + rules }

  lemma EscapedHasNoNul(printable: Printable, c: char)
    ensures NUL !in Escaped(printable, c)
  {
  }

  lemma {:induction false} QuotedHasNoNul(printable: Printable, s: string)
    ensures NUL !in EscapedAll(printable, s)
  {
    if s != "" {
      EscapedHasNoNul(printable, s[0]);
      QuotedHasNoNul(printable, s[1..]);
    }
  }

  lemma HexIsInjective(m: nat, n: nat)
    requires m < 256 && n < 256 && HexByte(m) == HexByte(n)
    ensures m == n
  {
    assert HexByte(m)[0] == HexByte(n)[0] && HexByte(m)[1] == HexByte(n)[1];
    assert m / 16 == n / 16 && m % 16 == n % 16;
  }

  /** What stands behind the backslash of an escaped character; a blank if it is not escaped. */
  function Mark(printable: Printable, c: char): char {
    if |Escaped(printable, c)| == 1 then ' ' else Escaped(printable, c)[1]
  }

  lemma EscapedStart(printable: Printable, c: char)
    ensures Escaped(printable, c) != "" && Escaped(printable, c)[0] != '"'
    ensures |Escaped(printable, c)| == 1 ==> Escaped(printable, c) == [c] && c != '\\'
    ensures |Escaped(printable, c)| > 1 ==> Escaped(printable, c)[0] == '\\' && Mark(printable, c) != ' '
    ensures |Escaped(printable, c)| == match Mark(printable, c)
              case ' ' => 1 case 'x' => 4 case 'u' => 6 case 'U' => 10 case _ => 2
  {
  }

  /** Quoting is a prefix code. */
  lemma EscapedApart(printable: Printable, c: char, x: string, d: char, y: string)
    requires Escaped(printable, c) + x == Escaped(printable, d) + y
    ensures Escaped(printable, c) == Escaped(printable, d) && x == y
  {
    var e, f := Escaped(printable, c), Escaped(printable, d);
    EscapedStart(printable, c);
    EscapedStart(printable, d);
    assert (e + x)[0] == e[0] && (f + y)[0] == f[0];
    assert |e| > 1 ==> (e + x)[1] == e[1];
    assert |f| > 1 ==> (f + y)[1] == f[1];
    hide Escaped;
    assert |e| == |f|;
    assert (e + x)[..|e|] == e && (f + y)[..|f|] == f && (e + x)[|e|..] == x && (f + y)[|f|..] == y;
  }

  /** The character behind a backslash and a letter. */
  function Simple(mark: char): int {
    match mark
    case 'a' => 7 case 'b' => 8 case 'f' => 12 case 'n' => 10 case 'r' => 13 case 't' => 9 case 'v' => 11
    case _ => mark as int
  }

  /** The five forms of an escaped character. */
  lemma EscapedForm(printable: Printable, c: char)
    ensures var e, n := Escaped(printable, c), c as int;
            match |e|
            case 1 => e == [c]
            case 2 => n == Simple(e[1])
            case 4 => n < 256 && e == "\\x" + HexByte(n)
            case 6 => n < 0x1_0000 && e == "\\u" + (HexByte(n / 256) + HexByte(n % 256))
            case _ => e == "\\U00" + (HexByte(n / 0x1_0000 % 256) + (HexByte(n / 256 % 256) + HexByte(n % 256)))
                      && n < 0x100_0000
  {
  }

  lemma TwoBytes(m: nat, n: nat, j: nat, k: nat)
    requires m < 256 && n < 256 && j < 256 && k < 256 && HexByte(m) + HexByte(n) == HexByte(j) + HexByte(k)
    ensures m == j && n == k
  {
    assert HexByte(m) == (HexByte(m) + HexByte(n))[..2] && HexByte(j) == (HexByte(j) + HexByte(k))[..2];
    assert HexByte(n) == (HexByte(m) + HexByte(n))[2..] && HexByte(k) == (HexByte(j) + HexByte(k))[2..];
    HexIsInjective(m, j);
    HexIsInjective(n, k);
  }

  lemma BehindPrefix(p: string, x: string, y: string)
    requires p + x == p + y
    ensures x == y
  {
    assert (p + x)[|p|..] == x && (p + y)[|p|..] == y;
  }

  lemma ThreeParts(a: nat, b: nat, c: nat, x: nat, y: nat, z: nat)
    requires a < 256 && b < 256 && c < 256 && x < 256 && y < 256 && z < 256
    requires HexByte(a) + (HexByte(b) + HexByte(c)) == HexByte(x) + (HexByte(y) + HexByte(z))
    ensures a == x && b == y && c == z
  {
    assert HexByte(a) == (HexByte(a) + (HexByte(b) + HexByte(c)))[..2];
    assert HexByte(x) == (HexByte(x) + (HexByte(y) + HexByte(z)))[..2];
    hide HexByte;
    BehindPrefix(HexByte(a), HexByte(b) + HexByte(c), HexByte(y) + HexByte(z));
    HexIsInjective(a, x);
    TwoBytes(b, c, y, z);
  }

  lemma OfBytes(n: nat)
    requires n < 0x100_0000
    ensures n == 0x1_0000 * (n / 0x1_0000 % 256) + 256 * (n / 256 % 256) + n % 256
  {
    assert n / 0x1_0000 == n / 256 / 256;
  }

  lemma ThreeBytes(m: nat, n: nat)
    requires m < 0x100_0000 && n < 0x100_0000
    requires HexByte(m / 0x1_0000 % 256) + (HexByte(m / 256 % 256) + HexByte(m % 256))
          == HexByte(n / 0x1_0000 % 256) + (HexByte(n / 256 % 256) + HexByte(n % 256))
    ensures m == n
  {
    ThreeParts(m / 0x1_0000 % 256, m / 256 % 256, m % 256, n / 0x1_0000 % 256, n / 256 % 256, n % 256);
    hide HexByte;
    OfBytes(m);
    OfBytes(n);
  }

  lemma EscapedIsInjective(printable: Printable, c: char, d: char)
    requires Escaped(printable, c) == Escaped(printable, d)
    ensures c == d
  {
    hide Escaped, HexByte;
    EscapedForm(printable, c);
    EscapedForm(printable, d);
    EscapedStart(printable, c);
    var m, n := c as int, d as int;
    match |Escaped(printable, c)| {
      case 1 =>
      case 2 =>
      case 4 => BehindPrefix("\\x", HexByte(m), HexByte(n)); HexIsInjective(m, n);
      case 6 =>
        BehindPrefix("\\u", HexByte(m / 256) + HexByte(m % 256), HexByte(n / 256) + HexByte(n % 256));
        TwoBytes(m / 256, m % 256, n / 256, n % 256);
      case _ =>
        BehindPrefix("\\U00", HexByte(m / 0x1_0000 % 256) + (HexByte(m / 256 % 256) + HexByte(m % 256)),
                     HexByte(n / 0x1_0000 % 256) + (HexByte(n / 256 % 256) + HexByte(n % 256)));
        ThreeBytes(m, n);
    }
  }

  /** A quoted text starts with its closing quote only when it is empty. */
  lemma QuoteStart(printable: Printable, a: string, x: string)
    ensures (EscapedAll(printable, a) + ['"'] + x)[0] == '"' <==> a == ""
  {
    if a != "" {
      EscapedStart(printable, a[0]);
      hide Escaped;
      assert (EscapedAll(printable, a) + ['"'] + x)[0] == Escaped(printable, a[0])[0];
    }
  }

  lemma QuotedMore(printable: Printable, a: string, x: string)
    requires a != ""
    ensures EscapedAll(printable, a) + ['"'] + x
         == Escaped(printable, a[0]) + (EscapedAll(printable, a[1..]) + ['"'] + x)
  {
    hide Escaped;
  }

  /** A quoted text ends where its closing quote stands, and determines what was quoted. */
  lemma {:induction false} QuotedApart(printable: Printable, a: string, x: string, b: string, y: string)
    requires EscapedAll(printable, a) + ['"'] + x == EscapedAll(printable, b) + ['"'] + y
    ensures a == b && x == y
  {
    QuoteStart(printable, a, x);
    QuoteStart(printable, b, y);
    if a == "" {
      assert (EscapedAll(printable, a) + ['"'] + x)[1..] == x && (EscapedAll(printable, b) + ['"'] + y)[1..] == y;
    } else {
      QuotedMore(printable, a, x);
      QuotedMore(printable, b, y);
      hide Escaped, EscapedAll;
      EscapedApart(printable, a[0], EscapedAll(printable, a[1..]) + ['"'] + x, b[0],
                   EscapedAll(printable, b[1..]) + ['"'] + y);
      EscapedIsInjective(printable, a[0], b[0]);
      QuotedApart(printable, a[1..], x, b[1..], y);
      assert a == [a[0]] + a[1..] && b == [b[0]] + b[1..];
    }
  }

  /** Two projects' configurations and rules hash the same text only when they are the
      same, whatever their URLs and rules contain. */
  lemma HashedTextIsUnambiguous(t: Template, printable: Printable, a: string, rules: string, b: string, other: string)
    requires NUL !in t.head && NUL !in t.tail
    requires Hashed(Config(t, printable, a), rules) == Hashed(Config(t, printable, b), other)
    ensures a == b && rules == other
  {
    QuotedHasNoNul(printable, a);
    QuotedHasNoNul(printable, b);
    hide EscapedAll;
    CutAt(Config(t, printable, a), Config(t, printable, b), NUL, rules, other);
    SameConfig(t, printable, a, b);
  }

  lemma SameConfig(t: Template, printable: Printable, a: string, b: string)
    requires Config(t, printable, a) == Config(t, printable, b)
    ensures a == b
  {
    hide EscapedAll;
    var start: string := t.head + ['"'];
    var x, y := EscapedAll(printable, a) + ['"'] + t.tail, EscapedAll(printable, b) + ['"'] + t.tail;
    assert Config(t, printable, a) == start + x && Config(t, printable, b) == start + y;
    assert (start + x)[|start|..] == x && (start + y)[|start|..] == y;
    QuotedApart(printable, a, t.tail, b, t.tail);
  }
}
