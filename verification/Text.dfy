/** Splitting and joining text at a character. */
module Text {
  /** Index of the first c, or the length. */
  function Find(s: string, c: char): (i: nat)
    ensures i <= |s| && c !in s[.. i] && (i < |s| ==> s[i] == c)
  {
    if s == "" || s[0] == c then 0 else
      assert s[..1 + Find(s[1..], c)] == [s[0]] + s[1..][..Find(s[1..], c)];
      1 + Find(s[1..], c)
  }

  /** The pieces between occurrences of c. */
  function Split(s: string, c: char): (parts: seq<string>)
    ensures parts != [] && forall i :: 0 <= i < |parts| ==> c !in parts[i]
    decreases |s|
  {
    var i := Find(s, c);
    if i == |s| then assert s[..i] == s; [s] else [s[..i]] + Split(s[i + 1..], c)
  }

  function Join(parts: seq<string>, c: char): string {
    if parts == [] then "" else if |parts| == 1 then parts[0] else parts[0] + [c] + Join(parts[1..], c)
  }

  /** The first occurrence is the only place with nothing before it. */
  lemma {:induction false} FindIs(s: string, c: char, i: nat)
    requires i <= |s| && c !in s[.. i] && (i < |s| ==> s[i] == c)
    ensures Find(s, c) == i
  {
    assert i > 0 ==> s[..i][0] in s[..i];
    if s != "" && s[0] != c {
      assert s[1..][..i - 1] == s[..i][1..];
      FindIs(s[1..], c, i - 1);
    }
  }

  lemma FindAt(a: string, c: char, b: string)
    requires c !in a
    ensures Find(a + [c] + b, c) == |a| && Find(a, c) == |a|
  {
    assert (a + [c] + b)[..|a|] == a && a[..|a|] == a;
    FindIs(a + [c] + b, c, |a|);
    FindIs(a, c, |a|);
  }

  /** Past a start without it, a character is found in the rest. */
  lemma FindAfter(s: string, c: char, n: nat)
    requires n < |s| && c !in s[..n + 1]
    ensures Find(s, c) == n + 1 + Find(s[n + 1..], c)
  {
    var v := Find(s[n + 1..], c);
    assert s[..n + 1 + v] == s[..n + 1] + s[n + 1..][..v];
    FindIs(s, c, n + 1 + v);
  }

  lemma SplitAt(a: string, c: char, b: string)
    requires c !in a
    ensures Split(a + [c] + b, c) == [a] + Split(b, c) && Split(a, c) == [a]
  {
    hide Find;
    var s := a + [c] + b;
    FindAt(a, c, b);
    assert s[..|a|] == a && s[|a| + 1..] == b;
  }

  /** Joining pieces without the separator and splitting again gives the pieces. */
  lemma {:induction false} SplitJoin(parts: seq<string>, c: char)
    requires parts != [] && forall i :: 0 <= i < |parts| ==> c !in parts[i]
    ensures Split(Join(parts, c), c) == parts
  {
    hide Split, Find;
    if |parts| == 1 {
      SplitAt(parts[0], c, "");
      assert parts == [parts[0]];
    } else {
      SplitAt(parts[0], c, Join(parts[1..], c));
      SplitJoin(parts[1..], c);
      assert parts == [parts[0]] + parts[1..];
    }
  }

  lemma {:induction false} JoinSplit(s: string, c: char)
    ensures Join(Split(s, c), c) == s
    decreases |s|
  {
    hide Find;
    var i := Find(s, c);
    if i == |s| {
      assert s[..i] == s;
    } else {
      JoinSplit(s[i + 1..], c);
      var rest := Split(s[i + 1..], c);
      assert ([s[..i]] + rest)[1..] == rest;
      assert s == s[..i] + [c] + s[i + 1..];
    }
  }

  lemma ThreeParts(token: string)
    requires |Split(token, '.')| == 3
    ensures var p := Split(token, '.'); token == p[0] + "." + p[1] + "." + p[2]
  {
    hide Split;
    var p := Split(token, '.');
    JoinSplit(token, '.');
    assert p[1..] == [p[1], p[2]] && p[1..][1..] == [p[2]];
    assert Join(p[1..], '.') == p[1] + ['.'] + p[2];
    assert Join(p, '.') == p[0] + ['.'] + (p[1] + ['.'] + p[2]);
  }

  /** Three pieces without dots, joined by dots, are split into the three. */
  lemma SplitThree(a: string, b: string, c: string)
    requires '.' !in a && '.' !in b && '.' !in c
    ensures Split(a + "." + b + "." + c, '.') == [a, b, c]
  {
    hide Split;
    SplitAt(c, '.', "");
    SplitAt(b, '.', c);
    SplitAt(a, '.', b + ['.'] + c);
    assert a + "." + b + "." + c == a + ['.'] + (b + ['.'] + c);
  }

  /** Two texts that agree up to their first separator agree on both sides of it. */
  lemma CutAt(a: string, b: string, c: char, x: string, y: string)
    requires c !in a && c !in b && a + [c] + x == b + [c] + y
    ensures a == b && x == y
  {
    FindAt(a, c, x);
    FindAt(b, c, y);
    var s := a + [c] + x;
    assert s[..|a|] == a && s[|a| + 1..] == x;
    assert s == b + [c] + y && s[..|b|] == b && s[|b| + 1..] == y;
  }

  function HexDigit(n: nat): char
    requires n < 16
  { if n < 10 then ('0' as int + n) as char else ('a' as int + n - 10) as char }
}
