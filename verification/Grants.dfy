/** The grant script of PowerSync and the publication built from the same schemas. */
module Grants {
  import opened Kube
  import opened Text
  import opened Clusters
  import opened Publications

  // ---- Lines ----------------------------------------------------------------

  // Texts beyond some sixty characters are joined from two literals: proofs look
  // into them character by character, and the verifier does not see that deep into one.
  const HEADER: seq<string> := ["#!/bin/sh", "set -e", "", "echo \"=== CDC Permissions Setup ===\""]
  const PSQL := "psql -v ON_ERROR_STOP=1 " + "--single-transaction \"$PGCONNSTR\" <<'EOSQL'"
  const OPENING: seq<string> := ["", "# Apply Powersync grants", "echo \"Applying Powersync grants...\"", PSQL]
  const COMMENT := "-- Grant powersync_storage role access " + "to create its schema (internal sync state)"
  const STORAGE: seq<string> := [COMMENT, "GRANT CREATE ON DATABASE " + "supabase TO powersync_storage;", ""]
  const TERMINATOR := "EOSQL"
  const CLOSING: seq<string> := ["", "echo \"=== CDC Permissions " + "Setup Complete ===\""]

  datatype Kind = Usage | Select | Default

  function Before(k: Kind): string {
    match k
    case Usage => "GRANT USAGE ON SCHEMA "
    case Select => "GRANT SELECT ON ALL TABLES IN SCHEMA "
    case Default => "ALTER DEFAULT PRIVILEGES FOR ROLE " + "supabase_admin IN SCHEMA "
  }

  function After(k: Kind): string {
    match k
    case Default => " GRANT SELECT ON TABLES " + "TO powersync_replication;"
    case _ => " TO powersync_replication;"
  }

  function GrantLine(k: Kind, schema: string): string { Before(k) + "\"" + schema + "\"" + After(k) }

  function SchemaLines(schema: string): seq<string> {
    [GrantLine(Usage, schema), GrantLine(Select, schema), GrantLine(Default, schema)]
  }

  function GrantLines(schemas: seq<string>): seq<string> {
    if schemas == [] then [] else SchemaLines(schemas[0]) + GrantLines(schemas[1..])
  }

  /** What psql reads: the lines between the here-document's opening and its terminator. */
  function Body(schemas: seq<string>): seq<string> { STORAGE + GrantLines(schemas) }

  function ScriptLines(powersync: bool, schemas: seq<string>): seq<string> {
    HEADER + (if powersync then OPENING + Body(schemas) + [TERMINATOR] else []) + CLOSING
  }

  function Rendered(lines: seq<string>): string { if lines == [] then "" else lines[0] + "\n" + Rendered(lines[1..]) }

  lemma {:induction false} RenderedConcat(a: seq<string>, b: seq<string>)
    ensures Rendered(a + b) == Rendered(a) + Rendered(b)
  {
    if a == [] {
      assert a + b == b;
    } else {
      assert (a + b)[1..] == a[1..] + b;
      RenderedConcat(a[1..], b);
    }
  }

  lemma {:induction false} GrantLinesMore(schemas: seq<string>, schema: string)
    ensures GrantLines(schemas + [schema]) == GrantLines(schemas) + SchemaLines(schema)
  {
    hide SchemaLines;
    if schemas == [] {
      assert [schema] + [] == schemas + [schema] && (schemas + [schema])[1..] == [];
      assert SchemaLines(schema) + [] == [] + SchemaLines(schema);
    } else {
      assert (schemas + [schema])[1..] == schemas[1..] + [schema];
      GrantLinesMore(schemas[1..], schema);
    }
  }

  lemma RenderedLine(line: string, rest: seq<string>)
    ensures Rendered([line] + rest) == line + "\n" + Rendered(rest) && Rendered([]) == ""
  {
    assert ([line] + rest)[1..] == rest;
  }

  lemma ThreeLines(a: string, b: string, c: string)
    ensures Rendered([a, b, c]) == (a + "\n") + (b + "\n") + (c + "\n")
  {
    hide Rendered;
    RenderedLine(c, []);
    RenderedLine(b, [c]);
    RenderedLine(a, [b, c]);
    assert [a, b, c] == [a] + [b, c] && [b, c] == [b] + [c] && [c] == [c] + [];
    assert Rendered([a, b, c]) == (a + "\n") + ((b + "\n") + ((c + "\n") + ""));
  }

  /** buildCDCSetupScript. */
  method BuildScript(powersync: bool, schemas: Option<seq<string>>) returns (script: Option<string>)
    ensures Effective(schemas).None? ==> script.None?
    ensures Effective(schemas).Some? ==> script == Some(Rendered(ScriptLines(powersync, Effective(schemas).value)))
  {
    var accepted := EffectivePublicationSchemas(schemas);
    if accepted.Refused? {
      return None;
    }
    hide *;
    var list := accepted.schemas;
    var text := Rendered(HEADER);
    ScriptRenders(powersync, list);
    if powersync {
      text := text + Rendered(OPENING);
      var grants := RenderGrants(list);
      text := text + grants;
      text := text + Rendered([TERMINATOR]);
    }
    text := text + Rendered(CLOSING);
    return Some(text);
  }

  lemma ScriptRenders(powersync: bool, schemas: seq<string>)
    ensures Rendered(ScriptLines(powersync, schemas)) ==
              if powersync
              then Rendered(HEADER) + Rendered(OPENING) + (Rendered(STORAGE) + Rendered(GrantLines(schemas)))
                  + Rendered([TERMINATOR]) + Rendered(CLOSING)
              else Rendered(HEADER) + Rendered(CLOSING)
  {
    var block := OPENING + Body(schemas) + [TERMINATOR];
    var middle := if powersync then block else [];
    assert ScriptLines(powersync, schemas) == HEADER + middle + CLOSING;
    BodyIs(schemas);
    hide *;
    RenderedConcat(HEADER + middle, CLOSING);
    RenderedConcat(HEADER, middle);
    if powersync {
      RenderedConcat(OPENING + Body(schemas), [TERMINATOR]);
      RenderedConcat(OPENING, Body(schemas));
      RenderedConcat(STORAGE, GrantLines(schemas));
      Associates(Rendered(HEADER), Rendered(OPENING), Rendered(Body(schemas)), Rendered([TERMINATOR]));
    } else {
      assert HEADER + [] == HEADER;
    }
  }

  lemma Associates(a: string, b: string, c: string, d: string)
    ensures a + (b + c + d) == a + b + c + d
  {
  }

  lemma BodyIs(schemas: seq<string>)
    ensures Body(schemas) == STORAGE + GrantLines(schemas)
  {
  }

  /** The statements grow with every schema of the list. */
  method RenderGrants(schemas: seq<string>) returns (script: string)
    ensures script == Rendered(STORAGE) + Rendered(GrantLines(schemas))
  {
    hide GrantLine, Rendered;
    script := Rendered(STORAGE);
    assert schemas[..0] == [];
    RenderedNothing();
    for i := 0 to |schemas|
      invariant script == Rendered(STORAGE) + Rendered(GrantLines(schemas[..i]))
    {
      var schema := schemas[i];
      assert schemas[..i + 1] == schemas[..i] + [schema];
      GrantLinesMore(schemas[..i], schema);
      RenderedConcat(GrantLines(schemas[..i]), SchemaLines(schema));
      ThreeLines(GrantLine(Usage, schema), GrantLine(Select, schema), GrantLine(Default, schema));
      script := script + ((GrantLine(Usage, schema) + "\n") + (GrantLine(Select, schema) + "\n")
          + (GrantLine(Default, schema) + "\n"));
    }
    assert schemas[..|schemas|] == schemas;
  }

  lemma RenderedNothing()
    ensures Rendered([]) == "" && GrantLines([]) == []
  {
  }

  /** BuildPowerSyncPublication fills its target list by index. */
  method BuildTargets(schemas: seq<string>) returns (targets: array<string>)
    ensures fresh(targets) && targets[..] == schemas
  {
    targets := new string[|schemas|](_ => "");
    for i := 0 to |schemas|
      invariant targets[..i] == schemas[..i]
    {
      targets[i] := schemas[i];
      assert schemas[..i + 1] == schemas[..i] + [schemas[i]];
    }
  }

  // ---- Reading the script back ----------------------------------------------

  /** What a statement gives rights on. */
  datatype Target = OnDatabase(database: string) | OnSchema(schema: string) | OnTables(schema: string)
                  | OnFutureTables(schema: string, owner: string)
  datatype Grant = Grant(privilege: string, on: Target, grantee: string)

  /** The text between a start and an end, if it has them. */
  function Between(text: string, start: string, end: string): Option<string> {
    if |start| + |end| <= |text| && text[..|start|] == start && text[|text| - |end|..] == end
    then Some(text[|start|..|text| - |end|]) else None
  }

  lemma BetweenIs(start: string, middle: string, end: string)
    ensures Between(start + middle + end, start, end) == Some(middle)
  {
    var text := start + middle + end;
    assert text[..|start|] == start && text[|text| - |end|..] == end && text[|start|..|text| - |end|] == middle;
  }

  /** A statement cut at the quotes around its schema. */
  function ReadOnSchema(head: string, schema: string, tail: string): Option<Grant> {
    var future := Between(head, "ALTER DEFAULT PRIVILEGES FOR ROLE ", " IN SCHEMA ");
    var reader := Between(tail, " GRANT SELECT ON TABLES TO ", ";");
    var tables, usage := Between(head, "GRANT ", " ON ALL TABLES IN SCHEMA "), Between(head, "GRANT ", " ON SCHEMA ");
    var grantee := Between(tail, " TO ", ";");
    if future.Some? then
      if reader.Some? then Some(Grant("SELECT", OnFutureTables(schema, future.value), reader.value)) else None
    else if grantee.None? then None
    else if tables.Some? then Some(Grant(tables.value, OnTables(schema), grantee.value))
    else if usage.Some? then Some(Grant(usage.value, OnSchema(schema), grantee.value))
    else None
  }

  /** A statement on a database: its name and the grantee. */
  function ReadOnDatabase(line: string): Option<Grant> {
    var rest := Between(line, "GRANT CREATE ON DATABASE ", ";");
    if rest.None? then None
    else
      var words := Split(rest.value, ' ');
      if |words| == 3 && words[1] == "TO" then Some(Grant("CREATE", OnDatabase(words[0]), words[2])) else None
  }

  /** One line of the script as SQL reads it. */
  function ReadGrant(line: string): Option<Grant> {
    var cut := Split(line, '"');
    if |cut| == 3 then ReadOnSchema(cut[0], cut[1], cut[2])
    else if |cut| == 1 then ReadOnDatabase(line) else None
  }

  function ReadGrants(lines: seq<string>): seq<Grant> {
    if lines == [] then []
    else (if ReadGrant(lines[0]).Some? then [ReadGrant(lines[0]).value] else []) + ReadGrants(lines[1..])
  }

  /** The lines of a text. */
  function LinesOf(text: string): seq<string> { var parts := Split(text, '\n'); parts[..|parts| - 1] }

  /** The three rights PowerSync's replication role needs on a schema. */
  function NeededOn(schema: string): seq<Grant> {
    [Grant("USAGE", OnSchema(schema), PS_REPLICATION_ROLE), Grant("SELECT", OnTables(schema), PS_REPLICATION_ROLE),
     Grant("SELECT", OnFutureTables(schema, OWNER_ROLE), PS_REPLICATION_ROLE)]
  }

  function NeededOnAll(schemas: seq<string>): seq<Grant> {
    if schemas == [] then [] else NeededOn(schemas[0]) + NeededOnAll(schemas[1..])
  }

  /** The right the storage role needs: to create its own schema. */
  const STORAGE_GRANT := Grant("CREATE", OnDatabase(DATABASE), PS_STORAGE_ROLE)

  /** The schemas whose usage is granted. */
  function UsageOf(grants: seq<Grant>): seq<string> {
    if grants == [] then []
    else (if grants[0].on.OnSchema? then [grants[0].on.schema] else []) + UsageOf(grants[1..])
  }

  // One statement.

  /** Neither line ends nor quotes. */
  predicate Plain(s: string) { forall i :: 0 <= i < |s| ==> s[i] != '\n' && s[i] != '"' }

  lemma PlainConcat(a: string, b: string)
    requires Plain(a) && Plain(b)
    ensures Plain(a + b)
  {
  }

  lemma OwnerIsPlain()
    ensures Plain(Before(Default))
  {
    PlainConcat("ALTER DEFAULT PRIVILEGES FOR ROLE ", "supabase_admin IN SCHEMA ");
  }

  lemma StartIsPlain(k: Kind)
    ensures Plain(Before(k))
  {
    match k {
      case Default => OwnerIsPlain();
      case _ =>
    }
  }

  lemma EndIsPlain(k: Kind)
    ensures Plain(After(k))
  {
    PlainConcat(" GRANT SELECT ON TABLES ", "TO powersync_replication;");
  }

  lemma LineIsCut(k: Kind, schema: string)
    requires '"' !in schema
    ensures Split(GrantLine(k, schema), '"') == [Before(k), schema, After(k)]
  {
    StartIsPlain(k);
    EndIsPlain(k);
    hide Before, After, Split;
    SplitAt(After(k), '"', "");
    SplitAt(schema, '"', After(k));
    SplitAt(Before(k), '"', schema + ['"'] + After(k));
    assert GrantLine(k, schema) == Before(k) + ['"'] + (schema + ['"'] + After(k));
  }

  /** The grant a statement is read as. */
  function GrantOf(k: Kind, schema: string): Grant {
    match k
    case Usage => NeededOn(schema)[0]
    case Select => NeededOn(schema)[1]
    case Default => NeededOn(schema)[2]
  }

  // The texts of the statements, a few words at a time.

  lemma UsageText()
    ensures "GRANT " + "USAGE" + " ON SCHEMA " == Before(Usage)
  {
  }

  lemma SelectText()
    ensures "GRANT " + "SELECT" + " ON ALL TABLES IN SCHEMA " == Before(Select)
  {
  }

  lemma ReaderText()
    ensures " TO " + "powersync_replication" + ";" == After(Usage) == After(Select)
  {
  }

  lemma OwnerText()
    ensures "ALTER DEFAULT PRIVILEGES FOR ROLE " + "supabase_admin" + " IN SCHEMA " == Before(Default)
  {
    assert "supabase_admin" + " IN SCHEMA " == "supabase_admin IN SCHEMA ";
  }

  lemma FutureText()
    ensures " GRANT SELECT ON TABLES TO " + "powersync_replication" + ";" == After(Default)
  {
    var rest: string := "powersync_replication" + ";";
    assert "TO powersync_replication;" == "TO " + rest by { ToText(); }
    assert " GRANT SELECT ON TABLES TO " == " GRANT SELECT ON TABLES " + "TO ";
  }

  lemma ToText()
    ensures "TO powersync_replication;" == "TO " + ("powersync_replication" + ";")
  {
  }

  /** A text with that start has its first letter. */
  lemma StartsSo(text: string, start: string, end: string)
    ensures start != "" && Between(text, start, end).Some? ==> text != "" && text[0] == start[0]
  {
    if start != "" && Between(text, start, end).Some? { assert text[..|start|][0] == text[0]; }
  }

  lemma UsageIsRead(schema: string)
    ensures ReadOnSchema(Before(Usage), schema, After(Usage)) == Some(GrantOf(Usage, schema))
  {
    UsageText();
    ReaderText();
    assert |Before(Usage)| == 22 && Before(Usage)[0] == 'G';
    hide Before, After;
    StartsSo(Before(Usage), "ALTER DEFAULT PRIVILEGES FOR ROLE ", " IN SCHEMA ");
    BetweenIs("GRANT ", "USAGE", " ON SCHEMA ");
    BetweenIs(" TO ", "powersync_replication", ";");
    assert Between(Before(Usage), "GRANT ", " ON ALL TABLES IN SCHEMA ").None?;
    hide Between;
  }

  lemma SelectIsRead(schema: string)
    ensures ReadOnSchema(Before(Select), schema, After(Select)) == Some(GrantOf(Select, schema))
  {
    SelectText();
    ReaderText();
    assert Before(Select)[0] == 'G';
    hide Before, After;
    StartsSo(Before(Select), "ALTER DEFAULT PRIVILEGES FOR ROLE ", " IN SCHEMA ");
    BetweenIs("GRANT ", "SELECT", " ON ALL TABLES IN SCHEMA ");
    BetweenIs(" TO ", "powersync_replication", ";");
    hide Between;
  }

  lemma DefaultIsRead(schema: string)
    ensures ReadOnSchema(Before(Default), schema, After(Default)) == Some(GrantOf(Default, schema))
  {
    OwnerText();
    FutureText();
    BetweenIs("ALTER DEFAULT PRIVILEGES FOR ROLE ", "supabase_admin", " IN SCHEMA ");
    BetweenIs(" GRANT SELECT ON TABLES TO ", "powersync_replication", ";");
    hide Before, After, Between;
  }

  lemma GrantIsRead(k: Kind, schema: string)
    requires '"' !in schema
    ensures ReadGrant(GrantLine(k, schema)) == Some(GrantOf(k, schema))
  {
    LineIsCut(k, schema);
    UsageIsRead(schema);
    SelectIsRead(schema);
    DefaultIsRead(schema);
    hide Split, GrantLine, ReadOnSchema, Before, After, GrantOf;
  }

  /** A statement starts with G or A. */
  lemma NoGrant(line: string)
    requires line == "" || (line[0] != 'G' && line[0] != 'A')
    ensures ReadGrant(line).None?
  {
    var cut := Split(line, '"');
    FirstLetter(line);
    FirstLetter(cut[0]) by { assert cut[0] == line[..Find(line, '"')]; }
    hide Split, Between;
  }

  lemma FirstLetter(head: string)
    requires head == "" || (head[0] != 'G' && head[0] != 'A')
    ensures Between(head, "ALTER DEFAULT PRIVILEGES FOR ROLE ", " IN SCHEMA ").None?
    ensures Between(head, "GRANT ", " ON ALL TABLES IN SCHEMA ").None?
    ensures Between(head, "GRANT ", " ON SCHEMA ").None? && Between(head, "GRANT CREATE ON DATABASE ", ";").None?
  {
    hide Between;
    StartsSo(head, "ALTER DEFAULT PRIVILEGES FOR ROLE ", " IN SCHEMA ");
    StartsSo(head, "GRANT ", " ON ALL TABLES IN SCHEMA ");
    StartsSo(head, "GRANT ", " ON SCHEMA ");
    StartsSo(head, "GRANT CREATE ON DATABASE ", ";");
  }

  const STORAGE_REST := "supabase TO powersync_storage"

  lemma StorageWords()
    ensures Split(STORAGE_REST, ' ') == ["supabase", "TO", "powersync_storage"]
  {
    hide Split;
    SplitAt("powersync_storage", ' ', "");
    SplitAt("TO", ' ', "powersync_storage");
    SplitAt("supabase", ' ', "TO" + [' '] + "powersync_storage");
    assert "supabase" + [' '] + ("TO" + [' '] + "powersync_storage") == STORAGE_REST;
  }

  lemma StorageIsPlain()
    ensures Plain("GRANT CREATE ON DATABASE " + "supabase TO powersync_storage;")
    ensures "supabase TO powersync_storage;" == STORAGE_REST + ";"
  {
    PlainConcat("GRANT CREATE ON DATABASE ", "supabase TO powersync_storage;");
  }

  lemma StorageText()
    ensures STORAGE[1] == "GRANT CREATE ON DATABASE " + STORAGE_REST + ";"
  {
    StorageIsPlain();
    hide Plain;
    assert STORAGE[1] == "GRANT CREATE ON DATABASE " + (STORAGE_REST + ";");
  }

  lemma StorageIsRead()
    ensures ReadGrant(STORAGE[1]) == Some(STORAGE_GRANT)
  {
    StorageText();
    StorageIsPlain();
    StorageWords();
    hide Split, Plain, ReadGrant;
    ReadsDatabase(STORAGE[1], STORAGE_REST, DATABASE, PS_STORAGE_ROLE);
  }

  lemma ReadsDatabase(line: string, rest: string, database: string, grantee: string)
    requires line == "GRANT CREATE ON DATABASE " + rest + ";" && Plain(line)
    requires Split(rest, ' ') == [database, "TO", grantee]
    ensures ReadGrant(line) == Some(Grant("CREATE", OnDatabase(database), grantee))
  {
    PlainIsUncut(line);
    BetweenIs("GRANT CREATE ON DATABASE ", rest, ";");
    hide Split, Plain, Between;
  }

  lemma PlainIsUncut(s: string)
    requires Plain(s)
    ensures Split(s, '"') == [s]
  {
    SplitAt(s, '"', "");
  }

  // All statements.

  function ReadLine(line: string): seq<Grant> { if ReadGrant(line).Some? then [ReadGrant(line).value] else [] }

  lemma ReadCons(line: string, rest: seq<string>)
    ensures ReadGrants([line] + rest) == ReadLine(line) + ReadGrants(rest) && ReadGrants([]) == []
  {
    hide ReadGrant;
    assert ([line] + rest)[1..] == rest;
  }

  lemma {:induction false} ReadConcat(a: seq<string>, b: seq<string>)
    ensures ReadGrants(a + b) == ReadGrants(a) + ReadGrants(b)
  {
    hide *;
    if a == [] {
      ReadCons("", []);
      assert a + b == b;
    } else {
      ReadConcat(a[1..], b);
      ReadCons(a[0], a[1..] + b);
      ReadCons(a[0], a[1..]);
      assert a + b == [a[0]] + (a[1..] + b) && a == [a[0]] + a[1..];
    }
  }

  lemma {:induction false} ReadNothing(lines: seq<string>)
    requires forall i :: 0 <= i < |lines| ==> ReadGrant(lines[i]).None?
    ensures ReadGrants(lines) == []
  {
    hide ReadGrant;
    if lines != [] { ReadNothing(lines[1..]); }
  }

  lemma ShellGrantsNothing()
    ensures ReadGrants(HEADER) == [] && ReadGrants(CLOSING) == [] && ReadGrants([TERMINATOR]) == []
    ensures ReadGrants(OPENING) == []
  {
    hide ReadGrant, ReadGrants;
    forall i | 0 <= i < |HEADER| ensures ReadGrant(HEADER[i]).None? { NoGrant(HEADER[i]); }
    forall i | 0 <= i < |CLOSING| ensures ReadGrant(CLOSING[i]).None? { NoGrant(CLOSING[i]); }
    forall i | 0 <= i < |OPENING| ensures ReadGrant(OPENING[i]).None? { NoGrant(OPENING[i]); }
    NoGrant(TERMINATOR);
    ReadNothing(HEADER);
    ReadNothing(CLOSING);
    ReadNothing(OPENING);
    ReadNothing([TERMINATOR]);
  }

  lemma StorageRead()
    ensures ReadGrants(STORAGE) == [STORAGE_GRANT]
  {
    StorageIsRead();
    NoGrant(STORAGE[0]);
    NoGrant(STORAGE[2]);
    var a, b, c := STORAGE[0], STORAGE[1], STORAGE[2];
    assert STORAGE == [a] + ([b] + ([c] + []));
    hide ReadGrant, ReadGrants;
    ReadCons(c, []);
    ReadCons(b, [c] + []);
    ReadCons(a, [b] + ([c] + []));
  }

  lemma SchemaLinesRead(schema: string)
    requires '"' !in schema
    ensures ReadGrants(SchemaLines(schema)) == NeededOn(schema)
  {
    var a, b, c := GrantLine(Usage, schema), GrantLine(Select, schema), GrantLine(Default, schema);
    assert SchemaLines(schema) == [a] + ([b] + ([c] + []));
    GrantIsRead(Usage, schema);
    GrantIsRead(Select, schema);
    GrantIsRead(Default, schema);
    hide ReadGrant, ReadGrants, GrantLine;
    ReadCons(c, []);
    ReadCons(b, [c] + []);
    ReadCons(a, [b] + ([c] + []));
  }

  lemma {:induction false} GrantLinesRead(schemas: seq<string>)
    requires AllIdentifiers(schemas)
    ensures ReadGrants(GrantLines(schemas)) == NeededOnAll(schemas)
  {
    hide SchemaLines, NeededOn;
    if schemas != [] {
      assert IsIdentifier(schemas[0]);
      assert forall i :: 0 <= i < |schemas[0]| ==> IsLetterOrDigit(schemas[0][i]);
      SchemaLinesRead(schemas[0]);
      GrantLinesRead(schemas[1..]);
      ReadConcat(SchemaLines(schemas[0]), GrantLines(schemas[1..]));
    }
  }

  lemma UsageCons(g: Grant, rest: seq<Grant>)
    ensures UsageOf([g] + rest) == (if g.on.OnSchema? then [g.on.schema] else []) + UsageOf(rest)
  {
    assert ([g] + rest)[1..] == rest;
  }

  /** Usage is granted on exactly the schemas, in order. */
  lemma {:induction false} UsageNeeded(schemas: seq<string>)
    ensures UsageOf(NeededOnAll(schemas)) == schemas
  {
    if schemas != [] {
      var n, rest := NeededOn(schemas[0]), NeededOnAll(schemas[1..]);
      UsageNeeded(schemas[1..]);
      assert n + rest == [n[0]] + ([n[1]] + ([n[2]] + rest));
      UsageCons(n[2], rest);
      UsageCons(n[1], [n[2]] + rest);
      UsageCons(n[0], [n[1]] + ([n[2]] + rest));
      hide UsageOf;
      assert schemas == [schemas[0]] + schemas[1..];
    }
  }

  // ---- Rendering keeps the lines apart --------------------------------------

  predicate OneLine(s: string) { forall i :: 0 <= i < |s| ==> s[i] != '\n' }

  predicate OneLineEach(lines: seq<string>) { forall i :: 0 <= i < |lines| ==> OneLine(lines[i]) }

  lemma {:induction false} RenderedLines(lines: seq<string>)
    requires OneLineEach(lines)
    ensures Split(Rendered(lines), '\n') == lines + [""]
  {
    hide Split;
    if lines == [] {
      SplitAt("", '\n', "");
    } else {
      assert OneLine(lines[0]);
      RenderedLines(lines[1..]);
      SplitAt(lines[0], '\n', Rendered(lines[1..]));
      assert lines[0] + ['\n'] + Rendered(lines[1..]) == Rendered(lines);
      assert [lines[0]] + (lines[1..] + [""]) == lines + [""];
    }
  }

  lemma OneLineConcat(a: string, b: string)
    requires OneLine(a) && OneLine(b)
    ensures OneLine(a + b)
  {
  }

  lemma ShellLines()
    ensures OneLineEach(HEADER) && OneLineEach(CLOSING) && OneLine(TERMINATOR)
  {
    OneLineConcat("echo \"=== CDC Permissions ", "Setup Complete ===\"");
  }

  lemma OpeningLines()
    ensures OneLineEach(OPENING)
  {
    OneLineConcat("psql -v ON_ERROR_STOP=1 ", "--single-transaction \"$PGCONNSTR\" <<'EOSQL'");
  }

  lemma StorageLines()
    ensures OneLineEach(STORAGE)
  {
    OneLineConcat("-- Grant powersync_storage role access ", "to create its schema (internal sync state)");
    OneLineConcat("GRANT CREATE ON DATABASE ", "supabase TO powersync_storage;");
  }

  lemma GrantIsOneLine(k: Kind, schema: string)
    requires IsIdentifier(schema)
    ensures OneLine(GrantLine(k, schema))
  {
    assert forall i :: 0 <= i < |schema| ==> IsLetterOrDigit(schema[i]);
    assert OneLine(schema);
    StartIsPlain(k);
    EndIsPlain(k);
    hide Before, After, OneLine, IsIdentifier;
    assert OneLine("\"") by { QuoteIsOneLine(); }
    OneLineConcat(Before(k), "\"");
    OneLineConcat(Before(k) + "\"", schema);
    OneLineConcat(Before(k) + "\"" + schema, "\"");
    OneLineConcat(Before(k) + "\"" + schema + "\"", After(k));
  }

  lemma QuoteIsOneLine()
    ensures OneLine("\"")
  {
  }

  lemma {:induction false} GrantsAreLines(schemas: seq<string>)
    requires AllIdentifiers(schemas)
    ensures OneLineEach(GrantLines(schemas))
  {
    hide GrantLine, OneLine, IsIdentifier;
    if schemas != [] {
      GrantIsOneLine(Usage, schemas[0]);
      GrantIsOneLine(Select, schemas[0]);
      GrantIsOneLine(Default, schemas[0]);
      GrantsAreLines(schemas[1..]);
    }
  }

  lemma EachConcat(a: seq<string>, b: seq<string>)
    requires OneLineEach(a) && OneLineEach(b)
    ensures OneLineEach(a + b)
  {
    hide OneLine;
  }

  lemma LinesJoin(schemas: seq<string>)
    requires OneLineEach(HEADER) && OneLineEach(OPENING) && OneLineEach(STORAGE) && OneLine(TERMINATOR)
        && OneLineEach(CLOSING)
    requires OneLineEach(GrantLines(schemas))
    ensures OneLineEach(ScriptLines(true, schemas))
  {
    assert OneLineEach([TERMINATOR]);
    BodyIs(schemas);
    var middle := OPENING + Body(schemas) + [TERMINATOR];
    assert ScriptLines(true, schemas) == HEADER + middle + CLOSING;
    hide *;
    EachConcat(STORAGE, GrantLines(schemas));
    EachConcat(OPENING, Body(schemas));
    EachConcat(OPENING + Body(schemas), [TERMINATOR]);
    EachConcat(HEADER, middle);
    EachConcat(HEADER + middle, CLOSING);
  }

  lemma ScriptIsLines(schemas: seq<string>)
    requires AllIdentifiers(schemas)
    ensures LinesOf(Rendered(ScriptLines(true, schemas))) == ScriptLines(true, schemas)
  {
    GrantsAreLines(schemas);
    ShellLines();
    OpeningLines();
    StorageLines();
    LinesJoin(schemas);
    hide GrantLines, OneLine, Rendered, Split, IsIdentifier, ScriptLines;
    RenderedLines(ScriptLines(true, schemas));
  }

  // ---- Agreement ------------------------------------------------------------

  /** Publication and script agree: read from the script's text, the replication role is
      granted usage, all tables and the owner's future tables of each accepted schema, in
      order; the storage role may create its schema; and nothing else is granted to anyone. */
  lemma ScriptAgrees(schemas: Option<seq<string>>)
    requires Acceptable(schemas)
    ensures var list := Effective(schemas).value;
            var grants := ReadGrants(LinesOf(Rendered(ScriptLines(true, list))));
            grants == [STORAGE_GRANT] + NeededOnAll(list) && UsageOf(grants) == list
  {
    var list := Effective(schemas).value;
    PublicIsIdentifier();
    assert AllIdentifiers(list);
    ScriptIsLines(list);
    ScriptReads(list);
    StorageRead();
    UsageNeeded(list);
    UsageCons(STORAGE_GRANT, NeededOnAll(list));
    hide *;
  }

  lemma ScriptReads(schemas: seq<string>)
    requires AllIdentifiers(schemas)
    ensures ReadGrants(ScriptLines(true, schemas)) == ReadGrants(STORAGE) + NeededOnAll(schemas)
  {
    var middle := OPENING + Body(schemas) + [TERMINATOR];
    assert ScriptLines(true, schemas) == HEADER + middle + CLOSING;
    BodyIs(schemas);
    hide *;
    ShellGrantsNothing();
    GrantLinesRead(schemas);
    ReadConcat(STORAGE, GrantLines(schemas));
    ReadConcat(OPENING, Body(schemas));
    ReadConcat(OPENING + Body(schemas), [TERMINATOR]);
    ReadConcat(HEADER, middle);
    ReadConcat(HEADER + middle, CLOSING);
  }

  lemma PublicIsIdentifier()
    ensures AllIdentifiers([PUBLIC])
  {
  }

  lemma {:induction false} GrantsAreNoTerminator(schemas: seq<string>)
    ensures TERMINATOR !in GrantLines(schemas)
  {
    if schemas != [] {
      GrantsAreNoTerminator(schemas[1..]);
      assert forall k :: GrantLine(k, schemas[0])[0] != 'E';
    }
  }

  /** No statement ends the here-document early. */
  lemma BodyIsNotCut(schemas: seq<string>)
    ensures TERMINATOR !in Body(schemas)
  {
    GrantsAreNoTerminator(schemas);
    hide GrantLines;
  }

  /** Two accepted lists with the same script are equal. */
  lemma ScriptIsInjective(a: Option<seq<string>>, b: Option<seq<string>>)
    requires Acceptable(a) && Acceptable(b)
    requires Rendered(ScriptLines(true, Effective(a).value)) == Rendered(ScriptLines(true, Effective(b).value))
    ensures Effective(a) == Effective(b)
  {
    hide Acceptable, Rendered, ScriptLines, LinesOf, ReadGrants;
    ScriptAgrees(a);
    ScriptAgrees(b);
  }
}
