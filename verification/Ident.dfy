/** pkg/ident/ident.go: how project and database ids are packed into PostgreSQL schema names. */
module Ident {
  import opened Wrappers

  datatype Error = InvalidSchemaResourceID

  type Named<T> = Result<T, Error>

  // ---- Anchored regular expressions --------------------------------------------------------------

  /** From `min` to `max` characters, each out of `chars`. */
  datatype Piece = Piece(chars: set<char>, min: nat, max: nat)

  /** The whole of `s` is matched by the pieces in a row. */
  predicate Matches(re: seq<Piece>, s: string)
    decreases |re|
  {
    if re == [] then s == ""
    else exists k | 0 <= k <= |s| :: Run(re[0], s[..k]) && Matches(re[1..], s[k..])
  }

  predicate Run(p: Piece, s: string) {
    p.min <= |s| <= p.max && forall i | 0 <= i < |s| :: s[i] in p.chars
  }

  const Letters := set c: char | 'a' <= c <= 'z'
  const LettersAndDigits := set c: char | 'a' <= c <= 'z' || '0' <= c <= '9'

  function Literal(w: string): seq<Piece> { seq(|w|, i requires 0 <= i < |w| => Piece({w[i]}, 1, 1)) }

  const SchemaResourceID := [Piece(Letters, 1, 1), Piece(LettersAndDigits, 0, 27)]
  const ProjectSchema := Literal(SchemaPrefix) + SchemaResourceID
  const TwoSegmentSchema := ProjectSchema + Literal("_") + SchemaResourceID

  lemma {:induction false} Joined(a: seq<Piece>, b: seq<Piece>, s: string, k: nat)
    requires k <= |s| && Matches(a, s[..k]) && Matches(b, s[k..])
    ensures Matches(a + b, s)
    decreases |a|
  {
    if a == [] {
      assert a + b == b && k == 0 && s[0..] == s;
    } else {
      assert (a + b)[0] == a[0] && (a + b)[1..] == a[1..] + b;
      var j :| 0 <= j <= k && Run(a[0], s[..k][..j]) && Matches(a[1..], s[..k][j..]);
      SliceTwice(s, j, k);
      Joined(a[1..], b, s[j..], k - j);
    }
  }

  lemma {:induction false} Parted(a: seq<Piece>, b: seq<Piece>, s: string) returns (k: nat)
    requires Matches(a + b, s)
    ensures k <= |s| && Matches(a, s[..k]) && Matches(b, s[k..])
    decreases |a|
  {
    if a == [] {
      assert a + b == b && s[0..] == s;
      k := 0;
    } else {
      assert (a + b)[0] == a[0] && (a + b)[1..] == a[1..] + b;
      var j :| 0 <= j <= |s| && Run(a[0], s[..j]) && Matches(a[1..] + b, s[j..]);
      var i := Parted(a[1..], b, s[j..]);
      k := j + i;
      SliceTwice(s, j, k);
      assert Run(a[0], s[..k][..j]) && Matches(a[1..], s[..k][j..]);
    }
  }

  lemma SliceTwice(s: string, j: nat, k: nat)
    requires j <= k <= |s|
    ensures s[..k][..j] == s[..j] && s[..k][j..] == s[j..][..k - j] && s[j..][k - j..] == s[k..]
  {
  }

  lemma {:induction false} LiteralMatchesItself(w: string, s: string)
    ensures Matches(Literal(w), s) <==> s == w
    decreases |w|
  {
    if w != "" {
      assert Literal(w)[1..] == Literal(w[1..]);
      if s != "" {
        LiteralMatchesItself(w[1..], s[1..]);
      }
      assert forall k | 0 <= k <= |s| && Run(Literal(w)[0], s[..k]) :: k == 1 && s[..k][0] == s[0];
      if s == w {
        assert Run(Literal(w)[0], s[..1]);
      }
    }
  }

  // ---- Names -------------------------------------------------------------------------------------

  const SchemaPrefix := "tw_"

  predicate ValidID(id: string) { id != "" && Matches(SchemaResourceID, id) }

  predicate IsTwoSegmentSchema(name: string) { Matches(TwoSegmentSchema, name) }

  function ProjectSchemaName(project: string): Named<string> {
    if !ValidID(project) then Err(InvalidSchemaResourceID)
    else if !Matches(ProjectSchema, SchemaPrefix + project) then Err(InvalidSchemaResourceID)
    else Ok(SchemaPrefix + project)
  }

  function SchemaName(project: string, database: string): Named<string> {
    if !ValidID(project) || !ValidID(database) then Err(InvalidSchemaResourceID)
    else
      var name := SchemaPrefix + project + "_" + database;
      if Matches(TwoSegmentSchema, name) then Ok(name) else Err(InvalidSchemaResourceID)
  }

  function TrimPrefix(s: string, prefix: string): string { if prefix <= s then s[|prefix|..] else s }

  /** The first position of `c`, or -1. */
  function IndexByte(s: string, c: char): (i: int)
    ensures -1 <= i < |s|
    ensures i >= 0 ==> s[i] == c
    ensures forall j | 0 <= j < |s| && s[j] == c :: 0 <= i <= j
  {
    if s == "" then -1
    else if s[0] == c then 0
    else
      var i := IndexByte(s[1..], c);
      assert forall j | 1 <= j < |s| :: s[j] == s[1..][j - 1];
      if i < 0 then -1 else i + 1
  }

  datatype IDs = IDs(project: string, database: string)

  function ParseSchemaName(name: string): Named<IDs> {
    var rest := TrimPrefix(name, SchemaPrefix);
    var i := IndexByte(rest, '_');
    if i <= 0 || i == |rest| - 1 then Err(InvalidSchemaResourceID)
    else if ValidID(rest[..i]) && ValidID(rest[i + 1..]) then Ok(IDs(rest[..i], rest[i + 1..]))
    else Err(InvalidSchemaResourceID)
  }

  // ---- What the expressions match ----------------------------------------------------------------

  /** ^[a-z][a-z0-9]{0,27}$ */
  lemma ValidIDIs(id: string)
    ensures ValidID(id) <==>
      && 1 <= |id| <= 28 && 'a' <= id[0] <= 'z'
      && forall i | 1 <= i < |id| :: 'a' <= id[i] <= 'z' || '0' <= id[i] <= '9'
  {
    var tail := SchemaResourceID[1..];
    assert tail == [Piece(LettersAndDigits, 0, 27)];
    forall k | 0 <= k <= |id|
      ensures Matches(tail, id[k..]) <==> Run(tail[0], id[k..])
    {
      var t := id[k..];
      assert t[..|t|] == t && tail[1..] == [] && t[|t|..] == "";
      assert forall j | 0 <= j <= |t| && t[j..] == "" :: j == |t|;
    }
    if id != "" {
      assert forall i | 1 <= i < |id| :: id[i] == id[1..][i - 1];
      assert forall k | 0 <= k <= |id| && Run(SchemaResourceID[0], id[..k]) :: k == 1 && id[..k][0] == id[0];
      assert id[0] in Letters ==> Run(SchemaResourceID[0], id[..1]);
      assert forall i | 0 <= i < |id[1..]| :: id[1..][i] == id[i + 1];
    }
  }

  lemma NoUnderscore(id: string)
    requires ValidID(id)
    ensures '_' !in id && 1 <= |id| <= 28
  {
    ValidIDIs(id);
  }

  lemma ProjectSchemaIs(name: string)
    ensures Matches(ProjectSchema, name) <==> SchemaPrefix <= name && ValidID(name[3..])
  {
    if SchemaPrefix <= name && ValidID(name[3..]) {
      LiteralMatchesItself(SchemaPrefix, name[..3]);
      Joined(Literal(SchemaPrefix), SchemaResourceID, name, 3);
    }
    if Matches(ProjectSchema, name) {
      var k := Parted(Literal(SchemaPrefix), SchemaResourceID, name);
      LiteralMatchesItself(SchemaPrefix, name[..k]);
      NotEmpty(name[k..]);
    }
  }

  lemma NotEmpty(id: string)
    requires Matches(SchemaResourceID, id)
    ensures ValidID(id)
  {
  }

  predicate IsPair(name: string, project: string, database: string) {
    ValidID(project) && ValidID(database) && name == SchemaPrefix + project + "_" + database
  }

  lemma TwoSegmentsHold(name: string, project: string, database: string)
    requires IsPair(name, project, database)
    ensures IsTwoSegmentSchema(name)
  {
    var n := 3 + |project|;
    var head := name[..n + 1];
    assert head[..n] == SchemaPrefix + project && head[..n][3..] == project;
    assert head[n..] == "_" && name[n + 1..] == database;
    ProjectSchemaIs(head[..n]);
    LiteralMatchesItself("_", head[n..]);
    Joined(ProjectSchema, Literal("_"), head, n);
    Joined(ProjectSchema + Literal("_"), SchemaResourceID, name, n + 1);
  }

  lemma TwoSegmentsSplit(name: string) returns (project: string, database: string)
    requires IsTwoSegmentSchema(name)
    ensures IsPair(name, project, database)
  {
    var k := Parted(ProjectSchema + Literal("_"), SchemaResourceID, name);
    var head := name[..k];
    var j := Parted(ProjectSchema, Literal("_"), head);
    ProjectSchemaIs(head[..j]);
    LiteralMatchesItself("_", head[j..]);
    project, database := head[..j][3..], name[k..];
    NotEmpty(database);
    assert head == head[..j] + head[j..] && name == head + database && head[..j] == SchemaPrefix + project;
  }

  // ---- The naming is unambiguous -----------------------------------------------------------------

  /** Printing succeeds exactly on two valid ids, and parsing takes the name apart again. */
  lemma ParseUndoesSchemaName(project: string, database: string)
    ensures SchemaName(project, database).Ok? <==> ValidID(project) && ValidID(database)
    ensures SchemaName(project, database).Ok? ==>
      SchemaName(project, database).value == "tw_" + project + "_" + database
    ensures SchemaName(project, database).Ok? ==>
      ParseSchemaName(SchemaName(project, database).value) == Ok(IDs(project, database))
  {
    if ValidID(project) && ValidID(database) {
      var name := SchemaPrefix + project + "_" + database;
      TwoSegmentsHold(name, project, database);
      ParsePair(name, project, database);
      assert name[3..] == project + "_" + database;
    }
  }

  lemma ParsePair(name: string, project: string, database: string)
    requires ValidID(project) && ValidID(database) && TrimPrefix(name, SchemaPrefix) == project + "_" + database
    ensures ParseSchemaName(name) == Ok(IDs(project, database))
  {
    NoUnderscore(project);
    NoUnderscore(database);
    var rest := project + "_" + database;
    var i := IndexByte(rest, '_');
    var n := |project|;
    assert rest[n] == '_' && forall j | 0 <= j < n :: rest[j] == project[j];
    assert i == n;
    assert rest[..n] == project && rest[n + 1..] == database;
  }

  /** The name that a parse stands for: without the prefix, the parser reads the name as if it had it. */
  function Prefixed(name: string): string { if SchemaPrefix <= name then name else SchemaPrefix + name }

  lemma ParsedIsPair(name: string, ids: IDs)
    requires ParseSchemaName(name) == Ok(ids)
    ensures IsPair(Prefixed(name), ids.project, ids.database)
  {
    var rest := TrimPrefix(name, SchemaPrefix);
    var i := IndexByte(rest, '_');
    assert rest == rest[..i] + "_" + rest[i + 1..];
    assert Prefixed(name) == SchemaPrefix + rest;
  }

  lemma PairIsPrinted(name: string, project: string, database: string)
    requires IsPair(name, project, database)
    ensures SchemaName(project, database) == Ok(name)
  {
    TwoSegmentsHold(name, project, database);
  }

  lemma PairIsParsed(name: string, project: string, database: string)
    requires IsPair(Prefixed(name), project, database)
    ensures ParseSchemaName(name) == Ok(IDs(project, database))
  {
    assert Prefixed(name)[3..] == project + "_" + database && Prefixed(name)[3..] == TrimPrefix(name, SchemaPrefix);
    ParsePair(name, project, database);
  }

  /** Parsing succeeds exactly when the prefixed name has two segments, and printing then gives it back. */
  lemma ParsesIffTwoSegments(name: string, parsed: Named<IDs>)
    requires parsed == ParseSchemaName(name)
    ensures parsed.Ok? <==> IsTwoSegmentSchema(Prefixed(name))
    ensures parsed.Ok? ==> SchemaName(parsed.value.project, parsed.value.database) == Ok(Prefixed(name))
  {
    if parsed.Ok? {
      ParsedIsPair(name, parsed.value);
      TwoSegmentsHold(Prefixed(name), parsed.value.project, parsed.value.database);
      PairIsPrinted(Prefixed(name), parsed.value.project, parsed.value.database);
    } else if IsTwoSegmentSchema(Prefixed(name)) {
      var project, database := TwoSegmentsSplit(Prefixed(name));
      PairIsParsed(name, project, database);
    }
  }

  /** Two different names parse to the same ids only as a name and the same name without its prefix. */
  lemma ParseTellsNamesApart(name: string, other: string, ids: IDs)
    requires ParseSchemaName(name) == Ok(ids) && ParseSchemaName(other) == Ok(ids)
    ensures name == other || name == SchemaPrefix + other || other == SchemaPrefix + name
  {
    ParsedIsPair(name, ids);
    ParsedIsPair(other, ids);
    assert Prefixed(name) == Prefixed(other);
  }

  /** A project schema is never a business schema, and neither name outgrows 60 characters. */
  lemma OneAndTwoSegmentsDiffer(name: string)
    ensures !(Matches(ProjectSchema, name) && IsTwoSegmentSchema(name))
    ensures IsTwoSegmentSchema(name) ==> |name| <= 60
    ensures Matches(ProjectSchema, name) ==> |name| <= 31
  {
    ProjectSchemaIs(name);
    if Matches(ProjectSchema, name) {
      NoUnderscore(name[3..]);
    }
    if IsTwoSegmentSchema(name) {
      var project, database := TwoSegmentsSplit(name);
      NoUnderscore(project);
      NoUnderscore(database);
      assert name[3..] == project + "_" + database && name[3..][|project|] == '_';
    }
  }

  /** No project's own schema name can be taken for any project's database, and ids and names correspond. */
  lemma ProjectSchemaIsItsOwn(project: string, owner: string, database: string)
    ensures ProjectSchemaName(project) == if ValidID(project) then Ok("tw_" + project) else Err(InvalidSchemaResourceID)
    ensures ValidID(project) ==> ProjectSchemaName(project) != SchemaName(owner, database)
    ensures ValidID(project) ==> !IsTwoSegmentSchema(ProjectSchemaName(project).value)
    ensures ValidID(project) ==> !ParseSchemaName(ProjectSchemaName(project).value).Ok?
  {
    var name := SchemaPrefix + project;
    assert name[3..] == project;
    ProjectSchemaIs(name);
    OneAndTwoSegmentsDiffer(name);
    ParsesIffTwoSegments(name, ParseSchemaName(name));
  }
}
