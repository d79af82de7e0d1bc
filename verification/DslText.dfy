/** The scanner and the quoting of the query DSL (pkg/query/query.go). Strings are sequences of Unicode
    scalar values; lengths that the source takes in bytes are UTF-8 lengths. */
module DslText {
  import opened Wrappers

  datatype Error =
    | TooMany | TooLong | BadFormat | Unbalanced | WrongArity | NotQuoted | NotArray | NoValues
    | NotInteger | Negative | UnknownOperator

  type Parsed<T> = Result<T, Error>

  // ---- Trimming and length -----------------------------------------------------------------------

  /** unicode.IsSpace. */
  predicate IsSpace(c: char) {
    var n := c as int;
    9 <= n <= 13 || n == 32 || n == 0x85 || n == 0xA0 || n == 0x1680 || 0x2000 <= n <= 0x200A
    || n == 0x2028 || n == 0x2029 || n == 0x202F || n == 0x205F || n == 0x3000
  }

  /** strings.TrimSpace. */
  function Trim(s: string): string
    decreases |s|
  {
    if s == "" then ""
    else if IsSpace(s[0]) then Trim(s[1..])
    else if IsSpace(s[|s| - 1]) then Trim(s[..|s| - 1])
    else s
  }

  function TrimAll(ss: seq<string>): seq<string> {
    seq(|ss|, i requires 0 <= i < |ss| => Trim(ss[i]))
  }

  /** len of the string's UTF-8 encoding. */
  function ByteLen(s: string): nat {
    if s == "" then 0
    else
      var n := s[0] as int;
      (if n < 0x80 then 1 else if n < 0x800 then 2 else if n < 0x1_0000 then 3 else 4) + ByteLen(s[1..])
  }

  // ---- Quoting -----------------------------------------------------------------------------------

  function EscapeChar(c: char): string { if c == '\\' || c == '"' then ['\\', c] else [c] }

  function Escape(s: string): string {
    if s == "" then "" else EscapeChar(s[0]) + Escape(s[1..])
  }

  function Unescape(s: string): string {
    if s == "" then ""
    else if s[0] == '\\' && 2 <= |s| then [s[1]] + Unescape(s[2..])
    else [s[0]] + Unescape(s[1..])
  }

  function Quote(s: string): string { ['"'] + Escape(s) + ['"'] }

  method EscapeString(s: string) returns (b: string)
    ensures b == Escape(s)
  {
    b := "";
    for i := 0 to |s|
      invariant b == Escape(s[..i])
    {
      EscapeSnoc(s[..i], s[i]);
      assert s[..i + 1] == s[..i] + [s[i]];
      if s[i] == '\\' {
        b := b + ['\\', '\\'];
      } else if s[i] == '"' {
        b := b + ['\\', '"'];
      } else {
        b := b + [s[i]];
      }
    }
    assert s[..|s|] == s;
  }

  method UnescapeString(s: string) returns (b: string)
    ensures b == Unescape(s)
  {
    b := "";
    var i := 0;
    while i < |s|
      invariant i <= |s| && b + Unescape(s[i..]) == Unescape(s)
    {
      ghost var rest := s[i..];
      if s[i] == '\\' && i + 1 < |s| {
        b := b + [s[i + 1]];
        i := i + 1;
        assert rest[2..] == s[i + 1..];
      } else {
        b := b + [s[i]];
        assert rest[1..] == s[i + 1..];
      }
      i := i + 1;
    }
  }

  /** Unescaping undoes escaping, for every string. */
  lemma {:induction false} UnescapeEscape(s: string)
    ensures Unescape(Escape(s)) == s
  {
    if s != "" {
      UnescapeEscape(s[1..]);
      assert Escape(s)[|EscapeChar(s[0])|..] == Escape(s[1..]);
    }
  }

  lemma {:induction false} EscapeSnoc(s: string, c: char)
    ensures Escape(s + [c]) == Escape(s) + EscapeChar(c)
  {
    if s == "" {
      assert s + [c] == [c] && [c][1..] == "";
    } else {
      EscapeSnoc(s[1..], c);
      assert (s + [c])[1..] == s[1..] + [c];
    }
  }

  lemma {:induction false} EscapeKeeps(s: string, c: char)
    requires c != '\\' && c != '"'
    ensures c in Escape(s) <==> c in s
  {
    if s != "" {
      EscapeKeeps(s[1..], c);
      assert s == [s[0]] + s[1..];
    }
  }

  lemma TrimQuoted(s: string)
    ensures Trim(Quote(s)) == Quote(s) && 2 <= |Quote(s)| && Quote(s)[1..|Quote(s)| - 1] == Escape(s)
  {
  }

  // ---- The argument scanner ----------------------------------------------------------------------

  /** The scanner's flags after some text. */
  datatype Lex = Lex(depth: int, quoted: bool, escaped: bool)

  const Top := Lex(0, false, false)

  function Step(l: Lex, c: char): Lex {
    if l.escaped then l.(escaped := false)
    else if c == '\\' then l.(escaped := true)
    else if c == '"' then l.(quoted := !l.quoted)
    else if l.quoted then l
    else if c == '[' || c == '(' then l.(depth := l.depth + 1)
    else if c == ']' || c == ')' then l.(depth := l.depth - 1)
    else l
  }

  function LexAt(s: string): Lex {
    if s == "" then Top else Step(LexAt(s[..|s| - 1]), s[|s| - 1])
  }

  /** A comma the scanner splits at. */
  predicate SeparatorAt(s: string, i: nat)
    requires i < |s|
  {
    s[i] == ',' && LexAt(s[..i]) == Top
  }

  /** The text between separators, the open piece last. */
  function Pieces(s: string): (p: seq<string>)
    ensures p != []
  {
    if s == "" then [""]
    else
      var n := |s| - 1;
      if SeparatorAt(s, n) then Pieces(s[..n]) + [""] else ExtendLast(Pieces(s[..n]), [s[n]])
  }

  function ExtendLast(p: seq<string>, t: string): seq<string>
    requires p != []
  {
    p[..|p| - 1] + [p[|p| - 1] + t]
  }

  /** splitArgs: the trimmed pieces, without a last piece that is empty. */
  function Split(s: string): Parsed<seq<string>> {
    if LexAt(s).quoted || LexAt(s).depth != 0 then Err(Unbalanced)
    else
      var p := Pieces(s);
      Ok(TrimAll(if p[|p| - 1] == "" then p[..|p| - 1] else p))
  }

  lemma ScanChar(s: string, c: char)
    ensures LexAt(s + [c]) == Step(LexAt(s), c)
    ensures Pieces(s + [c]) == if c == ',' && LexAt(s) == Top then Pieces(s) + [""] else ExtendLast(Pieces(s), [c])
  {
    assert (s + [c])[..|s|] == s;
  }

  /** The scanner's two accumulators, for these pieces. */
  ghost predicate Accumulated(p: seq<string>, args: seq<string>, sb: string) {
    p != [] && args == TrimAll(p[..|p| - 1]) && sb == p[|p| - 1]
  }

  lemma Accumulates(p: seq<string>, args: seq<string>, sb: string, c: char)
    requires Accumulated(p, args, sb)
    ensures Accumulated(ExtendLast(p, [c]), args, sb + [c])
    ensures Accumulated(p + [""], args + [Trim(sb)], "")
  {
    assert ExtendLast(p, [c])[..|p| - 1] == p[..|p| - 1];
    assert (p + [""])[..|p|] == p && p == p[..|p| - 1] + [sb];
  }

  method SplitArgs(s: string) returns (r: Parsed<seq<string>>)
    ensures r == Split(s)
  {
    var args, sb := [], "";
    var depth, inQuote, escape := 0, false, false;
    for i := 0 to |s|
      invariant Lex(depth, inQuote, escape) == LexAt(s[..i])
      invariant Accumulated(Pieces(s[..i]), args, sb)
    {
      var c := s[i];
      ScanChar(s[..i], c);
      Accumulates(Pieces(s[..i]), args, sb, c);
      assert s[..i + 1] == s[..i] + [c];
      if escape {
        sb := sb + [c];
        escape := false;
        continue;
      }
      if c == '\\' {
        escape := true;
        sb := sb + [c];
        continue;
      }
      if c == '"' {
        inQuote := !inQuote;
        sb := sb + [c];
        continue;
      }
      if inQuote {
        sb := sb + [c];
        continue;
      }
      match c
      case '[' => depth := depth + 1; sb := sb + [c];
      case '(' => depth := depth + 1; sb := sb + [c];
      case ']' => depth := depth - 1; sb := sb + [c];
      case ')' => depth := depth - 1; sb := sb + [c];
      case ',' =>
        if depth == 0 {
          args := args + [Trim(sb)];
          sb := "";
        } else {
          sb := sb + [c];
        }
      case _ => sb := sb + [c];
    }
    assert s[..|s|] == s;
    if inQuote || depth != 0 {
      return Err(Unbalanced);
    }
    if 0 < |sb| {
      Accumulates(Pieces(s), args, sb, ',');
      args := args + [Trim(sb)];
      assert (Pieces(s) + [""])[..|Pieces(s)|] == Pieces(s);
    }
    return Ok(args);
  }
}
