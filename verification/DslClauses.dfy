/** What Parse makes of the clauses that are no predicates, and of literal arguments (pkg/query/query.go). */
module DslClauses {
  import opened Wrappers
  import opened Numerals
  import opened DslText
  import opened DslScan
  import opened DslTree
  import opened DslParse
  import opened DslRoundTrip

  // ---- Names -------------------------------------------------------------------------------------

  predicate IsClause(name: string) {
    name == "orderAsc" || name == "orderDesc" || name == "limit" || name == "offset"
    || name == "cursorAfter" || name == "cursorBefore" || name == "select"
  }

  lemma ClausesAreWords(name: string)
    requires IsClause(name)
    ensures name != "" && AllWord(name)
  {
  }

  /** No predicate has a clause's name: some letter or the length tells them apart. */
  lemma ClauseIsNoPredicate(name: string, k: nat)
    requires IsClause(name) && k < |LEAF_OPS|
    ensures Name(LEAF_OPS[k]) != name
  {
    var a := Name(LEAF_OPS[k]);
    if k < 7 {
      assert |a| != |name| || a[0] != name[0];
    } else if k < 14 {
      assert |a| != |name| || a[0] != name[0] || a[2] != name[2];
    } else {
      assert |a| != |name| || a[0] != name[0] || a[1] != name[1];
    }
  }

  lemma {:induction false} ClauseIsNotNamed(name: string, from: nat)
    requires IsClause(name)
    ensures OpNamed(name, from) == None
    decreases |LEAF_OPS| - from
  {
    if from < |LEAF_OPS| {
      ClauseIsNoPredicate(name, from);
      ClauseIsNotNamed(name, from + 1);
    }
  }

  /** What Parse makes of a call to a clause. */
  lemma ParseOfClause(name: string, args: string)
    requires IsClause(name)
    ensures var raw := name + ['('] + args + [')'];
      Parse(raw) ==
        if 4096 < ByteLen(raw) then Err(TooLong)
        else if '\n' in args then Err(BadFormat)
        else if Split(args).Err? then Err(Split(args).error)
        else ParseClause(name, Split(args).value)
  {
    ClausesAreWords(name);
    CallTrims(name, args);
    CallMatches(name, args);
    ClauseIsNotNamed(name, 0);
  }

  /** And of one whose argument text scans as one argument. */
  lemma ParseOfOne(raw: string, name: string, head: string, arg: string)
    requires IsClause(name) && head == name + "(" && raw == head + arg + ")" && Split(arg) == Ok([arg])
    ensures Parse(raw) ==
      if 4096 < ByteLen(raw) then Err(TooLong) else if '\n' in arg then Err(BadFormat) else ParseClause(name, [arg])
  {
    ParseOfClause(name, arg);
    assert raw == name + ['('] + arg + [')'];
  }

  // ---- Orders and cursors ------------------------------------------------------------------------

  /** The outcome for a printed clause: a result, but for a line break or too long a text. */
  function Printed(raw: string, parts: seq<string>, result: Query): Parsed<Query> {
    if 4096 < ByteLen(raw) then Err(TooLong) else if !OneLine(parts) then Err(BadFormat) else Ok(result)
  }

  lemma QuotedIsOne(a: string)
    ensures Split(Quote(a)) == Ok([Quote(a)]) && ('\n' in Quote(a) <==> !OneLine([a]))
  {
    SplitOfList([a]);
    QuoteAllIs([a]);
    assert QuoteAll([a]) == [Quote(a)];
    QuoteKeepsLines(a);
    assert a in [a];
  }

  /** A printed order reads back as that order, ascending or descending, and as nothing else. */
  lemma ParseUndoesOrder(a: string, asc: string, desc: string)
    requires asc == "orderAsc(" + Quote(a) + ")" && desc == "orderDesc(" + Quote(a) + ")"
    ensures Parse(asc) == Printed(asc, [a], Empty.(orders := [Order(a, false)]))
    ensures Parse(desc) == Printed(desc, [a], Empty.(orders := [Order(a, true)]))
  {
    QuotedIsOne(a);
    QuoteReadsBack(a);
    ParseOfOne(asc, "orderAsc", "orderAsc(", Quote(a));
    ParseOfOne(desc, "orderDesc", "orderDesc(", Quote(a));
  }

  /** A printed cursor reads back as that cursor, in the direction it names. */
  lemma ParseUndoesCursor(a: string, after: string, before: string)
    requires after == "cursorAfter(" + Quote(a) + ")" && before == "cursorBefore(" + Quote(a) + ")"
    ensures Parse(after) == Printed(after, [a], Empty.(cursorAfter := a))
    ensures Parse(before) == Printed(before, [a], Empty.(cursorBefore := a))
  {
    QuotedIsOne(a);
    QuoteReadsBack(a);
    ParseOfOne(after, "cursorAfter", "cursorAfter(", Quote(a));
    ParseOfOne(before, "cursorBefore", "cursorBefore(", Quote(a));
  }

  // ---- Selections --------------------------------------------------------------------------------

  lemma BracketedIsOne(items: seq<string>)
    ensures Split(Bracketed(items)) == Ok([Bracketed(items)]) && ('\n' in Bracketed(items) <==> !OneLine(items))
  {
    var b := Bracketed(items);
    ArrayScans("", items);
    assert "" + b == b && Pieces(b) == [b];
    assert Trim(b) == b && TrimAll([b]) == [b];
    ListKeepsLines(items);
  }

  /** A printed selection reads back as those fields. */
  lemma ParseUndoesSelect(fields: seq<string>, raw: string)
    requires raw == "select(" + Bracketed(fields) + ")"
    ensures Parse(raw) == Printed(raw, fields, Empty.(selects := fields))
  {
    BracketedIsOne(fields);
    SelectReads(fields);
    ParseOfSelect(Bracketed(fields), fields, raw);
  }

  lemma ParseOfSelect(list: string, fields: seq<string>, raw: string)
    requires raw == "select(" + list + ")" && Split(list) == Ok([list]) && ('\n' in list <==> !OneLine(fields))
    requires ParseClause("select", [list]) == Ok(Empty.(selects := fields))
    ensures Parse(raw) == Printed(raw, fields, Empty.(selects := fields))
  {
    ParseOfOne(raw, "select", "select(", list);
  }

  lemma SelectReads(fields: seq<string>)
    ensures ParseClause("select", [Bracketed(fields)]) == Ok(Empty.(selects := fields))
  {
    ArrayReadsBack(fields);
  }

  // ---- Plain arguments ---------------------------------------------------------------------------

  /** A character that means nothing to the scanner. */
  predicate Plain(c: char) { c !in {'\\', '"', '[', ']', '(', ')', ',', '\n'} }

  /** Text that is one argument as it stands. */
  predicate PlainArg(s: string) { s != "" && Trim(s) == s && forall i | 0 <= i < |s| :: Plain(s[i]) }

  lemma {:induction false} ScanPlain(s: string, t: string)
    requires LexAt(s) == Top && forall i | 0 <= i < |t| :: Plain(t[i])
    ensures Scans(s, t, Top)
    decreases |t|
  {
    if t == "" {
      ScansNothing(s);
    } else {
      var u, c := t[..|t| - 1], t[|t| - 1];
      ScanPlain(s, u);
      ScansOne(s + u, c);
      ScansBoth(s, u, Top, [c], Top);
      assert t == u + [c];
    }
  }

  lemma PlainIsOne(s: string)
    requires PlainArg(s)
    ensures Split(s) == Ok([s]) && '\n' !in s
  {
    ScanPlain("", s);
    assert "" + s == s && Pieces(s) == [s];
    assert TrimAll([s]) == [s];
  }

  /** A comparison with a literal, as in greaterThan("age",18), compares with that text. */
  lemma ParseReadsLiteral(op: Op, attr: string, literal: string, raw: string)
    requires IsLeafOp(op) && Fits(op, 1) && PlainArg(literal)
    requires raw == Name(op) + "(" + Quote(attr) + "," + literal + ")"
    ensures Parse(raw) == Printed(raw, [attr], LeafQuery(Leaf(op, attr, [literal])))
  {
    var args := Quote(attr) + [','] + literal;
    LiteralArgs(attr, literal);
    LiteralLines(attr, literal);
    LiteralCompares(op, attr, literal);
    TwoArguments(Name(op), Quote(attr), literal);
    ParseOfPredicate(op, args, [Quote(attr), literal], raw);
  }

  lemma TwoArguments(name: string, a: string, b: string)
    ensures name + "(" + a + "," + b + ")" == name + "(" + (a + [','] + b) + ")"
  {
    assert name + "(" + a + "," + b == name + "(" + (a + [','] + b);
  }

  lemma ParseOfPredicate(op: Op, args: string, values: seq<string>, raw: string)
    requires IsLeafOp(op) && Split(args) == Ok(values) && raw == Name(op) + "(" + args + ")"
    ensures Parse(raw) ==
      if 4096 < ByteLen(raw) then Err(TooLong) else if '\n' in args then Err(BadFormat) else ParseLeaf(op, values)
  {
    ParseOfCall(op, args);
    assert raw == Name(op) + ['('] + args + [')'];
  }

  lemma LiteralLines(attr: string, literal: string)
    requires PlainArg(literal)
    ensures '\n' in Quote(attr) + [','] + literal <==> !OneLine([attr])
  {
    QuoteKeepsLines(attr);
    assert attr in [attr];
  }

  lemma LiteralArgs(attr: string, literal: string)
    requires PlainArg(literal)
    ensures Split(Quote(attr) + [','] + literal) == Ok([Quote(attr), literal])
  {
    var t := Quote(attr);
    ScanFirst(attr);
    ScanChar(t, ',');
    ScanPlain(t + [','], literal);
    ExtendOpen(Pieces(t), literal);
    var p := [t, literal];
    assert Pieces(t) + [literal] == p;
    TrimQuoted(attr);
    assert TrimAll(p) == p;
  }

  lemma LiteralCompares(op: Op, attr: string, literal: string)
    requires IsLeafOp(op) && Fits(op, 1) && PlainArg(literal)
    ensures ParseLeaf(op, [Quote(attr), literal]) == Ok(LeafQuery(Leaf(op, attr, [literal])))
  {
    QuoteReadsBack(attr);
    assert Plain(literal[0]) && UnquoteOrLiteral(literal) == literal;
  }

  // ---- Numbers -----------------------------------------------------------------------------------

  /** An optional sign and digits. */
  predicate IsInteger(s: string) {
    var digits := if s != "" && (s[0] == '-' || s[0] == '+') then s[1..] else s;
    digits != "" && AllDigits(digits)
  }

  lemma DigitsArePlain(s: string)
    requires s != "" && AllDigits(s)
    ensures PlainArg(s) && PlainArg("-" + s)
  {
    var m := "-" + s;
    assert IsDigit(s[0]) && IsDigit(s[|s| - 1]) && m[|m| - 1] == s[|s| - 1];
    assert !IsSpace(s[0]) && !IsSpace(s[|s| - 1]) && !IsSpace('-');
    assert forall i | 0 <= i < |s| :: Plain(s[i]) by {
      forall i | 0 <= i < |s| ensures Plain(s[i]) { assert IsDigit(s[i]); }
    }
    forall i | 0 <= i < |m| ensures Plain(m[i]) { assert i == 0 || m[i] == s[i - 1]; }
  }

  /** A numeral with or without a sign, leading zeros or not, is read as its value if that fits 64 bits. */
  lemma AtoiIsValue(s: string, minus: string, plus: string)
    requires s != "" && AllDigits(s) && minus == "-" + s && plus == "+" + s
    ensures Atoi(s) == if ValueOf(s) <= 0x7FFF_FFFF_FFFF_FFFF then Ok(ValueOf(s)) else Err(NotInteger)
    ensures Atoi(minus) == if ValueOf(s) <= 0x8000_0000_0000_0000 then Ok(-(ValueOf(s) as int)) else Err(NotInteger)
    ensures Atoi(plus) == Atoi(s)
  {
    assert IsDigit(s[0]) && minus[1..] == s && plus[1..] == s;
  }

  lemma AtoiReads(n: nat)
    ensures Atoi(Decimal(n)) == if n <= 0x7FFF_FFFF_FFFF_FFFF then Ok(n) else Err(NotInteger)
    ensures Atoi("-" + Decimal(n)) == if n <= 0x8000_0000_0000_0000 then Ok(-(n as int)) else Err(NotInteger)
  {
    DecimalReadsBack(n);
    AtoiIsValue(Decimal(n), "-" + Decimal(n), "+" + Decimal(n));
  }

  lemma ParseOfNumber(name: string, head: string, arg: string, raw: string)
    requires IsClause(name) && PlainArg(arg) && head == name + "(" && raw == head + arg + ")"
    ensures Parse(raw) == if 4096 < ByteLen(raw) then Err(TooLong) else ParseClause(name, [arg])
  {
    PlainIsOne(arg);
    ParseOfOne(raw, name, head, arg);
  }

  /** A printed limit or offset reads back as that number, if it fits 64 bits; a limit of at most 2^31 - 1 is the page
      size, too, unless it is 0. */
  lemma ParseUndoesNumber(n: nat, limit: string, offset: string)
    requires limit == "limit(" + Decimal(n) + ")" && offset == "offset(" + Decimal(n) + ")"
    ensures Parse(limit) ==
      if 4096 < ByteLen(limit) then Err(TooLong)
      else if 0x7FFF_FFFF_FFFF_FFFF < n then Err(NotInteger)
      else Ok(Empty.(limit := n, pageSize := if 0 < n <= 2147483647 then n else 0))
    ensures Parse(offset) ==
      if 4096 < ByteLen(offset) then Err(TooLong)
      else if 0x7FFF_FFFF_FFFF_FFFF < n then Err(NotInteger)
      else Ok(Empty.(offset := n))
  {
    DecimalReadsBack(n);
    DigitsArePlain(Decimal(n));
    NumberReads(n, Decimal(n));
    ParseOfNumber("limit", "limit(", Decimal(n), limit);
    ParseOfNumber("offset", "offset(", Decimal(n), offset);
  }

  lemma NumberReads(n: nat, arg: string)
    requires arg == Decimal(n)
    ensures ParseClause("limit", [arg]) ==
      if 0x7FFF_FFFF_FFFF_FFFF < n then Err(NotInteger)
      else Ok(Empty.(limit := n, pageSize := if 0 < n <= 2147483647 then n else 0))
    ensures ParseClause("offset", [arg]) ==
      if 0x7FFF_FFFF_FFFF_FFFF < n then Err(NotInteger) else Ok(Empty.(offset := n))
  {
    AtoiReads(n);
  }

  /** A negative number is refused as such, if it fits 64 bits. */
  lemma NegativeIsRefused(n: nat, name: string, raw: string)
    requires (name == "limit" || name == "offset") && 0 < n && raw == name + "(-" + Decimal(n) + ")"
    ensures Parse(raw) ==
      if 4096 < ByteLen(raw) then Err(TooLong)
      else if 0x8000_0000_0000_0000 < n then Err(NotInteger)
      else Err(Negative)
  {
    var arg := "-" + Decimal(n);
    DecimalReadsBack(n);
    DigitsArePlain(Decimal(n));
    NegativeReads(n, name, arg);
    SignInside(name, Decimal(n));
    ParseOfNumber(name, name + "(", arg, raw);
  }

  lemma SignInside(name: string, digits: string)
    ensures name + "(-" + digits + ")" == name + "(" + ("-" + digits) + ")"
  {
    assert name + "(-" + digits == name + "(" + ("-" + digits);
  }

  lemma NegativeReads(n: nat, name: string, arg: string)
    requires (name == "limit" || name == "offset") && 0 < n && arg == "-" + Decimal(n)
    ensures ParseClause(name, [arg]) == Err(if 0x8000_0000_0000_0000 < n then NotInteger else Negative)
  {
    AtoiReads(n);
  }

  /** And so is what is no number at all. */
  lemma NonNumberIsRefused(arg: string, name: string, raw: string)
    requires (name == "limit" || name == "offset") && PlainArg(arg) && !IsInteger(arg) && raw == name + "(" + arg + ")"
    ensures Parse(raw) == if 4096 < ByteLen(raw) then Err(TooLong) else Err(NotInteger)
  {
    ParseOfNumber(name, name + "(", arg, raw);
  }

  // ---- Other calls -------------------------------------------------------------------------------

  /** A call with another name than the predicates' and the clauses', or a clause with more than one argument, gives
      the error for that. */
  lemma OddCallsAreRefused(name: string, items: seq<string>, raw: string)
    requires name != "" && AllWord(name) && items != [] && raw == name + "(" + QuotedList(items) + ")"
    requires if IsClause(name) then |items| != 1 else forall op | IsLeafOp(op) :: Name(op) != name
    ensures Parse(raw) ==
      if 4096 < ByteLen(raw) then Err(TooLong)
      else if !OneLine(items) then Err(BadFormat)
      else Err(if IsClause(name) then WrongArity else UnknownOperator)
  {
    SplitOfList(items);
    ListKeepsLines(items);
    OddName(name);
    OddClause(name, items);
    ParseOfOther(name, QuotedList(items), QuoteAll(items), raw);
  }

  lemma OddName(name: string)
    requires IsClause(name) || forall op | IsLeafOp(op) :: Name(op) != name
    ensures OpNamed(name, 0) == None
  {
    if IsClause(name) {
      ClauseIsNotNamed(name, 0);
    }
  }

  lemma OddClause(name: string, items: seq<string>)
    requires IsClause(name) ==> |items| != 1
    ensures ParseClause(name, QuoteAll(items)) == Err(if IsClause(name) then WrongArity else UnknownOperator)
  {
    QuoteAllIs(items);
  }

  lemma ParseOfOther(name: string, args: string, values: seq<string>, raw: string)
    requires name != "" && AllWord(name) && OpNamed(name, 0) == None
    requires Split(args) == Ok(values) && raw == name + "(" + args + ")"
    ensures Parse(raw) ==
      if 4096 < ByteLen(raw) then Err(TooLong) else if '\n' in args then Err(BadFormat) else ParseClause(name, values)
  {
    CallTrims(name, args);
    CallMatches(name, args);
    assert raw == name + ['('] + args + [')'];
  }

  predicate Blank(s: string) { forall i | 0 <= i < |s| :: IsSpace(s[i]) }

  /** Spaces around the text mean nothing. */
  lemma {:induction false} SpacesAroundMeanNothing(before: string, s: string, after: string)
    requires Blank(before) && Blank(after)
    ensures Parse(before + s + after) == Parse(s)
  {
    TrimBefore(before, s + after);
    assert before + s + after == before + (s + after);
    TrimAfter(s, after);
  }

  lemma {:induction false} TrimBefore(before: string, s: string)
    requires Blank(before)
    ensures Trim(before + s) == Trim(s)
    decreases |before|
  {
    if before == "" {
      assert before + s == s;
    } else {
      TrimBefore(before[1..], s);
      assert (before + s)[1..] == before[1..] + s;
    }
  }

  lemma {:induction false} TrimAfter(s: string, after: string)
    requires Blank(after)
    ensures Trim(s + after) == Trim(s)
    decreases |after|
  {
    if after == "" {
      assert s + after == s;
    } else {
      var n := |after| - 1;
      TrimAfter(s, after[..n]);
      TrimOneAfter(s + after[..n], after[n]);
      assert s + after == s + after[..n] + [after[n]];
    }
  }

  lemma {:induction false} TrimOneAfter(s: string, c: char)
    requires IsSpace(c)
    ensures Trim(s + [c]) == Trim(s)
    decreases |s|
  {
    if s == "" {
      assert s + [c] == [c];
    } else if IsSpace(s[0]) {
      TrimOneAfter(s[1..], c);
      assert (s + [c])[1..] == s[1..] + [c];
    } else {
      assert (s + [c])[..|s|] == s;
    }
  }

  /** Text without anything but spaces is the empty query. */
  lemma BlankIsEmpty(input: string)
    requires Trim(input) == ""
    ensures Parse(input) == Ok(Empty)
  {
  }
}
