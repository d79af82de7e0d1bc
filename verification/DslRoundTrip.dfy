/** Parse undoes BuildFilter, and exactly when. */
module DslRoundTrip {
  import opened Wrappers
  import opened DslText
  import opened DslScan
  import opened DslTree
  import opened DslParse

  /** BuildFilter: every part quoted, joined by commas. */
  function BuildFilter(op: Op, attr: string, values: seq<string>): string {
    Name(op) + ['('] + QuotedList([attr] + values) + [')']
  }

  /** The array form of a filter, its items quoted: in("status",["a","b"]). */
  function BuildArrayFilter(op: Op, attr: string, items: seq<string>): string {
    Name(op) + ['('] + (Quote(attr) + [','] + Bracketed(items)) + [')']
  }

  /** The texts operators print and parse as. */
  lemma OperatorNames()
    ensures Name(Equal) == "equal" && Name(NotEqual) == "notEqual"
    ensures Name(LessThan) == "lessThan" && Name(LessThanEqual) == "lessThanEqual"
    ensures Name(GreaterThan) == "greaterThan" && Name(GreaterThanEqual) == "greaterThanEqual"
    ensures Name(Contains) == "contains" && Name(NotContains) == "notContains"
    ensures Name(StartsWith) == "startsWith" && Name(NotStartsWith) == "notStartsWith"
    ensures Name(EndsWith) == "endsWith" && Name(NotEndsWith) == "notEndsWith"
    ensures Name(Search) == "search" && Name(NotSearch) == "notSearch"
    ensures Name(IsNull) == "isNull" && Name(IsNotNull) == "isNotNull"
    ensures Name(Between) == "between" && Name(NotBetween) == "notBetween" && Name(In) == "in"
    ensures Name(ContainsAny) == "containsAny" && Name(ContainsAll) == "containsAll"
  {
  }

  predicate OneLine(vs: seq<string>) { forall v | v in vs :: '\n' !in v }

  // ---- The shape of a call -----------------------------------------------------------------------

  lemma OrderNamesAreWords(op: Op)
    requires op.Equal? || op.NotEqual? || op.LessThan? || op.LessThanEqual? || op.GreaterThan? || op.GreaterThanEqual?
    ensures Name(op) != "" && AllWord(Name(op))
  {
  }

  lemma TextNamesAreWords(op: Op)
    requires op.Contains? || op.NotContains? || op.StartsWith? || op.NotStartsWith?
      || op.EndsWith? || op.NotEndsWith? || op.Search? || op.NotSearch?
    ensures Name(op) != "" && AllWord(Name(op))
  {
  }

  lemma OtherNamesAreWords(op: Op)
    requires op.IsNull? || op.IsNotNull? || op.Between? || op.NotBetween?
      || op.In? || op.ContainsAny? || op.ContainsAll?
    ensures Name(op) != "" && AllWord(Name(op))
  {
  }

  lemma NamesAreWords(op: Op)
    requires IsLeafOp(op)
    ensures Name(op) != "" && AllWord(Name(op))
  {
    if op.IsNull? || op.IsNotNull? || op.Between? || op.NotBetween? || op.In? || op.ContainsAny? || op.ContainsAll? {
      OtherNamesAreWords(op);
    } else if op.Contains? || op.NotContains? || op.StartsWith? || op.NotStartsWith?
      || op.EndsWith? || op.NotEndsWith? || op.Search? || op.NotSearch? {
      TextNamesAreWords(op);
    } else {
      OrderNamesAreWords(op);
    }
  }

  lemma OpNamedMoves(name: string, from: nat)
    requires from < |LEAF_OPS|
    ensures OpNamed(name, from) ==
      if Name(LEAF_OPS[from]) == name then Some(LEAF_OPS[from]) else OpNamed(name, from + 1)
  {
  }

  lemma {:induction false} OpNamedFinds(k: nat, from: nat)
    requires from <= k < |LEAF_OPS|
    ensures OpNamed(Name(LEAF_OPS[k]), from) == Some(LEAF_OPS[k])
    decreases k - from
  {
    OpNamedMoves(Name(LEAF_OPS[k]), from);
    if from < k {
      NamesDiffer(from, k);
      OpNamedFinds(k, from + 1);
    }
  }

  /** No two operators share a name. */
  lemma NamesDiffer(i: nat, j: nat)
    requires i < j < |LEAF_OPS|
    ensures Name(LEAF_OPS[i]) != Name(LEAF_OPS[j])
  {
    var a, b := Name(LEAF_OPS[i]), Name(LEAF_OPS[j]);
    assert |a| != |b| || a[0] != b[0] || a[3] != b[3] || a[|a| - 3] != b[|a| - 3] || a[|a| - 1] != b[|a| - 1];
  }

  lemma {:induction false} FirstIndex(a: string, c: char, b: string)
    requires c !in a
    ensures IndexOf(a + [c] + b, c) == |a|
  {
    if a != "" {
      FirstIndex(a[1..], c, b);
      assert (a + [c] + b)[1..] == a[1..] + [c] + b;
    }
  }

  lemma CallTrims(name: string, args: string)
    requires name != "" && AllWord(name)
    ensures var raw := name + ['('] + args + [')']; raw != "" && Trim(raw) == raw
  {
    var raw := name + ['('] + args + [')'];
    assert raw[0] == name[0] && IsWord(name[0]) && raw[|raw| - 1] == ')';
  }

  lemma CallMatches(name: string, args: string)
    requires name != "" && AllWord(name)
    ensures MatchCall(name + ['('] + args + [')']) == if '\n' in args then None else Some(Call(name, args))
  {
    var raw := name + ['('] + args + [')'];
    assert '(' !in name by { assert !IsWord('('); }
    FirstIndex(name, '(', args + [')']);
    assert raw == name + ['('] + (args + [')']);
    assert raw[..|name|] == name && raw[|name| + 1..|raw| - 1] == args;
  }

  /** Every operator but and, or and the unknown ones is on the list. */
  lemma LeafOpsAreListed(op: Op) returns (k: nat)
    requires IsLeafOp(op)
    ensures k < |LEAF_OPS| && LEAF_OPS[k] == op
  {
    k := match op
      case Equal => 0 case NotEqual => 1 case LessThan => 2 case LessThanEqual => 3
      case GreaterThan => 4 case GreaterThanEqual => 5
      case Contains => 6 case NotContains => 7 case StartsWith => 8 case NotStartsWith => 9
      case EndsWith => 10 case NotEndsWith => 11 case Search => 12 case NotSearch => 13
      case IsNull => 14 case IsNotNull => 15 case Between => 16 case NotBetween => 17
      case In => 18 case ContainsAny => 19 case ContainsAll => 20;
  }

  /** What Parse makes of a call to a predicate. */
  lemma ParseOfCall(op: Op, args: string)
    requires IsLeafOp(op)
    ensures var raw := Name(op) + ['('] + args + [')'];
      Parse(raw) ==
        if 4096 < ByteLen(raw) then Err(TooLong)
        else if '\n' in args then Err(BadFormat)
        else if Split(args).Err? then Err(Split(args).error)
        else ParseLeaf(op, Split(args).value)
  {
    NamesAreWords(op);
    CallTrims(Name(op), args);
    CallMatches(Name(op), args);
    var k := LeafOpsAreListed(op);
    OpNamedFinds(k, 0);
  }

  // ---- Quoted arguments --------------------------------------------------------------------------

  lemma QuoteReadsBack(v: string)
    ensures Trim(Quote(v)) == Quote(v) && Quote(v)[0] == '"'
    ensures Unquote(Quote(v)) == Ok(v) && UnquoteOrLiteral(Quote(v)) == v
  {
    TrimQuoted(v);
    UnescapeEscape(v);
  }

  lemma QuoteKeepsLines(v: string)
    ensures '\n' in Quote(v) <==> '\n' in v
  {
    EscapeKeeps(v, '\n');
  }

  lemma {:induction false} ListKeepsLines(vs: seq<string>)
    ensures '\n' in QuotedList(vs) <==> !OneLine(vs)
    decreases |vs|
  {
    if |vs| == 1 {
      QuoteKeepsLines(vs[0]);
      assert vs[0] in vs;
    } else if vs != [] {
      var n := |vs| - 1;
      ListKeepsLines(vs[..n]);
      QuoteKeepsLines(vs[n]);
      assert vs == vs[..n] + [vs[n]];
    }
  }

  lemma SplitOfList(vs: seq<string>)
    requires vs != []
    ensures Split(QuotedList(vs)) == Ok(QuoteAll(vs))
  {
    ScanList(vs);
    QuoteAllIs(vs);
    var p := QuoteAll(vs);
    TrimQuoted(vs[|vs| - 1]);
    forall i | 0 <= i < |vs| ensures Trim(p[i]) == p[i] { TrimQuoted(vs[i]); }
    assert TrimAll(p) == p;
  }

  // ---- The round trip ----------------------------------------------------------------------------

  /** How many values the printed form of an operator may carry: one for a comparison, two for a range, none
      for a null test; the membership operators are not printed this way. */
  predicate Fits(op: Op, count: nat) {
    if op.Between? || op.NotBetween? then count == 2
    else if op.IsNull? || op.IsNotNull? then count == 0
    else if op.In? || op.ContainsAny? || op.ContainsAll? then false
    else count == 1
  }

  /** Arguments that read as an attribute and quoted values. */
  ghost predicate ReadsAs(args: seq<string>, attr: string, values: seq<string>) {
    && |args| == 1 + |values| && Unquote(args[0]) == Ok(attr)
    && forall i | 0 <= i < |values| ::
      args[i + 1] != "" && args[i + 1][0] == '"' && UnquoteOrLiteral(args[i + 1]) == values[i]
  }

  lemma CompareReads(op: Op, args: seq<string>, attr: string, values: seq<string>)
    requires ReadsAs(args, attr, values) && !IsBool(op) && !op.Unknown? && !op.Between? && !op.NotBetween?
    ensures ParseCompare(op, args) ==
      if values == [] then Err(WrongArity) else Ok(LeafQuery(Leaf(op, attr, [values[0]])))
  {
    if values != [] {
      assert ValuesOf(args[1]) == Ok([values[0]]);
    }
  }

  lemma BetweenReads(op: Op, args: seq<string>, attr: string, values: seq<string>)
    requires ReadsAs(args, attr, values) && (op.Between? || op.NotBetween?)
    ensures ParseBetween(op, args) == if |values| == 2 then Ok(LeafQuery(Leaf(op, attr, values))) else Err(WrongArity)
  {
    if |values| == 2 {
      assert args[2] == args[1 + 1];
      assert values == [values[0], values[1]];
    }
  }

  lemma NullReads(op: Op, args: seq<string>, attr: string, values: seq<string>)
    requires ReadsAs(args, attr, values) && (op.IsNull? || op.IsNotNull?)
    ensures ParseNull(op, args) == if values == [] then Ok(LeafQuery(Leaf(op, attr, values))) else Err(WrongArity)
  {
  }

  lemma MembershipReads(op: Op, args: seq<string>, attr: string, values: seq<string>)
    requires ReadsAs(args, attr, values) && (op.In? || op.ContainsAny? || op.ContainsAll?)
    ensures ParseMembership(op, args).Err?
  {
    if |values| == 1 {
      assert values[0] == UnquoteOrLiteral(args[1]) && args[1][0] == '"';
    }
  }

  lemma QuotedLeaf(op: Op, args: seq<string>, attr: string, values: seq<string>)
    requires !IsBool(op) && !op.Unknown? && ReadsAs(args, attr, values)
    ensures ParseLeaf(op, args) == Ok(LeafQuery(Leaf(op, attr, values))) <==> Fits(op, |values|)
  {
    if op.Between? || op.NotBetween? {
      BetweenReads(op, args, attr, values);
    } else if op.IsNull? || op.IsNotNull? {
      NullReads(op, args, attr, values);
    } else if op.In? || op.ContainsAny? || op.ContainsAll? {
      MembershipReads(op, args, attr, values);
    } else {
      CompareReads(op, args, attr, values);
      assert |values| == 1 ==> values == [values[0]];
    }
  }

  lemma QuotedArgsRead(attr: string, values: seq<string>)
    ensures ReadsAs(QuoteAll([attr] + values), attr, values)
  {
    QuoteAllIs([attr] + values);
    QuoteReadsBack(attr);
    forall i | 0 <= i < |values|
      ensures QuoteAll([attr] + values)[i + 1] == Quote(values[i]) && Quote(values[i])[0] == '"'
      ensures UnquoteOrLiteral(Quote(values[i])) == values[i]
    {
      QuoteReadsBack(values[i]);
    }
  }

  lemma CallReadsBack(op: Op, args: string, parts: seq<string>, attr: string, values: seq<string>)
    requires IsLeafOp(op) && Split(args) == Ok(parts) && ReadsAs(parts, attr, values)
    ensures Parse(Name(op) + ['('] + args + [')']) == Ok(LeafQuery(Leaf(op, attr, values))) <==>
      Fits(op, |values|) && '\n' !in args && ByteLen(Name(op) + ['('] + args + [')']) <= MAX_QUERY_LEN
  {
    ParseOfCall(op, args);
    QuotedLeaf(op, parts, attr, values);
  }

  /** Parse undoes BuildFilter exactly when the operator takes that many values, no part contains a newline,
      and the text is at most 4096 bytes long. In particular a comparison printed with two or more values
      reads back as something else. */
  lemma ParseUndoesBuildFilter(op: Op, attr: string, values: seq<string>)
    requires IsLeafOp(op)
    ensures Parse(BuildFilter(op, attr, values)) == Ok(LeafQuery(Leaf(op, attr, values))) <==>
      Fits(op, |values|) && OneLine([attr] + values) && ByteLen(BuildFilter(op, attr, values)) <= 4096
  {
    ListKeepsLines([attr] + values);
    SplitOfList([attr] + values);
    QuotedArgsRead(attr, values);
    CallReadsBack(op, QuotedList([attr] + values), QuoteAll([attr] + values), attr, values);
  }

  // ---- Arrays ------------------------------------------------------------------------------------

  function Bracketed(items: seq<string>): string { ['['] + QuotedList(items) + [']'] }

  lemma ArrayScans(s: string, items: seq<string>)
    requires LexAt(s) == Top
    ensures Scans(s, Bracketed(items), Top)
  {
    var inner := Lex(1, false, false);
    ScansOne(s, '[');
    ScanNested(s + ['['], items);
    ScansBoth(s, ['['], inner, QuotedList(items), inner);
    ScansOne(s + (['['] + QuotedList(items)), ']');
    ScansBoth(s, ['['] + QuotedList(items), inner, [']'], Top);
  }

  lemma ArrayArgsScan(attr: string, items: seq<string>)
    ensures LexAt(Quote(attr) + [','] + Bracketed(items)) == Top
    ensures Pieces(Quote(attr) + [','] + Bracketed(items)) == [Quote(attr), Bracketed(items)]
  {
    var t, b := Quote(attr), Bracketed(items);
    ScanFirst(attr);
    ScanChar(t, ',');
    ArrayScans(t + [','], items);
    ExtendOpen(Pieces(t), b);
    assert Pieces(t) + [b] == [t, b];
  }

  lemma ArrayArgsSplit(attr: string, items: seq<string>)
    ensures Split(Quote(attr) + [','] + Bracketed(items)) == Ok([Quote(attr), Bracketed(items)])
  {
    var p := [Quote(attr), Bracketed(items)];
    ArrayArgsScan(attr, items);
    TrimQuoted(attr);
    assert TrimAll(p) == p;
  }

  lemma ItemsReadBack(items: seq<string>)
    ensures UnquoteEach(QuoteAll(items)) == items
  {
    QuoteAllIs(items);
    forall i | 0 <= i < |items| ensures UnquoteOrLiteral(QuoteAll(items)[i]) == items[i] { QuoteReadsBack(items[i]); }
  }

  lemma ArrayReadsBack(items: seq<string>)
    ensures ArrayOf(Bracketed(items)) == Ok(items)
  {
    var b := Bracketed(items);
    assert Trim(b) == b && b[1..|b| - 1] == QuotedList(items);
    if items == [] {
      assert Pieces("")[..0] == [] && TrimAll([]) == [] && UnquoteEach([]) == [];
    } else {
      SplitOfList(items);
      ItemsReadBack(items);
    }
  }

  predicate TakesArray(op: Op) { !op.Between? && !op.NotBetween? && !op.IsNull? && !op.IsNotNull? }

  lemma ArrayLeaf(op: Op, attr: string, items: seq<string>, args: seq<string>)
    requires !IsBool(op) && !op.Unknown? && |args| == 2 && Unquote(args[0]) == Ok(attr)
    requires args[1] != "" && args[1][0] == '[' && ArrayOf(args[1]) == Ok(items)
    ensures ParseLeaf(op, args) ==
      if !TakesArray(op) then Err(WrongArity)
      else if items == [] then Err(NoValues)
      else Ok(LeafQuery(Leaf(op, attr, items)))
  {
  }

  lemma ArrayArgLines(attr: string, items: seq<string>)
    ensures '\n' in Quote(attr) + [','] + Bracketed(items) <==> !OneLine([attr] + items)
  {
    QuoteKeepsLines(attr);
    ListKeepsLines(items);
  }

  lemma ArrayCallReadsBack(op: Op, args: string, parts: seq<string>, attr: string, items: seq<string>)
    requires IsLeafOp(op) && Split(args) == Ok(parts) && |parts| == 2 && Unquote(parts[0]) == Ok(attr)
    requires parts[1] != "" && parts[1][0] == '[' && ArrayOf(parts[1]) == Ok(items)
    ensures Parse(Name(op) + ['('] + args + [')']) == Ok(LeafQuery(Leaf(op, attr, items))) <==>
      TakesArray(op) && items != [] && '\n' !in args && ByteLen(Name(op) + ['('] + args + [')']) <= MAX_QUERY_LEN
  {
    ParseOfCall(op, args);
    ArrayLeaf(op, attr, items, parts);
  }

  /** The array form reads back exactly when the operator takes one, the array is not empty, no part
      contains a newline, and the text is at most 4096 bytes long. */
  lemma ParseUndoesArrayFilter(op: Op, attr: string, items: seq<string>)
    requires IsLeafOp(op)
    ensures Parse(BuildArrayFilter(op, attr, items)) == Ok(LeafQuery(Leaf(op, attr, items))) <==>
      && TakesArray(op) && items != [] && OneLine([attr] + items)
      && ByteLen(BuildArrayFilter(op, attr, items)) <= 4096
  {
    ArrayArgLines(attr, items);
    ArrayArgsSplit(attr, items);
    ArrayReadsBack(items);
    QuoteReadsBack(attr);
    ArrayCallReadsBack(op, Quote(attr) + [','] + Bracketed(items), [Quote(attr), Bracketed(items)], attr, items);
  }
}
