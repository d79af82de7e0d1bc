/** Parse, ParseMany and BuildFilter (pkg/query/query.go). */
module DslParse {
  import opened Wrappers
  import opened Numerals
  import opened DslText
  import opened DslTree

  // ---- Names -------------------------------------------------------------------------------------

  function Name(op: Op): string {
    match op
    case Equal => "equal" case NotEqual => "notEqual"
    case LessThan => "lessThan" case LessThanEqual => "lessThanEqual"
    case GreaterThan => "greaterThan" case GreaterThanEqual => "greaterThanEqual"
    case Contains => "contains" case NotContains => "notContains"
    case StartsWith => "startsWith" case NotStartsWith => "notStartsWith"
    case EndsWith => "endsWith" case NotEndsWith => "notEndsWith"
    case Search => "search" case NotSearch => "notSearch"
    case IsNull => "isNull" case IsNotNull => "isNotNull"
    case Between => "between" case NotBetween => "notBetween"
    case In => "in" case ContainsAny => "containsAny" case ContainsAll => "containsAll"
    case And => "and" case Or => "or"
    case Unknown(name) => name
  }

  /** The operators Parse dispatches on as predicates. */
  const LEAF_OPS: seq<Op> := [
    Equal, NotEqual, LessThan, LessThanEqual, GreaterThan, GreaterThanEqual,
    Contains, NotContains, StartsWith, NotStartsWith, EndsWith, NotEndsWith, Search, NotSearch,
    IsNull, IsNotNull, Between, NotBetween, In, ContainsAny, ContainsAll]

  predicate IsLeafOp(op: Op) { !IsBool(op) && !op.Unknown? }

  lemma LeafOpsAreLeaves(k: nat)
    requires k < |LEAF_OPS|
    ensures IsLeafOp(LEAF_OPS[k])
  {
    if k < 7 {
    } else if k < 14 {
    } else {
    }
  }

  /** The predicate a name stands for, searched from position `from`. */
  function OpNamed(name: string, from: nat): (r: Option<Op>)
    ensures r.Some? ==> IsLeafOp(r.value) && Name(r.value) == name
    decreases |LEAF_OPS| - from
  {
    if |LEAF_OPS| <= from then None
    else if Name(LEAF_OPS[from]) == name then
      LeafOpsAreLeaves(from);
      Some(LEAF_OPS[from])
    else OpNamed(name, from + 1)
  }

  // ---- The shape op(args) ------------------------------------------------------------------------

  predicate IsWord(c: char) { 'a' <= c <= 'z' || 'A' <= c <= 'Z' || '0' <= c <= '9' || c == '_' }

  predicate AllWord(s: string) { forall i | 0 <= i < |s| :: IsWord(s[i]) }

  function IndexOf(s: string, c: char): (r: nat)
    ensures r <= |s|
  {
    if s == "" || s[0] == c then 0 else 1 + IndexOf(s[1..], c)
  }

  datatype Call = Call(name: string, args: string)

  /** The expression ^(\w+)\((.*)\)$, where `.` is any character but a newline. */
  function MatchCall(raw: string): Option<Call> {
    var i := IndexOf(raw, '(');
    if 0 < i && i + 1 < |raw| && raw[|raw| - 1] == ')' && AllWord(raw[..i]) && '\n' !in raw[i + 1..|raw| - 1]
    then Some(Call(raw[..i], raw[i + 1..|raw| - 1]))
    else None
  }

  // ---- Values ------------------------------------------------------------------------------------

  predicate IsQuoted(s: string) { 2 <= |s| && s[0] == '"' && s[|s| - 1] == '"' }

  function Unquote(raw: string): Parsed<string> {
    var s := Trim(raw);
    if IsQuoted(s) then Ok(Unescape(s[1..|s| - 1])) else Err(NotQuoted)
  }

  function UnquoteOrLiteral(raw: string): string {
    var s := Trim(raw);
    if IsQuoted(s) then Unescape(s[1..|s| - 1]) else s
  }

  function UnquoteEach(items: seq<string>): seq<string> {
    seq(|items|, i requires 0 <= i < |items| => UnquoteOrLiteral(items[i]))
  }

  function ArrayOf(raw: string): Parsed<seq<string>> {
    var s := Trim(raw);
    if |s| < 2 || s[0] != '[' || s[|s| - 1] != ']' then Err(NotArray)
    else
      match Split(s[1..|s| - 1])
      case Ok(items) => Ok(UnquoteEach(items))
      case Err(e) => Err(e)
  }

  /** parseArray: split between the brackets, then rewrite the items in place. */
  method ParseArray(raw: string) returns (r: Parsed<seq<string>>)
    ensures r == ArrayOf(raw)
  {
    var s := Trim(raw);
    if |s| < 2 || s[0] != '[' || s[|s| - 1] != ']' {
      return Err(NotArray);
    }
    var split := SplitArgs(s[1..|s| - 1]);
    if split.Err? {
      return Err(split.error);
    }
    var items, given := split.value, split.value;
    for i := 0 to |items|
      invariant |items| == |given|
      invariant forall j | 0 <= j < |items| :: items[j] == if j < i then UnquoteOrLiteral(given[j]) else given[j]
    {
      items := items[i := UnquoteOrLiteral(items[i])];
    }
    assert items == UnquoteEach(given);
    return Ok(items);
  }

  const MAX_INT := 0x7FFF_FFFF_FFFF_FFFF
  const MAX_INT32 := 0x7FFF_FFFF

  /** strconv.Atoi on a 64-bit platform. */
  function Atoi(s: string): Parsed<int> {
    var negative := s != "" && s[0] == '-';
    var digits := if s != "" && (s[0] == '-' || s[0] == '+') then s[1..] else s;
    if digits == "" || !AllDigits(digits) then Err(NotInteger)
    else
      var n := if negative then -(ValueOf(digits) as int) else ValueOf(digits);
      if -MAX_INT - 1 <= n <= MAX_INT then Ok(n) else Err(NotInteger)
  }

  // ---- Parse -------------------------------------------------------------------------------------

  function LeafQuery(f: Filter): Query { Empty.(filter := Some(f), filters := [f]) }

  /** A query that is one valid leaf, listed both as the tree and as the leaf list. */
  predicate OneLeaf(q: Query, op: Op) {
    && q.filter.Some? && q.filters == [q.filter.value] && q.filter.value.op == op && !IsBool(op) && !op.Unknown?
    && q.filter.value.children == [] && ValidLeaf(q.filter.value)
  }

  predicate NoLeaf(q: Query) { q.filter == None && q.filters == [] }

  predicate AtMostOneLeaf(q: Query) { NoLeaf(q) || (q.filter.Some? && OneLeaf(q, q.filter.value.op)) }

  /** The values of a comparison's second argument: an array, a quoted string or a literal. */
  function ValuesOf(arg: string): Parsed<seq<string>> {
    if arg != "" && arg[0] == '[' then ArrayOf(arg) else Ok([UnquoteOrLiteral(arg)])
  }

  function ParseCompare(op: Op, args: seq<string>): (r: Parsed<Query>)
    requires !IsBool(op) && !op.Unknown? && !op.Between? && !op.NotBetween?
    ensures r.Ok? ==> OneLeaf(r.value, op)
  {
    if |args| < 2 then Err(WrongArity)
    else
      match Unquote(args[0])
      case Err(e) => Err(e)
      case Ok(attr) =>
        match ValuesOf(args[1])
        case Err(e) => Err(e)
        case Ok(values) => if values == [] then Err(NoValues) else Ok(LeafQuery(Leaf(op, attr, values)))
  }

  function ParseMembership(op: Op, args: seq<string>): (r: Parsed<Query>)
    requires op.In? || op.ContainsAny? || op.ContainsAll?
    ensures r.Ok? ==> OneLeaf(r.value, op)
  {
    if |args| != 2 then Err(WrongArity)
    else
      match Unquote(args[0])
      case Err(e) => Err(e)
      case Ok(attr) =>
        if args[1] == "" || args[1][0] != '[' then Err(NotArray)
        else
          match ArrayOf(args[1])
          case Err(e) => Err(e)
          case Ok(values) => if values == [] then Err(NoValues) else Ok(LeafQuery(Leaf(op, attr, values)))
  }

  function ParseBetween(op: Op, args: seq<string>): (r: Parsed<Query>)
    requires op.Between? || op.NotBetween?
    ensures r.Ok? ==> OneLeaf(r.value, op)
  {
    if |args| != 3 then Err(WrongArity)
    else
      match Unquote(args[0])
      case Err(e) => Err(e)
      case Ok(attr) => Ok(LeafQuery(Leaf(op, attr, [UnquoteOrLiteral(args[1]), UnquoteOrLiteral(args[2])])))
  }

  function ParseNull(op: Op, args: seq<string>): (r: Parsed<Query>)
    requires op.IsNull? || op.IsNotNull?
    ensures r.Ok? ==> OneLeaf(r.value, op)
  {
    if |args| != 1 then Err(WrongArity)
    else
      match Unquote(args[0])
      case Err(e) => Err(e)
      case Ok(attr) => Ok(LeafQuery(Leaf(op, attr, [])))
  }

  function ParseLeaf(op: Op, args: seq<string>): (r: Parsed<Query>)
    requires !IsBool(op) && !op.Unknown?
    ensures r.Ok? ==> OneLeaf(r.value, op)
  {
    if op.Between? || op.NotBetween? then ParseBetween(op, args)
    else if op.IsNull? || op.IsNotNull? then ParseNull(op, args)
    else if op.In? || op.ContainsAny? || op.ContainsAll? then ParseMembership(op, args)
    else ParseCompare(op, args)
  }

  /** orderAsc, orderDesc, limit, offset, cursorAfter, cursorBefore and select. */
  function ParseClause(name: string, args: seq<string>): (r: Parsed<Query>)
    ensures r.Ok? ==> NoLeaf(r.value)
  {
    if name !in {"orderAsc", "orderDesc", "limit", "offset", "cursorAfter", "cursorBefore", "select"} then
      Err(UnknownOperator)
    else if |args| != 1 then Err(WrongArity)
    else if name == "limit" || name == "offset" then
      match Atoi(args[0])
      case Err(e) => Err(e)
      case Ok(n) =>
        if n < 0 then Err(Negative)
        else if name == "offset" then Ok(Empty.(offset := n))
        else Ok(Empty.(limit := n, pageSize := if 0 < n <= MAX_INT32 then n else 0))
    else if name == "select" then
      match ArrayOf(args[0])
      case Err(e) => Err(e)
      case Ok(fields) => Ok(Empty.(selects := fields))
    else
      match Unquote(args[0])
      case Err(e) => Err(e)
      case Ok(text) =>
        if name == "orderAsc" || name == "orderDesc" then Ok(Empty.(orders := [Order(text, name == "orderDesc")]))
        else if name == "cursorAfter" then Ok(Empty.(cursorAfter := text))
        else Ok(Empty.(cursorBefore := text))
  }

  function Parse(input: string): (r: Parsed<Query>)
    ensures r.Ok? ==> AtMostOneLeaf(r.value)
  {
    var raw := Trim(input);
    if raw == "" then Ok(Empty)
    else if MAX_QUERY_LEN < ByteLen(raw) then Err(TooLong)
    else
      match MatchCall(raw)
      case None => Err(BadFormat)
      case Some(call) =>
        match Split(call.args)
        case Err(e) => Err(e)
        case Ok(args) =>
          match OpNamed(call.name, 0)
          case Some(op) => ParseLeaf(op, args)
          case None => ParseClause(call.name, args)
  }

  // ---- ParseMany ---------------------------------------------------------------------------------

  function Merge(m: Query, q: Query): Query {
    m.(filters := m.filters + q.filters,
       orders := m.orders + q.orders,
       selects := m.selects + q.selects,
       limit := if q.limit != 0 then q.limit else m.limit,
       pageSize := if q.pageSize != 0 then q.pageSize else m.pageSize,
       offset := if q.offset != 0 then q.offset else m.offset,
       cursorAfter := if q.cursorAfter != "" then q.cursorAfter else m.cursorAfter,
       cursorBefore := if q.cursorBefore != "" then q.cursorBefore else m.cursorBefore)
  }

  function MergeAll(qs: seq<Query>): Query {
    if qs == [] then Empty else Merge(MergeAll(qs[..|qs| - 1]), qs[|qs| - 1])
  }

  function ParseInput(r: string): Parsed<Query> {
    if MAX_QUERY_LEN < ByteLen(r) then Err(TooLong) else Parse(r)
  }

  /** The results of a parser on each input, or its first error. */
  function Collect(raw: seq<string>, parse: string -> Parsed<Query>): Parsed<seq<Query>> {
    if raw == [] then Ok([])
    else
      match Collect(raw[..|raw| - 1], parse)
      case Err(e) => Err(e)
      case Ok(qs) =>
        match parse(raw[|raw| - 1])
        case Err(e) => Err(e)
        case Ok(q) => Ok(qs + [q])
  }

  function ParseEach(raw: seq<string>): Parsed<seq<Query>> { Collect(raw, ParseInput) }

  function ParsedMany(raw: seq<string>): Parsed<Query> {
    if MAX_QUERIES < |raw| then Err(TooMany)
    else
      match ParseEach(raw)
      case Err(e) => Err(e)
      case Ok(qs) => Ok(MergeAll(qs).(filter := NodeOver(And, MergeAll(qs).filters)))
  }

  lemma {:induction false} FirstErrorStays(raw: seq<string>, k: nat, parse: string -> Parsed<Query>)
    requires k <= |raw| && Collect(raw[..k], parse).Err?
    ensures Collect(raw, parse) == Collect(raw[..k], parse)
    decreases |raw|
  {
    if k < |raw| {
      assert raw[..|raw| - 1][..k] == raw[..k];
      FirstErrorStays(raw[..|raw| - 1], k, parse);
    } else {
      assert raw[..k] == raw;
    }
  }

  method ParseMany(raw: seq<string>) returns (r: Parsed<Query>)
    ensures r == ParsedMany(raw)
  {
    if MAX_QUERIES < |raw| {
      return Err(TooMany);
    }
    var merged := Empty;
    ghost var qs := [];
    for i := 0 to |raw|
      invariant ParseEach(raw[..i]) == Ok(qs) && merged == MergeAll(qs)
    {
      assert raw[..i + 1][..i] == raw[..i];
      var q := ParseInput(raw[i]);
      if q.Err? {
        FirstErrorStays(raw, i + 1, ParseInput);
        return Err(q.error);
      }
      merged := Merge(merged, q.value);
      assert (qs + [q.value])[..|qs|] == qs;
      qs := qs + [q.value];
    }
    assert raw[..|raw|] == raw;
    return Ok(merged.(filter := NodeOver(And, merged.filters)));
  }

  // ---- What merging keeps ------------------------------------------------------------------------

  lemma {:induction false} Collected(raw: seq<string>, parse: string -> Parsed<Query>)
    requires Collect(raw, parse).Ok?
    ensures var qs := Collect(raw, parse).value;
      |qs| == |raw| && forall i | 0 <= i < |raw| :: parse(raw[i]) == Ok(qs[i])
    decreases |raw|
  {
    if raw != [] {
      Collected(raw[..|raw| - 1], parse);
    }
  }

  /** The leaves of a list of queries, in order. */
  function LeavesOfAll(qs: seq<Query>): seq<Filter> {
    if qs == [] then [] else LeavesOfAll(qs[..|qs| - 1]) + WalkedLeaves(qs[|qs| - 1])
  }

  lemma {:induction false} MergedLeaves(qs: seq<Query>)
    requires forall q | q in qs :: AtMostOneLeaf(q)
    ensures MergeAll(qs).filters == LeavesOfAll(qs) && |LeavesOfAll(qs)| <= |qs|
    ensures forall f | f in LeavesOfAll(qs) :: !IsBool(f.op) && !f.op.Unknown? && f.children == [] && ValidLeaf(f)
    ensures forall f :: f in LeavesOfAll(qs) <==> exists q | q in qs :: q.filter == Some(f)
    decreases |qs|
  {
    if qs != [] {
      var n := |qs| - 1;
      assert qs == qs[..n] + [qs[n]];
      MergedLeaves(qs[..n]);
      assert qs[n] in qs;
    }
  }

  lemma ConjunctionOfInputs(qs: seq<Query>, v: Filter -> bool)
    requires forall q | q in qs :: AtMostOneLeaf(q)
    ensures var m := NodeOver(And, MergeAll(qs).filters);
      && (m.None? <==> forall q | q in qs :: q.filter.None?)
      && (m.Some? ==> (Holds(m.value, v) <==> forall q | q in qs && q.filter.Some? :: Holds(q.filter.value, v)))
  {
    MergedLeaves(qs);
    var leaves := LeavesOfAll(qs);
    AndMeansAll(leaves, v);
    forall q | q in qs && q.filter.Some? ensures q.filter.value in leaves { }
    if leaves != [] {
      assert leaves[0] in leaves;
      var q :| q in qs && q.filter == Some(leaves[0]);
    }
  }

  function AllOrders(qs: seq<Query>): seq<Order> {
    if qs == [] then [] else AllOrders(qs[..|qs| - 1]) + qs[|qs| - 1].orders
  }

  function AllSelects(qs: seq<Query>): seq<string> {
    if qs == [] then [] else AllSelects(qs[..|qs| - 1]) + qs[|qs| - 1].selects
  }

  /** r is the last of the values that is not zero, or zero if all are. */
  ghost predicate LastSet<T(!new)>(values: seq<T>, zero: T, r: T) {
    || (r == zero && forall i | 0 <= i < |values| :: values[i] == zero)
    || (r != zero && exists k :: 0 <= k < |values| && LastSetAt(values, zero, r, k))
  }

  ghost predicate LastSetAt<T(!new)>(values: seq<T>, zero: T, r: T, k: nat)
    requires k < |values|
  {
    values[k] == r && forall i | k < i < |values| :: values[i] == zero
  }

  lemma OneMoreSet<T(!new)>(values: seq<T>, zero: T, r: T, v: T)
    requires LastSet(values, zero, r)
    ensures LastSet(values + [v], zero, if v != zero then v else r)
  {
    var more := values + [v];
    if v != zero {
      assert LastSetAt(more, zero, v, |values|);
    } else if r != zero {
      var k: nat :| k < |values| && LastSetAt(values, zero, r, k);
      assert LastSetAt(more, zero, r, k);
    }
  }

  function Each<T>(qs: seq<Query>, f: Query -> T): seq<T> { seq(|qs|, i requires 0 <= i < |qs| => f(qs[i])) }

  lemma EachMore<T>(qs: seq<Query>, f: Query -> T)
    requires qs != []
    ensures Each(qs, f) == Each(qs[..|qs| - 1], f) + [f(qs[|qs| - 1])]
  {
  }

  lemma MoreSet<T(!new)>(qs: seq<Query>, f: Query -> T, zero: T, r: T)
    requires qs != [] && LastSet(Each(qs[..|qs| - 1], f), zero, r)
    ensures var v := f(qs[|qs| - 1]); LastSet(Each(qs, f), zero, if v != zero then v else r)
  {
    EachMore(qs, f);
    OneMoreSet(Each(qs[..|qs| - 1], f), zero, r, f(qs[|qs| - 1]));
  }

  /** Orders and selections are the inputs' in order; of each limit, offset, page size and cursor the last one set
      wins. */
  lemma {:induction false} MergedClauses(qs: seq<Query>)
    ensures var m := MergeAll(qs);
      && m.orders == AllOrders(qs) && m.selects == AllSelects(qs)
      && LastSet(Each(qs, (q: Query) => q.limit), 0, m.limit)
      && LastSet(Each(qs, (q: Query) => q.pageSize), 0, m.pageSize)
      && LastSet(Each(qs, (q: Query) => q.offset), 0, m.offset)
      && LastSet(Each(qs, (q: Query) => q.cursorAfter), "", m.cursorAfter)
      && LastSet(Each(qs, (q: Query) => q.cursorBefore), "", m.cursorBefore)
    decreases |qs|
  {
    if qs != [] {
      var m := MergeAll(qs[..|qs| - 1]);
      MergedClauses(qs[..|qs| - 1]);
      MoreSet(qs, (q: Query) => q.limit, 0, m.limit);
      MoreSet(qs, (q: Query) => q.pageSize, 0, m.pageSize);
      MoreSet(qs, (q: Query) => q.offset, 0, m.offset);
      MoreSet(qs, (q: Query) => q.cursorAfter, "", m.cursorAfter);
      MoreSet(qs, (q: Query) => q.cursorBefore, "", m.cursorBefore);
    }
  }

  lemma {:induction false} CollectsIffAll(raw: seq<string>, parse: string -> Parsed<Query>)
    ensures Collect(raw, parse).Ok? <==> forall i | 0 <= i < |raw| :: parse(raw[i]).Ok?
    decreases |raw|
  {
    if raw != [] {
      var n := |raw| - 1;
      CollectsIffAll(raw[..n], parse);
      assert forall i | 0 <= i < n :: raw[..n][i] == raw[i];
    }
  }

  /** ParseMany succeeds exactly on at most 100 inputs of at most 4096 bytes that each parse; otherwise its error is the
      first one: too many inputs, or that of the first input that is too long or does not parse. */
  lemma ParseManySucceedsIff(raw: seq<string>)
    ensures ParsedMany(raw).Ok? <==>
      |raw| <= 100 && forall i | 0 <= i < |raw| :: ByteLen(raw[i]) <= 4096 && Parse(raw[i]).Ok?
    ensures 100 < |raw| ==> ParsedMany(raw) == Err(TooMany)
    ensures |raw| <= 100 ==> forall k | 0 <= k < |raw| && FirstBad(raw, k) ::
      if 4096 < ByteLen(raw[k]) then ParsedMany(raw) == Err(TooLong)
      else Parse(raw[k]).Err? && ParsedMany(raw) == Err(Parse(raw[k]).error)
  {
    CollectsIffAll(raw, ParseInput);
    assert forall i | 0 <= i < |raw| :: ParseInput(raw[i]).Ok? <==> ByteLen(raw[i]) <= 4096 && Parse(raw[i]).Ok?;
    forall k | 0 <= k < |raw| && FirstBad(raw, k)
      ensures ParseInput(raw[k]).Err? && ParseEach(raw) == Err(ParseInput(raw[k]).error)
    {
      var upto := raw[..k + 1];
      assert upto[..k] == raw[..k] && upto[k] == raw[k];
      CollectsIffAll(raw[..k], ParseInput);
      assert forall i | 0 <= i < k :: ParseInput(raw[..k][i]).Ok?;
      FirstErrorStays(raw, k + 1, ParseInput);
    }
  }

  /** The first input that is too long or does not parse. */
  predicate FirstBad(raw: seq<string>, k: nat)
    requires k < |raw|
  {
    && (4096 < ByteLen(raw[k]) || Parse(raw[k]).Err?)
    && forall i | 0 <= i < k :: ByteLen(raw[i]) <= 4096 && Parse(raw[i]).Ok?
  }

  /** ParseMany keeps the meaning. Each input parses on its own; the leaves of the merged tree are the
      inputs' leaves in order; the tree holds exactly when the filter of every input that has one does;
      and the result passes Validate. */
  lemma ParseManyKeepsMeaning(raw: seq<string>, v: Filter -> bool)
    requires ParsedMany(raw).Ok?
    ensures ParseEach(raw).Ok? && |ParseEach(raw).value| == |raw|
    ensures forall i | 0 <= i < |raw| :: Parse(raw[i]) == Ok(ParseEach(raw).value[i])
    ensures var q, qs := ParsedMany(raw).value, ParseEach(raw).value;
      && WalkedLeaves(q) == LeavesOfAll(qs) && Valid(q)
      && (q.filter.None? <==> forall p | p in qs :: p.filter.None?)
      && (q.filter.Some? ==>
           (Holds(q.filter.value, v) <==> forall p | p in qs && p.filter.Some? :: Holds(p.filter.value, v)))
  {
    Collected(raw, ParseInput);
    var qs := ParseEach(raw).value;
    forall i | 0 <= i < |raw| ensures Parse(raw[i]) == Ok(qs[i]) && AtMostOneLeaf(qs[i]) {
      assert ParseInput(raw[i]) == Ok(qs[i]);
    }
    MergedLeaves(qs);
    AndKeepsLeaves(LeavesOfAll(qs));
    ConjunctionOfInputs(qs, v);
  }
}
