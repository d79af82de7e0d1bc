/** The query AST (pkg/query/query.go, pkg/query/construct.go): filter trees, their leaves and meaning, and
    the And/Or constructors. */
module DslTree {
  import opened Wrappers
  import opened DslText

  datatype Op =
    | Equal | NotEqual | LessThan | LessThanEqual | GreaterThan | GreaterThanEqual
    | Contains | NotContains | StartsWith | NotStartsWith | EndsWith | NotEndsWith | Search | NotSearch
    | IsNull | IsNotNull | Between | NotBetween | In | ContainsAny | ContainsAll
    | And | Or
    | Unknown(name: string)

  predicate IsBool(op: Op) { op.And? || op.Or? }

  /** A comparison leaf, or an and/or node over children. */
  datatype Filter = Filter(op: Op, attribute: string, values: seq<string>, children: seq<Filter>)

  function Leaf(op: Op, attribute: string, values: seq<string>): Filter { Filter(op, attribute, values, []) }

  datatype Order = Order(attribute: string, desc: bool)

  datatype Query = Query(
    filter: Option<Filter>, filters: seq<Filter>, orders: seq<Order>, selects: seq<string>,
    limit: int, offset: int, cursorAfter: string, cursorBefore: string, pageSize: int, pageToken: string)

  const Empty := Query(None, [], [], [], 0, 0, "", "", 0, "")

  const MAX_QUERIES := 100
  const MAX_QUERY_LEN := 4096

  // ---- Leaves and meaning ------------------------------------------------------------------------

  /** walkLeaves: the comparison predicates in preorder. */
  function Leaves(f: Filter): seq<Filter>
    decreases f, 1
  {
    if IsBool(f.op) then LeavesOf(f.children) else [f]
  }

  function LeavesOf(fs: seq<Filter>): seq<Filter>
    decreases fs, 0
  {
    if fs == [] then [] else Leaves(fs[0]) + LeavesOf(fs[1..])
  }

  /** The truth value of a tree over any valuation of its leaves. */
  ghost predicate Holds(f: Filter, v: Filter -> bool)
    decreases f
  {
    match f.op
    case And => forall c | c in f.children :: Holds(c, v)
    case Or => exists c | c in f.children :: Holds(c, v)
    case _ => v(f)
  }

  function WalkedLeaves(q: Query): seq<Filter> {
    if q.filter.Some? then Leaves(q.filter.value) else q.filters
  }

  predicate ValidLeaf(f: Filter) {
    match f.op
    case IsNull => true
    case IsNotNull => true
    case Between => |f.values| == 2
    case NotBetween => |f.values| == 2
    case _ => 1 <= |f.values|
  }

  /** Validate, as one condition on the query. */
  predicate Valid(q: Query) {
    |WalkedLeaves(q)| <= MAX_QUERIES && forall f | f in WalkedLeaves(q) :: ValidLeaf(f)
  }

  /** How many values an operator's leaf needs: two for a range, none for a null test, else at least one. */
  predicate EnoughValues(op: Op, count: nat) {
    if op == Between || op == NotBetween then count == 2
    else if op == IsNull || op == IsNotNull then true
    else 0 < count
  }

  method Validate(q: Query) returns (ok: bool)
    ensures ok <==> Valid(q)
    ensures ok <==> |WalkedLeaves(q)| <= 100 && forall f | f in WalkedLeaves(q) :: EnoughValues(f.op, |f.values|)
  {
    var leaves, n := WalkedLeaves(q), 0;
    while n < |leaves|
      invariant n <= |leaves| && n <= MAX_QUERIES
      invariant forall i | 0 <= i < n :: ValidLeaf(leaves[i])
    {
      if MAX_QUERIES < n + 1 {
        return false;
      }
      if !ValidLeaf(leaves[n]) {
        return false;
      }
      n := n + 1;
    }
    return true;
  }

  // ---- Constructors ------------------------------------------------------------------------------

  function Kept(children: seq<Option<Filter>>): seq<Filter> {
    if children == [] then []
    else
      var last := children[|children| - 1];
      Kept(children[..|children| - 1]) + if last.Some? then [last.value] else []
  }

  function NodeOver(op: Op, kept: seq<Filter>): Option<Filter> {
    if kept == [] then None
    else if |kept| == 1 then Some(kept[0])
    else Some(Filter(op, "", [], kept))
  }

  /** boolNode; And and Or call it with their operator. */
  method BoolNode(op: Op, children: seq<Option<Filter>>) returns (r: Option<Filter>)
    ensures r == NodeOver(op, Kept(children))
  {
    var kept := [];
    for i := 0 to |children|
      invariant kept == Kept(children[..i])
    {
      assert children[..i + 1][..i] == children[..i];
      if children[i].Some? {
        kept := kept + [children[i].value];
      }
    }
    assert children[..|children|] == children;
    match |kept|
    case 0 => return None;
    case 1 => return Some(kept[0]);
    case _ => return Some(Filter(op, "", [], kept));
  }

  lemma {:induction false} KeptAre(children: seq<Option<Filter>>)
    ensures forall f :: f in Kept(children) <==> Some(f) in children
    decreases |children|
  {
    if children != [] {
      KeptAre(children[..|children| - 1]);
      assert children == children[..|children| - 1] + [children[|children| - 1]];
    }
  }

  /** Normalisation keeps the meaning: with at least one non-nil child, And holds exactly when all non-nil
      children do and Or exactly when some does; with none there is no filter. */
  lemma NodeKeepsMeaning(op: Op, children: seq<Option<Filter>>, v: Filter -> bool)
    requires IsBool(op)
    ensures NodeOver(op, Kept(children)).None? <==> forall c | c in children :: c.None?
    ensures var r := NodeOver(op, Kept(children));
      r.Some? && op.And? ==> (Holds(r.value, v) <==> forall c | c in children && c.Some? :: Holds(c.value, v))
    ensures var r := NodeOver(op, Kept(children));
      r.Some? && op.Or? ==> (Holds(r.value, v) <==> exists c | c in children && c.Some? :: Holds(c.value, v))
  {
    KeptAre(children);
    var kept := Kept(children);
    if kept != [] {
      assert kept[0] in kept && Some(kept[0]) in children;
      var r := NodeOver(op, kept).value;
      if op.And? {
        assert Holds(r, v) <==> forall f | f in kept :: Holds(f, v);
      } else {
        assert Holds(r, v) <==> exists f | f in kept :: Holds(f, v);
        if f :| f in kept && Holds(f, v) {
          assert Some(f) in children;
        }
      }
    }
  }

  /** andFilters over a leaf list: its leaves are that list, and it means their conjunction. */
  lemma {:induction false} AndKeepsLeaves(leaves: seq<Filter>)
    requires forall f | f in leaves :: !IsBool(f.op)
    ensures leaves != [] ==> Leaves(NodeOver(And, leaves).value) == leaves
    ensures leaves == [] ==> NodeOver(And, leaves) == None
  {
    LeavesOfLeaves(leaves);
  }

  lemma {:induction false} LeavesOfLeaves(leaves: seq<Filter>)
    requires forall f | f in leaves :: !IsBool(f.op)
    ensures LeavesOf(leaves) == leaves
  {
    if leaves != [] {
      LeavesOfLeaves(leaves[1..]);
    }
  }

  lemma AndMeansAll(leaves: seq<Filter>, v: Filter -> bool)
    ensures leaves != [] ==> (Holds(NodeOver(And, leaves).value, v) <==> forall f | f in leaves :: Holds(f, v))
  {
    if |leaves| == 1 {
      assert leaves[0] in leaves && forall f | f in leaves :: f == leaves[0];
    }
  }
}
