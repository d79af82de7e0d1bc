/** ToWireJSON (pkg/query/wire.go): the JSON form of a query, and what it keeps. */
module DslWire {
  import opened Wrappers
  import opened DslText
  import opened DslTree
  import opened DslParse

  datatype Json =
    | JString(text: string) | JBool(flag: bool) | JInt(number: int)
    | JArray(items: seq<Json>) | JObject(fields: map<string, Json>)

  const WIRE_OPS: seq<Op> := [
    Equal, NotEqual, LessThan, LessThanEqual, GreaterThan, GreaterThanEqual, In,
    Contains, NotContains, StartsWith, NotStartsWith, EndsWith, NotEndsWith, Search, NotSearch,
    Between, NotBetween, IsNull, IsNotNull, ContainsAny, ContainsAll, And, Or]

  /** wireArmByOp; an unknown operator is written under the arm of equality. */
  function Arm(op: Op): string {
    match op
    case Equal => "eq" case NotEqual => "ne" case LessThan => "lt" case LessThanEqual => "lte"
    case GreaterThan => "gt" case GreaterThanEqual => "gte" case In => "in"
    case Contains => "contains" case NotContains => "notContains"
    case StartsWith => "startsWith" case NotStartsWith => "notStartsWith"
    case EndsWith => "endsWith" case NotEndsWith => "notEndsWith"
    case Search => "search" case NotSearch => "notSearch"
    case Between => "between" case NotBetween => "notBetween"
    case IsNull => "isNull" case IsNotNull => "isNotNull"
    case ContainsAny => "containsAny" case ContainsAll => "containsAll"
    case And => "and" case Or => "or"
    case Unknown(_) => "eq"
  }

  function Strings(ss: seq<string>): Json { JArray(seq(|ss|, i requires 0 <= i < |ss| => JString(ss[i]))) }

  function Comparison(attribute: string, values: seq<string>): Json {
    var m := map["attribute" := JString(attribute)];
    JObject(if values == [] then m else m["values" := Strings(values)])
  }

  /** filterToWire. */
  function ToWire(f: Filter): Json
    decreases f, 1
  {
    if f.op.Unknown? then JObject(map["eq" := Comparison(f.attribute, [])])
    else if IsBool(f.op) then JObject(map[Arm(f.op) := JObject(map["filters" := JArray(ToWireAll(f.children))])])
    else JObject(map[Arm(f.op) := Comparison(f.attribute, f.values)])
  }

  function ToWireAll(fs: seq<Filter>): seq<Json>
    decreases fs, 0
  {
    if fs == [] then [] else [ToWire(fs[0])] + ToWireAll(fs[1..])
  }

  /** The names of the protojson arms. */
  lemma ArmNames()
    ensures Arm(Equal) == "eq" && Arm(NotEqual) == "ne" && Arm(LessThan) == "lt" && Arm(LessThanEqual) == "lte"
    ensures Arm(GreaterThan) == "gt" && Arm(GreaterThanEqual) == "gte" && Arm(In) == "in"
    ensures Arm(Contains) == "contains" && Arm(NotContains) == "notContains"
    ensures Arm(StartsWith) == "startsWith" && Arm(NotStartsWith) == "notStartsWith"
    ensures Arm(EndsWith) == "endsWith" && Arm(NotEndsWith) == "notEndsWith"
    ensures Arm(Search) == "search" && Arm(NotSearch) == "notSearch"
    ensures Arm(Between) == "between" && Arm(NotBetween) == "notBetween"
    ensures Arm(IsNull) == "isNull" && Arm(IsNotNull) == "isNotNull"
    ensures Arm(ContainsAny) == "containsAny" && Arm(ContainsAll) == "containsAll"
    ensures Arm(And) == "and" && Arm(Or) == "or"
  {
  }

  /** A known filter is one object with one arm: a comparison's says its attribute, and its values if it has any; a
      node's holds its children's objects, in order. */
  lemma FilterOnWire(f: Filter)
    requires !f.op.Unknown?
    ensures ToWire(f).JObject? && ToWire(f).fields.Keys == {Arm(f.op)} && ToWire(f).fields[Arm(f.op)].JObject?
    ensures var arm := ToWire(f).fields[Arm(f.op)].fields;
      if IsBool(f.op) then
        && arm.Keys == {"filters"} && arm["filters"].JArray? && |arm["filters"].items| == |f.children|
        && forall i | 0 <= i < |f.children| :: arm["filters"].items[i] == ToWire(f.children[i])
      else
        && arm.Keys == (if f.values == [] then {"attribute"} else {"attribute", "values"})
        && arm["attribute"] == JString(f.attribute) && (f.values != [] ==> arm["values"] == Strings(f.values))
  {
    assert |"attribute"| != |"values"|;
    ChildrenOnWire(f.children);
  }

  lemma {:induction false} ChildrenOnWire(fs: seq<Filter>)
    ensures |ToWireAll(fs)| == |fs| && forall i | 0 <= i < |fs| :: ToWireAll(fs)[i] == ToWire(fs[i])
  {
    if fs != [] {
      ChildrenOnWire(fs[1..]);
    }
  }

  // ---- A reader ----------------------------------------------------------------------------------

  function ArmOf(fields: map<string, Json>, from: nat): Option<Op>
    decreases |WIRE_OPS| - from
  {
    if |WIRE_OPS| <= from then None
    else if Arm(WIRE_OPS[from]) in fields then Some(WIRE_OPS[from])
    else ArmOf(fields, from + 1)
  }

  function ReadStrings(items: seq<Json>): Option<seq<string>> {
    if items == [] then Some([])
    else
      match ReadStrings(items[..|items| - 1])
      case None => None
      case Some(ss) => if items[|items| - 1].JString? then Some(ss + [items[|items| - 1].text]) else None
  }

  function ReadComparison(op: Op, j: Json): Option<Filter> {
    if !j.JObject? || "attribute" !in j.fields || !j.fields["attribute"].JString? then None
    else if "values" !in j.fields then Some(Leaf(op, j.fields["attribute"].text, []))
    else if !j.fields["values"].JArray? then None
    else
      match ReadStrings(j.fields["values"].items)
      case None => None
      case Some(values) => Some(Leaf(op, j.fields["attribute"].text, values))
  }

  function FromWire(j: Json): Option<Filter>
    decreases j, 1
  {
    if !j.JObject? then None
    else
      match ArmOf(j.fields, 0)
      case None => None
      case Some(op) =>
        if Arm(op) !in j.fields then None
        else if !IsBool(op) then ReadComparison(op, j.fields[Arm(op)])
        else
          match j.fields[Arm(op)]
          case JObject(inner) =>
            if "filters" in inner && inner["filters"].JArray? then
              match FromWireAll(inner["filters"].items)
              case None => None
              case Some(children) => Some(Filter(op, "", [], children))
            else None
          case _ => None
  }

  function FromWireAll(js: seq<Json>): Option<seq<Filter>>
    decreases js, 0
  {
    if js == [] then Some([])
    else
      match FromWire(js[0])
      case None => None
      case Some(f) =>
        match FromWireAll(js[1..])
        case None => None
        case Some(fs) => Some([f] + fs)
  }

  // ---- What the wire keeps of a tree -------------------------------------------------------------

  /** Known operators throughout; and/or nodes carry children only, comparisons no children. */
  predicate WellFormed(f: Filter)
    decreases f
  {
    !f.op.Unknown? &&
    if IsBool(f.op) then f.attribute == "" && f.values == [] && forall c | c in f.children :: WellFormed(c)
    else f.children == []
  }

  /** A tree with everything the wire does not carry taken away. */
  function Carried(f: Filter): Filter
    decreases f, 1
  {
    if f.op.Unknown? then Leaf(Equal, f.attribute, [])
    else if IsBool(f.op) then Filter(f.op, "", [], CarriedAll(f.children))
    else Leaf(f.op, f.attribute, f.values)
  }

  function CarriedAll(fs: seq<Filter>): seq<Filter>
    decreases fs, 0
  {
    if fs == [] then [] else [Carried(fs[0])] + CarriedAll(fs[1..])
  }

  lemma ArmsDiffer(i: nat, j: nat)
    requires i < j < |WIRE_OPS|
    ensures Arm(WIRE_OPS[i]) != Arm(WIRE_OPS[j])
  {
    var a, b := Arm(WIRE_OPS[i]), Arm(WIRE_OPS[j]);
    assert |a| != |b| || a[0] != b[0] || a[1] != b[1] || a[3] != b[3] || a[|a| - 1] != b[|a| - 1];
  }

  lemma {:induction false} ArmFound(k: nat, from: nat, j: Json)
    requires from <= k < |WIRE_OPS|
    ensures ArmOf(map[Arm(WIRE_OPS[k]) := j], from) == Some(WIRE_OPS[k])
    decreases k - from
  {
    if from < k {
      ArmsDiffer(from, k);
      ArmFound(k, from + 1, j);
    }
  }

  lemma {:induction false} StringsRead(ss: seq<string>)
    ensures ReadStrings(Strings(ss).items) == Some(ss)
    decreases |ss|
  {
    if ss != [] {
      var n := |ss| - 1;
      StringsRead(ss[..n]);
      assert Strings(ss).items[..n] == Strings(ss[..n]).items;
      assert ss[..n] + [ss[n]] == ss;
    }
  }

  lemma ComparisonRead(op: Op, attribute: string, values: seq<string>)
    ensures ReadComparison(op, Comparison(attribute, values)) == Some(Leaf(op, attribute, values))
  {
    StringsRead(values);
  }

  lemma {:induction false} ReadGivesCarried(f: Filter)
    ensures FromWire(ToWire(f)) == Some(Carried(f))
    decreases f, 1
  {
    var op := if f.op.Unknown? then Equal else f.op;
    KnownOp(op);
    var k :| 0 <= k < |WIRE_OPS| && WIRE_OPS[k] == op;
    if IsBool(f.op) {
      ArmFound(k, 0, JObject(map["filters" := JArray(ToWireAll(f.children))]));
      ReadAllGivesCarried(f.children);
    } else {
      var values := if f.op.Unknown? then [] else f.values;
      ArmFound(k, 0, Comparison(f.attribute, values));
      ComparisonRead(op, f.attribute, values);
    }
  }

  lemma KnownOp(op: Op)
    requires !op.Unknown?
    ensures op in WIRE_OPS
  {
  }

  lemma {:induction false} ReadAllGivesCarried(fs: seq<Filter>)
    ensures FromWireAll(ToWireAll(fs)) == Some(CarriedAll(fs))
    decreases fs, 0
  {
    if fs != [] {
      ReadGivesCarried(fs[0]);
      ReadAllGivesCarried(fs[1..]);
      assert ToWireAll(fs)[1..] == ToWireAll(fs[1..]);
    }
  }

  lemma {:induction false} CarriedWhole(f: Filter)
    ensures Carried(f) == f <==> WellFormed(f)
    decreases f, 1
  {
    if IsBool(f.op) {
      AllCarriedWhole(f.children);
    }
  }

  lemma {:induction false} AllCarriedWhole(fs: seq<Filter>)
    ensures CarriedAll(fs) == fs <==> forall c | c in fs :: WellFormed(c)
    decreases fs, 0
  {
    if fs != [] {
      CarriedWhole(fs[0]);
      AllCarriedWhole(fs[1..]);
      assert fs == [fs[0]] + fs[1..];
      assert forall c :: c in fs <==> c == fs[0] || c in fs[1..];
      if CarriedAll(fs) == fs {
        assert CarriedAll(fs)[1..] == CarriedAll(fs[1..]);
      }
    }
  }

  /** The wire form of a tree can be read back exactly when the tree is well formed. */
  lemma WireKeepsWellFormedTrees(f: Filter)
    ensures FromWire(ToWire(f)) == Some(f) <==> WellFormed(f)
  {
    ReadGivesCarried(f);
    CarriedWhole(f);
  }

  lemma WireIsInjective(f: Filter, g: Filter)
    requires WellFormed(f) && WellFormed(g) && ToWire(f) == ToWire(g)
    ensures f == g
  {
    WireKeepsWellFormedTrees(f);
    WireKeepsWellFormedTrees(g);
  }

  // ---- Whole queries -----------------------------------------------------------------------------

  function OrderToWire(o: Order): Json {
    var m := map["attribute" := JString(o.attribute)];
    JObject(if o.desc then m["desc" := JBool(true)] else m)
  }

  function OrdersToWire(orders: seq<Order>): seq<Json> {
    seq(|orders|, i requires 0 <= i < |orders| => OrderToWire(orders[i]))
  }

  /** One field of the output, when the query has something to say there. */
  function With(out: map<string, Json>, present: bool, key: string, value: Json): map<string, Json> {
    if present then out[key := value] else out
  }

  function QueryToWire(q: Query): map<string, Json> {
    var m0 := if q.filter.Some? then map["filter" := ToWire(q.filter.value)] else map[];
    var m1 := With(m0, q.orders != [], "orders", JArray(OrdersToWire(q.orders)));
    var m2 := With(m1, q.selects != [], "select", Strings(q.selects));
    var m3 := With(m2, q.pageSize != 0, "pageSize", JInt(q.pageSize));
    With(m3, q.pageToken != "", "pageToken", JString(q.pageToken))
  }

  method ToWireJSON(q: Query) returns (out: map<string, Json>)
    ensures out == QueryToWire(q)
  {
    out := map[];
    if q.filter.Some? {
      out := out["filter" := ToWire(q.filter.value)];
    }
    if 0 < |q.orders| {
      var orders := [];
      for i := 0 to |q.orders|
        invariant orders == OrdersToWire(q.orders[..i])
      {
        var m := map["attribute" := JString(q.orders[i].attribute)];
        if q.orders[i].desc {
          m := m["desc" := JBool(true)];
        }
        orders := orders + [JObject(m)];
      }
      assert q.orders[..|q.orders|] == q.orders;
      out := out["orders" := JArray(orders)];
    }
    if 0 < |q.selects| {
      out := out["select" := Strings(q.selects)];
    }
    if q.pageSize != 0 {
      out := out["pageSize" := JInt(q.pageSize)];
    }
    if q.pageToken != "" {
      out := out["pageToken" := JString(q.pageToken)];
    }
  }

  /** Each field stands exactly when the query has it, with its own value. */
  lemma FieldsOf(q: Query)
    ensures var m := QueryToWire(q);
      && ("filter" in m <==> q.filter.Some?) && (q.filter.Some? ==> m["filter"] == ToWire(q.filter.value))
      && ("orders" in m <==> q.orders != []) && (q.orders != [] ==> m["orders"] == JArray(OrdersToWire(q.orders)))
      && ("select" in m <==> q.selects != []) && (q.selects != [] ==> m["select"] == Strings(q.selects))
      && ("pageSize" in m <==> q.pageSize != 0) && (q.pageSize != 0 ==> m["pageSize"] == JInt(q.pageSize))
      && ("pageToken" in m <==> q.pageToken != "") && (q.pageToken != "" ==> m["pageToken"] == JString(q.pageToken))
  {
    assert |"filter"| == 6 && |"orders"| == 6 && |"select"| == 6 && |"pageSize"| == 8 && |"pageToken"| == 9;
    assert "filter"[0] == 'f' && "orders"[0] == 'o' && "select"[0] == 's';
  }

  /** An order says its attribute, and `desc` only when it is descending. */
  lemma OrderOnWire(o: Order)
    ensures OrderToWire(o).JObject?
    ensures var m := OrderToWire(o).fields;
      && m.Keys == (if o.desc then {"attribute", "desc"} else {"attribute"})
      && m["attribute"] == JString(o.attribute) && (o.desc ==> m["desc"] == JBool(true))
  {
    assert "attribute"[0] != "desc"[0];
  }

  lemma OrdersDiffer(a: seq<Order>, b: seq<Order>)
    requires OrdersToWire(a) == OrdersToWire(b)
    ensures a == b
  {
    assert |a| == |OrdersToWire(a)| == |OrdersToWire(b)| == |b|;
    forall i | 0 <= i < |a| ensures a[i] == b[i] {
      assert OrdersToWire(a)[i] == OrderToWire(a[i]) && OrdersToWire(b)[i] == OrderToWire(b[i]);
      var m, n := OrderToWire(a[i]).fields, OrderToWire(b[i]).fields;
      assert "attribute"[0] != "desc"[0];
      assert m["attribute"] == n["attribute"] && ("desc" in m <==> "desc" in n);
    }
  }

  /** Equal wire forms mean equal filters, orders, selections, page sizes and page tokens. */
  lemma QueryWireIsInjective(p: Query, q: Query)
    requires QueryToWire(p) == QueryToWire(q)
    requires (p.filter.Some? ==> WellFormed(p.filter.value)) && (q.filter.Some? ==> WellFormed(q.filter.value))
    ensures p.filter == q.filter && p.orders == q.orders && p.selects == q.selects
    ensures p.pageSize == q.pageSize && p.pageToken == q.pageToken
  {
    FieldsOf(p);
    FieldsOf(q);
    if p.filter.Some? {
      WireIsInjective(p.filter.value, q.filter.value);
    }
    if p.orders != [] {
      OrdersDiffer(p.orders, q.orders);
    }
    if p.selects != [] {
      StringsRead(p.selects);
      StringsRead(q.selects);
    }
  }

  lemma LeafListIsWellFormed(leaves: seq<Filter>)
    requires forall f | f in leaves :: !IsBool(f.op) && !f.op.Unknown? && f.children == []
    ensures leaves != [] ==> WellFormed(NodeOver(And, leaves).value)
  {
    forall f | f in leaves ensures WellFormed(f) { }
    if leaves != [] {
      assert leaves[0] in leaves;
    }
  }

  /** Text to AST to JSON: whatever ParseMany accepts has a filter that crosses the wire whole. */
  lemma ParsedQueriesCrossTheWire(raw: seq<string>)
    requires ParsedMany(raw).Ok? && ParsedMany(raw).value.filter.Some?
    ensures var f := ParsedMany(raw).value.filter.value; WellFormed(f) && FromWire(ToWire(f)) == Some(f)
  {
    var qs := ParseEach(raw).value;
    Collected(raw, ParseInput);
    forall q | q in qs ensures AtMostOneLeaf(q) {
      var i :| 0 <= i < |qs| && qs[i] == q;
      assert ParseInput(raw[i]) == Ok(qs[i]);
    }
    MergedLeaves(qs);
    LeafListIsWellFormed(MergeAll(qs).filters);
    WireKeepsWellFormedTrees(ParsedMany(raw).value.filter.value);
  }
}
