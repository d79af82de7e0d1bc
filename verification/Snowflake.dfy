/** pkg/idgen/snowflake.go: time-sortable 64-bit ids under an arbitrary clock. Words are natural numbers
    below 2^64, signed values their two's-complement reading; `|` and `<<` are written out on bits. */
module Snowflake {
  import opened Wrappers
  import opened Calendar

  const EPOCH := 1577836800000
  const MAX_NODE := 1023
  const MAX_SEQ := 4095
  const WORD := 0x1_0000_0000_0000_0000
  const ERA := 0x200_0000_0000  // 2^41 milliseconds

  // ---- Bits --------------------------------------------------------------------------------------

  function Pow2(k: nat): nat { if k == 0 then 1 else 2 * Pow2(k - 1) }

  function Or(a: nat, b: nat): nat
    decreases a + b
  {
    if a == 0 && b == 0 then 0
    else (if a % 2 == 1 || b % 2 == 1 then 1 else 0) + 2 * Or(a / 2, b / 2)
  }

  function ToWord(n: int): nat { n % WORD }

  function Signed(w: nat): int { if w < WORD / 2 then w else w - WORD }

  function ShiftLeft(w: nat, k: nat): nat { ToWord(w * Pow2(k)) }

  lemma {:induction false} OrZero(a: nat)
    ensures Or(a, 0) == a
  {
    if a != 0 {
      OrZero(a / 2);
    }
  }

  /** Or'ing a number into the low bits of a multiple of 2^k adds it: the two never share a bit. */
  lemma {:induction false} OrDisjoint(x: nat, y: nat, k: nat)
    requires y < Pow2(k)
    ensures Or(x * Pow2(k), y) == x * Pow2(k) + y
    decreases k
  {
    if k == 0 {
      OrZero(x);
    } else {
      var h := x * Pow2(k - 1);
      assert x * Pow2(k) == 2 * h;
      OrDisjoint(x, y / 2, k - 1);
    }
  }

  /** The id expression: ((now - epoch) << 22) | (node << 12) | sequence. */
  function Pack(ms: int, node: nat, sequence: nat): int {
    Signed(Or(Or(ShiftLeft(ToWord(ms - EPOCH), 22), ShiftLeft(node, 12)), sequence))
  }

  /** Milliseconds since the epoch as the 42 bits left of the node field can tell them, signed. */
  function Visible(ms: int): int { (ms - EPOCH + ERA) % (2 * ERA) - ERA }

  lemma Powers()
    ensures Pow2(12) == 4096 && Pow2(22) == 4194304
  {
    assert Pow2(4) == 16;
    assert Pow2(8) == 256;
    assert Pow2(12) == 4096;
    assert Pow2(16) == 65536;
    assert Pow2(20) == 1048576;
  }

  lemma ShiftIs(w: nat)
    ensures ShiftLeft(w, 22) == w * 4194304 % WORD && ShiftLeft(w, 12) == w * 4096 % WORD
  {
    Powers();
    var p, q := Pow2(22), Pow2(12);
    assert w * p == w * 4194304 && w * q == w * 4096;
  }

  lemma RemainderIs(a: int, m: int, q: int, r: int)
    requires a == q * m + r && 0 <= r < m && (m == WORD || m == 2 * ERA)
    ensures a % m == r
  {
  }

  /** Shifting by 22 keeps the low 42 bits of a word. */
  lemma HighBits(t: int)
    ensures (t % WORD) * 4194304 % WORD == (t % (2 * ERA)) * 4194304
  {
    var w, a := t % WORD, t / WORD;
    var x, y := w % (2 * ERA), w / (2 * ERA);
    assert t == a * WORD + w && w == y * (2 * ERA) + x;
    RemainderIs(t, 2 * ERA, a * 4194304 + y, x);
    RemainderIs(w * 4194304, WORD, y, x * 4194304);
  }

  lemma OrFields(x: nat, node: nat, sequence: nat)
    requires node <= MAX_NODE && sequence <= MAX_SEQ
    ensures Or(Or(x * 4194304, node * 4096), sequence) == x * 4194304 + node * 4096 + sequence
  {
    Powers();
    var p, q := Pow2(22), Pow2(12);
    OrDisjoint(x, node * 4096, 22);
    assert x * p == x * 4194304;
    var y := x * 1024 + node;
    OrDisjoint(y, sequence, 12);
    assert y * q == y * 4096;
  }

  lemma SignedSum(x: nat, low: nat)
    requires x < 2 * ERA && low < 4194304
    ensures Signed(x * 4194304 + low) == (if x < ERA then x else x - 2 * ERA) * 4194304 + low
  {
  }

  lemma VisibleIs(ms: int)
    ensures var x := (ms - EPOCH) % (2 * ERA); Visible(ms) == if x < ERA then x else x - 2 * ERA
  {
  }

  lemma Shifted(ms: int, node: nat)
    requires node <= MAX_NODE
    ensures ShiftLeft(ToWord(ms - EPOCH), 22) == ((ms - EPOCH) % (2 * ERA)) * 4194304
    ensures ShiftLeft(node, 12) == node * 4096
  {
    ShiftIs(ToWord(ms - EPOCH));
    ShiftIs(node);
    HighBits(ms - EPOCH);
  }

  /** For every clock reading, node and sequence number, the or'd fields sit side by side. */
  lemma PackIsSum(ms: int, node: nat, sequence: nat)
    requires node <= MAX_NODE && sequence <= MAX_SEQ
    ensures Pack(ms, node, sequence) == Visible(ms) * 4194304 + node * 4096 + sequence
  {
    var x := (ms - EPOCH) % (2 * ERA);
    Shifted(ms, node);
    OrFields(x, node, sequence);
    SignedSum(x, node * 4096 + sequence);
    VisibleIs(ms);
  }

  // ---- Reading the fields back -------------------------------------------------------------------

  function TimeOf(id: int): int { id / 4194304 + EPOCH }
  function NodeOf(id: int): int { id / 4096 % 1024 }
  function SequenceOf(id: int): int { id % 4096 }

  /** The clock is within 2^41 milliseconds, some 69 years, of 2020-01-01. */
  predicate InRange(ms: int) { -ERA <= ms - EPOCH < ERA }

  lemma SumReadsBack(id: int, v: int, node: nat, sequence: nat)
    requires node <= MAX_NODE && sequence <= MAX_SEQ && id == v * 4194304 + node * 4096 + sequence
    ensures TimeOf(id) == v + EPOCH && NodeOf(id) == node && SequenceOf(id) == sequence
  {
    var high := v * 1024 + node;
    assert id == high * 4096 + sequence;
    assert id / 4096 == high && id % 4096 == sequence;
    assert high % 1024 == node && id / 4194304 == v;
  }

  lemma SumGrows(v: int, low: nat, w: int, high: nat)
    requires low < 4194304 && high < 4194304 && (v < w || (v == w && low < high))
    ensures v * 4194304 + low < w * 4194304 + high
  {
  }

  lemma VisibleInRange(ms: int)
    ensures Visible(ms) + EPOCH == ms <==> InRange(ms)
  {
  }

  /** The epoch is the beginning of 2020. */
  lemma EpochIs2020(f: Fields)
    requires f.year == 2020 && f.month == f.day == 1 && f.hour == f.minute == f.second == 0
    ensures UTC(f) == EPOCH == 1577836800000
  {
    StartOfYear(f);
    DaysTo2020(f.year);
  }

  lemma DaysTo2020(y: int)
    requires y == 2020
    ensures DayFromYear(y) == 18262
  {
    var a, b, c := (y - 1969) / 4, (y - 1901) / 100, (y - 1601) / 400;
    assert a == 12 && b == 1 && c == 1;
  }

  /** Node and sequence always read back; the time does exactly when it is in range. */
  lemma FieldsReadBack(id: int, ms: int, node: nat, sequence: nat)
    requires node <= MAX_NODE && sequence <= MAX_SEQ && id == Pack(ms, node, sequence)
    ensures NodeOf(id) == node && SequenceOf(id) == sequence
    ensures TimeOf(id) == ms <==> InRange(ms)
  {
    PackIsSum(ms, node, sequence);
    SumReadsBack(id, Visible(ms), node, sequence);
    VisibleInRange(ms);
  }

  /** Ids of different nodes never collide, whatever their clocks say. */
  lemma NodesNeverCollide(ms1: int, node1: nat, seq1: nat, ms2: int, node2: nat, seq2: nat)
    requires node1 <= MAX_NODE && node2 <= MAX_NODE && seq1 <= MAX_SEQ && seq2 <= MAX_SEQ && node1 != node2
    ensures Pack(ms1, node1, seq1) != Pack(ms2, node2, seq2)
  {
    FieldsReadBack(Pack(ms1, node1, seq1), ms1, node1, seq1);
    FieldsReadBack(Pack(ms2, node2, seq2), ms2, node2, seq2);
  }

  // ---- The generator -----------------------------------------------------------------------------

  datatype Gen = Gen(node: nat, lastMs: int, sequence: nat)

  predicate ValidGen(g: Gen) { g.node <= MAX_NODE && g.sequence <= MAX_SEQ }

  function IdOf(g: Gen): int { Pack(g.lastMs, g.node, g.sequence) }

  /** The first reading from `from` on that is at least `bound`; all of them when there is none. */
  function Await(clock: seq<int>, from: nat, bound: int): (r: nat)
    requires from <= |clock|
    ensures from <= r <= |clock| && (r < |clock| ==> bound <= clock[r])
    decreases |clock| - from
  {
    if from == |clock| || bound <= clock[from] then from else Await(clock, from + 1, bound)
  }

  /** What one call leaves behind, and how many clock readings it took. */
  datatype Drawn = Drawn(gen: Gen, used: nat)

  /** Next on a clock that will show the given readings; none when the clock shows no more while it spins. */
  function NextOf(g: Gen, clock: seq<int>): (r: Option<Drawn>)
    requires ValidGen(g)
    ensures r.Some? ==> ValidGen(r.value.gen) && r.value.gen.node == g.node && 0 < r.value.used <= |clock|
    ensures r.Some? ==> r.value.gen.lastMs == clock[r.value.used - 1]
  {
    var i := Await(clock, 0, g.lastMs);
    if i == |clock| then None
    else if clock[i] != g.lastMs then Some(Drawn(Gen(g.node, clock[i], 0), i + 1))
    else if g.sequence < MAX_SEQ then Some(Drawn(Gen(g.node, clock[i], g.sequence + 1), i + 1))
    else
      var j := Await(clock, i + 1, g.lastMs + 1);
      if j == |clock| then None else Some(Drawn(Gen(g.node, clock[j], 0), j + 1))
  }

  class Snowflake {
    const nodeID: nat
    var lastMs: int
    var sequence: nat

    ghost function Abstract(): Gen reads this { Gen(nodeID, lastMs, sequence) }

    constructor (nodeID: nat)
      requires nodeID <= MAX_NODE
      ensures Abstract() == Gen(nodeID, 0, 0) && ValidGen(Abstract())
    {
      this.nodeID, this.lastMs, this.sequence := nodeID, 0, 0;
    }

    /** A spin loop: take readings until one is at least `bound`. */
    method SpinUntil(clock: seq<int>, first: int, taken: nat, bound: int) returns (now: int, used: nat)
      requires taken <= |clock| && first < bound
      ensures var r := Await(clock, taken, bound);
        if r < |clock| then used == r + 1 && now == clock[r] else used == |clock| && now < bound
    {
      now, used := first, taken;
      while now < bound && used < |clock|
        invariant taken <= used <= |clock|
        invariant used == taken ==> now == first
        invariant used > taken ==> now == clock[used - 1]
        invariant if now < bound then Await(clock, taken, bound) == Await(clock, used, bound) else used > taken
        invariant now >= bound ==> Await(clock, taken, bound) == used - 1
        decreases |clock| - used
      {
        now := clock[used];
        used := used + 1;
      }
    }

    /** The time and sequence number of the next id; false when the clock ran out of readings in a spin,
        where the source keeps waiting. */
    method Advance(clock: seq<int>) returns (ok: bool, used: nat)
      requires ValidGen(Abstract())
      modifies this
      ensures var r := NextOf(old(Abstract()), clock);
        ok == r.Some? && (ok ==> Abstract() == r.value.gen && used == r.value.used)
    {
      if clock == [] {
        return false, 0;
      }
      var now := clock[0];
      used := 1;
      if now < lastMs {
        now, used := SpinUntil(clock, now, used, lastMs);
        if now < lastMs {
          return false, used;
        }
      }
      if now == lastMs {
        sequence := (sequence + 1) % 4096;
        if sequence == 0 {
          now, used := SpinUntil(clock, now, used, lastMs + 1);
          if now <= lastMs {
            return false, used;
          }
        }
      } else {
        sequence := 0;
      }
      lastMs := now;
      ok := true;
    }

    method Next(clock: seq<int>) returns (id: Option<int>, used: nat)
      requires ValidGen(Abstract())
      modifies this
      ensures var r := NextOf(old(Abstract()), clock);
        if r.None? then id == None
        else Abstract() == r.value.gen && used == r.value.used && id == Some(IdOf(r.value.gen))
    {
      var ok;
      ok, used := Advance(clock);
      id := if ok then Some(Pack(lastMs, nodeID, sequence)) else None;
    }
  }

  // ---- Every run ---------------------------------------------------------------------------------

  /** The states a generator goes through while the clock shows the given readings. */
  function Run(g: Gen, clock: seq<int>): seq<Gen>
    requires ValidGen(g)
    decreases |clock|
  {
    match NextOf(g, clock)
    case None => []
    case Some(d) => [d.gen] + Run(d.gen, clock[d.used..])
  }

  /** A reading that gives an id: a later one, or the same one while its numbers last. */
  predicate Usable(g: Gen, reading: int) { g.lastMs < reading || (reading == g.lastMs && g.sequence < 4095) }

  /** A call gives an id exactly if the clock ever shows such a reading; it takes the first of them, skips what the
      clock showed before, and numbers the id from 0 in a new millisecond. */
  lemma NextTakesFirstUsable(g: Gen, clock: seq<int>)
    requires ValidGen(g)
    ensures NextOf(g, clock).Some? <==> exists i | 0 <= i < |clock| :: Usable(g, clock[i])
    ensures NextOf(g, clock).Some? ==>
      var n, last := NextOf(g, clock).value.gen, NextOf(g, clock).value.used - 1;
      && Usable(g, clock[last]) && (forall i | 0 <= i < last :: !Usable(g, clock[i]))
      && n == Gen(g.node, clock[last], if clock[last] == g.lastMs then g.sequence + 1 else 0)
  {
    var i := Await(clock, 0, g.lastMs);
    AwaitIsFirst(clock, 0, g.lastMs);
    if i < |clock| && !Usable(g, clock[i]) {
      AwaitIsFirst(clock, i + 1, g.lastMs + 1);
    }
  }

  lemma {:induction false} AwaitIsFirst(clock: seq<int>, from: nat, bound: int)
    requires from <= |clock|
    ensures forall i | from <= i < Await(clock, from, bound) :: clock[i] < bound
    decreases |clock| - from
  {
    if from < |clock| && clock[from] < bound {
      AwaitIsFirst(clock, from + 1, bound);
    }
  }

  /** A later reading is taken at once and starts the sequence anew; the same reading takes the next number, of which
      there are 4096. */
  lemma OneReadingIsEnough(g: Gen, clock: seq<int>)
    requires ValidGen(g) && clock != []
    ensures g.lastMs < clock[0] ==> NextOf(g, clock) == Some(Drawn(Gen(g.node, clock[0], 0), 1))
    ensures clock[0] == g.lastMs && g.sequence < 4095 ==>
      NextOf(g, clock) == Some(Drawn(Gen(g.node, g.lastMs, g.sequence + 1), 1))
  {
  }

  /** On a clock that stands still, a millisecond gives exactly 4096 ids, numbered from 0, one for each reading, and
      then no more. */
  lemma {:induction false} RestOfMillisecond(g: Gen, clock: seq<int>)
    requires ValidGen(g) && forall i | 0 <= i < |clock| :: clock[i] == g.lastMs
    ensures |Run(g, clock)| == if |clock| <= 4095 - g.sequence then |clock| else 4095 - g.sequence
    ensures forall k | 0 <= k < |Run(g, clock)| :: Run(g, clock)[k] == Gen(g.node, g.lastMs, g.sequence + 1 + k)
    decreases |clock|
  {
    if clock == [] {
    } else if g.sequence < 4095 {
      OneReadingIsEnough(g, clock);
      var n := Gen(g.node, g.lastMs, g.sequence + 1);
      RestOfMillisecond(n, clock[1..]);
      assert Run(g, clock) == [n] + Run(n, clock[1..]);
    } else {
      NothingLater(clock, 1, g.lastMs + 1);
    }
  }

  lemma {:induction false} NothingLater(clock: seq<int>, from: nat, bound: int)
    requires from <= |clock| && forall i | from <= i < |clock| :: clock[i] < bound
    ensures Await(clock, from, bound) == |clock|
    decreases |clock| - from
  {
    if from < |clock| {
      NothingLater(clock, from + 1, bound);
    }
  }

  lemma MillisecondHas4096(g: Gen, t: int, clock: seq<int>)
    requires ValidGen(g) && g.lastMs < t && clock != [] && forall i | 0 <= i < |clock| :: clock[i] == t
    ensures |Run(g, clock)| == if |clock| <= 4096 then |clock| else 4096
    ensures forall k | 0 <= k < |Run(g, clock)| :: Run(g, clock)[k] == Gen(g.node, t, k)
  {
    var n := Gen(g.node, t, 0);
    OneReadingIsEnough(g, clock);
    RestOfMillisecond(n, clock[1..]);
    assert Run(g, clock) == [n] + Run(n, clock[1..]);
  }

  /** b's time is later than a's, or its sequence number at the same time. */
  predicate Later(a: Gen, b: Gen) {
    a.node == b.node && (a.lastMs < b.lastMs || (a.lastMs == b.lastMs && a.sequence < b.sequence))
  }

  /** A call moves to a later time, or to the next sequence number at the same time. */
  lemma NextMovesOn(g: Gen, clock: seq<int>)
    requires ValidGen(g) && NextOf(g, clock).Some?
    ensures var n := NextOf(g, clock).value.gen;
      Later(g, n) && (g.lastMs == n.lastMs ==> n.sequence == g.sequence + 1)
  {
  }

  /** Along every run, whatever the clock shows, the states move on. */
  lemma {:induction false} RunMovesOn(g: Gen, clock: seq<int>, bound: int)
    requires ValidGen(g) && forall i | 0 <= i < |clock| :: clock[i] < bound
    ensures forall i | 0 <= i < |Run(g, clock)| :: ValidGen(Run(g, clock)[i]) && Run(g, clock)[i].lastMs < bound
    ensures forall i | 0 <= i < |Run(g, clock)| :: Later(g, Run(g, clock)[i])
    ensures forall i, j | 0 <= i < j < |Run(g, clock)| :: Later(Run(g, clock)[i], Run(g, clock)[j])
    decreases |clock|
  {
    if NextOf(g, clock).Some? {
      var d := NextOf(g, clock).value;
      var rest := Run(d.gen, clock[d.used..]);
      NextMovesOn(g, clock);
      RunMovesOn(d.gen, clock[d.used..], bound);
      assert Run(g, clock) == [d.gen] + rest;
    }
  }

  /** Which stretch of 2^42 milliseconds a time falls into; number 0 is the one in range. */
  function Era(ms: int): int { (ms - EPOCH + ERA) / (2 * ERA) }

  lemma EraZeroIsInRange(ms: int)
    ensures Era(ms) == 0 <==> InRange(ms)
  {
  }

  lemma EraSplits(ms: int)
    ensures ms - EPOCH == Era(ms) * (2 * ERA) + Visible(ms) && -ERA <= Visible(ms) < ERA
  {
  }

  lemma SameEraIsVisible(a: int, b: int)
    requires a <= b < a + 2 * ERA
    ensures if Era(a) == Era(b) then Visible(b) - Visible(a) == b - a else Visible(b) < Visible(a)
  {
    EraSplits(a);
    EraSplits(b);
    assert Era(a) <= Era(b) <= Era(a) + 1;
  }

  lemma SumIs(id: int, g: Gen)
    requires ValidGen(g) && id == IdOf(g)
    ensures id == Visible(g.lastMs) * 4194304 + (g.node * 4096 + g.sequence) && g.node * 4096 + g.sequence < 4194304
  {
    PackIsSum(g.lastMs, g.node, g.sequence);
  }

  /** Of two states of one node, less than 2^42 milliseconds apart, the later one's id is larger if and only if both
      times fall into the same era; the ids differ in any case. */
  lemma LargerIffSameEra(a: Gen, b: Gen, ida: int, idb: int)
    requires ValidGen(a) && ValidGen(b) && Later(a, b) && b.lastMs < a.lastMs + 2 * ERA
    requires ida == IdOf(a) && idb == IdOf(b)
    ensures (ida < idb <==> Era(a.lastMs) == Era(b.lastMs)) && ida != idb
  {
    SumIs(ida, a);
    SumIs(idb, b);
    SameEraIsVisible(a.lastMs, b.lastMs);
    var low, high := a.node * 4096 + a.sequence, b.node * 4096 + b.sequence;
    if Era(a.lastMs) == Era(b.lastMs) {
      SumGrows(Visible(a.lastMs), low, Visible(b.lastMs), high);
    } else {
      SumGrows(Visible(b.lastMs), high, Visible(a.lastMs), low);
    }
  }

  /** One call: its id is larger than the one before if and only if the new time is in range, the old one being so. */
  lemma NextIsLargerIffInRange(g: Gen, clock: seq<int>)
    requires ValidGen(g) && InRange(g.lastMs) && NextOf(g, clock).Some?
    requires NextOf(g, clock).value.gen.lastMs < g.lastMs + 2 * ERA
    ensures var n := NextOf(g, clock).value.gen; IdOf(g) < IdOf(n) <==> InRange(n.lastMs)
  {
    var n := NextOf(g, clock).value.gen;
    NextMovesOn(g, clock);
    LargerIffSameEra(g, n, IdOf(g), IdOf(n));
    EraZeroIsInRange(g.lastMs);
    EraZeroIsInRange(n.lastMs);
  }

  /** For every sequence of clock readings that stays within 2^42 milliseconds, some 139 years, of the state before it,
      with any backward jumps and any number of calls in one millisecond: of any two ids issued the later is larger if
      and only if their times fall into the same era, and no two are equal. */
  lemma IdsIncreaseIffSameEra(g: Gen, clock: seq<int>, i: nat, j: nat)
    requires ValidGen(g) && forall k | 0 <= k < |clock| :: clock[k] < g.lastMs + 2 * ERA
    requires i < j < |Run(g, clock)|
    ensures ValidGen(Run(g, clock)[i]) && ValidGen(Run(g, clock)[j])
    ensures var a, b := Run(g, clock)[i], Run(g, clock)[j];
      (IdOf(a) < IdOf(b) <==> Era(a.lastMs) == Era(b.lastMs)) && IdOf(a) != IdOf(b)
  {
    var run := Run(g, clock);
    RunMovesOn(g, clock, g.lastMs + 2 * ERA);
    assert Later(g, run[i]) && Later(run[i], run[j]) && run[j].lastMs < g.lastMs + 2 * ERA;
    LargerIffSameEra(run[i], run[j], IdOf(run[i]), IdOf(run[j]));
  }

  /** A new generator whose first reading is in range, on a clock that does not pass the year 2109: its ids strictly
      increase if and only if its last time is in range. */
  lemma IdsStrictlyIncrease(node: nat, clock: seq<int>)
    requires node <= MAX_NODE && forall k | 0 <= k < |clock| :: clock[k] < 2 * ERA
    requires var run := Run(Gen(node, 0, 0), clock); run != [] && InRange(run[0].lastMs)
    ensures var run := Run(Gen(node, 0, 0), clock);
      (forall i | 0 <= i < |run| :: ValidGen(run[i]))
      && ((forall i, j | 0 <= i < j < |run| :: IdOf(run[i]) < IdOf(run[j])) <==> InRange(run[|run| - 1].lastMs))
  {
    var g := Gen(node, 0, 0);
    var run := Run(g, clock);
    RunMovesOn(g, clock, 2 * ERA);
    var last := |run| - 1;
    EraZeroIsInRange(run[0].lastMs);
    EraZeroIsInRange(run[last].lastMs);
    if 0 < last {
      IdsIncreaseIffSameEra(g, clock, 0, last);
    }
    if InRange(run[last].lastMs) {
      forall i, j | 0 <= i < j < |run| ensures IdOf(run[i]) < IdOf(run[j]) {
        IdsIncreaseIffSameEra(g, clock, i, j);
        InBetween(run, i);
        InBetween(run, j);
      }
    }
  }

  lemma InBetween(run: seq<Gen>, i: nat)
    requires i < |run| && InRange(run[0].lastMs) && InRange(run[|run| - 1].lastMs)
    requires forall j, k | 0 <= j < k < |run| :: Later(run[j], run[k])
    ensures Era(run[i].lastMs) == 0
  {
    assert i == 0 || Later(run[0], run[i]);
    assert i == |run| - 1 || Later(run[i], run[|run| - 1]);
    EraZeroIsInRange(run[i].lastMs);
  }
}
