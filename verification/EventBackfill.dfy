/** Backfills as healthy runs: batch by batch, up to a row or to the end. */
module EventBackfill {
  import opened EventProtocol
  import opened EventSafety
  import opened EventNoLoss
  import opened EventLoss

  // ---- Rows ----------------------------------------------------------------------------------------

  lemma {:induction false} NoRows(outbox: set<nat>, after: nat, upto: nat)
    requires forall q | after < q <= upto :: q !in outbox
    ensures Rows(outbox, after, upto) == []
    decreases upto - after
  {
    if after < upto {
      NoRows(outbox, after + 1, upto);
    }
  }

  lemma {:induction false} RowsAreFew(outbox: set<nat>, a: nat, b: nat)
    ensures a <= b ==> |Rows(outbox, a, b)| <= b - a
    ensures (forall q | a < q <= b :: q in outbox) && a <= b ==> |Rows(outbox, a, b)| == b - a
    decreases b - a
  {
    if a < b {
      RowsAreFew(outbox, a + 1, b);
    }
  }

  /** The k-th row cuts the rows in two. */
  lemma {:induction false} RowsCut(outbox: set<nat>, a: nat, b: nat, k: nat)
    requires 0 < k <= |Rows(outbox, a, b)|
    ensures var rows := Rows(outbox, a, b); var x := rows[k - 1];
      a < x <= b && x in outbox && Rows(outbox, a, x) == rows[..k] && Rows(outbox, x, b) == rows[k..]
    decreases b - a
  {
    if a + 1 !in outbox {
      RowsCut(outbox, a + 1, b, k);
    } else if k == 1 {
      assert Rows(outbox, a, b)[1..] == Rows(outbox, a + 1, b);
      assert Rows(outbox, a, a + 1) == [a + 1];
    } else {
      var rest := Rows(outbox, a + 1, b);
      RowsCut(outbox, a + 1, b, k - 1);
      assert Rows(outbox, a, b)[..k] == [a + 1] + rest[..k - 1];
      assert Rows(outbox, a, b)[k..] == rest[k - 1..];
    }
  }

  /** Without the first r rows. */
  lemma RowsWithoutFirst(outbox: set<nat>, a: nat, b: nat, r: nat)
    requires 0 < r <= |Rows(outbox, a, b)|
    ensures Rows(outbox - Positions(Rows(outbox, a, b)[..r]), a, b) == Rows(outbox, a, b)[r..]
  {
    var rows := Rows(outbox, a, b);
    var y := rows[r - 1];
    var left := outbox - Positions(rows[..r]);
    RowsCut(outbox, a, b, r);
    RowsAre(outbox, a, y);
    RowsSplit(left, a, y, b);
    NoRows(left, a, y);
    RowsAgree(left, outbox, y, b);
  }

  // ---- One batch -----------------------------------------------------------------------------------

  predicate Batch(u: State, c: nat, rows: seq<nat>) {
    && PhaseOf(u, c).Scanning? && 1 <= u.batchRows && rows != []
    && rows == ScanRange(u.outbox, PhaseOf(u, c).cursor, PhaseOf(u, c).first, u.batchRows)
  }

  /** After k rows of the batch. */
  function Replayed(u: State, c: nat, rows: seq<nat>, k: nat): State
    requires Batch(u, c, rows) && k <= |rows|
  {
    var p := PhaseOf(u, c);
    At(u.(visited := u.visited + Positions(rows[..k])), c, Replaying(p.first, p.cursor, rows, k))
  }

  function Closed(u: State, c: nat, rows: seq<nat>): State
    requires Batch(u, c, rows)
  {
    var first, last := PhaseOf(u, c).first, rows[|rows| - 1];
    At(u.(visited := u.visited + Positions(rows), watermark := if u.watermark < last then last else u.watermark),
       c, if first <= last then Idle else Scanning(first, last))
  }

  lemma BatchIsScanned(u: State, c: nat, rows: seq<nat>)
    requires Batch(u, c, rows)
    ensures Enabled(u, Scan(c)) && Apply(u, Scan(c)) == Replayed(u, c, rows, 0)
  {
    assert Positions(rows[..0]) == {} && u.visited + {} == u.visited;
  }

  lemma RowIsReplayed(u: State, c: nat, rows: seq<nat>, k: nat)
    requires Batch(u, c, rows) && k < |rows|
    ensures var v := Replayed(u, c, rows, k);
      && Enabled(v, Replay(c)) && HandledBy(v, Replay(c)) == [rows[k]]
      && Apply(v, Replay(c)) == Replayed(u, c, rows, k + 1)
  {
    assert rows[..k + 1] == rows[..k] + [rows[k]];
    assert u.visited + Positions(rows[..k]) + {rows[k]} == u.visited + Positions(rows[..k + 1]);
    assert Apply(Replayed(u, c, rows, k), Replay(c)).consumers == Replayed(u, c, rows, k + 1).consumers;
  }

  lemma BatchIsClosed(u: State, c: nat, rows: seq<nat>)
    requires Batch(u, c, rows)
    ensures var v := Replayed(u, c, rows, |rows|);
      Enabled(v, CloseBatch(c, true)) && Apply(v, CloseBatch(c, true)) == Closed(u, c, rows)
  {
    assert rows[..|rows|] == rows;
    assert Apply(Replayed(u, c, rows, |rows|), CloseBatch(c, true)).consumers == Closed(u, c, rows).consumers;
  }

  /** A healthy run from s to u along which the handler was called on h. */
  ghost predicate Calls(s: State, tr: seq<Action>, u: State, h: seq<nat>) { Reaches(s, tr, u) && Handled(s, tr) == h }

  lemma Call(s: State, tr: seq<Action>, u: State, a: Action, t: State, h: seq<nat>, g: seq<nat>)
    returns (next: seq<Action>)
    requires Calls(s, tr, u, h) && Enabled(u, a) && Healthy(u, a) && t == Apply(u, a) && g == h + HandledBy(u, a)
    ensures Calls(s, next, t, g)
  {
    next := tr + [a];
    assert next[..|tr|] == tr;
  }

  /** A step that calls no handler. */
  lemma Silent(s: State, tr: seq<Action>, u: State, a: Action, t: State, h: seq<nat>) returns (next: seq<Action>)
    requires Calls(s, tr, u, h) && Enabled(u, a) && Healthy(u, a) && t == Apply(u, a) && !a.Replay? && !a.Process?
    ensures Calls(s, next, t, h)
  {
    next := Call(s, tr, u, a, t, h, h + []);
    assert h + [] == h;
  }

  lemma ReplayOne(s: State, c: nat, u: State, rows: seq<nat>, k: nat, v: State, pre: seq<Action>, h: seq<nat>)
    returns (tr: seq<Action>, w: State)
    requires Batch(u, c, rows) && k < |rows| && v == Replayed(u, c, rows, k) && Calls(s, pre, v, h)
    ensures w == Replayed(u, c, rows, k + 1) && Calls(s, tr, w, h + [rows[k]])
  {
    RowIsReplayed(u, c, rows, k);
    w := Replayed(u, c, rows, k + 1);
    tr := Call(s, pre, v, Replay(c), w, h, h + [rows[k]]);
  }

  lemma OneAndRest(h: seq<nat>, rows: seq<nat>, k: nat)
    requires k < |rows|
    ensures h + [rows[k]] + rows[k + 1..] == h + rows[k..]
  {
  }

  lemma {:induction false} ReplayRest(s: State, c: nat, u: State, rows: seq<nat>, k: nat, v: State,
                                      pre: seq<Action>, h: seq<nat>)
    returns (tr: seq<Action>, w: State, g: seq<nat>)
    requires Batch(u, c, rows) && k <= |rows| && v == Replayed(u, c, rows, k) && Calls(s, pre, v, h)
    ensures w == Replayed(u, c, rows, |rows|) && Calls(s, tr, w, g) && g == h + rows[k..]
    decreases |rows| - k
  {
    tr, w, g := pre, v, h;
    if k < |rows| {
      tr, w := ReplayOne(s, c, u, rows, k, v, pre, h);
      tr, w, g := ReplayRest(s, c, u, rows, k + 1, w, tr, h + [rows[k]]);
      OneAndRest(h, rows, k);
    }
  }

  /** Scan, handle each row, close. */
  lemma RunBatch(s: State, c: nat, pre: seq<Action>, u: State, rows: seq<nat>, h: seq<nat>) returns (tr: seq<Action>)
    requires Calls(s, pre, u, h) && Batch(u, c, rows)
    ensures Calls(s, tr, Closed(u, c, rows), h + rows)
  {
    var v := Replayed(u, c, rows, 0);
    BatchIsScanned(u, c, rows);
    tr := Silent(s, pre, u, Scan(c), v, h);
    var g;
    tr, v, g := ReplayRest(s, c, u, rows, 0, v, tr, h);
    assert g == h + rows;
    BatchIsClosed(u, c, rows);
    tr := Silent(s, tr, v, CloseBatch(c, true), Closed(u, c, rows), h + rows);
  }

  // ---- Many batches --------------------------------------------------------------------------------

  /** What a backfill of c has done between u and v: rows up to `stop` were handled, nothing else changed. */
  ghost predicate Backfilled(u: State, v: State, c: nat, stop: nat) {
    && v == u.(consumers := v.consumers, visited := v.visited, watermark := v.watermark)
    && v.consumers - {c} == u.consumers - {c}
    && u.visited <= v.visited && u.watermark <= v.watermark && forall q <- v.visited :: q in u.visited || q <= stop
  }

  lemma ClosedIsBackfilled(u: State, c: nat, rows: seq<nat>, stop: nat)
    requires Batch(u, c, rows) && rows[|rows| - 1] <= stop
    ensures Backfilled(u, Closed(u, c, rows), c, stop)
  {
    var p := PhaseOf(u, c);
    ScanIs(u.outbox, p.cursor, p.first, u.batchRows);
    assert Closed(u, c, rows).consumers - {c} == u.consumers - {c};
  }

  /** One scan, and what it leaves for the next. */
  lemma ScanAndRest(outbox: set<nat>, cursor: nat, first: nat, limit: nat)
    requires 1 <= limit
    ensures var rows := ScanRange(outbox, cursor, first, limit);
      Rows(outbox, cursor, first) == if rows == [] then [] else rows + Rows(outbox, rows[|rows| - 1], first)
  {
    var all, rows := Rows(outbox, cursor, first), ScanRange(outbox, cursor, first, limit);
    if rows != [] {
      RowsCut(outbox, cursor, first, |rows|);
      assert rows == all[..|rows|];
    }
  }

  /** A healthy run finishes the backfill, calling the handler on the rows of the range, in order. */
  lemma {:induction false} BackfillAll(s: State, c: nat, pre: seq<Action>, u: State, h: seq<nat>)
    returns (tr: seq<Action>, v: State, g: seq<nat>)
    requires Calls(s, pre, u, h) && PhaseOf(u, c).Scanning? && 1 <= u.batchRows
    requires PhaseOf(u, c).cursor < PhaseOf(u, c).first
    ensures Calls(s, tr, v, g) && PhaseOf(v, c).Idle? && Backfilled(u, v, c, PhaseOf(u, c).first)
    ensures g == h + Rows(u.outbox, PhaseOf(u, c).cursor, PhaseOf(u, c).first)
    decreases PhaseOf(u, c).first - PhaseOf(u, c).cursor, 0
  {
    var p := PhaseOf(u, c);
    var rows := ScanRange(u.outbox, p.cursor, p.first, u.batchRows);
    ScanIs(u.outbox, p.cursor, p.first, u.batchRows);
    ScanAndRest(u.outbox, p.cursor, p.first, u.batchRows);
    if rows == [] {
      tr, v := NothingToScan(s, c, pre, u, h);
      g := h;
      assert h == h + [];
    } else {
      tr, v, g := BatchAndRest(s, c, pre, u, rows, h);
      Associates(h, rows, Rows(u.outbox, rows[|rows| - 1], p.first));
    }
  }

  lemma Associates(a: seq<nat>, b: seq<nat>, c: seq<nat>)
    ensures a + b + c == a + (b + c)
  {
  }

  lemma NothingToScan(s: State, c: nat, pre: seq<Action>, u: State, h: seq<nat>) returns (tr: seq<Action>, v: State)
    requires Calls(s, pre, u, h) && PhaseOf(u, c).Scanning? && 1 <= u.batchRows
    requires ScanRange(u.outbox, PhaseOf(u, c).cursor, PhaseOf(u, c).first, u.batchRows) == []
    ensures Calls(s, tr, v, h) && v == At(u, c, Idle) && Backfilled(u, v, c, PhaseOf(u, c).first)
  {
    v := At(u, c, Idle);
    tr := Silent(s, pre, u, Scan(c), v, h);
    assert v.consumers - {c} == u.consumers - {c};
  }

  lemma {:induction false} BatchAndRest(s: State, c: nat, pre: seq<Action>, u: State, rows: seq<nat>, h: seq<nat>)
    returns (tr: seq<Action>, v: State, g: seq<nat>)
    requires Calls(s, pre, u, h) && Batch(u, c, rows)
    requires var p := PhaseOf(u, c); p.cursor < rows[|rows| - 1] <= p.first
    ensures Calls(s, tr, v, g) && PhaseOf(v, c).Idle? && Backfilled(u, v, c, PhaseOf(u, c).first)
    ensures g == h + rows + Rows(u.outbox, rows[|rows| - 1], PhaseOf(u, c).first)
    decreases PhaseOf(u, c).first - rows[|rows| - 1], 1
  {
    var first, last := PhaseOf(u, c).first, rows[|rows| - 1];
    v, g := Closed(u, c, rows), h + rows;
    tr := RunBatch(s, c, pre, u, rows, h);
    ClosedIsBackfilled(u, c, rows, first);
    if last < first {
      tr, v, g := BackfillAll(s, c, tr, v, g);
    }
  }

  /** If the rows up to `stop` fill whole batches, one of them ends there. */
  lemma {:induction false} BatchesTo(s: State, c: nat, pre: seq<Action>, u: State, stop: nat, h: seq<nat>)
    returns (tr: seq<Action>, v: State, g: seq<nat>)
    requires Calls(s, pre, u, h) && PhaseOf(u, c).Scanning? && 1 <= u.batchRows
    requires var p := PhaseOf(u, c);
      && p.cursor <= stop < p.first && (p.cursor < stop ==> stop in u.outbox)
      && |Rows(u.outbox, p.cursor, stop)| % u.batchRows == 0
    ensures Calls(s, tr, v, g) && Backfilled(u, v, c, stop)
    ensures PhaseOf(v, c) == Scanning(PhaseOf(u, c).first, stop)
    ensures PhaseOf(u, c).cursor < stop ==> stop <= v.watermark
    decreases stop - PhaseOf(u, c).cursor
  {
    var p := PhaseOf(u, c);
    if p.cursor == stop {
      tr, v, g := pre, u, h;
    } else {
      var rows := FullBatch(u.outbox, p.cursor, stop, p.first, u.batchRows);
      v := Closed(u, c, rows);
      tr := RunBatch(s, c, pre, u, rows, h);
      ClosedIsBackfilled(u, c, rows, stop);
      tr, v, g := BatchesTo(s, c, tr, v, stop, h + rows);
    }
  }

  /** The first of them. */
  lemma FullBatch(outbox: set<nat>, cursor: nat, stop: nat, first: nat, limit: nat) returns (rows: seq<nat>)
    requires cursor < stop < first && stop in outbox && 1 <= limit && |Rows(outbox, cursor, stop)| % limit == 0
    ensures rows == ScanRange(outbox, cursor, first, limit) && rows != []
    ensures cursor < rows[|rows| - 1] <= stop
    ensures |Rows(outbox, rows[|rows| - 1], stop)| % limit == 0
  {
    var all := Rows(outbox, cursor, stop);
    RowsAre(outbox, cursor, stop);
    assert stop in all;
    AtLeastOne(|all|, limit);
    RowsSplit(outbox, cursor, stop, first);
    rows := all[..limit];
    assert Rows(outbox, cursor, first)[..limit] == rows;
    RowsCut(outbox, cursor, stop, limit);
  }

  lemma AtLeastOne(n: nat, m: nat)
    requires 0 < n && 1 <= m && n % m == 0
    ensures m <= n && (n - m) % m == 0
  {
    var k := n / m;
    assert n == k * m && 1 <= k;
    assert m <= k * m && n - m == (k - 1) * m;
    Multiple(k - 1, m);
  }

  lemma AtLeastItself(d: int, m: int)
    requires 1 <= d && 1 <= m
    ensures m <= d * m
  {
    assert 0 <= (d - 1) * m;
  }

  lemma Negated(d: int, m: int)
    ensures -d * m == -(d * m)
  {
  }

  lemma NoMultipleBetween(d: int, m: int)
    requires 1 <= m && -m < d * m < m
    ensures d == 0
  {
    if 1 <= d {
      AtLeastItself(d, m);
    } else if d <= -1 {
      Negated(d, m);
      AtLeastItself(-d, m);
    }
  }

  lemma Multiple(k: int, m: int)
    requires 1 <= m
    ensures k * m % m == 0
  {
    var x := k * m;
    assert x % m == (k - x / m) * m;
    NoMultipleBetween(k - x / m, m);
  }

  lemma BootUp(s: State, c: nat, pre: seq<Action>, u: State, h: seq<nat>) returns (tr: seq<Action>)
    requires Calls(s, pre, u, h) && u.group && PhaseOf(u, c).Down?
    ensures Calls(s, tr, At(u, c, Probed(u.watermark)), h)
  {
    var u2, u3 := At(u, c, Starting), At(u, c, Probed(u.watermark));
    tr := Silent(s, pre, u, Boot(c), u2, h);
    assert u2.consumers[c := Probed(u.watermark)] == u3.consumers;
    tr := Silent(s, tr, u2, ReadMark(c), u3, h);
  }

  /** A startup until it has read the watermark, after a crash if the consumer is up. */
  lemma Restart(s: State, c: nat, pre: seq<Action>, u: State, h: seq<nat>) returns (tr: seq<Action>)
    requires Calls(s, pre, u, h) && u.group
    ensures Calls(s, tr, At(u, c, Probed(u.watermark)), h)
  {
    if PhaseOf(u, c).Down? {
      tr := BootUp(s, c, pre, u, h);
    } else {
      var u1 := At(u, c, Down);
      tr := Silent(s, pre, u, Crash(c), u1, h);
      tr := BootUp(s, c, tr, u1, h);
      assert u1.consumers[c := Probed(u.watermark)] == At(u, c, Probed(u.watermark)).consumers;
    }
  }

  /** A startup once it has read the stream's head: a backfill if there is a gap, else none. */
  lemma Start(s: State, c: nat, pre: seq<Action>, u: State, h: seq<nat>) returns (tr: seq<Action>)
    requires Calls(s, pre, u, h) && u.group && 0 < FirstSeq(u)
    ensures var first := FirstSeq(u);
      Calls(s, tr, At(u, c, if u.watermark + 1 < first then Scanning(first, u.watermark) else Idle), h)
  {
    var first, v := FirstSeq(u), At(u, c, Probed(u.watermark));
    var p := if u.watermark + 1 < first then Scanning(first, u.watermark) else Idle;
    tr := Restart(s, c, pre, u, h);
    assert v.consumers[c := p] == At(u, c, p).consumers;
    tr := Silent(s, tr, v, ReadFirst(c), At(u, c, p), h);
  }

  /** Handled rows are cleaned up, one by one. */
  lemma {:induction false} PurgeRows(s: State, pre: seq<Action>, u: State, rows: seq<nat>, h: seq<nat>)
    returns (tr: seq<Action>, v: State)
    requires Calls(s, pre, u, h) && forall i | 0 <= i < |rows| :: rows[i] in u.outbox && rows[i] <= u.watermark
    requires forall i, j | 0 <= i < j < |rows| :: rows[i] < rows[j]
    ensures Calls(s, tr, v, h) && v == u.(outbox := u.outbox - Positions(rows), rewrites := v.rewrites)
    decreases |rows|
  {
    if rows == [] {
      tr, v := pre, u;
      assert u.outbox - Positions(rows) == u.outbox;
    } else {
      var n := |rows| - 1;
      tr, v := PurgeRows(s, pre, u, rows[..n], h);
      var w := v.(outbox := v.outbox - {rows[n]}, rewrites := v.rewrites + 1);
      tr := Silent(s, tr, v, Purge(rows[n]), w, h);
      assert w.outbox == u.outbox - Positions(rows);
      v := w;
    }
  }
}
