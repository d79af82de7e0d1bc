/** The first start next to an existing stream. The group is created at the stream's end, while the backfill covers
    what lies up to the stream's head: exactly when does nothing fall in between? */
module EventDeployment {
  import opened EventProtocol
  import opened EventSafety
  import opened EventNoLoss
  import opened EventLoss
  import opened EventBackfill

  /** No group yet, and so nobody up and nothing pending. */
  ghost predicate NoGroup(s: State) { !s.group && Base(s) && AllDown(s) && s.pending == {} }

  /** A backfill from watermark to stream head is due. */
  predicate Due(s: State) { s.watermark + 1 < FirstSeq(s) }

  /** The state after consumer c joined the group and read watermark and stream head. */
  function Started(s: State, c: nat): State {
    At(s.(group := true, cursor := |s.log|), c, if Due(s) then Scanning(FirstSeq(s), s.watermark) else Idle)
  }

  lemma StartedIsReached(s: State, c: nat)
    requires NoGroup(s)
    ensures Enabled(s, Boot(c)) && Enabled(Apply(s, Boot(c)), ReadMark(c))
    ensures Enabled(Apply(Apply(s, Boot(c)), ReadMark(c)), ReadFirst(c))
    ensures Apply(Apply(Apply(s, Boot(c)), ReadMark(c)), ReadFirst(c)) == Started(s, c)
  {
    var s1 := Apply(s, Boot(c));
    var s2 := Apply(s1, ReadMark(c));
    assert PhaseOf(s1, c) == Starting && PhaseOf(s2, c) == Probed(s.watermark);
    assert s2.consumers == s.consumers[c := Probed(s.watermark)];
    assert Apply(s2, ReadFirst(c)).consumers == Started(s, c).consumers;
  }

  lemma StartedIsSound(s: State, c: nat)
    requires NoGroup(s)
    ensures var t := Started(s, c);
      && t.group && Base(t) && Alone(t, c) && Front(t) == |t.log|
      && (forall i | 0 <= i < |t.log| :: Covered(t, i) <==> t.log[i] == 0 || t.log[i] in s.visited)
      && (forall d <- t.consumers | d != c :: PhaseOk(t, t.consumers[d]))
  {
    var t := Started(s, c);
    forall i | 0 <= i < |t.log| ensures Covered(t, i) == Covered(s, i) { }
  }

  // ---- No backfill is due --------------------------------------------------------------------------

  /** Then the first start is safe if and only if every event in the stream was handled before. */
  lemma NotDueIsSafeIffHandled(s: State, c: nat)
    requires NoGroup(s) && !Due(s)
    ensures NeverLoses(Started(s, c)) <==> forall i | 0 <= i < |s.log| :: s.log[i] == 0 || s.log[i] in s.visited
  {
    var t := Started(s, c);
    StartedIsSound(s, c);
    IdleIsSafeIffCaught(t, c);
    assert Caught(t) <==> forall i | 0 <= i < |t.log| :: Covered(t, i);
  }

  // ---- A backfill is due ---------------------------------------------------------------------------

  /** The head was handled, or no batch can end right below it: the row there is missing, or the rows up to there do
      not fill a batch. */
  predicate HeadIsSafe(s: State) {
    var first := FirstSeq(s);
    first in s.visited || first - 1 !in s.outbox || |Rows(s.outbox, s.watermark, first - 1)| < s.batchRows
  }

  lemma StartedIsStarted(s: State, c: nat)
    requires NoGroup(s)
    ensures Calls(Started(s, c), [], Started(s, c), [])
  {
  }

  /** A completed backfill leaves an unhandled event past the stream's head behind the group's next read. */
  lemma EventPastHeadIsLost(s: State, c: nat, i: nat)
    requires NoGroup(s) && Due(s) && i < |s.log| && FirstSeq(s) < s.log[i] && s.log[i] !in s.visited
    ensures !NeverLoses(Started(s, c))
  {
    var t := Started(s, c);
    StartedIsSound(s, c);
    StartedIsStarted(s, c);
    var tr, v, g := BackfillAll(t, c, [], t, []);
    ExposedLoses(t, c, i, tr, v);
  }

  /** With the last batch ending right below an unhandled head, a crash makes the head look as if it were next in
      line: the second startup skips its backfill. */
  lemma EndingBelowHeadLoses(t: State, d: nat, pre: seq<Action>, v: State, h: seq<nat>)
    requires Calls(t, pre, v, h) && v.group && Shape(v) && Ordered(v) && Front(v) == |v.log| && v.trimmed < |v.log|
    requires 0 < FirstSeq(v) <= v.watermark + 1 && !Covered(v, v.trimmed)
    ensures !NeverLoses(t)
  {
    var tr := Start(t, d, pre, v, h);
    var w := At(v, d, Idle);
    assert !Covered(w, w.trimmed);
    ExposedLoses(t, d, w.trimmed, tr, w);
  }

  /** If the rows below the head fill whole batches, the last of them ends right below it. */
  lemma WholeBatchesLoseHead(s: State, c: nat)
    requires NoGroup(s) && Due(s) && !HeadIsSafe(s)
    requires |Rows(s.outbox, s.watermark, FirstSeq(s) - 1)| % s.batchRows == 0
    ensures !NeverLoses(Started(s, c))
  {
    var t, first := Started(s, c), FirstSeq(s);
    StartedIsSound(s, c);
    StartedIsStarted(s, c);
    BatchesLoseHead(t, c, [], t, first, []);
  }

  /** With more rows than a batch below the head, the first batch ends among them. */
  lemma FirstBatch(outbox: set<nat>, w: nat, first: nat, limit: nat) returns (rows: seq<nat>)
    requires w + 1 < first && 1 <= limit < |Rows(outbox, w, first - 1)|
    ensures rows == Rows(outbox, w, first - 1)[..limit] && rows == ScanRange(outbox, w, first, limit)
    ensures w < rows[|rows| - 1] < first && forall q | q in rows :: q in outbox && q <= rows[|rows| - 1]
  {
    var all := Rows(outbox, w, first - 1);
    rows := all[..limit];
    RowsSplit(outbox, w, first - 1, first);
    RowsAre(outbox, w, first - 1);
    assert Rows(outbox, w, first)[..limit] == rows;
    ScanIs(outbox, w, first, limit);
    assert rows[limit - 1] in all;
  }

  /** A second consumer reads watermark and head, and then the first closes a batch. */
  lemma SecondReadsFirstCloses(s: State, c: nat, d: nat, rows: seq<nat>, u: State) returns (tr: seq<Action>)
    requires NoGroup(s) && Due(s) && c != d && rows != []
    requires u == At(Started(s, c), d, Scanning(FirstSeq(s), s.watermark))
    requires rows == ScanRange(s.outbox, s.watermark, FirstSeq(s), s.batchRows)
    ensures Batch(u, c, rows) && Calls(Started(s, c), tr, Closed(u, c, rows), rows)
  {
    var t := Started(s, c);
    StartedIsStarted(s, c);
    tr := Start(t, d, [], t, []);
    tr := RunBatch(t, c, tr, u, rows, []);
    assert [] + rows == rows;
  }

  /** If they do not, purging the first of them while another consumer has yet to scan makes them. */
  lemma RaggedBatchesLoseHead(s: State, c: nat)
    requires NoGroup(s) && Due(s) && !HeadIsSafe(s)
    requires |Rows(s.outbox, s.watermark, FirstSeq(s) - 1)| % s.batchRows != 0
    ensures !NeverLoses(Started(s, c))
  {
    var t, first, w, d := Started(s, c), FirstSeq(s), s.watermark, c + 1;
    var n := |Rows(s.outbox, w, first - 1)|;
    NotSelfDivided(n, s.batchRows);
    var rows := FirstBatch(s.outbox, w, first, s.batchRows);
    var u := At(t, d, Scanning(first, w));
    var tr := SecondReadsFirstCloses(s, c, d, rows, u);
    StartedIsSound(s, c);
    PurgedLosesHead(s, c, tr, u, rows, n % s.batchRows);
  }

  lemma NotSelfDivided(n: nat, m: nat)
    requires 1 <= m <= n && n % m != 0
    ensures m < n && 0 < n % m < m
  {
    if n == m {
      Multiple(1, m);
    }
  }

  /** Without the first r rows, the rest are there, the last one included. */
  lemma PurgedRowsLeave(outbox: set<nat>, w: nat, q: nat, all: seq<nat>, r: nat, left: set<nat>)
    requires all == Rows(outbox, w, q) && w < q && q in outbox && 0 < r < |all|
    requires left == outbox - Positions(all[..r])
    ensures q in left && |Rows(left, w, q)| == |all| - r
  {
    RowsAre(outbox, w, q);
    RowsWithoutFirst(outbox, w, q, r);
    forall i | 0 <= i < |all| ensures all[i] <= q { assert all[i] in all; }
    LastIsKept(all, r, q);
  }

  /** The state a consumer d that read early finds, once the first consumer closed a batch and its front was purged. */
  lemma PurgedState(s: State, c: nat, d: nat, u: State, rows: seq<nat>, left: set<nat>, x: State)
    requires NoGroup(s) && Due(s) && FirstSeq(s) !in s.visited && c != d && left <= s.outbox
    requires u == At(Started(s, c), d, Scanning(FirstSeq(s), s.watermark)) && Batch(u, c, rows)
    requires forall q | q in rows :: q < FirstSeq(s)
    requires x == Closed(u, c, rows).(outbox := left, rewrites := x.rewrites)
    ensures x.group && Shape(x) && Ordered(x) && Front(x) == |x.log| && x.trimmed < |x.log| && x.log == s.log
    ensures PhaseOf(x, d) == Scanning(FirstSeq(s), s.watermark) && FirstSeq(x) == FirstSeq(s) && !Covered(x, x.trimmed)
    ensures x.batchRows == s.batchRows && x.outbox == left
  {
    StartedIsSound(s, c);
  }

  /** The front of a closed batch is purged. */
  lemma PurgeFront(t: State, c: nat, pre: seq<Action>, u: State, rows: seq<nat>, r: nat)
    returns (tr: seq<Action>, x: State)
    requires Batch(u, c, rows) && r <= |rows| && Calls(t, pre, Closed(u, c, rows), rows)
    requires forall i, j | 0 <= i < j < |rows| :: rows[i] < rows[j]
    requires forall q | q in rows :: q in u.outbox && q <= rows[|rows| - 1]
    ensures Calls(t, tr, x, rows)
    ensures x == Closed(u, c, rows).(outbox := u.outbox - Positions(rows[..r]), rewrites := x.rewrites)
  {
    var v := Closed(u, c, rows);
    forall i | 0 <= i < r ensures rows[..r][i] in v.outbox && rows[..r][i] <= v.watermark { assert rows[i] in rows; }
    tr, x := PurgeRows(t, pre, v, rows[..r], rows);
  }

  /** The batch of the first consumer, and the odd rows at its front. */
  predicate OddFront(s: State, rows: seq<nat>, r: nat) {
    0 < FirstSeq(s) &&
    var all := Rows(s.outbox, s.watermark, FirstSeq(s) - 1);
    0 < r < |rows| < |all| && rows == all[..|rows|] && 1 <= s.batchRows && |all| % s.batchRows == r
  }

  /** What the second consumer then has before it. */
  predicate Whole(x: State, d: nat, first: nat) {
    && PhaseOf(x, d).Scanning? && PhaseOf(x, d).first == first == FirstSeq(x) && PhaseOf(x, d).cursor + 1 < first
    && first - 1 in x.outbox && 1 <= x.batchRows
    && |Rows(x.outbox, PhaseOf(x, d).cursor, first - 1)| % x.batchRows == 0
  }

  lemma PurgedIsWhole(s: State, c: nat, u: State, rows: seq<nat>, r: nat, x: State)
    requires NoGroup(s) && Due(s) && !HeadIsSafe(s) && OddFront(s, rows, r)
    requires u == At(Started(s, c), c + 1, Scanning(FirstSeq(s), s.watermark)) && Batch(u, c, rows)
    requires forall q | q in rows :: q < FirstSeq(s)
    requires x == Closed(u, c, rows).(outbox := s.outbox - Positions(rows[..r]), rewrites := x.rewrites)
    ensures x.group && Shape(x) && Ordered(x) && Front(x) == |x.log| && x.trimmed < |x.log| && !Covered(x, x.trimmed)
    ensures Whole(x, c + 1, FirstSeq(s))
  {
    var first, w := FirstSeq(s), s.watermark;
    var all := Rows(s.outbox, w, first - 1);
    assert all[..r] == rows[..r];
    PurgedRowsLeave(s.outbox, w, first - 1, all, r, x.outbox);
    RestIsWhole(|all|, s.batchRows);
    PurgedState(s, c, c + 1, u, rows, x.outbox, x);
  }

  lemma PurgedLosesHead(s: State, c: nat, pre: seq<Action>, u: State, rows: seq<nat>, r: nat)
    requires NoGroup(s) && Due(s) && !HeadIsSafe(s) && OddFront(s, rows, r)
    requires u == At(Started(s, c), c + 1, Scanning(FirstSeq(s), s.watermark)) && Batch(u, c, rows)
    requires Calls(Started(s, c), pre, Closed(u, c, rows), rows)
    requires forall q | q in rows :: q in s.outbox && q <= rows[|rows| - 1] < FirstSeq(s)
    ensures !NeverLoses(Started(s, c))
  {
    RowsAre(s.outbox, s.watermark, FirstSeq(s) - 1);
    var tr, x := PurgeFront(Started(s, c), c, pre, u, rows, r);
    PurgedIsWhole(s, c, u, rows, r, x);
    BatchesLoseHead(Started(s, c), c + 1, tr, x, FirstSeq(s), rows);
  }

  lemma RestIsWhole(n: nat, m: nat)
    requires 1 <= m
    ensures (n - n % m) % m == 0
  {
    Multiple(n / m, m);
    assert n - n % m == n / m * m;
  }

  /** From a state in which a consumer d has whole batches before it. */
  lemma BatchesLoseHead(t: State, d: nat, pre: seq<Action>, x: State, first: nat, h: seq<nat>)
    requires Calls(t, pre, x, h) && x.group && Shape(x) && Ordered(x) && Front(x) == |x.log| && x.trimmed < |x.log|
    requires Whole(x, d, first) && !Covered(x, x.trimmed)
    ensures !NeverLoses(t)
  {
    var tr, v, g := BatchesTo(t, d, pre, x, first - 1, h);
    EndingBelowHeadLoses(t, d, tr, v, g);
  }

  lemma LastIsKept(rows: seq<nat>, r: nat, last: nat)
    requires r < |rows| && last in rows && forall i | 0 <= i < |rows| :: rows[i] <= last
    requires forall i, j | 0 <= i < j < |rows| :: rows[i] < rows[j]
    ensures last !in Positions(rows[..r])
  {
    forall i | 0 <= i < r ensures rows[..r][i] != last { assert rows[i] < rows[|rows| - 1]; }
  }

  lemma HeadIsLost(s: State, c: nat)
    requires NoGroup(s) && Due(s) && !HeadIsSafe(s)
    ensures !NeverLoses(Started(s, c))
  {
    if |Rows(s.outbox, s.watermark, FirstSeq(s) - 1)| % s.batchRows == 0 {
      WholeBatchesLoseHead(s, c);
    } else {
      RaggedBatchesLoseHead(s, c);
    }
  }

  lemma DueIsSafe(s: State, c: nat)
    requires NoGroup(s) && Due(s) && HeadIsSafe(s)
    requires forall i | 0 <= i < |s.log| && FirstSeq(s) < s.log[i] :: s.log[i] in s.visited
    ensures Inv(Started(s, c))
  {
    var t, first := Started(s, c), FirstSeq(s);
    StartedIsSound(s, c);
    assert t.log[t.trimmed] == first;
    assert CaughtFrom(t, first);
    assert CoveredUpTo(t, s.watermark, []);
    if first !in s.visited {
      assert NoBatchEndsAt(t, first - 1);
    }
    forall i | 0 <= i < |t.log| && t.trimmed <= i < t.cursor ensures Covered(t, i) || HeadDue(t, i) {
      if i != t.trimmed && 0 < t.log[i] {
        assert first < t.log[i];
      }
    }
  }

  /** Then the first start is safe if and only if every event past the stream's head was handled before, and so was
      the head itself, or the outbox does not hold the seq right below it, or the rows from the watermark to there do
      not fill a batch. */
  lemma DueIsSafeIffOnlyHeadOwed(s: State, c: nat)
    requires NoGroup(s) && Due(s)
    ensures NeverLoses(Started(s, c)) <==>
      HeadIsSafe(s) && forall i | 0 <= i < |s.log| && FirstSeq(s) < s.log[i] :: s.log[i] in s.visited
  {
    if i :| 0 <= i < |s.log| && FirstSeq(s) < s.log[i] && s.log[i] !in s.visited {
      EventPastHeadIsLost(s, c, i);
    } else if !HeadIsSafe(s) {
      HeadIsLost(s, c);
    } else {
      DueIsSafe(s, c);
      InvNeverLoses(Started(s, c));
    }
  }

  // ---- From the very beginning ---------------------------------------------------------------------

  function Undeployed(batchRows: nat): State { InitWith(batchRows).(group := false) }

  /** Nothing was ever handled. */
  ghost predicate Untouched(s: State) { NoGroup(s) && s.visited == {} && s.watermark == 0 && s.ran == {} }

  lemma UntouchedStays(s: State, a: Action)
    requires Untouched(s) && Enabled(s, a) && Healthy(s, a)
    ensures Untouched(Apply(s, a)) && Apply(s, a).batchRows == s.batchRows
  {
    StepIsSound(s, a);
    OrderStays(s, a);
    assert Actor(a) < 0;
  }

  lemma {:induction false} RunStaysUntouched(batchRows: nat, tr: seq<Action>)
    requires 1 <= batchRows && Legal(Undeployed(batchRows), tr) && HealthyRun(Undeployed(batchRows), tr)
    ensures Untouched(Exec(Undeployed(batchRows), tr)) && Exec(Undeployed(batchRows), tr).batchRows == batchRows
    decreases |tr|
  {
    if tr != [] {
      RunStaysUntouched(batchRows, tr[..|tr| - 1]);
      UntouchedStays(Exec(Undeployed(batchRows), tr[..|tr| - 1]), tr[|tr| - 1]);
    }
  }

  /** The stream holds nothing but its head, and no batch of the backfill can end right below that. */
  predicate OnlyHeadOwed(s: State) {
    var first := FirstSeq(s);
    && (forall i | 0 <= i < |s.log| :: s.log[i] <= first)
    && (first - 1 !in s.outbox || |Rows(s.outbox, 0, first - 1)| < s.batchRows)
  }

  /** For every batch size, and whatever was published and trimmed before: the first start, joining the group and
      reading watermark and stream head, is safe exactly in these cases. The stream holds no event at all; or a
      backfill is due, the stream holds no event but its head, and the row right below it is not in the outbox or the
      rows up to there do not fill a batch. */
  lemma FirstDeployment(batchRows: nat, tr: seq<Action>, s: State, c: nat)
    requires 1 <= batchRows && Reaches(Undeployed(batchRows), tr, s)
    ensures Enabled(s, Boot(c)) && Enabled(Apply(s, Boot(c)), ReadMark(c))
    ensures Enabled(Apply(Apply(s, Boot(c)), ReadMark(c)), ReadFirst(c))
    ensures NeverLoses(Apply(Apply(Apply(s, Boot(c)), ReadMark(c)), ReadFirst(c))) <==>
      if Due(s) then OnlyHeadOwed(s) else forall i | 0 <= i < |s.log| :: s.log[i] == 0
  {
    RunStaysUntouched(batchRows, tr);
    StartedIsReached(s, c);
    if Due(s) {
      DueIsSafeIffOnlyHeadOwed(s, c);
    } else {
      NotDueIsSafeIffHandled(s, c);
    }
  }

  lemma StartIsSafeIff(tr: seq<Action>, s: State, c: nat)
    requires Reaches(Undeployed(BACKFILL_BATCH), tr, s)
    ensures NeverLoses(Started(s, c)) <==>
      if Due(s) then OnlyHeadOwed(s) else forall i | 0 <= i < |s.log| :: s.log[i] == 0
  {
    FirstDeployment(BACKFILL_BATCH, tr, s, c);
    RunStaysUntouched(BACKFILL_BATCH, tr);
    StartedIsReached(s, c);
  }

  /** One event published before the first start is enough. */
  lemma FirstDeploymentSkips() returns (tr: seq<Action>, s: State)
    ensures Reaches(Undeployed(BACKFILL_BATCH), tr, s) && s.log == [1] && !Due(s) && !NeverLoses(Started(s, 0))
  {
    var u := Undeployed(BACKFILL_BATCH);
    s := u.(outbox := {1}, committed := 1, log := [1], relayed := 1);
    Stays(u);
    tr := PublishNext(u, [], u, 1, s);
    StartIsSafeIff(tr, s, 0);
    assert s.log[0] == 1;
  }

  /** With three events, two of them trimmed, the one batch takes the head along. */
  lemma ShortBackfillIsSafe() returns (tr: seq<Action>, s: State)
    ensures Reaches(Undeployed(BACKFILL_BATCH), tr, s) && s.log == [1, 2, 3] && Due(s) && NeverLoses(Started(s, 0))
  {
    s := Trimmed.(group := false);
    tr := TrimmedIsReached(Undeployed(BACKFILL_BATCH));
    RowsAreFew(s.outbox, 0, 2);
    StartIsSafeIff(tr, s, 0);
  }

  function UpTo(n: nat): set<nat> { if n == 0 then {} else UpTo(n - 1) + {n} }

  lemma {:induction false} UpToIs(n: nat)
    ensures forall q: nat :: q in UpTo(n) <==> 1 <= q <= n
  {
    if 0 < n {
      UpToIs(n - 1);
    }
  }

  /** Events 1 to n published. */
  function Published(n: nat): State {
    Undeployed(BACKFILL_BATCH).(outbox := UpTo(n), committed := n, relayed := n,
                                log := seq(n, i requires 0 <= i => i + 1))
  }

  lemma {:induction false} PublishAll(n: nat) returns (tr: seq<Action>)
    ensures Reaches(Undeployed(BACKFILL_BATCH), tr, Published(n))
  {
    var u := Undeployed(BACKFILL_BATCH);
    if n == 0 {
      Stays(u);
      tr := [];
      assert Published(0) == u;
    } else {
      var p, q := Published(n - 1), Published(n);
      tr := PublishAll(n - 1);
      assert q.log == p.log + [n];
      tr := PublishNext(u, tr, p, n, q);
    }
  }

  /** With a full batch of events trimmed and one left, the backfill that is due does not help: its first batch ends
      right below the head, and after a crash the head is lost. */
  lemma FirstBackfillSkips() returns (tr: seq<Action>, s: State)
    ensures Reaches(Undeployed(BACKFILL_BATCH), tr, s) && Due(s) && FirstSeq(s) == 501 == |s.log|
    ensures !NeverLoses(Started(s, 0))
  {
    var u, v := Undeployed(BACKFILL_BATCH), Published(BACKFILL_BATCH + 1);
    s := v.(trimmed := BACKFILL_BATCH);
    tr := PublishAll(BACKFILL_BATCH + 1);
    assert AllDown(v);
    UpToIs(BACKFILL_BATCH + 1);
    tr := Reach(u, tr, v, Trim(BACKFILL_BATCH), s);
    RowsAreFew(s.outbox, 0, BACKFILL_BATCH);
    StartIsSafeIff(tr, s, 0);
  }
}
