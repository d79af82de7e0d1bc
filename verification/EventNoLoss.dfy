/** No published event is lost along healthy runs, and exactly when a startup may skip its backfill. */
module EventNoLoss {
  import opened EventProtocol
  import opened EventSafety

  /** An entry the group no longer owes anything for: handled, pending, or not an event at all. */
  predicate Covered(s: State, i: nat)
    requires i < |s.log|
  {
    s.log[i] == 0 || s.log[i] in s.visited || i in s.pending
  }

  /** Every event at or below `mark` is covered, apart from those still listed in `due`. */
  ghost predicate CoveredUpTo(s: State, mark: nat, due: seq<nat>) {
    mark <= s.relayed && forall i | 0 <= i < |s.log| && s.log[i] <= mark :: Covered(s, i) || s.log[i] in due
  }

  /** Nothing behind the group's next read is owed: what consuming relies on. */
  ghost predicate Caught(s: State) {
    forall i | 0 <= i < |s.log| && i < Front(s) :: Covered(s, i)
  }

  /** What lies behind the next read and is above `first` is covered. */
  ghost predicate CaughtFrom(s: State, first: nat) {
    && (exists h | 0 <= h < |s.log| && h <= Front(s) :: s.log[h] == first)
    && 0 < first <= s.relayed && forall i | 0 <= i < |s.log| && i < Front(s) && first < s.log[i] :: Covered(s, i)
  }

  ghost predicate PhaseOk(s: State, p: Phase) {
    match p
    case Down => true
    case Starting => true
    case Probed(mark) => mark <= s.watermark
    case Scanning(first, cursor) => CaughtFrom(s, first) && CoveredUpTo(s, cursor, [])
    case Replaying(first, cursor, rows, next) =>
      && CaughtFrom(s, first) && rows != [] && next <= |rows|
      && CoveredUpTo(s, rows[|rows| - 1], rows[next..])
    case Idle => Caught(s)
    case Working(batch, next) => Caught(s) && forall i | 0 <= i < |batch| :: batch[i] < s.cursor
    case Acked(m) => Caught(s) && exists i | 0 <= i < s.cursor && i < |s.log| :: s.log[i] == m
  }

  ghost predicate Shape(s: State) {
    && 1 <= s.batchRows && s.trimmed <= |s.log| && s.cursor <= |s.log| && s.relayed <= s.committed
    && (s.log != [] ==> s.trimmed < |s.log|)
    && (forall p <- s.pending :: s.trimmed <= p < s.cursor)
    && (forall q <- s.outbox :: 0 < q <= s.committed)
  }

  ghost predicate Ordered(s: State) {
    && (forall i | 0 <= i < |s.log| :: s.log[i] <= s.relayed)
    && (forall i, j | 0 <= i < j < |s.log| && 0 < s.log[i] && 0 < s.log[j] :: s.log[i] < s.log[j])
  }

  /** What holds whether or not there is a group yet. */
  ghost predicate Base(s: State) {
    && Sound(s) && Shape(s) && Ordered(s) && CoveredUpTo(s, s.watermark, [])
    && (forall i | 0 <= i < |s.log| :: Covered(s, i) || s.log[i] in s.outbox)
  }

  /** Fewer rows than a batch holds lie above `from` and at or below q. */
  predicate Few(s: State, from: nat, q: nat) { |Rows(s.outbox, from, q)| < s.batchRows }

  /** With few rows up to q, no batch of this consumer ends there: each goes on past q. */
  predicate PassesOver(s: State, p: Phase, q: nat) {
    match p
    case Probed(mark) => Few(s, mark, q)
    case Scanning(first, cursor) => q < first && Few(s, cursor, q)
    case Replaying(first, _, rows, _) => q < first && rows != [] && q < rows[|rows| - 1]
    case _ => true
  }

  /** No batch of anyone can end at q: its row is not there, or the batches pass over it. */
  ghost predicate NoBatchEndsAt(s: State, q: nat) {
    || (q !in s.outbox && forall c <- s.consumers | s.consumers[c].Replaying? :: q !in s.consumers[c].rows)
    || (Few(s, s.watermark, q) && forall c <- s.consumers :: PassesOver(s, s.consumers[c], q))
  }

  /** The stream's head is owed by the backfill of every startup to come: the watermark is more than one below
      it and cannot come to stand right below it. */
  ghost predicate HeadDue(s: State, i: nat)
    requires i < |s.log|
  {
    i == s.trimmed && s.watermark + 1 < s.log[i] && NoBatchEndsAt(s, s.log[i] - 1)
  }

  ghost predicate Inv(s: State) {
    && s.group && Base(s)
    && (forall i | 0 <= i < |s.log| && s.trimmed <= i < s.cursor :: Covered(s, i) || HeadDue(s, i))
    && (forall c <- s.consumers :: PhaseOk(s, s.consumers[c]))
  }

  // ---- Scans -------------------------------------------------------------------------------------

  lemma {:induction false} RowsAre(outbox: set<nat>, after: nat, upto: nat)
    ensures forall q :: q in Rows(outbox, after, upto) <==> q in outbox && after < q <= upto
    ensures forall i, j | 0 <= i < j < |Rows(outbox, after, upto)| ::
      Rows(outbox, after, upto)[i] < Rows(outbox, after, upto)[j]
    decreases upto - after
  {
    if after < upto {
      RowsAre(outbox, after + 1, upto);
      var rest := Rows(outbox, after + 1, upto);
      assert forall i | 0 <= i < |rest| :: rest[i] in rest;
    }
  }

  /** One scan returns, ascending, exactly the outbox seqs above `after` and at or below its last row;
      an empty scan means there are none up to `upto`. */
  lemma ScanIs(outbox: set<nat>, after: nat, upto: nat, limit: nat)
    requires 1 <= limit
    ensures var rows := ScanRange(outbox, after, upto, limit);
      var last := if rows == [] then upto else rows[|rows| - 1];
      && |rows| <= limit
      && (rows != [] ==> after < last <= upto)
      && (forall q | after < q <= last :: q in outbox <==> q in rows)
      && (forall q <- rows :: q in outbox && after < q <= last)
      && (forall i, j | 0 <= i < j < |rows| :: rows[i] < rows[j])
  {
    RowsAre(outbox, after, upto);
    var all, rows := Rows(outbox, after, upto), ScanRange(outbox, after, upto, limit);
    if rows != [] {
      var last := rows[|rows| - 1];
      assert last in all && rows == all[..|rows|];
      forall q | after < q <= last && q in outbox ensures q in rows {
        var i :| 0 <= i < |all| && all[i] == q;
        assert all[|rows| - 1] == last && i < |rows|;
        assert rows[i] == q;
      }
    }
  }

  // ---- Steps -------------------------------------------------------------------------------------

  /** Covered is never taken back by a healthy step. */
  lemma CoveredStays(s: State, a: Action, i: nat)
    requires Inv(s) && Enabled(s, a) && Healthy(s, a) && i < |s.log| && Covered(s, i)
    ensures i < |Apply(s, a).log| && Covered(Apply(s, a), i)
  {
    StepGrows(s, a);
    assert 0 <= Actor(a) ==> SoundPhase(s, PhaseOf(s, Actor(a)));
    match a
    case Ack(c, ok) =>
      var batch := PhaseOf(s, c).batch;
      if i in s.pending && i in batch {
        assert i in s.ran;
      }
    case _ =>
  }

  /** A healthy step leaves the front alone, except that a read moves it over entries it makes pending
      and a trim in downtime moves it while no consumer holds anything. */
  lemma FrontMoves(s: State, a: Action)
    requires Inv(s) && Enabled(s, a) && Healthy(s, a)
    ensures Front(s) <= Front(Apply(s, a))
    ensures var t := Apply(s, a);
      AllDown(s) || forall i | Front(s) <= i < Front(t) && i < |t.log| :: Covered(t, i)
  {
    match a
    case Read(c, n, ok) => ReadBatch(s, c, n, ok);
    case _ =>
  }

  lemma ReadBatch(s: State, c: nat, n: nat, ok: bool)
    requires Enabled(s, Read(c, n, ok))
    ensures var t := Apply(s, Read(c, n, ok));
      && (forall p :: p in t.pending <==> p in s.pending || Front(s) <= p < Front(s) + n)
      && (ok ==> forall i | 0 <= i < |PhaseOf(t, c).batch| :: Front(s) <= PhaseOf(t, c).batch[i] < t.cursor)
  {
    var from := Front(s);
    var batch := seq(n, i requires 0 <= i => from + i);
    assert Apply(s, Read(c, n, ok)).pending == s.pending + Positions(batch);
    forall p | Front(s) <= p < Front(s) + n ensures p in batch { assert batch[p - Front(s)] == p; }
  }

  /** A consumer's duties survive any change that only covers more and appends newer events. */
  lemma DutiesStay(s: State, t: State, p: Phase)
    requires PhaseOk(s, p) && s.log <= t.log && s.cursor <= t.cursor && Front(s) <= Front(t)
    requires s.watermark <= t.watermark && s.relayed <= t.relayed
    requires forall i | 0 <= i < |s.log| && Covered(s, i) :: Covered(t, i)
    requires forall i | |s.log| <= i < |t.log| :: t.log[i] == 0 || s.relayed < t.log[i]
    requires forall i | Front(s) <= i < Front(t) && i < |t.log| :: Covered(t, i)
    requires s.cursor <= |s.log| && s.trimmed <= |s.log|
    ensures PhaseOk(t, p)
  {
    if p.Scanning? || p.Replaying? {
      var h :| 0 <= h < |s.log| && h <= Front(s) && s.log[h] == p.first;
      assert t.log[h] == p.first;
    }
    if p.Acked? {
      var h :| 0 <= h < s.cursor && h < |s.log| && s.log[h] == p.maxSeq;
      assert t.log[h] == p.maxSeq;
    }
    assert forall i | 0 <= i < |s.log| :: t.log[i] == s.log[i];
    assert forall mark, due | CoveredUpTo(s, mark, due) :: CoveredUpTo(t, mark, due);
  }

  lemma PhaseStays(s: State, a: Action, c: nat)
    requires Inv(s) && Enabled(s, a) && Healthy(s, a) && c in s.consumers && c != Actor(a)
    ensures PhaseOk(Apply(s, a), s.consumers[c])
  {
    var t, p := Apply(s, a), s.consumers[c];
    assert PhaseOk(s, p);
    if !p.Down? {
      StepGrows(s, a);
      FrontMoves(s, a);
      forall i | 0 <= i < |s.log| && Covered(s, i) ensures Covered(t, i) { CoveredStays(s, a, i); }
      DutiesStay(s, t, p);
    }
  }

  // One lemma for each step that gives its consumer a new duty.

  lemma AfterReadFirst(s: State, c: nat)
    requires Inv(s) && Enabled(s, ReadFirst(c)) && Healthy(s, ReadFirst(c))
    ensures PhaseOk(Apply(s, ReadFirst(c)), PhaseOf(Apply(s, ReadFirst(c)), c))
  {
    var first, mark := FirstSeq(s), PhaseOf(s, c).mark;
    assert PhaseOk(s, Probed(mark));
    if s.log != [] {
      assert s.log[s.trimmed] == first && s.trimmed <= Front(s);
      forall i | 0 <= i < |s.log| && i < Front(s) && (first < s.log[i] || first <= mark + 1) ensures Covered(s, i) {
        if s.trimmed <= i {
          assert Covered(s, i) || HeadDue(s, i);
        }
      }
    }
  }

  lemma AfterScan(s: State, c: nat)
    requires Inv(s) && Enabled(s, Scan(c))
    ensures PhaseOk(Apply(s, Scan(c)), PhaseOf(Apply(s, Scan(c)), c))
  {
    var p := PhaseOf(s, c);
    assert PhaseOk(s, p);
    ScanIs(s.outbox, p.cursor, p.first, s.batchRows);
    var rows := ScanRange(s.outbox, p.cursor, p.first, s.batchRows);
    var last := if rows == [] then p.first else rows[|rows| - 1];
    assert rows[0..] == rows;
    assert CoveredUpTo(s, last, rows);
  }

  lemma AfterReplay(s: State, c: nat)
    requires Inv(s) && Enabled(s, Replay(c))
    ensures PhaseOk(Apply(s, Replay(c)), PhaseOf(Apply(s, Replay(c)), c))
  {
    var p, t := PhaseOf(s, c), Apply(s, Replay(c));
    assert PhaseOk(s, p);
    assert p.rows[p.next..] == [p.rows[p.next]] + p.rows[p.next + 1..];
    assert CoveredUpTo(t, p.rows[|p.rows| - 1], p.rows[p.next + 1..]);
  }

  lemma AfterClose(s: State, c: nat, ok: bool)
    requires Inv(s) && Enabled(s, CloseBatch(c, ok))
    ensures PhaseOk(Apply(s, CloseBatch(c, ok)), PhaseOf(Apply(s, CloseBatch(c, ok)), c))
    ensures CoveredUpTo(s, PhaseOf(s, c).rows[|PhaseOf(s, c).rows| - 1], [])
  {
    var p, t := PhaseOf(s, c), Apply(s, CloseBatch(c, ok));
    assert PhaseOk(s, p);
    assert p.rows[p.next..] == [];
    assert CoveredUpTo(t, p.rows[|p.rows| - 1], []);
  }

  lemma AfterAck(s: State, c: nat, ok: bool)
    requires Inv(s) && Enabled(s, Ack(c, ok))
    ensures PhaseOk(Apply(s, Ack(c, ok)), PhaseOf(Apply(s, Ack(c, ok)), c))
  {
    var p, t := PhaseOf(s, c), Apply(s, Ack(c, ok));
    assert PhaseOk(s, p) && SoundPhase(s, p);
    forall i | 0 <= i < |s.log| && Covered(s, i) ensures Covered(t, i) { CoveredStays(s, Ack(c, ok), i); }
    MaxSeqIsSome(s.log, p.batch);
    var m := MaxSeq(s.log, p.batch);
    if 0 < m {
      var i :| 0 <= i < |p.batch| && s.log[p.batch[i]] == m;
      assert p.batch[i] < s.cursor;
    }
  }

  lemma AfterTake(s: State, a: Action)
    requires Inv(s) && Enabled(s, a) && (a.Read? || a.Claim?)
    ensures PhaseOk(Apply(s, a), PhaseOf(Apply(s, a), a.c))
  {
    var p, t := PhaseOf(s, a.c), Apply(s, a);
    assert PhaseOk(s, p);
    forall i | 0 <= i < |s.log| && Covered(s, i) ensures Covered(t, i) { CoveredStays(s, a, i); }
    match a
    case Read(c, n, ok) => ReadBatch(s, c, n, ok);
    case Claim(_, batch) => assert forall i | 0 <= i < |batch| :: batch[i] in batch;
  }

  lemma AfterConsume(s: State, a: Action)
    requires Inv(s) && Enabled(s, a) && (a.Process? || a.Advance?)
    ensures PhaseOk(Apply(s, a), PhaseOf(Apply(s, a), a.c))
  {
    var p, t := PhaseOf(s, a.c), Apply(s, a);
    assert PhaseOk(s, p);
    forall i | 0 <= i < |s.log| && Covered(s, i) ensures Covered(t, i) { CoveredStays(s, a, i); }
  }

  lemma PhaseAfter(s: State, a: Action)
    requires Inv(s) && Enabled(s, a) && Healthy(s, a) && 0 <= Actor(a)
    ensures PhaseOk(Apply(s, a), PhaseOf(Apply(s, a), Actor(a)))
  {
    match a
    case ReadFirst(c) => AfterReadFirst(s, c);
    case Scan(c) => AfterScan(s, c);
    case Replay(c) => AfterReplay(s, c);
    case CloseBatch(c, ok) => AfterClose(s, c, ok);
    case Ack(c, ok) => AfterAck(s, c, ok);
    case Read(_, _, _) => AfterTake(s, a);
    case Claim(_, _) => AfterTake(s, a);
    case Process(_) => AfterConsume(s, a);
    case Advance(_, _) => AfterConsume(s, a);
    case _ =>
  }

  lemma ShapeStays(s: State, a: Action)
    requires Inv(s) && Enabled(s, a) && Healthy(s, a)
    ensures Shape(Apply(s, a))
  {
    match a
    case Read(c, n, ok) => ReadBatch(s, c, n, ok);
    case _ =>
  }

  lemma OrderStays(s: State, a: Action)
    requires Ordered(s) && Enabled(s, a) && InOrder(s, a)
    ensures Ordered(Apply(s, a))
  {
  }

  /** The watermark only moves over covered events. */
  lemma AfterAdvance(s: State, c: nat, ok: bool)
    requires Inv(s) && Enabled(s, Advance(c, ok))
    ensures CoveredUpTo(s, PhaseOf(s, c).maxSeq, [])
  {
    var p := PhaseOf(s, c);
    assert PhaseOk(s, p);
    var j :| 0 <= j < s.cursor && j < |s.log| && s.log[j] == p.maxSeq;
    forall i | 0 <= i < |s.log| && 0 < s.log[i] <= p.maxSeq ensures Covered(s, i) { assert i <= j; }
  }

  lemma WatermarkCovers(s: State, a: Action)
    requires Inv(s) && Enabled(s, a) && Healthy(s, a)
    ensures CoveredUpTo(Apply(s, a), Apply(s, a).watermark, [])
  {
    var t := Apply(s, a);
    forall i | 0 <= i < |s.log| && Covered(s, i) ensures Covered(t, i) { CoveredStays(s, a, i); }
    match a
    case CloseBatch(c, ok) => AfterClose(s, c, ok);
    case Advance(c, ok) => AfterAdvance(s, c, ok);
    case _ =>
  }

  lemma CoveredOrKept(s: State, a: Action, i: nat)
    requires Inv(s) && Enabled(s, a) && Healthy(s, a) && i < |Apply(s, a).log|
    ensures Covered(Apply(s, a), i) || Apply(s, a).log[i] in Apply(s, a).outbox
  {
    if i < |s.log| && Covered(s, i) {
      CoveredStays(s, a, i);
    }
  }

  /** Counting fewer rows from further up. */
  lemma {:induction false} CountsDrop(before: set<nat>, after: set<nat>, from: nat, later: nat, q: nat)
    requires from <= later && forall x | later < x <= q && x in after :: x in before
    ensures |Rows(after, later, q)| <= |Rows(before, from, q)|
    decreases q - from
  {
    if from < q {
      if from < later {
        CountsDrop(before, after, from + 1, later, q);
      } else {
        CountsDrop(before, after, from + 1, later + 1, q);
      }
    }
  }

  lemma {:induction false} RowsSplit(outbox: set<nat>, a: nat, b: nat, c: nat)
    requires a <= b <= c
    ensures Rows(outbox, a, c) == Rows(outbox, a, b) + Rows(outbox, b, c)
    decreases b - a
  {
    if a < b {
      RowsSplit(outbox, a + 1, b, c);
    }
  }

  lemma {:induction false} RowsAgree(o1: set<nat>, o2: set<nat>, a: nat, b: nat)
    requires forall q | a < q <= b :: q in o1 <==> q in o2
    ensures Rows(o1, a, b) == Rows(o2, a, b)
    decreases b - a
  {
    if a < b {
      RowsAgree(o1, o2, a + 1, b);
    }
  }

  /** A scan over few rows up to q goes on past it, if the next row is there. */
  lemma ScanPasses(s: State, cursor: nat, first: nat, q: nat)
    requires q < first && Few(s, cursor, q) && q + 1 in s.outbox
    requires ScanRange(s.outbox, cursor, first, s.batchRows) != []
    ensures var rows := ScanRange(s.outbox, cursor, first, s.batchRows); q < rows[|rows| - 1]
  {
    var all, rows := Rows(s.outbox, cursor, first), ScanRange(s.outbox, cursor, first, s.batchRows);
    ScanIs(s.outbox, cursor, first, s.batchRows);
    assert rows[|rows| - 1] in rows;
    if cursor <= q {
      RowsSplit(s.outbox, cursor, q, first);
      var n := |Rows(s.outbox, cursor, q)|;
      assert all[n] == q + 1 && n < |rows| && rows[n] == q + 1;
    }
  }

  lemma CloseStaysBelow(s: State, c: nat, ok: bool, i: nat)
    requires Inv(s) && Enabled(s, CloseBatch(c, ok)) && i < |s.log| && HeadDue(s, i) && !Covered(s, i)
    ensures Apply(s, CloseBatch(c, ok)).watermark + 1 < s.log[i]
  {
    var rows := PhaseOf(s, c).rows;
    assert rows[|rows| - 1] in rows;
    AfterClose(s, c, ok);
  }

  lemma WatermarkStaysBelow(s: State, a: Action, i: nat)
    requires Inv(s) && Enabled(s, a) && i < s.cursor && i < |s.log| && HeadDue(s, i) && !Covered(s, i)
    ensures Apply(s, a).watermark + 1 < s.log[i]
  {
    assert 0 <= Actor(a) && Actor(a) in s.consumers ==> PhaseOk(s, PhaseOf(s, Actor(a)));
    if a.CloseBatch? {
      CloseStaysBelow(s, a.c, a.ok, i);
    }
  }

  lemma RowsStayClear(s: State, a: Action, q: nat)
    requires Enabled(s, a) && q !in s.outbox
    requires forall c <- s.consumers | s.consumers[c].Replaying? :: q !in s.consumers[c].rows
    ensures var t := Apply(s, a); forall c <- t.consumers | t.consumers[c].Replaying? :: q !in t.consumers[c].rows
  {
    StepGrows(s, a);
    if a.Scan? {
      var p := PhaseOf(s, a.c);
      ScanIs(s.outbox, p.cursor, p.first, s.batchRows);
    }
  }

  /** Few stays few: no healthy step adds a row at or below q. */
  lemma FewStays(s: State, a: Action, from: nat, later: nat, q: nat)
    requires Enabled(s, a) && Healthy(s, a) && Few(s, from, q) && from <= later && q <= s.committed
    ensures Few(Apply(s, a), later, q)
  {
    CountsDrop(s.outbox, Apply(s, a).outbox, from, later, q);
  }

  lemma OthersPassOver(s: State, a: Action, c: nat, q: nat)
    requires Enabled(s, a) && Healthy(s, a) && q <= s.committed && c in s.consumers && c != Actor(a)
    requires PassesOver(s, s.consumers[c], q)
    ensures PassesOver(Apply(s, a), s.consumers[c], q)
  {
    match s.consumers[c]
    case Probed(mark) => FewStays(s, a, mark, mark, q);
    case Scanning(_, cursor) => FewStays(s, a, cursor, cursor, q);
    case _ =>
  }

  lemma ActorPassesOver(s: State, a: Action, i: nat, q: nat)
    requires Inv(s) && Enabled(s, a) && Healthy(s, a) && i < |s.log| && i == s.trimmed && !Covered(s, i)
    requires q + 1 == s.log[i] && Few(s, s.watermark, q) && 0 <= Actor(a)
    requires PassesOver(s, PhaseOf(s, Actor(a)), q)
    ensures PassesOver(Apply(s, a), PhaseOf(Apply(s, a), Actor(a)), q)
  {
    var p := PhaseOf(s, Actor(a));
    assert Actor(a) in s.consumers ==> PhaseOk(s, p);
    match a
    case Scan(c) =>
      if ScanRange(s.outbox, p.cursor, p.first, s.batchRows) != [] {
        ScanPasses(s, p.cursor, p.first, q);
      }
    case CloseBatch(c, ok) => AfterClose(s, c, ok);
    case _ =>
  }

  lemma BatchesStillPass(s: State, a: Action, i: nat, q: nat)
    requires Inv(s) && Enabled(s, a) && Healthy(s, a) && i < |s.log| && i == s.trimmed && !Covered(s, i)
    requires q + 1 == s.log[i] && Few(s, s.watermark, q)
    requires forall c <- s.consumers :: PassesOver(s, s.consumers[c], q)
    ensures var t := Apply(s, a); Few(t, t.watermark, q) && forall c <- t.consumers :: PassesOver(t, t.consumers[c], q)
  {
    var t := Apply(s, a);
    StepGrows(s, a);
    FewStays(s, a, s.watermark, t.watermark, q);
    forall c <- t.consumers ensures PassesOver(t, t.consumers[c], q) {
      if c == Actor(a) {
        ActorPassesOver(s, a, i, q);
      } else {
        assert PhaseOf(t, c) == PhaseOf(s, c);
        OthersPassOver(s, a, c, q);
      }
    }
  }

  /** A head that is owed stays so or gets covered: no batch ends right below it. */
  lemma HeadStaysDue(s: State, a: Action, i: nat)
    requires Inv(s) && Enabled(s, a) && Healthy(s, a) && i < s.cursor && i < |s.log| && HeadDue(s, i)
    requires Apply(s, a).trimmed == i
    ensures var t := Apply(s, a); i < |t.log| && (Covered(t, i) || HeadDue(t, i))
  {
    StepGrows(s, a);
    if Covered(s, i) {
      CoveredStays(s, a, i);
    } else {
      var q := s.log[i] - 1;
      WatermarkStaysBelow(s, a, i);
      if q !in s.outbox && forall c <- s.consumers | s.consumers[c].Replaying? :: q !in s.consumers[c].rows {
        RowsStayClear(s, a, q);
      } else {
        BatchesStillPass(s, a, i, q);
      }
    }
  }

  lemma BehindReadStays(s: State, a: Action, i: nat)
    requires Inv(s) && Enabled(s, a) && Healthy(s, a)
    requires var t := Apply(s, a); i < |t.log| && t.trimmed <= i < t.cursor
    ensures Covered(Apply(s, a), i) || HeadDue(Apply(s, a), i)
  {
    if i < s.cursor {
      assert Covered(s, i) || HeadDue(s, i);
      if Covered(s, i) {
        CoveredStays(s, a, i);
      } else {
        HeadStaysDue(s, a, i);
      }
    } else {
      assert a.Read?;
      ReadBatch(s, a.c, a.count, a.ok);
    }
  }

  lemma StepKeepsInv(s: State, a: Action)
    requires Inv(s) && Enabled(s, a) && Healthy(s, a)
    ensures Inv(Apply(s, a))
  {
    var t := Apply(s, a);
    StepIsSound(s, a);
    StepGrows(s, a);
    ShapeStays(s, a);
    OrderStays(s, a);
    WatermarkCovers(s, a);
    forall i | 0 <= i < |t.log| ensures Covered(t, i) || t.log[i] in t.outbox { CoveredOrKept(s, a, i); }
    forall i | 0 <= i < |t.log| && t.trimmed <= i < t.cursor ensures Covered(t, i) || HeadDue(t, i) {
      BehindReadStays(s, a, i);
    }
    forall c <- t.consumers ensures PhaseOk(t, t.consumers[c]) {
      if c == Actor(a) { PhaseAfter(s, a); } else { PhaseStays(s, a, c); }
    }
  }

  lemma {:induction false} RunKeepsInv(s: State, tr: seq<Action>)
    requires Inv(s) && Legal(s, tr) && HealthyRun(s, tr)
    ensures Inv(Exec(s, tr))
    decreases |tr|
  {
    if tr != [] {
      RunKeepsInv(s, tr[..|tr| - 1]);
      StepKeepsInv(Exec(s, tr[..|tr| - 1]), tr[|tr| - 1]);
    }
  }

  /** Some consumer is past its startup. */
  predicate SomeConsuming(s: State) {
    exists c <- s.consumers :: s.consumers[c].Idle? || s.consumers[c].Working? || s.consumers[c].Acked?
  }

  /** Every published event was handled, or is pending in the stream, or lies above the watermark and is
      still in the outbox. */
  ghost predicate Accounted(s: State) {
    forall i | 0 <= i < |s.log| && 0 < s.log[i] ::
      || s.log[i] in s.visited
      || (i in s.pending && s.trimmed <= i)
      || (s.watermark < s.log[i] && s.log[i] in s.outbox)
  }

  /** An event that is neither handled nor pending is one the group will still be given. */
  ghost predicate OnlyUnreadOwed(s: State) {
    forall i | 0 <= i < |s.log| && 0 < s.log[i] ::
      s.log[i] in s.visited || i in s.pending || (s.cursor <= i && s.trimmed <= i)
  }

  lemma InvMeansNoLoss(s: State)
    requires Inv(s)
    ensures Accounted(s)
    ensures SomeConsuming(s) ==> OnlyUnreadOwed(s)
  {
    forall i | 0 <= i < |s.log| && 0 < s.log[i]
      ensures s.log[i] in s.visited || (i in s.pending && s.trimmed <= i)
        || (s.watermark < s.log[i] && s.log[i] in s.outbox)
    {
      assert Covered(s, i) || s.log[i] in s.outbox;
    }
    if SomeConsuming(s) {
      var c :| c in s.consumers && (s.consumers[c].Idle? || s.consumers[c].Working? || s.consumers[c].Acked?);
      assert PhaseOk(s, s.consumers[c]);
      forall i | 0 <= i < |s.log| && 0 < s.log[i] && i < Front(s) ensures s.log[i] in s.visited || i in s.pending {
        assert Covered(s, i);
      }
    }
  }

  /** The step of consumer a.c that ends its backfill. */
  predicate EndsBackfill(s: State, a: Action) {
    (a.Scan? || a.CloseBatch?) && Enabled(s, a) && PhaseOf(Apply(s, a), a.c).Idle?
  }

  /** A finished backfill has covered every published event up to the stream's head, that one included. */
  lemma FinishedBackfillCovers(s: State, a: Action)
    requires Inv(s) && EndsBackfill(s, a)
    ensures CoveredUpTo(Apply(s, a), PhaseOf(s, a.c).first, [])
  {
    var p := PhaseOf(s, a.c);
    assert PhaseOk(s, p);
    match a
    case Scan(c) => ScanIs(s.outbox, p.cursor, p.first, s.batchRows);
    case CloseBatch(c, ok) => AfterClose(s, c, ok);
  }

  /** No event is lost, for any batch size, after any healthy run of any number of consumers; as soon as one consumer
      is past its startup, only unread entries are owed; and the step that ends a backfill leaves nothing owed up to the
      stream's head but what is pending. */
  lemma NoEventLost(batchRows: nat, tr: seq<Action>, s: State)
    requires 1 <= batchRows
    requires Legal(InitWith(batchRows), tr) && HealthyRun(InitWith(batchRows), tr) && s == Exec(InitWith(batchRows), tr)
    ensures Accounted(s)
    ensures SomeConsuming(s) ==> OnlyUnreadOwed(s)
    ensures forall a | EndsBackfill(s, a) :: CoveredUpTo(Apply(s, a), PhaseOf(s, a.c).first, [])
  {
    RunKeepsInv(InitWith(batchRows), tr);
    InvMeansNoLoss(s);
    forall a | EndsBackfill(s, a) ensures CoveredUpTo(Apply(s, a), PhaseOf(s, a.c).first, []) {
      FinishedBackfillCovers(s, a);
    }
  }
}
