/** When the guarantee fails: what losing an event is, that it is final, and exactly which aborted
    startups allow it. The source's comments say that a backfill abandoned on an error is retried by the
    next startup because the watermark has not moved; consuming moves it. */
module EventLoss {
  import opened EventProtocol
  import opened EventSafety
  import opened EventNoLoss

  /** This consumer may still hand the handler the event `q`, at stream position `i`. */
  predicate StillHolds(p: Phase, q: nat, i: nat) {
    match p
    case Probed(mark) => mark < q
    case Scanning(_, cursor) => cursor < q
    case Replaying(_, _, rows, next) => rows == [] || rows[|rows| - 1] < q || |rows| < next || q in rows[next..]
    case Working(batch, next) => |batch| < next || i in batch[next..]
    case _ => false
  }

  /** Behind the group's next read, not pending, at or below the watermark, in no one's hands. */
  ghost predicate Past(s: State, i: nat) {
    && s.trimmed <= |s.log| && i < |s.log| && i < Front(s) && 0 < s.log[i] <= s.watermark && i !in s.pending
    && forall c <- s.consumers :: !StillHolds(s.consumers[c], s.log[i], i)
  }

  /** And never handled. */
  ghost predicate Lost(s: State, i: nat) { Past(s, i) && s.log[i] !in s.visited }

  lemma PastIsNotHandled(s: State, a: Action, i: nat)
    requires Ordered(s) && Enabled(s, a) && Past(s, i)
    ensures s.log[i] !in HandledBy(s, a)
  {
    assert 0 <= Actor(a) && Actor(a) in s.consumers ==> !StillHolds(PhaseOf(s, Actor(a)), s.log[i], i);
  }

  lemma PastIsNotPending(s: State, a: Action, i: nat)
    requires Enabled(s, a) && Past(s, i)
    ensures var t := Apply(s, a); t.trimmed <= |t.log| && i < Front(t) && i !in t.pending
  {
  }

  lemma PastIsNotHeld(s: State, a: Action, i: nat)
    requires Enabled(s, a) && Past(s, i) && 0 <= Actor(a)
    ensures !StillHolds(PhaseOf(Apply(s, a), Actor(a)), s.log[i], i)
  {
    var p := PhaseOf(s, Actor(a));
    assert Actor(a) in s.consumers ==> !StillHolds(p, s.log[i], i);
    if a.Scan? {
      ScanIs(s.outbox, p.cursor, p.first, s.batchRows);
    }
  }

  /** As long as the relay keeps the order, and so sends nothing twice, what is past stays past: no step of any
      consumer or environment, healthy or not, calls the handler on it. */
  lemma PastForever(s: State, a: Action, i: nat)
    requires Ordered(s) && Enabled(s, a) && InOrder(s, a) && Past(s, i)
    ensures Ordered(Apply(s, a)) && Past(Apply(s, a), i) && s.log[i] !in HandledBy(s, a)
  {
    var t := Apply(s, a);
    StepGrows(s, a);
    OrderStays(s, a);
    PastIsNotHandled(s, a, i);
    PastIsNotPending(s, a, i);
    forall c <- t.consumers ensures !StillHolds(t.consumers[c], s.log[i], i) {
      if c == Actor(a) {
        PastIsNotHeld(s, a, i);
      } else {
        assert PhaseOf(t, c) == PhaseOf(s, c) && c in s.consumers;
      }
    }
  }

  /** So a lost event stays lost. */
  lemma LostForever(s: State, a: Action, i: nat)
    requires Ordered(s) && Enabled(s, a) && InOrder(s, a) && Lost(s, i)
    ensures Ordered(Apply(s, a)) && Lost(Apply(s, a), i)
  {
    PastForever(s, a, i);
    StepVisits(s, a);
    StepGrows(s, a);
  }

  // ---- Healthy continuations, step by step ---------------------------------------------------------

  /** A healthy run from s that ends in u. */
  ghost predicate Reaches(s: State, tr: seq<Action>, u: State) { Legal(s, tr) && HealthyRun(s, tr) && Exec(s, tr) == u }

  lemma Reach(s: State, tr: seq<Action>, u: State, a: Action, t: State) returns (next: seq<Action>)
    requires Reaches(s, tr, u) && Enabled(u, a) && Healthy(u, a) && t == Apply(u, a)
    ensures Reaches(s, next, t)
  {
    next := tr + [a];
    assert next[..|tr|] == tr;
  }

  /** No healthy continuation loses an event. */
  ghost predicate NeverLoses(t: State) { forall tr: seq<Action>, u: State, i: nat :: Reaches(t, tr, u) ==> !Lost(u, i) }

  /** All consumers but c are down. */
  predicate Alone(s: State, c: nat) { forall d <- s.consumers | d != c :: s.consumers[d].Down? }

  /** A consumer alone past its startup with an unhandled event behind its next read. */
  ghost predicate Doomed(s: State, c: nat, i: nat) {
    && PhaseOf(s, c).Idle? && Alone(s, c)
    && s.group && s.trimmed <= |s.log| && s.cursor <= |s.log| && s.relayed <= s.committed && Ordered(s)
    && i < |s.log| && i < Front(s) && !Covered(s, i)
  }

  // One session: read a batch of n entries, handle each, ack.

  function Unread(u: State, n: nat): seq<nat> {
    var from: nat := Front(u);
    seq(n, i requires 0 <= i => from + i)
  }

  function SeqsOf(log: seq<nat>, batch: seq<nat>): set<nat>
    requires forall k | 0 <= k < |batch| :: batch[k] < |log|
  {
    set k | 0 <= k < |batch| && 0 < log[batch[k]] :: log[batch[k]]
  }

  predicate CanRead(u: State, c: nat, n: nat) {
    PhaseOf(u, c).Idle? && u.group && 1 <= n <= READ_COUNT && Front(u) + n <= |u.log|
  }

  /** After the read and k of its entries. */
  function BatchHandled(u: State, c: nat, n: nat, k: nat): State
    requires CanRead(u, c, n) && k <= n
  {
    var batch := Unread(u, n);
    At(u.(cursor := Front(u) + n, pending := u.pending + Positions(batch),
          ran := u.ran + Positions(batch[..k]), visited := u.visited + SeqsOf(u.log, batch[..k])),
       c, Working(batch, k))
  }

  function AfterBatch(u: State, c: nat, n: nat): State
    requires CanRead(u, c, n)
  {
    var batch := Unread(u, n);
    var done, maxSeq := Positions(batch), MaxSeq(u.log, batch);
    At(u.(cursor := Front(u) + n, pending := u.pending + done - done, ran := u.ran + done,
          visited := u.visited + SeqsOf(u.log, batch), acked := u.acked + done),
       c, if 0 < maxSeq then Acked(maxSeq) else Idle)
  }

  lemma BatchIsRead(u: State, c: nat, n: nat)
    requires CanRead(u, c, n)
    ensures Enabled(u, Read(c, n, true)) && Apply(u, Read(c, n, true)) == BatchHandled(u, c, n, 0)
  {
    var batch := Unread(u, n);
    assert batch[..0] == [] && SeqsOf(u.log, []) == {} && Positions([]) == {};
    assert u.ran + {} == u.ran && u.visited + {} == u.visited;
  }

  lemma HandledGrows(u: State, batch: seq<nat>, k: nat)
    requires k < |batch| && forall j | 0 <= j < |batch| :: batch[j] < |u.log|
    ensures var pos := batch[k];
      var hit := if u.log[pos] == 0 then {} else {u.log[pos]};
      && u.ran + Positions(batch[..k]) + {pos} == u.ran + Positions(batch[..k + 1])
      && u.visited + SeqsOf(u.log, batch[..k]) + hit == u.visited + SeqsOf(u.log, batch[..k + 1])
  {
    assert batch[..k + 1] == batch[..k] + [batch[k]];
    SeqsGrow(u.log, batch, k);
  }

  lemma EntryIsHandled(u: State, c: nat, n: nat, k: nat)
    requires CanRead(u, c, n) && k < n
    ensures var v := BatchHandled(u, c, n, k);
      Enabled(v, Process(c)) && Apply(v, Process(c)) == BatchHandled(u, c, n, k + 1)
  {
    var v := BatchHandled(u, c, n, k);
    HandledGrows(u, Unread(u, n), k);
    assert Apply(v, Process(c)).consumers == BatchHandled(u, c, n, k + 1).consumers;
  }

  lemma SeqsGrow(log: seq<nat>, batch: seq<nat>, k: nat)
    requires k < |batch| && forall j | 0 <= j < |batch| :: batch[j] < |log|
    ensures SeqsOf(log, batch[..k + 1]) == SeqsOf(log, batch[..k]) + if log[batch[k]] == 0 then {} else {log[batch[k]]}
  {
    var a, b := batch[..k], batch[..k + 1];
    assert forall j | 0 <= j < k :: a[j] == b[j];
    forall q | q in SeqsOf(log, b) ensures q in SeqsOf(log, a) || q == log[batch[k]] {
      var j :| 0 <= j < |b| && 0 < log[b[j]] && log[b[j]] == q;
      assert j < k ==> log[a[j]] == q;
    }
    forall q | q in SeqsOf(log, a) ensures q in SeqsOf(log, b) {
      var j :| 0 <= j < |a| && 0 < log[a[j]] && log[a[j]] == q;
      assert log[b[j]] == q;
    }
    if 0 < log[batch[k]] {
      assert log[b[k]] == log[batch[k]];
    }
  }

  lemma BatchIsAcked(u: State, c: nat, n: nat)
    requires CanRead(u, c, n)
    ensures var v := BatchHandled(u, c, n, n);
      Enabled(v, Ack(c, true)) && Apply(v, Ack(c, true)) == AfterBatch(u, c, n)
  {
    var batch, v := Unread(u, n), BatchHandled(u, c, n, n);
    assert batch[..n] == batch;
    assert Apply(v, Ack(c, true)).consumers == AfterBatch(u, c, n).consumers;
  }

  lemma HandleEntry(s: State, c: nat, n: nat, u: State, k: nat, v: State, pre: seq<Action>)
    returns (tr: seq<Action>, w: State)
    requires CanRead(u, c, n) && k < n && v == BatchHandled(u, c, n, k) && Reaches(s, pre, v)
    ensures w == BatchHandled(u, c, n, k + 1) && Reaches(s, tr, w)
  {
    EntryIsHandled(u, c, n, k);
    w := BatchHandled(u, c, n, k + 1);
    tr := Reach(s, pre, v, Process(c), w);
  }

  lemma {:induction false} HandleEntries(s: State, c: nat, n: nat, u: State, k: nat, v: State, pre: seq<Action>)
    returns (tr: seq<Action>, w: State)
    requires CanRead(u, c, n) && k <= n && v == BatchHandled(u, c, n, k) && Reaches(s, pre, v)
    ensures w == BatchHandled(u, c, n, n) && Reaches(s, tr, w)
    decreases n - k
  {
    tr, w := pre, v;
    if k < n {
      tr, w := HandleEntry(s, c, n, u, k, v, pre);
      tr, w := HandleEntries(s, c, n, u, k + 1, w, tr);
    }
  }

  lemma ConsumeBatch(s: State, c: nat, n: nat, pre: seq<Action>, u: State) returns (tr: seq<Action>)
    requires Reaches(s, pre, u) && CanRead(u, c, n)
    ensures Reaches(s, tr, AfterBatch(u, c, n))
  {
    BatchIsRead(u, c, n);
    var v := BatchHandled(u, c, n, 0);
    tr := Reach(s, pre, u, Read(c, n, true), v);
    tr, v := HandleEntries(s, c, n, u, 0, v, tr);
    BatchIsAcked(u, c, n);
    tr := Reach(s, tr, v, Ack(c, true), AfterBatch(u, c, n));
  }

  lemma DoomedAfterBatch(u: State, c: nat, i: nat, n: nat)
    requires Doomed(u, c, i) && CanRead(u, c, n)
    ensures var t := AfterBatch(u, c, n);
      if MaxSeq(u.log, Unread(u, n)) == 0 then Doomed(t, c, i)
      else Enabled(t, Advance(c, true)) && Lost(Apply(t, Advance(c, true)), i)
  {
    var batch, t := Unread(u, n), AfterBatch(u, c, n);
    MaxSeqIsSome(u.log, batch);
    assert u.log[i] !in SeqsOf(u.log, batch);
    assert i !in Positions(batch);
  }

  lemma DoomedPublishes(u: State, c: nat, i: nat, u1: State, u2: State)
    requires Doomed(u, c, i) && Front(u) == |u.log|
    requires var q := u.committed + 1;
      u1 == u.(outbox := u.outbox + {q}, committed := q) && u2 == u1.(log := u1.log + [q], relayed := q)
    ensures Doomed(u2, c, i) && Front(u2) + 1 == |u2.log| && 0 < u2.log[Front(u2)]
  {
  }

  /** Such a consumer loses the event just by consuming the next batch of the stream with an event in it, or with
      nothing left to read, the next event published. */
  lemma {:induction false} DoomedLoses(s: State, c: nat, i: nat, pre: seq<Action>, u: State)
    returns (tr: seq<Action>, v: State)
    requires Reaches(s, pre, u) && Doomed(u, c, i)
    ensures Reaches(s, tr, v) && Lost(v, i)
    decreases |u.log| - Front(u)
  {
    if Front(u) == |u.log| {
      var q := u.committed + 1;
      var u1 := u.(outbox := u.outbox + {q}, committed := q);
      var u2 := u1.(log := u1.log + [q], relayed := q);
      DoomedPublishes(u, c, i, u1, u2);
      tr := Reach(s, pre, u, Commit(q), u1);
      tr := Reach(s, tr, u1, Relay(q), u2);
      OneRealEntry(u2);
      tr, v := DoomedReads(s, c, i, 1, tr, u2);
    } else {
      var unread := |u.log| - Front(u);
      var n := if unread <= READ_COUNT then unread else READ_COUNT;
      if 0 < MaxSeq(u.log, Unread(u, n)) {
        tr, v := DoomedReads(s, c, i, n, pre, u);
      } else {
        tr := ConsumeBatch(s, c, n, pre, u);
        DoomedAfterBatch(u, c, i, n);
        tr, v := DoomedLoses(s, c, i, tr, AfterBatch(u, c, n));
      }
    }
  }

  lemma OneRealEntry(u: State)
    requires Front(u) < |u.log| && 0 < u.log[Front(u)]
    ensures MaxSeq(u.log, Unread(u, 1)) == u.log[Front(u)]
  {
    assert Unread(u, 1) == [Front(u)] && Unread(u, 1)[..0] == [];
  }

  /** Consuming a batch with a real event takes the watermark past the unhandled one. */
  lemma DoomedReads(s: State, c: nat, i: nat, n: nat, pre: seq<Action>, u: State) returns (tr: seq<Action>, v: State)
    requires Reaches(s, pre, u) && Doomed(u, c, i) && CanRead(u, c, n) && 0 < MaxSeq(u.log, Unread(u, n))
    ensures Reaches(s, tr, v) && Lost(v, i)
  {
    tr := ConsumeBatch(s, c, n, pre, u);
    DoomedAfterBatch(u, c, i, n);
    v := Apply(AfterBatch(u, c, n), Advance(c, true));
    tr := Reach(s, tr, AfterBatch(u, c, n), Advance(c, true), v);
  }

  // ---- Exactly when a consumer past its startup is safe --------------------------------------------

  /** The same state with other consumers. */
  predicate SameBut(s: State, t: State) { t == s.(consumers := t.consumers) }

  /** Crashing is healthy, so a healthy run leads to the same state with all other consumers down. */
  lemma {:induction false} CrashOthers(s: State, c: nat, up: set<nat>, pre: seq<Action>, u: State)
    returns (tr: seq<Action>, v: State)
    requires Reaches(s, pre, u) && forall d <- u.consumers | d != c && !u.consumers[d].Down? :: d in up
    ensures Reaches(s, tr, v) && SameBut(u, v) && Alone(v, c) && PhaseOf(v, c) == PhaseOf(u, c)
    decreases |up|
  {
    if d :| d in u.consumers && d != c && !u.consumers[d].Down? {
      tr := Reach(s, pre, u, Crash(d), At(u, d, Down));
      tr, v := CrashOthers(s, c, up - {d}, tr, At(u, d, Down));
    } else {
      tr, v := pre, u;
    }
  }

  /** Past its startup with an unhandled event behind the group's next read, alone or not. */
  ghost predicate Exposed(t: State, c: nat, i: nat) {
    && PhaseOf(t, c).Idle? && t.group && Shape(t) && Ordered(t) && i < |t.log| && i < Front(t) && !Covered(t, i)
  }

  lemma ExposedLoses(s: State, c: nat, i: nat, pre: seq<Action>, t: State)
    requires Reaches(s, pre, t) && Exposed(t, c, i)
    ensures !NeverLoses(s)
  {
    var tr, u := CrashOthers(s, c, t.consumers.Keys, pre, t);
    assert Covered(u, i) == Covered(t, i);
    var tr', v := DoomedLoses(s, c, i, tr, u);
  }

  lemma Stays(s: State)
    ensures Reaches(s, [], s)
  {
  }

  lemma InvNeverLoses(t: State)
    requires Inv(t)
    ensures NeverLoses(t)
  {
    forall tr: seq<Action>, u: State, i: nat | Reaches(t, tr, u) ensures !Lost(u, i) { RunKeepsInv(t, tr); }
  }

  /** Nothing a phase relies on is in the consumers' own phases. */
  lemma PhaseOkStays(s: State, t: State, p: Phase)
    requires PhaseOk(s, p) && SameBut(s, t)
    ensures PhaseOk(t, p)
  {
    forall i | 0 <= i < |s.log| ensures Covered(t, i) == Covered(s, i) { }
  }

  /** For a state with a consumer past its startup, whatever the others are doing: nothing can be lost if and only
      if every entry behind the group's next read is handled or pending. */
  lemma IdleIsSafeIffCaught(t: State, c: nat)
    requires t.group && Base(t) && PhaseOf(t, c).Idle? && forall d <- t.consumers | d != c :: PhaseOk(t, t.consumers[d])
    ensures NeverLoses(t) <==> Caught(t)
  {
    if Caught(t) {
      InvNeverLoses(t);
    } else {
      var i :| 0 <= i < |t.log| && i < Front(t) && !Covered(t, i);
      Stays(t);
      ExposedLoses(t, c, i, [], t);
    }
  }

  // ---- Aborted startups ----------------------------------------------------------------------------

  /** The steps that end a startup without finishing its backfill. */
  predicate Aborts(s: State, a: Action) {
    a.MarkError? || a.FirstError? || a.ScanError? || (a.ReadFirst? && FirstSeq(s) == 0)
  }

  lemma AbortedState(s: State, a: Action, t: State)
    requires Inv(s) && Enabled(s, a) && Aborts(s, a) && t == Apply(s, a)
    ensures t.group && Base(t) && PhaseOf(t, a.c).Idle? && (Caught(t) <==> Caught(s))
    ensures forall d <- t.consumers | d != a.c :: PhaseOk(t, t.consumers[d])
  {
    StepIsSound(s, a);
    assert t == At(s, a.c, Idle);
    forall i | 0 <= i < |s.log| ensures Covered(t, i) == Covered(s, i) { }
    forall d <- t.consumers | d != a.c ensures PhaseOk(t, t.consumers[d]) { PhaseOkStays(s, t, s.consumers[d]); }
  }

  /** Exactly when an aborted startup is harmless, whatever the other consumers are doing: ending it early leaves no
      way to lose an event if and only if every entry behind the group's next read is already handled or pending. */
  lemma AbortIsSafeIffCaught(s: State, a: Action)
    requires Inv(s) && Enabled(s, a) && Aborts(s, a)
    ensures NeverLoses(Apply(s, a)) <==> Caught(s)
  {
    AbortedState(s, a, Apply(s, a));
    IdleIsSafeIffCaught(Apply(s, a), a.c);
  }

  /** For a scan that fails at `cursor`, the entries in question are those still in the outbox between
      the cursor and the stream head. */
  lemma GapOfAbortedScan(s: State, c: nat)
    requires Inv(s) && PhaseOf(s, c).Scanning?
    ensures var p := PhaseOf(s, c);
      Caught(s) <==>
        forall i | 0 <= i < |s.log| && i < Front(s) && p.cursor < s.log[i] <= p.first && s.log[i] in s.outbox ::
          Covered(s, i)
  {
    assert PhaseOk(s, PhaseOf(s, c));
    forall i | 0 <= i < |s.log| && s.log[i] !in s.outbox ensures Covered(s, i) { }
  }

  // ---- Runs that get there -------------------------------------------------------------------------

  /** Event n + 1 published after events 1 to n. */
  lemma PublishNext(s: State, tr: seq<Action>, u: State, q: nat, t: State) returns (next: seq<Action>)
    requires Reaches(s, tr, u) && u.committed < q && u.relayed < q
    requires t == u.(outbox := u.outbox + {q}, committed := q, log := u.log + [q], relayed := q)
    ensures Reaches(s, next, t)
  {
    var u1 := u.(outbox := u.outbox + {q}, committed := q);
    next := Reach(s, tr, u, Commit(q), u1);
    next := Reach(s, next, u1, Relay(q), t);
  }

  /** Startup of consumer 0, which nobody has seen yet, up to the watermark it reads. */
  lemma StartUp(s: State, tr: seq<Action>, u: State, t: State) returns (next: seq<Action>)
    requires Reaches(s, tr, u) && u.group && u.consumers == map[] && t == u.(consumers := map[0 := Probed(u.watermark)])
    ensures Reaches(s, next, t)
  {
    next := Reach(s, tr, u, Boot(0), At(u, 0, Starting));
    assert At(u, 0, Starting).consumers[0 := Probed(u.watermark)] == map[0 := Probed(u.watermark)];
    next := Reach(s, next, At(u, 0, Starting), ReadMark(0), t);
  }

  /** Three events published, the first two trimmed in downtime before the group read anything. */
  const Trimmed := Init.(outbox := {1, 2, 3}, committed := 3, log := [1, 2, 3], relayed := 3, trimmed := 2)

  lemma TrimmedIsReached(s: State) returns (tr: seq<Action>)
    requires s == Init.(group := s.group)
    ensures Reaches(s, tr, Trimmed.(group := s.group))
  {
    var u1 := s.(outbox := {1}, committed := 1, log := [1], relayed := 1);
    var u2 := s.(outbox := {1, 2}, committed := 2, log := [1, 2], relayed := 2);
    var u3 := s.(outbox := {1, 2, 3}, committed := 3, log := [1, 2, 3], relayed := 3);
    Stays(s);
    tr := PublishNext(s, [], s, 1, u1);
    tr := PublishNext(s, tr, u1, 2, u2);
    tr := PublishNext(s, tr, u2, 3, u3);
    assert AllDown(u3);
    tr := Reach(s, tr, u3, Trim(2), Trimmed.(group := s.group));
  }

  /** The startup finds the gap (0, 3]. */
  const AbortedScan := Trimmed.(consumers := map[0 := Scanning(3, 0)])

  /** A healthy run leads to a scan whose failure is not made good: that consumer goes on to consume, and the gap is
      not "still there for the next startup". */
  lemma AbortedScanLoses() returns (tr: seq<Action>)
    ensures Reaches(Init, tr, AbortedScan) && Enabled(AbortedScan, ScanError(0))
    ensures !NeverLoses(Apply(AbortedScan, ScanError(0)))
  {
    var s, t := AbortedScan, Trimmed.(consumers := map[0 := Probed(0)]);
    tr := TrimmedIsReached(Init);
    tr := StartUp(Init, tr, Trimmed, t);
    assert t.consumers[0 := Scanning(3, 0)] == map[0 := Scanning(3, 0)];
    tr := Reach(Init, tr, t, ReadFirst(0), s);
    RunKeepsInv(Init, tr);
    assert s.log[0] == 1 && !Covered(s, 0);
    AbortIsSafeIffCaught(s, ScanError(0));
  }

  /** The same stream with event 3 not published and a poison entry at its head. */
  const PoisonHead :=
    Init.(outbox := {1}, committed := 1, log := [1, 0], relayed := 1, trimmed := 1, consumers := map[0 := Probed(0)])

  /** A healthy run leads to a startup that meets a poison head, reads it as 0, skips the backfill, and loses. */
  lemma PoisonHeadLoses() returns (tr: seq<Action>)
    ensures Reaches(Init, tr, PoisonHead) && Enabled(PoisonHead, ReadFirst(0)) && FirstSeq(PoisonHead) == 0
    ensures !NeverLoses(Apply(PoisonHead, ReadFirst(0)))
  {
    var u1 := Init.(outbox := {1}, committed := 1, log := [1], relayed := 1);
    var u2 := u1.(log := [1, 0]);
    var u3 := u2.(trimmed := 1);
    Stays(Init);
    tr := PublishNext(Init, [], Init, 1, u1);
    tr := Reach(Init, tr, u1, Poison, u2);
    assert AllDown(u2);
    tr := Reach(Init, tr, u2, Trim(1), u3);
    tr := StartUp(Init, tr, u3, PoisonHead);
    RunKeepsInv(Init, tr);
    assert !Covered(PoisonHead, 0);
    AbortIsSafeIffCaught(PoisonHead, ReadFirst(0));
  }
}
