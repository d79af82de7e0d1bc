/** The consumer's own loops, run against a broker that anyone else may use between two of its commands.
    The broker records every command, so a method that keeps `Valid` has taken protocol steps only, in
    an order the step relation allows, whatever the others did in between. */
module EventConsumer {
  import opened Runs
  import opened EventProtocol
  import opened EventSafety
  import opened EventNoLoss
  import opened EventLoss

  /** What every step keeps of the outbox and the relay, in any environment. */
  ghost predicate Tidy(s: State) {
    && Sound(s) && (forall q <- s.outbox :: q <= s.committed)
    && (forall i | 0 <= i < |s.log| :: s.log[i] <= s.committed)
  }

  lemma StepKeepsTidy(s: State, a: Action)
    requires Tidy(s) && Enabled(s, a)
    ensures Tidy(Apply(s, a))
  {
    StepIsSound(s, a);
  }

  /** What each consumer called the handler on so far, in order, with every repetition. */
  type Calls = map<nat, seq<nat>>

  function CallsOf(calls: Calls, c: nat): seq<nat> { if c in calls then calls[c] else [] }

  /** A command noted: its consumer called the handler on what it handles. */
  function Noted(calls: Calls, s: State, a: Action): Calls
    requires Enabled(s, a)
  {
    if Actor(a) < 0 then calls else calls[Actor(a) := CallsOf(calls, Actor(a)) + HandledBy(s, a)]
  }

  datatype Entry = Entry(s: State, calls: Calls)

  ghost predicate Follows(x: Entry, a: Action, y: Entry) {
    Enabled(x.s, a) && y == Entry(Apply(x.s, a), Noted(x.calls, x.s, a))
  }

  /** The handler calls of consumer c along a run. */
  ghost function HandledFor(s: State, tr: seq<Action>, c: nat): seq<nat>
    requires Legal(s, tr)
    decreases |tr|
  {
    if tr == [] then []
    else
      var n := |tr| - 1;
      HandledFor(s, tr[..n], c) + if Actor(tr[n]) == c then HandledBy(Exec(s, tr[..n]), tr[n]) else []
  }

  /** Such a record is a run of the step relation, and its notes are the handler calls along that run. */
  lemma {:induction false} RecordIsRun(entries: seq<Entry>, tr: seq<Action>)
    requires IsRun(Follows, entries, tr) && entries[0].calls == map[]
    ensures Legal(entries[0].s, tr) && Exec(entries[0].s, tr) == entries[|tr|].s
    ensures forall c :: CallsOf(entries[|tr|].calls, c) == HandledFor(entries[0].s, tr, c)
    ensures Tidy(entries[0].s) ==> Tidy(entries[|tr|].s)
    ensures forall c, q | q in CallsOf(entries[|tr|].calls, c) :: q in entries[|tr|].s.visited
    decreases |tr|
  {
    if tr != [] {
      var n := |tr| - 1;
      RunShrinks(Follows, entries, tr);
      StepVisits(entries[n].s, tr[n]);
      RecordIsRun(entries[..n + 1], tr[..n]);
      assert Follows(entries[n], tr[n], entries[n + 1]);
      if Tidy(entries[0].s) {
        StepKeepsTidy(entries[n].s, tr[n]);
      }
    }
  }

  /** The outbox rows up to `upto` are the same in both. */
  ghost predicate SameRows(s: State, t: State, upto: nat) {
    forall q | q <= upto :: q in s.outbox <==> q in t.outbox
  }

  /** Rows are only added, above all committed ones, unless some are purged or committed late. */
  ghost predicate OutboxMoves(s: State, t: State) {
    && s.batchRows == t.batchRows && s.committed <= t.committed && s.rewrites <= t.rewrites
    && (s.rewrites == t.rewrites ==> SameRows(s, t, s.committed))
  }

  /** What a step of someone else leaves alone. */
  lemma OtherStep(s: State, a: Action, me: nat)
    requires Enabled(s, a) && Actor(a) != me
    ensures PhaseOf(Apply(s, a), me) == PhaseOf(s, me) && Grows(s, Apply(s, a)) && OutboxMoves(s, Apply(s, a))
  {
    StepGrows(s, a);
    StepMovesOutbox(s, a);
  }

  lemma StepMovesOutbox(s: State, a: Action)
    requires Enabled(s, a)
    ensures OutboxMoves(s, Apply(s, a))
  {
  }

  lemma AckIs(s: State, c: nat, ok: bool)
    requires Enabled(s, Ack(c, ok))
    ensures var t, batch := Apply(s, Ack(c, ok)), PhaseOf(s, c).batch;
      && Grows(s, t) && t.log == s.log
      && PhaseOf(t, c) == (if ok && 0 < MaxSeq(s.log, batch) then Acked(MaxSeq(s.log, batch)) else Idle)
      && SameStream(s, t, Left(s.pending, batch, ok))
      && (ok ==> forall k | 0 <= k < |batch| :: batch[k] in t.acked)
  {
  }

  lemma AdvanceIs(s: State, c: nat, ok: bool)
    requires Enabled(s, Advance(c, ok))
    ensures var t := Apply(s, Advance(c, ok));
      && Grows(s, t) && t.log == s.log && PhaseOf(t, c) == Idle && (ok ==> PhaseOf(s, c).maxSeq <= t.watermark)
      && SameStream(s, t, s.pending)
  {
  }

  /** The events among the entries of a batch; poison entries are none. */
  function Events(log: seq<nat>, batch: seq<nat>): seq<nat> {
    if batch == [] || batch[|batch| - 1] >= |log| then []
    else
      var q := log[batch[|batch| - 1]];
      Events(log, batch[..|batch| - 1]) + if q == 0 then [] else [q]
  }

  lemma {:induction false} EventsStable(log: seq<nat>, more: seq<nat>, batch: seq<nat>)
    requires log <= more && forall i | 0 <= i < |batch| :: batch[i] < |log|
    ensures Events(log, batch) == Events(more, batch)
  {
    if batch != [] {
      EventsStable(log, more, batch[..|batch| - 1]);
    }
  }

  /** At the recorded moment `at`, not before `from`, consumer c took over the stale entries if they could be claimed
      then, and otherwise none. */
  ghost predicate TookOver(trace: seq<Action>, entries: seq<Entry>, c: nat, from: nat, at: nat,
                           stale: seq<nat>, batch: seq<nat>) {
    && from <= at < |entries| && batch == (if Claimable(entries[at].s, stale) then stale else [])
    && (batch != [] ==> at < |trace| && trace[at] == Claim(c, stale))
  }

  /** And likewise read the next `count` unread entries, if there were as many; the reply may have been lost. */
  ghost predicate TookNext(trace: seq<Action>, entries: seq<Entry>, c: nat, from: nat, at: nat,
                           count: nat, replied: bool, batch: seq<nat>) {
    && from <= at < |entries|
    && batch == (if replied && Readable(entries[at].s, count) then Unread(entries[at].s, count) else [])
    && (Readable(entries[at].s, count) ==> at < |trace| && trace[at] == Read(c, count, replied))
  }

  lemma ClaimStays(tr1: seq<Action>, en1: seq<Entry>, tr2: seq<Action>, en2: seq<Entry>,
                   c: nat, from: nat, at: nat, stale: seq<nat>, batch: seq<nat>)
    requires tr1 <= tr2 && en1 <= en2 && TookOver(tr1, en1, c, from, at, stale, batch)
    ensures TookOver(tr2, en2, c, from, at, stale, batch)
  {
    assert en1[at] == en2[at];
  }

  lemma NextStays(tr1: seq<Action>, en1: seq<Entry>, tr2: seq<Action>, en2: seq<Entry>,
                  c: nat, from: nat, at: nat, count: nat, replied: bool, batch: seq<nat>)
    requires tr1 <= tr2 && en1 <= en2 && TookNext(tr1, en1, c, from, at, count, replied, batch)
    ensures TookNext(tr2, en2, c, from, at, count, replied, batch)
  {
    assert en1[at] == en2[at];
  }

  /** The record of a session that claims first and reads then. */
  lemma RecordOfSession(tr0: seq<Action>, en0: seq<Entry>, tr1: seq<Action>, en1: seq<Entry>,
                        tr2: seq<Action>, en2: seq<Entry>, c: nat, claimAt: nat, readAt: nat, stale: seq<nat>,
                        claimed: seq<nat>, count: nat, replied: bool, fetched: seq<nat>)
    requires tr0 <= tr1 <= tr2 && en0 <= en1 <= en2 && |en1| == |tr1| + 1
    requires TookOver(tr1, en1, c, |tr0|, claimAt, stale, claimed)
    requires TookNext(tr2, en2, c, |tr1|, readAt, count, replied, fetched)
    ensures tr0 <= tr2 && en0 <= en2 && TookOver(tr2, en2, c, |tr0|, claimAt, stale, claimed)
    ensures TookNext(tr2, en2, c, claimAt, readAt, count, replied, fetched)
  {
    ClaimStays(tr1, en1, tr2, en2, c, |tr0|, claimAt, stale, claimed);
  }

  /** Redis, the outbox table, and everyone else. */
  class Broker {
    var s: State
    var others: seq<seq<Action>>  // what others attempt before each further command
    ghost const origin: State
    ghost var calls: Calls
    ghost var trace: seq<Action>  // every command so far, and the states around them
    ghost var entries: seq<Entry>

    ghost predicate Valid() reads this {
      IsRun(Follows, entries, trace) && entries[0] == Entry(origin, map[]) && entries[|trace|] == Entry(s, calls)
    }

    /** The record goes on from an earlier one. */
    ghost predicate Extends(before: seq<Action>, earlier: seq<Entry>) reads this {
      before <= trace && earlier <= entries
    }

    /** Consumer c took over the stale entries it could. */
    ghost predicate Claimed(c: nat, from: nat, at: nat, stale: seq<nat>, batch: seq<nat>) reads this {
      TookOver(trace, entries, c, from, at, stale, batch)
    }

    /** And read the unread entries it could. */
    ghost predicate Fetched(c: nat, from: nat, at: nat, count: nat, replied: bool, batch: seq<nat>) reads this {
      TookNext(trace, entries, c, from, at, count, replied, batch)
    }

    /** What consumer c called the handler on so far. */
    ghost function Calls(c: nat): seq<nat> reads this { CallsOf(calls, c) }

    constructor (origin: State, others: seq<seq<Action>>)
      ensures Valid() && s == origin && this.origin == origin && trace == [] && calls == map[]
    {
      this.s, this.origin, this.others := origin, origin, others;
      this.trace, this.calls, this.entries := [], map[], [Entry(origin, map[])];
    }

    method Do(a: Action)
      requires Valid() && Enabled(s, a)
      modifies this`s, this`calls, this`trace, this`entries
      ensures Valid() && s == Apply(old(s), a) && trace == old(trace) + [a] && calls == Noted(old(calls), old(s), a)
      ensures entries == old(entries) + [Entry(s, calls)]
    {
      var next := Entry(Apply(s, a), Noted(calls, s, a));
      assert Follows(Entry(s, calls), a, next);
      RunGrows(Follows, entries, trace, a, next);
      calls := Noted(calls, s, a);
      s := Apply(s, a);
      trace, entries := trace + [a], entries + [next];
    }

    /** Others take any steps of theirs that are possible; consumer `me` takes none. */
    method Yield(me: nat)
      requires Valid()
      modifies this
      ensures Valid() && Extends(old(trace), old(entries))
      ensures old(others) == [] ==> others == [] && s == old(s) && trace == old(trace)
      ensures PhaseOf(s, me) == PhaseOf(old(s), me) && Grows(old(s), s) && OutboxMoves(old(s), s)
      ensures Calls(me) == old(Calls(me)) && forall k | |old(trace)| <= k < |trace| :: Actor(trace[k]) != me
    {
      if others == [] { return; }
      var todo := others[0];
      others := others[1..];
      for i := 0 to |todo|
        invariant Valid() && Extends(old(trace), old(entries))
        invariant PhaseOf(s, me) == PhaseOf(old(s), me) && Grows(old(s), s) && OutboxMoves(old(s), s)
        invariant Calls(me) == old(Calls(me)) && forall k | |old(trace)| <= k < |trace| :: Actor(trace[k]) != me
      {
        if Enabled(s, todo[i]) && Actor(todo[i]) != me {
          ghost var before := trace;
          OtherStep(s, todo[i], me);
          Do(todo[i]);
          assert trace[|before|] == todo[i];
        }
      }
    }
  }

  // ---- One scan of the whole range against many bounded ones --------------------------------------

  /** A bounded scan is the one-shot scan up to its own last row. */
  lemma {:induction false} ScanIsPrefix(outbox: set<nat>, after: nat, upto: nat, limit: nat)
    requires 1 <= limit && ScanRange(outbox, after, upto, limit) != []
    ensures var rows := ScanRange(outbox, after, upto, limit);
      after < rows[|rows| - 1] <= upto && rows == Rows(outbox, after, rows[|rows| - 1])
    decreases upto - after
  {
    var rows := ScanRange(outbox, after, upto, limit);
    ScanIs(outbox, after, upto, limit);
    if after + 1 in outbox {
      var last := rows[|rows| - 1];
      if |rows| == 1 {
        assert rows == [after + 1];
      } else {
        assert ScanRange(outbox, after + 1, upto, limit - 1) == rows[1..];
        ScanIsPrefix(outbox, after + 1, upto, limit - 1);
      }
    } else {
      ScanIsPrefix(outbox, after + 1, upto, limit);
    }
  }

  lemma {:induction false} MaxSeqStable(log: seq<nat>, more: seq<nat>, batch: seq<nat>)
    requires log <= more && forall i | 0 <= i < |batch| :: batch[i] < |log|
    ensures MaxSeq(log, batch) == MaxSeq(more, batch)
  {
    if batch != [] {
      MaxSeqStable(log, more, batch[..|batch| - 1]);
    }
  }

  /** One more entry of a batch, after the log has grown. */
  lemma BatchGrows(log: seq<nat>, more: seq<nat>, batch: seq<nat>, i: nat)
    requires log <= more && i < |batch| && forall k | 0 <= k < |batch| :: batch[k] < |log|
    ensures batch[..i + 1] == batch[..i] + [batch[i]]
    ensures MaxSeq(more, batch[..i + 1]) == Max(MaxSeq(log, batch[..i]), more[batch[i]])
    ensures Events(more, batch[..i + 1]) ==
      Events(log, batch[..i]) + if more[batch[i]] == 0 then [] else [more[batch[i]]]
  {
    assert batch[..i + 1][..i] == batch[..i];
    MaxSeqStable(log, more, batch[..i]);
    EventsStable(log, more, batch[..i]);
  }

  lemma CloseIs(s: State, c: nat, ok: bool)
    requires Enabled(s, CloseBatch(c, ok))
    ensures var t, p := Apply(s, CloseBatch(c, ok)), PhaseOf(s, c);
      var last := p.rows[|p.rows| - 1];
      && PhaseOf(t, c) == (if p.first <= last then Idle else Scanning(p.first, last))
      && (ok ==> last <= t.watermark) && s.watermark <= t.watermark && s.visited == t.visited && OutboxMoves(s, t)
  {
  }

  /** What a startup reads is the same in both. */
  predicate SameEvents(s: State, t: State) {
    && t.log == s.log && t.trimmed == s.trimmed && t.outbox == s.outbox
    && t.watermark == s.watermark && t.rewrites == s.rewrites
  }

  // ---- What a session does to the stream -----------------------------------------------------------

  /** The group can hand these entries over once more. */
  predicate Claimable(s: State, stale: seq<nat>) {
    s.group && 1 <= |stale| <= 64 && forall p <- stale :: p in s.pending && p < |s.log|
  }

  /** There are `count` unread entries, as many as one read may return. */
  predicate Readable(s: State, count: nat) { s.group && 1 <= count <= 64 && Front(s) + count <= |s.log| }

  function NextBatch(s: State, count: nat): seq<nat> { if Readable(s, count) then Unread(s, count) else [] }

  /** Every entry of the batch was handled; and acked, and at or below the watermark, where that was done. */
  predicate Dealt(s: State, batch: seq<nat>, acked: bool, marked: bool) {
    forall k | 0 <= k < |batch| ::
      && batch[k] < |s.log| && batch[k] in s.ran && (acked ==> batch[k] in s.acked)
      && (acked && marked ==> s.log[batch[k]] <= s.watermark)
  }

  lemma DealtStays(s: State, t: State, batch: seq<nat>, acked: bool, marked: bool)
    requires Dealt(s, batch, acked, marked) && Grows(s, t)
    ensures Dealt(t, batch, acked, marked) && Events(t.log, batch) == Events(s.log, batch)
  {
    EventsStable(s.log, t.log, batch);
  }

  /** The stream and the group are as before, but for what is pending. */
  predicate SameStream(s: State, t: State, pending: set<nat>) {
    t.log == s.log && t.trimmed == s.trimmed && t.group == s.group && t.cursor == s.cursor && t.pending == pending
  }

  function Left(pending: set<nat>, batch: seq<nat>, acked: bool): set<nat> {
    if acked then pending - Positions(batch) else pending
  }

  /** After a read of `fetched`, and an ack of it if `acked`. */
  predicate StreamRead(s: State, t: State, fetched: seq<nat>, acked: bool) {
    && t.log == s.log && t.trimmed == s.trimmed && t.group == s.group
    && t.cursor == (if fetched == [] then s.cursor else Front(s) + |fetched|)
    && t.pending == Left(s.pending + Positions(fetched), fetched, acked)
  }

  /** A session with nobody else at work: it takes over the stale entries if they can be claimed, and reads exactly
      the next `count` unread entries if there are as many. */
  predicate SessionAlone(s: State, t: State, stale: seq<nat>, claimed: seq<nat>, staleAcked: bool,
                         count: nat, replied: bool, fetched: seq<nat>, ackOk: bool) {
    var taken := NextBatch(s, count);
    && claimed == (if Claimable(s, stale) then stale else [])
    && fetched == (if replied then taken else [])
    && t.log == s.log && t.trimmed == s.trimmed && t.group == s.group
    && t.cursor == (if taken == [] then s.cursor else Front(s) + count)
    && t.pending == Left(Left(s.pending, claimed, staleAcked) + Positions(taken), taken, replied && ackOk)
  }

  /** Up to `limit` pending entries: what the idle time may single out. */
  method SomeOf(pending: set<nat>, limit: nat) returns (r: seq<nat>)
    requires 0 < limit
    ensures |r| <= limit && (r == [] <==> pending == {}) && forall p <- r :: p in pending
  {
    r := [];
    var left := pending;
    while left != {} && |r| < limit
      invariant |r| <= limit && left <= pending && forall p <- r :: p in pending
      invariant if r == [] then left == pending else pending != {}
      decreases |left|
    {
      var p :| p in left;
      r, left := r + [p], left - {p};
    }
  }

  /** What draining has done between s0 and s. */
  ghost predicate Progress(s0: State, s: State, acks: bool, marks: bool) {
    && s.log == s0.log && s.group && Front(s0) <= Front(s) <= |s.log| && (forall p <- s.pending :: p < Front(s))
    && (forall p | Front(s0) <= p < Front(s) ::
          && p in s.ran && (acks ==> p in s.acked)
          && (acks && marks ==> s.log[p] <= s.watermark))
    && (acks ==> s.pending <= s0.pending && forall p <- s0.pending | p !in s.pending :: p in s.ran && p in s.acked)
  }

  lemma SessionDrains(s0: State, s: State, t: State, stale: seq<nat>, claimed: seq<nat>,
                      count: nat, fetched: seq<nat>, acks: bool, marks: bool)
    requires Progress(s0, s, acks, marks) && Grows(s, t)
    requires |stale| <= 64 && (stale == [] <==> s.pending == {}) && forall p <- stale :: p in s.pending
    requires count == if |s.log| - Front(s) <= 64 then |s.log| - Front(s) else 64
    requires SessionAlone(s, t, stale, claimed, acks, count, true, fetched, acks)
    requires Dealt(t, claimed, acks, marks) && Dealt(t, fetched, acks, marks)
    ensures Progress(s0, t, acks, marks)
    ensures Front(s) < |s.log| ==> Front(s) < Front(t)
    ensures acks && Front(s) == |s.log| && s.pending != {} ==> Front(t) == Front(s) && |t.pending| < |s.pending|
  {
    assert s.pending != {} ==> Claimable(s, stale);
    LeftIs(s.pending, claimed, fetched, acks);
    forall p | Front(s) <= p < Front(t)
      ensures p in t.ran && (acks ==> p in t.acked) && (acks && marks ==> t.log[p] <= t.watermark)
    {
      assert fetched[p - Front(s)] == p;
    }
    if acks {
      forall p <- s.pending | p !in t.pending ensures p in t.ran && p in t.acked {
        assert p in claimed || p in fetched;
      }
      if s.pending != {} {
        OneFewer(s.pending, claimed, fetched);
      }
    }
  }

  lemma LeftIs(pending: set<nat>, claimed: seq<nat>, fetched: seq<nat>, acks: bool)
    ensures forall p ::
      p in Left(Left(pending, claimed, acks) + Positions(fetched), fetched, acks) <==>
        if acks then p in pending && p !in claimed && p !in fetched else p in pending || p in fetched
  {
  }

  lemma OneFewer(pending: set<nat>, claimed: seq<nat>, fetched: seq<nat>)
    requires claimed != [] && claimed[0] in pending
    ensures |Left(Left(pending, claimed, true) + Positions(fetched), fetched, true)| < |pending|
  {
    var left := Left(Left(pending, claimed, true) + Positions(fetched), fetched, true);
    assert left <= pending - {claimed[0]};
    Fewer(left, pending - {claimed[0]});
  }

  lemma {:induction false} Fewer(a: set<nat>, b: set<nat>)
    requires a <= b
    ensures |a| <= |b|
  {
    if p :| p in a {
      Fewer(a - {p}, b - {p});
    }
  }

  lemma NoneLeft(pending: set<nat>, acked: bool)
    ensures Left(pending, [], acked) == pending
  {
  }

  lemma ReadComposes(s: State, s1: State, t: State, taken: seq<nat>, replied: bool, batch: seq<nat>, acked: bool)
    requires StreamRead(s, s1, taken, false) && batch == if replied then taken else []
    requires SameStream(s1, t, Left(s1.pending, batch, acked))
    ensures StreamRead(s, t, taken, replied && acked)
  {
  }

  lemma SessionComposes(s: State, s1: State, t: State, stale: seq<nat>, claimed: seq<nat>, staleAcked: bool,
                        count: nat, replied: bool, fetched: seq<nat>, ackOk: bool)
    requires claimed == (if Claimable(s, stale) then stale else [])
    requires SameStream(s, s1, Left(s.pending, claimed, staleAcked))
    requires fetched == (if replied then NextBatch(s1, count) else [])
    requires StreamRead(s1, t, NextBatch(s1, count), replied && ackOk)
    ensures SessionAlone(s, t, stale, claimed, staleAcked, count, replied, fetched, ackOk)
  {
  }

  lemma ClaimIs(s: State, c: nat, stale: seq<nat>)
    requires PhaseOf(s, c).Idle?
    ensures Enabled(s, Claim(c, stale)) <==> Claimable(s, stale)
    ensures Claimable(s, stale) ==>
      var t := Apply(s, Claim(c, stale));
      t == At(s, c, Working(stale, 0)) && forall k | 0 <= k < |stale| :: stale[k] < |t.log|
  {
    assert forall k | 0 <= k < |stale| :: stale[k] in stale;
  }

  lemma ReadIs(s: State, c: nat, n: nat, ok: bool)
    requires PhaseOf(s, c).Idle?
    ensures Enabled(s, Read(c, n, ok)) <==> Readable(s, n)
    ensures Readable(s, n) ==>
      var t, batch := Apply(s, Read(c, n, ok)), Unread(s, n);
      && Grows(s, t) && PhaseOf(t, c) == (if ok then Working(batch, 0) else Idle)
      && StreamRead(s, t, batch, false) && |batch| == n && forall k | 0 <= k < n :: batch[k] < |t.log|
  {
  }

  class EventTriggerConsumer {
    const broker: Broker
    const id: nat

    constructor (broker: Broker, id: nat)
      ensures this.broker == broker && this.id == id
    {
      this.broker, this.id := broker, id;
    }

    /** processEntry on the next entry of a batch; its seq. */
    method ProcessEntry(batch: seq<nat>, i: nat) returns (seqNo: nat)
      requires broker.Valid() && i < |batch| && PhaseOf(broker.s, id) == Working(batch, i) && batch[i] < |broker.s.log|
      modifies broker
      ensures broker.Valid() && broker.Extends(old(broker.trace), old(broker.entries)) && Grows(old(broker.s), broker.s)
      ensures PhaseOf(broker.s, id) == Working(batch, i + 1)
      ensures batch[i] < |broker.s.log| && seqNo == broker.s.log[batch[i]] && batch[i] in broker.s.ran
      ensures broker.Calls(id) == old(broker.Calls(id)) + if seqNo == 0 then [] else [seqNo]
      ensures old(broker.others) == [] ==>
        broker.others == [] && SameStream(old(broker.s), broker.s, old(broker.s).pending)
    {
      broker.Yield(id);
      broker.Do(Process(id));
      seqNo := broker.s.log[batch[i]];
    }

    /** The next entry of a batch that was begun in state s0. */
    method HandleNext(ghost s0: State, ghost record: (seq<Action>, seq<Entry>), ghost calls0: seq<nat>,
                      batch: seq<nat>, i: nat)
      returns (seqNo: nat)
      requires broker.Valid() && broker.Extends(record.0, record.1) && Grows(s0, broker.s)
      requires i < |batch| && PhaseOf(broker.s, id) == Working(batch, i)
      requires forall k | 0 <= k < |batch| :: batch[k] < |broker.s.log|
      requires forall k | 0 <= k < i :: batch[k] in broker.s.ran
      requires broker.Calls(id) == calls0 + Events(broker.s.log, batch[..i])
      modifies broker
      ensures broker.Valid() && broker.Extends(record.0, record.1) && Grows(s0, broker.s)
      ensures PhaseOf(broker.s, id) == Working(batch, i + 1) && batch[..i + 1] == batch[..i] + [batch[i]]
      ensures forall k | 0 <= k < |batch| :: batch[k] < |broker.s.log|
      ensures forall k | 0 <= k <= i :: batch[k] in broker.s.ran
      ensures MaxSeq(broker.s.log, batch[..i + 1]) == Max(MaxSeq(old(broker.s).log, batch[..i]), seqNo)
      ensures broker.Calls(id) == calls0 + Events(broker.s.log, batch[..i + 1])
      ensures old(broker.others) == [] ==>
        broker.others == [] && SameStream(old(broker.s), broker.s, old(broker.s).pending)
    {
      ghost var log0 := broker.s.log;
      seqNo := ProcessEntry(batch, i);
      BatchGrows(log0, broker.s.log, batch, i);
    }

    /** Call the handler on every entry of a batch; the ids to ack and the largest seq among them. */
    method HandleEntries(batch: seq<nat>) returns (ackIDs: seq<nat>, maxSeq: nat)
      requires broker.Valid() && PhaseOf(broker.s, id) == Working(batch, 0)
      requires forall k | 0 <= k < |batch| :: batch[k] < |broker.s.log|
      modifies broker
      ensures broker.Valid() && broker.Extends(old(broker.trace), old(broker.entries)) && Grows(old(broker.s), broker.s)
      ensures PhaseOf(broker.s, id) == Working(batch, |batch|)
      ensures ackIDs == batch && maxSeq == MaxSeq(broker.s.log, batch)
      ensures forall k | 0 <= k < |batch| :: batch[k] in broker.s.ran
      ensures broker.Calls(id) == old(broker.Calls(id)) + Events(broker.s.log, batch)
      ensures old(broker.others) == [] ==>
        broker.others == [] && SameStream(old(broker.s), broker.s, old(broker.s).pending)
    {
      ghost var s0, record, calls0 := broker.s, (broker.trace, broker.entries), broker.Calls(id);
      ackIDs, maxSeq := [], 0;
      var i := 0;
      while i < |batch|
        invariant i <= |batch| && broker.Valid() && broker.Extends(record.0, record.1)
        invariant PhaseOf(broker.s, id) == Working(batch, i) && Grows(s0, broker.s)
        invariant ackIDs == batch[..i] && maxSeq == MaxSeq(broker.s.log, batch[..i])
        invariant forall k | 0 <= k < |batch| :: batch[k] < |broker.s.log|
        invariant forall k | 0 <= k < i :: batch[k] in broker.s.ran
        invariant broker.Calls(id) == calls0 + Events(broker.s.log, batch[..i])
        invariant old(broker.others) == [] ==>
          broker.others == [] && SameStream(old(broker.s), broker.s, old(broker.s).pending)
      {
        var seqNo := HandleNext(s0, record, calls0, batch, i);
        ackIDs := ackIDs + [batch[i]];
        if maxSeq < seqNo {
          maxSeq := seqNo;
        }
        i := i + 1;
      }
      assert batch[..i] == batch;
    }

    /** Handle a batch the group handed over: every entry first, then one ack, then the watermark. */
    method HandleBatch(batch: seq<nat>, ackOk: bool, markOk: bool)
      requires broker.Valid() && PhaseOf(broker.s, id) == Working(batch, 0)
      requires forall k | 0 <= k < |batch| :: batch[k] < |broker.s.log|
      modifies broker
      ensures broker.Valid() && broker.Extends(old(broker.trace), old(broker.entries))
      ensures PhaseOf(broker.s, id) == Idle && Grows(old(broker.s), broker.s)
      ensures Dealt(broker.s, batch, ackOk, markOk)
      ensures broker.Calls(id) == old(broker.Calls(id)) + Events(broker.s.log, batch)
      ensures old(broker.others) == [] ==>
        broker.others == [] && SameStream(old(broker.s), broker.s, Left(old(broker.s).pending, batch, ackOk))
    {
      var ackIDs, maxSeq := HandleEntries(batch);
      ghost var log0 := broker.s.log;
      MaxSeqIsSome(log0, batch);
      Settle(ackIDs, maxSeq, ackOk, markOk);
      EventsStable(log0, broker.s.log, batch);
    }

    /** XACK for the whole batch, and the watermark only when it succeeded and some entry had a seq. */
    method Settle(ackIDs: seq<nat>, maxSeq: nat, ackOk: bool, markOk: bool)
      requires broker.Valid() && PhaseOf(broker.s, id) == Working(ackIDs, |ackIDs|)
      requires forall k | 0 <= k < |ackIDs| :: ackIDs[k] < |broker.s.log|
      requires maxSeq == MaxSeq(broker.s.log, ackIDs)
      modifies broker
      ensures broker.Valid() && broker.Extends(old(broker.trace), old(broker.entries))
      ensures PhaseOf(broker.s, id) == Idle && Grows(old(broker.s), broker.s)
      ensures ackOk ==> forall k | 0 <= k < |ackIDs| :: ackIDs[k] in broker.s.acked
      ensures ackOk && markOk ==> maxSeq <= broker.s.watermark
      ensures broker.Calls(id) == old(broker.Calls(id))
      ensures old(broker.others) == [] ==>
        broker.others == [] && SameStream(old(broker.s), broker.s, Left(old(broker.s).pending, ackIDs, ackOk))
    {
      ghost var log0 := broker.s.log;
      broker.Yield(id);
      MaxSeqStable(log0, broker.s.log, ackIDs);
      AckIs(broker.s, id, ackOk);
      broker.Do(Ack(id, ackOk));
      if ackOk && 0 < maxSeq {
        AdvanceWatermark(maxSeq, markOk);
      }
    }

    /** advanceWatermark after an ack. */
    method AdvanceWatermark(maxSeq: nat, markOk: bool)
      requires broker.Valid() && PhaseOf(broker.s, id) == Acked(maxSeq)
      modifies broker
      ensures broker.Valid() && broker.Extends(old(broker.trace), old(broker.entries))
      ensures PhaseOf(broker.s, id) == Idle && Grows(old(broker.s), broker.s)
      ensures markOk ==> maxSeq <= broker.s.watermark
      ensures broker.Calls(id) == old(broker.Calls(id))
      ensures old(broker.others) == [] ==>
        broker.others == [] && SameStream(old(broker.s), broker.s, old(broker.s).pending)
    {
      broker.Yield(id);
      AdvanceIs(broker.s, id, markOk);
      broker.Do(Advance(id, markOk));
    }

    /** XAUTOCLAIM, once others have had their turn, at the recorded moment `at`. */
    method TakeOver(stale: seq<nat>) returns (batch: seq<nat>, ghost at: nat)
      requires broker.Valid() && PhaseOf(broker.s, id) == Idle
      modifies broker
      ensures broker.Valid() && broker.Extends(old(broker.trace), old(broker.entries))
      ensures Grows(old(broker.s), broker.s) && broker.Calls(id) == old(broker.Calls(id))
      ensures broker.Claimed(id, |old(broker.trace)|, at, stale, batch)
      ensures PhaseOf(broker.s, id) == if batch == [] then Idle else Working(batch, 0)
      ensures forall k | 0 <= k < |batch| :: batch[k] < |broker.s.log|
      ensures old(broker.others) == [] ==> broker.others == [] && broker.entries[at].s == old(broker.s)
      ensures old(broker.others) == [] ==> SameStream(old(broker.s), broker.s, old(broker.s).pending)
    {
      broker.Yield(id);
      at := |broker.trace|;
      batch := [];
      ClaimIs(broker.s, id, stale);
      if Enabled(broker.s, Claim(id, stale)) {
        broker.Do(Claim(id, stale));
        batch := stale;
      }
    }

    /** claimStale: take over pending entries and handle them; `stale` is what the idle time singles out. */
    method ClaimStale(stale: seq<nat>, ackOk: bool, markOk: bool) returns (batch: seq<nat>, ghost at: nat)
      requires broker.Valid() && PhaseOf(broker.s, id) == Idle
      modifies broker
      ensures broker.Valid() && broker.Extends(old(broker.trace), old(broker.entries))
      ensures PhaseOf(broker.s, id) == Idle && Grows(old(broker.s), broker.s)
      ensures broker.Claimed(id, |old(broker.trace)|, at, stale, batch)
      ensures Dealt(broker.s, batch, ackOk, markOk)
      ensures broker.Calls(id) == old(broker.Calls(id)) + Events(broker.s.log, batch)
      ensures old(broker.others) == [] ==> broker.others == [] && broker.entries[at].s == old(broker.s)
      ensures old(broker.others) == [] ==>
        SameStream(old(broker.s), broker.s, Left(old(broker.s).pending, batch, ackOk))
    {
      ghost var from := |broker.trace|;
      batch, at := TakeOver(stale);
      if batch != [] {
        ghost var tr1, en1 := broker.trace, broker.entries;
        HandleBatch(batch, ackOk, markOk);
        ClaimStays(tr1, en1, broker.trace, broker.entries, id, from, at, stale, batch);
      }
    }

    /** XREADGROUP, once others have had their turn, at the recorded moment `at`. */
    method FetchNew(count: nat, replied: bool) returns (batch: seq<nat>, ghost at: nat)
      requires broker.Valid() && PhaseOf(broker.s, id) == Idle
      modifies broker
      ensures broker.Valid() && broker.Extends(old(broker.trace), old(broker.entries))
      ensures Grows(old(broker.s), broker.s) && broker.Calls(id) == old(broker.Calls(id))
      ensures broker.Fetched(id, |old(broker.trace)|, at, count, replied, batch)
      ensures PhaseOf(broker.s, id) == if batch == [] then Idle else Working(batch, 0)
      ensures forall k | 0 <= k < |batch| :: batch[k] < |broker.s.log|
      ensures old(broker.others) == [] ==> broker.others == [] && broker.entries[at].s == old(broker.s)
      ensures old(broker.others) == [] ==> batch == if replied then NextBatch(old(broker.s), count) else []
      ensures old(broker.others) == [] ==>
        StreamRead(old(broker.s), broker.s, NextBatch(old(broker.s), count), false)
    {
      broker.Yield(id);
      at := |broker.trace|;
      batch := [];
      ReadIs(broker.s, id, count, replied);
      if Enabled(broker.s, Read(id, count, replied)) {
        broker.Do(Read(id, count, replied));
        if replied {
          batch := PhaseOf(broker.s, id).batch;
        }
      }
    }

    /** The read of consumeSession and its batch. */
    method ReadNew(count: nat, replied: bool, ackOk: bool, markOk: bool) returns (batch: seq<nat>, ghost at: nat)
      requires broker.Valid() && PhaseOf(broker.s, id) == Idle
      modifies broker
      ensures broker.Valid() && broker.Extends(old(broker.trace), old(broker.entries))
      ensures PhaseOf(broker.s, id) == Idle && Grows(old(broker.s), broker.s)
      ensures broker.Fetched(id, |old(broker.trace)|, at, count, replied, batch)
      ensures Dealt(broker.s, batch, ackOk, markOk)
      ensures broker.Calls(id) == old(broker.Calls(id)) + Events(broker.s.log, batch)
      ensures old(broker.others) == [] ==> broker.others == [] && broker.entries[at].s == old(broker.s)
      ensures old(broker.others) == [] ==>
        StreamRead(old(broker.s), broker.s, NextBatch(old(broker.s), count), replied && ackOk)
    {
      ghost var s0, alone, from := broker.s, broker.others == [], |broker.trace|;
      batch, at := FetchNew(count, replied);
      ghost var s1, tr1, en1 := broker.s, broker.trace, broker.entries;
      if batch != [] {
        HandleBatch(batch, ackOk, markOk);
      } else {
        NoneLeft(broker.s.pending, ackOk);
      }
      NextStays(tr1, en1, broker.trace, broker.entries, id, from, at, count, replied, batch);
      if alone {
        ReadComposes(s0, s1, broker.s, NextBatch(s0, count), replied, batch, ackOk);
      }
    }

    /** consumeSession after ensureGroup: reclaim stale pending entries, then read `count` new ones (0: the
        read timed out; not `replied`: its reply was lost). Each batch has its own ack and watermark write.
        The claim and the read happen at the recorded moments `claimAt` and `readAt`, and take everything they
        can then. Whatever others do meanwhile, the handler is called on exactly the events taken over and read,
        in order, and their entries are acked where the ack succeeded. */
    method ConsumeSession(stale: seq<nat>, staleAcked: bool, staleMarked: bool,
                          count: nat, replied: bool, ackOk: bool, markOk: bool)
      returns (claimed: seq<nat>, fetched: seq<nat>, ghost claimAt: nat, ghost readAt: nat)
      requires broker.Valid() && PhaseOf(broker.s, id) == Idle
      modifies broker
      ensures broker.Valid() && broker.Extends(old(broker.trace), old(broker.entries))
      ensures PhaseOf(broker.s, id) == Idle && Grows(old(broker.s), broker.s)
      ensures broker.Claimed(id, |old(broker.trace)|, claimAt, stale, claimed)
      ensures broker.Fetched(id, claimAt, readAt, count, replied, fetched)
      ensures Dealt(broker.s, claimed, staleAcked, staleMarked) && Dealt(broker.s, fetched, ackOk, markOk)
      ensures broker.Calls(id) ==
        old(broker.Calls(id)) + Events(broker.s.log, claimed) + Events(broker.s.log, fetched)
      ensures old(broker.others) == [] ==> broker.others == []
      ensures old(broker.others) == [] ==>
        SessionAlone(old(broker.s), broker.s, stale, claimed, staleAcked, count, replied, fetched, ackOk)
    {
      ghost var s0, alone, tr0, en0 := broker.s, broker.others == [], broker.trace, broker.entries;
      claimed, claimAt := ClaimStale(stale, staleAcked, staleMarked);
      ghost var s1, tr1, en1 := broker.s, broker.trace, broker.entries;
      fetched, readAt := ReadNew(count, replied, ackOk, markOk);
      RecordOfSession(tr0, en0, tr1, en1, broker.trace, broker.entries, id,
                      claimAt, readAt, stale, claimed, count, replied, fetched);
      DealtStays(s1, broker.s, claimed, staleAcked, staleMarked);
      if alone {
        SessionComposes(s0, s1, broker.s, stale, claimed, staleAcked, count, replied, fetched, ackOk);
      }
    }

    /** consumeLoop with nobody else at work, until there is nothing left to read and, where acks succeed, nothing
        pending: every unread entry is handled in the end, and with acks every unread and every pending one is
        handled and acked. */
    method ConsumeLoop(acks: bool, marks: bool)
      requires broker.Valid() && PhaseOf(broker.s, id) == Idle && broker.others == [] && broker.s.group
      requires Front(broker.s) <= |broker.s.log| && forall p <- broker.s.pending :: p < Front(broker.s)
      modifies broker
      ensures broker.Valid() && broker.others == [] && PhaseOf(broker.s, id) == Idle
      ensures broker.s.log == old(broker.s).log
      ensures Front(broker.s) == |broker.s.log| && (acks ==> broker.s.pending == {})
      ensures forall p | Front(old(broker.s)) <= p < |broker.s.log| :: p in broker.s.ran
      ensures acks ==> forall p | Front(old(broker.s)) <= p < |broker.s.log| :: p in broker.s.acked
      ensures acks ==> forall p <- old(broker.s).pending :: p in broker.s.ran && p in broker.s.acked
      ensures acks && marks ==>
        forall p | Front(old(broker.s)) <= p < |broker.s.log| :: broker.s.log[p] <= broker.s.watermark
    {
      ghost var s0 := broker.s;
      while Front(broker.s) < |broker.s.log| || (acks && broker.s.pending != {})
        invariant broker.Valid() && broker.others == [] && PhaseOf(broker.s, id) == Idle && Grows(s0, broker.s)
        invariant Progress(s0, broker.s, acks, marks)
        decreases |broker.s.log| - Front(broker.s), if acks then |broker.s.pending| else 0
      {
        DrainMore(s0, acks, marks);
      }
    }

    /** One more session of it. */
    method DrainMore(ghost s0: State, acks: bool, marks: bool)
      requires broker.Valid() && PhaseOf(broker.s, id) == Idle && broker.others == []
      requires Progress(s0, broker.s, acks, marks)
      modifies broker
      ensures broker.Valid() && broker.others == [] && PhaseOf(broker.s, id) == Idle
      ensures Progress(s0, broker.s, acks, marks) && Grows(old(broker.s), broker.s)
      ensures Front(old(broker.s)) < |old(broker.s).log| ==> Front(old(broker.s)) < Front(broker.s)
      ensures acks && Front(old(broker.s)) == |old(broker.s).log| && old(broker.s).pending != {} ==>
        Front(broker.s) == Front(old(broker.s)) && |broker.s.pending| < |old(broker.s).pending|
    {
      var s := broker.s;
      var stale := SomeOf(s.pending, 64);
      var unread := |s.log| - Front(s);
      var count := if unread <= 64 then unread else 64;
      var claimed, fetched, _, _ := ConsumeSession(stale, acks, marks, count, true, acks, marks);
      SessionDrains(s0, s, broker.s, stale, claimed, count, fetched, acks, marks);
    }

    /** Call the handler on the next row of a scan that was begun in state s0. */
    method ReplayRow(ghost s0: State, ghost record: (seq<Action>, seq<Entry>), ghost calls0: seq<nat>,
                     first: nat, cursor: nat, rows: seq<nat>, i: nat)
      requires broker.Valid() && i < |rows| && PhaseOf(broker.s, id) == Replaying(first, cursor, rows, i)
      requires broker.Extends(record.0, record.1) && broker.Calls(id) == calls0 + rows[..i]
      requires s0.visited <= broker.s.visited && s0.watermark <= broker.s.watermark && OutboxMoves(s0, broker.s)
      modifies broker
      ensures broker.Valid() && broker.Extends(record.0, record.1)
      ensures PhaseOf(broker.s, id) == Replaying(first, cursor, rows, i + 1)
      ensures old(broker.s).visited <= broker.s.visited && rows[i] in broker.s.visited
      ensures s0.visited <= broker.s.visited && s0.watermark <= broker.s.watermark && OutboxMoves(s0, broker.s)
      ensures broker.Calls(id) == calls0 + rows[..i + 1]
    {
      assert rows[..i + 1] == rows[..i] + [rows[i]];
      assert calls0 + rows[..i] + [rows[i]] == calls0 + rows[..i + 1];
      broker.Yield(id);
      broker.Do(Replay(id));
    }

    /** The rows of one scan, each handled, then the watermark and the cursor moved to the last of them. */
    method ReplayRows(first: nat, cursor: nat, rows: seq<nat>, markOk: bool) returns (maxSeq: nat)
      requires broker.Valid() && PhaseOf(broker.s, id) == Replaying(first, cursor, rows, 0)
      requires rows != [] && cursor < rows[0] && forall i, j | 0 <= i < j < |rows| :: rows[i] < rows[j]
      modifies broker
      ensures broker.Valid() && broker.Extends(old(broker.trace), old(broker.entries)) && maxSeq == rows[|rows| - 1]
      ensures PhaseOf(broker.s, id) == if first <= maxSeq then Idle else Scanning(first, maxSeq)
      ensures old(broker.s).visited <= broker.s.visited && forall i | 0 <= i < |rows| :: rows[i] in broker.s.visited
      ensures old(broker.s).watermark <= broker.s.watermark && (markOk ==> maxSeq <= broker.s.watermark)
      ensures OutboxMoves(old(broker.s), broker.s) && broker.Calls(id) == old(broker.Calls(id)) + rows
    {
      maxSeq := ReplayEach(first, cursor, rows);
      CloseRows(first, cursor, rows, markOk);
    }

    /** The loop over the rows. */
    method ReplayEach(first: nat, cursor: nat, rows: seq<nat>) returns (maxSeq: nat)
      requires broker.Valid() && PhaseOf(broker.s, id) == Replaying(first, cursor, rows, 0)
      requires rows != [] && cursor < rows[0] && forall i, j | 0 <= i < j < |rows| :: rows[i] < rows[j]
      modifies broker
      ensures broker.Valid() && broker.Extends(old(broker.trace), old(broker.entries)) && maxSeq == rows[|rows| - 1]
      ensures PhaseOf(broker.s, id) == Replaying(first, cursor, rows, |rows|)
      ensures old(broker.s).visited <= broker.s.visited && forall i | 0 <= i < |rows| :: rows[i] in broker.s.visited
      ensures old(broker.s).watermark <= broker.s.watermark && OutboxMoves(old(broker.s), broker.s)
      ensures broker.Calls(id) == old(broker.Calls(id)) + rows
    {
      ghost var s0, record, calls0 := broker.s, (broker.trace, broker.entries), broker.Calls(id);
      maxSeq := cursor;
      var i := 0;
      while i < |rows|
        invariant i <= |rows| && broker.Valid() && broker.Extends(record.0, record.1)
        invariant PhaseOf(broker.s, id) == Replaying(first, cursor, rows, i)
        invariant maxSeq == if i == 0 then cursor else rows[i - 1]
        invariant s0.visited <= broker.s.visited && forall j | 0 <= j < i :: rows[j] in broker.s.visited
        invariant s0.watermark <= broker.s.watermark && OutboxMoves(s0, broker.s)
        invariant broker.Calls(id) == calls0 + rows[..i]
      {
        ReplayRow(s0, record, calls0, first, cursor, rows, i);
        if maxSeq < rows[i] {
          maxSeq := rows[i];
        }
        i := i + 1;
      }
      assert rows[..i] == rows;
    }

    /** advanceWatermark after the rows of a scan. */
    method CloseRows(first: nat, cursor: nat, rows: seq<nat>, markOk: bool)
      requires broker.Valid() && rows != [] && PhaseOf(broker.s, id) == Replaying(first, cursor, rows, |rows|)
      modifies broker
      ensures broker.Valid() && broker.Extends(old(broker.trace), old(broker.entries))
      ensures var last := rows[|rows| - 1];
        && PhaseOf(broker.s, id) == (if first <= last then Idle else Scanning(first, last))
        && (markOk ==> last <= broker.s.watermark)
      ensures old(broker.s).visited <= broker.s.visited && old(broker.s).watermark <= broker.s.watermark
      ensures OutboxMoves(old(broker.s), broker.s) && broker.Calls(id) == old(broker.Calls(id))
    {
      broker.Yield(id);
      CloseIs(broker.s, id, markOk);
      broker.Do(CloseBatch(id, markOk));
    }

    /** ScanOutboxSeqRange, as one command, unless it fails. Short of purges and late commits, `rows` are what there
        was in the range, up to the last of them. */
    method ScanRows(first: nat, cursor: nat, fails: bool) returns (rows: seq<nat>)
      requires broker.Valid() && 1 <= broker.s.batchRows
      requires PhaseOf(broker.s, id) == Scanning(first, cursor) && cursor < first <= broker.s.committed
      modifies broker
      ensures broker.Valid() && broker.Extends(old(broker.trace), old(broker.entries))
      ensures OutboxMoves(old(broker.s), broker.s) && broker.Calls(id) == old(broker.Calls(id))
      ensures old(broker.s).visited <= broker.s.visited && old(broker.s).watermark <= broker.s.watermark
      ensures |rows| <= broker.s.batchRows && (fails ==> rows == [])
      ensures PhaseOf(broker.s, id) == if rows == [] then Idle else Replaying(first, cursor, rows, 0)
      ensures forall i, j | 0 <= i < j < |rows| :: rows[i] < rows[j]
      ensures rows != [] ==> cursor < rows[0] && rows[|rows| - 1] <= first
      ensures !fails && broker.s.rewrites == old(broker.s).rewrites ==>
        rows == Rows(old(broker.s).outbox, cursor, if rows == [] then first else rows[|rows| - 1])
    {
      broker.Yield(id);
      if fails {
        broker.Do(ScanError(id));
        return [];
      }
      ScanIsOneShot(old(broker.s), broker.s, cursor, first, broker.s.batchRows);
      rows := ScanRange(broker.s.outbox, cursor, first, broker.s.batchRows);
      ScanIs(broker.s.outbox, cursor, first, broker.s.batchRows);
      if rows != [] {
        assert rows[0] in rows;
      }
      broker.Do(Scan(id));
    }

    /** One scan and its batch. Short of purges and late commits, `rows` are exactly the rows of (cursor, next]. */
    method BackfillBatch(first: nat, cursor: nat, scanFails: bool, markOk: bool)
      returns (next: nat, rows: seq<nat>, outcome: Outcome)
      requires broker.Valid() && 1 <= broker.s.batchRows
      requires PhaseOf(broker.s, id) == Scanning(first, cursor) && cursor < first <= broker.s.committed
      modifies broker
      ensures broker.Valid() && broker.Extends(old(broker.trace), old(broker.entries))
      ensures OutboxMoves(old(broker.s), broker.s)
      ensures old(broker.s).visited <= broker.s.visited && forall i | 0 <= i < |rows| :: rows[i] in broker.s.visited
      ensures old(broker.s).watermark <= broker.s.watermark
      ensures outcome == Failed <==> scanFails
      ensures outcome == Failed ==> next == cursor && rows == [] && PhaseOf(broker.s, id) == Idle
      ensures outcome == Exhausted ==> next == first && rows == [] && PhaseOf(broker.s, id) == Idle
      ensures outcome == Moved ==>
        && cursor < next <= first && rows != [] && rows[|rows| - 1] == next && |rows| <= broker.s.batchRows
        && PhaseOf(broker.s, id) == (if first <= next then Idle else Scanning(first, next))
        && (markOk ==> next <= broker.s.watermark)
      ensures broker.Calls(id) == old(broker.Calls(id)) + rows
      ensures broker.s.rewrites == old(broker.s).rewrites ==> rows == Rows(old(broker.s).outbox, cursor, next)
    {
      rows := ScanRows(first, cursor, scanFails);
      if scanFails {
        return cursor, [], Failed;
      }
      if rows == [] {
        return first, [], Exhausted;
      }
      next := ReplayRows(first, cursor, rows, markOk);
      outcome := Moved;
    }

    /** A further batch of a backfill that began in state s0 at `mark` and has made `visits` so far. */
    method BackfillMore(ghost s0: State, ghost record: (seq<Action>, seq<Entry>), ghost calls0: seq<nat>,
                        ghost mark: nat, first: nat, cursor: nat, ghost visits: seq<nat>, ghost marked: bool,
                        scanFails: bool, markOk: bool)
      returns (next: nat, rows: seq<nat>, outcome: Outcome)
      requires broker.Valid() && 1 <= broker.s.batchRows && mark <= cursor
      requires PhaseOf(broker.s, id) == Scanning(first, cursor) && cursor < first <= s0.committed
      requires OutboxMoves(s0, broker.s)
      requires broker.Extends(record.0, record.1) && broker.Calls(id) == calls0 + visits
      requires marked && visits != [] ==> visits[|visits| - 1] <= broker.s.watermark
      requires broker.s.rewrites == s0.rewrites ==> visits == Rows(s0.outbox, mark, cursor)
      modifies broker
      ensures broker.Valid() && 1 <= broker.s.batchRows && OutboxMoves(s0, broker.s)
      ensures broker.Extends(record.0, record.1) && broker.Calls(id) == calls0 + (visits + rows)
      ensures cursor <= next <= first && (outcome == Failed <==> scanFails)
      ensures outcome == Failed ==> next == cursor && rows == [] && PhaseOf(broker.s, id) == Idle
      ensures outcome == Exhausted ==> next == first && rows == [] && PhaseOf(broker.s, id) == Idle
      ensures outcome == Moved ==>
        && cursor < next && rows != [] && rows[|rows| - 1] == next
        && PhaseOf(broker.s, id) == if first <= next then Idle else Scanning(first, next)
      ensures marked && markOk && visits + rows != [] ==>
        (visits + rows)[|visits + rows| - 1] <= broker.s.watermark
      ensures broker.s.rewrites == s0.rewrites ==> visits + rows == Rows(s0.outbox, mark, next)
    {
      ghost var s1 := broker.s;
      next, rows, outcome := BackfillBatch(first, cursor, scanFails, markOk);
      RangesJoin(s0, s1, mark, cursor, next);
      assert calls0 + visits + rows == calls0 + (visits + rows);
    }

    /** The loop of backfill. */
    method BackfillBatches(mark: nat, first: nat, fails: seq<bool>, lapses: seq<bool>, patience: nat)
      returns (cursor: nat, ending: Ending, visits: seq<nat>, batches: nat)
      requires broker.Valid() && 1 <= broker.s.batchRows
      requires PhaseOf(broker.s, id) == Scanning(first, mark) && mark < first <= broker.s.committed
      modifies broker
      ensures broker.Valid() && broker.Extends(old(broker.trace), old(broker.entries))
      ensures PhaseOf(broker.s, id) == if ending == Cancelled then Scanning(first, cursor) else Idle
      ensures mark <= cursor <= first && (ending == Complete ==> cursor == first)
      ensures EndsRightly(fails, patience, ending, batches)
      ensures mark + batches <= cursor + if ending == ScanFailed then 1 else 0
      ensures fails == [] && first - mark <= patience ==> ending == Complete
      ensures lapses == [] && visits != [] ==> visits[|visits| - 1] <= broker.s.watermark
      ensures broker.Calls(id) == old(broker.Calls(id)) + visits && OutboxMoves(old(broker.s), broker.s)
      ensures broker.s.rewrites == old(broker.s).rewrites ==> visits == Rows(old(broker.s).outbox, mark, cursor)
    {
      ghost var s0, record, calls0 := broker.s, (broker.trace, broker.entries), broker.Calls(id);
      cursor, visits := mark, [];
      batches := 0;
      while cursor < first && batches < patience
        invariant broker.Valid() && 1 <= broker.s.batchRows && OutboxMoves(s0, broker.s)
        invariant broker.Extends(record.0, record.1)
        invariant mark + batches <= cursor <= first && batches <= patience
        invariant forall j | 0 <= j < batches && j < |fails| :: !fails[j]
        invariant PhaseOf(broker.s, id) == if cursor < first then Scanning(first, cursor) else Idle
        invariant broker.Calls(id) == calls0 + visits
        invariant lapses == [] && visits != [] ==> visits[|visits| - 1] <= broker.s.watermark
        invariant broker.s.rewrites == s0.rewrites ==> visits == Rows(s0.outbox, mark, cursor)
        decreases first - cursor
      {
        var scanFails := batches < |fails| && fails[batches];
        var markOk := !(batches < |lapses| && lapses[batches]);
        var next, rows, outcome :=
          BackfillMore(s0, record, calls0, mark, first, cursor, visits, lapses == [], scanFails, markOk);
        batches, cursor, visits := batches + 1, next, visits + rows;
        if outcome == Failed {
          FailsRightly(fails, patience, batches);
          return cursor, ScanFailed, visits, batches;
        }
        if outcome == Exhausted {
          break;
        }
      }
      ending := if cursor < first then Cancelled else Complete;
      OtherwiseRightly(fails, patience, ending, batches);
    }

    /** backfill from the moment both the watermark and the stream head are known. The scan with number k
        fails when `fails[k]`, its watermark write when `lapses[k]`; the process is told to stop after
        `patience` batches. `visits` is exactly what this consumer calls the handler on meanwhile, in order.

        Whatever others do short of purges and late commits: a completed backfill visits exactly the rows one scan of
        the whole range (mark, first] would list, each once, in order; one that fails or is cancelled
        exactly the rows of (mark, cursor]. */
    method Backfill(mark: nat, first: nat, fails: seq<bool>, lapses: seq<bool>, patience: nat)
      returns (cursor: nat, ending: Ending, visits: seq<nat>, batches: nat)
      requires broker.Valid() && 1 <= broker.s.batchRows
      requires PhaseOf(broker.s, id) == Scanning(first, mark) && mark < first <= broker.s.committed
      modifies broker
      ensures broker.Valid() && broker.Extends(old(broker.trace), old(broker.entries))
      ensures PhaseOf(broker.s, id) == if ending == Cancelled then Down else Idle
      ensures mark <= cursor <= first && (ending == Complete ==> cursor == first)
      ensures EndsRightly(fails, patience, ending, batches)
      ensures mark + batches <= cursor + if ending == ScanFailed then 1 else 0
      ensures fails == [] && first - mark <= patience ==> ending == Complete
      ensures forall i | 0 <= i < |visits| :: visits[i] in broker.s.visited
      ensures lapses == [] && visits != [] ==> visits[|visits| - 1] <= broker.s.watermark
      ensures broker.Calls(id) == old(broker.Calls(id)) + visits && OutboxMoves(old(broker.s), broker.s)
      ensures broker.s.rewrites == old(broker.s).rewrites ==> visits == Rows(old(broker.s).outbox, mark, cursor)
    {
      cursor, ending, visits, batches := BackfillBatches(mark, first, fails, lapses, patience);
      if ending == Cancelled {
        Stop();
      }
      CallsAreVisited(old(broker.Calls(id)), visits);
    }

    /** The process ends. */
    method Stop()
      requires broker.Valid() && !PhaseOf(broker.s, id).Down?
      modifies broker
      ensures broker.Valid() && broker.Extends(old(broker.trace), old(broker.entries)) && PhaseOf(broker.s, id) == Down
      ensures OutboxMoves(old(broker.s), broker.s) && Grows(old(broker.s), broker.s)
      ensures broker.Calls(id) == old(broker.Calls(id))
    {
      broker.Do(Crash(id));
    }

    /** Read the stream head; a backfill is due when it is more than one past the watermark. */
    method ReadHead(mark: nat, headFails: bool) returns (first: nat, due: bool)
      requires broker.Valid() && Tidy(broker.origin) && PhaseOf(broker.s, id) == Probed(mark)
      modifies broker
      ensures broker.Valid() && broker.Extends(old(broker.trace), old(broker.entries))
      ensures due <==> !headFails && mark + 1 < first
      ensures PhaseOf(broker.s, id) == if due then Scanning(first, mark) else Idle
      ensures first == (if headFails then 0 else FirstSeq(broker.s)) <= broker.s.committed
      ensures broker.Calls(id) == old(broker.Calls(id)) && Grows(old(broker.s), broker.s)
      ensures old(broker.others) == [] ==> broker.others == [] && SameEvents(old(broker.s), broker.s)
    {
      broker.Yield(id);
      if headFails {
        broker.Do(FirstError(id));
        return 0, false;
      }
      first := FirstSeq(broker.s);
      HeadIsCommitted();
      broker.Do(ReadFirst(id));
      due := !(first == 0 || first <= mark + 1);
    }

    /** ensureGroup, as one command. */
    method JoinGroup()
      requires broker.Valid() && Tidy(broker.origin) && PhaseOf(broker.s, id) == Down
      modifies broker
      ensures broker.Valid() && broker.Extends(old(broker.trace), old(broker.entries))
      ensures PhaseOf(broker.s, id) == Starting
      ensures broker.Calls(id) == old(broker.Calls(id)) && Grows(old(broker.s), broker.s)
      ensures old(broker.others) == [] ==> broker.others == [] && SameEvents(old(broker.s), broker.s)
    {
      broker.Yield(id);
      broker.Do(Boot(id));
    }

    /** getWatermark, as one command. */
    method GetWatermark(fails: bool) returns (mark: nat)
      requires broker.Valid() && PhaseOf(broker.s, id) == Starting
      modifies broker
      ensures broker.Valid() && broker.Extends(old(broker.trace), old(broker.entries))
      ensures PhaseOf(broker.s, id) == if fails then Idle else Probed(mark)
      ensures !fails ==> old(broker.s).watermark <= mark == broker.s.watermark
      ensures broker.Calls(id) == old(broker.Calls(id)) && Grows(old(broker.s), broker.s)
      ensures old(broker.others) == [] ==> broker.others == [] && SameEvents(old(broker.s), broker.s)
    {
      broker.Yield(id);
      mark := broker.s.watermark;
      if fails {
        broker.Do(MarkError(id));
      } else {
        broker.Do(ReadMark(id));
      }
    }

    /** Join the group, read the watermark, read the stream head. A failed read ends the startup. */
    method Probe(markFails: bool, headFails: bool) returns (mark: nat, first: nat, due: bool)
      requires broker.Valid() && Tidy(broker.origin) && PhaseOf(broker.s, id) == Down
      modifies broker
      ensures broker.Valid() && broker.Extends(old(broker.trace), old(broker.entries))
      ensures due <==> !markFails && !headFails && mark + 1 < first
      ensures PhaseOf(broker.s, id) == if due then Scanning(first, mark) else Idle
      ensures first == (if markFails || headFails then 0 else FirstSeq(broker.s)) <= broker.s.committed
      ensures !markFails ==> old(broker.s).watermark <= mark <= broker.s.watermark
      ensures broker.Calls(id) == old(broker.Calls(id)) && Grows(old(broker.s), broker.s)
      ensures old(broker.others) == [] ==> broker.others == [] && SameEvents(old(broker.s), broker.s)
    {
      JoinGroup();
      mark := GetWatermark(markFails);
      if markFails {
        return 0, 0, false;
      }
      first, due := ReadHead(mark, headFails);
    }

    /** Run up to its consume loop. A due backfill calls the handler on exactly what the outbox held between the
        watermark it read and its cursor, each once, in order. It gets to the stream head unless a scan failed or the
        process was told to stop. */
    method Startup(markFails: bool, headFails: bool, fails: seq<bool>, lapses: seq<bool>, patience: nat)
      returns (due: bool, mark: nat, first: nat, cursor: nat, ending: Ending, visits: seq<nat>, batches: nat,
               ghost at: nat)
      requires broker.Valid() && Tidy(broker.origin) && 1 <= broker.s.batchRows && PhaseOf(broker.s, id) == Down
      modifies broker
      ensures broker.Valid() && broker.Extends(old(broker.trace), old(broker.entries))
      ensures PhaseOf(broker.s, id) == if ending == Cancelled then Down else Idle
      ensures |old(broker.trace)| <= at < |broker.entries|
      ensures var head := broker.entries[at].s;
        && (old(broker.others) == [] ==> SameEvents(old(broker.s), head))
        && (!markFails ==> old(broker.s).watermark <= mark <= head.watermark)
        && (due <==> !markFails && !headFails && mark + 1 < FirstSeq(head))
        && (due ==> first == FirstSeq(head))
        && (due && broker.s.rewrites == head.rewrites ==> visits == Rows(head.outbox, mark, cursor))
      ensures broker.Calls(id) == old(broker.Calls(id)) + visits
      ensures !due ==> visits == [] && batches == 0 && ending == if markFails || headFails then ScanFailed else Complete
      ensures due ==> EndsRightly(fails, patience, ending, batches) && mark <= cursor <= first
      ensures due ==> mark + batches <= cursor + if ending == ScanFailed then 1 else 0
      ensures due && fails == [] && first - mark <= patience ==> ending == Complete
      ensures due && ending == Complete ==> cursor == first
    {
      mark, first, due := Probe(markFails, headFails);
      at := |broker.trace|;
      cursor, ending, visits, batches := mark, if markFails || headFails then ScanFailed else Complete, [], 0;
      if due {
        cursor, ending, visits, batches := Backfill(mark, first, fails, lapses, patience);
      }
    }

    lemma CallsAreVisited(before: seq<nat>, visits: seq<nat>)
      requires broker.Valid() && broker.Calls(id) == before + visits
      ensures forall i | 0 <= i < |visits| :: visits[i] in broker.s.visited
    {
      RecordIsRun(broker.entries, broker.trace);
      forall i | 0 <= i < |visits| ensures visits[i] in broker.s.visited {
        assert broker.Calls(id)[|before| + i] == visits[i];
      }
    }

    lemma HeadIsCommitted()
      requires broker.Valid() && Tidy(broker.origin)
      ensures FirstSeq(broker.s) <= broker.s.committed
    {
      RecordIsRun(broker.entries, broker.trace);
    }
  }

  datatype Ending = Complete | ScanFailed | Cancelled

  /** A backfill fails with the first scan that fails, is cancelled only after as many batches as it had patience for,
      and is otherwise complete. */
  predicate EndsRightly(fails: seq<bool>, patience: nat, ending: Ending, batches: nat) {
    && batches <= patience
    && (ending == ScanFailed <==> exists j :: 0 <= j < batches && j < |fails| && fails[j])
    && (ending == ScanFailed ==> 0 < batches <= |fails| && fails[batches - 1])
    && (ending == Cancelled ==> batches == patience)
  }

  lemma FailsRightly(fails: seq<bool>, patience: nat, batches: nat)
    requires 0 < batches <= patience && batches <= |fails| && fails[batches - 1]
    ensures EndsRightly(fails, patience, ScanFailed, batches)
  {
  }

  lemma OtherwiseRightly(fails: seq<bool>, patience: nat, ending: Ending, batches: nat)
    requires batches <= patience && ending != ScanFailed && (ending == Cancelled ==> batches == patience)
    requires forall j | 0 <= j < batches && j < |fails| :: !fails[j]
    ensures EndsRightly(fails, patience, ending, batches)
  {
  }

  datatype Outcome = Failed | Exhausted | Moved

  lemma ScanIsOneShot(s: State, t: State, cursor: nat, first: nat, limit: nat)
    requires cursor < first && 1 <= limit
    ensures var rows := ScanRange(t.outbox, cursor, first, limit);
      SameRows(s, t, first) ==> rows == Rows(s.outbox, cursor, if rows == [] then first else rows[|rows| - 1])
  {
    var rows := ScanRange(t.outbox, cursor, first, limit);
    if SameRows(s, t, first) {
      if rows != [] {
        ScanIsPrefix(t.outbox, cursor, first, limit);
      }
      RowsAgree(s.outbox, t.outbox, cursor, if rows == [] then first else rows[|rows| - 1]);
    }
  }

  lemma RangesJoin(s: State, t: State, mark: nat, cursor: nat, next: nat)
    requires mark <= cursor <= next
    ensures SameRows(s, t, next) ==>
      Rows(s.outbox, mark, next) == Rows(s.outbox, mark, cursor) + Rows(t.outbox, cursor, next)
  {
    if SameRows(s, t, next) {
      RowsAgree(s.outbox, t.outbox, cursor, next);
      RowsSplit(s.outbox, mark, cursor, next);
    }
  }
}
