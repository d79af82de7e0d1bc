/** worker/webhook_events.go and its delivery table: handling an event inserts one row for each matching
    webhook, keyed by (webhook, event), and a conflicting insert does nothing. */
module WebhookRows {
  import opened EventProtocol
  import opened EventSafety
  import opened EventNoLoss
  import opened EventLoss
  import opened EventBackfill

  datatype Delivery = Delivery(id: nat, webhook: nat, event: nat)

  /** A fixed subscription snapshot: the webhooks each event matches. */
  type Index = nat -> seq<nat>

  predicate HasKey(rows: seq<Delivery>, webhook: nat, event: nat) {
    exists i | 0 <= i < |rows| :: rows[i].webhook == webhook && rows[i].event == event
  }

  predicate UniqueKeys(rows: seq<Delivery>) {
    forall i, j | 0 <= i < j < |rows| :: rows[i].webhook != rows[j].webhook || rows[i].event != rows[j].event
  }

  /** INSERT ... ON CONFLICT (webhook_id, event_id) DO NOTHING. */
  function Insert(rows: seq<Delivery>, d: Delivery): seq<Delivery> {
    if HasKey(rows, d.webhook, d.event) then rows else rows + [d]
  }

  /** The table after CreateDeliveries for the given webhooks; `id` is the first fresh row id. */
  function InsertAll(rows: seq<Delivery>, id: nat, webhooks: seq<nat>, event: nat): seq<Delivery> {
    if webhooks == [] then rows
    else Insert(InsertAll(rows, id, webhooks[..|webhooks| - 1], event),
                Delivery(id + |webhooks| - 1, webhooks[|webhooks| - 1], event))
  }

  class DeliveryTable {
    var rows: seq<Delivery>
    var nextId: nat

    /** CreateDeliveries: rows go in one at a time, each insert on its own; the insert with number
        `failAt` fails and ends the call. `inserted` counts the rows actually new. */
    method CreateDeliveries(webhooks: seq<nat>, event: nat, failAt: nat) returns (inserted: nat, ok: bool)
      requires UniqueKeys(rows)
      modifies this
      ensures ok <==> |webhooks| <= failAt
      ensures rows == InsertAll(old(rows), old(nextId), if ok then webhooks else webhooks[..failAt], event)
      ensures UniqueKeys(rows) && old(rows) <= rows && inserted == |rows| - |old(rows)|
    {
      inserted, ok := 0, true;
      var first := nextId;
      nextId := nextId + |webhooks|;
      for i := 0 to |webhooks|
        invariant i <= failAt && rows == InsertAll(old(rows), first, webhooks[..i], event)
        invariant UniqueKeys(rows) && old(rows) <= rows && inserted == |rows| - |old(rows)|
      {
        if i == failAt {
          return inserted, false;
        }
        assert webhooks[..i + 1][..i] == webhooks[..i];
        if !HasKey(rows, webhooks[i], event) {
          rows := rows + [Delivery(first + i, webhooks[i], event)];
          inserted := inserted + 1;
        }
      }
      assert webhooks[..|webhooks|] == webhooks;
    }
  }

  // ---- At-least-once input, exactly-once rows ----------------------------------------------------

  /** The webhooks a handler call gets to when its row loop ends after `kept` inserts, failed or interrupted. */
  function Reached(webhooks: seq<nat>, kept: nat): seq<nat> { if kept < |webhooks| then webhooks[..kept] else webhooks }

  /** The table after handling a list of events in order; call number k ends after kept[k] inserts. */
  ghost function HandleAll(index: Index, events: seq<nat>, kept: seq<nat>, id: nat): seq<Delivery>
    requires |kept| == |events|
  {
    if events == [] then []
    else
      var n := |events| - 1;
      var before := HandleAll(index, events[..n], kept[..n], id);
      InsertAll(before, id + |before|, Reached(index(events[n]), kept[n]), events[n])
  }

  /** Some call on the event got to the webhook. */
  ghost predicate Got(index: Index, events: seq<nat>, kept: seq<nat>, w: nat, e: nat)
    requires |kept| == |events|
  {
    exists k | 0 <= k < |events| :: events[k] == e && w in Reached(index(e), kept[k])
  }

  lemma {:induction false} InsertAllKeys(rows: seq<Delivery>, id: nat, webhooks: seq<nat>, event: nat)
    requires UniqueKeys(rows)
    ensures var r := InsertAll(rows, id, webhooks, event);
      && UniqueKeys(r) && rows <= r
      && forall w, e :: HasKey(r, w, e) <==> HasKey(rows, w, e) || (e == event && w in webhooks)
    decreases |webhooks|
  {
    if webhooks != [] {
      var n := |webhooks| - 1;
      InsertAllKeys(rows, id, webhooks[..n], event);
      var before := InsertAll(rows, id, webhooks[..n], event);
      var d := Delivery(id + n, webhooks[n], event);
      forall w, e ensures HasKey(before + [d], w, e) <==> HasKey(before, w, e) || (w == d.webhook && e == d.event) {
        if HasKey(before, w, e) {
          var i :| 0 <= i < |before| && before[i].webhook == w && before[i].event == e;
          assert (before + [d])[i] == before[i];
        }
        assert (before + [d])[|before|] == d;
      }
      assert webhooks == webhooks[..n] + [webhooks[n]];
    }
  }

  lemma InsertedAreUnique(rows: seq<Delivery>, id: nat, webhooks: seq<nat>, event: nat)
    requires UniqueKeys(rows)
    ensures UniqueKeys(InsertAll(rows, id, webhooks, event))
  {
    InsertAllKeys(rows, id, webhooks, event);
  }

  lemma InsertedKey(rows: seq<Delivery>, id: nat, webhooks: seq<nat>, event: nat, w: nat, e: nat)
    requires UniqueKeys(rows)
    ensures HasKey(InsertAll(rows, id, webhooks, event), w, e) <==> HasKey(rows, w, e) || (e == event && w in webhooks)
  {
    InsertAllKeys(rows, id, webhooks, event);
  }

  lemma GotGrows(index: Index, events: seq<nat>, kept: seq<nat>, w: nat, e: nat)
    requires |kept| == |events| > 0
    ensures var n := |events| - 1;
      Got(index, events, kept, w, e) <==>
        Got(index, events[..n], kept[..n], w, e) || (e == events[n] && w in Reached(index(e), kept[n]))
  {
    var n := |events| - 1;
    if k :| 0 <= k < n && events[..n][k] == e && w in Reached(index(e), kept[..n][k]) {
      assert events[k] == e && w in Reached(index(e), kept[k]);
    }
    if k :| 0 <= k < |events| && events[k] == e && w in Reached(index(e), kept[k]) && k != n {
      assert events[..n][k] == e && w in Reached(index(e), kept[..n][k]);
    }
  }

  /** The rows are exactly the (webhook, event) pairs that some handler call got to, one row each, whatever the order,
      however often each event was handled, and wherever each call was cut short. */
  lemma {:induction false} RowsAreWhatCallsGotTo(index: Index, events: seq<nat>, kept: seq<nat>, id: nat)
    requires |kept| == |events|
    ensures var r := HandleAll(index, events, kept, id);
      UniqueKeys(r) && forall w, e :: HasKey(r, w, e) <==> Got(index, events, kept, w, e)
    decreases |events|
  {
    if events != [] {
      var n := |events| - 1;
      RowsAreWhatCallsGotTo(index, events[..n], kept[..n], id);
      var before, r := HandleAll(index, events[..n], kept[..n], id), HandleAll(index, events, kept, id);
      InsertedAreUnique(before, id + |before|, Reached(index(events[n]), kept[n]), events[n]);
      forall w, e ensures HasKey(r, w, e) <==> Got(index, events, kept, w, e) {
        assert HasKey(before, w, e) <==> Got(index, events[..n], kept[..n], w, e);
        InsertedKey(before, id + |before|, Reached(index(events[n]), kept[n]), events[n], w, e);
        GotGrows(index, events, kept, w, e);
      }
    }
  }

  /** Every event has a call that went through. */
  ghost predicate Complete(index: Index, events: seq<nat>, kept: seq<nat>)
    requires |kept| == |events|
  {
    forall e <- events :: exists k | 0 <= k < |events| :: events[k] == e && |index(e)| <= kept[k]
  }

  /** If every event has one, the rows are the matches of the distinct events, as if each had been handled once. */
  lemma RowsAreDistinctMatches(index: Index, events: seq<nat>, kept: seq<nat>, id: nat)
    requires |kept| == |events| && Complete(index, events, kept)
    ensures var r := HandleAll(index, events, kept, id);
      UniqueKeys(r) && forall w, e :: HasKey(r, w, e) <==> e in events && w in index(e)
  {
    RowsAreWhatCallsGotTo(index, events, kept, id);
    forall w, e ensures Got(index, events, kept, w, e) <==> e in events && w in index(e) {
      if e in events && w in index(e) {
        var k :| 0 <= k < |events| && events[k] == e && |index(e)| <= kept[k];
        assert w in Reached(index(e), kept[k]);
      }
    }
  }

  lemma {:induction false} VisitedIsHandled(s: State, tr: seq<Action>)
    requires Legal(s, tr)
    ensures forall q :: q in Exec(s, tr).visited <==> q in s.visited || q in Handled(s, tr)
    decreases |tr|
  {
    if tr != [] {
      VisitedIsHandled(s, tr[..|tr| - 1]);
      StepVisits(Exec(s, tr[..|tr| - 1]), tr[|tr| - 1]);
    }
  }

  /** A stream with nothing unread and nothing pending, some consumer being past its startup. */
  ghost predicate Drained(s: State) {
    SomeConsuming(s) && s.pending == {} && Front(s) == |s.log|
  }

  /** End to end, after any healthy run of any number of consumers, with its reclaims, crashes and overlapping
      backfills, once the stream is drained: no key has two rows, and of the matches of the published events exactly
      those are missing that no handler call got to; with a call that went through for each event, none. */
  lemma DrainedRunHasEveryRowOnce(tr: seq<Action>, s: State, index: Index, kept: seq<nat>, id: nat)
    requires Legal(Init, tr) && HealthyRun(Init, tr) && s == Exec(Init, tr) && Drained(s)
    requires |kept| == |Handled(Init, tr)|
    ensures var events := Handled(Init, tr);
      var rows := HandleAll(index, events, kept, id);
      && UniqueKeys(rows)
      && (forall i | 0 <= i < |s.log| && 0 < s.log[i] :: s.log[i] in events)
      && (forall w, e :: HasKey(rows, w, e) <==> Got(index, events, kept, w, e))
      && (Complete(index, events, kept) ==>
           forall i, w | 0 <= i < |s.log| && 0 < s.log[i] && w in index(s.log[i]) :: HasKey(rows, w, s.log[i]))
  {
    var events := Handled(Init, tr);
    VisitedIsHandled(Init, tr);
    RowsAreWhatCallsGotTo(index, events, kept, id);
    if Complete(index, events, kept) {
      RowsAreDistinctMatches(index, events, kept, id);
    }
    NoEventLost(BACKFILL_BATCH, tr, s);
    forall i | 0 <= i < |s.log| && 0 < s.log[i] ensures s.log[i] in events { assert s.log[i] in s.visited; }
  }

  // ---- A failed call is not made good --------------------------------------------------------------

  lemma {:induction false} PastIsNeverHandled(s: State, tr: seq<Action>, i: nat)
    requires Legal(s, tr) && InOrderRun(s, tr) && Ordered(s) && Past(s, i)
    ensures Ordered(Exec(s, tr)) && Past(Exec(s, tr), i)
    ensures i < |Exec(s, tr).log| && Exec(s, tr).log[i] == s.log[i] && s.log[i] !in Handled(s, tr)
    decreases |tr|
  {
    if tr != [] {
      var n := |tr| - 1;
      PastIsNeverHandled(s, tr[..n], i);
      PastForever(Exec(s, tr[..n]), tr[n], i);
      StepGrows(Exec(s, tr[..n]), tr[n]);
    }
  }

  /** Rows of an event that is past come from the calls so far: whatever happens later and whatever later calls get to,
      a match that none of them got to stays missing. */
  lemma MissingRowStaysMissing(s: State, i: nat, tr: seq<Action>, index: Index,
                               events: seq<nat>, kept: seq<nat>, later: seq<nat>, w: nat, id: nat)
    requires Ordered(s) && Past(s, i) && Legal(s, tr) && InOrderRun(s, tr)
    requires |kept| == |events| && |later| == |Handled(s, tr)| && !Got(index, events, kept, w, s.log[i])
    ensures !HasKey(HandleAll(index, events + Handled(s, tr), kept + later, id), w, s.log[i])
  {
    PastIsNeverHandled(s, tr, i);
    RowsAreWhatCallsGotTo(index, events + Handled(s, tr), kept + later, id);
    if Got(index, events + Handled(s, tr), kept + later, w, s.log[i]) {
      GotSplits(index, events, kept, Handled(s, tr), later, w, s.log[i]);
    }
  }

  // ---- Exactly when a missing row can still come ---------------------------------------------------

  /** A drained stream with every consumer past its startup, or down. */
  ghost predicate Settled(s: State) {
    Drained(s) && forall c <- s.consumers :: s.consumers[c].Idle? || s.consumers[c].Down?
  }

  /** The outbox still holds what was published above the watermark. */
  ghost predicate RowsKept(s: State) { forall i | 0 <= i < |s.log| && s.watermark < s.log[i] :: s.log[i] in s.outbox }

  lemma StepKeepsRows(s: State, a: Action)
    requires RowsKept(s) && Enabled(s, a) && Healthy(s, a)
    ensures RowsKept(Apply(s, a))
  {
    StepGrows(s, a);
  }

  lemma {:induction false} RunKeepsRows(s: State, tr: seq<Action>)
    requires RowsKept(s) && Legal(s, tr) && HealthyRun(s, tr)
    ensures RowsKept(Exec(s, tr))
    decreases |tr|
  {
    if tr != [] {
      RunKeepsRows(s, tr[..|tr| - 1]);
      StepKeepsRows(Exec(s, tr[..|tr| - 1]), tr[|tr| - 1]);
    }
  }

  /** The next event is published and all older entries are trimmed. */
  lemma MoveHead(s: State, u: State, q: nat) returns (tr: seq<Action>)
    requires Inv(s) && s.pending == {} && Front(s) == |s.log| && s.log != [] && s.committed < q
    requires u == s.(outbox := s.outbox + {q}, committed := q, log := s.log + [q], relayed := q, trimmed := |s.log|)
    ensures Calls(s, tr, u, []) && FirstSeq(u) == q
  {
    var s1 := s.(outbox := s.outbox + {q}, committed := q);
    var s2 := s1.(log := s1.log + [q], relayed := q);
    HeadMoves(s, s1, s2, u, q);
    Stays(s);
    tr := Silent(s, [], s, Commit(q), s1, []);
    tr := Silent(s, tr, s1, Relay(q), s2, []);
    tr := Silent(s, tr, s2, Trim(|s.log|), u, []);
  }

  lemma HeadMoves(s: State, s1: State, s2: State, u: State, q: nat)
    requires Inv(s) && s.pending == {} && Front(s) == |s.log| && s.log != [] && s.committed < q
    requires s1 == s.(outbox := s.outbox + {q}, committed := q) && s2 == s1.(log := s1.log + [q], relayed := q)
    requires u == s2.(trimmed := |s.log|)
    ensures Healthy(s, Commit(q)) && Apply(s, Commit(q)) == s1
    ensures Enabled(s1, Relay(q)) && Healthy(s1, Relay(q)) && Apply(s1, Relay(q)) == s2
    ensures Enabled(s2, Trim(|s.log|)) && Healthy(s2, Trim(|s.log|)) && Apply(s2, Trim(|s.log|)) == u
    ensures FirstSeq(u) == q
  {
    assert (set p | p in s2.pending && |s.log| <= p) == {};
  }

  /** With the watermark below it, an event can be handled again: once the stream's head has moved on, the backfill of
      the next startup covers it. */
  lemma HandledAgain(s: State, i: nat) returns (tr: seq<Action>)
    requires Inv(s) && RowsKept(s) && Settled(s) && i < |s.log| && s.watermark < s.log[i]
    ensures Legal(s, tr) && HealthyRun(s, tr) && s.log[i] in Handled(s, tr)
  {
    var q := s.committed + 2;
    var u := s.(outbox := s.outbox + {q}, committed := q, log := s.log + [q], relayed := q, trimmed := |s.log|);
    tr := MoveHead(s, u, q);
    tr := Start(s, 0, tr, u, []);
    var v, g;
    tr, v, g := BackfillAll(s, 0, tr, At(u, 0, Scanning(q, s.watermark)), []);
    RowsAre(u.outbox, s.watermark, q);
    assert s.log[i] in Rows(u.outbox, s.watermark, q);
  }

  /** A healthy continuation after which the row is there. */
  ghost predicate RowComes(s: State, tr: seq<Action>, index: Index, events: seq<nat>, kept: seq<nat>, later: seq<nat>,
                           w: nat, e: nat, id: nat)
    requires |kept| == |events|
  {
    && Legal(s, tr) && HealthyRun(s, tr) && |later| == |Handled(s, tr)|
    && HasKey(HandleAll(index, events + Handled(s, tr), kept + later, id), w, e)
  }

  lemma {:induction false} HealthyRunIsInOrder(s: State, tr: seq<Action>)
    requires Legal(s, tr) && HealthyRun(s, tr)
    ensures InOrderRun(s, tr)
    decreases |tr|
  {
    if tr != [] {
      HealthyRunIsInOrder(s, tr[..|tr| - 1]);
    }
  }

  lemma RowCanCome(s: State, i: nat, index: Index, events: seq<nat>, kept: seq<nat>, w: nat, id: nat)
    returns (tr: seq<Action>, later: seq<nat>)
    requires Inv(s) && RowsKept(s) && Settled(s) && i < |s.log| && s.watermark < s.log[i]
    requires |kept| == |events| && w in index(s.log[i])
    ensures RowComes(s, tr, index, events, kept, later, w, s.log[i], id)
  {
    tr := HandledAgain(s, i);
    var more, e := Handled(s, tr), s.log[i];
    later := seq(|more|, _ => |index(e)|);
    var j :| 0 <= j < |more| && more[j] == e;
    RowsAreWhatCallsGotTo(index, events + more, kept + later, id);
    assert (events + more)[|events| + j] == e && (kept + later)[|events| + j] == |index(e)|;
    assert w in Reached(index(e), (kept + later)[|events| + j]);
  }

  /** After any healthy run that ends settled, and for a match that no handler call got to: some healthy continuation
      brings its row if and only if the watermark is still below the event. */
  lemma MissingRowCanComeIff(batchRows: nat, pre: seq<Action>, s: State, i: nat,
                             index: Index, events: seq<nat>, kept: seq<nat>, w: nat, id: nat)
    requires 1 <= batchRows && Reaches(InitWith(batchRows), pre, s) && Settled(s)
    requires i < |s.log| && 0 < s.log[i] && w in index(s.log[i])
    requires |kept| == |events| && !Got(index, events, kept, w, s.log[i])
    ensures (exists tr: seq<Action>, later: seq<nat> :: RowComes(s, tr, index, events, kept, later, w, s.log[i], id))
      <==> s.watermark < s.log[i]
  {
    RunKeepsInv(InitWith(batchRows), pre);
    RunKeepsRows(InitWith(batchRows), pre);
    if s.watermark < s.log[i] {
      var tr, later := RowCanCome(s, i, index, events, kept, w, id);
    } else {
      assert Past(s, i);
      forall tr: seq<Action>, later: seq<nat> | Legal(s, tr) && HealthyRun(s, tr) && |later| == |Handled(s, tr)|
        ensures !RowComes(s, tr, index, events, kept, later, w, s.log[i], id)
      {
        HealthyRunIsInOrder(s, tr);
        MissingRowStaysMissing(s, i, tr, index, events, kept, later, w, id);
      }
    }
  }

  lemma GotSplits(index: Index, events: seq<nat>, kept: seq<nat>, more: seq<nat>, later: seq<nat>, w: nat, e: nat)
    requires |kept| == |events| && |later| == |more| && Got(index, events + more, kept + later, w, e)
    ensures Got(index, events, kept, w, e) || e in more
  {
    var all := events + more;
    var k :| 0 <= k < |all| && all[k] == e && w in Reached(index(e), (kept + later)[k]);
    if k < |events| {
      assert events[k] == e && w in Reached(index(e), kept[k]);
    } else {
      assert more[k - |events|] == e;
    }
  }

  /** One event, read, handled, acked, the watermark advanced. */
  const OneConsumed :=
    Init.(outbox := {1}, committed := 1, log := [1], relayed := 1, cursor := 1, watermark := 1,
          ran := {0}, visited := {1}, acked := {0}, consumers := map[0 := Idle])

  lemma AfterOneEntry(v: State)
    requires v == Init.(outbox := {1}, committed := 1, log := [1], relayed := 1, consumers := map[0 := Idle])
    ensures CanRead(v, 0, 1) && Enabled(AfterBatch(v, 0, 1), Advance(0, true))
    ensures Apply(AfterBatch(v, 0, 1), Advance(0, true)) == OneConsumed
  {
    assert Unread(v, 1) == [0] && Positions([0]) == {0};
    OneRealEntry(v);
    SeqsGrow(v.log, [0], 0);
    assert [0][..1] == [0] && [0][..0] == [] && SeqsOf(v.log, []) == {};
    assert {} + {0} - {0} == {};
    assert AfterBatch(v, 0, 1).consumers[0 := Idle] == OneConsumed.consumers;
  }

  lemma OneConsumedIsReached() returns (tr: seq<Action>)
    ensures Reaches(Init, tr, OneConsumed)
  {
    var u := Init.(outbox := {1}, committed := 1, log := [1], relayed := 1);
    var v := u.(consumers := map[0 := Idle]);
    Stays(Init);
    tr := PublishNext(Init, [], Init, 1, u);
    tr := StartUp(Init, tr, u, u.(consumers := map[0 := Probed(0)]));
    assert map[0 := Probed(0)][0 := Idle] == v.consumers;
    tr := Reach(Init, tr, u.(consumers := map[0 := Probed(0)]), ReadFirst(0), v);
    tr := ConsumeBatch(Init, 0, 1, tr, v);
    AfterOneEntry(v);
    tr := Reach(Init, tr, AfterBatch(v, 0, 1), Advance(0, true), OneConsumed);
  }

  /** A healthy run whose one handler call fails at its first insert: the stream is drained, the row is missing, and in
      every continuation it stays missing. */
  lemma FailedCallLosesRows(index: Index, w: nat, id: nat) returns (tr: seq<Action>)
    requires w in index(1)
    ensures Reaches(Init, tr, OneConsumed) && Drained(OneConsumed) && Past(OneConsumed, 0) && Ordered(OneConsumed)
    ensures 1 in Handled(Init, tr)
    ensures !Got(index, Handled(Init, tr), seq(|Handled(Init, tr)|, _ => 0), w, 1)
  {
    tr := OneConsumedIsReached();
    VisitedIsHandled(Init, tr);
    var s := OneConsumed;
    assert s.consumers[0].Idle? && s.log[0] == 1;
    var kept := seq(|Handled(Init, tr)|, _ => 0);
    assert forall k | 0 <= k < |kept| :: Reached(index(1), kept[k]) == [];
  }
}
