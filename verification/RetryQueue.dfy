/** worker/worker.go: the invocation queue. Workers take a message, process it, and on a transient failure
    put a copy with a higher attempt count back before acking the one they hold. */
module RetryQueue {
  import opened Sums

  const MAX_ATTEMPTS := 3

  /** The payload: the attempt count travels in the message, nowhere else. */
  datatype Message = Message(invocation: nat, attempt: nat)

  datatype Status = Unread | Pending | Gone

  /** A stream entry. Its position in `copies` is its id, so entries are never removed, only Gone. */
  datatype Copy = Copy(message: Message, status: Status)

  datatype Stage =
    | Fetched     // handed out, not processed
    | Failed      // processed, failed transiently, may be retried
    | Requeued    // its successor is in the queue
    | Settled     // succeeded or invalid; only the ack is left
    | Spent       // failed for the last time; ack, then mark
    | ToMark      // acked (or the ack was lost); the failure is still to be recorded
    | Over        // finished with, or the worker died

  /** One hand-out of an entry to a worker. A reclaimed entry has several, possibly at work at once. */
  datatype Delivery = Delivery(copy: nat, message: Message, stage: Stage)

  /** `processed` and `reclaimed` list the invocations concerned, one item per event. */
  datatype State = State(
    copies: seq<Copy>, deliveries: seq<Delivery>,
    submitted: set<nat>, succeeded: set<nat>, discarded: set<nat>, exhausted: set<nat>, marked: set<nat>,
    processed: seq<nat>, reclaimed: seq<nat>)

  datatype Outcome = Success | Invalid | Transient

  datatype Step =
    | Submit(invocation: nat)
    | Deliver(copy: nat)
    | Reclaim(copy: nat)
    | Process(d: nat, outcome: Outcome)
    | Requeue(d: nat, ok: bool, applied: bool)  // not ok but applied: the reply was lost
    | Ack(d: nat, ok: bool)
    | Mark(d: nat, ok: bool)
    | Die(d: nat)

  const Init := State([], [], {}, {}, {}, {}, {}, [], [])

  /** requeue: the message to put back, or none when its attempts are used up. */
  function Next(m: Message): (r: Message) { m.(attempt := m.attempt + 1) }

  predicate MayRetry(m: Message) { Next(m).attempt <= MAX_ATTEMPTS }

  predicate Enabled(s: State, st: Step) {
    match st
    case Submit(inv) => inv !in s.submitted
    case Deliver(i) => i < |s.copies| && s.copies[i].status == Unread
    case Reclaim(i) => i < |s.copies| && s.copies[i].status == Pending
    case Process(d, _) => d < |s.deliveries| && s.deliveries[d].stage == Fetched
    case Requeue(d, _, _) => d < |s.deliveries| && s.deliveries[d].stage == Failed
    case Ack(d, _) =>
      && d < |s.deliveries| && s.deliveries[d].copy < |s.copies|
      && (s.deliveries[d].stage == Requeued || s.deliveries[d].stage == Settled || s.deliveries[d].stage == Spent)
    case Mark(d, _) => d < |s.deliveries| && s.deliveries[d].stage == ToMark
    case Die(d) => d < |s.deliveries| && s.deliveries[d].stage != Over
  }

  function At(s: State, d: nat, stage: Stage): State
    requires d < |s.deliveries|
  {
    s.(deliveries := s.deliveries[d := s.deliveries[d].(stage := stage)])
  }

  function Apply(s: State, st: Step): State
    requires Enabled(s, st)
  {
    match st
    case Submit(inv) => s.(copies := s.copies + [Copy(Message(inv, 0), Unread)], submitted := s.submitted + {inv})
    case Deliver(i) =>
      s.(copies := s.copies[i := s.copies[i].(status := Pending)],
         deliveries := s.deliveries + [Delivery(i, s.copies[i].message, Fetched)])
    case Reclaim(i) =>
      s.(deliveries := s.deliveries + [Delivery(i, s.copies[i].message, Fetched)],
         reclaimed := s.reclaimed + [s.copies[i].message.invocation])
    case Process(d, outcome) =>
      var m := s.deliveries[d].message;
      var t := s.(processed := s.processed + [m.invocation]);
      (match outcome
       case Success => At(t.(succeeded := t.succeeded + {m.invocation}), d, Settled)
       case Invalid => At(t.(discarded := t.discarded + {m.invocation}), d, Settled)
       case Transient =>
         if MayRetry(m) then At(t, d, Failed) else At(t.(exhausted := t.exhausted + {m.invocation}), d, Spent))
    case Requeue(d, ok, applied) =>
      var next := Copy(Next(s.deliveries[d].message), Unread);
      At(if ok || applied then s.(copies := s.copies + [next]) else s, d, if ok then Requeued else Over)
    case Ack(d, ok) =>
      var i := s.deliveries[d].copy;
      At(if ok then s.(copies := s.copies[i := s.copies[i].(status := Gone)]) else s, d,
         if s.deliveries[d].stage == Spent then ToMark else Over)
    case Mark(d, ok) =>
      At(if ok then s.(marked := s.marked + {s.deliveries[d].message.invocation}) else s, d, Over)
    case Die(d) => At(s, d, Over)
  }

  ghost predicate Legal(s: State, run: seq<Step>)
    decreases |run|, 0
  {
    run == [] || (Legal(s, run[..|run| - 1]) && Enabled(Exec(s, run[..|run| - 1]), run[|run| - 1]))
  }

  ghost function Exec(s: State, run: seq<Step>): State
    requires Legal(s, run)
    decreases |run|, 1
  {
    if run == [] then s else Apply(Exec(s, run[..|run| - 1]), run[|run| - 1])
  }

  // ---- Conservation ------------------------------------------------------------------------------

  predicate Resolved(s: State, inv: nat) { inv in s.succeeded || inv in s.discarded || inv in s.exhausted }

  /** A copy of the invocation, past the given attempt, that is unread or pending. */
  predicate Live(s: State, inv: nat, after: int) {
    exists i | 0 <= i < |s.copies| ::
      s.copies[i].message.invocation == inv && after < s.copies[i].message.attempt && s.copies[i].status != Gone
  }

  predicate DeliveryOk(s: State, d: Delivery) {
    && d.copy < |s.copies| && s.copies[d.copy].message == d.message && s.copies[d.copy].status != Unread
    && (d.stage == Requeued ==> Resolved(s, d.message.invocation) || Live(s, d.message.invocation, d.message.attempt))
    && (d.stage == Failed ==> MayRetry(d.message))
    && (d.stage == Settled ==> d.message.invocation in s.succeeded + s.discarded)
    && (d.stage == Spent || d.stage == ToMark ==> d.message.invocation in s.exhausted)
  }

  predicate CopyOk(s: State, c: Copy) {
    c.message.invocation in s.submitted && c.message.attempt <= MAX_ATTEMPTS
  }

  ghost predicate Inv(s: State) {
    && (forall inv <- s.submitted :: Resolved(s, inv) || Live(s, inv, -1))
    && (forall d | 0 <= d < |s.deliveries| :: DeliveryOk(s, s.deliveries[d]))
    && (forall i | 0 <= i < |s.copies| :: CopyOk(s, s.copies[i]))
    && s.marked <= s.exhausted <= s.submitted
  }

  /** Acking a delivery that may be acked never removes the last live copy of an unresolved invocation. */
  lemma LiveStays(s: State, st: Step, inv: nat, after: int)
    requires Inv(s) && Enabled(s, st) && (Resolved(s, inv) || Live(s, inv, after))
    ensures Resolved(Apply(s, st), inv) || Live(Apply(s, st), inv, after)
  {
    var t := Apply(s, st);
    if !Resolved(s, inv) {
      var i :| 0 <= i < |s.copies| && s.copies[i].message.invocation == inv
        && after < s.copies[i].message.attempt && s.copies[i].status != Gone;
      if t.copies[i].status == Gone {
        var d := s.deliveries[st.d];
        assert DeliveryOk(s, d);
        var j :| 0 <= j < |s.copies| && s.copies[j].message.invocation == inv
          && d.message.attempt < s.copies[j].message.attempt && s.copies[j].status != Gone;
        assert t.copies[j].status != Gone;
      }
    }
  }

  lemma SubmittedStay(s: State, st: Step, inv: nat)
    requires Inv(s) && Enabled(s, st) && inv in Apply(s, st).submitted
    ensures Resolved(Apply(s, st), inv) || Live(Apply(s, st), inv, -1)
  {
    if inv in s.submitted {
      LiveStays(s, st, inv, -1);
    } else {
      assert Apply(s, st).copies[|s.copies|].message.invocation == inv;
    }
  }

  lemma NewDeliveryOk(s: State, st: Step)
    requires Inv(s) && Enabled(s, st) && (st.Deliver? || st.Reclaim?)
    ensures DeliveryOk(Apply(s, st), Apply(s, st).deliveries[|s.deliveries|])
  {
  }

  /** A step on a hand-out keeps what is known of it. */
  lemma OwnDeliveryOk(s: State, st: Step)
    requires Inv(s) && Enabled(s, st) && (st.Process? || st.Requeue? || st.Ack? || st.Mark? || st.Die?)
    ensures DeliveryOk(Apply(s, st), Apply(s, st).deliveries[st.d])
  {
    var e := s.deliveries[st.d];
    assert DeliveryOk(s, e);
    if st.Requeue? && (st.ok || st.applied) {
      assert Apply(s, st).copies[|s.copies|].message == Next(e.message);
    }
  }

  lemma OtherDeliveryOk(s: State, st: Step, d: nat)
    requires Inv(s) && Enabled(s, st) && d < |s.deliveries| && Apply(s, st).deliveries[d] == s.deliveries[d]
    ensures DeliveryOk(Apply(s, st), s.deliveries[d])
  {
    var e := s.deliveries[d];
    assert DeliveryOk(s, e);
    if e.stage == Requeued {
      LiveStays(s, st, e.message.invocation, e.message.attempt);
    }
  }

  lemma CopiesStay(s: State, st: Step, i: nat)
    requires Inv(s) && Enabled(s, st) && i < |Apply(s, st).copies|
    ensures CopyOk(Apply(s, st), Apply(s, st).copies[i])
  {
    if st.Requeue? {
      var e := s.deliveries[st.d];
      assert DeliveryOk(s, e) && CopyOk(s, s.copies[e.copy]);
    }
  }

  lemma ExhaustedStay(s: State, st: Step)
    requires Inv(s) && Enabled(s, st)
    ensures var t := Apply(s, st); t.marked <= t.exhausted <= t.submitted
  {
    if st.Process? || st.Mark? {
      var e := s.deliveries[st.d];
      assert DeliveryOk(s, e) && CopyOk(s, s.copies[e.copy]);
    }
  }

  lemma StepKeepsInv(s: State, st: Step)
    requires Inv(s) && Enabled(s, st)
    ensures Inv(Apply(s, st))
  {
    var t := Apply(s, st);
    forall inv <- t.submitted ensures Resolved(t, inv) || Live(t, inv, -1) { SubmittedStay(s, st, inv); }
    forall d | 0 <= d < |t.deliveries| ensures DeliveryOk(t, t.deliveries[d]) {
      if d == |s.deliveries| {
        NewDeliveryOk(s, st);
      } else if !st.Submit? && !st.Deliver? && !st.Reclaim? && st.d == d {
        OwnDeliveryOk(s, st);
      } else {
        OtherDeliveryOk(s, st, d);
      }
    }
    forall i | 0 <= i < |t.copies| ensures CopyOk(t, t.copies[i]) { CopiesStay(s, st, i); }
    ExhaustedStay(s, st);
  }

  /** After any run, with any interleaving, crash, lost ack and failed re-enqueue: every submitted
      invocation has an unread or pending copy, or succeeded, or was discarded as invalid, or failed on
      its last attempt. */
  lemma {:induction false} NothingVanishes(run: seq<Step>)
    requires Legal(Init, run)
    ensures Inv(Exec(Init, run))
    ensures forall inv <- Exec(Init, run).submitted :: Resolved(Exec(Init, run), inv) || Live(Exec(Init, run), inv, -1)
    decreases |run|
  {
    if run != [] {
      NothingVanishes(run[..|run| - 1]);
      StepKeepsInv(Exec(Init, run[..|run| - 1]), run[|run| - 1]);
    }
  }

  // ---- Bounded work ------------------------------------------------------------------------------

  /** How often a message at this attempt can still be processed, down its own chain of retries. */
  function TriesLeft(attempt: nat): nat { if attempt <= MAX_ATTEMPTS then MAX_ATTEMPTS + 1 - attempt else 0 }

  ghost function CopyWeight(inv: nat): Copy -> nat {
    (c: Copy) => if c.message.invocation == inv && c.status == Unread then TriesLeft(c.message.attempt) else 0
  }

  ghost function DeliveryWeight(inv: nat): Delivery -> nat {
    (d: Delivery) =>
      if d.message.invocation != inv then 0
      else if d.stage == Fetched then TriesLeft(d.message.attempt)
      else if d.stage == Failed then TriesLeft(d.message.attempt + 1)
      else 0
  }

  function Is(inv: nat): nat -> nat { (x: nat) => if x == inv then 1 else 0 }

  ghost function Processed(s: State, inv: nat): nat { Sum(s.processed, Is(inv)) }
  ghost function Reclaims(s: State, inv: nat): nat { Sum(s.reclaimed, Is(inv)) }
  ghost function Potential(s: State, inv: nat): nat {
    Sum(s.copies, CopyWeight(inv)) + Sum(s.deliveries, DeliveryWeight(inv))
  }

  /** Work done plus work still possible never exceeds four tries for the submission and each reclaim. */
  ghost predicate Budget(s: State, inv: nat) {
    Processed(s, inv) + Potential(s, inv)
      <= (MAX_ATTEMPTS + 1) * ((if inv in s.submitted then 1 else 0) + Reclaims(s, inv))
  }

  lemma AtPotential(s: State, d: nat, stage: Stage, inv: nat)
    requires d < |s.deliveries|
    ensures var w := DeliveryWeight(inv);
      Potential(At(s, d, stage), inv) + w(s.deliveries[d]) == Potential(s, inv) + w(s.deliveries[d].(stage := stage))
  {
    SumUpdate(s.deliveries, DeliveryWeight(inv), d, s.deliveries[d].(stage := stage));
  }

  // What each kind of step does to the sums, for one invocation.

  lemma SubmitKeepsBudget(s: State, i: nat, inv: nat)
    requires Enabled(s, Submit(i)) && Budget(s, inv)
    ensures Budget(Apply(s, Submit(i)), inv)
  {
    SumAppend(s.copies, CopyWeight(inv), Copy(Message(i, 0), Unread));
  }

  lemma DeliverKeepsBudget(s: State, i: nat, inv: nat)
    requires Enabled(s, Deliver(i)) && Budget(s, inv)
    ensures Budget(Apply(s, Deliver(i)), inv)
  {
    SumUpdate(s.copies, CopyWeight(inv), i, s.copies[i].(status := Pending));
    SumAppend(s.deliveries, DeliveryWeight(inv), Delivery(i, s.copies[i].message, Fetched));
  }

  lemma ReclaimKeepsBudget(s: State, i: nat, inv: nat)
    requires Enabled(s, Reclaim(i)) && Budget(s, inv)
    ensures Budget(Apply(s, Reclaim(i)), inv)
  {
    SumAppend(s.deliveries, DeliveryWeight(inv), Delivery(i, s.copies[i].message, Fetched));
    SumAppend(s.reclaimed, Is(inv), s.copies[i].message.invocation);
  }

  /** The stage a hand-out is in after processing. */
  function AfterProcess(m: Message, outcome: Outcome): Stage {
    if outcome != Transient then Settled else if MayRetry(m) then Failed else Spent
  }

  /** Processing uses up one try of the hand-out. */
  lemma ProcessWeight(e: Delivery, outcome: Outcome, inv: nat)
    requires e.stage == Fetched && e.message.attempt <= MAX_ATTEMPTS
    ensures DeliveryWeight(inv)(e.(stage := AfterProcess(e.message, outcome))) + Is(inv)(e.message.invocation)
      <= DeliveryWeight(inv)(e)
  {
  }

  lemma ProcessIs(s: State, d: nat, outcome: Outcome)
    requires Enabled(s, Process(d, outcome))
    ensures var t, e := Apply(s, Process(d, outcome)), s.deliveries[d];
      && t.deliveries == s.deliveries[d := e.(stage := AfterProcess(e.message, outcome))]
      && t.processed == s.processed + [e.message.invocation]
      && t.copies == s.copies && t.submitted == s.submitted && t.reclaimed == s.reclaimed
  {
  }

  lemma ProcessKeepsBudget(s: State, d: nat, outcome: Outcome, inv: nat)
    requires Enabled(s, Process(d, outcome)) && Budget(s, inv) && s.deliveries[d].message.attempt <= MAX_ATTEMPTS
    ensures Budget(Apply(s, Process(d, outcome)), inv)
  {
    var e := s.deliveries[d];
    ProcessIs(s, d, outcome);
    ProcessWeight(e, outcome, inv);
    SumAppend(s.processed, Is(inv), e.message.invocation);
    SumUpdate(s.deliveries, DeliveryWeight(inv), d, e.(stage := AfterProcess(e.message, outcome)));
  }

  lemma RequeueKeepsBudget(s: State, st: Step, inv: nat)
    requires Enabled(s, st) && st.Requeue? && Budget(s, inv)
    ensures Budget(Apply(s, st), inv)
  {
    AtPotential(s, st.d, Apply(s, st).deliveries[st.d].stage, inv);
    SumAppend(s.copies, CopyWeight(inv), Copy(Next(s.deliveries[st.d].message), Unread));
  }

  lemma AckKeepsBudget(s: State, d: nat, ok: bool, inv: nat)
    requires Enabled(s, Ack(d, ok)) && Budget(s, inv)
    ensures Budget(Apply(s, Ack(d, ok)), inv)
  {
    var i := s.deliveries[d].copy;
    AtPotential(s, d, Apply(s, Ack(d, ok)).deliveries[d].stage, inv);
    SumUpdate(s.copies, CopyWeight(inv), i, s.copies[i].(status := Gone));
  }

  lemma EndKeepsBudget(s: State, st: Step, inv: nat)
    requires Enabled(s, st) && Budget(s, inv) && (st.Mark? || st.Die?)
    ensures Budget(Apply(s, st), inv)
  {
    AtPotential(s, st.d, Over, inv);
  }

  lemma StepKeepsBudget(s: State, st: Step, inv: nat)
    requires Inv(s) && Enabled(s, st) && Budget(s, inv)
    ensures Budget(Apply(s, st), inv)
  {
    match st
    case Submit(i) => SubmitKeepsBudget(s, i, inv);
    case Deliver(i) => DeliverKeepsBudget(s, i, inv);
    case Reclaim(i) => ReclaimKeepsBudget(s, i, inv);
    case Process(d, outcome) =>
      assert DeliveryOk(s, s.deliveries[d]) && CopyOk(s, s.copies[s.deliveries[d].copy]);
      ProcessKeepsBudget(s, d, outcome, inv);
    case Requeue(_, _, _) => RequeueKeepsBudget(s, st, inv);
    case Ack(d, ok) => AckKeepsBudget(s, d, ok, inv);
    case _ => EndKeepsBudget(s, st, inv);
  }

  lemma {:induction false} RunKeepsBudget(run: seq<Step>, inv: nat)
    requires Legal(Init, run)
    ensures Budget(Exec(Init, run), inv)
    decreases |run|
  {
    if run != [] {
      RunKeepsBudget(run[..|run| - 1], inv);
      NothingVanishes(run[..|run| - 1]);
      StepKeepsBudget(Exec(Init, run[..|run| - 1]), run[|run| - 1], inv);
    }
  }

  /** Total work is bounded: with R reclaims of its un-acked entries, an invocation is processed at most
      4 * (1 + R) times in any run, so at most 4 times when nothing of it is ever reclaimed. */
  lemma WorkIsBounded(run: seq<Step>, inv: nat)
    requires Legal(Init, run)
    ensures Processed(Exec(Init, run), inv) <= 4 * (1 + Reclaims(Exec(Init, run), inv))
    ensures Reclaims(Exec(Init, run), inv) == 0 ==> Processed(Exec(Init, run), inv) <= 4
  {
    RunKeepsBudget(run, inv);
  }

  // ---- Every invocation gets its tries -----------------------------------------------------------

  /** A copy at attempt a has at least a tries behind it, and a hand-out that failed one more. */
  ghost predicate TriesBehind(s: State) {
    && (forall i | 0 <= i < |s.copies| ::
          Processed(s, s.copies[i].message.invocation) >= s.copies[i].message.attempt)
    && (forall d | 0 <= d < |s.deliveries| :: HandOutTried(s, s.deliveries[d]))
    && (forall inv <- s.exhausted :: Processed(s, inv) >= 4)
  }

  ghost predicate HandOutTried(s: State, d: Delivery) {
    Processed(s, d.message.invocation) >= d.message.attempt + if d.stage == Failed || d.stage == Spent then 1 else 0
  }

  /** No step takes a try back, and processing adds one. */
  lemma ProcessedGrows(s: State, st: Step, inv: nat)
    requires Enabled(s, st)
    ensures Processed(Apply(s, st), inv) ==
      Processed(s, inv) + if st.Process? && s.deliveries[st.d].message.invocation == inv then 1 else 0
  {
    if st.Process? {
      ProcessIs(s, st.d, st.outcome);
      SumAppend(s.processed, Is(inv), s.deliveries[st.d].message.invocation);
    }
  }

  lemma CopyTried(s: State, st: Step, i: nat)
    requires TriesBehind(s) && Enabled(s, st) && i < |Apply(s, st).copies|
    ensures var t := Apply(s, st); Processed(t, t.copies[i].message.invocation) >= t.copies[i].message.attempt
  {
    var m := Apply(s, st).copies[i].message;
    ProcessedGrows(s, st, m.invocation);
    if i < |s.copies| {
      assert m == s.copies[i].message;
    } else if st.Requeue? {
      assert HandOutTried(s, s.deliveries[st.d]);
    }
  }

  lemma DeliveryTried(s: State, st: Step, d: nat)
    requires TriesBehind(s) && Enabled(s, st) && d < |Apply(s, st).deliveries|
    ensures HandOutTried(Apply(s, st), Apply(s, st).deliveries[d])
  {
    ProcessedGrows(s, st, Apply(s, st).deliveries[d].message.invocation);
    if d < |s.deliveries| {
      assert HandOutTried(s, s.deliveries[d]);
    }
  }

  lemma ExhaustedTried(s: State, st: Step, inv: nat)
    requires TriesBehind(s) && Enabled(s, st) && inv in Apply(s, st).exhausted
    ensures Processed(Apply(s, st), inv) >= 4
  {
    ProcessedGrows(s, st, inv);
    if inv !in s.exhausted {
      assert HandOutTried(s, s.deliveries[st.d]);
    }
  }

  lemma StepKeepsTries(s: State, st: Step)
    requires TriesBehind(s) && Enabled(s, st)
    ensures TriesBehind(Apply(s, st))
  {
    var t := Apply(s, st);
    forall i | 0 <= i < |t.copies| ensures Processed(t, t.copies[i].message.invocation) >= t.copies[i].message.attempt {
      CopyTried(s, st, i);
    }
    forall d | 0 <= d < |t.deliveries| ensures HandOutTried(t, t.deliveries[d]) { DeliveryTried(s, st, d); }
    forall inv <- t.exhausted ensures Processed(t, inv) >= 4 { ExhaustedTried(s, st, inv); }
  }

  lemma {:induction false} RunKeepsTries(run: seq<Step>)
    requires Legal(Init, run)
    ensures TriesBehind(Exec(Init, run))
    decreases |run|
  {
    if run != [] {
      RunKeepsTries(run[..|run| - 1]);
      StepKeepsTries(Exec(Init, run[..|run| - 1]), run[|run| - 1]);
    }
  }

  /** In every run an invocation is out of attempts only after four tries, and after exactly four if nothing of it was
      ever reclaimed. */
  lemma FourTriesBeforeGivingUp(run: seq<Step>, inv: nat)
    requires Legal(Init, run) && inv in Exec(Init, run).exhausted
    ensures Processed(Exec(Init, run), inv) >= 4
    ensures Reclaims(Exec(Init, run), inv) == 0 ==> Processed(Exec(Init, run), inv) == 4
  {
    RunKeepsTries(run);
    WorkIsBounded(run, inv);
  }

  // ---- Out of attempts ---------------------------------------------------------------------------

  /** A hand-out through which its invocation can still come to be marked. */
  predicate AtWork(d: Delivery) { d.stage in {Fetched, Failed, Spent, ToMark} }

  /** A copy or a hand-out of the invocation that can still lead to its mark. */
  ghost predicate Held(s: State, inv: nat) {
    || Live(s, inv, -1)
    || exists d | 0 <= d < |s.deliveries| :: s.deliveries[d].message.invocation == inv && AtWork(s.deliveries[d])
  }

  /** An invocation out of attempts that is neither marked nor held. */
  ghost predicate Abandoned(s: State, inv: nat) {
    inv in s.exhausted && inv in s.submitted && inv !in s.marked && !Held(s, inv)
  }

  /** No step of the queue or of any worker marks it. */
  lemma AbandonedForever(s: State, st: Step, inv: nat)
    requires Enabled(s, st) && Abandoned(s, inv)
    ensures Abandoned(Apply(s, st), inv)
  {
    var t := Apply(s, st);
    forall i | 0 <= i < |t.copies| && t.copies[i].message.invocation == inv ensures t.copies[i].status == Gone {
      assert i < |s.copies| ==> s.copies[i].message == t.copies[i].message;
    }
    forall d | 0 <= d < |t.deliveries| && t.deliveries[d].message.invocation == inv ensures !AtWork(t.deliveries[d]) {
      assert d < |s.deliveries| ==> t.deliveries[d].message == s.deliveries[d].message;
    }
  }

  lemma {:induction false} AbandonedAlways(s: State, run: seq<Step>, inv: nat)
    requires Legal(s, run) && Abandoned(s, inv)
    ensures Abandoned(Exec(s, run), inv)
    decreases |run|
  {
    if run != [] {
      AbandonedAlways(s, run[..|run| - 1], inv);
      AbandonedForever(Exec(s, run[..|run| - 1]), run[|run| - 1], inv);
    }
  }

  /** A run from s that ends in u. */
  ghost predicate Reaches(s: State, run: seq<Step>, u: State) { Legal(s, run) && Exec(s, run) == u }

  lemma Reach(s: State, run: seq<Step>, u: State, st: Step, t: State) returns (next: seq<Step>)
    requires Reaches(s, run, u) && Enabled(u, st) && t == Apply(u, st)
    ensures Reaches(s, next, t)
  {
    next := run + [st];
    assert next[..|run|] == run;
  }

  ghost predicate CanBeMarked(s: State, inv: nat) {
    exists run: seq<Step>, u: State :: Reaches(s, run, u) && inv in u.marked
  }

  function Left(m: Message): nat { if m.attempt <= MAX_ATTEMPTS then MAX_ATTEMPTS - m.attempt else 0 }

  /** A hand-out out of tries is acked, if it is not yet, and marked. */
  lemma SpentIsMarked(s: State, pre: seq<Step>, u: State, d: nat)
    requires Reaches(s, pre, u) && d < |u.deliveries| && u.deliveries[d].copy < |u.copies|
    requires u.deliveries[d].stage == Spent || u.deliveries[d].stage == ToMark
    ensures CanBeMarked(s, u.deliveries[d].message.invocation)
  {
    var run, v := pre, u;
    if u.deliveries[d].stage == Spent {
      v := Apply(u, Ack(d, false));
      run := Reach(s, pre, u, Ack(d, false), v);
    }
    var t := Apply(v, Mark(d, true));
    run := Reach(s, run, v, Mark(d, true), t);
  }

  /** A copy is handed out, fails, and is put back until its tries are spent; then it is marked. */
  lemma {:induction false} CopyIsMarked(s: State, pre: seq<Step>, u: State, i: nat)
    requires Reaches(s, pre, u) && i < |u.copies| && u.copies[i].status != Gone
    ensures CanBeMarked(s, u.copies[i].message.invocation)
    decreases Left(u.copies[i].message), 2
  {
    var take := if u.copies[i].status == Unread then Deliver(i) else Reclaim(i);
    var v := Apply(u, take);
    var run := Reach(s, pre, u, take, v);
    FetchedIsMarked(s, run, v, |u.deliveries|);
  }

  lemma {:induction false} FetchedIsMarked(s: State, pre: seq<Step>, u: State, d: nat)
    requires Reaches(s, pre, u) && d < |u.deliveries| && u.deliveries[d].copy < |u.copies|
    requires u.deliveries[d].stage == Fetched
    ensures CanBeMarked(s, u.deliveries[d].message.invocation)
    decreases Left(u.deliveries[d].message), 1
  {
    var v := Apply(u, Process(d, Transient));
    var run := Reach(s, pre, u, Process(d, Transient), v);
    if MayRetry(u.deliveries[d].message) {
      FailedIsMarked(s, run, v, d);
    } else {
      SpentIsMarked(s, run, v, d);
    }
  }

  lemma {:induction false} FailedIsMarked(s: State, pre: seq<Step>, u: State, d: nat)
    requires Reaches(s, pre, u) && d < |u.deliveries|
    requires u.deliveries[d].stage == Failed && MayRetry(u.deliveries[d].message)
    ensures CanBeMarked(s, u.deliveries[d].message.invocation)
    decreases Left(u.deliveries[d].message), 0
  {
    var v := Apply(u, Requeue(d, true, true));
    var run := Reach(s, pre, u, Requeue(d, true, true), v);
    CopyIsMarked(s, run, v, |u.copies|);
  }

  /** Exactly when an invocation out of attempts can still be marked failed: if and only if some copy of it is unread
      or pending, or some worker has yet to process, put back, ack or mark it. */
  lemma MarkedIffHeld(s: State, inv: nat)
    requires Inv(s) && inv in s.exhausted && inv !in s.marked
    ensures CanBeMarked(s, inv) <==> Held(s, inv)
  {
    if !Held(s, inv) {
      forall run: seq<Step>, u: State | Reaches(s, run, u) ensures inv !in u.marked { AbandonedAlways(s, run, inv); }
    } else if Live(s, inv, -1) {
      var i :| 0 <= i < |s.copies| && s.copies[i].message.invocation == inv && s.copies[i].status != Gone;
      CopyIsMarked(s, [], s, i);
    } else {
      var d :| 0 <= d < |s.deliveries| && s.deliveries[d].message.invocation == inv && AtWork(s.deliveries[d]);
      assert DeliveryOk(s, s.deliveries[d]);
      if s.deliveries[d].stage == Fetched {
        FetchedIsMarked(s, [], s, d);
      } else if s.deliveries[d].stage == Failed {
        FailedIsMarked(s, [], s, d);
      } else {
        SpentIsMarked(s, [], s, d);
      }
    }
  }

  // ---- A run that abandons -------------------------------------------------------------------------

  /** Entry i is the only copy of the invocation left, and nobody is at work on it. */
  ghost predicate OnlyCopy(s: State, inv: nat, i: nat) {
    && i < |s.copies| && s.copies[i].message.invocation == inv && inv in s.submitted && inv !in s.marked
    && (forall j | 0 <= j < |s.copies| && j != i && s.copies[j].message.invocation == inv :: s.copies[j].status == Gone)
    && forall d | 0 <= d < |s.deliveries| && s.deliveries[d].message.invocation == inv :: !AtWork(s.deliveries[d])
  }

  /** Hand-out, transient failure and, with tries left, re-enqueue and ack. */
  function Taken(s: State, i: nat): State
    requires Enabled(s, Deliver(i))
  {
    Apply(Apply(s, Deliver(i)), Process(|s.deliveries|, Transient))
  }

  lemma TakenIs(s: State, inv: nat, i: nat)
    requires OnlyCopy(s, inv, i) && s.copies[i].status == Unread
    ensures var t, d := Taken(s, i), |s.deliveries|;
      && |t.deliveries| == d + 1 && t.deliveries[d].copy == i && t.deliveries[d].message == s.copies[i].message
      && t.deliveries[d].stage == (if MayRetry(s.copies[i].message) then Failed else Spent)
      && (forall e | 0 <= e < d :: t.deliveries[e] == s.deliveries[e])
      && |t.copies| == |s.copies| && (forall j | 0 <= j < |t.copies| && j != i :: t.copies[j] == s.copies[j])
      && t.submitted == s.submitted && t.marked == s.marked
      && (!MayRetry(s.copies[i].message) ==> inv in t.exhausted)
  {
  }

  /** The round trip through a failure leaves the successor as the only copy. */
  lemma SuccessorIsOnlyCopy(s: State, inv: nat, i: nat)
    requires OnlyCopy(s, inv, i) && s.copies[i].status == Unread && MayRetry(s.copies[i].message)
    ensures var t, d := Taken(s, i), |s.deliveries|;
      && Enabled(t, Requeue(d, true, true)) && Enabled(Apply(t, Requeue(d, true, true)), Ack(d, true))
      && var u := Apply(Apply(t, Requeue(d, true, true)), Ack(d, true));
        OnlyCopy(u, inv, |s.copies|) && u.copies[|s.copies|] == Copy(Next(s.copies[i].message), Unread)
  {
    TakenIs(s, inv, i);
  }

  /** The ack precedes the failure mark: a worker that dies in between abandons the invocation. */
  lemma DeathBeforeMarkAbandons(s: State, inv: nat, i: nat)
    requires OnlyCopy(s, inv, i) && s.copies[i].status == Unread && !MayRetry(s.copies[i].message)
    ensures var t, d := Taken(s, i), |s.deliveries|;
      && Enabled(t, Ack(d, true)) && Enabled(Apply(t, Ack(d, true)), Die(d))
      && Abandoned(Apply(Apply(t, Ack(d, true)), Die(d)), inv)
  {
    TakenIs(s, inv, i);
  }

  lemma {:induction false} SpendAll(s: State, pre: seq<Step>, u: State, inv: nat, i: nat)
    returns (run: seq<Step>, v: State)
    requires Reaches(s, pre, u) && OnlyCopy(u, inv, i) && u.copies[i].status == Unread
    ensures Reaches(s, run, v) && Abandoned(v, inv)
    decreases Left(u.copies[i].message)
  {
    var d, t := |u.deliveries|, Taken(u, i);
    run := Reach(s, pre, u, Deliver(i), Apply(u, Deliver(i)));
    run := Reach(s, run, Apply(u, Deliver(i)), Process(d, Transient), t);
    if MayRetry(u.copies[i].message) {
      SuccessorIsOnlyCopy(u, inv, i);
      var t1 := Apply(t, Requeue(d, true, true));
      v := Apply(t1, Ack(d, true));
      run := Reach(s, run, t, Requeue(d, true, true), t1);
      run := Reach(s, run, t1, Ack(d, true), v);
      run, v := SpendAll(s, run, v, inv, |u.copies|);
    } else {
      DeathBeforeMarkAbandons(u, inv, i);
      var t1 := Apply(t, Ack(d, true));
      v := Apply(t1, Die(d));
      run := Reach(s, run, t, Ack(d, true), t1);
      run := Reach(s, run, t1, Die(d), v);
    }
  }

  /** Every invocation there is can end up abandoned: submitted, failed four times, and its worker dead at the end. */
  lemma AnInvocationIsAbandoned(inv: nat) returns (run: seq<Step>, v: State)
    ensures Reaches(Init, run, v) && Abandoned(v, inv) && !CanBeMarked(v, inv)
  {
    var u := Apply(Init, Submit(inv));
    run := Reach(Init, [], Init, Submit(inv), u);
    run, v := SpendAll(Init, run, u, inv, 0);
    NothingVanishes(run);
    MarkedIffHeld(v, inv);
  }
}
