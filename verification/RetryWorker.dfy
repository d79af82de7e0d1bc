/** The worker's consume loop body, run against a queue that anyone else may use between its commands. */
module RetryWorker {
  import opened Runs
  import opened RetryQueue

  /** The hand-out a step is about; submitting and handing out are nobody's. */
  function Subject(st: Step): int {
    match st
    case Submit(_) => -1 case Deliver(_) => -1 case Reclaim(_) => -1
    case _ => st.d
  }

  /** What no step takes back: entries keep their message, Gone stays Gone, records only grow. */
  ghost predicate Grows(s: State, t: State) {
    && |s.copies| <= |t.copies| && |s.deliveries| <= |t.deliveries|
    && (forall i | 0 <= i < |s.copies| ::
          t.copies[i].message == s.copies[i].message && (s.copies[i].status == Gone ==> t.copies[i].status == Gone))
    && s.succeeded <= t.succeeded && s.discarded <= t.discarded && s.exhausted <= t.exhausted && s.marked <= t.marked
  }

  lemma StepGrows(s: State, st: Step)
    requires Enabled(s, st)
    ensures Grows(s, Apply(s, st))
    ensures forall d | 0 <= d < |s.deliveries| && d != Subject(st) :: Apply(s, st).deliveries[d] == s.deliveries[d]
    ensures 0 <= Subject(st) ==>
      var d := Subject(st); Apply(s, st).deliveries[d] == s.deliveries[d].(stage := StageAfter(s.deliveries[d], st))
  {
  }

  /** Whether a worker may issue a command on its hand-out: a matter of the hand-out alone. */
  predicate Ready(d: Delivery, st: Step) {
    match st
    case Process(_, _) => d.stage == Fetched
    case Requeue(_, _, _) => d.stage == Failed
    case Ack(_, _) => d.stage == Requeued || d.stage == Settled || d.stage == Spent
    case Mark(_, _) => d.stage == ToMark
    case Die(_) => d.stage != Over
    case _ => false
  }

  function StageAfter(d: Delivery, st: Step): Stage {
    match st
    case Process(_, outcome) => if outcome != Transient then Settled else if MayRetry(d.message) then Failed else Spent
    case Requeue(_, ok, _) => if ok then Requeued else Over
    case Ack(_, _) => if d.stage == Spent then ToMark else Over
    case _ => Over
  }

  ghost predicate Follows(s: State, st: Step, t: State) { Enabled(s, st) && t == Apply(s, st) }

  /** The record a queue keeps is a run of the step relation, so what every run keeps holds of it. */
  lemma {:induction false} RecordIsRun(states: seq<State>, run: seq<Step>)
    requires IsRun(Follows, states, run)
    ensures Legal(states[0], run) && Exec(states[0], run) == states[|run|]
    ensures Inv(states[0]) ==> Inv(states[|run|])
    decreases |run|
  {
    if run != [] {
      var n := |run| - 1;
      RunShrinks(Follows, states, run);
      RecordIsRun(states[..n + 1], run[..n]);
      assert Follows(states[n], run[n], states[n + 1]);
      if Inv(states[0]) {
        StepKeepsInv(states[n], run[n]);
      }
    }
  }

  class Queue {
    var s: State
    var others: seq<seq<Step>>  // what others attempt before each further command
    ghost const origin: State
    ghost var run: seq<Step>    // every command so far, and the states around them
    ghost var states: seq<State>

    ghost predicate Valid() reads this {
      IsRun(Follows, states, run) && states[0] == origin && states[|run|] == s
    }

    constructor (origin: State, others: seq<seq<Step>>)
      ensures Valid() && s == origin && this.origin == origin && run == []
    {
      this.s, this.origin, this.others := origin, origin, others;
      this.run, this.states := [], [origin];
    }

    method Do(st: Step)
      requires Valid() && Enabled(s, st)
      modifies this`s, this`run, this`states
      ensures Valid() && s == Apply(old(s), st) && run == old(run) + [st] && states == old(states) + [s]
    {
      assert Follows(s, st, Apply(s, st));
      RunGrows(Follows, states, run, st, Apply(s, st));
      s := Apply(s, st);
      run, states := run + [st], states + [s];
    }

    /** Others take any possible steps, but none on the hand-out `mine`, which is one worker's own. */
    method Yield(mine: int)
      requires Valid()
      modifies this
      ensures Valid() && old(run) <= run && Grows(old(s), s)
      ensures old(others) == [] ==> others == [] && s == old(s)
      ensures 0 <= mine < |old(s).deliveries| ==> s.deliveries[mine] == old(s).deliveries[mine]
      ensures forall k | |old(run)| <= k < |run| :: mine < 0 || Subject(run[k]) != mine
    {
      if others == [] { return; }
      var todo := others[0];
      others := others[1..];
      for i := 0 to |todo|
        invariant Valid() && old(run) <= run && Grows(old(s), s)
        invariant 0 <= mine < |old(s).deliveries| ==> s.deliveries[mine] == old(s).deliveries[mine]
        invariant forall k | |old(run)| <= k < |run| :: mine < 0 || Subject(run[k]) != mine
      {
        if Enabled(s, todo[i]) && (mine < 0 || Subject(todo[i]) != mine) {
          StepGrows(s, todo[i]);
          Do(todo[i]);
        }
      }
    }
  }

  /** What the worker's surroundings answer during one pass of the loop. An enqueue that is not answered may still
      have been `applied`. */
  datatype Answers = Answers(
    outcome: Outcome, stopping: bool, enqueueOk: bool, applied: bool, ackOk: bool, markOk: bool)

  /** The commands one pass issues on its hand-out: a retried message goes back before its ack, an entry
      whose re-enqueue fails is not acked, a spent one is acked and then marked. */
  function Script(d: nat, m: Message, a: Answers): seq<Step> {
    [Process(d, a.outcome)] + Conclusion(d, m, a)
  }

  function Conclusion(d: nat, m: Message, a: Answers): seq<Step> {
    if a.outcome == Success then [Ack(d, a.ackOk)]
    else if a.stopping then [Die(d)]
    else if a.outcome == Invalid then [Ack(d, a.ackOk)]
    else Tail(d, m, a)
  }

  function Tail(d: nat, m: Message, a: Answers): seq<Step> {
    if !MayRetry(m) then [Ack(d, a.ackOk), Mark(d, a.markOk)]
    else if a.enqueueOk then [Requeue(d, true, a.applied), Ack(d, a.ackOk)]
    else [Requeue(d, false, a.applied)]
  }

  /** What makes a pass over a message safe, whatever the commands are: it is processed once and first, it is put
      back only to be retried, it is acked only when nothing more is to be done with it or after its successor was
      accepted, and its failure is recorded only when its tries are spent, after the ack. */
  ghost predicate SafePass(cmds: seq<Step>, m: Message, outcome: Outcome) {
    && (forall k | 0 <= k < |cmds| :: cmds[k].Process? <==> k == 0)
    && (forall k | 0 <= k < |cmds| && cmds[k].Requeue? :: outcome == Transient && m.attempt < 3)
    && (forall k | 0 <= k < |cmds| && cmds[k].Ack? :: outcome != Transient || 3 <= m.attempt || AcceptedBefore(cmds, k))
    && (forall k | 0 <= k < |cmds| && cmds[k].Mark? :: outcome == Transient && 3 <= m.attempt && AckedBefore(cmds, k))
  }

  /** And what makes it do its job. The message is put back exactly when it failed transiently with less than three
      attempts behind it. It is acked in the end exactly when it succeeded, or is invalid, out of tries or accepted
      for a retry. Its failure is recorded exactly when it is out of tries. A worker that is stopping does none of this
      unless the message succeeded. */
  ghost predicate FullPass(cmds: seq<Step>, m: Message, a: Answers) {
    && SafePass(cmds, m, a.outcome) && cmds != []
    && (Retries(cmds) <==> a.outcome == Transient && !a.stopping && m.attempt < 3)
    && (AckedBefore(cmds, |cmds|) <==>
          a.outcome == Success || (!a.stopping && (a.outcome == Invalid || 3 <= m.attempt || a.enqueueOk)))
    && (Marks(cmds) <==> a.outcome == Transient && !a.stopping && 3 <= m.attempt)
  }

  predicate AcceptedBefore(cmds: seq<Step>, k: nat)
    requires k <= |cmds|
  {
    exists j | 0 <= j < k :: cmds[j].Requeue? && cmds[j].ok
  }

  predicate AckedBefore(cmds: seq<Step>, k: nat)
    requires k <= |cmds|
  {
    exists j | 0 <= j < k :: cmds[j].Ack?
  }

  predicate Retries(cmds: seq<Step>) { exists k | 0 <= k < |cmds| :: cmds[k].Requeue? }

  predicate Marks(cmds: seq<Step>) { exists k | 0 <= k < |cmds| :: cmds[k].Mark? }

  /** The commands of a pass are safe and do their job. */
  lemma ScriptIsSafe(d: nat, m: Message, a: Answers, cmds: seq<Step>)
    requires cmds == Script(d, m, a)
    ensures FullPass(cmds, m, a) && cmds[0] == Process(d, a.outcome)
  {
    var rest := Conclusion(d, m, a);
    assert cmds == [Process(d, a.outcome)] + rest;
    assert |rest| == 1 || |rest| == 2;
    assert cmds[1] == rest[0] && (|rest| == 2 ==> cmds[2] == rest[1]);
  }

  lemma PassIsSafe(before: seq<Step>, after: seq<Step>, d: nat, m: Message, a: Answers)
    requires after == before + [Process(d, a.outcome)] + Conclusion(d, m, a)
    ensures after == before + Script(d, m, a) && FullPass(after[|before|..], m, a)
  {
    assert after == before + Script(d, m, a) && after[|before|..] == Script(d, m, a);
    ScriptIsSafe(d, m, a, Script(d, m, a));
  }

  /** The steps of a run on one hand-out. */
  ghost function On(run: seq<Step>, d: nat): seq<Step> {
    if run == [] then []
    else On(run[..|run| - 1], d) + (if Subject(run[|run| - 1]) == d then [run[|run| - 1]] else [])
  }

  lemma {:induction false} OnSplits(a: seq<Step>, b: seq<Step>, d: nat)
    ensures On(a + b, d) == On(a, d) + On(b, d)
    decreases |b|
  {
    if b == [] {
      assert a + b == a;
    } else {
      OnSplits(a, b[..|b| - 1], d);
      assert (a + b)[..|a + b| - 1] == a + b[..|b| - 1];
    }
  }

  lemma {:induction false} OnOthers(run: seq<Step>, d: nat)
    requires forall k | 0 <= k < |run| :: Subject(run[k]) != d
    ensures On(run, d) == []
    decreases |run|
  {
    if run != [] {
      OnOthers(run[..|run| - 1], d);
    }
  }

  class Worker {
    const queue: Queue

    constructor (queue: Queue)
      ensures this.queue == queue
    {
      this.queue := queue;
    }

    /** One of our own commands, once others have had their turn. The hand-out is still as we left it. */
    method Issue(d: nat, st: Step)
      requires queue.Valid() && Subject(st) == d < |queue.s.deliveries| && queue.s.deliveries[d].copy < |queue.s.copies|
      requires Ready(queue.s.deliveries[d], st)
      modifies queue
      ensures queue.Valid() && old(queue.run) <= queue.run && Grows(old(queue.s), queue.s)
      ensures On(queue.run, d) == On(old(queue.run), d) + [st]
      ensures queue.s.deliveries[d] == old(queue.s).deliveries[d].(stage := StageAfter(old(queue.s).deliveries[d], st))
    {
      ghost var run0 := queue.run;
      queue.Yield(d);
      ghost var run1 := queue.run;
      assert run1 == run0 + run1[|run0|..];
      OnSplits(run0, run1[|run0|..], d);
      OnOthers(run1[|run0|..], d);
      StepGrows(queue.s, st);
      queue.Do(st);
      OnSplits(run1, [st], d);
      assert [st][..0] == [];
    }

    /** Dequeue, at the recorded moment `at`: a stale entry if there is one then, else an unread one, else nothing. */
    method Dequeue(stale: nat, unread: nat) returns (got: bool, d: nat, ghost at: nat)
      requires queue.Valid()
      modifies queue
      ensures queue.Valid() && old(queue.run) <= queue.run && Grows(old(queue.s), queue.s)
      ensures |old(queue.run)| <= at < |queue.states|
      ensures var s := queue.states[at];
        && (got <==> Enabled(s, Reclaim(stale)) || Enabled(s, Deliver(unread)))
        && (got ==> at < |queue.run| && d < |queue.s.deliveries|)
        && (got ==>
              var i := if Enabled(s, Reclaim(stale)) then stale else unread;
              && queue.run[at] == (if Enabled(s, Reclaim(stale)) then Reclaim(stale) else Deliver(unread))
              && i < |s.copies| && queue.s.deliveries[d] == Delivery(i, s.copies[i].message, Fetched))
      ensures got ==> queue.s.deliveries[d].copy < |queue.s.copies|
      ensures old(queue.others) == [] ==> queue.others == [] && queue.states[at] == old(queue.s)
    {
      queue.Yield(-1);
      at := |queue.run|;
      d := |queue.s.deliveries|;
      got := true;
      if Enabled(queue.s, Reclaim(stale)) {
        StepGrows(queue.s, Reclaim(stale));
        queue.Do(Reclaim(stale));
      } else if Enabled(queue.s, Deliver(unread)) {
        StepGrows(queue.s, Deliver(unread));
        queue.Do(Deliver(unread));
      } else {
        got := false;
      }
    }

    /** The tail of a pass whose processing failed transiently: put a copy back, then ack; without attempts
        left, ack, then mark. */
    method RetryOrGiveUp(d: nat, a: Answers)
      requires queue.Valid() && d < |queue.s.deliveries| && queue.s.deliveries[d].copy < |queue.s.copies|
      requires queue.s.deliveries[d].stage == if MayRetry(queue.s.deliveries[d].message) then Failed else Spent
      modifies queue
      ensures queue.Valid() && old(queue.run) <= queue.run && Grows(old(queue.s), queue.s)
      ensures queue.s.deliveries[d] == old(queue.s).deliveries[d].(stage := Over)
      ensures On(queue.run, d) == On(old(queue.run), d) + Tail(d, old(queue.s).deliveries[d].message, a)
    {
      if MayRetry(queue.s.deliveries[d].message) {
        Issue(d, Requeue(d, a.enqueueOk, a.applied));
        if a.enqueueOk {
          Issue(d, Ack(d, a.ackOk));
        }
      } else {
        Issue(d, Ack(d, a.ackOk));
        Issue(d, Mark(d, a.markOk));
      }
    }

    /** What follows processing. */
    method Conclude(d: nat, a: Answers)
      requires queue.Valid() && d < |queue.s.deliveries| && queue.s.deliveries[d].copy < |queue.s.copies|
      requires var m := queue.s.deliveries[d].message;
        queue.s.deliveries[d].stage == if a.outcome != Transient then Settled else if MayRetry(m) then Failed else Spent
      modifies queue
      ensures queue.Valid() && old(queue.run) <= queue.run && Grows(old(queue.s), queue.s)
      ensures queue.s.deliveries[d] == old(queue.s).deliveries[d].(stage := Over)
      ensures On(queue.run, d) == On(old(queue.run), d) + Conclusion(d, old(queue.s).deliveries[d].message, a)
    {
      if a.outcome == Success {
        Issue(d, Ack(d, a.ackOk));
      } else if a.stopping {
        Issue(d, Die(d));
      } else if a.outcome == Invalid {
        Issue(d, Ack(d, a.ackOk));
      } else {
        RetryOrGiveUp(d, a);
      }
    }

    /** One pass of consume on the message of hand-out `d`. Whatever others do meanwhile, the commands
        issued on it are a safe pass, and nothing is left to do on it. */
    method Consume(d: nat, a: Answers)
      requires queue.Valid() && d < |queue.s.deliveries| && queue.s.deliveries[d].stage == Fetched
      requires queue.s.deliveries[d].copy < |queue.s.copies|
      modifies queue
      ensures queue.Valid() && old(queue.run) <= queue.run && Grows(old(queue.s), queue.s)
      ensures queue.s.deliveries[d] == old(queue.s).deliveries[d].(stage := Over)
      ensures On(queue.run, d) == On(old(queue.run), d) + Script(d, old(queue.s).deliveries[d].message, a)
      ensures var m := old(queue.s).deliveries[d].message;
        FullPass(On(queue.run, d)[|On(old(queue.run), d)|..], m, a)
    {
      ghost var before, m := On(queue.run, d), queue.s.deliveries[d].message;
      Issue(d, Process(d, a.outcome));
      Conclude(d, a);
      PassIsSafe(before, On(queue.run, d), d, m, a);
    }
  }
}
