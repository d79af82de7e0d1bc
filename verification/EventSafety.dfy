/** What every step, and so every run, of the consumer protocol keeps. */
module EventSafety {
  import opened EventProtocol

  // ---- Acks and watermark: sound in every environment -------------------------------------------

  ghost predicate SoundPhase(s: State, p: Phase) {
    match p
    case Replaying(_, _, rows, next) => next <= |rows| && forall i | 0 <= i < next :: rows[i] in s.visited
    case Working(batch, next) =>
      && next <= |batch| && (forall i | 0 <= i < |batch| :: batch[i] < |s.log|)
      && (forall i | 0 <= i < next :: batch[i] in s.ran)
    case Acked(m) => m in s.visited
    case _ => true
  }

  /** Acked entries were handled, and the watermark is 0 or the seq of something handled. */
  ghost predicate Sound(s: State) {
    && (forall p <- s.acked :: p in s.ran)
    && (forall p <- s.ran :: p < |s.log| && (s.log[p] == 0 || s.log[p] in s.visited))
    && (s.watermark == 0 || s.watermark in s.visited)
    && (forall c <- s.consumers :: SoundPhase(s, s.consumers[c]))
  }

  lemma {:induction false} MaxSeqIsSome(log: seq<nat>, batch: seq<nat>)
    requires forall i | 0 <= i < |batch| :: batch[i] < |log|
    ensures MaxSeq(log, batch) == 0 || exists i | 0 <= i < |batch| :: log[batch[i]] == MaxSeq(log, batch)
    ensures forall i | 0 <= i < |batch| :: log[batch[i]] <= MaxSeq(log, batch)
  {
    if batch != [] {
      var n := |batch| - 1;
      MaxSeqIsSome(log, batch[..n]);
      assert forall i | 0 <= i < n :: batch[i] == batch[..n][i];
      if MaxSeq(log, batch) != log[batch[n]] && MaxSeq(log, batch) != 0 {
        var i :| 0 <= i < |batch[..n]| && log[batch[..n][i]] == MaxSeq(log, batch[..n]);
        assert log[batch[i]] == MaxSeq(log, batch);
      }
    }
  }

  /** The consumer a step belongs to, if any. */
  function Actor(a: Action): (r: int) {
    match a
    case Commit(_) => -1 case Relay(_) => -1 case Poison => -1 case Purge(_) => -1 case Trim(_) => -1
    case _ => a.c
  }

  /** What no step ever takes back. */
  ghost predicate Grows(s: State, t: State) {
    && s.batchRows == t.batchRows && s.log <= t.log && s.ran <= t.ran && s.visited <= t.visited
    && s.acked <= t.acked && s.watermark <= t.watermark
  }

  lemma StepGrows(s: State, a: Action)
    requires Enabled(s, a)
    ensures Grows(s, Apply(s, a))
    ensures forall c <- s.consumers | c != Actor(a) :: PhaseOf(Apply(s, a), c) == PhaseOf(s, c)
    ensures forall c <- Apply(s, a).consumers | c != Actor(a) :: c in s.consumers
  {
  }

  lemma StepVisits(s: State, a: Action)
    requires Enabled(s, a)
    ensures forall q :: q in Apply(s, a).visited <==> q in s.visited || q in HandledBy(s, a)
  {
  }

  lemma SoundPhaseStays(s: State, t: State, p: Phase)
    requires SoundPhase(s, p) && Grows(s, t)
    ensures SoundPhase(t, p)
  {
  }

  // What each kind of step leaves its consumer with.

  lemma WorkIsSound(s: State, a: Action)
    requires Sound(s) && Enabled(s, a) && (a.Read? || a.Claim? || a.Process?)
    ensures SoundPhase(Apply(s, a), PhaseOf(Apply(s, a), a.c))
  {
    assert SoundPhase(s, PhaseOf(s, a.c));
    if a.Claim? {
      assert forall i | 0 <= i < |a.batch| :: a.batch[i] in a.batch;
    }
  }

  lemma AckIsSound(s: State, c: nat, ok: bool)
    requires Sound(s) && Enabled(s, Ack(c, ok))
    ensures SoundPhase(Apply(s, Ack(c, ok)), PhaseOf(Apply(s, Ack(c, ok)), c))
  {
    assert SoundPhase(s, PhaseOf(s, c));
    MaxSeqIsSome(s.log, PhaseOf(s, c).batch);
  }

  lemma ReplayIsSound(s: State, c: nat)
    requires Sound(s) && Enabled(s, Replay(c))
    ensures SoundPhase(Apply(s, Replay(c)), PhaseOf(Apply(s, Replay(c)), c))
  {
    assert SoundPhase(s, PhaseOf(s, c));
  }

  lemma SoundPhaseAfter(s: State, a: Action)
    requires Sound(s) && Enabled(s, a) && 0 <= Actor(a)
    ensures SoundPhase(Apply(s, a), PhaseOf(Apply(s, a), Actor(a)))
  {
    match a
    case Ack(c, ok) => AckIsSound(s, c, ok);
    case Replay(c) => ReplayIsSound(s, c);
    case Claim(_, _) => WorkIsSound(s, a);
    case Read(_, _, _) => WorkIsSound(s, a);
    case Process(_) => WorkIsSound(s, a);
    case _ =>
  }

  lemma HandledIsSound(s: State, a: Action)
    requires Sound(s) && Enabled(s, a)
    ensures var t := Apply(s, a);
      && (forall p <- t.acked :: p in t.ran)
      && (forall p <- t.ran :: p < |t.log| && (t.log[p] == 0 || t.log[p] in t.visited))
  {
    assert 0 <= Actor(a) ==> SoundPhase(s, PhaseOf(s, Actor(a)));
  }

  lemma WatermarkIsSound(s: State, a: Action)
    requires Sound(s) && Enabled(s, a)
    ensures var t := Apply(s, a); t.watermark == 0 || t.watermark in t.visited
  {
    assert 0 <= Actor(a) ==> SoundPhase(s, PhaseOf(s, Actor(a)));
  }

  lemma StepIsSound(s: State, a: Action)
    requires Sound(s) && Enabled(s, a)
    ensures Sound(Apply(s, a))
  {
    var t := Apply(s, a);
    StepGrows(s, a);
    HandledIsSound(s, a);
    WatermarkIsSound(s, a);
    forall c <- t.consumers ensures SoundPhase(t, t.consumers[c]) {
      if c == Actor(a) {
        SoundPhaseAfter(s, a);
      } else {
        assert PhaseOf(t, c) == PhaseOf(s, c);
        SoundPhaseStays(s, t, s.consumers[c]);
      }
    }
  }

  /** In every environment, along every run: the watermark never falls, nothing is acked before the
      handler ran on it, and the watermark is 0 or the seq of something handled. */
  lemma {:induction false} RunIsSound(s: State, tr: seq<Action>)
    requires Sound(s) && Legal(s, tr)
    ensures Sound(Exec(s, tr))
    ensures s.watermark <= Exec(s, tr).watermark
    ensures forall p <- Exec(s, tr).acked :: p in Exec(s, tr).ran
    decreases |tr|
  {
    if tr != [] {
      var init := tr[..|tr| - 1];
      RunIsSound(s, init);
      StepIsSound(Exec(s, init), tr[|tr| - 1]);
      StepGrows(Exec(s, init), tr[|tr| - 1]);
    }
  }
}
