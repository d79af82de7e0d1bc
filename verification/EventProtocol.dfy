/** The event-stream consumer protocol of worker/event_triggers.go (worker/webhook_events.go runs the
    same one over its own group and watermark key): an outbox table, a relay into an append-only
    stream, one consumer group with a shared cursor and a pending list, a monotone watermark, head
    trimming, and a startup backfill of (watermark, stream head] from the outbox.

    Every external command is one atomic step, so a run interleaves any number of consumers. */
module EventProtocol {

  /** Where one consumer process stands. Batches hold stream positions, `rows` holds outbox seqs. */
  datatype Phase =
    | Down
    | Starting
    | Probed(mark: nat)
    | Scanning(first: nat, cursor: nat)
    | Replaying(first: nat, cursor: nat, rows: seq<nat>, next: nat)
    | Idle
    | Working(batch: seq<nat>, next: nat)
    | Acked(maxSeq: nat)

  /** `log` is every entry ever added to the stream: its envelope seq, or 0 for a poison entry.
      Entries below `trimmed` are gone; entries below `cursor` were handed to the group. `committed` and
      `relayed` are the largest seqs so far; `rewrites` counts the changes to the outbox at or below
      `committed`: rows cleaned up, and rows committed late.
      `ran` (positions) and `visited` (seqs) record on what the handler was invoked. `batchRows` is how many rows a
      scan returns at most, the same for all scans. */
  datatype State = State(
    outbox: set<nat>, committed: nat, rewrites: nat,
    log: seq<nat>, relayed: nat, trimmed: nat,
    group: bool, cursor: nat, pending: set<nat>,
    watermark: nat,
    ran: set<nat>, visited: set<nat>, acked: set<nat>,
    consumers: map<nat, Phase>, batchRows: nat)

  datatype Action =
    | Commit(seqNo: nat) | Relay(seqNo: nat) | Poison | Purge(seqNo: nat) | Trim(upto: nat)
    | Boot(c: nat) | Crash(c: nat)
    | ReadMark(c: nat) | MarkError(c: nat) | ReadFirst(c: nat) | FirstError(c: nat)
    | Scan(c: nat) | ScanError(c: nat) | Replay(c: nat) | CloseBatch(c: nat, ok: bool)
    | Read(c: nat, count: nat, ok: bool) | Claim(c: nat, batch: seq<nat>)
    | Process(c: nat) | Ack(c: nat, ok: bool) | Advance(c: nat, ok: bool)

  const READ_COUNT := 64
  const BACKFILL_BATCH := 500

  const Init := InitWith(BACKFILL_BATCH)

  function InitWith(batchRows: nat): State { State({}, 0, 0, [], 0, 0, true, 0, {}, 0, {}, {}, {}, map[], batchRows) }

  function PhaseOf(s: State, c: nat): Phase {
    if c in s.consumers then s.consumers[c] else Down
  }

  function Max(a: int, b: int): int { if a < b then b else a }

  /** The first position the group has not been given and can still be given. */
  function Front(s: State): int { Max(s.cursor, s.trimmed) }

  /** streamFirstSeq: the seq of the oldest entry still in the stream; 0 when there is none. */
  function FirstSeq(s: State): nat {
    if s.trimmed < |s.log| then s.log[s.trimmed] else 0
  }

  /** The outbox seqs in (after, upto], ascending. */
  function Rows(outbox: set<nat>, after: nat, upto: nat): seq<nat>
    decreases upto - after
  {
    if upto <= after then []
    else if after + 1 in outbox then [after + 1] + Rows(outbox, after + 1, upto)
    else Rows(outbox, after + 1, upto)
  }

  /** ScanOutboxSeqRange: the first `limit` of those rows. */
  function ScanRange(outbox: set<nat>, after: nat, upto: nat, limit: nat): seq<nat> {
    var rows := Rows(outbox, after, upto);
    if |rows| <= limit then rows else rows[..limit]
  }

  /** The `maxSeq` accumulator of a batch; poison entries count as 0. */
  function MaxSeq(log: seq<nat>, batch: seq<nat>): nat {
    if batch == [] || batch[|batch| - 1] >= |log| then 0
    else Max(MaxSeq(log, batch[..|batch| - 1]), log[batch[|batch| - 1]])
  }

  /** What makes a command possible at all, with no assumption about the environment. */
  predicate Enabled(s: State, a: Action) {
    match a
    case Commit(q) => true
    case Relay(q) => q in s.outbox
    case Poison => true
    case Purge(q) => q in s.outbox
    case Trim(n) => s.trimmed <= n <= |s.log|
    case Boot(c) => PhaseOf(s, c).Down?
    case Crash(c) => !PhaseOf(s, c).Down?
    case ReadMark(c) => PhaseOf(s, c).Starting?
    case MarkError(c) => PhaseOf(s, c).Starting?
    case ReadFirst(c) => PhaseOf(s, c).Probed?
    case FirstError(c) => PhaseOf(s, c).Probed?
    case Scan(c) => PhaseOf(s, c).Scanning? && 1 <= s.batchRows
    case ScanError(c) => PhaseOf(s, c).Scanning?
    case Replay(c) => var p := PhaseOf(s, c); p.Replaying? && p.next < |p.rows|
    case CloseBatch(c, _) => var p := PhaseOf(s, c); p.Replaying? && p.rows != [] && p.next == |p.rows|
    case Read(c, n, _) => PhaseOf(s, c).Idle? && s.group && 1 <= n <= READ_COUNT && Front(s) + n <= |s.log|
    case Claim(c, batch) =>
      PhaseOf(s, c).Idle? && s.group && 1 <= |batch| <= READ_COUNT && forall p <- batch :: p in s.pending && p < |s.log|
    case Process(c) => var p := PhaseOf(s, c); p.Working? && p.next < |p.batch| && p.batch[p.next] < |s.log|
    case Ack(c, _) => var p := PhaseOf(s, c); p.Working? && p.next == |p.batch|
    case Advance(c, _) => PhaseOf(s, c).Acked?
  }

  function Positions(batch: seq<nat>): (r: set<nat>) { set p | p in batch }

  /** The effect of one command. */
  function Apply(s: State, a: Action): State
    requires Enabled(s, a)
  {
    match a
    case Commit(q) =>
      if s.committed < q then s.(outbox := s.outbox + {q}, committed := q)
      else s.(outbox := s.outbox + {q}, rewrites := s.rewrites + 1)
    case Relay(q) => s.(log := s.log + [q], relayed := if s.relayed < q then q else s.relayed)
    case Poison => s.(log := s.log + [0])
    case Purge(q) => s.(outbox := s.outbox - {q}, rewrites := s.rewrites + 1)
    case Trim(n) => s.(trimmed := n, pending := set p | p in s.pending && n <= p)
    case Boot(c) =>
      // ensureGroup("$"): a group that does not exist yet starts at the stream's end.
      var t := if s.group then s else s.(group := true, cursor := |s.log|);
      At(t, c, Starting)
    case Crash(c) => At(s, c, Down)
    case ReadMark(c) => At(s, c, Probed(s.watermark))
    case MarkError(c) => At(s, c, Idle)
    case ReadFirst(c) =>
      var first, mark := FirstSeq(s), PhaseOf(s, c).mark;
      At(s, c, if first == 0 || first <= mark + 1 then Idle else Scanning(first, mark))
    case FirstError(c) => At(s, c, Idle)
    case Scan(c) =>
      var p := PhaseOf(s, c);
      var rows := ScanRange(s.outbox, p.cursor, p.first, s.batchRows);
      At(s, c, if rows == [] then Idle else Replaying(p.first, p.cursor, rows, 0))
    case ScanError(c) => At(s, c, Idle)
    case Replay(c) =>
      var p := PhaseOf(s, c);
      At(s.(visited := s.visited + {p.rows[p.next]}), c,
         Replaying(p.first, p.cursor, p.rows, p.next + 1))
    case CloseBatch(c, ok) =>
      var p := PhaseOf(s, c);
      var last := p.rows[|p.rows| - 1];
      var t := if ok then s.(watermark := Max(s.watermark, last)) else s;
      At(t, c, if p.first <= last then Idle else Scanning(p.first, last))
    case Read(c, n, ok) =>
      // Not ok: the reply is lost, the entries are pending, and the consumer goes on with its loop.
      var from := Front(s);
      var batch := seq(n, i requires 0 <= i => from + i);
      At(s.(cursor := from + n, pending := s.pending + Positions(batch)), c, if ok then Working(batch, 0) else Idle)
    case Claim(c, batch) => At(s, c, Working(batch, 0))
    case Process(c) =>
      var p := PhaseOf(s, c);
      var pos := p.batch[p.next];
      var hit := if s.log[pos] == 0 then {} else {s.log[pos]};
      At(s.(ran := s.ran + {pos}, visited := s.visited + hit), c, Working(p.batch, p.next + 1))
    case Ack(c, ok) =>
      var p := PhaseOf(s, c);
      var done := Positions(p.batch);
      var maxSeq := MaxSeq(s.log, p.batch);
      if !ok then At(s, c, Idle)
      else At(s.(pending := s.pending - done, acked := s.acked + done), c, if maxSeq > 0 then Acked(maxSeq) else Idle)
    case Advance(c, ok) =>
      var m := PhaseOf(s, c).maxSeq;
      At(if ok then s.(watermark := Max(s.watermark, m)) else s, c, Idle)
  }

  /** The event a command calls the handler on, if any. */
  function HandledBy(s: State, a: Action): seq<nat>
    requires Enabled(s, a)
  {
    match a
    case Replay(c) => [PhaseOf(s, c).rows[PhaseOf(s, c).next]]
    case Process(c) =>
      var pos := PhaseOf(s, c).batch[PhaseOf(s, c).next];
      if s.log[pos] == 0 then [] else [s.log[pos]]
    case _ => []
  }

  function At(s: State, c: nat, p: Phase): State { s.(consumers := s.consumers[c := p]) }

  /** Runs: the state after a list of commands, when each was possible in its turn. */
  ghost predicate Legal(s: State, tr: seq<Action>)
    decreases |tr|, 0
  {
    tr == [] || (Legal(s, tr[..|tr| - 1]) && Enabled(Exec(s, tr[..|tr| - 1]), tr[|tr| - 1]))
  }

  ghost function Exec(s: State, tr: seq<Action>): State
    requires Legal(s, tr)
    decreases |tr|, 1
  {
    if tr == [] then s else Apply(Exec(s, tr[..|tr| - 1]), tr[|tr| - 1])
  }

  /** Seqs are committed and relayed in increasing order, so none comes twice. */
  predicate InOrder(s: State, a: Action) {
    match a
    case Commit(q) => s.committed < q
    case Relay(q) => s.relayed < q
    case _ => true
  }

  /** The events the handler was called on along a run, in order, with every repetition. */
  ghost function Handled(s: State, tr: seq<Action>): seq<nat>
    requires Legal(s, tr)
    decreases |tr|
  {
    if tr == [] then []
    else
      var before := Exec(s, tr[..|tr| - 1]);
      Handled(s, tr[..|tr| - 1]) + HandledBy(before, tr[|tr| - 1])
  }

  /** The environment the no-gap guarantee needs. Seqs come in order. A row is purged only at or below the watermark;
      trimming keeps one entry, spares pending entries, and takes unread ones only while every consumer
      is down; the group exists; startup reads and scans succeed and meet a decodable stream head. */
  predicate Healthy(s: State, a: Action) {
    InOrder(s, a) &&
    match a
    case Purge(q) => q <= s.watermark
    case Trim(n) => n < |s.log| && (forall p <- s.pending :: n <= p) && (n <= s.cursor || AllDown(s))
    case Boot(_) => s.group
    case MarkError(_) => false
    case FirstError(_) => false
    case ScanError(_) => false
    case ReadFirst(_) => s.trimmed < |s.log| ==> 0 < s.log[s.trimmed]
    case _ => true
  }

  ghost predicate InOrderRun(s: State, tr: seq<Action>)
    requires Legal(s, tr)
  {
    tr == [] || (InOrderRun(s, tr[..|tr| - 1]) && InOrder(Exec(s, tr[..|tr| - 1]), tr[|tr| - 1]))
  }

  predicate AllDown(s: State) { forall c <- s.consumers :: s.consumers[c].Down? }

  ghost predicate HealthyRun(s: State, tr: seq<Action>)
    requires Legal(s, tr)
  {
    tr == [] || (HealthyRun(s, tr[..|tr| - 1]) && Healthy(Exec(s, tr[..|tr| - 1]), tr[|tr| - 1]))
  }
}
