/** pkg/semaphore/semaphore.go: a counting semaphore made of expiring slot keys, `prefix:slot:<i>`. */
module Semaphore {
  import opened Numerals
  import opened Runs

  // ---- Slot keys ---------------------------------------------------------------------------------

  function SlotKeyOf(prefix: string, i: nat): string { prefix + ":slot:" + Decimal(i) }

  /** Different slots have different keys. */
  lemma SlotKeysDiffer(prefix: string, i: nat, j: nat)
    ensures SlotKeyOf(prefix, i) == SlotKeyOf(prefix, j) ==> i == j
  {
    DecimalReadsBack(i);
    DecimalReadsBack(j);
    var head := prefix + ":slot:";
    assert SlotKeyOf(prefix, i)[|head|..] == Decimal(i) && SlotKeyOf(prefix, j)[|head|..] == Decimal(j);
  }

  function Pow10(k: nat): nat { if k == 0 then 1 else 10 * Pow10(k - 1) }

  /** The digits written so far, in front of `tail`. */
  function Written(n: nat, tail: string): string { (if n == 0 then "" else Decimal(n)) + tail }

  lemma OneDigitMore(n: nat, tail: string, room: nat)
    requires 0 < n < Pow10(room)
    ensures Written(n, tail) == Written(n / 10, [Digit(n % 10)] + tail)
    ensures 0 < room && n / 10 < Pow10(room - 1)
  {
  }

  // ---- The store ---------------------------------------------------------------------------------

  datatype Lease = Lease(token: nat, expires: nat)

  /** Redis as the semaphore sees it: keys with a value and an expiry, and the time. */
  datatype Store = Store(now: nat, slots: map<string, Lease>)

  predicate Live(st: Store, key: string) { key in st.slots && st.now < st.slots[key].expires }

  predicate Holds(st: Store, key: string, token: nat) { Live(st, key) && st.slots[key].token == token }

  /** SET key token NX with a time to live: possible unless the key is live. */
  function Set(st: Store, key: string, token: nat, ttl: nat): Store {
    st.(slots := st.slots[key := Lease(token, st.now + ttl)])
  }

  /** The release script: delete the key only while it still carries this token. */
  function CompareAndDelete(st: Store, key: string, token: nat): Store {
    if Holds(st, key, token) then st.(slots := st.slots - {key}) else st
  }

  /** It ends the lease of this key and token and leaves every other as it was, a successor's on the key included. */
  lemma DeleteEndsOneLease(st: Store, key: string, token: nat)
    ensures var t := CompareAndDelete(st, key, token);
      && !Holds(t, key, token)
      && forall k, other | k != key || other != token :: Holds(t, k, other) <==> Holds(st, k, other)
  {
  }

  datatype Config = Config(prefix: string, max: nat, ttl: nat)

  /** The first slot that is not live, or `max`. */
  function FirstFree(cfg: Config, st: Store, from: nat): (r: nat)
    requires from <= cfg.max
    ensures from <= r <= cfg.max
    ensures r < cfg.max ==> !Live(st, SlotKeyOf(cfg.prefix, r))
    ensures forall i | from <= i < r :: Live(st, SlotKeyOf(cfg.prefix, i))
    decreases cfg.max - from
  {
    if from == cfg.max || !Live(st, SlotKeyOf(cfg.prefix, from)) then from else FirstFree(cfg, st, from + 1)
  }

  // ---- Any interleaving --------------------------------------------------------------------------

  datatype Client =
    | Scanning(token: nat, slot: nat)   // about to try this slot
    | Holding(token: nat, slot: nat)
    | Finished                          // refused, failed, or released

  datatype World = World(store: Store, nextToken: nat, clients: map<nat, Client>)

  datatype Step =
    | Begin(c: nat)
    | Probe(c: nat)
    | ProbeError(c: nat, applied: bool)  // the reply is lost; the command may have taken effect
    | Release(c: nat, lost: bool)
    | Tick(dt: nat)

  predicate Enabled(w: World, st: Step) {
    match st
    case Begin(c) => c !in w.clients
    case Probe(c) => c in w.clients && w.clients[c].Scanning?
    case ProbeError(c, _) => c in w.clients && w.clients[c].Scanning?
    case Release(c, _) => c in w.clients && w.clients[c].Holding?
    case Tick(_) => true
  }

  function Apply(cfg: Config, w: World, st: Step): World
    requires Enabled(w, st)
  {
    match st
    case Begin(c) =>
      var p := if cfg.max == 0 then Finished else Scanning(w.nextToken, 0);
      w.(nextToken := w.nextToken + 1, clients := w.clients[c := p])
    case Probe(c) =>
      var p := w.clients[c];
      var key := SlotKeyOf(cfg.prefix, p.slot);
      if !Live(w.store, key) then
        w.(store := Set(w.store, key, p.token, cfg.ttl), clients := w.clients[c := Holding(p.token, p.slot)])
      else
        w.(clients := w.clients[c := if p.slot + 1 < cfg.max then Scanning(p.token, p.slot + 1) else Finished])
    case ProbeError(c, applied) =>
      var p := w.clients[c];
      var key := SlotKeyOf(cfg.prefix, p.slot);
      w.(store := if applied && !Live(w.store, key) then Set(w.store, key, p.token, cfg.ttl) else w.store,
         clients := w.clients[c := Finished])
    case Release(c, lost) =>
      var p := w.clients[c];
      w.(store := if lost then w.store else CompareAndDelete(w.store, SlotKeyOf(cfg.prefix, p.slot), p.token),
         clients := w.clients[c := Finished])
    case Tick(dt) => w.(store := w.store.(now := w.store.now + dt))
  }

  predicate ClientOk(cfg: Config, w: World, p: Client) {
    p.Finished? || (p.token < w.nextToken && p.slot < cfg.max)
  }

  /** Tokens are used once: no two clients share one, no key carries one from the future, and one that a
      scanning client still has is in no key. */
  ghost predicate Inv(cfg: Config, w: World) {
    && (forall c <- w.clients :: ClientOk(cfg, w, w.clients[c]))
    && (forall c, d |
          c in w.clients && d in w.clients && c != d && !w.clients[c].Finished? && !w.clients[d].Finished? ::
          w.clients[c].token != w.clients[d].token)
    && (forall key <- w.store.slots :: w.store.slots[key].token < w.nextToken)
    && (forall c, key | c in w.clients && key in w.store.slots && w.clients[c].Scanning? ::
          w.store.slots[key].token != w.clients[c].token)
    && (forall c, key | c in w.clients && key in w.store.slots &&
          w.clients[c].Holding? && w.store.slots[key].token == w.clients[c].token ::
          key == SlotKeyOf(cfg.prefix, w.clients[c].slot))
  }

  lemma ProbeKeepsInv(cfg: Config, w: World, st: Step)
    requires Inv(cfg, w) && Enabled(w, st) && st.Probe?
    ensures Inv(cfg, Apply(cfg, w, st))
  {
    assert ClientOk(cfg, w, w.clients[st.c]);
  }

  lemma LostProbeKeepsInv(cfg: Config, w: World, st: Step)
    requires Inv(cfg, w) && Enabled(w, st) && st.ProbeError?
    ensures Inv(cfg, Apply(cfg, w, st))
  {
    assert ClientOk(cfg, w, w.clients[st.c]);
  }

  lemma ReleaseKeepsInv(cfg: Config, w: World, st: Step)
    requires Inv(cfg, w) && Enabled(w, st) && st.Release?
    ensures Inv(cfg, Apply(cfg, w, st))
  {
    assert forall key <- Apply(cfg, w, st).store.slots :: key in w.store.slots;
  }

  lemma StepKeepsInv(cfg: Config, w: World, st: Step)
    requires Inv(cfg, w) && Enabled(w, st)
    ensures Inv(cfg, Apply(cfg, w, st))
  {
    if st.Probe? {
      ProbeKeepsInv(cfg, w, st);
    } else if st.ProbeError? {
      LostProbeKeepsInv(cfg, w, st);
    } else if st.Release? {
      ReleaseKeepsInv(cfg, w, st);
    }
  }

  /** A lease ends by its own holder's release or by its own expiry, never otherwise: whenever a step takes
      a live lease away, that step is the release of the very client that was granted it, or the clock
      passing its expiry. In particular a late release of an expired lease cannot end its successor. */
  lemma LeaseEndsOnlyByItself(cfg: Config, w: World, st: Step, key: string, token: nat)
    requires Inv(cfg, w) && Enabled(w, st)
    requires Holds(w.store, key, token) && !Holds(Apply(cfg, w, st).store, key, token)
    ensures (st.Release? && !st.lost && w.clients[st.c].Holding? && w.clients[st.c].token == token
              && key == SlotKeyOf(cfg.prefix, w.clients[st.c].slot))
      || (st.Tick? && w.store.slots[key].expires <= w.store.now + st.dt)
  {
  }

  // ---- At most max -------------------------------------------------------------------------------

  /** The clients whose lease is live, by slot. */
  ghost predicate Holder(cfg: Config, w: World, c: nat) {
    && c in w.clients && w.clients[c].Holding?
    && Holds(w.store, SlotKeyOf(cfg.prefix, w.clients[c].slot), w.clients[c].token)
  }

  lemma OneHolderPerSlot(cfg: Config, w: World, c: nat, d: nat)
    requires Inv(cfg, w) && Holder(cfg, w, c) && Holder(cfg, w, d) && w.clients[c].slot == w.clients[d].slot
    ensures c == d
  {
  }

  lemma {:induction false} AtMostOnePerSlot(cfg: Config, w: World, cs: set<nat>, n: nat)
    requires Inv(cfg, w) && forall c <- cs :: Holder(cfg, w, c) && w.clients[c].slot < n
    ensures |cs| <= n
    decreases n
  {
    if cs != {} {
      var top := set c | c in cs && w.clients[c].slot == n - 1;
      forall c, d | c in top && d in top ensures c == d { OneHolderPerSlot(cfg, w, c, d); }
      AtMostOnePerSlot(cfg, w, cs - top, n - 1);
      if top != {} {
        var c :| c in top;
        assert top == {c};
      }
      assert |cs| == |cs - top| + |top|;
    }
  }

  ghost predicate Legal(cfg: Config, w: World, run: seq<Step>)
    decreases |run|, 0
  {
    run == [] || (Legal(cfg, w, run[..|run| - 1]) && Enabled(Exec(cfg, w, run[..|run| - 1]), run[|run| - 1]))
  }

  ghost function Exec(cfg: Config, w: World, run: seq<Step>): World
    requires Legal(cfg, w, run)
    decreases |run|, 1
  {
    if run == [] then w else Apply(cfg, Exec(cfg, w, run[..|run| - 1]), run[|run| - 1])
  }

  const Fresh := World(Store(0, map[]), 0, map[])

  lemma {:induction false} RunKeepsInv(cfg: Config, run: seq<Step>)
    requires Legal(cfg, Fresh, run)
    ensures Inv(cfg, Exec(cfg, Fresh, run))
    decreases |run|
  {
    if run != [] {
      RunKeepsInv(cfg, run[..|run| - 1]);
      StepKeepsInv(cfg, Exec(cfg, Fresh, run[..|run| - 1]), run[|run| - 1]);
    }
  }

  /** Whatever the interleaving of scans, expiries, lost replies and late releases: at most `max` clients
      hold an unexpired lease at once. */
  lemma AtMostMaxHolders(cfg: Config, run: seq<Step>, w: World, cs: set<nat>)
    requires Legal(cfg, Fresh, run) && w == Exec(cfg, Fresh, run)
    requires forall c <- cs :: Holder(cfg, w, c)
    ensures |cs| <= cfg.max
  {
    RunKeepsInv(cfg, run);
    forall c <- cs ensures w.clients[c].slot < cfg.max { assert ClientOk(cfg, w, w.clients[c]); }
    AtMostOnePerSlot(cfg, w, cs, cfg.max);
  }

  // ---- Leases nobody knows of ----------------------------------------------------------------------

  ghost predicate IsSlot(cfg: Config, key: string, n: nat) { exists i: nat :: i < n && key == SlotKeyOf(cfg.prefix, i) }

  ghost predicate OnlySlots(cfg: Config, w: World) { forall key <- w.store.slots :: IsSlot(cfg, key, cfg.max) }

  lemma StepKeepsSlots(cfg: Config, w: World, st: Step)
    requires Inv(cfg, w) && OnlySlots(cfg, w) && Enabled(w, st)
    ensures OnlySlots(cfg, Apply(cfg, w, st))
  {
    var t := Apply(cfg, w, st);
    forall key <- t.store.slots ensures IsSlot(cfg, key, cfg.max) {
      if key !in w.store.slots {
        assert ClientOk(cfg, w, w.clients[st.c]);
      }
    }
  }

  lemma {:induction false} RunKeepsSlots(cfg: Config, run: seq<Step>)
    requires Legal(cfg, Fresh, run)
    ensures OnlySlots(cfg, Exec(cfg, Fresh, run))
    decreases |run|
  {
    if run != [] {
      RunKeepsInv(cfg, run[..|run| - 1]);
      RunKeepsSlots(cfg, run[..|run| - 1]);
      StepKeepsSlots(cfg, Exec(cfg, Fresh, run[..|run| - 1]), run[|run| - 1]);
    }
  }

  lemma {:induction false} SlotsAreFew(cfg: Config, keys: set<string>, n: nat)
    requires forall key <- keys :: IsSlot(cfg, key, n)
    ensures |keys| <= n
    decreases n
  {
    if n == 0 {
      assert keys == {};
    } else {
      var top := SlotKeyOf(cfg.prefix, n - 1);
      forall key <- keys - {top} ensures IsSlot(cfg, key, n - 1) {
        var i: nat :| i < n && key == SlotKeyOf(cfg.prefix, i);
      }
      SlotsAreFew(cfg, keys - {top}, n - 1);
    }
  }

  /** At most `max` leases are live at once, those included that a command took whose reply was lost. */
  lemma AtMostMaxLeases(cfg: Config, run: seq<Step>, w: World, keys: set<string>)
    requires Legal(cfg, Fresh, run) && w == Exec(cfg, Fresh, run)
    requires forall key <- keys :: Live(w.store, key)
    ensures |keys| <= cfg.max
  {
    RunKeepsSlots(cfg, run);
    SlotsAreFew(cfg, keys, cfg.max);
  }

  // ---- Exactly max -------------------------------------------------------------------------------

  /** The store after one acquire at each of the given times, nobody releasing. */
  function AcquireAt(cfg: Config, st: Store, times: seq<nat>): Store {
    if times == [] then st
    else
      var n := |times| - 1;
      var before := AcquireAt(cfg, st, times[..n]).(now := times[n]);
      var i := FirstFree(cfg, before, 0);
      if i == cfg.max then before else Set(before, SlotKeyOf(cfg.prefix, i), n, cfg.ttl)
  }

  /** The first k slots are live at least until `until`; the others are free, or expired by `from`. */
  ghost predicate FirstTaken(cfg: Config, st: Store, k: nat, from: nat, until: nat) {
    forall i: nat | i < cfg.max :: var key := SlotKeyOf(cfg.prefix, i);
      if i < k then key in st.slots && until <= st.slots[key].expires
      else key in st.slots ==> st.slots[key].expires <= from
  }

  lemma {:induction false} FirstFreeIs(cfg: Config, st: Store, k: nat, start: nat, until: nat, from: nat)
    requires FirstTaken(cfg, st, k, start, until) && start <= st.now < until && from <= k <= cfg.max
    ensures FirstFree(cfg, st, from) == k
    decreases k - from
  {
    if from < k {
      FirstFreeIs(cfg, st, k, start, until, from + 1);
    }
  }

  /** No slot is live at the given time; leases that have expired may still be in the store. */
  predicate AllFree(cfg: Config, st: Store, time: nat) {
    forall i: nat | i < cfg.max :: !Live(st.(now := time), SlotKeyOf(cfg.prefix, i))
  }

  /** Within one time to live of the first, exactly `max` acquires succeed, taking the slots in order, and
      the next one fails. */
  lemma {:induction false} ExactlyMaxAcquires(cfg: Config, st: Store, times: seq<nat>)
    requires times != [] ==> AllFree(cfg, st, times[0])
    requires forall i, j | 0 <= i <= j < |times| :: times[i] <= times[j] < times[0] + cfg.ttl
    ensures times != [] ==>
      var k := if |times| <= cfg.max then |times| else cfg.max;
      FirstTaken(cfg, AcquireAt(cfg, st, times), k, times[0], times[0] + cfg.ttl)
    ensures times != [] ==>
      var before := AcquireAt(cfg, st, times[..|times| - 1]).(now := times[|times| - 1]);
      FirstFree(cfg, before, 0) == (if |times| <= cfg.max then |times| - 1 else cfg.max)
    decreases |times|
  {
    if times != [] {
      var n := |times| - 1;
      ExactlyMaxAcquires(cfg, st, times[..n]);
      var before := AcquireAt(cfg, st, times[..n]).(now := times[n]);
      var k := if n <= cfg.max then n else cfg.max;
      var start, until := times[0], times[0] + cfg.ttl;
      assert FirstTaken(cfg, before, k, start, until) by {
        if n == 0 {
          assert forall i: nat | i < cfg.max :: !Live(st.(now := start), SlotKeyOf(cfg.prefix, i));
        }
      }
      FirstFreeIs(cfg, before, k, start, until, 0);
      if k < cfg.max {
        TakesNext(cfg, before, k, start, until, n);
      }
    }
  }

  /** Setting slot k adds it to the first k. */
  lemma TakesNext(cfg: Config, st: Store, k: nat, start: nat, until: nat, token: nat)
    requires FirstTaken(cfg, st, k, start, until) && k < cfg.max && until <= st.now + cfg.ttl
    ensures FirstTaken(cfg, Set(st, SlotKeyOf(cfg.prefix, k), token, cfg.ttl), k + 1, start, until)
  {
    forall i: nat | i < cfg.max && i != k ensures SlotKeyOf(cfg.prefix, i) != SlotKeyOf(cfg.prefix, k) {
      SlotKeysDiffer(cfg.prefix, i, k);
    }
  }

  // ---- The code --------------------------------------------------------------------------------------

  /** NewRedis: a limit below one means one, a time to live below one means five minutes. */
  function NewConfig(prefix: string, max: int, ttl: int): (cfg: Config)
    ensures 1 <= cfg.max && 1 <= cfg.ttl && cfg.prefix == prefix
    ensures (0 < max ==> cfg.max == max) && (0 < ttl ==> cfg.ttl == ttl)
    ensures (max <= 0 ==> cfg.max == 1) && (ttl <= 0 ==> cfg.ttl == 300_000)
  {
    Config(prefix, if max <= 0 then 1 else max, if ttl <= 0 then 300_000 else ttl)
  }

  ghost function Follows(cfg: Config): (World, Step, World) -> bool {
    (w: World, st: Step, t: World) => Enabled(w, st) && t == Apply(cfg, w, st)
  }

  /** The client a step belongs to; the clock's steps belong to none. */
  function Owner(st: Step): int { if st.Tick? then -1 else st.c }

  lemma OthersLeave(cfg: Config, w: World, st: Step, me: nat)
    requires Enabled(w, st) && Owner(st) != me
    ensures var t := Apply(cfg, w, st);
      && (me in t.clients <==> me in w.clients) && (me in w.clients ==> t.clients[me] == w.clients[me])
      && w.nextToken <= t.nextToken
  {
  }

  /** Redis and everyone else who uses the semaphore. */
  class Redis {
    const cfg: Config
    var w: World
    var others: seq<seq<Step>>  // what others attempt before each further command
    ghost const origin: World
    ghost var run: seq<Step>    // every command so far, and the worlds around them
    ghost var worlds: seq<World>

    ghost predicate Valid() reads this {
      IsRun(Follows(cfg), worlds, run) && worlds[0] == origin && worlds[|run|] == w
    }

    constructor (cfg: Config, origin: World, others: seq<seq<Step>>)
      ensures Valid() && this.cfg == cfg && w == origin && this.origin == origin && run == []
    {
      this.cfg, this.w, this.origin, this.others := cfg, origin, origin, others;
      this.run, this.worlds := [], [origin];
    }

    method Do(st: Step)
      requires Valid() && Enabled(w, st)
      modifies this`w, this`run, this`worlds
      ensures Valid() && w == Apply(cfg, old(w), st) && run == old(run) + [st] && worlds == old(worlds) + [w]
    {
      RunGrows(Follows(cfg), worlds, run, st, Apply(cfg, w, st));
      w := Apply(cfg, w, st);
      run, worlds := run + [st], worlds + [w];
    }

    /** Others take any possible steps of theirs, and time passes; client `me` does nothing. */
    method Yield(me: nat)
      requires Valid()
      modifies this
      ensures Valid() && old(run) <= run && old(worlds) <= worlds && old(w).nextToken <= w.nextToken
      ensures me in w.clients <==> me in old(w).clients
      ensures me in w.clients ==> w.clients[me] == old(w).clients[me]
      ensures old(others) == [] ==> others == [] && w == old(w)
    {
      if others == [] { return; }
      var todo := others[0];
      others := others[1..];
      for i := 0 to |todo|
        invariant Valid() && old(run) <= run && old(worlds) <= worlds && old(w).nextToken <= w.nextToken
        invariant me in w.clients <==> me in old(w).clients
        invariant me in w.clients ==> w.clients[me] == old(w).clients[me]
      {
        if Enabled(w, todo[i]) && Owner(todo[i]) != me {
          OthersLeave(cfg, w, todo[i], me);
          Do(todo[i]);
        }
      }
    }
  }

  /** A record is a run of the step relation, so what every run keeps holds of it. */
  lemma {:induction false} RecordIsRun(cfg: Config, worlds: seq<World>, run: seq<Step>)
    requires IsRun(Follows(cfg), worlds, run)
    ensures Legal(cfg, worlds[0], run) && Exec(cfg, worlds[0], run) == worlds[|run|]
    ensures Inv(cfg, worlds[0]) ==> Inv(cfg, worlds[|run|])
    decreases |run|
  {
    if run != [] {
      var n := |run| - 1;
      RunShrinks(Follows(cfg), worlds, run);
      RecordIsRun(cfg, worlds[..n + 1], run[..n]);
      if Inv(cfg, worlds[0]) {
        StepKeepsInv(cfg, worlds[n], run[n]);
      }
    }
  }

  /** The slot was just taken under this token, for a full time to live. */
  predicate IsLeased(st: Store, cfg: Config, slot: nat, token: nat) {
    var key := SlotKeyOf(cfg.prefix, slot);
    key in st.slots && st.slots[key] == Lease(token, st.now + cfg.ttl)
  }

  /** Slot number i was live in world seen[i], after the start, each in a later world than the one before. */
  ghost predicate SeenLive(cfg: Config, worlds: seq<World>, start: nat, seen: seq<nat>) {
    && (forall i | 0 <= i < |seen| ::
          start < seen[i] && seen[i] + 1 < |worlds| && Live(worlds[seen[i]].store, SlotKeyOf(cfg.prefix, i)))
    && forall i, j | 0 <= i < j < |seen| :: seen[i] < seen[j]
  }

  lemma SeenStays(cfg: Config, worlds: seq<World>, more: seq<World>, start: nat, seen: seq<nat>)
    requires SeenLive(cfg, worlds, start, seen) && worlds <= more
    ensures SeenLive(cfg, more, start, seen)
  {
  }

  lemma SeenSince(cfg: Config, worlds: seq<World>, start: nat, seen: seq<nat>)
    requires exists later: nat :: start <= later && SeenLive(cfg, worlds, later, seen)
    ensures SeenLive(cfg, worlds, start, seen)
  {
  }

  /** The next slot was live when it was probed, in the last world but one. */
  lemma SeenOneMore(cfg: Config, worlds: seq<World>, more: seq<World>, start: nat, seen: seq<nat>)
    requires SeenLive(cfg, worlds, start, seen) && worlds <= more && |worlds| < |more| && start + 2 < |more|
    requires Live(more[|more| - 2].store, SlotKeyOf(cfg.prefix, |seen|))
    ensures SeenLive(cfg, more, start, seen + [|more| - 2])
  {
  }

  datatype Outcome = Acquired | Refused | Failed

  /** One client's use of the semaphore. */
  class RedisSemaphore {
    const redis: Redis
    const c: nat

    constructor (redis: Redis, c: nat)
      ensures this.redis == redis && this.c == c
    {
      this.redis, this.c := redis, c;
    }

    /** slotKey's loop: the digits are written from the end of the buffer. */
    method WriteDigits(buf: array<char>, idx: nat) returns (pos: nat)
      requires 0 < idx < Pow10(buf.Length)
      modifies buf
      ensures pos <= buf.Length && buf[pos..] == Decimal(idx)
    {
      var n: nat := idx;
      pos := buf.Length;
      while 0 < n
        invariant pos <= buf.Length && n < Pow10(pos)
        invariant Decimal(idx) == Written(n, buf[pos..])
      {
        ghost var tail := buf[pos..];
        OneDigitMore(n, tail, pos);
        pos := pos - 1;
        buf[pos] := Digit(n % 10);
        assert buf[pos..] == [Digit(n % 10)] + tail;
        n := n / 10;
      }
      assert "" + buf[pos..] == buf[pos..];
    }

    /** slotKey, with its 20-byte buffer. */
    method SlotKey(idx: nat) returns (key: string)
      requires idx < Pow10(20)
      ensures key == SlotKeyOf(redis.cfg.prefix, idx)
    {
      if idx == 0 {
        return redis.cfg.prefix + ":slot:0";
      }
      var buf := new char[20];
      var pos := WriteDigits(buf, idx);
      return redis.cfg.prefix + ":slot:" + buf[pos..];
    }

    /** One SETNX, once others have had their turn: the lease is taken exactly if the slot was not live. */
    method TrySlot(token: nat, slot: nat, ghost start: nat, ghost before: seq<nat>)
      returns (ok: bool, ghost seen: seq<nat>)
      requires redis.Valid() && slot < redis.cfg.max <= Pow10(20) && start < |redis.run|
      requires SeenLive(redis.cfg, redis.worlds, start, before) && |before| == slot
      requires c in redis.w.clients && redis.w.clients[c] == Scanning(token, slot)
      modifies redis
      ensures redis.Valid() && old(redis.run) <= redis.run && old(redis.worlds) <= redis.worlds
      ensures |redis.run| > |old(redis.run)| && c in redis.w.clients
      ensures ok == !Live(redis.worlds[|redis.run| - 1].store, SlotKeyOf(redis.cfg.prefix, slot))
      ensures SeenLive(redis.cfg, redis.worlds, start, seen) && |seen| == slot + if ok then 0 else 1
      ensures ok ==> redis.w.clients[c] == Holding(token, slot)
      ensures ok ==> IsLeased(redis.w.store, redis.cfg, slot, token)
      ensures !ok ==>
        redis.w.clients[c] == (if slot + 1 < redis.cfg.max then Scanning(token, slot + 1) else Finished)
      ensures old(redis.others) == [] ==> redis.others == [] && redis.worlds[|redis.run| - 1] == old(redis.w)
      ensures old(redis.others) == [] && !ok ==> redis.w.store == old(redis.w).store
    {
      ghost var worlds := redis.worlds;
      var key := SlotKey(slot);
      redis.Yield(c);
      ok := !Live(redis.w.store, key);
      redis.Do(Probe(c));
      seen := before;
      SeenStays(redis.cfg, worlds, redis.worlds, start, before);
      if !ok {
        SeenOneMore(redis.cfg, worlds, redis.worlds, start, before);
        seen := before + [|redis.worlds| - 2];
      }
    }

    /** The token is drawn. */
    method DrawToken() returns (token: nat)
      requires redis.Valid() && c !in redis.w.clients && 1 <= redis.cfg.max
      modifies redis
      ensures redis.Valid() && old(redis.run) <= redis.run && old(redis.worlds) <= redis.worlds
      ensures |old(redis.run)| < |redis.run| && old(redis.w).nextToken <= token
      ensures c in redis.w.clients && redis.w.clients[c] == Scanning(token, 0)
      ensures old(redis.others) == [] ==> redis.others == [] && redis.w.store == old(redis.w).store
    {
      redis.Yield(c);
      redis.Do(Begin(c));
      token := redis.w.clients[c].token;
    }

    /** TryAcquire. It tries the slots in order and acquires the first it finds not live, under a token of its own;
        it is refused only after it found every slot live, each when its turn came; the probe of slot `failAt` is
        not answered, and may have been `applied`. With nobody else at work it takes the first slot that is free. */
    method TryAcquire(failAt: nat, applied: bool)
      returns (outcome: Outcome, slot: nat, token: nat, ghost seen: seq<nat>)
      requires redis.Valid() && c !in redis.w.clients && 1 <= redis.cfg.max <= Pow10(20)
      modifies redis
      ensures redis.Valid() && old(redis.run) <= redis.run && old(redis.worlds) <= redis.worlds
      ensures c in redis.w.clients && old(redis.w).nextToken <= token && slot <= redis.cfg.max
      ensures SeenLive(redis.cfg, redis.worlds, |old(redis.run)|, seen) && |seen| == slot
      ensures outcome == Acquired ==> slot < redis.cfg.max && redis.w.clients[c] == Holding(token, slot)
      ensures outcome == Acquired ==> IsLeased(redis.w.store, redis.cfg, slot, token)
      ensures outcome == Refused ==> slot == redis.cfg.max && redis.w.clients[c] == Finished
      ensures outcome == Failed <==> slot == failAt < redis.cfg.max
      ensures old(redis.others) == [] && redis.cfg.max <= failAt ==>
        slot == FirstFree(redis.cfg, old(redis.w).store, 0) && (outcome == Acquired <==> slot < redis.cfg.max)
    {
      token := DrawToken();
      outcome, slot, seen := TrySlots(token, failAt, applied, |redis.run| - 1);
      SeenSince(redis.cfg, redis.worlds, |old(redis.run)|, seen);
    }

    /** The loop over the slots. */
    method TrySlots(token: nat, failAt: nat, applied: bool, ghost start: nat)
      returns (outcome: Outcome, slot: nat, ghost seen: seq<nat>)
      requires redis.Valid() && 1 <= redis.cfg.max <= Pow10(20) && start + 1 == |redis.run|
      requires c in redis.w.clients && redis.w.clients[c] == Scanning(token, 0)
      modifies redis
      ensures redis.Valid() && old(redis.run) <= redis.run && old(redis.worlds) <= redis.worlds
      ensures c in redis.w.clients && slot <= redis.cfg.max
      ensures SeenLive(redis.cfg, redis.worlds, start, seen) && |seen| == slot
      ensures outcome == Acquired ==> slot < redis.cfg.max && redis.w.clients[c] == Holding(token, slot)
      ensures outcome == Acquired ==> IsLeased(redis.w.store, redis.cfg, slot, token)
      ensures outcome == Refused ==> slot == redis.cfg.max && redis.w.clients[c] == Finished
      ensures outcome == Failed <==> slot == failAt < redis.cfg.max
      ensures old(redis.others) == [] && redis.cfg.max <= failAt ==>
        slot == FirstFree(redis.cfg, old(redis.w).store, 0) && (outcome == Acquired <==> slot < redis.cfg.max)
    {
      slot, seen := 0, [];
      while slot < redis.cfg.max
        invariant redis.Valid() && old(redis.run) <= redis.run && old(redis.worlds) <= redis.worlds
        invariant slot <= redis.cfg.max && slot <= failAt && c in redis.w.clients
        invariant redis.w.clients[c] == if slot < redis.cfg.max then Scanning(token, slot) else Finished
        invariant SeenLive(redis.cfg, redis.worlds, start, seen) && |seen| == slot
        invariant old(redis.others) == [] ==> redis.others == [] && redis.w.store == old(redis.w).store
        invariant old(redis.others) == [] ==>
          FirstFree(redis.cfg, old(redis.w).store, 0) == FirstFree(redis.cfg, old(redis.w).store, slot)
      {
        if slot == failAt {
          ghost var worlds := redis.worlds;
          Unanswered(applied);
          SeenStays(redis.cfg, worlds, redis.worlds, start, seen);
          return Failed, slot, seen;
        }
        var ok;
        ok, seen := TrySlot(token, slot, start, seen);
        if ok {
          return Acquired, slot, seen;
        }
        slot := slot + 1;
      }
      outcome := Refused;
    }

    /** A SETNX whose reply is lost. */
    method Unanswered(applied: bool)
      requires redis.Valid() && c in redis.w.clients && redis.w.clients[c].Scanning?
      modifies redis
      ensures redis.Valid() && old(redis.run) <= redis.run && old(redis.worlds) <= redis.worlds
      ensures c in redis.w.clients && redis.w.clients[c] == Finished
    {
      redis.Yield(c);
      redis.Do(ProbeError(c, applied));
    }

    /** The release closure, once others have had their turn: if it gets through, the lease of this key and token is
        over, and no other lease changes. */
    method ReleaseLease(slot: nat, token: nat, lost: bool)
      requires redis.Valid() && slot < Pow10(20)
      requires c in redis.w.clients && redis.w.clients[c] == Holding(token, slot)
      modifies redis
      ensures redis.Valid() && old(redis.run) <= redis.run && |redis.run| > |old(redis.run)|
      ensures c in redis.w.clients && redis.w.clients[c] == Finished
      ensures !lost ==> !Holds(redis.w.store, SlotKeyOf(redis.cfg.prefix, slot), token)
      ensures forall k, t | k != SlotKeyOf(redis.cfg.prefix, slot) || t != token ::
        Holds(redis.w.store, k, t) <==> Holds(redis.worlds[|redis.run| - 1].store, k, t)
    {
      var key := SlotKey(slot);
      redis.Yield(c);
      DeleteEndsOneLease(redis.w.store, key, token);
      redis.Do(Release(c, lost));
    }
  }
}
