/** console/src/lib/datetime.ts: between instants and a zone's wall clock. The zone itself (Intl) is any
    function from instants, in milliseconds, to the fields its clock shows. */
module ZonedTime {
  import opened Wrappers
  import opened Numerals
  import opened Calendar

  type Zone = int -> Fields

  // ---- The text of the picker --------------------------------------------------------------------

  function Two(n: nat): string
    requires n < 100
  {
    [Digit(n / 10), Digit(n % 10)]
  }

  /** yyyy-MM-ddTHH:mm; the year is printed without padding. */
  function LocalText(f: Fields): string
    requires Real(f)
  {
    Decimal(f.year) + "-" + Two(f.month) + "-" + Two(f.day) + "T" + Two(f.hour) + ":" + Two(f.minute)
  }

  predicate Digits(s: string, from: nat, to: nat)
    requires from <= to <= |s|
  {
    AllDigits(s[from..to])
  }

  /** dddd-dd-ddTdd:dd, then possibly :dd. */
  predicate LocalForm(s: string) {
    && (|s| == 16 || (|s| == 19 && s[16] == ':' && Digits(s, 17, 19)))
    && Digits(s, 0, 4) && s[4] == '-' && Digits(s, 5, 7) && s[7] == '-' && Digits(s, 8, 10)
    && s[10] == 'T' && Digits(s, 11, 13) && s[13] == ':' && Digits(s, 14, 16)
  }

  function ParseLocal(s: string): Option<Fields> {
    if !LocalForm(s) then None
    else Some(Fields(ValueOf(s[0..4]), ValueOf(s[5..7]), ValueOf(s[8..10]), ValueOf(s[11..13]), ValueOf(s[14..16]),
                     if |s| == 19 then ValueOf(s[17..19]) else 0))
  }

  lemma TwoReadsBack(n: nat)
    requires n < 100
    ensures AllDigits(Two(n)) && ValueOf(Two(n)) == n
  {
    var s := Two(n);
    assert IsDigit(s[0]) && IsDigit(s[1]);
    assert s[..1] == [Digit(n / 10)];
    assert ValueOf(s[..1]) == 10 * ValueOf(s[..1][..0]) + (s[..1][0] as int - '0' as int);
    assert s[0] as int - '0' as int == n / 10 && s[1] as int - '0' as int == n % 10;
  }

  lemma DecimalLength(n: nat)
    ensures |Decimal(n)| == 4 <==> 1000 <= n <= 9999
    ensures |Decimal(n)| < 4 <==> n < 1000
  {
    DecimalReadsBack(n / 10 / 10 / 10 / 10);
    assert Decimal(n / 10 / 10 / 10) != "" ;
    assert n >= 10 ==> |Decimal(n)| == |Decimal(n / 10)| + 1;
    assert n >= 100 ==> |Decimal(n / 10)| == |Decimal(n / 10 / 10)| + 1;
    assert n >= 1000 ==> |Decimal(n / 10 / 10)| == |Decimal(n / 10 / 10 / 10)| + 1;
    assert n >= 10000 ==> |Decimal(n / 10 / 10 / 10)| == |Decimal(n / 10 / 10 / 10 / 10)| + 1;
  }

  /** The picker reads its own text back, seconds dropped, exactly for years of four digits. */
  lemma TextReadsBack(f: Fields)
    requires Real(f)
    ensures ParseLocal(LocalText(f)) == if 1000 <= f.year <= 9999 then Some(f.(second := 0)) else None
  {
    var s, year := LocalText(f), Decimal(f.year);
    DecimalLength(f.year);
    DecimalReadsBack(f.year);
    if |year| == 4 {
      TwoReadsBack(f.month);
      TwoReadsBack(f.day);
      TwoReadsBack(f.hour);
      TwoReadsBack(f.minute);
      assert s[0..4] == year && s[5..7] == Two(f.month) && s[8..10] == Two(f.day);
      assert s[11..13] == Two(f.hour) && s[14..16] == Two(f.minute);
      assert ValueOf(s[0..4]) == f.year;
    } else if 4 < |year| {
      assert s[4] == year[4] && IsDigit(year[4]);
    }
  }

  /** With the seconds written out it reads them back, too. */
  lemma TextWithSecondsReadsBack(f: Fields)
    requires Real(f) && 1000 <= f.year <= 9999
    ensures ParseLocal(LocalText(f) + ":" + Two(f.second)) == Some(f)
  {
    var t, s, year := LocalText(f), LocalText(f) + ":" + Two(f.second), Decimal(f.year);
    DecimalLength(f.year);
    DecimalReadsBack(f.year);
    TwoReadsBack(f.month);
    TwoReadsBack(f.day);
    TwoReadsBack(f.hour);
    TwoReadsBack(f.minute);
    TwoReadsBack(f.second);
    assert |t| == 16 && |s| == 19 && s[..16] == t && s[16] == ':' && s[17..19] == Two(f.second);
    assert s[0..4] == year && s[5..7] == Two(f.month) && s[8..10] == Two(f.day);
    assert s[11..13] == Two(f.hour) && s[14..16] == Two(f.minute);
  }

  // ---- Both directions ---------------------------------------------------------------------------

  /** getTimezoneOffsetMs: the wall clock read as UTC, minus the instant. */
  function OffsetOf(zone: Zone): int -> int { t => UTC(zone(t)) - t }

  function Resolve(offset: int -> int, guess: int): int { guess - offset(guess - offset(guess)) }

  method FromDateTimeLocalValue(local: string, zone: Zone) returns (instant: Option<int>)
    ensures instant == match ParseLocal(local)
      case None => None
      case Some(f) => Some(Resolve(OffsetOf(zone), UTC(f)))
  {
    var m := ParseLocal(local);
    if m.None? {
      return None;
    }
    var guess := UTC(m.value);
    var offset := OffsetOf(zone)(guess);
    offset := OffsetOf(zone)(guess - offset);
    instant := Some(guess - offset);
  }

  // ---- Zones with at most one transition nearby --------------------------------------------------

  /** The offset is `before` until the instant `at`, and `after` from it on. */
  datatype Change = Change(at: int, before: int, after: int)

  predicate Near(t: int, g: int, bound: int) { t % 1000 == 0 && g - bound <= t <= g + bound }

  /** Within `bound` of g the zone has at most the one transition c, and offsets no larger than `bound`. */
  ghost predicate Follows(offset: int -> int, g: int, bound: int, c: Change) {
    && -bound <= c.before <= bound && c.before % 1000 == 0
    && -bound <= c.after <= bound && c.after % 1000 == 0
    && forall t | Near(t, g, bound) :: offset(t) == if t < c.at then c.before else c.after
  }

  /** A whole-second instant within `bound` of g at which the clock shows g. */
  ghost predicate Shows(offset: int -> int, t: int, g: int, bound: int) { Near(t, g, bound) && t + offset(t) == g }

  /** The clock jumps over g. */
  predicate InGap(c: Change, g: int) { c.at + c.before <= g < c.at + c.after }

  /** The clock shows g twice. */
  predicate InOverlap(c: Change, g: int) { c.at + c.after <= g < c.at + c.before }

  lemma WholeSeconds(a: int, b: int)
    requires a % 1000 == 0 && b % 1000 == 0
    ensures (a - b) % 1000 == 0 && (a + b) % 1000 == 0
  {
  }

  /** What two lookups find: the offset that holds at the naive instant less its own offset. */
  lemma ResolveIs(offset: int -> int, g: int, bound: int, c: Change)
    requires g % 1000 == 0 && Follows(offset, g, bound, c)
    ensures var first := if g < c.at then c.before else c.after;
      var second := if g - first < c.at then c.before else c.after;
      Resolve(offset, g) == g - second && Near(Resolve(offset, g), g, bound)
  {
    var first := if g < c.at then c.before else c.after;
    assert Near(g, g, bound) && offset(g) == first;
    WholeSeconds(g, c.before);
    WholeSeconds(g, c.after);
    assert Near(g - first, g, bound);
    var second := if g - first < c.at then c.before else c.after;
    assert offset(g - first) == second && Resolve(offset, g) == g - second;
  }

  /** Two lookups suffice: the resolved instant shows the requested wall clock exactly when it is not in a
      forward jump, which is exactly when any instant shows it. */
  lemma TwoLookupsSuffice(offset: int -> int, g: int, bound: int, c: Change)
    requires g % 1000 == 0 && Follows(offset, g, bound, c)
    ensures Shows(offset, Resolve(offset, g), g, bound) <==> !InGap(c, g)
    ensures (exists t :: Shows(offset, t, g, bound)) <==> !InGap(c, g)
  {
    ResolveIs(offset, g, bound, c);
    forall t | Shows(offset, t, g, bound)
      ensures !InGap(c, g)
    {
    }
  }

  /** In a gap the clock is off by the length of the jump: early before the transition instant, late after. */
  lemma GapMovesByTheJump(offset: int -> int, g: int, bound: int, c: Change)
    requires g % 1000 == 0 && Follows(offset, g, bound, c) && InGap(c, g)
    ensures var r := Resolve(offset, g);
      r + offset(r) - g == if g < c.at then c.before - c.after else c.after - c.before
  {
    ResolveIs(offset, g, bound, c);
  }

  /** In an overlap two instants show g, and the earlier is taken exactly when g, read as UTC, precedes the
      transition. */
  lemma OverlapChoice(offset: int -> int, g: int, bound: int, c: Change)
    requires g % 1000 == 0 && Follows(offset, g, bound, c) && InOverlap(c, g)
    ensures Shows(offset, g - c.before, g, bound) && Shows(offset, g - c.after, g, bound) && g - c.before < g - c.after
    ensures Resolve(offset, g) == if g < c.at then g - c.before else g - c.after
  {
    ResolveIs(offset, g, bound, c);
    WholeSeconds(g, c.before);
    WholeSeconds(g, c.after);
    assert Near(g - c.before, g, bound) && Near(g - c.after, g, bound);
  }

  /** An instant's own wall clock resolves back to it, unless it is shown twice and the other one is taken. */
  lemma InstantRoundTrip(offset: int -> int, t: int, g: int, bound: int, c: Change)
    requires g % 1000 == 0 && Follows(offset, g, bound, c) && Shows(offset, t, g, bound)
    ensures Resolve(offset, g) == t <==> !InOverlap(c, g) || (t < c.at <==> g < c.at)
  {
    ResolveIs(offset, g, bound, c);
  }

  // ---- The fields that are shown -----------------------------------------------------------------

  ghost predicate RealNear(zone: Zone, g: int, bound: int) {
    forall t | Near(t, g, bound) :: Real(zone(t)) && 100 <= zone(t).year
  }

  /** Some nearby instant's clock shows exactly these fields. */
  ghost predicate Shown(zone: Zone, f: Fields, bound: int) { exists t :: Near(t, UTC(f), bound) && zone(t) == f }

  lemma SameNumberSameFields(zone: Zone, t: int, f: Fields, g: int, bound: int)
    requires g == UTC(f) && Real(f) && 100 <= f.year && RealNear(zone, g, bound) && Near(t, g, bound)
    ensures Shows(OffsetOf(zone), t, g, bound) <==> zone(t) == f
  {
    if UTC(zone(t)) == g {
      UtcTellsApart(zone(t), f);
    }
  }

  /** For a date that exists: the resolved instant shows its very fields, whenever any instant does. */
  lemma RequestedFieldsAreShown(zone: Zone, f: Fields, bound: int, c: Change, r: int)
    requires Real(f) && 100 <= f.year && RealNear(zone, UTC(f), bound) && Follows(OffsetOf(zone), UTC(f), bound, c)
    requires r == Resolve(OffsetOf(zone), UTC(f))
    ensures zone(r) == f <==> Shown(zone, f, bound)
  {
    var g := UTC(f);
    UtcIsWholeSeconds(f);
    TwoLookupsSuffice(OffsetOf(zone), g, bound, c);
    ResolveIs(OffsetOf(zone), g, bound, c);
    SameNumberSameFields(zone, r, f, g, bound);
    if Shown(zone, f, bound) {
      var t :| Near(t, g, bound) && zone(t) == f;
      SameNumberSameFields(zone, t, f, g, bound);
    }
  }

  /** Showing an instant in the picker and reading the text back gives an instant with the same text, the wall
      clock's seconds gone, exactly when the start of that minute is shown at all. */
  lemma PickerRoundTrip(zone: Zone, t: int, f: Fields, bound: int, c: Change, back: int)
    requires f == zone(t).(second := 0) && Real(zone(t)) && 1000 <= f.year <= 9999
    requires RealNear(zone, UTC(f), bound) && Follows(OffsetOf(zone), UTC(f), bound, c)
    requires back == Resolve(OffsetOf(zone), UTC(f))
    ensures ParseLocal(LocalText(zone(t))) == Some(f)
    ensures zone(back) == f <==> Shown(zone, f, bound)
  {
    TextReadsBack(zone(t));
    RequestedFieldsAreShown(zone, f, bound, c, back);
  }

  // ---- A zone with a jump ------------------------------------------------------------------------

  const HOUR := 3600000
  const DAY := 86400000

  /** The wall clock reading w in January 1970; outside of it any fields will do. */
  function January(w: int): Fields {
    if 0 <= w < 31 * DAY then Fields(1970, 1, 1 + w / DAY, w % DAY / HOUR, w % HOUR / 60000, w % 60000 / 1000)
    else Fields(1970, 1, 1, 0, 0, 0)
  }

  /** On the 15th the clock jumps from two to three o'clock. */
  function Spring(t: int): Fields { January(t + if t < 14 * DAY + 2 * HOUR then 0 else HOUR) }

  lemma TimeOfDay(x: int, hour: int, minute: int, second: int)
    requires 0 <= x < DAY && hour == x / HOUR && minute == x % HOUR / 60000 && second == x % 60000 / 1000
    ensures 0 <= hour < 24 && 0 <= minute < 60 && 0 <= second < 60
    ensures hour * 3600000 + minute * 60000 + second * 1000 == x - x % 1000
  {
    var y := x % HOUR;
    assert x == hour * HOUR + y && y == minute * 60000 + y % 60000;
    assert x == (hour * 60) * 60000 + y;
    assert y % 60000 == x % 60000;
  }

  lemma JanuaryDay(d: int)
    requires 0 <= d < 31
    ensures MakeDay(1970, 0, 1 + d) == d
  {
  }

  lemma JanuaryShows(w: int)
    requires 0 <= w < 31 * DAY
    ensures Real(January(w)) && UTC(January(w)) == w - w % 1000
  {
    var d, x := w / DAY, w % DAY;
    assert w == d * DAY + x;
    SameInHour(d * 24, x);
    SameInMinute(d * 1440, x);
    SameInSecond(d * 86400, x);
    TimeOfDay(x, x / HOUR, x % HOUR / 60000, x % 60000 / 1000);
    JanuaryDay(d);
  }

  lemma SameInHour(n: int, x: int)
    ensures (n * HOUR + x) % HOUR == x % HOUR
  {
  }

  lemma SameInMinute(n: int, x: int)
    ensures (n * 60000 + x) % 60000 == x % 60000
  {
  }

  lemma SameInSecond(n: int, x: int)
    ensures (n * 1000 + x) % 1000 == x % 1000
  {
  }

  lemma SpringShows(t: int, jump: int)
    requires 0 <= t < 30 * DAY && t % 1000 == 0 && jump == if t < 14 * DAY + 2 * HOUR then 0 else HOUR
    ensures Real(Spring(t)) && UTC(Spring(t)) - t == jump
  {
    JanuaryShows(t + jump);
    WholeSeconds(t, jump);
  }

  /** The hypotheses of the lemmas above can be met, with a gap. */
  lemma SpringForward(g: int, c: Change)
    requires g == 14 * DAY + 2 * HOUR + 1800000 && c == Change(14 * DAY + 2 * HOUR, 0, HOUR)
    ensures InGap(c, g) && Follows(OffsetOf(Spring), g, DAY, c) && RealNear(Spring, g, DAY)
  {
    forall t | Near(t, g, DAY)
      ensures Real(Spring(t)) && 100 <= Spring(t).year && OffsetOf(Spring)(t) == if t < c.at then c.before else c.after
    {
      SpringShows(t, if t < c.at then 0 else HOUR);
    }
  }

  // ---- Any offsets at all --------------------------------------------------------------------------

  /** For every offset function whatsoever: the two lookups found an instant that shows g if and only if a third
      lookup, at that instant, would agree with the second. */
  lemma ThirdLookupDecides(offset: int -> int, g: int)
    ensures var r := Resolve(offset, g); r + offset(r) == g <==> offset(r) == offset(g - offset(g))
  {
  }

  // ---- Two transitions are too many --------------------------------------------------------------

  /** Offsets of three, two and one hours, changing at 22:30 and 23:30: the clock only ever goes back. */
  function Backward(t: int): int {
    if t < 22 * HOUR + 1800000 then 3 * HOUR else if t < 23 * HOUR + 1800000 then 2 * HOUR else HOUR
  }

  /** Midnight is shown at 21:00, and the two lookups still end at an instant that shows one o'clock. */
  lemma TwoTransitionsMiss()
    ensures var g := 24 * HOUR; var r := Resolve(Backward, g);
      Shows(Backward, 21 * HOUR, g, 3 * HOUR) && r + Backward(r) == g + HOUR
  {
  }
}
