/** PLC counter readings: the delta between two readings, with 16- and 32-bit wrap, and what polling makes of it. */
module Counter {
  import opened Protocol

  const Max16: int := 65535
  const Max32: int := 4294967295
  const Range16: int := 65536
  const Range32: int := 4294967296

  /** Go's int64. */
  type Int64 = x: int | -0x8000_0000_0000_0000 <= x < 0x8000_0000_0000_0000

  /** Two's complement: what is out of range wraps around. */
  function Wrap64(x: int): Int64 {
    if -0x8000_0000_0000_0000 <= x < 0x8000_0000_0000_0000 then x
    else (x + 0x8000_0000_0000_0000) % 0x1_0000_0000_0000_0000 - 0x8000_0000_0000_0000
  }

  datatype Anomaly = Normal | Reset | Jump

  datatype Reading = Reading(delta: Int64, anomaly: Anomaly)

  /** The wrap distance for one width, when the last count fits the width. */
  function RolloverAt(max: Int64, last: Int64, count: Int64, threshold: Int64): Option<Int64> {
    var d := Wrap64(Wrap64(Wrap64(max - last) + count) + 1);
    if last <= max && 0 < d <= threshold then Some(d) else None
  }

  /** The 16-bit reading of a backward step is preferred to the 32-bit one; 0 when neither is plausible. */
  function TryRollover(last: Int64, count: Int64, threshold: Int64): Int64 {
    var narrow, wide := RolloverAt(Max16, last, count, threshold), RolloverAt(Max32, last, count, threshold);
    if narrow.Some? then narrow.value else if wide.Some? then wide.value else 0
  }

  function CalculateDelta(last: Int64, count: Int64, threshold: Int64): Reading {
    if count == last then Reading(0, Normal)
    else if count < last then
      var rollover := TryRollover(last, count, threshold);
      if rollover > 0 then Reading(rollover, Normal) else Reading(count, Reset)
    else
      var delta := Wrap64(count - last);
      Reading(delta, if delta > threshold then Jump else Normal)
  }

  // ---------- arithmetic ----------

  /** The same decision without a word size. */
  function IdealDelta(last: int, count: int, threshold: int): (int, Anomaly) {
    if count == last then (0, Normal)
    else if count > last then (count - last, if count - last > threshold then Jump else Normal)
    else if last <= Max16 && 0 < Range16 - last + count <= threshold then (Range16 - last + count, Normal)
    else if last <= Max32 && 0 < Range32 - last + count <= threshold then (Range32 - last + count, Normal)
    else (count, Reset)
  }

  /** The 64-bit arithmetic decides as unbounded arithmetic would. */
  predicate AsIdeal(last: Int64, count: Int64, threshold: Int64) {
    var r := CalculateDelta(last, count, threshold);
    (r.delta as int, r.anomaly) == IdealDelta(last, count, threshold)
  }

  /** The wrap distance may overflow on the way; where it is used the overflows cancel. */
  lemma RolloverIsIdeal(max: Int64, last: Int64, count: Int64, threshold: Int64)
    requires (max == Max16 || max == Max32) && count < last
    ensures var d := max - last + count + 1;
      RolloverAt(max, last, count, threshold) == if last <= max && 0 < d <= threshold then Some(d) else None
  {
    hide Wrap64;
    if last <= max {
      WrapBack(max - last, count);
      WrapBack(max - last + count, 1);
      WrapBack(max - last + count + 1, 0);
    }
  }

  /** Wrapping a summand first makes no difference to the sum, and a sum in range is itself. */
  lemma WrapBack(x: int, y: int)
    ensures Wrap64(Wrap64(x) + y) == Wrap64(x + y)
    ensures -0x8000_0000_0000_0000 <= x < 0x8000_0000_0000_0000 ==> Wrap64(x) == x
  {
  }

  /** Whatever the readings and the threshold, the delta is the ideal one exactly when the step is less than 2^63. */
  lemma OverflowIff(last: Int64, count: Int64, threshold: Int64)
    ensures AsIdeal(last, count, threshold) <==> count - last < 0x8000_0000_0000_0000
  {
    if count < last {
      RolloverIsIdeal(Max16, last, count, threshold);
      RolloverIsIdeal(Max32, last, count, threshold);
    }
  }

  /** So only a step up from a negative reading can overflow; this one does. */
  lemma NegativeReadingOverflows()
    ensures forall last: Int64, count: Int64, threshold: Int64 :: last >= 0 ==> AsIdeal(last, count, threshold)
    ensures CalculateDelta(-0x8000_0000_0000_0000, 1, 1000) == Reading(-0x7FFF_FFFF_FFFF_FFFF, Normal)
    ensures !AsIdeal(-0x8000_0000_0000_0000, 1, 1000)
  {
    forall last: Int64, count: Int64, threshold: Int64 | last >= 0 ensures AsIdeal(last, count, threshold) {
      OverflowIff(last, count, threshold);
    }
    OverflowIff(-0x8000_0000_0000_0000, 1, 1000);
  }

  /** What a counter of 16 or 32 bits shows. */
  function Shows(x: int, wide: bool): (r: nat)
    ensures r < if wide then Range32 else Range16
  {
    if wide then x % 0x1_0000_0000 else x % 0x1_0000
  }

  /** A 16-bit counter that advanced by no more than the threshold: no anomaly, and the delta is right modulo 2^16. */
  lemma Exact16(last: Int64, made: int, threshold: Int64)
    requires 0 <= last < Range16 && 0 <= made <= threshold
    ensures CalculateDelta(last, Shows(last + made, false), threshold) == Reading(Shows(made, false), Normal)
    ensures CalculateDelta(last, Shows(last + made, false), threshold) == Reading(made, Normal) <==> made < Range16
  {
    var count := Shows(last + made, false);
    OverflowIff(last, count, threshold);
  }

  /** The 32-bit counter was read as it should be. */
  predicate Right32(last: int, made: int, threshold: Int64)
    requires 0 <= last < Range32
  {
    var r := CalculateDelta(last, Shows(last + made, true), threshold);
    r.delta == made && r.anomaly == Normal
  }

  lemma Exact32(last: int, made: int, threshold: Int64)
    requires 0 <= last < Range32 && 0 <= made <= threshold <= Range32 - Range16
    ensures CalculateDelta(last, Shows(last + made, true), threshold) == Reading(made, Normal)
  {
    OverflowIff(last, Shows(last + made, true), threshold);
  }

  /**
   A 32-bit counter is read exactly at every reading precisely when the threshold leaves out the 16-bit
   misreading.
   */
  lemma Exact32Iff(threshold: Int64)
    ensures (forall last, made :: 0 <= last < Range32 && 0 <= made <= threshold ==> Right32(last, made, threshold))
      <==> threshold <= Range32 - Range16
  {
    if threshold <= Range32 - Range16 {
      forall last, made | 0 <= last < Range32 && 0 <= made <= threshold ensures Right32(last, made, threshold) {
        Exact32(last, made, threshold);
      }
    } else {
      var made := Range32 - Max16;
      OverflowIff(Max16, 0, threshold);
      assert !Right32(Max16, made, threshold);
    }
  }

  // ---------- polling ----------

  datatype Snapshot = Snapshot(count: Int64, delta: Int64, anomaly: Anomaly, confirmed: bool)

  datatype Event =
    | CounterRead(count: Int64)
    | CounterReadError
    | CounterAnomaly(snapshot: nat, last: Int64, count: Int64, anomaly: Anomaly)
    | CounterDelta(style: nat, delta: Int64, count: Int64, anomaly: Anomaly)

  /** What reading the tag gives: an error, a value that is no integer, or a count. */
  datatype Tag = Unreadable | NotInteger | Value(count: Int64)

  datatype Point = Point(style: nat, last: Int64, snapshots: seq<Snapshot>, events: seq<Event>)

  function Emit(s: Point, ev: Event): Point { s.(events := s.events + [ev]) }

  function Record(s: Point, count: Int64, r: Reading): Point {
    var s1 := s.(snapshots := s.snapshots + [Snapshot(count, r.delta, r.anomaly, r.anomaly != Jump)], last := count);
    var s2 := if r.anomaly != Normal then Emit(s1, CounterAnomaly(|s.snapshots|, s.last, count, r.anomaly)) else s1;
    if s.style != 0 && r.anomaly != Jump && r.delta > 0 then Emit(s2, CounterDelta(s.style, r.delta, count, r.anomaly))
    else s2
  }

  function PollWith(s: Point, count: Int64, r: Reading): Point {
    var s1 := Emit(s, CounterRead(count));
    if r.delta == 0 && r.anomaly == Normal then s1 else Record(s1, count, r)
  }

  function Poll(s: Point, tag: Tag, threshold: Int64): Point {
    match tag
    case Unreadable => Emit(s, CounterReadError)
    case NotInteger => s
    case Value(count) => PollWith(s, count, CalculateDelta(s.last, count, threshold))
  }

  function PollAll(s: Point, tags: seq<Tag>, threshold: Int64): Point {
    if tags == [] then s else Poll(PollAll(s, tags[..|tags| - 1], threshold), tags[|tags| - 1], threshold)
  }

  class ReportingPoint {
    const style: nat
    var last: Int64
    var snapshots: seq<Snapshot>
    var events: seq<Event>

    ghost function State(): Point
      reads this
    {
      Point(style, last, snapshots, events)
    }

    constructor (style: nat, last: Int64)
      ensures State() == Point(style, last, [], [])
    {
      this.style, this.last, snapshots, events := style, last, [], [];
    }

    method PollReportingPoint(tag: Tag, threshold: Int64)
      modifies this
      ensures State() == Poll(old(State()), tag, threshold)
    {
      if tag.Unreadable? { events := events + [CounterReadError]; return; }
      if tag.NotInteger? { return; }
      var count := tag.count;
      events := events + [CounterRead(count)];
      var r := CalculateDelta(last, count, threshold);
      if r.delta == 0 && r.anomaly == Normal { return; }
      var id := |snapshots|;
      snapshots := snapshots + [Snapshot(count, r.delta, r.anomaly, r.anomaly != Jump)];
      var previous := last;
      last := count;
      if r.anomaly != Normal { events := events + [CounterAnomaly(id, previous, count, r.anomaly)]; }
      if style == 0 { return; }
      if r.anomaly != Jump && r.delta > 0 { events := events + [CounterDelta(style, r.delta, count, r.anomaly)]; }
    }
  }

  // ---------- totals over a run ----------

  function SumDeltas(snaps: seq<Snapshot>): int {
    if snaps == [] then 0 else SumDeltas(snaps[..|snaps| - 1]) + snaps[|snaps| - 1].delta
  }

  function SumConfirmed(snaps: seq<Snapshot>): int {
    if snaps == [] then 0
    else SumConfirmed(snaps[..|snaps| - 1]) + if snaps[|snaps| - 1].confirmed then snaps[|snaps| - 1].delta else 0
  }

  function SumEmitted(evs: seq<Event>): int {
    if evs == [] then 0
    else SumEmitted(evs[..|evs| - 1]) + if evs[|evs| - 1].CounterDelta? then evs[|evs| - 1].delta else 0
  }

  predicate NoAnomaly(evs: seq<Event>) { forall ev :: ev in evs ==> !ev.CounterAnomaly? }

  predicate NoReset(snaps: seq<Snapshot>) { forall x :: x in snaps ==> x.anomaly != Reset }

  predicate NotNegative(tags: seq<Tag>) { forall t :: t in tags ==> t.Value? ==> t.count >= 0 }

  lemma EmittedAppend(evs: seq<Event>, ev: Event)
    ensures SumEmitted(evs + [ev]) == SumEmitted(evs) + if ev.CounterDelta? then ev.delta else 0
    ensures NoAnomaly(evs + [ev]) <==> NoAnomaly(evs) && !ev.CounterAnomaly?
  {
  }

  lemma SnapshotAppend(snaps: seq<Snapshot>, x: Snapshot)
    ensures SumDeltas(snaps + [x]) == SumDeltas(snaps) + x.delta
    ensures SumConfirmed(snaps + [x]) == SumConfirmed(snaps) + if x.confirmed then x.delta else 0
    ensures NoReset(snaps + [x]) <==> NoReset(snaps) && x.anomaly != Reset
  {
  }

  /** What one poll that sees a count does to every total. */
  lemma PollTotals(s: Point, count: Int64, r: Reading)
    requires r.delta >= 0 && (r.delta == 0 && r.anomaly == Normal ==> count == s.last)
    ensures var s' := PollWith(s, count, r);
      && s'.last == count && s'.style == s.style
      && SumDeltas(s'.snapshots) == SumDeltas(s.snapshots) + r.delta
      && SumConfirmed(s'.snapshots) == SumConfirmed(s.snapshots) + (if r.anomaly != Jump then r.delta else 0)
      && SumEmitted(s'.events) == SumEmitted(s.events) + (if s.style != 0 && r.anomaly != Jump then r.delta else 0)
      && (NoAnomaly(s'.events) <==> NoAnomaly(s.events) && r.anomaly == Normal)
      && (NoReset(s'.snapshots) <==> NoReset(s.snapshots) && r.anomaly != Reset)
  {
    var e1 := s.events + [CounterRead(count)];
    EmittedAppend(s.events, CounterRead(count));
    SnapshotAppend(s.snapshots, Snapshot(count, r.delta, r.anomaly, r.anomaly != Jump));
    var a := CounterAnomaly(|s.snapshots|, s.last, count, r.anomaly);
    var d := CounterDelta(s.style, r.delta, count, r.anomaly);
    EmittedAppend(e1, a);
    EmittedAppend(e1, d);
    EmittedAppend(e1 + [a], d);
  }

  /** What a reading of two counts that are not negative is like. */
  lemma ReadingShape(last: Int64, count: Int64, threshold: Int64)
    requires last >= 0 && count >= 0
    ensures var r := CalculateDelta(last, count, threshold);
      r.delta >= 0 && (r.delta == 0 && r.anomaly == Normal ==> count == last)
  {
  }

  lemma QuietPoll(s: Point, tag: Tag, threshold: Int64)
    requires !tag.Value?
    ensures var s' := Poll(s, tag, threshold);
      && s'.last == s.last && s'.style == s.style && s'.snapshots == s.snapshots
      && SumEmitted(s'.events) == SumEmitted(s.events) && (NoAnomaly(s'.events) <==> NoAnomaly(s.events))
  {
  }

  predicate ConfirmedEmitted(s: Point, style: nat) {
    s.last >= 0 && s.style == style && SumEmitted(s.events) == SumConfirmed(s.snapshots)
  }

  lemma ConfirmedStep(s: Point, style: nat, count: Int64, r: Reading)
    requires style != 0 && ConfirmedEmitted(s, style) && count >= 0
    requires r.delta >= 0 && (r.delta == 0 && r.anomaly == Normal ==> count == s.last)
    ensures ConfirmedEmitted(PollWith(s, count, r), style)
  {
    PollTotals(s, count, r);
  }

  /** Downstream sees exactly the deltas recorded as confirmed, resets included and jumps left out. */
  lemma {:induction false} EmittedIsConfirmed(style: nat, first: Int64, tags: seq<Tag>, threshold: Int64)
    requires style != 0 && first >= 0 && NotNegative(tags)
    ensures ConfirmedEmitted(PollAll(Point(style, first, [], []), tags, threshold), style)
  {
    hide CalculateDelta, PollWith;
    if tags != [] {
      var front, tag := tags[..|tags| - 1], tags[|tags| - 1];
      assert tag in tags && forall t :: t in front ==> t in tags;
      EmittedIsConfirmed(style, first, front, threshold);
      var s := PollAll(Point(style, first, [], []), front, threshold);
      if tag.Value? {
        ReadingShape(s.last, tag.count, threshold);
        ConfirmedStep(s, style, tag.count, CalculateDelta(s.last, tag.count, threshold));
      } else {
        QuietPoll(s, tag, threshold);
      }
    }
  }

  predicate Same16(a: int, b: int) { (a - b) % 0x1_0000 == 0 }

  /** A delta that is no reset accounts for the new reading modulo 2^16. */
  lemma DeltaIsCongruent(last: Int64, count: Int64, threshold: Int64)
    requires last >= 0 && count >= 0
    ensures var r := CalculateDelta(last, count, threshold); r.anomaly != Reset ==> Same16(count, last + r.delta)
  {
    OverflowIff(last, count, threshold);
  }

  lemma SameShift(last: int, total: int, count: int, delta: int)
    requires Same16(last, total) && Same16(count, last + delta)
    ensures Same16(count, total + delta)
  {
  }

  predicate Tracks(s: Point, first: int) {
    s.last >= 0 && (NoReset(s.snapshots) ==> Same16(s.last, first + SumDeltas(s.snapshots)))
  }

  lemma TrackStep(s: Point, first: int, count: Int64, r: Reading)
    requires Tracks(s, first) && count >= 0 && (r.anomaly != Reset ==> Same16(count, s.last + r.delta))
    requires r.delta >= 0 && (r.delta == 0 && r.anomaly == Normal ==> count == s.last)
    ensures Tracks(PollWith(s, count, r), first)
  {
    hide Same16, PollWith;
    var s', total := PollWith(s, count, r), first + SumDeltas(s.snapshots);
    PollTotals(s, count, r);
    assert first + SumDeltas(s'.snapshots) == total + r.delta;
    if NoReset(s'.snapshots) { SameShift(s.last, total, count, r.delta); }
  }

  lemma TrackPoll(s: Point, first: int, tag: Tag, threshold: Int64)
    requires Tracks(s, first) && (tag.Value? ==> tag.count >= 0)
    ensures Tracks(Poll(s, tag, threshold), first)
  {
    hide CalculateDelta, Same16, PollWith;
    if tag.Value? {
      ReadingShape(s.last, tag.count, threshold);
      DeltaIsCongruent(s.last, tag.count, threshold);
      TrackStep(s, first, tag.count, CalculateDelta(s.last, tag.count, threshold));
    } else {
      QuietPoll(s, tag, threshold);
    }
  }

  /** As long as no reset is recorded, the last count is the first plus all recorded deltas, modulo 2^16. */
  lemma {:induction false} ResetFreeRun(style: nat, first: Int64, tags: seq<Tag>, threshold: Int64)
    requires first >= 0 && NotNegative(tags)
    ensures Tracks(PollAll(Point(style, first, [], []), tags, threshold), first)
  {
    hide Poll;
    if tags == [] {
      assert Same16(first, first);
    } else {
      var front, tag := tags[..|tags| - 1], tags[|tags| - 1];
      assert tag in tags && forall t :: t in front ==> t in tags;
      ResetFreeRun(style, first, front, threshold);
      TrackPoll(PollAll(Point(style, first, [], []), front, threshold), first, tag, threshold);
    }
  }

  // ---------- true production ----------

  function SumMade(made: seq<nat>): nat {
    if made == [] then 0 else SumMade(made[..|made| - 1]) + made[|made| - 1]
  }

  /** The tags a counter shows while it produces. */
  function Shown(first: int, made: seq<nat>, wide: bool): (r: seq<Tag>) {
    if made == [] then [] else Shown(first, made[..|made| - 1], wide) + [Value(Shows(first + SumMade(made), wide))]
  }

  predicate Decodable(wide: bool, threshold: Int64, d: nat) {
    d <= threshold && if wide then threshold <= Range32 - Range16 else d < Range16
  }

  predicate InRange(x: int, wide: bool) { 0 <= x < if wide then Range32 else Range16 }

  lemma ShowsAdd(a: int, b: int, wide: bool)
    ensures Shows(Shows(a, wide) + b, wide) == Shows(a + b, wide) && InRange(Shows(a, wide), wide)
  {
  }

  lemma OnePoll(last: int, made: nat, wide: bool, threshold: Int64)
    requires InRange(last, wide) && Decodable(wide, threshold, made)
    ensures CalculateDelta(last, Shows(last + made, wide), threshold) == Reading(made, Normal)
  {
    if wide { Exact32(last, made, threshold); } else { Exact16(last, made, threshold); }
  }

  /** State after a run that produced `total`. */
  predicate Right(s: Point, style: nat, shown: int, total: int) {
    && s.last == shown && s.style == style && NoAnomaly(s.events)
    && SumDeltas(s.snapshots) == total && (style != 0 ==> SumEmitted(s.events) == total)
  }

  lemma {:induction false} RightStep(s: Point, style: nat, total: int, count: Int64, r: Reading)
    requires Right(s, style, s.last, total) && r.anomaly == Normal && r.delta >= 0 && (r.delta == 0 ==> count == s.last)
    ensures Right(PollWith(s, count, r), style, count, total + r.delta)
  {
    hide SumDeltas, SumEmitted, SumConfirmed, NoAnomaly, NoReset, PollWith;
    PollTotals(s, count, r);
  }

  lemma ExactStep(s: Point, style: nat, first: int, total: nat, d: nat, wide: bool, threshold: Int64)
    requires Right(s, style, Shows(first + total, wide), total) && Decodable(wide, threshold, d)
    ensures var count := Shows(first + (total + d), wide);
      Right(Poll(s, Value(count), threshold), style, count, total + d)
  {
    hide CalculateDelta, Shows, PollWith, NoAnomaly;
    var count := Shows(first + (total + d), wide);
    ShowsAdd(first + total, d, wide);
    assert count == Shows(s.last + d, wide);
    OnePoll(s.last, d, wide, threshold);
    ReadingShape(s.last, count, threshold);
    RightStep(s, style, total, count, Reading(d, Normal));
  }

  lemma StartsRight(style: nat, first: int, wide: bool)
    requires InRange(first, wide)
    ensures Right(Point(style, first, [], []), style, Shows(first, wide), 0)
  {
  }

  /** Within the decodable range a whole run of polls reports no anomaly and emits exactly what was produced. */
  lemma {:induction false} RunIsExact(style: nat, first: int, made: seq<nat>, wide: bool, threshold: Int64)
    requires InRange(first, wide) && forall d :: d in made ==> Decodable(wide, threshold, d)
    ensures Right(PollAll(Point(style, first, [], []), Shown(first, made, wide), threshold),
                  style, Shows(first + SumMade(made), wide), SumMade(made))
  {
    hide Poll, Shows, Right;
    var s0 := Point(style, first, [], []);
    if made == [] {
      StartsRight(style, first, wide);
    } else {
      var front, d := made[..|made| - 1], made[|made| - 1];
      assert d in made && forall x :: x in front ==> x in made;
      RunIsExact(style, first, front, wide, threshold);
      ExactStep(PollAll(s0, Shown(first, front, wide), threshold), style, first, SumMade(front), d, wide, threshold);
    }
  }

  // ---------- the whole trail of a counter ----------

  /** The last count read before or among the tags. */
  function LastSeen(first: Int64, tags: seq<Tag>): Int64 {
    if tags == [] then first
    else
      match tags[|tags| - 1]
      case Value(count) => count
      case _ => LastSeen(first, tags[..|tags| - 1])
  }

  /** A count that differs from the last one seen is recorded, with the ideal delta and confirmed unless a jump. */
  function Recorded(first: Int64, tags: seq<Tag>, threshold: Int64): seq<Snapshot> {
    if tags == [] then []
    else
      var front, tag := tags[..|tags| - 1], tags[|tags| - 1];
      Recorded(first, front, threshold) + if tag.Value? then Taken(LastSeen(first, front), tag.count, threshold) else []
  }

  function Taken(prev: Int64, count: Int64, threshold: Int64): seq<Snapshot> {
    var (d, a) := IdealDelta(prev, count, threshold);
    if count == prev then [] else [Snapshot(count, Wrap64(d), a, a == Normal || a == Reset)]
  }

  /** What one tag announces: the count, then for a changed count its anomaly and the delta for the job style. */
  function Told(style: nat, n: nat, prev: Int64, tag: Tag, threshold: Int64): seq<Event> {
    match tag
    case Unreadable => [CounterReadError]
    case NotInteger => []
    case Value(count) =>
      var (d, a) := IdealDelta(prev, count, threshold);
      [CounterRead(count)]
      + (if count != prev && (a == Reset || a == Jump) then [CounterAnomaly(n, prev, count, a)] else [])
      + (if count != prev && style != 0 && (a == Normal || a == Reset) && d > 0
         then [CounterDelta(style, Wrap64(d), count, a)] else [])
  }

  function AllTold(style: nat, first: Int64, tags: seq<Tag>, threshold: Int64): seq<Event> {
    if tags == [] then []
    else
      var front := tags[..|tags| - 1];
      AllTold(style, first, front, threshold)
      + Told(style, |Recorded(first, front, threshold)|, LastSeen(first, front), tags[|tags| - 1], threshold)
  }

  /** One poll adds what its tag tells and takes. */
  lemma PollTells(s: Point, tag: Tag, threshold: Int64)
    requires s.last >= 0 && (tag.Value? ==> tag.count >= 0)
    ensures var f := Poll(s, tag, threshold);
      && f.style == s.style && f.last == (if tag.Value? then tag.count else s.last)
      && f.snapshots == s.snapshots + (if tag.Value? then Taken(s.last, tag.count, threshold) else [])
      && f.events == s.events + Told(s.style, |s.snapshots|, s.last, tag, threshold)
  {
    if tag.Value? {
      hide CalculateDelta, IdealDelta, Wrap64;
      OverflowIff(s.last, tag.count, threshold);
      ReadingShape(s.last, tag.count, threshold);
      DeltaFits(s.last, tag.count, threshold);
    }
  }

  lemma DeltaFits(last: Int64, count: Int64, threshold: Int64)
    requires last >= 0 && count >= 0
    ensures var r := CalculateDelta(last, count, threshold);
      (r.delta as int, r.anomaly) == IdealDelta(last, count, threshold)
        && Wrap64(IdealDelta(last, count, threshold).0) == r.delta
    ensures count == last ==> IdealDelta(last, count, threshold) == (0, Normal)
  {
    assert count == last ==> IdealDelta(last, count, threshold) == (0, Normal);
    hide CalculateDelta, IdealDelta;
    OverflowIff(last, count, threshold);
  }

  /** Over every run of polls of readings that are not negative: last count, snapshots and events, in closed form. */
  lemma {:induction false} CounterTrail(style: nat, first: Int64, tags: seq<Tag>, threshold: Int64)
    requires first >= 0 && NotNegative(tags)
    ensures PollAll(Point(style, first, [], []), tags, threshold) ==
      Point(style, LastSeen(first, tags), Recorded(first, tags, threshold), AllTold(style, first, tags, threshold))
    ensures LastSeen(first, tags) >= 0
  {
    hide Poll, Taken, Told;
    if tags != [] {
      var front, tag := tags[..|tags| - 1], tags[|tags| - 1];
      assert tag in tags && forall t :: t in front ==> t in tags;
      CounterTrail(style, first, front, threshold);
      PollTells(PollAll(Point(style, first, [], []), front, threshold), tag, threshold);
    }
  }
}
