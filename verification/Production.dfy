/**
 Production totals on their way from the edge's accumulator to core's production log. Snapshots taken
 by a flush are enqueued later, in any order of their entries; reports may be consumed in any order.
 Counts are integers: the code's float64 holds them exactly below 2^53.
 */
module Production {

  datatype Entry = Entry(catId: string, count: int)

  datatype Plant = Plant(
    styles: map<nat, seq<string>>, accumulator: map<string, int>, flushing: seq<map<string, int>>,
    reports: seq<seq<Entry>>, consumed: seq<nat>, demands: map<string, int>, log: seq<Entry>)

  // ---------- spec functions ----------

  function Val(m: map<string, int>, c: string): int { if c in m then m[c] else 0 }

  /** A category listed twice in a style gets the delta twice. */
  function AddAll(acc: map<string, int>, cats: seq<string>, delta: int): map<string, int>
    decreases |cats|
  {
    if cats == [] then acc else AddAll(acc[cats[0] := Val(acc, cats[0]) + delta], cats[1..], delta)
  }

  /** A missing style counts like one without categories. */
  function Cats(styles: map<nat, seq<string>>, style: nat): seq<string> {
    if style in styles then styles[style] else []
  }

  function Recorded(styles: map<nat, seq<string>>, acc: map<string, int>, style: nat, delta: int): map<string, int> {
    if delta <= 0 then acc else AddAll(acc, Cats(styles, style), delta)
  }

  /** Entries list a snapshot, each category once, in some order. */
  predicate Lists(entries: seq<Entry>, m: map<string, int>) {
    && (forall i, j :: 0 <= i < j < |entries| ==> entries[i].catId != entries[j].catId)
    && (forall i :: 0 <= i < |entries| ==> entries[i].catId in m && entries[i].count == m[entries[i].catId])
    && (forall c :: c in m ==> exists i :: 0 <= i < |entries| && entries[i].catId == c)
  }

  predicate Accepted(e: Entry) { e.catId != "" && e.count > 0 }

  function Kept(entries: seq<Entry>): seq<Entry> {
    if entries == [] then []
    else if Accepted(entries[|entries| - 1]) then Kept(entries[..|entries| - 1]) + [entries[|entries| - 1]]
    else Kept(entries[..|entries| - 1])
  }

  /** An increment of a category without a demand row changes nothing. */
  function Increment(demands: map<string, int>, e: Entry): map<string, int> {
    if e.catId in demands then demands[e.catId := demands[e.catId] + e.count] else demands
  }

  function IncrementAll(demands: map<string, int>, entries: seq<Entry>): map<string, int> {
    if entries == [] then demands
    else Increment(IncrementAll(demands, entries[..|entries| - 1]), entries[|entries| - 1])
  }

  // ---------- steps and runs ----------

  datatype Action =
    | ARecord(style: nat, delta: int)
    | ASwap
    | AEnqueue(k: nat, entries: seq<Entry>)
    | AConsume(report: nat)

  function Step(s: Plant, a: Action): Plant {
    match a
    case ARecord(style, delta) => s.(accumulator := Recorded(s.styles, s.accumulator, style, delta))
    case ASwap =>
      if s.accumulator == map[] then s else s.(flushing := s.flushing + [s.accumulator], accumulator := map[])
    case AEnqueue(k, entries) =>
      if k < |s.flushing| && Lists(entries, s.flushing[k]) then
        s.(flushing := s.flushing[..k] + s.flushing[k + 1..], reports := s.reports + [entries])
      else s
    case AConsume(k) =>
      if k < |s.reports| then
        s.(consumed := s.consumed + [k], log := s.log + Kept(s.reports[k]),
          demands := IncrementAll(s.demands, Kept(s.reports[k])))
      else s
  }

  function Run(s: Plant, acts: seq<Action>): Plant {
    if acts == [] then s else Step(Run(s, acts[..|acts| - 1]), acts[|acts| - 1])
  }

  predicate Init(s: Plant) {
    s.accumulator == map[] && s.flushing == [] && s.reports == [] && s.consumed == [] && s.log == []
  }

  // ---------- the code ----------

  class Reporter {
    const styles: map<nat, seq<string>>
    var accumulator: map<string, int>
    var outbox: seq<seq<Entry>>

    constructor (styles: map<nat, seq<string>>)
      ensures this.styles == styles && accumulator == map[] && outbox == []
    {
      this.styles, accumulator, outbox := styles, map[], [];
    }

    method RecordDelta(style: nat, delta: int)
      modifies this`accumulator
      ensures accumulator == Recorded(styles, old(accumulator), style, delta)
    {
      if delta <= 0 || style !in styles { return; }
      var cats := styles[style];
      var i := 0;
      while i < |cats|
        invariant 0 <= i <= |cats|
        invariant AddAll(old(accumulator), cats, delta) == AddAll(accumulator, cats[i..], delta)
      {
        accumulator := accumulator[cats[i] := Val(accumulator, cats[i]) + delta];
        i := i + 1;
      }
    }

    /** Under the lock: take the accumulator and leave an empty one. */
    method Swap() returns (snapshot: map<string, int>)
      modifies this`accumulator
      ensures snapshot == old(accumulator) && accumulator == map[]
    {
      snapshot, accumulator := accumulator, map[];
    }

    /** Outside the lock: list the snapshot in whatever order the map yields. */
    method Enqueue(snapshot: map<string, int>)
      modifies this`outbox
      ensures |outbox| == |old(outbox)| + 1 && outbox[..|old(outbox)|] == old(outbox)
        && Lists(outbox[|old(outbox)|], snapshot)
    {
      var left := snapshot.Keys;
      var entries: seq<Entry> := [];
      while left != {}
        invariant left <= snapshot.Keys
        invariant forall i, j :: 0 <= i < j < |entries| ==> entries[i].catId != entries[j].catId
        invariant forall i :: 0 <= i < |entries| ==>
          entries[i].catId in snapshot && entries[i].catId !in left && entries[i].count == snapshot[entries[i].catId]
        invariant forall c :: c in snapshot && c !in left ==> exists i :: 0 <= i < |entries| && entries[i].catId == c
        decreases left
      {
        var c :| c in left;
        left := left - {c};
        ghost var before := entries;
        entries := entries + [Entry(c, snapshot[c])];
        forall x | x in snapshot && x !in left ensures exists i :: 0 <= i < |entries| && entries[i].catId == x {
          if x == c {
            assert entries[|before|].catId == c;
          } else {
            var i :| 0 <= i < |before| && before[i].catId == x;
            assert entries[i].catId == x;
          }
        }
      }
      outbox := outbox + [entries];
    }

    method Flush()
      modifies this
      ensures accumulator == map[]
      ensures old(accumulator) == map[] ==> outbox == old(outbox)
      ensures old(accumulator) != map[] ==>
        |outbox| == |old(outbox)| + 1 && outbox[..|old(outbox)|] == old(outbox)
          && Lists(outbox[|old(outbox)|], old(accumulator))
    {
      if accumulator == map[] { return; }
      var snapshot := Swap();
      Enqueue(snapshot);
    }
  }

  class Ledger {
    var demands: map<string, int>
    var log: seq<Entry>

    constructor (demands: map<string, int>)
      ensures this.demands == demands && log == []
    {
      this.demands, log := demands, [];
    }

    method HandleProductionReport(entries: seq<Entry>) returns (accepted: nat)
      modifies this
      ensures demands == IncrementAll(old(demands), Kept(entries)) && log == old(log) + Kept(entries)
      ensures accepted == |Kept(entries)|
    {
      hide Kept, IncrementAll;
      accepted := 0;
      NoneKept(demands);
      for i := 0 to |entries|
        invariant demands == IncrementAll(old(demands), Kept(entries[..i])) && log == old(log) + Kept(entries[..i])
        invariant accepted == |Kept(entries[..i])|
      {
        KeptNext(entries, i);
        IncrementNext(old(demands), Kept(entries[..i]), entries[i]);
        if entries[i].catId != "" && entries[i].count > 0 {
          if entries[i].catId in demands {
            demands := demands[entries[i].catId := demands[entries[i].catId] + entries[i].count];
          }
          log := log + [entries[i]];
          accepted := accepted + 1;
        }
      }
      assert entries[..|entries|] == entries;
    }
  }

  lemma NoneKept(demands: map<string, int>)
    ensures Kept([]) == [] && IncrementAll(demands, []) == demands
  {
  }

  lemma IncrementNext(demands: map<string, int>, kept: seq<Entry>, e: Entry)
    ensures IncrementAll(demands, kept + [e]) == Increment(IncrementAll(demands, kept), e)
  {
    assert (kept + [e])[..|kept|] == kept;
  }

  /** What core keeps of a report: the named entries with a positive count, each judged by itself, in their order. */
  lemma {:induction false} KeptConcat(a: seq<Entry>, b: seq<Entry>)
    ensures Kept(a + b) == Kept(a) + Kept(b)
    ensures |b| == 1 ==> Kept(b) == if b[0].catId != "" && b[0].count > 0 then b else []
    decreases |b|
  {
    if b == [] {
      assert a + b == a;
    } else {
      var front, last := b[..|b| - 1], b[|b| - 1];
      assert (a + b)[..|a + b| - 1] == a + front && (a + b)[|a + b| - 1] == last;
      KeptConcat(a, front);
      assert b == front + [last];
    }
  }

  lemma KeptNext(entries: seq<Entry>, i: nat)
    requires i < |entries|
    ensures Kept(entries[..i + 1]) ==
      if Accepted(entries[i]) then Kept(entries[..i]) + [entries[i]] else Kept(entries[..i])
  {
    assert entries[..i + 1][..i] == entries[..i];
  }

  // ---------- totals ----------

  function Sum(entries: seq<Entry>, c: string): int {
    if entries == [] then 0
    else
      var last := entries[|entries| - 1];
      Sum(entries[..|entries| - 1], c) + if last.catId == c then last.count else 0
  }

  function InFlight(flushing: seq<map<string, int>>, c: string): int {
    if flushing == [] then 0 else InFlight(flushing[..|flushing| - 1], c) + Val(flushing[|flushing| - 1], c)
  }

  function Reported(reports: seq<seq<Entry>>, c: string): int {
    if reports == [] then 0 else Reported(reports[..|reports| - 1], c) + Sum(reports[|reports| - 1], c)
  }

  /** Reports not yet consumed. */
  function Waiting(reports: seq<seq<Entry>>, consumed: seq<nat>, c: string): int {
    if reports == [] then 0
    else
      var n := |reports| - 1;
      Waiting(reports[..n], consumed, c) + if n in consumed then 0 else Sum(reports[n], c)
  }

  predicate InRange(ks: seq<nat>, n: nat) { forall i :: 0 <= i < |ks| ==> ks[i] < n }

  /** What has been handed to core, once per consumption. */
  function Delivered(reports: seq<seq<Entry>>, consumed: seq<nat>, c: string): int
    requires InRange(consumed, |reports|)
  {
    if consumed == [] then 0
    else Delivered(reports, consumed[..|consumed| - 1], c) + Sum(reports[consumed[|consumed| - 1]], c)
  }

  function Times(cats: seq<string>, c: string): nat {
    if cats == [] then 0 else (if cats[0] == c then 1 else 0) + Times(cats[1..], c)
  }

  /**
   What a run of the edge recorded for a category: every positive delta, by the category's multiplicity in
   its style.
   */
  function Produced(styles: map<nat, seq<string>>, acts: seq<Action>, c: string): int {
    if acts == [] then 0
    else
      var a := acts[|acts| - 1];
      Produced(styles, acts[..|acts| - 1], c)
      + if a.ARecord? && a.delta > 0 then a.delta * Times(Cats(styles, a.style), c) else 0
  }

  // ---------- how each step moves the totals ----------

  lemma {:induction false} TimesStep(cats: seq<string>, delta: int, c: string)
    requires cats != []
    ensures delta * Times(cats, c) == (if cats[0] == c then delta else 0) + delta * Times(cats[1..], c)
  {
  }

  lemma {:induction false} AddAllVal(acc: map<string, int>, cats: seq<string>, delta: int, c: string)
    ensures Val(AddAll(acc, cats, delta), c) == Val(acc, c) + delta * Times(cats, c)
    decreases |cats|
  {
    if cats != [] {
      AddAllVal(acc[cats[0] := Val(acc, cats[0]) + delta], cats[1..], delta, c);
      TimesStep(cats, delta, c);
    }
    hide Times;
  }

  lemma {:induction false} SumNone(entries: seq<Entry>, c: string)
    requires forall i :: 0 <= i < |entries| ==> entries[i].catId != c
    ensures Sum(entries, c) == 0
  {
    if entries != [] { SumNone(entries[..|entries| - 1], c); }
  }

  lemma {:induction false} SumOne(entries: seq<Entry>, i: nat)
    requires i < |entries| && forall j, k :: 0 <= j < k < |entries| ==> entries[j].catId != entries[k].catId
    ensures Sum(entries, entries[i].catId) == entries[i].count
  {
    var n := |entries| - 1;
    if i == n { SumNone(entries[..n], entries[i].catId); } else { SumOne(entries[..n], i); }
  }

  /** Whatever the order, a listing totals to its snapshot. */
  lemma ListedSum(entries: seq<Entry>, m: map<string, int>, c: string)
    requires Lists(entries, m)
    ensures Sum(entries, c) == Val(m, c)
  {
    if c in m {
      var i :| 0 <= i < |entries| && entries[i].catId == c;
      SumOne(entries, i);
    } else {
      SumNone(entries, c);
    }
  }

  lemma {:induction false} InFlightConcat(a: seq<map<string, int>>, b: seq<map<string, int>>, c: string)
    ensures InFlight(a + b, c) == InFlight(a, c) + InFlight(b, c)
  {
    if b == [] {
      assert a + b == a;
    } else {
      assert (a + b)[..|a + b| - 1] == a + b[..|b| - 1];
      InFlightConcat(a, b[..|b| - 1], c);
    }
  }

  lemma InFlightTaken(f: seq<map<string, int>>, k: nat, c: string)
    requires k < |f|
    ensures InFlight(f[..k] + f[k + 1..], c) == InFlight(f, c) - Val(f[k], c)
  {
    InFlightConcat(f[..k], f[k + 1..], c);
    InFlightConcat(f[..k] + [f[k]], f[k + 1..], c);
    InFlightConcat(f[..k], [f[k]], c);
    assert f == f[..k] + [f[k]] + f[k + 1..];
    assert [f[k]][..0] == [];
  }

  lemma {:induction false} SumConcat(a: seq<Entry>, b: seq<Entry>, c: string)
    ensures Sum(a + b, c) == Sum(a, c) + Sum(b, c)
  {
    if b == [] {
      assert a + b == a;
    } else {
      assert (a + b)[..|a + b| - 1] == a + b[..|b| - 1];
      SumConcat(a, b[..|b| - 1], c);
    }
  }

  lemma {:induction false} KeptSum(entries: seq<Entry>, c: string)
    requires forall e :: e in entries ==> e.count > 0
    ensures Sum(Kept(entries), c) == if c == "" then 0 else Sum(entries, c)
  {
    if entries != [] {
      var front, last := entries[..|entries| - 1], entries[|entries| - 1];
      KeptSum(front, c);
      if Accepted(last) {
        assert (Kept(front) + [last])[..|Kept(front)|] == Kept(front);
      } else {
        assert last in entries;
      }
    }
  }

  lemma {:induction false} DeliveredGrows(reports: seq<seq<Entry>>, more: seq<Entry>, consumed: seq<nat>, c: string)
    requires InRange(consumed, |reports|)
    ensures Delivered(reports + [more], consumed, c) == Delivered(reports, consumed, c)
  {
    if consumed != [] { DeliveredGrows(reports, more, consumed[..|consumed| - 1], c); }
  }

  // ---------- the accounting invariant ----------

  predicate Positive(m: map<string, int>) { forall c :: c in m ==> m[c] > 0 }

  predicate Sound(s: Plant) {
    && Positive(s.accumulator) && (forall m :: m in s.flushing ==> Positive(m))
    && (forall r, e :: r in s.reports && e in r ==> e.count > 0)
    && InRange(s.consumed, |s.reports|)
  }

  predicate Accounts(s0: Plant, s: Plant, produced: int, c: string)
    requires Sound(s)
  {
    && s.styles == s0.styles
    && produced == Val(s.accumulator, c) + InFlight(s.flushing, c) + Reported(s.reports, c)
    && Sum(s.log, c) == (if c == "" then 0 else Delivered(s.reports, s.consumed, c))
    && s.demands.Keys == s0.demands.Keys && (c in s0.demands ==> s.demands[c] == s0.demands[c] + Sum(s.log, c))
  }

  lemma {:induction false} AddAllPositive(acc: map<string, int>, cats: seq<string>, delta: int)
    requires Positive(acc) && delta > 0
    ensures Positive(AddAll(acc, cats, delta))
    decreases |cats|
  {
    if cats != [] { AddAllPositive(acc[cats[0] := Val(acc, cats[0]) + delta], cats[1..], delta); }
  }

  lemma {:induction false} IncrementSum(demands: map<string, int>, entries: seq<Entry>, c: string)
    ensures IncrementAll(demands, entries).Keys == demands.Keys
    ensures c in demands ==> IncrementAll(demands, entries)[c] == demands[c] + Sum(entries, c)
  {
    if entries != [] { IncrementSum(demands, entries[..|entries| - 1], c); }
  }

  lemma RecordAccounts(s0: Plant, s: Plant, produced: int, style: nat, delta: int, c: string)
    requires Sound(s) && Accounts(s0, s, produced, c)
    ensures var s' := Step(s, ARecord(style, delta));
      Sound(s') && Accounts(s0, s', produced + (if delta > 0 then delta * Times(Cats(s0.styles, style), c) else 0), c)
  {
    if delta > 0 {
      AddAllVal(s.accumulator, Cats(s.styles, style), delta, c);
      AddAllPositive(s.accumulator, Cats(s.styles, style), delta);
    }
  }

  lemma EnqueueAccounts(s0: Plant, s: Plant, produced: int, k: nat, entries: seq<Entry>, c: string)
    requires Sound(s) && Accounts(s0, s, produced, c)
    ensures Sound(Step(s, AEnqueue(k, entries))) && Accounts(s0, Step(s, AEnqueue(k, entries)), produced, c)
  {
    if k < |s.flushing| && Lists(entries, s.flushing[k]) {
      var s' := Step(s, AEnqueue(k, entries));
      InFlightTaken(s.flushing, k, c);
      ListedSum(entries, s.flushing[k], c);
      DeliveredGrows(s.reports, entries, s.consumed, c);
      assert s'.reports[..|s.reports|] == s.reports;
      assert s.flushing[k] in s.flushing;
      forall r, e | r in s'.reports && e in r ensures e.count > 0 {
        if r !in s.reports { assert r == entries; }
      }
    }
  }

  lemma ConsumeAccounts(s0: Plant, s: Plant, produced: int, k: nat, c: string)
    requires Sound(s) && Accounts(s0, s, produced, c)
    ensures Sound(Step(s, AConsume(k))) && Accounts(s0, Step(s, AConsume(k)), produced, c)
  {
    if k < |s.reports| {
      var s' := Step(s, AConsume(k));
      assert s.reports[k] in s.reports;
      KeptSum(s.reports[k], c);
      SumConcat(s.log, Kept(s.reports[k]), c);
      IncrementSum(s.demands, Kept(s.reports[k]), c);
      assert s'.consumed[..|s.consumed|] == s.consumed;
    }
  }

  lemma {:induction false} RunAccounts(s0: Plant, acts: seq<Action>, c: string)
    requires Init(s0)
    ensures Sound(Run(s0, acts)) && Accounts(s0, Run(s0, acts), Produced(s0.styles, acts, c), c)
  {
    if acts != [] {
      var front, a := acts[..|acts| - 1], acts[|acts| - 1];
      RunAccounts(s0, front, c);
      var s, p := Run(s0, front), Produced(s0.styles, front, c);
      match a
      case ARecord(style, delta) => RecordAccounts(s0, s, p, style, delta, c);
      case ASwap =>
      case AEnqueue(k, entries) => EnqueueAccounts(s0, s, p, k, entries, c);
      case AConsume(k) => ConsumeAccounts(s0, s, p, k, c);
    }
  }

  // ---------- conservation ----------

  predicate Once(consumed: seq<nat>) { forall i, j :: 0 <= i < j < |consumed| ==> consumed[i] != consumed[j] }

  lemma {:induction false} WaitingLess(reports: seq<seq<Entry>>, consumed: seq<nat>, k: nat, c: string)
    requires k !in consumed
    ensures Waiting(reports, consumed + [k], c) ==
      Waiting(reports, consumed, c) - if k < |reports| then Sum(reports[k], c) else 0
  {
    if reports != [] {
      var n := |reports| - 1;
      WaitingLess(reports[..n], consumed, k, c);
      assert n in consumed + [k] <==> n in consumed || n == k;
    }
  }

  lemma {:induction false} WaitingAll(reports: seq<seq<Entry>>, c: string)
    ensures Waiting(reports, [], c) == Reported(reports, c)
  {
    if reports != [] { WaitingAll(reports[..|reports| - 1], c); }
  }

  /** Each report consumed at most once: what was reported is either waiting or delivered. */
  lemma {:induction false} Split(reports: seq<seq<Entry>>, consumed: seq<nat>, c: string)
    requires Once(consumed) && InRange(consumed, |reports|)
    ensures Reported(reports, c) == Waiting(reports, consumed, c) + Delivered(reports, consumed, c)
  {
    if consumed == [] {
      WaitingAll(reports, c);
    } else {
      var front, k := consumed[..|consumed| - 1], consumed[|consumed| - 1];
      assert consumed == front + [k];
      Split(reports, front, c);
      WaitingLess(reports, front, k, c);
    }
  }

  predicate Names(r: seq<Entry>, c: string) { exists i :: 0 <= i < |r| && r[i].catId == c }

  lemma {:induction false} PositiveSum(r: seq<Entry>, c: string)
    requires forall e :: e in r ==> e.count > 0
    ensures Sum(r, c) >= 0 && (Sum(r, c) > 0 <==> Names(r, c))
  {
    if r != [] {
      var n := |r| - 1;
      PositiveSum(r[..n], c);
      assert r[n] in r;
      if Names(r[..n], c) {
        var i :| 0 <= i < n && r[..n][i].catId == c;
        assert r[i].catId == c;
      }
      if Names(r, c) && r[n].catId != c {
        var i :| 0 <= i < |r| && r[i].catId == c;
        assert r[..n][i].catId == c;
      }
    }
  }

  lemma {:induction false} DeliveredPositive(reports: seq<seq<Entry>>, consumed: seq<nat>, c: string)
    requires InRange(consumed, |reports|) && forall r, e :: r in reports && e in r ==> e.count > 0
    ensures Delivered(reports, consumed, c) >= 0
    ensures Delivered(reports, consumed, c) > 0 <==> exists i :: 0 <= i < |consumed| && Names(reports[consumed[i]], c)
  {
    if consumed != [] {
      var n := |consumed| - 1;
      DeliveredPositive(reports, consumed[..n], c);
      var k := consumed[n];
      assert reports[k] in reports;
      PositiveSum(reports[k], c);
      assert forall i :: 0 <= i < n ==> consumed[..n][i] == consumed[i];
    }
  }

  /** Core has accepted a report that names the category. */
  predicate ReachedCore(s: Plant, c: string)
    requires InRange(s.consumed, |s.reports|)
  {
    exists i :: 0 <= i < |s.consumed| && Names(s.reports[s.consumed[i]], c)
  }

  /** Accumulator, snapshots being flushed, reports not yet consumed and core's production log. */
  function Accounted(s: Plant, c: string): int {
    Val(s.accumulator, c) + InFlight(s.flushing, c) + Waiting(s.reports, s.consumed, c) + Sum(s.log, c)
  }

  /**
   Production is conserved for a category over every run that consumes each report at most once, except
   that core drops the empty category: for it, exactly when no consumed report names it.
   */
  lemma Conservation(s0: Plant, acts: seq<Action>, c: string)
    requires Init(s0) && Once(Run(s0, acts).consumed)
    ensures InRange(Run(s0, acts).consumed, |Run(s0, acts).reports|)
    ensures var s := Run(s0, acts);
      (Produced(s0.styles, acts, c) == Accounted(s, c)) <==> (c != "" || !ReachedCore(s, c))
  {
    RunAccounts(s0, acts, c);
    var s := Run(s0, acts);
    Split(s.reports, s.consumed, c);
    DeliveredPositive(s.reports, s.consumed, c);
  }

  /** However often reports are consumed, core's log and demand totals count a category once per consumption. */
  lemma LogIsDelivered(s0: Plant, acts: seq<Action>, c: string)
    requires Init(s0) && c != ""
    ensures InRange(Run(s0, acts).consumed, |Run(s0, acts).reports|)
    ensures var s := Run(s0, acts);
      && Sum(s.log, c) == Delivered(s.reports, s.consumed, c)
      && s.demands.Keys == s0.demands.Keys && (c in s0.demands ==> s.demands[c] == s0.demands[c] + Sum(s.log, c))
  {
    RunAccounts(s0, acts, c);
  }
}
