/**
 The edge's outbox: rows waiting to be published, drained in batches with bounded retries and purged
 now and then. `log` is what the broker connection saw, one entry per publish attempt.
 */
module EdgeOutbox {
  import opened Protocol

  const MaxRetries: nat := 10
  const Batch: nat := 50
  const PurgeEvery: nat := 100
  const KeepFor: int := 86400

  datatype Row = Row(id: nat, retries: nat, createdAt: int, sentAt: Option<int>)

  /** How one publish went; the last is a publish whose acknowledgement could not be stored. */
  datatype Outcome = Refused | Sent | SentNotAcked

  datatype Pub = Pub(id: nat, outcome: Outcome)

  datatype Outbox = Outbox(rows: seq<Row>, nextId: nat, cycles: nat, log: seq<Pub>)

  predicate Pending(r: Row) { r.sentAt.None? && r.retries < MaxRetries }

  // ---------- queries and updates ----------

  /** Pending rows in id order; the table is kept in insertion order. */
  function PendingRows(rows: seq<Row>): (r: seq<Row>)
    ensures forall x :: x in r <==> x in rows && Pending(x)
  {
    if rows == [] then []
    else
      var front, last := PendingRows(rows[..|rows| - 1]), rows[|rows| - 1];
      if Pending(last) then front + [last] else front
  }

  function Ids(rows: seq<Row>): (r: seq<nat>)
    ensures |r| == |rows| && forall i :: 0 <= i < |r| ==> r[i] == rows[i].id
  {
    seq(|rows|, i requires 0 <= i < |rows| => rows[i].id)
  }

  function ListPending(rows: seq<Row>, limit: nat): seq<nat> {
    var p := Ids(PendingRows(rows));
    if |p| <= limit then p else p[..limit]
  }

  function Settle(r: Row, o: Outcome, now: int): Row {
    match o
    case Refused => r.(retries := r.retries + 1)
    case Sent => r.(sentAt := Some(now))
    case SentNotAcked => r
  }

  function UpdateRow(rows: seq<Row>, id: nat, o: Outcome, now: int): (r: seq<Row>)
    ensures |r| == |rows| && forall i :: 0 <= i < |r| ==>
      r[i] == if rows[i].id == id then Settle(rows[i], o, now) else rows[i]
  {
    seq(|rows|, i requires 0 <= i < |rows| => if rows[i].id == id then Settle(rows[i], o, now) else rows[i])
  }

  predicate Old(r: Row, cutoff: int) {
    (r.sentAt.Some? && r.sentAt.value < cutoff) || (r.retries >= MaxRetries && r.createdAt < cutoff)
  }

  function Purged(rows: seq<Row>, cutoff: int): (r: seq<Row>)
    ensures forall x :: x in r <==> x in rows && !Old(x, cutoff)
  {
    if rows == [] then []
    else
      var front, last := Purged(rows[..|rows| - 1], cutoff), rows[|rows| - 1];
      if Old(last, cutoff) then front else front + [last]
  }

  // ---------- steps and runs ----------

  /** `fate` says what happens to each message should it be published in this drain. */
  datatype Action =
    | AEnqueue(at: int)
    | ATick(connected: bool, fate: nat -> Outcome, now: int)

  function Enqueue(s: Outbox, now: int): Outbox {
    s.(rows := s.rows + [Row(s.nextId, 0, now, None)], nextId := s.nextId + 1)
  }

  function Publish(s: Outbox, id: nat, o: Outcome, now: int): Outbox {
    s.(rows := UpdateRow(s.rows, id, o, now), log := s.log + [Pub(id, o)])
  }

  function PublishAll(s: Outbox, ids: seq<nat>, fate: nat -> Outcome, now: int): Outbox
    decreases |ids|
  {
    if ids == [] then s else PublishAll(Publish(s, ids[0], fate(ids[0]), now), ids[1..], fate, now)
  }

  function Drain(s: Outbox, connected: bool, fate: nat -> Outcome, now: int): Outbox {
    if !connected then s else PublishAll(s, ListPending(s.rows, Batch), fate, now)
  }

  function PurgeIf(s: Outbox, due: bool, cutoff: int): Outbox {
    if due then s.(rows := Purged(s.rows, cutoff)) else s
  }

  function CountCycle(s: Outbox): Outbox { s.(cycles := s.cycles + 1) }

  /** After a drain: count the cycle, purge every hundredth. */
  function EndCycle(s: Outbox, now: int): Outbox {
    PurgeIf(CountCycle(s), PurgeDue(s.cycles + 1), now - KeepFor)
  }

  predicate PurgeDue(cycles: nat) { cycles % PurgeEvery == 0 }

  /** One turn of the drain loop. */
  function Tick(s: Outbox, connected: bool, fate: nat -> Outcome, now: int): Outbox {
    EndCycle(Drain(s, connected, fate, now), now)
  }

  function Step(s: Outbox, a: Action): Outbox {
    match a
    case AEnqueue(now) => Enqueue(s, now)
    case ATick(connected, fate, now) => Tick(s, connected, fate, now)
  }

  function Run(s: Outbox, acts: seq<Action>): Outbox
    decreases |acts|
  {
    if acts == [] then s else Run(Step(s, acts[0]), acts[1..])
  }

  /** Ids are handed out from 1. */
  predicate Init(s: Outbox) { s == Outbox([], 1, 0, []) }

  class Drainer {
    var rows: seq<Row>
    var nextId: nat
    var cycles: nat
    var log: seq<Pub>

    ghost function State(): Outbox
      reads this
    {
      Outbox(rows, nextId, cycles, log)
    }

    constructor ()
      ensures Init(State())
    {
      rows, nextId, cycles, log := [], 1, 0, [];
    }

    method EnqueueOutbox(now: int) returns (id: nat)
      modifies this`rows, this`nextId
      ensures id == old(nextId) && State() == Enqueue(old(State()), now)
    {
      id := nextId;
      rows, nextId := rows + [Row(nextId, 0, now, None)], nextId + 1;
    }

    method PublishOne(id: nat, o: Outcome, now: int)
      modifies this`rows, this`log
      ensures State() == Publish(old(State()), id, o, now)
    {
      rows := UpdateRow(rows, id, o, now);
      log := log + [Pub(id, o)];
    }

    /** Publishing goes on after a failure: there is no order across messages when one fails. */
    method DrainBatch(connected: bool, fate: nat -> Outcome, now: int)
      modifies this`rows, this`log
      ensures State() == Drain(old(State()), connected, fate, now)
    {
      if !connected { return; }
      var ids := ListPending(rows, Batch);
      var i := 0;
      while i < |ids|
        invariant 0 <= i <= |ids|
        invariant PublishAll(old(State()), ids, fate, now) == PublishAll(State(), ids[i..], fate, now)
      {
        ghost var rest := ids[i..];
        PublishOne(ids[i], fate(ids[i]), now);
        assert rest[1..] == ids[i + 1..];
        i := i + 1;
      }
    }

    method DrainCycle(connected: bool, fate: nat -> Outcome, now: int)
      modifies this
      ensures State() == Tick(old(State()), connected, fate, now)
    {
      DrainBatch(connected, fate, now);
      cycles := cycles + 1;
      if cycles % PurgeEvery == 0 { rows := Purged(rows, now - KeepFor); }
    }
  }

  // ---------- what the log says about a message ----------

  function Count(log: seq<Pub>, x: Pub): nat {
    if log == [] then 0 else Count(log[..|log| - 1], x) + if log[|log| - 1] == x then 1 else 0
  }

  lemma CountAppend(log: seq<Pub>, y: Pub, x: Pub)
    ensures Count(log + [y], x) == Count(log, x) + if x == y then 1 else 0
  {
  }

  function Refusals(log: seq<Pub>, id: nat): nat { Count(log, Pub(id, Refused)) }

  function Sends(log: seq<Pub>, id: nat): nat { Count(log, Pub(id, Sent)) }

  function Unacked(log: seq<Pub>, id: nat): nat { Count(log, Pub(id, SentNotAcked)) }

  /** How often a message was published, whatever came of it. */
  function Attempts(log: seq<Pub>, id: nat): nat {
    if log == [] then 0 else Attempts(log[..|log| - 1], id) + if log[|log| - 1].id == id then 1 else 0
  }

  lemma {:induction false} AttemptsSplit(log: seq<Pub>, id: nat)
    ensures Attempts(log, id) == Refusals(log, id) + Sends(log, id) + Unacked(log, id)
  {
    if log != [] {
      var front, last := log[..|log| - 1], log[|log| - 1];
      AttemptsSplit(front, id);
      assert log == front + [last];
      CountAppend(front, last, Pub(id, Refused));
      CountAppend(front, last, Pub(id, Sent));
      CountAppend(front, last, Pub(id, SentNotAcked));
      assert last.outcome.Refused? || last.outcome.Sent? || last.outcome.SentNotAcked?;
    }
  }

  /** Sent once, or given up after ten refusals: never both. */
  predicate Settled(log: seq<Pub>, id: nat) {
    (Sends(log, id) == 1 && Refusals(log, id) < MaxRetries) || (Sends(log, id) == 0 && Refusals(log, id) == MaxRetries)
  }

  // ---------- the table as a map from ids ----------

  predicate SortedIds(rows: seq<Row>) { forall i, j :: 0 <= i < j < |rows| ==> rows[i].id < rows[j].id }

  function RowOf(rows: seq<Row>, id: nat): (r: Option<Row>)
    ensures r.Some? ==> r.value in rows && r.value.id == id
    ensures r.None? ==> forall x :: x in rows ==> x.id != id
  {
    if rows == [] then None
    else if rows[|rows| - 1].id == id then Some(rows[|rows| - 1])
    else RowOf(rows[..|rows| - 1], id)
  }

  lemma UpdateFront(rows: seq<Row>, id: nat, o: Outcome, now: int)
    requires rows != []
    ensures UpdateRow(rows, id, o, now)[..|rows| - 1] == UpdateRow(rows[..|rows| - 1], id, o, now)
  {
  }

  lemma {:induction false} RowOfUpdated(rows: seq<Row>, id: nat, o: Outcome, now: int, x: nat)
    ensures var r := RowOf(rows, x);
      RowOf(UpdateRow(rows, id, o, now), x) == if x == id && r.Some? then Some(Settle(r.value, o, now)) else r
  {
    if rows != [] {
      RowOfUpdated(rows[..|rows| - 1], id, o, now, x);
      UpdateFront(rows, id, o, now);
    }
  }

  lemma {:induction false} PurgedSorted(rows: seq<Row>, cutoff: int)
    requires SortedIds(rows)
    ensures SortedIds(Purged(rows, cutoff))
  {
    if rows != [] {
      var front := Purged(rows[..|rows| - 1], cutoff);
      PurgedSorted(rows[..|rows| - 1], cutoff);
      forall i | 0 <= i < |front| ensures front[i].id < rows[|rows| - 1].id { assert front[i] in rows[..|rows| - 1]; }
    }
  }

  lemma RowOfPurged(rows: seq<Row>, cutoff: int, x: nat)
    requires SortedIds(rows)
    ensures var r := RowOf(rows, x);
      RowOf(Purged(rows, cutoff), x) == if r.Some? && Old(r.value, cutoff) then None else r
  {
  }

  /** A message waits to be published. */
  predicate Waiting(s: Outbox, id: nat) { RowOf(s.rows, id).Some? && Pending(RowOf(s.rows, id).value) }

  predicate IdFits(row: Option<Row>, isNew: bool, refusals: nat, sends: nat, settled: bool) {
    if isNew then row.None? && refusals == 0 && sends == 0
    else if row.None? then settled
    else
      && row.value.retries == refusals <= MaxRetries && sends == (if row.value.sentAt.Some? then 1 else 0)
      && (row.value.sentAt.Some? ==> refusals < MaxRetries)
  }

  predicate IdOk(s: Outbox, id: nat) {
    IdFits(RowOf(s.rows, id), id == 0 || id >= s.nextId, Refusals(s.log, id), Sends(s.log, id), Settled(s.log, id))
  }

  ghost predicate Inv(s: Outbox) {
    && SortedIds(s.rows) && s.nextId > 0 && (forall r :: r in s.rows ==> 0 < r.id < s.nextId)
    && forall id: nat :: IdOk(s, id)
  }

  /** No message is taken up again, and one still waiting keeps its refusals. */
  predicate IdForward(s: Outbox, s': Outbox, id: nat) {
    Waiting(s', id) ==> Waiting(s, id) && RowOf(s.rows, id).value.retries <= RowOf(s'.rows, id).value.retries
  }

  ghost predicate Forward(s: Outbox, s': Outbox) {
    s.nextId <= s'.nextId && forall id: nat :: id < s.nextId ==> IdForward(s, s', id)
  }

  lemma ForwardTrans(a: Outbox, b: Outbox, c: Outbox)
    requires Forward(a, b) && Forward(b, c)
    ensures Forward(a, c)
  {
    forall id: nat | id < a.nextId ensures IdForward(a, c, id) {
      assert IdForward(a, b, id) && IdForward(b, c, id);
    }
  }

  // ---------- publishing ----------

  lemma PublishKeeps(s: Outbox, id: nat, o: Outcome, now: int)
    requires Inv(s) && Waiting(s, id)
    ensures Inv(Publish(s, id, o, now)) && Forward(s, Publish(s, id, o, now))
  {
    var s' := Publish(s, id, o, now);
    forall x: nat ensures IdOk(s', x) && IdForward(s, s', x) { PublishId(s, id, o, now, x); }
    forall r | r in s'.rows ensures 0 < r.id < s'.nextId {
      var i :| 0 <= i < |s'.rows| && s'.rows[i] == r;
      assert s.rows[i] in s.rows;
    }
  }

  lemma PublishId(s: Outbox, id: nat, o: Outcome, now: int, x: nat)
    requires Inv(s) && Waiting(s, id)
    ensures IdOk(Publish(s, id, o, now), x) && IdForward(s, Publish(s, id, o, now), x)
  {
    RowOfUpdated(s.rows, id, o, now, x);
    CountAppend(s.log, Pub(id, o), Pub(x, Refused));
    CountAppend(s.log, Pub(id, o), Pub(x, Sent));
    assert IdOk(s, x) && IdOk(s, id);
  }

  ghost predicate Batchable(s: Outbox, ids: seq<nat>) {
    (forall i :: 0 <= i < |ids| ==> Waiting(s, ids[i])) && forall i, j :: 0 <= i < j < |ids| ==> ids[i] != ids[j]
  }

  lemma PublishBatchable(s: Outbox, ids: seq<nat>, o: Outcome, now: int)
    requires Batchable(s, ids) && ids != []
    ensures Batchable(Publish(s, ids[0], o, now), ids[1..])
  {
    var s1 := Publish(s, ids[0], o, now);
    forall i | 0 <= i < |ids[1..]| ensures Waiting(s1, ids[1..][i]) {
      assert ids[1..][i] == ids[i + 1];
      RowOfUpdated(s.rows, ids[0], o, now, ids[i + 1]);
    }
  }

  lemma {:induction false} PublishAllKeeps(s: Outbox, ids: seq<nat>, fate: nat -> Outcome, now: int)
    requires Inv(s) && Batchable(s, ids)
    ensures var s' := PublishAll(s, ids, fate, now); Inv(s') && Forward(s, s') && s'.nextId == s.nextId
    decreases |ids|
  {
    if ids == [] {
    } else {
      var s1 := Publish(s, ids[0], fate(ids[0]), now);
      PublishKeeps(s, ids[0], fate(ids[0]), now);
      PublishBatchable(s, ids, fate(ids[0]), now);
      PublishAllKeeps(s1, ids[1..], fate, now);
      ForwardTrans(s, s1, PublishAll(s, ids, fate, now));
    }
  }

  /** In a batch every listed message meets its fate, and no other row changes. */
  lemma {:induction false} PublishAllRow(s: Outbox, ids: seq<nat>, fate: nat -> Outcome, now: int, x: nat)
    requires Batchable(s, ids)
    ensures var r := RowOf(s.rows, x);
      RowOf(PublishAll(s, ids, fate, now).rows, x) ==
        if x in ids && r.Some? then Some(Settle(r.value, fate(x), now)) else r
    decreases |ids|
  {
    if ids != [] {
      PublishBatchable(s, ids, fate(ids[0]), now);
      RowOfUpdated(s.rows, ids[0], fate(ids[0]), now, x);
      PublishAllRow(Publish(s, ids[0], fate(ids[0]), now), ids[1..], fate, now, x);
      assert x in ids <==> x == ids[0] || x in ids[1..];
    }
  }

  lemma {:induction false} PendingSorted(rows: seq<Row>)
    requires SortedIds(rows)
    ensures SortedIds(PendingRows(rows))
  {
    if rows != [] {
      var front := PendingRows(rows[..|rows| - 1]);
      PendingSorted(rows[..|rows| - 1]);
      forall i | 0 <= i < |front| ensures front[i].id < rows[|rows| - 1].id { assert front[i] in rows[..|rows| - 1]; }
    }
  }

  lemma PendingWaits(s: Outbox, i: nat)
    requires SortedIds(s.rows) && i < |PendingRows(s.rows)|
    ensures Waiting(s, PendingRows(s.rows)[i].id)
  {
    var r := PendingRows(s.rows)[i];
    assert r in PendingRows(s.rows);
    var k :| 0 <= k < |s.rows| && s.rows[k] == r;
  }

  lemma ListedBatchable(s: Outbox)
    requires SortedIds(s.rows)
    ensures Batchable(s, ListPending(s.rows, Batch))
  {
    PendingSorted(s.rows);
    var ids := ListPending(s.rows, Batch);
    forall i | 0 <= i < |ids| ensures Waiting(s, ids[i]) { PendingWaits(s, i); }
  }

  lemma DrainKeeps(s: Outbox, connected: bool, fate: nat -> Outcome, now: int)
    requires Inv(s)
    ensures var s' := Drain(s, connected, fate, now); Inv(s') && Forward(s, s') && s'.nextId == s.nextId
  {
    if connected {
      ListedBatchable(s);
      PublishAllKeeps(s, ListPending(s.rows, Batch), fate, now);
    } else {
    }
  }

  // ---------- purging and enqueueing ----------

  /** The purge never removes a waiting message, nor changes the order of those waiting. */
  lemma {:induction false} PurgeSparesPending(rows: seq<Row>, cutoff: int)
    ensures PendingRows(Purged(rows, cutoff)) == PendingRows(rows)
  {
    if rows != [] {
      var front, last := Purged(rows[..|rows| - 1], cutoff), rows[|rows| - 1];
      PurgeSparesPending(rows[..|rows| - 1], cutoff);
      if !Old(last, cutoff) { assert (front + [last])[..|front|] == front; }
    }
  }

  predicate DayOld(r: Row, now: int) {
    (r.sentAt.Some? && r.sentAt.value < now - 86400) || (r.retries >= 10 && r.createdAt < now - 86400)
  }

  /**
   A turn of the loop purges with every hundredth cycle and then exactly the rows sent over a day ago and those
   given up after ten refusals that were enqueued over a day ago.
   */
  lemma TickPurges(s: Outbox, a: Action, r: Row)
    requires a.ATick?
    ensures var d := Drain(s, a.connected, a.fate, a.now); var f := Step(s, a);
      && f.cycles == d.cycles + 1 && f.nextId == d.nextId && f.log == d.log
      && (r in f.rows <==> r in d.rows && !(f.cycles % 100 == 0 && DayOld(r, a.now)))
  {
    hide Drain;
  }

  lemma PurgeKeeps(s: Outbox, due: bool, cutoff: int)
    requires Inv(s)
    ensures Inv(PurgeIf(s, due, cutoff)) && Forward(s, PurgeIf(s, due, cutoff))
  {
    var s' := PurgeIf(s, due, cutoff);
    PurgedSorted(s.rows, cutoff);
    forall x: nat ensures IdOk(s', x) && IdForward(s, s', x) {
      RowOfPurged(s.rows, cutoff, x);
      assert IdOk(s, x);
    }
  }

  lemma EnqueueKeeps(s: Outbox, now: int)
    requires Inv(s)
    ensures Inv(Enqueue(s, now)) && Forward(s, Enqueue(s, now))
  {
    var s' := Enqueue(s, now);
    assert s'.rows[..|s.rows|] == s.rows;
    forall i, j | 0 <= i < j < |s'.rows| ensures s'.rows[i].id < s'.rows[j].id {
      if j == |s.rows| { assert s.rows[i] in s.rows; }
    }
    forall x: nat ensures IdOk(s', x) && (x < s.nextId ==> IdForward(s, s', x)) { assert IdOk(s, x); }
  }

  lemma CycleKeeps(s: Outbox)
    requires Inv(s)
    ensures Inv(CountCycle(s)) && Forward(s, CountCycle(s))
  {
    forall x: nat ensures IdOk(CountCycle(s), x) { assert IdOk(s, x); }
  }

  lemma EndCycleKeeps(s: Outbox, now: int)
    requires Inv(s)
    ensures Inv(EndCycle(s, now)) && Forward(s, EndCycle(s, now))
  {
    var s1 := CountCycle(s);
    CycleKeeps(s);
    var f := PurgeIf(s1, PurgeDue(s.cycles + 1), now - KeepFor);
    PurgeKeeps(s1, PurgeDue(s.cycles + 1), now - KeepFor);
    ForwardTrans(s, s1, f);
    assert EndCycle(s, now) == f;
  }

  lemma StepKeeps(s: Outbox, a: Action)
    requires Inv(s)
    ensures Inv(Step(s, a)) && Forward(s, Step(s, a))
  {
    match a
    case AEnqueue(now) => EnqueueKeeps(s, now);
    case ATick(connected, fate, now) =>
      var s1 := Drain(s, connected, fate, now);
      DrainKeeps(s, connected, fate, now);
      EndCycleKeeps(s1, now);
      ForwardTrans(s, s1, EndCycle(s1, now));
  }

  lemma {:induction false} RunKeeps(s: Outbox, acts: seq<Action>)
    requires Inv(s)
    ensures Inv(Run(s, acts)) && Forward(s, Run(s, acts))
    decreases |acts|
  {
    if acts == [] {
    } else {
      StepKeeps(s, acts[0]);
      RunKeeps(Step(s, acts[0]), acts[1..]);
      ForwardTrans(s, Step(s, acts[0]), Run(s, acts));
    }
  }

  lemma InitHolds(s: Outbox)
    requires Init(s)
    ensures Inv(s)
  {
  }

  /**
   Over every run a message is published at most ten times beyond the publishes whose acknowledgement was
   lost. When none was lost it is published at most ten times, and gets through at most once.
   */
  lemma AttemptsBounded(s: Outbox, acts: seq<Action>, id: nat)
    requires Init(s)
    ensures var log := Run(s, acts).log;
      && Attempts(log, id) == Refusals(log, id) + Sends(log, id) + Unacked(log, id) <= 10 + Unacked(log, id)
      && Sends(log, id) <= 1
      && (Unacked(log, id) == 0 ==> Attempts(log, id) <= 10 && Attempts(log, id) - Refusals(log, id) <= 1)
  {
    InitHolds(s);
    RunKeeps(s, acts);
    assert IdOk(Run(s, acts), id);
    AttemptsSplit(Run(s, acts).log, id);
  }

  // ---------- no starvation ----------

  /** Ids waiting ahead of `id`. */
  function Ahead(s: Outbox, id: nat): set<nat> { set x: nat | x < id && Waiting(s, x) }

  lemma {:induction false} PrefixIds(p: seq<Row>, k: nat) returns (r: set<nat>)
    requires SortedIds(p) && k <= |p|
    ensures |r| == k && forall x :: x in r <==> exists i :: 0 <= i < k && p[i].id == x
  {
    if k == 0 {
      r := {};
    } else {
      var q := PrefixIds(p, k - 1);
      r := q + {p[k - 1].id};
      assert p[k - 1].id !in q;
      forall x | x in r ensures exists i :: 0 <= i < k && p[i].id == x {
        if x in q { var i :| 0 <= i < k - 1 && p[i].id == x; }
      }
    }
  }

  /** The k-th waiting message has k ahead of it. */
  lemma AheadOf(s: Outbox, k: nat)
    requires SortedIds(s.rows) && k < |PendingRows(s.rows)|
    ensures |Ahead(s, PendingRows(s.rows)[k].id)| == k
  {
    var p := PendingRows(s.rows);
    PendingSorted(s.rows);
    var r := PrefixIds(p, k);
    var ahead := Ahead(s, p[k].id);
    forall x: nat ensures x in ahead <==> x in r {
      if x in ahead { assert RowOf(s.rows, x).value in p; }
      if x in r {
        var i :| 0 <= i < k && p[i].id == x;
        PendingWaits(s, i);
      }
    }
    assert ahead == r;
  }

  lemma PositionOf(s: Outbox, id: nat) returns (k: nat)
    requires SortedIds(s.rows) && Waiting(s, id)
    ensures k < |PendingRows(s.rows)| && PendingRows(s.rows)[k].id == id && |Ahead(s, id)| == k
  {
    var row := RowOf(s.rows, id).value;
    assert row in PendingRows(s.rows);
    k :| 0 <= k < |PendingRows(s.rows)| && PendingRows(s.rows)[k] == row;
    AheadOf(s, k);
  }

  /** A drain over a working connection in which every successful publish of a message up to `m` is also recorded. */
  ghost predicate Clean(a: Action, m: nat) {
    a.ATick? && a.connected && forall id: nat :: id <= m ==> a.fate(id) != SentNotAcked
  }

  ghost function CleanDrains(acts: seq<Action>, m: nat): nat
    decreases |acts|
  {
    if acts == [] then 0 else (if Clean(acts[0], m) then 1 else 0) + CleanDrains(acts[1..], m)
  }

  /** Settled, or waiting within the first batch with at least `j` refusals. */
  predicate Close(s: Outbox, id: nat, j: nat) {
    Waiting(s, id) ==> |Ahead(s, id)| < Batch && RowOf(s.rows, id).value.retries >= j
  }

  lemma SubsetSize(a: set<nat>, b: set<nat>)
    requires a <= b
    ensures |a| <= |b|
  {
    assert b == a + (b - a);
  }

  lemma AheadShrinks(s: Outbox, s': Outbox, id: nat)
    requires Forward(s, s') && id <= s.nextId
    ensures Ahead(s', id) <= Ahead(s, id) && |Ahead(s', id)| <= |Ahead(s, id)|
  {
    forall x | x in Ahead(s', id) ensures x in Ahead(s, id) { assert IdForward(s, s', x); }
    SubsetSize(Ahead(s', id), Ahead(s, id));
  }

  lemma ForwardClose(s: Outbox, s': Outbox, id: nat, j: nat)
    requires Forward(s, s') && id < s.nextId && Close(s, id, j)
    ensures Close(s', id, j)
  {
    assert IdForward(s, s', id);
    AheadShrinks(s, s', id);
  }

  /** The listing holds a waiting message exactly when fewer than fifty wait ahead of it. */
  lemma ListedIff(s: Outbox, id: nat)
    requires SortedIds(s.rows) && Waiting(s, id)
    ensures id in ListPending(s.rows, Batch) <==> |Ahead(s, id)| < 50
  {
    var k := PositionOf(s, id);
    var ids := ListPending(s.rows, Batch);
    if k < Batch {
      assert ids[k] == id;
    } else if id in ids {
      var i :| 0 <= i < |ids| && ids[i] == id;
      AheadOf(s, i);
    }
  }

  /** A drain publishes what waits within the first batch. */
  lemma DrainReaches(s: Outbox, a: Action, id: nat, m: nat)
    requires Inv(s) && Waiting(s, id) && |Ahead(s, id)| < Batch && Clean(a, m) && id <= m
    ensures var s1 := Drain(s, true, a.fate, a.now);
      Waiting(s1, id) ==> RowOf(s1.rows, id).value.retries == RowOf(s.rows, id).value.retries + 1
  {
    var ids := ListPending(s.rows, Batch);
    ListedIff(s, id);
    ListedBatchable(s);
    PublishAllRow(s, ids, a.fate, a.now, id);
  }

  /** What waits after a tick waited after its drain, in the same row. */
  lemma TickRow(s: Outbox, a: Action, id: nat)
    requires Inv(s) && a.ATick? && Waiting(Step(s, a), id)
    ensures var s1 := Drain(s, a.connected, a.fate, a.now); RowOf(s1.rows, id) == RowOf(Step(s, a).rows, id)
  {
    var s1 := Drain(s, a.connected, a.fate, a.now);
    DrainKeeps(s, a.connected, a.fate, a.now);
    RowOfPurged(s1.rows, a.now - KeepFor, id);
  }

  /** A clean drain settles a message of the first batch or adds a refusal. */
  lemma CleanDrainAdvances(s: Outbox, a: Action, id: nat, j: nat, m: nat)
    requires Inv(s) && id <= m && id < s.nextId && Close(s, id, j) && Clean(a, m)
    ensures Close(Step(s, a), id, j + 1)
  {
    StepKeeps(s, a);
    ForwardClose(s, Step(s, a), id, j);
    if Waiting(Step(s, a), id) {
      assert IdForward(s, Step(s, a), id);
      DrainReaches(s, a, id, m);
      TickRow(s, a, id);
    }
  }

  /** Ten clean drains settle everything that was within the first batch. */
  lemma {:induction false} BatchSettles(s: Outbox, acts: seq<Action>, id: nat, j: nat, m: nat)
    requires Inv(s) && id <= m && id < s.nextId && Close(s, id, j) && j <= MaxRetries
    requires CleanDrains(acts, m) >= MaxRetries - j
    ensures !Waiting(Run(s, acts), id)
    decreases |acts|
  {
    if acts != [] && j < MaxRetries {
      var s1 := Step(s, acts[0]);
      StepKeeps(s, acts[0]);
      ForwardClose(s, s1, id, j);
      if Clean(acts[0], m) {
        CleanDrainAdvances(s, acts[0], id, j, m);
        BatchSettles(s1, acts[1..], id, j + 1, m);
      } else {
        BatchSettles(s1, acts[1..], id, j, m);
      }
    } else if j == MaxRetries {
      RunKeeps(s, acts);
      ForwardClose(s, Run(s, acts), id, j);
    }
  }

  lemma {:induction false} RunConcat(s: Outbox, a: seq<Action>, b: seq<Action>)
    ensures Run(s, a + b) == Run(Run(s, a), b)
    decreases |a|
  {
    if a == [] {
      assert a + b == b;
    } else {
      assert (a + b)[0] == a[0] && (a + b)[1..] == a[1..] + b;
      RunConcat(Step(s, a[0]), a[1..], b);
    }
  }

  /** Cut a run after its n-th clean drain. */
  lemma {:induction false} Cut(acts: seq<Action>, m: nat, n: nat) returns (a: seq<Action>, b: seq<Action>)
    requires CleanDrains(acts, m) >= n
    ensures acts == a + b && CleanDrains(a, m) == n && CleanDrains(b, m) == CleanDrains(acts, m) - n
    decreases |acts|
  {
    if n == 0 {
      a, b := [], acts;
    } else {
      var c := if Clean(acts[0], m) then 1 else 0;
      a, b := Cut(acts[1..], m, n - c);
      a := [acts[0]] + a;
      assert a[1..] + b == acts[1..];
    }
  }

  /** After ten clean drains the message is settled or has fifty fewer ahead of it. */
  lemma BatchByBatch(s: Outbox, acts: seq<Action>, m: nat)
    requires Inv(s) && Waiting(s, m) && m < s.nextId && CleanDrains(acts, m) >= MaxRetries
    ensures Waiting(Run(s, acts), m) ==> |Ahead(Run(s, acts), m)| + Batch <= |Ahead(s, m)|
  {
    var f := Run(s, acts);
    RunKeeps(s, acts);
    if |Ahead(s, m)| < Batch {
      BatchSettles(s, acts, m, 0, m);
    } else {
      var p := PendingRows(s.rows);
      PendingSorted(s.rows);
      var pos := PositionOf(s, m);
      var first := PrefixIds(p, Batch);
      forall x | x in first ensures x in Ahead(s, m) && x !in Ahead(f, m) {
        var i :| 0 <= i < Batch && p[i].id == x;
        PendingWaits(s, i);
        AheadOf(s, i);
        BatchSettles(s, acts, x, 0, m);
      }
      AheadShrinks(s, f, m);
      SubsetSize(Ahead(f, m), Ahead(s, m) - first);
    }
  }

  /** Repeating BatchByBatch until nothing is left ahead. */
  lemma {:induction false} Drained(s: Outbox, acts: seq<Action>, m: nat)
    requires Inv(s) && Waiting(s, m) && m < s.nextId
    requires CleanDrains(acts, m) >= MaxRetries * (|Ahead(s, m)| / Batch + 1)
    ensures !Waiting(Run(s, acts), m)
    decreases |Ahead(s, m)|
  {
    var k := |Ahead(s, m)|;
    var a, b := Cut(acts, m, MaxRetries);
    RunConcat(s, a, b);
    var s1 := Run(s, a);
    RunKeeps(s, a);
    RunKeeps(s1, b);
    BatchByBatch(s, a, m);
    if Waiting(s1, m) {
      assert |Ahead(s1, m)| / Batch + 1 <= k / Batch;
      Drained(s1, b, m);
    } else {
      assert IdForward(s1, Run(s1, b), m);
    }
  }

  /**
   Whatever is refused and whatever is enqueued behind it, the message at pending position k is sent or
   given up after ten refusals within 10 * (k / 50 + 1) clean drains.
   */
  lemma NoStarvation(s: Outbox, before: seq<Action>, acts: seq<Action>, k: nat)
    requires Init(s) && k < |PendingRows(Run(s, before).rows)|
    requires CleanDrains(acts, PendingRows(Run(s, before).rows)[k].id) >= 10 * (k / 50 + 1)
    ensures var m := PendingRows(Run(s, before).rows)[k].id; var f := Run(Run(s, before), acts);
      !Waiting(f, m) && Settled(f.log, m)
  {
    InitHolds(s);
    RunKeeps(s, before);
    var s1 := Run(s, before);
    var m := PendingRows(s1.rows)[k].id;
    AheadOf(s1, k);
    PendingWaits(s1, k);
    Drained(s1, acts, m);
    RunKeeps(s1, acts);
    assert IdOk(Run(s1, acts), m);
  }

  // ---------- what a drain publishes, and where rows come from ----------

  function Pubs(ids: seq<nat>, fate: nat -> Outcome): (r: seq<Pub>)
    ensures |r| == |ids| && forall i :: 0 <= i < |r| ==> r[i] == Pub(ids[i], fate(ids[i]))
  {
    seq(|ids|, i requires 0 <= i < |ids| => Pub(ids[i], fate(ids[i])))
  }

  lemma PubsFirst(log: seq<Pub>, ids: seq<nat>, fate: nat -> Outcome)
    requires ids != []
    ensures log + Pubs(ids, fate) == log + [Pub(ids[0], fate(ids[0]))] + Pubs(ids[1..], fate)
  {
    assert Pubs(ids, fate) == [Pub(ids[0], fate(ids[0]))] + Pubs(ids[1..], fate);
  }

  lemma {:induction false} PublishAllLog(s: Outbox, ids: seq<nat>, fate: nat -> Outcome, now: int)
    ensures PublishAll(s, ids, fate, now).log == s.log + Pubs(ids, fate)
    decreases |ids|
  {
    if ids == [] {
      assert s.log + Pubs(ids, fate) == s.log;
    } else {
      PubsFirst(s.log, ids, fate);
      hide UpdateRow, Pubs;
      PublishAllLog(Publish(s, ids[0], fate(ids[0]), now), ids[1..], fate, now);
    }
  }

  /** A connected drain publishes the messages with fewer than fifty waiting ahead, oldest first, each to its fate. */
  lemma {:induction false} DrainPublishes(s: Outbox, fate: nat -> Outcome, now: int) returns (ids: seq<nat>)
    requires Inv(s)
    ensures Drain(s, true, fate, now).log == s.log + Pubs(ids, fate) && Drain(s, false, fate, now) == s
    ensures forall i, j :: 0 <= i < j < |ids| ==> ids[i] < ids[j]
    ensures forall id: nat :: id in ids <==> Waiting(s, id) && |Ahead(s, id)| < 50
  {
    hide PublishAll, Pubs, Ahead, Waiting;
    ids := ListPending(s.rows, Batch);
    PublishAllLog(s, ids, fate, now);
    PendingSorted(s.rows);
    ListedBatchable(s);
    hide ListPending;
    forall id: nat ensures id in ids <==> Waiting(s, id) && |Ahead(s, id)| < 50 {
      if id in ids { var i :| 0 <= i < |ids| && ids[i] == id; }
      if Waiting(s, id) { ListedIff(s, id); }
    }
  }

  /** The row was enqueued by one of the actions, at its time; its sending was recorded by another, at its time. */
  ghost predicate From(r: Row, acts: seq<Action>) {
    && (exists i :: 0 <= i < |acts| && acts[i] == AEnqueue(r.createdAt))
    && (r.sentAt.Some? ==> exists i :: 0 <= i < |acts| && Sender(acts[i], r))
  }

  predicate Sender(a: Action, r: Row) {
    a.ATick? && a.connected && a.fate(r.id) == Sent && r.sentAt == Some(a.now)
  }

  lemma FromMore(r: Row, acts: seq<Action>, a: Action)
    requires From(r, acts)
    ensures From(r, acts + [a])
  {
    var i :| 0 <= i < |acts| && acts[i] == AEnqueue(r.createdAt);
    assert (acts + [a])[i] == acts[i];
    if r.sentAt.Some? {
      var j :| 0 <= j < |acts| && Sender(acts[j], r);
      assert (acts + [a])[j] == acts[j];
    }
  }

  /** The same row, perhaps refused or sent in between. */
  predicate Published(r: Row, r': Row, fate: nat -> Outcome, now: int) {
    && r'.id == r.id && r'.createdAt == r.createdAt
    && (r'.sentAt == r.sentAt || (r'.sentAt == Some(now) && fate(r.id) == Sent))
  }

  /** After a batch each row is one of before, perhaps refused once more or sent now. */
  lemma {:induction false} PublishAllFrom(s: Outbox, ids: seq<nat>, fate: nat -> Outcome, now: int)
    ensures var f := PublishAll(s, ids, fate, now);
      && |f.rows| == |s.rows|
      && forall i :: 0 <= i < |s.rows| ==> Published(s.rows[i], f.rows[i], fate, now)
    decreases |ids|
  {
    if ids != [] { PublishAllFrom(Publish(s, ids[0], fate(ids[0]), now), ids[1..], fate, now); }
  }

  lemma FromPublished(x: Row, r: Row, acts: seq<Action>, a: Action)
    requires From(x, acts) && a.ATick? && a.connected && Published(x, r, a.fate, a.now)
    ensures From(r, acts + [a])
  {
    FromMore(x, acts, a);
    assert (acts + [a])[|acts|] == a;
    if r.sentAt.Some? && r.sentAt != x.sentAt { assert Sender((acts + [a])[|acts|], r); }
  }

  lemma DrainFrom(s: Outbox, a: Action, acts: seq<Action>, r: Row)
    requires a.ATick? && (forall x :: x in s.rows ==> From(x, acts)) && r in Drain(s, a.connected, a.fate, a.now).rows
    ensures From(r, acts + [a])
  {
    hide PublishAll, From;
    if !a.connected {
      FromMore(r, acts, a);
    } else {
      PublishAllFrom(s, ListPending(s.rows, Batch), a.fate, a.now);
      var f := Drain(s, true, a.fate, a.now);
      var i :| 0 <= i < |f.rows| && f.rows[i] == r;
      var x := s.rows[i];
      assert x in s.rows;
      FromPublished(x, r, acts, a);
    }
  }

  lemma StepFrom(s: Outbox, a: Action, acts: seq<Action>, r: Row)
    requires (forall x :: x in s.rows ==> From(x, acts)) && r in Step(s, a).rows
    ensures From(r, acts + [a])
  {
    hide Drain;
    if a.ATick? {
      assert r in Drain(s, a.connected, a.fate, a.now).rows by { TickPurges(s, a, r); }
      DrainFrom(s, a, acts, r);
    } else if r in s.rows {
      FromMore(r, acts, a);
    } else {
      assert (acts + [a])[|acts|] == a && r == Row(s.nextId, 0, a.at, None);
    }
  }

  lemma {:induction false} RunFrom(s: Outbox, before: seq<Action>, acts: seq<Action>, r: Row)
    requires (forall x :: x in s.rows ==> From(x, before)) && r in Run(s, acts).rows
    ensures From(r, before + acts)
    decreases |acts|
  {
    hide Step, From;
    if acts == [] {
      assert before + acts == before;
    } else {
      var s1 := Step(s, acts[0]);
      forall x | x in s1.rows ensures From(x, before + [acts[0]]) { StepFrom(s, acts[0], before, x); }
      RunFrom(s1, before + [acts[0]], acts[1..], r);
      assert before + [acts[0]] + acts[1..] == before + acts;
    }
  }

  /** Over every run a row carries the time of its enqueueing, and once sent the time of the drain that sent it. */
  lemma RowsTellTheirStory(s: Outbox, acts: seq<Action>, r: Row)
    requires Init(s) && r in Run(s, acts).rows
    ensures From(r, acts)
  {
    RunFrom(s, [], acts, r);
    assert [] + acts == acts;
  }

  // ---------- why the acknowledgement matters ----------

  /** A published message `id` gets through, and its acknowledgement is not stored. */
  ghost predicate NeverAcked(a: Action, id: nat) { a.ATick? ==> a.fate(id) == SentNotAcked }

  function ConnectedDrains(acts: seq<Action>): nat
    decreases |acts|
  {
    if acts == [] then 0 else (if acts[0].ATick? && acts[0].connected then 1 else 0) + ConnectedDrains(acts[1..])
  }

  /** A batch adds one log entry for each message it lists. */
  lemma {:induction false} PublishAllCount(s: Outbox, ids: seq<nat>, fate: nat -> Outcome, now: int, id: nat)
    requires Batchable(s, ids)
    ensures var n := Attempts(PublishAll(s, ids, fate, now).log, id) - Attempts(s.log, id);
      if id in ids then n == 1 else n == 0
    decreases |ids|
  {
    if ids != [] {
      var s1 := Publish(s, ids[0], fate(ids[0]), now);
      PublishBatchable(s, ids, fate(ids[0]), now);
      assert s1.log[..|s.log|] == s.log;
      PublishAllCount(s1, ids[1..], fate, now, id);
      assert id in ids <==> id == ids[0] || id in ids[1..];
    }
  }

  /** Publishing without the acknowledgement changes nothing about the message but the log. */
  lemma UnackedDrain(s: Outbox, a: Action, id: nat)
    requires Inv(s) && Waiting(s, id) && |Ahead(s, id)| < Batch
    requires a.ATick? && a.connected && NeverAcked(a, id)
    ensures var s1 := Drain(s, true, a.fate, a.now);
      RowOf(s1.rows, id) == RowOf(s.rows, id) && Attempts(s1.log, id) == Attempts(s.log, id) + 1
  {
    hide PublishAll, ListPending, RowOf, Ahead, Attempts;
    var ids := ListPending(s.rows, Batch);
    ListedIff(s, id);
    ListedBatchable(s);
    PublishAllRow(s, ids, a.fate, a.now, id);
    PublishAllCount(s, ids, a.fate, a.now, id);
  }

  /** The end of a cycle leaves a waiting message and the log alone. */
  lemma EndCycleSpares(s: Outbox, now: int, id: nat)
    requires SortedIds(s.rows) && Waiting(s, id)
    ensures RowOf(EndCycle(s, now).rows, id) == RowOf(s.rows, id) && EndCycle(s, now).log == s.log
  {
    RowOfPurged(s.rows, now - KeepFor, id);
  }

  lemma EnqueueSpares(s: Outbox, now: int, id: nat)
    requires Inv(s) && Waiting(s, id)
    ensures RowOf(Enqueue(s, now).rows, id) == RowOf(s.rows, id) && Enqueue(s, now).log == s.log
  {
    assert Enqueue(s, now).rows[..|s.rows|] == s.rows;
  }

  lemma UnackedStep(s: Outbox, a: Action, id: nat)
    requires Inv(s) && Waiting(s, id) && |Ahead(s, id)| < Batch && NeverAcked(a, id)
    ensures var s' := Step(s, a);
      RowOf(s'.rows, id) == RowOf(s.rows, id) && Attempts(s'.log, id) == Attempts(s.log, id) + ConnectedDrains([a])
  {
    hide EndCycle, PublishAll, ListPending, Enqueue, Attempts, RowOf;
    match a
    case AEnqueue(now) => EnqueueSpares(s, now, id);
    case ATick(connected, fate, now) =>
      var s1 := Drain(s, connected, fate, now);
      DrainKeeps(s, connected, fate, now);
      if connected { UnackedDrain(s, a, id); }
      EndCycleSpares(s1, now, id);
  }

  lemma {:induction false} UnackedRun(s: Outbox, acts: seq<Action>, id: nat)
    requires Inv(s) && Waiting(s, id) && |Ahead(s, id)| < Batch
    requires forall i :: 0 <= i < |acts| ==> NeverAcked(acts[i], id)
    ensures var f := Run(s, acts);
      RowOf(f.rows, id) == RowOf(s.rows, id) && Attempts(f.log, id) == Attempts(s.log, id) + ConnectedDrains(acts)
    decreases |acts|
  {
    hide Step, RowOf, Attempts;
    if acts == [] {
    } else {
      var s1 := Step(s, acts[0]);
      StepKeeps(s, acts[0]);
      UnackedStep(s, acts[0], id);
      RowBelow(s, id);
      AheadShrinks(s, s1, id);
      UnackedRun(s1, acts[1..], id);
    }
  }

  lemma RowBelow(s: Outbox, id: nat)
    requires Inv(s) && Waiting(s, id)
    ensures id < s.nextId
  {
  }

  /**
   From any reachable table, a waiting message with fewer than fifty ahead of it whose acknowledgement is
   never stored is published in every connected drain, and still waits afterwards with its refusals unchanged.
   */
  lemma UnackedRepeats(s: Outbox, before: seq<Action>, acts: seq<Action>, id: nat)
    requires Init(s) && Waiting(Run(s, before), id) && |Ahead(Run(s, before), id)| < 50
    requires forall i :: 0 <= i < |acts| ==> NeverAcked(acts[i], id)
    ensures var s1 := Run(s, before); var f := Run(s1, acts);
      && Waiting(f, id) && Refusals(f.log, id) == Refusals(s1.log, id) && Sends(f.log, id) == 0
      && Attempts(f.log, id) == Attempts(s1.log, id) + ConnectedDrains(acts)
      && Unacked(f.log, id) == Unacked(s1.log, id) + ConnectedDrains(acts)
  {
    hide RowOf, Count, Attempts, Run, Batchable;
    InitHolds(s);
    RunKeeps(s, before);
    var s1 := Run(s, before);
    UnackedRun(s1, acts, id);
    RunKeeps(s1, acts);
    assert IdOk(s1, id) && IdOk(Run(s1, acts), id);
    AttemptsSplit(s1.log, id);
    AttemptsSplit(Run(s1, acts).log, id);
  }
}
