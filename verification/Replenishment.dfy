/**
 The consumption and reorder loop of the edge: at most one outstanding replenishment per payload over
 every run, and consumption that does not depend on how the counter deltas are batched.
 */
module Replenishment {
  import opened Protocol
  import opened EdgeOrders
  import opened EdgeLifecycle

  // ---------- single outstanding replenishment ----------

  /** A retrieve order for `pid` that has not ended. */
  predicate Live(o: Order, pid: nat) {
    o.orderType == Retrieve && o.payloadId == Some(pid) && !IsTerminal(o.status)
  }

  predicate Waiting(s: PayloadStatus) { s == Replenishing || s == Empty }

  ghost predicate AtMostOne(e: Edge, pid: nat) {
    && (forall i, j :: 0 <= i < j < |e.orders| ==> !(Live(e.orders[i], pid) && Live(e.orders[j], pid)))
    && (forall i :: 0 <= i < |e.orders| && Live(e.orders[i], pid) ==>
      pid < |e.payloads| && Waiting(e.payloads[pid].status))
  }

  lemma TransitionPayload(e: Edge, oid: nat, to: Status, pid: nat)
    requires CanTransition(e, oid, to) && pid < |e.payloads|
    ensures var f := Transition(e, oid, to);
      && |f.payloads| == |e.payloads| && f.orders == e.orders[oid := e.orders[oid].(status := to)]
      && (!IsTerminal(to) ==> f.payloads == e.payloads)
      && (Live(e.orders[oid], pid) && IsTerminal(to) ==>
            f.payloads[pid].status == Active && f.payloads[pid].remaining == e.payloads[pid].productionUnits)
      && (!(Live(e.orders[oid], pid) && IsTerminal(to)) ==> f.payloads[pid] == e.payloads[pid])
  {
  }

  lemma TransitionAtMostOne(e: Edge, oid: nat, to: Status, pid: nat)
    requires CanTransition(e, oid, to) && AtMostOne(e, pid)
    ensures AtMostOne(Transition(e, oid, to), pid)
  {
    var f := Transition(e, oid, to);
    if pid < |e.payloads| {
      TransitionPayload(e, oid, to, pid);
    } else {
      TransitionEffect(e, oid, to);
    }
    assert forall i :: 0 <= i < |f.orders| && Live(f.orders[i], pid) ==> Live(e.orders[i], pid);
  }

  /** Edits of an order row that touch neither its type, payload link nor status; messages and events do not matter. */
  lemma SameLive(e: Edge, f: Edge, pid: nat)
    requires AtMostOne(e, pid) && |f.orders| == |e.orders| && |f.payloads| == |e.payloads|
    requires forall i :: 0 <= i < |e.orders| ==> (Live(f.orders[i], pid) ==> Live(e.orders[i], pid))
    requires pid < |e.payloads| ==>
      (f.payloads[pid].status == e.payloads[pid].status || Waiting(f.payloads[pid].status))
    ensures AtMostOne(f, pid)
  {
  }

  /** Inserting an order for `pid` keeps the bound exactly when none is live and the payload is waiting. */
  lemma CreateExact(e: Edge, o: Order, pid: nat)
    requires AtMostOne(e, pid) && o.status == Pending && (o.orderType == Retrieve || o.orderType == Move)
    ensures AtMostOne(CreateAndSubmit(e, o), pid) <==> MayCreate(e, o, pid)
  {
    var f := CreateAndSubmit(e, o);
    if CanInsertOrder(e, o) {
      assert f.orders[|e.orders|] == o.(status := Submitted);
      assert forall i :: 0 <= i < |e.orders| ==> f.orders[i] == e.orders[i];
    }
  }

  ghost predicate MayCreate(e: Edge, o: Order, pid: nat) {
    CanInsertOrder(e, o) && o.orderType == Retrieve && o.payloadId == Some(pid) ==>
      && pid < |e.payloads| && Waiting(e.payloads[pid].status)
      && forall i :: 0 <= i < |e.orders| ==> !Live(e.orders[i], pid)
  }

  lemma ConsumeAtMostOne(e: Edge, p: Payload, i: nat, delta: int, uuid: string, pid: nat)
    requires AtMostOne(e, pid) && i < |e.payloads| && e.payloads[i] == p
      && (p.status == Active || p.status == Replenishing)
    ensures AtMostOne(Consume(e, p, i, delta, uuid), pid)
    ensures var f := Consume(e, p, i, delta, uuid);
      |f.payloads| == |e.payloads| && forall j :: 0 <= j < |e.payloads| && j != i ==> f.payloads[j] == e.payloads[j]
  {
    var d := Drawn(e, p, i, delta);
    ConsumeIsDrawnThenOrdered(e, p, i, delta, uuid);
    DrawnEffect(e, p, i, delta);
    if Reorders(p, delta) {
      if i == pid { assert forall k :: 0 <= k < |e.orders| ==> !Live(e.orders[k], pid); }
      SameLive(e, d, pid);
      CreateExact(d, Reorder(e, p, i, uuid), pid);
    } else {
      SameLive(e, d, pid);
    }
  }

  lemma {:induction false} ConsumeFromAtMostOne(e: Edge, listing: seq<Payload>, i: nat, js: nat, delta: int,
                                                uuids: seq<string>, pid: nat)
    requires AtMostOne(e, pid) && i <= |listing| == |e.payloads|
    requires forall j :: i <= j < |listing| ==> e.payloads[j] == listing[j]
    ensures AtMostOne(ConsumeFrom(e, listing, i, js, delta, uuids), pid)
    decreases |listing| - i
  {
    if i < |listing| {
      if Listed(listing[i], js) {
        ConsumeAtMostOne(e, listing[i], i, delta, UuidFor(uuids, i), pid);
        ConsumeFromAtMostOne(Consume(e, listing[i], i, delta, UuidFor(uuids, i)), listing, i + 1, js, delta, uuids,
          pid);
      } else {
        ConsumeFromAtMostOne(e, listing, i + 1, js, delta, uuids, pid);
      }
    }
  }

  lemma ConfirmAtMostOne(e: Edge, oid: nat, count: real, pid: nat)
    requires AtMostOne(e, pid)
    ensures AtMostOne(Confirm(e, oid, count), pid)
  {
    if oid < |e.orders| && e.orders[oid].status == Delivered {
      var e2 := Enqueue(SetCount(e, oid, count), Receipt(e.orders[oid].uuid, count));
      SameLive(e, e2, pid);
      TransitionAtMostOne(e2, oid, Confirmed, pid);
    }
  }

  lemma ReplyAtMostOne(e: Edge, body: CoreBody, pid: nat)
    requires AtMostOne(e, pid)
    ensures AtMostOne(Reply(e, body), pid)
  {
    var found := OrderByUuid(e.orders, body.uuid);
    if found.Some? {
      var oid := found.value;
      match body
      case Waybill(_, w, _, eta) =>
        var e1 := SetOrder(e, oid, e.orders[oid].(waybillId := Some(w), eta := eta));
        SameLive(e, e1, pid);
        if CanTransition(e1, oid, InTransit) { TransitionAtMostOne(e1, oid, InTransit, pid); }
      case Update(_, _, eta) => SameLive(e, SetOrder(e, oid, e.orders[oid].(eta := eta)), pid);
      case DeliveredNotice(_) =>
        if CanTransition(e, oid, Delivered) {
          TransitionAtMostOne(e, oid, Delivered, pid);
          ConfirmAtMostOne(Transition(e, oid, Delivered), oid, e.orders[oid].quantity, pid);
        }
      case _ => if CanTransition(e, oid, Target(body).value) { TransitionAtMostOne(e, oid, Target(body).value, pid); }
    }
  }

  /** The one step of an operator that can break the bound: creating a retrieve order for `pid` by hand. */
  ghost predicate Careful(e: Edge, a: Action, pid: nat) {
    a.ACreateRetrieve? ==>
      MayCreate(e, NewOrder(a.uuid, Retrieve, a.payloadId, a.retrieveEmpty, a.quantity, a.delivery, a.staging, "",
        a.loadType, a.autoConfirm), pid)
  }

  lemma StoreAtMostOne(e: Edge, uuid: string, q: Option<nat>, n: real, pickup: string, pid: nat)
    requires AtMostOne(e, pid)
    ensures AtMostOne(CreateStore(e, uuid, q, n, pickup), pid)
  {
    var f := CreateStore(e, uuid, q, n, pickup);
    if |f.orders| > |e.orders| { assert forall i :: 0 <= i < |e.orders| ==> f.orders[i] == e.orders[i]; }
  }

  lemma SubmitAtMostOne(e: Edge, oid: nat, pid: nat)
    requires AtMostOne(e, pid)
    ensures AtMostOne(Submit(e, oid), pid)
  {
    hide Transition;
    if CanTransition(e, oid, Submitted) { TransitionAtMostOne(e, oid, Submitted, pid); }
  }

  lemma AbortAtMostOne(e: Edge, oid: nat, pid: nat)
    requires AtMostOne(e, pid)
    ensures AtMostOne(Abort(e, oid), pid)
  {
    hide Transition;
    if CanTransition(e, oid, Cancelled) { TransitionAtMostOne(e, oid, Cancelled, pid); }
  }

  /** A step keeps the bound if and only if it is no untimely manual retrieve for the payload. */
  lemma StepAtMostOne(e: Edge, a: Action, pid: nat)
    requires AtMostOne(e, pid)
    ensures AtMostOne(Step(e, a), pid) <==> Careful(e, a, pid)
  {
    hide Transition, ConsumeFrom, Confirm, Reply, CreateAndSubmit, CreateStore, Submit, Abort, AtMostOne;
    match a
    case ACreateRetrieve(uuid, q, re, n, d, s, lt, ac) =>
      CreateExact(e, NewOrder(uuid, Retrieve, q, re, n, d, s, "", lt, ac), pid);
    case ACreateMove(uuid, q, n, pickup, d) =>
      CreateExact(e, NewOrder(uuid, Move, q, false, n, d, "", pickup, "", false), pid);
    case ACreateStore(uuid, q, n, pickup) => StoreAtMostOne(e, uuid, q, n, pickup, pid);
    case ASubmit(o) => SubmitAtMostOne(e, o, pid);
    case AAbort(o) => AbortAtMostOne(e, o, pid);
    case AConfirm(o, c) => ConfirmAtMostOne(e, o, c, pid);
    case AReply(b) => ReplyAtMostOne(e, b, pid);
    case ACounterDelta(js, d, uuids) => ConsumeFromAtMostOne(e, e.payloads, 0, js, d, uuids, pid);
    case _ => SameLive(e, Step(e, a), pid);
  }

  ghost predicate CarefulRun(e: Edge, acts: seq<Action>, pid: nat)
    decreases |acts|
  {
    acts != [] ==> Careful(e, acts[0], pid) && CarefulRun(Step(e, acts[0]), acts[1..], pid)
  }

  /** At most one live retrieve order per payload over every run, and the payload is waiting while there is one. */
  lemma {:induction false} SingleOutstanding(e: Edge, acts: seq<Action>, pid: nat)
    requires AtMostOne(e, pid) && CarefulRun(e, acts, pid)
    ensures AtMostOne(Run(e, acts), pid)
    decreases |acts|
  {
    if acts != [] {
      StepAtMostOne(e, acts[0], pid);
      SingleOutstanding(Step(e, acts[0]), acts[1..], pid);
    }
  }

  /** In particular when retrieve orders for the payload come only from reorder events. */
  lemma {:induction false} ReorderOnlyRunsAreCareful(e: Edge, acts: seq<Action>, pid: nat)
    requires forall a :: a in acts && a.ACreateRetrieve? ==> a.payloadId != Some(pid)
    ensures CarefulRun(e, acts, pid)
    decreases |acts|
  {
    if acts != [] {
      assert acts[0] in acts;
      ReorderOnlyRunsAreCareful(Step(e, acts[0]), acts[1..], pid);
    }
  }

  lemma SingleOutstandingFromInit(e: Edge, acts: seq<Action>, pid: nat)
    requires Init(e)
    requires forall a :: a in acts && a.ACreateRetrieve? ==> a.payloadId != Some(pid)
    ensures AtMostOne(Run(e, acts), pid)
  {
    ReorderOnlyRunsAreCareful(e, acts, pid);
    SingleOutstanding(e, acts, pid);
  }

  // ---------- batching independence ----------

  function Count(evs: seq<Event>, ev: Event): nat {
    if evs == [] then 0 else Count(evs[..|evs| - 1], ev) + if evs[|evs| - 1] == ev then 1 else 0
  }

  lemma CountConcat(a: seq<Event>, b: seq<Event>, ev: Event)
    ensures Count(a + b, ev) == Count(a, ev) + Count(b, ev)
  {
    if b == [] {
      assert a + b == a;
    } else {
      assert (a + b)[..|a + b| - 1] == a + b[..|b| - 1];
      CountConcat(a, b[..|b| - 1], ev);
    }
  }

  lemma CountAbsent(evs: seq<Event>, ev: Event)
    requires ev !in evs
    ensures Count(evs, ev) == 0
  {
  }

  /** The row after one delta. */
  function Consumed(p: Payload, delta: int): Payload {
    var left := Saturate(p.remaining - delta);
    p.(remaining := left, status := if Reorders(p, delta) then Replenishing else if left == 0 then Empty else p.status)
  }

  predicate Empties(p: Payload, delta: int) { Saturate(p.remaining - delta) == 0 && p.remaining > 0 }

  /** The events one consumption adds, in order. */
  function Raised(e: Edge, p: Payload, i: nat, delta: int, uuid: string): seq<Event>
    requires i < |e.payloads|
  {
    DrawnEvents(p, i, delta)
    + (if Reorders(p, delta) && CanInsertOrder(e, Reorder(e, p, i, uuid))
       then [StatusChanged(|e.orders|, Pending, Submitted), OrderCreated(|e.orders|)] else [])
  }

  lemma ConsumeRow(e: Edge, p: Payload, i: nat, delta: int, uuid: string)
    requires i < |e.payloads| && e.payloads[i] == p
    ensures var f := Consume(e, p, i, delta, uuid);
      f.payloads == e.payloads[i := Consumed(p, delta)] && f.events == e.events + Raised(e, p, i, delta, uuid)
  {
    ConsumeIsDrawnThenOrdered(e, p, i, delta, uuid);
    DrawnEffect(e, p, i, delta);
    DrawnAdds(e, p, i, delta);
    var d, o := Drawn(e, p, i, delta), Reorder(e, p, i, uuid);
    assert d.payloads == e.payloads[i := Consumed(p, delta)];
    if Reorders(p, delta) {
      assert CanInsertOrder(d, o) <==> CanInsertOrder(e, o);
    }
  }

  function One(b: bool): nat { if b then 1 else 0 }

  lemma ConsumeCounts(e: Edge, p: Payload, i: nat, delta: int, uuid: string, pid: nat)
    requires i < |e.payloads| && e.payloads[i] == p
    ensures var f := Consume(e, p, i, delta, uuid);
      && Count(f.events, PayloadReorder(pid)) ==
        Count(e.events, PayloadReorder(pid)) + One(i == pid && Reorders(p, delta))
      && Count(f.events, PayloadEmpty(pid)) == Count(e.events, PayloadEmpty(pid)) + One(i == pid && Empties(p, delta))
  {
    ConsumeRow(e, p, i, delta, uuid);
    RaisedCount(e, p, i, delta, uuid, PayloadReorder(pid));
    RaisedCount(e, p, i, delta, uuid, PayloadEmpty(pid));
    CountConcat(e.events, Raised(e, p, i, delta, uuid), PayloadReorder(pid));
    CountConcat(e.events, Raised(e, p, i, delta, uuid), PayloadEmpty(pid));
  }

  lemma CountOne(x: Event, ev: Event)
    ensures Count([x], ev) == One(x == ev) && Count([], ev) == 0
  {
    assert [x][..0] == [];
  }

  lemma DrawnCount(p: Payload, i: nat, delta: int, ev: Event)
    requires ev.PayloadReorder? || ev.PayloadEmpty?
    ensures Count(DrawnEvents(p, i, delta), ev) ==
      One(ev == PayloadEmpty(i) && Empties(p, delta)) + One(ev == PayloadReorder(i) && Reorders(p, delta))
  {
    hide Count;
    var left := Saturate(p.remaining - delta);
    var a := PayloadUpdated(i, p.remaining, left, if left == 0 then Empty else p.status);
    var b := if Empties(p, delta) then [PayloadEmpty(i)] else [];
    var c := if Reorders(p, delta) then [PayloadReorder(i)] else [];
    CountConcat([a] + b, c, ev);
    CountConcat([a], b, ev);
    CountOne(a, ev);
    CountOne(PayloadEmpty(i), ev);
    CountOne(PayloadReorder(i), ev);
  }

  lemma RaisedCount(e: Edge, p: Payload, i: nat, delta: int, uuid: string, ev: Event)
    requires i < |e.payloads| && (ev.PayloadReorder? || ev.PayloadEmpty?)
    ensures Count(Raised(e, p, i, delta, uuid), ev) ==
      One(ev == PayloadEmpty(i) && Empties(p, delta)) + One(ev == PayloadReorder(i) && Reorders(p, delta))
  {
    hide Count, DrawnEvents;
    var d := if Reorders(p, delta) && CanInsertOrder(e, Reorder(e, p, i, uuid))
             then [StatusChanged(|e.orders|, Pending, Submitted), OrderCreated(|e.orders|)] else [];
    CountConcat(DrawnEvents(p, i, delta), d, ev);
    CountAbsent(d, ev);
    DrawnCount(p, i, delta, ev);
  }

  /** One counter delta, seen from row `pid`: it is consumed exactly if it was listed. */
  lemma {:induction false} DeltaRow(e: Edge, listing: seq<Payload>, i: nat, js: nat, delta: int, uuids: seq<string>,
                                    pid: nat)
    requires i <= |listing| == |e.payloads| && pid < |listing|
    requires forall j :: i <= j < |listing| ==> e.payloads[j] == listing[j]
    ensures var f := ConsumeFrom(e, listing, i, js, delta, uuids); var hit := i <= pid && Listed(listing[pid], js);
      && |f.payloads| == |e.payloads|
      && f.payloads[pid] == (if hit then Consumed(listing[pid], delta) else e.payloads[pid])
      && Count(f.events, PayloadReorder(pid)) ==
        Count(e.events, PayloadReorder(pid)) + One(hit && Reorders(listing[pid], delta))
      && Count(f.events, PayloadEmpty(pid)) ==
        Count(e.events, PayloadEmpty(pid)) + One(hit && Empties(listing[pid], delta))
    decreases |listing| - i
  {
    hide Consume, Consumed, Reorders, Empties, Count;
    if i < |listing| {
      if Listed(listing[i], js) {
        ConsumeRow(e, listing[i], i, delta, UuidFor(uuids, i));
        ConsumeCounts(e, listing[i], i, delta, UuidFor(uuids, i), pid);
        DeltaRow(Consume(e, listing[i], i, delta, UuidFor(uuids, i)), listing, i + 1, js, delta, uuids, pid);
      } else {
        DeltaRow(e, listing, i + 1, js, delta, uuids, pid);
      }
    }
  }

  /** Counter deltas of one job style, all positive. */
  predicate Deltas(acts: seq<Action>, js: nat) {
    forall i :: 0 <= i < |acts| ==> acts[i].ACounterDelta? && acts[i].jobStyle == js && acts[i].delta > 0
  }

  function Total(acts: seq<Action>): int
    decreases |acts|
  {
    if acts == [] then 0 else (if acts[0].ACounterDelta? then acts[0].delta else 0) + Total(acts[1..])
  }

  /** Rows consumption leaves in a regular state: active, being replenished, or run dry. */
  predicate Regular(p: Payload, js: nat) {
    p.jobStyle == js && p.remaining >= 0
    && (p.status == Active || p.status == Replenishing || (p.status == Empty && p.remaining == 0))
  }

  /** However the total is split over deltas, the row and the event counts depend on the total alone. */
  lemma {:induction false} BatchingIndependence(e: Edge, acts: seq<Action>, js: nat, pid: nat)
    requires js != 0 && Deltas(acts, js) && pid < |e.payloads| && Regular(e.payloads[pid], js)
    ensures var p, f, sum := e.payloads[pid], Run(e, acts), Total(acts);
      && sum >= 0 && |f.payloads| == |e.payloads|
      && f.payloads[pid].remaining == Saturate(p.remaining - sum)
      && Count(f.events, PayloadReorder(pid)) == Count(e.events, PayloadReorder(pid))
           + One(p.status == Active && p.autoReorder && p.remaining > p.reorderPoint
             && Saturate(p.remaining - sum) <= p.reorderPoint)
      && Count(f.events, PayloadEmpty(pid)) ==
        Count(e.events, PayloadEmpty(pid)) + One(p.remaining > 0 && sum >= p.remaining)
    decreases |acts|
  {
    if acts != [] {
      var a := acts[0];
      DeltaRow(e, e.payloads, 0, js, a.delta, a.uuids, pid);
      assert forall i :: 0 <= i < |acts| - 1 ==> acts[1..][i] == acts[i + 1];
      BatchingIndependence(Step(e, a), acts[1..], js, pid);
    }
  }

  // ---------- the final status ----------

  /** The row can still reorder: it is active, reorders by itself and stands above its reorder point. */
  predicate Armed(p: Payload) { p.status == Active && p.autoReorder && p.remaining > p.reorderPoint }

  /** Where a total, the last delta of which is `last`, leaves the status. */
  function StatusAfter(p: Payload, total: int, last: int): PayloadStatus {
    if total < p.remaining then
      if Armed(p) && p.reorderPoint >= p.remaining - total then Replenishing else p.status
    else if Armed(p) && p.reorderPoint >= 0 && p.remaining - (total - last) > p.reorderPoint then Replenishing
    else Empty
  }

  function LastDelta(acts: seq<Action>): int {
    if acts != [] && acts[|acts| - 1].ACounterDelta? then acts[|acts| - 1].delta else 0
  }

  /** The status a run of deltas ends in, for every regular row: the total decides unless it uses the row up. */
  lemma {:induction false} StatusExact(e: Edge, acts: seq<Action>, js: nat, pid: nat)
    requires js != 0 && acts != [] && Deltas(acts, js) && pid < |e.payloads| && Regular(e.payloads[pid], js)
    ensures |Run(e, acts).payloads| == |e.payloads|
    ensures Run(e, acts).payloads[pid].status == StatusAfter(e.payloads[pid], Total(acts), LastDelta(acts))
    decreases |acts|
  {
    var a, rest := acts[0], acts[1..];
    DeltaRow(e, e.payloads, 0, js, a.delta, a.uuids, pid);
    if rest == [] {
      assert Run(e, acts) == Step(e, a);
    } else {
      assert forall i :: 0 <= i < |rest| ==> rest[i] == acts[i + 1];
      TotalPositive(rest, js);
      StatusExact(Step(e, a), rest, js, pid);
    }
  }

  lemma {:induction false} TotalPositive(acts: seq<Action>, js: nat)
    requires Deltas(acts, js)
    ensures Total(acts) >= LastDelta(acts) >= 0 && (acts != [] ==> LastDelta(acts) > 0)
    decreases |acts|
  {
    if acts != [] {
      assert forall i :: 0 <= i < |acts| - 1 ==> acts[1..][i] == acts[i + 1];
      TotalPositive(acts[1..], js);
    }
  }

  /** A non-empty sequence of positive deltas adding up to `total`. */
  predicate Splits(acts: seq<Action>, js: nat, total: int) { acts != [] && Deltas(acts, js) && Total(acts) == total }

  /** The total uses up a row that could still reorder before it runs dry. */
  predicate Contested(p: Payload, total: int) { Armed(p) && p.reorderPoint >= 0 && total >= p.remaining }

  /** The reorder point is crossed only by the last delta. */
  predicate CrossesLast(p: Payload, acts: seq<Action>) {
    p.remaining - (Total(acts) - LastDelta(acts)) > p.reorderPoint
  }

  ghost predicate SameStatus(e: Edge, a: seq<Action>, b: seq<Action>, pid: nat) {
    && pid < |Run(e, a).payloads| && pid < |Run(e, b).payloads|
    && Run(e, a).payloads[pid].status == Run(e, b).payloads[pid].status
  }

  /** Two splits of one total end in the same status exactly when the row is not contested or both cross alike. */
  lemma SameStatusIff(e: Edge, a: seq<Action>, b: seq<Action>, js: nat, total: int, pid: nat)
    requires js != 0 && Splits(a, js, total) && Splits(b, js, total)
    requires pid < |e.payloads| && Regular(e.payloads[pid], js)
    ensures var p := e.payloads[pid];
      SameStatus(e, a, b, pid) <==> (Contested(p, total) ==> (CrossesLast(p, a) <==> CrossesLast(p, b)))
  {
    StatusExact(e, a, js, pid);
    StatusExact(e, b, js, pid);
  }

  function AtOnce(js: nat, total: int): seq<Action> { [ACounterDelta(js, total, [])] }

  function OneLast(js: nat, total: int): seq<Action> { [ACounterDelta(js, total - 1, []), ACounterDelta(js, 1, [])] }

  /**
   The status is the same for every split of a total exactly unless the row is contested and a split can
   cross its reorder point before the last unit.
   */
  lemma StatusSplitIff(e: Edge, js: nat, total: int, pid: nat)
    requires js != 0 && total > 0 && pid < |e.payloads| && Regular(e.payloads[pid], js)
    ensures var p := e.payloads[pid];
      (forall a, b :: Splits(a, js, total) && Splits(b, js, total) ==> SameStatus(e, a, b, pid))
        <==> !(Contested(p, total) && total > p.remaining - p.reorderPoint)
  {
    var p := e.payloads[pid];
    if Contested(p, total) && total > p.remaining - p.reorderPoint {
      var a, b := AtOnce(js, total), OneLast(js, total);
      assert Total(a) == total + Total(a[1..]);
      assert Total(b) == total - 1 + Total(b[1..]) && b[1..] == [b[1]] && Total(b[1..]) == 1 + Total(b[1..][1..]);
      assert Splits(a, js, total) && Splits(b, js, total);
      SameStatusIff(e, a, b, js, total, pid);
    } else {
      forall a, b | Splits(a, js, total) && Splits(b, js, total) ensures SameStatus(e, a, b, pid) {
        SameStatusIff(e, a, b, js, total, pid);
        TotalPositive(a, js);
        TotalPositive(b, js);
      }
    }
  }

  /** A concrete pair of runs: ten units at once leave the row replenishing, in two halves empty. */
  lemma StatusDependsOnBatching()
    ensures var e := Edge("s", false, [SlotRow(10, Active)], [], [], [], []);
      var once, halves := [ACounterDelta(1, 10, ["a"])], [ACounterDelta(1, 5, ["a"]), ACounterDelta(1, 5, ["b"])];
      && Init(e) && |Run(e, once).payloads| == |Run(e, halves).payloads| == 1
      && Run(e, once).payloads[0].status == Replenishing && Run(e, halves).payloads[0].status == Empty
  {
    var e := Edge("s", false, [SlotRow(10, Active)], [], [], [], []);
    var once, halves := [ACounterDelta(1, 10, ["a"])], [ACounterDelta(1, 5, ["a"]), ACounterDelta(1, 5, ["b"])];
    assert Total(once) == 10 + Total(once[1..]);
    assert Total(halves) == 5 + Total(halves[1..]) && Total(halves[1..]) == 5 + Total(halves[1..][1..]);
    StatusExact(e, once, 1, 0);
    StatusExact(e, halves, 1, 0);
  }

  // ---------- why manual retrieves are excluded ----------

  function SlotRow(remaining: int, status: PayloadStatus): Payload {
    Payload(1, "L1", "", "bin", 10, remaining, 5, 1, true, status, "bin", true)
  }

  function Manual(): Action { ACreateRetrieve("m", Some(0), true, 1.0, "L1", "", "standard", false) }

  /**
   A concrete run that ends with two live reorder-created orders for payload 0: the operator creates a
   retrieve by hand, the counter crosses the reorder point, the manual order is aborted (which refills
   the row), and the counter crosses the point again.
   */
  lemma ManualRetrieveBreaksTheBound()
    ensures var e := Edge("s", false, [SlotRow(10, Active)], [], [], [], []);
      var acts := [Manual(), ACounterDelta(1, 5, ["a"]), AAbort(0), ACounterDelta(1, 5, ["b"])];
      Init(e) && |Run(e, acts).orders| == 3 && Live(Run(e, acts).orders[1], 0) && Live(Run(e, acts).orders[2], 0)
  {
    hide Step;
    var e := Edge("s", false, [SlotRow(10, Active)], [], [], [], []);
    var acts := [Manual(), ACounterDelta(1, 5, ["a"]), AAbort(0), ACounterDelta(1, 5, ["b"])];
    var e1 := ManualCreates(e);
    var e2 := DeltaOnSlot(e1, "a", Active);
    var e3 := AbortRefills(e2);
    var e4 := DeltaOnSlot(e3, "b", Active);
    Unroll4(e, acts);
  }

  lemma ManualCreates(e: Edge) returns (f: Edge)
    requires e.payloads == [SlotRow(10, Active)] && e.orders == []
    ensures f == Step(e, Manual()) && f.payloads == e.payloads
    ensures |f.orders| == 1 && f.orders[0].uuid == "m" && Live(f.orders[0], 0) && f.orders[0].status == Submitted
  {
    f := Step(e, Manual());
  }

  lemma AbortRefills(e: Edge) returns (f: Edge)
    requires |e.payloads| == 1 && e.payloads == [SlotRow(5, Replenishing)]
    requires |e.orders| == 2 && Live(e.orders[0], 0) && e.orders[0].status == Submitted
    ensures f == Step(e, AAbort(0)) && f.payloads == [SlotRow(10, Active)]
    ensures |f.orders| == 2 && f.orders[0].uuid == e.orders[0].uuid && f.orders[1] == e.orders[1]
  {
    f := Step(e, AAbort(0));
    TransitionPayload(e, 0, Cancelled, 0);
    assert f.payloads == Transition(e, 0, Cancelled).payloads;
    assert Transition(e, 0, Cancelled).payloads[0] == SlotRow(10, Active);
  }

  /** One delta of 5 on the example's only slot, when the drawn UUID is new: one more submitted order. */
  lemma DeltaOnSlot(e: Edge, uuid: string, s: PayloadStatus) returns (f: Edge)
    requires e.payloads == [SlotRow(10, s)] && s == Active && !UuidTaken(e, uuid)
    ensures f == Step(e, ACounterDelta(1, 5, [uuid])) && f.payloads == [SlotRow(5, Replenishing)]
    ensures f.orders == e.orders + [Reorder(e, SlotRow(10, s), 0, uuid).(status := Submitted)]
  {
    f := Step(e, ACounterDelta(1, 5, [uuid]));
    var c := Consume(e, SlotRow(10, s), 0, 5, uuid);
    assert f == ConsumeFrom(c, e.payloads, 1, 1, 5, [uuid]) == c;
    ConsumeRow(e, SlotRow(10, s), 0, 5, uuid);
    ConsumeIsDrawnThenOrdered(e, SlotRow(10, s), 0, 5, uuid);
  }

  lemma Unroll4(e: Edge, acts: seq<Action>)
    requires |acts| == 4
    ensures Run(e, acts) == Step(Step(Step(Step(e, acts[0]), acts[1]), acts[2]), acts[3])
  {
    var e1 := Step(e, acts[0]);
    var e2 := Step(e1, acts[1]);
    var e3 := Step(e2, acts[2]);
    assert Run(e, acts) == Run(e1, acts[1..]);
    assert Run(e1, acts[1..]) == Run(e2, acts[1..][1..]);
    assert Run(e2, acts[1..][1..]) == Run(e3, acts[1..][1..][1..]);
    assert Run(e3, acts[1..][1..][1..]) == Run(Step(e3, acts[3]), []);
  }
}
