/**
 What the order manager answers, message by message and operation by operation, in every state a run of the
 edge can reach: which orders move, where to, and what is recorded and sent.
 */
module EdgeAnswers {
  import opened Protocol
  import opened EdgeOrders
  import opened EdgeLifecycle

  /** The statuses from which an order can still move. */
  predicate Live(s: Status) {
    s == Pending || s == Submitted || s == Acknowledged || s == InTransit || s == Delivered
  }

  predicate Closed(s: Status) { s == Confirmed || s == Failed || s == Cancelled }

  /** The table holds the steps of the full chain, and from each of its starting points the ways to fail and cancel. */
  lemma TransitionTable(from: Status, to: Status)
    ensures IsValidTransition(from, to) <==>
      Live(from) && (to == Failed || to == Cancelled || Hop(0, from, to) in FullChain(0))
  {
    var chain := FullChain(0);
    assert chain[0] in chain && chain[1] in chain && chain[2] in chain && chain[3] in chain && chain[4] in chain;
  }

  /** An edge order is never in one of core's own statuses. */
  lemma StatusReached(e: Edge, acts: seq<Action>, oid: nat)
    requires Init(e) && oid < |Run(e, acts).orders|
    ensures Live(Run(e, acts).orders[oid].status) || Closed(Run(e, acts).orders[oid].status)
  {
    InitHolds(e);
    RunKeeps(e, acts);
    ChainOf(Run(e, acts), oid);
  }

  // ---------- one order moves ----------

  /** The payload a retrieve order closes with: full, active and described. */
  function Refill(payloads: seq<Payload>, o: Order): seq<Payload> {
    if o.orderType == Retrieve && o.payloadId.Some? && o.payloadId.value < |payloads| then
      var p := payloads[o.payloadId.value];
      var full := p.(remaining := p.productionUnits, status := Active, hasDescription := p.description);
      payloads[o.payloadId.value := full]
    else payloads
  }

  function Announced(e: Edge, oid: nat, to: Status): seq<Event>
    requires oid < |e.orders|
  {
    var o := e.orders[oid];
    [StatusChanged(oid, o.status, to)]
    + (if Closed(to) then [OrderCompleted(oid)] else [])
    + (if Closed(to) && o.orderType == Retrieve && o.payloadId.Some? && o.payloadId.value < |e.payloads| then
         var p := e.payloads[o.payloadId.value];
         [PayloadUpdated(o.payloadId.value, p.remaining, p.productionUnits, Active)]
       else [])
    + (if to == Failed then [OrderFailed(oid)] else [])
  }

  /** Order `oid` alone goes to `to`: its row, one history entry, the announcements, and the refill when it closes. */
  predicate Moved(e: Edge, f: Edge, oid: nat, to: Status)
    requires oid < |e.orders|
  {
    && f.orders == e.orders[oid := e.orders[oid].(status := to)]
    && f.history == e.history + [Hop(oid, e.orders[oid].status, to)]
    && f.events == e.events + Announced(e, oid, to)
    && f.payloads == (if Closed(to) then Refill(e.payloads, e.orders[oid]) else e.payloads)
    && f.station == e.station && f.autoConfirm == e.autoConfirm
  }

  lemma TransitionMoves(e: Edge, oid: nat, to: Status)
    requires CanTransition(e, oid, to)
    ensures Moved(e, Transition(e, oid, to), oid, to) && Transition(e, oid, to).outbox == e.outbox
  {
  }

  lemma MovedRow(e: Edge, f: Edge, oid: nat, to: Status)
    requires oid < |e.orders| && Moved(e, f, oid, to)
    ensures f.orders == e.orders[oid := e.orders[oid].(status := to)]
  {
  }

  /** What had been sent before does not matter. */
  lemma MovedSaying(e: Edge, box: seq<Envelope>, f: Edge, oid: nat, to: Status)
    requires oid < |e.orders| && Moved(e.(outbox := box), f, oid, to)
    ensures Moved(e, f, oid, to)
  {
  }

  /** What is sent is appended with the next number and the station's name. */
  function Sent(e: Edge, body: EdgeBody): seq<Envelope> { e.outbox + [Envelope(|e.outbox|, e.station, body)] }

  // ---------- replies ----------

  lemma RunReaches(e: Edge, acts: seq<Action>, oid: nat)
    requires Init(e) && oid < |Run(e, acts).orders|
    ensures OrderByUuid(Run(e, acts).orders, Run(e, acts).orders[oid].uuid) == Some(oid)
    ensures Live(Run(e, acts).orders[oid].status) || Closed(Run(e, acts).orders[oid].status)
  {
    InitHolds(e);
    RunKeeps(e, acts);
    StatusReached(e, acts, oid);
  }

  /** Order `oid` of a run's state is the one the reply names. */
  predicate Names(e: Edge, oid: nat, body: CoreBody) { oid < |e.orders| && e.orders[oid].uuid == body.uuid }

  /** The reply moves the order to `to` if `may`, and otherwise is refused without a trace. */
  predicate MovesIf(e: Edge, f: Edge, body: CoreBody, oid: nat, to: Status, may: bool)
    requires oid < |e.orders|
  {
    (Accepts(e, body) <==> may) && (if may then Moved(e, f, oid, to) && f.outbox == e.outbox else f == e)
  }

  /** Acknowledged from submitted only. */
  lemma AckAnswer(e: Edge, acts: seq<Action>, oid: nat, body: CoreBody)
    requires Init(e) && body.Ack? && Names(Run(e, acts), oid, body)
    ensures var r := Run(e, acts);
      MovesIf(r, Step(r, AReply(body)), body, oid, Acknowledged, r.orders[oid].status == Submitted)
  {
    hide Run, Transition, Moved;
    RunReaches(e, acts, oid);
    TransitionTable(Run(e, acts).orders[oid].status, Acknowledged);
    if CanTransition(Run(e, acts), oid, Acknowledged) { TransitionMoves(Run(e, acts), oid, Acknowledged); }
  }

  /** An error fails, and a cancellation cancels, every order that can still move. */
  lemma FailureAnswer(e: Edge, acts: seq<Action>, oid: nat, body: CoreBody)
    requires Init(e) && (body.Error? || body.CancelledNotice?) && Names(Run(e, acts), oid, body)
    ensures var r := Run(e, acts); var to := if body.Error? then Failed else Cancelled;
      MovesIf(r, Step(r, AReply(body)), body, oid, to, Live(r.orders[oid].status))
  {
    hide Run, Transition, Moved;
    var to := if body.Error? then Failed else Cancelled;
    RunReaches(e, acts, oid);
    TransitionTable(Run(e, acts).orders[oid].status, to);
    if CanTransition(Run(e, acts), oid, to) { TransitionMoves(Run(e, acts), oid, to); }
  }

  /** Waybill number and ETA are stored in any case; in transit from acknowledged only. */
  lemma WaybillAnswer(e: Edge, acts: seq<Action>, oid: nat, body: CoreBody)
    requires Init(e) && body.Waybill? && Names(Run(e, acts), oid, body)
    ensures var r := Run(e, acts); var f := Step(r, AReply(body));
      var stored := r.(orders := r.orders[oid := r.orders[oid].(waybillId := Some(body.waybillId), eta := body.eta)]);
      && (Accepts(r, body) <==> r.orders[oid].status == Acknowledged)
      && (if r.orders[oid].status == Acknowledged then Moved(stored, f, oid, InTransit) && f.outbox == r.outbox
          else f == stored)
  {
    hide Run, Transition, Moved;
    var r := Run(e, acts);
    var stored := r.(orders := r.orders[oid := r.orders[oid].(waybillId := Some(body.waybillId), eta := body.eta)]);
    RunReaches(e, acts, oid);
    TransitionTable(r.orders[oid].status, InTransit);
    if CanTransition(stored, oid, InTransit) { TransitionMoves(stored, oid, InTransit); }
  }

  /** An update stores a new ETA and does nothing else; the status it carries is not looked at. */
  lemma UpdateAnswer(e: Edge, acts: seq<Action>, oid: nat, body: CoreBody)
    requires Init(e) && body.Update? && Names(Run(e, acts), oid, body)
    ensures var r := Run(e, acts); var f := Step(r, AReply(body)); var o := r.orders[oid];
      Accepts(r, body) && f == r.(orders := r.orders[oid := o.(eta := if body.eta == "" then o.eta else body.eta)])
  {
    RunReaches(e, acts, oid);
    assert Run(e, acts).orders[oid := Run(e, acts).orders[oid]] == Run(e, acts).orders;
  }

  /** Counted, receipted and confirmed. */
  predicate Confirmed1(e: Edge, f: Edge, oid: nat, count: real)
    requires oid < |e.orders|
  {
    var counted := e.(orders := e.orders[oid := e.orders[oid].(finalCount := Some(count), countConfirmed := true)]);
    Moved(counted, f, oid, Confirmed) && f.outbox == Sent(e, Receipt(e.orders[oid].uuid, count))
  }

  lemma ConfirmMoves(e: Edge, oid: nat, count: real)
    requires oid < |e.orders|
    ensures if e.orders[oid].status == Delivered then Confirmed1(e, Confirm(e, oid, count), oid, count)
      else Confirm(e, oid, count) == e
  {
    hide Transition, Moved;
    if e.orders[oid].status == Delivered {
      var e1 := Enqueue(SetCount(e, oid, count), Receipt(e.orders[oid].uuid, count));
      TransitionTable(Delivered, Confirmed);
      assert Hop(0, Delivered, Confirmed) == FullChain(0)[4];
      TransitionMoves(e1, oid, Confirmed);
      MovedSaying(SetCount(e, oid, count), e1.outbox, Confirm(e, oid, count), oid, Confirmed);
    }
  }

  /**
   Delivered from in transit only; with automatic confirmation the receipt for the ordered quantity follows
   at once.
   */
  lemma DeliveredAnswer(e: Edge, acts: seq<Action>, oid: nat, body: CoreBody)
    requires Init(e) && body.DeliveredNotice? && Names(Run(e, acts), oid, body)
    ensures var r := Run(e, acts); var f := Step(r, AReply(body)); var o := r.orders[oid];
      && (Accepts(r, body) <==> o.status == InTransit)
      && (o.status != InTransit ==> f == r)
      && (o.status == InTransit && !o.autoConfirm ==> Moved(r, f, oid, Delivered) && f.outbox == r.outbox)
      && (o.status == InTransit && o.autoConfirm ==>
            exists d :: Moved(r, d, oid, Delivered) && d.outbox == r.outbox && Confirmed1(d, f, oid, o.quantity))
  {
    hide Run, Transition, Moved, Confirmed1, Confirm;
    var r := Run(e, acts);
    RunReaches(e, acts, oid);
    TransitionTable(r.orders[oid].status, Delivered);
    if CanTransition(r, oid, Delivered) {
      TransitionMoves(r, oid, Delivered);
      var d := Transition(r, oid, Delivered);
      MovedRow(r, d, oid, Delivered);
      ConfirmMoves(d, oid, r.orders[oid].quantity);
    }
  }

  /** A reply that names no order of the edge is refused without a trace. */
  lemma StrayAnswer(e: Edge, body: CoreBody)
    requires forall oid :: 0 <= oid < |e.orders| ==> e.orders[oid].uuid != body.uuid
    ensures !Accepts(e, body) && Step(e, AReply(body)) == e
  {
  }

  // ---------- what the operator asks for ----------

  /** Submitted from pending only, a store order once it is counted; its waybill carries pickup node and count. */
  lemma SubmitAnswer(e: Edge, acts: seq<Action>, oid: nat)
    requires Init(e) && oid < |Run(e, acts).orders|
    ensures var r := Run(e, acts); var f := Step(r, ASubmit(oid)); var o := r.orders[oid];
      var ready := o.status == Pending && (o.orderType == Store ==> o.countConfirmed);
      && (!ready ==> f == r)
      && (ready ==> Moved(r, f, oid, Submitted))
      && (ready && o.orderType != Store ==> f.outbox == r.outbox)
      && (ready && o.orderType == Store ==>
            exists count :: (o.finalCount == Some(count) || (o.finalCount.None? && count == 0.0))
              && f.outbox == Sent(r, StorageWaybill(o.uuid, Store, o.pickupNode, count)))
  {
    hide Run, Transition;
    var r := Run(e, acts);
    RunReaches(e, acts, oid);
    TransitionTable(r.orders[oid].status, Submitted);
    if CanTransition(r, oid, Submitted) { TransitionMoves(r, oid, Submitted); }
  }

  /** Every order that can still move can be aborted, and core is told. */
  lemma AbortAnswer(e: Edge, acts: seq<Action>, oid: nat)
    requires Init(e) && oid < |Run(e, acts).orders|
    ensures var r := Run(e, acts); var f := Step(r, AAbort(oid)); var o := r.orders[oid];
      if Live(o.status) then Moved(r, f, oid, Cancelled) && f.outbox == Sent(r, Cancel(o.uuid, "aborted by operator"))
      else f == r
  {
    hide Run, Transition;
    var r := Run(e, acts);
    RunReaches(e, acts, oid);
    TransitionTable(r.orders[oid].status, Cancelled);
    if CanTransition(r, oid, Cancelled) { TransitionMoves(r, oid, Cancelled); }
  }

  lemma RedirectAnswer(e: Edge, acts: seq<Action>, oid: nat, node: string)
    requires Init(e) && oid < |Run(e, acts).orders|
    ensures var r := Run(e, acts); var f := Step(r, ARedirect(oid, node)); var o := r.orders[oid];
      if Live(o.status) then
        f == r.(orders := r.orders[oid := o.(deliveryNode := node)], outbox := Sent(r, Redirect(o.uuid, node)))
      else f == r
  {
    hide Run;
    RunReaches(e, acts, oid);
  }

  /** A retrieve or move order as it stands once requested. */
  predicate Ordered(e: Edge, f: Edge, o: Order, delivery: string, pickup: string) {
    var linked := o.payloadId.Some? && o.payloadId.value < |e.payloads|;
    var desc := if linked then e.payloads[o.payloadId.value].description else "";
    && f.orders == e.orders + [o] && f.payloads == e.payloads
    && f.outbox == Sent(e, Request(o.uuid, o.orderType, "", desc, o.quantity, delivery, pickup))
    && f.history == e.history + [Hop(|e.orders|, Pending, Submitted)]
    && f.events == e.events + [StatusChanged(|e.orders|, Pending, Submitted)] + [OrderCreated(|e.orders|)]
  }

  /**
   Refused on a used UUID or a payload that does not exist; otherwise the request goes out with the row's
   own data.
   */
  lemma RetrieveAnswer(e: Edge, a: Action)
    requires a.ACreateRetrieve?
    ensures var f := Step(e, a);
      var taken := exists i :: 0 <= i < |e.orders| && e.orders[i].uuid == a.uuid;
      if taken || (a.payloadId.Some? && a.payloadId.value >= |e.payloads|) then f == e
      else
        Ordered(e, f, Order(a.uuid, Retrieve, Submitted, a.payloadId, a.retrieveEmpty, a.quantity, a.delivery,
          a.staging, "", a.loadType, None, "", None, false, a.autoConfirm), a.delivery, "")
  {
  }

  lemma MoveAnswer(e: Edge, a: Action)
    requires a.ACreateMove?
    ensures var f := Step(e, a);
      var taken := exists i :: 0 <= i < |e.orders| && e.orders[i].uuid == a.uuid;
      if taken || (a.payloadId.Some? && a.payloadId.value >= |e.payloads|) then f == e
      else Ordered(e, f, Order(a.uuid, Move, Submitted, a.payloadId, false, a.quantity, a.delivery, "", a.pickup, "",
        None, "", None, false, false), a.delivery, a.pickup)
  {
  }

  /** A store order stays pending and says nothing to core until it is counted and submitted. */
  lemma StoreAnswer(e: Edge, a: Action)
    requires a.ACreateStore?
    ensures var f := Step(e, a);
      var taken := exists i :: 0 <= i < |e.orders| && e.orders[i].uuid == a.uuid;
      if taken || (a.payloadId.Some? && a.payloadId.value >= |e.payloads|) then f == e
      else
        var o := Order(a.uuid, Store, Pending, a.payloadId, false, a.quantity, "", "", a.pickup, "",
          None, "", None, false, false);
        f == e.(orders := e.orders + [o], events := e.events + [OrderCreated(|e.orders|)])
  {
  }

  lemma CountAnswer(e: Edge, oid: nat, count: real)
    requires oid < |e.orders|
    ensures var f := Step(e, ASetCount(oid, count)); var o := e.orders[oid];
      f == e.(orders := e.orders[oid := o.(finalCount := Some(count), countConfirmed := true)])
    ensures var f := Step(e, AConfirm(oid, count));
      if e.orders[oid].status == Delivered then Confirmed1(e, f, oid, count) else f == e
  {
    ConfirmMoves(e, oid, count);
  }

  /** A changed reorder point or reorder switch is stored in its row and in no other. */
  lemma SettingAnswer(e: Edge, pid: nat, point: int, on: bool)
    requires pid < |e.payloads|
    ensures var p := e.payloads[pid];
      && Step(e, AReorderPoint(pid, point)) == e.(payloads := e.payloads[pid := p.(reorderPoint := point)])
      && Step(e, AAutoReorder(pid, on)) == e.(payloads := e.payloads[pid := p.(autoReorder := on)])
  {
  }

  // ---------- what a counter delta orders ----------

  /** The delta takes an active row from above its reorder point to it or below, the count stopping at zero. */
  predicate Crosses(p: Payload, delta: int) {
    && p.status == Active && p.autoReorder && p.remaining > p.reorderPoint
    && 0 <= p.reorderPoint && p.remaining - delta <= p.reorderPoint
  }

  /** The replenishment of row `pid`, requested and submitted. */
  predicate Replenishes(o: Order, p: Payload, pid: nat, uuid: string, autoConfirm: bool) {
    o == Order(uuid, Retrieve, Submitted, Some(pid), p.retrieveEmpty, p.reorderQty as real, p.location,
      p.stagingNode, "", "standard", None, "", None, false, autoConfirm)
  }

  lemma ReplenishedUuid(o: Order, p: Payload, pid: nat, uuid: string, autoConfirm: bool)
    requires Replenishes(o, p, pid, uuid, autoConfirm)
    ensures o.uuid == uuid
  {
  }

  lemma ConsumeOrders(e: Edge, p: Payload, pid: nat, delta: int, uuid: string)
    requires pid < |e.payloads| && (p.status == Active || p.status == Replenishing)
    ensures var f := Consume(e, p, pid, delta, uuid);
      && |f.payloads| == |e.payloads| && f.autoConfirm == e.autoConfirm
      && (if Crosses(p, delta) && !UuidTaken(e, uuid) then
            |f.orders| == |e.orders| + 1 && f.orders[..|e.orders|] == e.orders
            && Replenishes(f.orders[|e.orders|], p, pid, uuid, e.autoConfirm)
          else f.orders == e.orders)
  {
    ConsumeIsDrawnThenOrdered(e, p, pid, delta, uuid);
    DrawnEffect(e, p, pid, delta);
    var d := Drawn(e, p, pid, delta);
    assert UuidTaken(d, uuid) <==> UuidTaken(e, uuid);
  }

  /** Some listed row from `i` on crossed and is replenished by the order. */
  ghost predicate Answers(o: Order, listing: seq<Payload>, i: nat, js: nat, delta: int, uuids: seq<string>,
                          autoConfirm: bool)
  {
    exists pid :: i <= pid < |listing| && listing[pid].jobStyle == js && Crosses(listing[pid], delta)
      && Replenishes(o, listing[pid], pid, UuidFor(uuids, pid), autoConfirm)
  }

  /** Every order a delta makes replenishes a row of the style that crossed its reorder point. */
  lemma {:induction false} DeltaOrdersOnly(e: Edge, listing: seq<Payload>, i: nat, js: nat, delta: int,
                                           uuids: seq<string>)
    requires i <= |listing| == |e.payloads|
    ensures var f := ConsumeFrom(e, listing, i, js, delta, uuids);
      && f.autoConfirm == e.autoConfirm && |e.orders| <= |f.orders| && f.orders[..|e.orders|] == e.orders
      && forall k :: |e.orders| <= k < |f.orders| ==> Answers(f.orders[k], listing, i, js, delta, uuids, e.autoConfirm)
    decreases |listing| - i
  {
    hide Consume, Crosses, Replenishes;
    if i < |listing| {
      var uuid := UuidFor(uuids, i);
      var e1 := if Listed(listing[i], js) then Consume(e, listing[i], i, delta, uuid) else e;
      if Listed(listing[i], js) { ConsumeOrders(e, listing[i], i, delta, uuid); }
      DeltaOrdersOnly(e1, listing, i + 1, js, delta, uuids);
      var f := ConsumeFrom(e1, listing, i + 1, js, delta, uuids);
      forall k | |e.orders| <= k < |f.orders|
        ensures Answers(f.orders[k], listing, i, js, delta, uuids, e.autoConfirm) {
        if k < |e1.orders| { assert f.orders[k] == f.orders[..|e1.orders|][k]; }
      }
    }
  }

  /** A fresh UUID for row `pid`, different from those the other rows draw. */
  ghost predicate FreshFor(e: Edge, uuids: seq<string>, pid: nat) {
    !UuidTaken(e, UuidFor(uuids, pid)) && forall j: nat :: j != pid ==> UuidFor(uuids, j) != UuidFor(uuids, pid)
  }

  /** Among the orders made from `e` to `f` is one that replenishes the row. */
  ghost predicate Replenished(e: Edge, f: Edge, p: Payload, pid: nat, uuid: string) {
    exists k :: |e.orders| <= k < |f.orders| && Replenishes(f.orders[k], p, pid, uuid, e.autoConfirm)
  }

  /** Every row of the style that crosses is replenished, when the UUID drawn for it is new. */
  lemma {:induction false} DeltaOrdersAll(e: Edge, listing: seq<Payload>, i: nat, js: nat, delta: int,
                                          uuids: seq<string>, pid: nat)
    requires i <= pid < |listing| == |e.payloads| && FreshFor(e, uuids, pid)
    requires listing[pid].jobStyle == js && Crosses(listing[pid], delta)
    ensures Replenished(e, ConsumeFrom(e, listing, i, js, delta, uuids), listing[pid], pid, UuidFor(uuids, pid))
    decreases |listing| - i
  {
    hide Consume, Replenishes;
    var uuid := UuidFor(uuids, i);
    var e1 := if Listed(listing[i], js) then Consume(e, listing[i], i, delta, uuid) else e;
    if Listed(listing[i], js) { ConsumeOrders(e, listing[i], i, delta, uuid); }
    var f := ConsumeFrom(e1, listing, i + 1, js, delta, uuids);
    assert f == ConsumeFrom(e, listing, i, js, delta, uuids) && e1.autoConfirm == e.autoConfirm;
    if pid == i {
      DeltaOrdersOnly(e1, listing, i + 1, js, delta, uuids);
      assert f.orders[|e.orders|] == f.orders[..|e1.orders|][|e.orders|];
    } else {
      if |e1.orders| > |e.orders| { ReplenishedUuid(e1.orders[|e.orders|], listing[i], i, uuid, e.autoConfirm); }
      DeltaOrdersAll(e1, listing, i + 1, js, delta, uuids, pid);
      assert Replenished(e, f, listing[pid], pid, UuidFor(uuids, pid));
    }
  }

  /**
   A delta of a job style replenishes every row of the style that crosses, in an order with the row's own UUID,
   when that is new and no other row's; a delta without a job style does nothing.
   */
  lemma DeltaAnswer(e: Edge, js: nat, delta: int, uuids: seq<string>, pid: nat)
    requires pid < |e.payloads| && pid < |uuids| && uuids[pid] != ""
    requires forall i :: 0 <= i < |e.orders| ==> e.orders[i].uuid != uuids[pid]
    requires forall j :: 0 <= j < |uuids| && j != pid ==> uuids[j] != uuids[pid]
    ensures var f := Step(e, ACounterDelta(js, delta, uuids)); var p := e.payloads[pid];
      && (js == 0 ==> f == e)
      && (js != 0 && p.jobStyle == js && Crosses(p, delta) ==> Replenished(e, f, p, pid, uuids[pid]))
  {
    hide ConsumeFrom, Replenished, Crosses;
    if js != 0 && e.payloads[pid].jobStyle == js && Crosses(e.payloads[pid], delta) {
      DeltaOrdersAll(e, e.payloads, 0, js, delta, uuids, pid);
    }
  }
}
