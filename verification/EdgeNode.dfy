/**
 The edge node's tables as an object: the order manager's and the engine's methods, each tied to the step
 functions of EdgeOrders.
 */
module EdgeNode {
  import opened Protocol
  import opened EdgeOrders

  class Node {
    const station: string
    const autoConfirm: bool
    var payloads: seq<Payload>
    var orders: seq<Order>
    var history: seq<Hop>
    var events: seq<Event>
    var outbox: seq<Envelope>

    ghost function State(): Edge
      reads this
    {
      Edge(station, autoConfirm, payloads, orders, history, events, outbox)
    }

    constructor (station: string, autoConfirm: bool, payloads: seq<Payload>)
      ensures Init(State()) && State().payloads == payloads && State().station == station
    {
      this.station, this.autoConfirm, this.payloads := station, autoConfirm, payloads;
      orders, history, events, outbox := [], [], [], [];
    }

    // ---------- tables ----------

    method FindByUuid(uuid: string) returns (r: Option<nat>)
      ensures r == OrderByUuid(orders, uuid)
    {
      var i := |orders|;
      assert orders[..i] == orders;
      while i > 0
        invariant 0 <= i <= |orders|
        invariant OrderByUuid(orders, uuid) == OrderByUuid(orders[..i], uuid)
      {
        assert orders[..i][..i - 1] == orders[..i - 1];
        if orders[i - 1].uuid == uuid { return Some(i - 1); }
        i := i - 1;
      }
      return None;
    }

    method InsertOrder(o: Order) returns (ok: bool)
      modifies this`orders
      ensures ok == CanInsertOrder(old(State()), o)
      ensures orders == if ok then old(orders) + [o] else old(orders)
    {
      var found := FindByUuid(o.uuid);
      ok := found.None? && (o.payloadId.Some? ==> o.payloadId.value < |payloads|);
      if ok { orders := orders + [o]; }
    }

    method EmitEvent(ev: Event)
      modifies this`events
      ensures State() == Emit(old(State()), ev)
    {
      events := events + [ev];
    }

    method EnqueueEnvelope(body: EdgeBody)
      modifies this`outbox
      ensures State() == Enqueue(old(State()), body)
    {
      outbox := outbox + [Envelope(|outbox|, station, body)];
    }

    method UpdateOrder(oid: nat, o: Order)
      requires oid < |orders|
      modifies this`orders
      ensures State() == SetOrder(old(State()), oid, o)
    {
      orders := orders[oid := o];
    }

    method UpdatePayload(pid: nat, p: Payload)
      requires pid < |payloads|
      modifies this`payloads
      ensures State() == SetPayload(old(State()), pid, p)
    {
      payloads := payloads[pid := p];
    }

    // ---------- order manager ----------

    method TransitionOrder(oid: nat, to: Status) returns (ok: bool)
      modifies this
      ensures ok == CanTransition(old(State()), oid, to)
      ensures State() == Move1(old(State()), oid, to)
    {
      if oid >= |orders| { return false; }
      var order := orders[oid];
      if !IsValidTransition(order.status, to) { return false; }
      if order.orderType == Store && to == Submitted && !order.countConfirmed { return false; }
      UpdateOrder(oid, order.(status := to));
      history := history + [Hop(oid, order.status, to)];
      EmitEvent(StatusChanged(oid, order.status, to));
      if IsTerminal(to) {
        EmitEvent(OrderCompleted(oid));
        HandleOrderCompleted(oid);
        if to == Failed { EmitEvent(OrderFailed(oid)); }
      }
      ok := true;
    }

    method HandleOrderCompleted(oid: nat)
      requires oid < |orders|
      modifies this`payloads, this`events
      ensures State() == OnOrderCompleted(old(State()), oid)
    {
      var order := orders[oid];
      if order.payloadId.None? || order.orderType != Retrieve { return; }
      var pid := order.payloadId.value;
      if pid >= |payloads| { return; }
      var p := payloads[pid];
      UpdatePayload(pid, p.(remaining := p.productionUnits, status := Active));
      UpdatePayload(pid, payloads[pid].(hasDescription := p.description));
      EmitEvent(PayloadUpdated(pid, p.remaining, p.productionUnits, Active));
    }

    method CreateRetrieveOrder(uuid: string, pid: Option<nat>, retrieveEmpty: bool, quantity: real,
                               delivery: string, staging: string, loadType: string, confirm: bool) returns (ok: bool)
      modifies this
      ensures State() ==
        CreateRetrieve(old(State()), uuid, pid, retrieveEmpty, quantity, delivery, staging, loadType, confirm)
      ensures var o := NewOrder(uuid, Retrieve, pid, retrieveEmpty, quantity, delivery, staging, "", loadType, confirm);
        ok == CanInsertOrder(old(State()), o) && ok == (|orders| > |old(orders)|)
    {
      var o := NewOrder(uuid, Retrieve, pid, retrieveEmpty, quantity, delivery, staging, "", loadType, confirm);
      ok := CreateRequested(o);
    }

    method CreateMoveOrder(uuid: string, pid: Option<nat>, quantity: real, pickup: string,
                           delivery: string) returns (ok: bool)
      modifies this
      ensures State() == CreateMove(old(State()), uuid, pid, quantity, pickup, delivery)
      ensures ok == CanInsertOrder(old(State()),
        NewOrder(uuid, Move, pid, false, quantity, delivery, "", pickup, "", false))
    {
      ok := CreateRequested(NewOrder(uuid, Move, pid, false, quantity, delivery, "", pickup, "", false));
    }

    method CreateRequested(o: Order) returns (ok: bool)
      requires o.status == Pending && (o.orderType == Retrieve || o.orderType == Move)
      modifies this
      ensures State() == CreateAndSubmit(old(State()), o)
      ensures ok == CanInsertOrder(old(State()), o) && ok == (|orders| > |old(orders)|)
    {
      ok := InsertOrder(o);
      if !ok { return; }
      var oid := |orders| - 1;
      var known := o.payloadId.Some? && o.payloadId.value < |payloads|;
      var desc := if known then payloads[o.payloadId.value].description else "";
      EnqueueEnvelope(Request(o.uuid, o.orderType, "", desc, o.quantity, o.deliveryNode, o.pickupNode));
      var submitted := TransitionOrder(oid, Submitted);
      EmitEvent(OrderCreated(oid));
    }

    method CreateStoreOrder(uuid: string, pid: Option<nat>, quantity: real, pickup: string) returns (ok: bool)
      modifies this
      ensures State() == CreateStore(old(State()), uuid, pid, quantity, pickup)
      ensures ok == CanInsertOrder(old(State()), NewOrder(uuid, Store, pid, false, quantity, "", "", pickup, "", false))
    {
      ok := InsertOrder(NewOrder(uuid, Store, pid, false, quantity, "", "", pickup, "", false));
      if ok { EmitEvent(OrderCreated(|orders| - 1)); }
    }

    method SubmitOrder(oid: nat) returns (ok: bool)
      modifies this
      ensures ok == CanTransition(old(State()), oid, Submitted) && State() == Submit(old(State()), oid)
    {
      if oid >= |orders| { return false; }
      var order := orders[oid];
      ok := TransitionOrder(oid, Submitted);
      if ok && order.orderType == Store {
        var finalCount := if order.finalCount.Some? then order.finalCount.value else 0.0;
        EnqueueEnvelope(StorageWaybill(order.uuid, Store, order.pickupNode, finalCount));
      }
    }

    method AbortOrder(oid: nat) returns (ok: bool)
      modifies this
      ensures ok == (CanTransition(old(State()), oid, Cancelled) && !IsTerminal(old(orders)[oid].status))
      ensures State() == Abort(old(State()), oid)
    {
      if oid >= |orders| || IsTerminal(orders[oid].status) { return false; }
      var order := orders[oid];
      ok := TransitionOrder(oid, Cancelled);
      if ok { EnqueueEnvelope(Cancel(order.uuid, AbortReason)); }
    }

    method RedirectOrder(oid: nat, delivery: string) returns (ok: bool)
      modifies this
      ensures ok <==> oid < |old(orders)| && !IsTerminal(old(orders)[oid].status)
      ensures State() == RedirectTo(old(State()), oid, delivery)
    {
      if oid >= |orders| || IsTerminal(orders[oid].status) { return false; }
      var order := orders[oid];
      UpdateOrder(oid, order.(deliveryNode := delivery));
      EnqueueEnvelope(Redirect(order.uuid, delivery));
      ok := true;
    }

    method UpdateOrderFinalCount(oid: nat, count: real)
      modifies this`orders
      ensures State() == SetCount(old(State()), oid, count)
    {
      if oid < |orders| { UpdateOrder(oid, orders[oid].(finalCount := Some(count), countConfirmed := true)); }
    }

    method ConfirmDelivery(oid: nat, count: real) returns (ok: bool)
      modifies this
      ensures State() == Confirm(old(State()), oid, count)
      ensures ok <==> oid < |old(orders)| && old(orders)[oid].status == Delivered
    {
      if oid >= |orders| || orders[oid].status != Delivered { return false; }
      var order := orders[oid];
      UpdateOrderFinalCount(oid, count);
      EnqueueEnvelope(Receipt(order.uuid, count));
      ok := TransitionOrder(oid, Confirmed);
    }

    /** The result says whether the reply was acted on; a refused one is reported as an error. */
    method HandleDispatchReply(body: CoreBody) returns (ok: bool)
      modifies this
      ensures State() == Reply(old(State()), body)
      ensures ok == Accepts(old(State()), body)
    {
      var found := FindByUuid(body.uuid);
      if found.None? { return false; }
      var oid := found.value;
      var order := orders[oid];
      match body
      case Ack(_, _, _) => ok := TransitionOrder(oid, Acknowledged);
      case Waybill(_, w, _, eta) =>
        UpdateOrder(oid, order.(waybillId := Some(w), eta := eta));
        ok := TransitionOrder(oid, InTransit);
      case Update(_, _, eta) =>
        if eta != "" { UpdateOrder(oid, order.(eta := eta)); }
        ok := true;
      case DeliveredNotice(_) => ok := HandleDelivered(oid);
      case Error(_, _) => ok := TransitionOrder(oid, Failed);
      case CancelledNotice(_, _) => ok := TransitionOrder(oid, Cancelled);
    }

    /** A delivered reply, confirmed at once when the order asks for it. */
    method HandleDelivered(oid: nat) returns (ok: bool)
      requires oid < |orders|
      modifies this
      ensures ok == CanTransition(old(State()), oid, Delivered)
      ensures State() ==
        if !CanTransition(old(State()), oid, Delivered) then old(State())
        else if old(orders)[oid].autoConfirm then
          Confirm(Transition(old(State()), oid, Delivered), oid, old(orders)[oid].quantity)
        else Transition(old(State()), oid, Delivered)
    {
      var order := orders[oid];
      ok := TransitionOrder(oid, Delivered);
      if ok && order.autoConfirm { ok := ConfirmDelivery(oid, order.quantity); }
    }

    // ---------- counter deltas ----------

    method HandleCounterDelta(jobStyle: nat, delta: int, uuids: seq<string>)
      modifies this
      ensures State() == CounterDelta(old(State()), jobStyle, delta, uuids)
    {
      if jobStyle == 0 { return; }
      var listing := payloads;
      var i := 0;
      while i < |listing|
        invariant 0 <= i <= |listing| == |payloads|
        invariant ConsumeFrom(old(State()), listing, 0, jobStyle, delta, uuids) ==
          ConsumeFrom(State(), listing, i, jobStyle, delta, uuids)
      {
        if Listed(listing[i], jobStyle) {
          ConsumePayload(listing[i], i, delta, UuidFor(uuids, i));
        }
        i := i + 1;
      }
    }

    method ConsumePayload(p: Payload, pid: nat, delta: int, uuid: string)
      requires pid < |payloads|
      modifies this
      ensures State() == Consume(old(State()), p, pid, delta, uuid)
      ensures |payloads| == |old(payloads)|
    {
      var left := p.remaining - delta;
      if left < 0 { left := 0; }
      var status := p.status;
      if left == 0 { status := Empty; }
      UpdatePayload(pid, payloads[pid].(remaining := left, status := status));
      EmitEvent(PayloadUpdated(pid, p.remaining, left, status));
      if left == 0 && p.remaining > 0 { EmitEvent(PayloadEmpty(pid)); }
      if p.autoReorder && p.remaining > p.reorderPoint && left <= p.reorderPoint && p.status != Replenishing {
        UpdatePayload(pid, payloads[pid].(remaining := left, status := Replenishing));
        EmitEvent(PayloadReorder(pid));
        HandlePayloadReorder(p, pid, uuid);
      }
    }

    method HandlePayloadReorder(p: Payload, pid: nat, uuid: string)
      modifies this
      ensures State() == CreateRetrieve(old(State()), uuid, Some(pid), p.retrieveEmpty, p.reorderQty as real,
                                        p.location, p.stagingNode, "standard", autoConfirm)
      ensures payloads == old(payloads)
    {
      var ok := CreateRetrieveOrder(uuid, Some(pid), p.retrieveEmpty, p.reorderQty as real,
                                    p.location, p.stagingNode, "standard", autoConfirm);
    }
  }
}
