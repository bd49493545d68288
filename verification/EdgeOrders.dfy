/**
 The edge node as a state and its steps: the order manager, and the engine wiring that consumes
 payloads on counter deltas, reorders them and resets them when an order completes.
 Order ids are positions in `orders` (rows are never deleted); a payload's id is its position in
 `payloads`, which lists the table by location.
 */
module EdgeOrders {
  import opened Protocol

  datatype PayloadStatus = Active | Replenishing | Empty | OtherStatus(name: string)

  datatype Payload = Payload(
    jobStyle: nat, location: string, stagingNode: string, description: string,
    productionUnits: int, remaining: int, reorderPoint: int, reorderQty: int,
    retrieveEmpty: bool, status: PayloadStatus, hasDescription: string, autoReorder: bool)

  datatype Order = Order(
    uuid: string, orderType: OrderType, status: Status, payloadId: Option<nat>, retrieveEmpty: bool,
    quantity: real, deliveryNode: string, stagingNode: string, pickupNode: string, loadType: string,
    waybillId: Option<VendorId>, eta: string, finalCount: Option<real>, countConfirmed: bool, autoConfirm: bool)

  /** One row of the edge's order history. */
  datatype Hop = Hop(order: nat, from: Status, to: Status)

  datatype Event =
    | OrderCreated(order: nat)
    | StatusChanged(order: nat, from: Status, to: Status)
    | OrderCompleted(order: nat)
    | OrderFailed(order: nat)
    | PayloadUpdated(payload: nat, oldRemaining: int, newRemaining: int, status: PayloadStatus)
    | PayloadEmpty(payload: nat)
    | PayloadReorder(payload: nat)

  datatype Edge = Edge(
    station: string, autoConfirm: bool, payloads: seq<Payload>, orders: seq<Order>,
    history: seq<Hop>, events: seq<Event>, outbox: seq<Envelope>)

  // ---------- transition table ----------

  predicate IsValidTransition(from: Status, to: Status) {
    match from
    case Pending => to == Submitted || to == Cancelled || to == Failed
    case Submitted => to == Acknowledged || to == Cancelled || to == Failed
    case Acknowledged => to == InTransit || to == Cancelled || to == Failed
    case InTransit => to == Delivered || to == Cancelled || to == Failed
    case Delivered => to == Confirmed || to == Cancelled || to == Failed
    case _ => false
  }

  // ---------- tables ----------

  function Emit(e: Edge, ev: Event): Edge { e.(events := e.events + [ev]) }

  function Enqueue(e: Edge, body: EdgeBody): Edge {
    e.(outbox := e.outbox + [Envelope(|e.outbox|, e.station, body)])
  }

  function SetOrder(e: Edge, oid: nat, o: Order): Edge
    requires oid < |e.orders|
  {
    e.(orders := e.orders[oid := o])
  }

  function SetPayload(e: Edge, pid: nat, p: Payload): Edge
    requires pid < |e.payloads|
  {
    e.(payloads := e.payloads[pid := p])
  }

  predicate UuidTaken(e: Edge, uuid: string) {
    exists i :: 0 <= i < |e.orders| && e.orders[i].uuid == uuid
  }

  /** Position of the order carrying `uuid`; the column is unique, so at most one does. */
  function OrderByUuid(orders: seq<Order>, uuid: string): (r: Option<nat>)
    ensures r.Some? ==> r.value < |orders| && orders[r.value].uuid == uuid
    ensures r.None? ==> forall i :: 0 <= i < |orders| ==> orders[i].uuid != uuid
  {
    if orders == [] then None
    else if orders[|orders| - 1].uuid == uuid then Some(|orders| - 1)
    else OrderByUuid(orders[..|orders| - 1], uuid)
  }

  /** A row is refused when its UUID is in use or its payload reference dangles. */
  predicate CanInsertOrder(e: Edge, o: Order) {
    !UuidTaken(e, o.uuid) && (o.payloadId.Some? ==> o.payloadId.value < |e.payloads|)
  }

  // ---------- order manager ----------

  predicate CanTransition(e: Edge, oid: nat, to: Status) {
    && oid < |e.orders|
    && IsValidTransition(e.orders[oid].status, to)
    && !(e.orders[oid].orderType == Store && to == Submitted && !e.orders[oid].countConfirmed)
  }

  /** Completion of a retrieve order refills the payload it is linked to. */
  function OnOrderCompleted(e: Edge, oid: nat): Edge
    requires oid < |e.orders|
  {
    var o := e.orders[oid];
    if o.payloadId.None? || o.orderType != Retrieve || o.payloadId.value >= |e.payloads| then e
    else
      var pid := o.payloadId.value;
      var p := e.payloads[pid];
      var e1 := SetPayload(e, pid,
        p.(remaining := p.productionUnits, status := Active, hasDescription := p.description));
      Emit(e1, PayloadUpdated(pid, p.remaining, p.productionUnits, Active))
  }

  function Transition(e: Edge, oid: nat, to: Status): Edge
    requires CanTransition(e, oid, to)
  {
    var from := e.orders[oid].status;
    var e1 := SetOrder(e, oid, e.orders[oid].(status := to));
    var e2 := e1.(history := e1.history + [Hop(oid, from, to)]);
    var e3 := Emit(e2, StatusChanged(oid, from, to));
    if !IsTerminal(to) then e3
    else
      var e4 := OnOrderCompleted(Emit(e3, OrderCompleted(oid)), oid);
      if to == Failed then Emit(e4, OrderFailed(oid)) else e4
  }

  function PayloadDesc(e: Edge, pid: Option<nat>): string {
    if pid.Some? && pid.value < |e.payloads| then e.payloads[pid.value].description else ""
  }

  function NewOrder(uuid: string, t: OrderType, pid: Option<nat>, retrieveEmpty: bool, quantity: real,
                    delivery: string, staging: string, pickup: string, loadType: string, autoConfirm: bool): Order
  {
    Order(uuid, t, Pending, pid, retrieveEmpty, quantity, delivery, staging, pickup, loadType,
          None, "", None, false, autoConfirm)
  }

  /** Retrieve and move orders: insert, enqueue the request, then submit. */
  function CreateAndSubmit(e: Edge, o: Order): Edge
    requires o.status == Pending && (o.orderType == Retrieve || o.orderType == Move)
  {
    if !CanInsertOrder(e, o) then e
    else
      var oid := |e.orders|;
      var e1 := e.(orders := e.orders + [o]);
      var e2 := Enqueue(e1,
        Request(o.uuid, o.orderType, "", PayloadDesc(e, o.payloadId), o.quantity, o.deliveryNode, o.pickupNode));
      Emit(Transition(e2, oid, Submitted), OrderCreated(oid))
  }

  function CreateRetrieve(e: Edge, uuid: string, pid: Option<nat>, retrieveEmpty: bool, quantity: real,
                          delivery: string, staging: string, loadType: string, autoConfirm: bool): Edge
  {
    CreateAndSubmit(e, NewOrder(uuid, Retrieve, pid, retrieveEmpty, quantity, delivery, staging, "", loadType,
      autoConfirm))
  }

  function CreateMove(e: Edge, uuid: string, pid: Option<nat>, quantity: real, pickup: string, delivery: string): Edge {
    CreateAndSubmit(e, NewOrder(uuid, Move, pid, false, quantity, delivery, "", pickup, "", false))
  }

  /** Store orders are inserted only; the waybill goes out when the counted order is submitted. */
  function CreateStore(e: Edge, uuid: string, pid: Option<nat>, quantity: real, pickup: string): Edge {
    var o := NewOrder(uuid, Store, pid, false, quantity, "", "", pickup, "", false);
    if !CanInsertOrder(e, o) then e
    else Emit(e.(orders := e.orders + [o]), OrderCreated(|e.orders|))
  }

  function Submit(e: Edge, oid: nat): Edge {
    if !CanTransition(e, oid, Submitted) then e
    else
      var o := e.orders[oid];
      var e1 := Transition(e, oid, Submitted);
      if o.orderType == Store then
        Enqueue(e1, StorageWaybill(o.uuid, Store, o.pickupNode, if o.finalCount.Some? then o.finalCount.value else 0.0))
      else e1
  }

  const AbortReason: string := "aborted by operator"

  function Abort(e: Edge, oid: nat): Edge {
    if oid >= |e.orders| || IsTerminal(e.orders[oid].status) || !CanTransition(e, oid, Cancelled) then e
    else Enqueue(Transition(e, oid, Cancelled), Cancel(e.orders[oid].uuid, AbortReason))
  }

  function RedirectTo(e: Edge, oid: nat, node: string): Edge {
    if oid >= |e.orders| || IsTerminal(e.orders[oid].status) then e
    else Enqueue(SetOrder(e, oid, e.orders[oid].(deliveryNode := node)), Redirect(e.orders[oid].uuid, node))
  }

  /** The operator's count, entered before a store order is submitted. */
  function SetCount(e: Edge, oid: nat, count: real): Edge {
    if oid >= |e.orders| then e
    else SetOrder(e, oid, e.orders[oid].(finalCount := Some(count), countConfirmed := true))
  }

  function Confirm(e: Edge, oid: nat, count: real): Edge {
    if oid >= |e.orders| || e.orders[oid].status != Delivered then e
    else Transition(Enqueue(SetCount(e, oid, count), Receipt(e.orders[oid].uuid, count)), oid, Confirmed)
  }

  /** The order status a reply asks for. */
  function Target(body: CoreBody): Option<Status> {
    match body
    case Ack(_, _, _) => Some(Acknowledged)
    case Waybill(_, _, _, _) => Some(InTransit)
    case Update(_, _, _) => None
    case DeliveredNotice(_) => Some(Delivered)
    case Error(_, _) => Some(Failed)
    case CancelledNotice(_, _) => Some(Cancelled)
  }

  function Move1(e: Edge, oid: nat, to: Status): Edge {
    if CanTransition(e, oid, to) then Transition(e, oid, to) else e
  }

  /** An inbound reply. Waybill number and ETA are stored even when the transition is refused. */
  function Reply(e: Edge, body: CoreBody): Edge {
    var found := OrderByUuid(e.orders, body.uuid);
    if found.None? then e
    else
      var oid := found.value;
      match body
      case Ack(_, _, _) => Move1(e, oid, Acknowledged)
      case Waybill(_, w, _, eta) =>
        Move1(SetOrder(e, oid, e.orders[oid].(waybillId := Some(w), eta := eta)), oid, InTransit)
      case Update(_, _, eta) =>
        if eta == "" then e else SetOrder(e, oid, e.orders[oid].(eta := eta))
      case DeliveredNotice(_) =>
        if !CanTransition(e, oid, Delivered) then e
        else
          var e1 := Transition(e, oid, Delivered);
          if e.orders[oid].autoConfirm then Confirm(e1, oid, e.orders[oid].quantity) else e1
      case Error(_, _) => Move1(e, oid, Failed)
      case CancelledNotice(_, _) => Move1(e, oid, Cancelled)
  }

  /** The reply was acted on rather than refused with an error. */
  predicate Accepts(e: Edge, body: CoreBody) {
    var found := OrderByUuid(e.orders, body.uuid);
    found.Some? && (Target(body).Some? ==> CanTransition(e, found.value, Target(body).value))
  }

  // ---------- counter deltas ----------

  function Saturate(x: int): int { if x < 0 then 0 else x }

  /** Consumption of one listed row; `p` is the row as it was listed. */
  function Consume(e: Edge, p: Payload, pid: nat, delta: int, uuid: string): Edge
    requires pid < |e.payloads|
  {
    var left := Saturate(p.remaining - delta);
    var status := if left == 0 then Empty else p.status;
    var e1 := SetPayload(e, pid, e.payloads[pid].(remaining := left, status := status));
    var e2 := Emit(e1, PayloadUpdated(pid, p.remaining, left, status));
    var e3 := if left == 0 && p.remaining > 0 then Emit(e2, PayloadEmpty(pid)) else e2;
    if p.autoReorder && p.remaining > p.reorderPoint && left <= p.reorderPoint && p.status != Replenishing then
      var e4 := SetPayload(e3, pid, e3.payloads[pid].(remaining := left, status := Replenishing));
      CreateRetrieve(Emit(e4, PayloadReorder(pid)), uuid, Some(pid), p.retrieveEmpty, p.reorderQty as real,
                     p.location, p.stagingNode, "standard", e.autoConfirm)
    else e3
  }

  predicate Listed(p: Payload, jobStyle: nat) {
    p.jobStyle == jobStyle && (p.status == Active || p.status == Replenishing)
  }

  /** The UUID drawn if row `i` reorders; past the supplied ones it is the empty string. */
  function UuidFor(uuids: seq<string>, i: nat): string { if i < |uuids| then uuids[i] else "" }

  /** Rows `i..` of the listing taken before the loop, in table order. */
  function ConsumeFrom(e: Edge, listing: seq<Payload>, i: nat, jobStyle: nat, delta: int, uuids: seq<string>): Edge
    requires i <= |listing| == |e.payloads|
    decreases |listing| - i
  {
    if i == |listing| then e
    else
      var e1 := if Listed(listing[i], jobStyle) then Consume(e, listing[i], i, delta, UuidFor(uuids, i)) else e;
      ConsumeFrom(e1, listing, i + 1, jobStyle, delta, uuids)
  }

  function CounterDelta(e: Edge, jobStyle: nat, delta: int, uuids: seq<string>): Edge {
    if jobStyle == 0 then e else ConsumeFrom(e, e.payloads, 0, jobStyle, delta, uuids)
  }

  // ---------- steps and runs ----------

  datatype Action =
    | ACreateRetrieve(uuid: string, payloadId: Option<nat>, retrieveEmpty: bool, quantity: real,
                      delivery: string, staging: string, loadType: string, autoConfirm: bool)
    | ACreateMove(uuid: string, payloadId: Option<nat>, quantity: real, pickup: string, delivery: string)
    | ACreateStore(uuid: string, payloadId: Option<nat>, quantity: real, pickup: string)
    | ASubmit(order: nat)
    | AAbort(order: nat)
    | ARedirect(order: nat, delivery: string)
    | ASetCount(order: nat, count: real)
    | AConfirm(order: nat, count: real)
    | AReply(body: CoreBody)
    | ACounterDelta(jobStyle: nat, delta: int, uuids: seq<string>)
    | AReorderPoint(payload: nat, reorderPoint: int)
    | AAutoReorder(payload: nat, enabled: bool)

  function Step(e: Edge, a: Action): Edge {
    match a
    case ACreateRetrieve(uuid, pid, re, q, d, s, lt, ac) => CreateRetrieve(e, uuid, pid, re, q, d, s, lt, ac)
    case ACreateMove(uuid, pid, q, pickup, d) => CreateMove(e, uuid, pid, q, pickup, d)
    case ACreateStore(uuid, pid, q, pickup) => CreateStore(e, uuid, pid, q, pickup)
    case ASubmit(o) => Submit(e, o)
    case AAbort(o) => Abort(e, o)
    case ARedirect(o, d) => RedirectTo(e, o, d)
    case ASetCount(o, c) => SetCount(e, o, c)
    case AConfirm(o, c) => Confirm(e, o, c)
    case AReply(b) => Reply(e, b)
    case ACounterDelta(js, d, uuids) => CounterDelta(e, js, d, uuids)
    case AReorderPoint(p, rp) =>
      if p < |e.payloads| then SetPayload(e, p, e.payloads[p].(reorderPoint := rp)) else e
    case AAutoReorder(p, b) =>
      if p < |e.payloads| then SetPayload(e, p, e.payloads[p].(autoReorder := b)) else e
  }

  function Run(e: Edge, acts: seq<Action>): Edge
    decreases |acts|
  {
    if acts == [] then e else Run(Step(e, acts[0]), acts[1..])
  }

  /** A freshly installed edge: any payload table, nothing ordered yet. */
  predicate Init(e: Edge) {
    e.orders == [] && e.history == [] && e.events == [] && e.outbox == []
  }
}
