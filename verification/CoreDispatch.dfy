/** Core's order handlers: the dispatcher, the engine's fleet-report and completion handlers, and runs of them. */
module CoreDispatch {
  import opened Protocol
  import opened CoreTables
  import opened CoreState

  /** What the fleet answers to a transport order; the tag is the random part of the vendor id. */
  datatype FleetReply = Accepted(tag: string) | Rejected

  /** What a handler gets from its environment: the row each query returns and the fleet's answer. */
  datatype Choice = Choice(source: Option<nat>, destination: Option<Node>, fleet: FleetReply)

  function MapState(s: FleetState): Status {
    match s
    case FRunning => InTransit
    case FFinished => Delivered
    case FFailed => Failed
    case FStopped => Cancelled
    case _ => Dispatched
  }

  predicate IsTerminalState(s: FleetState) { s == FFinished || s == FFailed || s == FStopped }

  // ---------- replies and failure ----------

  function SendError(c: Core, env: Envelope, code: string): Core {
    Send(c, CoreMsg(env.src, Some(env.id), Error(env.body.uuid, code)))
  }

  function UnclaimOrder(c: Core, oid: nat): Core { c.(payloads := UnclaimAll(c.payloads, ClaimedIds(c.payloads, oid))) }

  function Fail(c: Core, oid: nat, env: Envelope, code: string): Core
    requires oid < |c.orders|
  {
    var c1 := UnclaimOrder(UpdateStatus(c, oid, Failed, Note(code)), oid);
    Send(c1, CoreMsg(env.src, Some(env.id), Error(c.orders[oid].uuid, code)))
  }

  function DispatchToFleet(c: Core, oid: nat, env: Envelope, source: Node, fleet: FleetReply): Core
    requires oid < |c.orders|
  {
    if fleet.Rejected? then Fail(c, oid, env, "fleet_failed")
    else
      var v := VendorId(oid, fleet.tag);
      var c1 := UpdateVendor(c, oid, Some(v), FCreated, "");
      var c2 := UpdateStatus(c1, oid, Dispatched, Note("vendor order created"));
      Send(c2, CoreMsg(env.src, Some(env.id), Ack(c.orders[oid].uuid, oid, source.name)))
  }

  // ---------- requests ----------

  function Insert(c: Core, o: Order): Core {
    UpdateStatus(c.(orders := c.orders + [o]), |c.orders|, Pending, Note("received"))
  }

  function SetPickup(c: Core, oid: nat, name: string): Core
    requires oid < |c.orders|
  {
    SetOrder(c, oid, c.orders[oid].(pickup := name))
  }

  function Sourcing1(c: Core, oid: nat): Core
    requires oid < |c.orders|
  {
    UpdateStatus(c, oid, Sourcing, Note("sourcing"))
  }

  /** The last steps a retrieve and a move share: record the pickup node, resolve the destination, dispatch. */
  function PickupAndDispatch(c: Core, oid: nat, env: Envelope, source: Node, fleet: FleetReply): Core
    requires oid < |c.orders|
  {
    var c1 := SetPickup(c, oid, source.name);
    if NodeByName(c.nodes, c.orders[oid].delivery).None? then Fail(c1, oid, env, "node_error")
    else DispatchToFleet(c1, oid, env, source, fleet)
  }

  function HandleRetrieve(c: Core, oid: nat, env: Envelope, ch: Choice): Core
    requires oid < |c.orders|
  {
    var c1 := Sourcing1(c, oid);
    var row := if ch.source.Some? then PayloadById(c.payloads, ch.source.value) else None;
    if row.None? || row.value.node.None? then Fail(c1, oid, env, "no_source")
    else
      var c2 := c1.(payloads := Claimed(c1.payloads, row.value.id, oid));
      var source := NodeById(c.nodes, row.value.node.value);
      if source.None? then Fail(c2, oid, env, "node_error")
      else PickupAndDispatch(c2, oid, env, source.value, ch.fleet)
  }

  function Movable(types: seq<PayloadType>, code: string): Payload -> bool {
    (p: Payload) => TypeName(types, p) == code && p.claimedBy.None?
  }

  /** The payload a move takes: the first unclaimed one of the type in the node's listing. */
  function MoveSource(c: Core, node: nat, code: string): Option<Payload> {
    FindFirst(ListByNode(c.payloads, node), Movable(c.types, code))
  }

  function HandleMove(c: Core, oid: nat, env: Envelope, code: string, fleet: FleetReply): Core
    requires oid < |c.orders|
  {
    var c1 := Sourcing1(c, oid);
    if c.orders[oid].pickup == "" then Fail(c1, oid, env, "missing_pickup")
    else
      var pickup := NodeByName(c.nodes, c.orders[oid].pickup);
      if pickup.None? then Fail(c1, oid, env, "invalid_node")
      else if code == "" then PickupAndDispatch(c1, oid, env, pickup.value, fleet)
      else
        var p := MoveSource(c, pickup.value.id, code);
        if p.None? then Fail(c1, oid, env, "no_payload")
        else PickupAndDispatch(c1.(payloads := Claimed(c1.payloads, p.value.id, oid)), oid, env, pickup.value, fleet)
  }

  /** A store order claims nothing. Without a pickup node the chosen destination doubles as pickup. */
  function HandleStore(c: Core, oid: nat, env: Envelope, ch: Choice): Core
    requires oid < |c.orders|
  {
    var c1 := Sourcing1(c, oid);
    if ch.destination.None? then Fail(c1, oid, env, "no_storage")
    else
      var dest := ch.destination.value;
      var c2 := SetOrder(c1, oid, c1.orders[oid].(delivery := dest.name));
      var name := if c.orders[oid].pickup != "" then c.orders[oid].pickup else dest.name;
      if name == "" then Fail(c2, oid, env, "missing_pickup")
      else
        var pickup := NodeByName(c.nodes, name);
        if pickup.None? then Fail(c2, oid, env, "invalid_node")
        else DispatchToFleet(SetPickup(c2, oid, pickup.value.name), oid, env, pickup.value, ch.fleet)
  }

  function HandleRequest(c: Core, env: Envelope, ch: Choice): Core
    requires env.body.Request?
  {
    var r := env.body;
    var t := TypeByName(c.types, r.payloadTypeCode);
    if t.None? then SendError(c, env, "payload_type_error")
    else if r.deliveryNode != "" && NodeByName(c.nodes, r.deliveryNode).None? then SendError(c, env, "invalid_node")
    else
      var oid := |c.orders|;
      var c1 := Insert(c, Order(r.uuid, env.src, r.orderType, Pending, r.pickupNode, r.deliveryNode,
                                None, FUnknown(""), "", Some(t.value.id), false));
      match r.orderType
      case Retrieve => HandleRetrieve(c1, oid, env, ch)
      case Move => HandleMove(c1, oid, env, r.payloadTypeCode, ch.fleet)
      case Store => HandleStore(c1, oid, env, ch)
      case OtherType(_) => Fail(c1, oid, env, "unknown_type")
  }

  function HandleWaybill(c: Core, env: Envelope, ch: Choice): Core
    requires env.body.StorageWaybill?
  {
    var w := env.body;
    var c1 := Insert(c, Order(w.uuid, env.src, w.orderType, Pending, w.pickupNode, "", None, FUnknown(""), "", None,
      false));
    HandleStore(c1, |c.orders|, env, ch)
  }

  // ---------- cancel, receipt, redirect ----------

  function HandleCancel(c: Core, env: Envelope): Core
    requires env.body.Cancel?
  {
    var found := OrderByUuid(c.orders, env.body.uuid);
    if found.None? then c
    else
      var c1 := UpdateStatus(UnclaimOrder(c, found.value), found.value, Cancelled, Note(env.body.reason));
      Send(c1, CoreMsg(env.src, Some(env.id), CancelledNotice(env.body.uuid, env.body.reason)))
  }

  function HandleReceipt(c: Core, env: Envelope, now: int): Core
    requires env.body.Receipt?
  {
    var found := OrderByUuid(c.orders, env.body.uuid);
    if found.None? then c
    else
      OnCompleted(RecordReceipt(c, found.value), found.value, now)
  }

  /** Confirmed, then completed: two history entries. */
  function RecordReceipt(c: Core, oid: nat): Core
    requires oid < |c.orders|
  {
    var c1 := UpdateStatus(c, oid, Confirmed, Note("receipt"));
    UpdateStatus(SetOrder(c1, oid, c1.orders[oid].(completed := true)), oid, Confirmed, Note("order confirmed"))
  }

  /** Inventory follows the receipt: every payload the order claims goes to the order's stored delivery node. */
  function OnCompleted(c: Core, oid: nat, now: int): Core
    requires oid < |c.orders|
  {
    var o := c.orders[oid];
    if o.pickup == "" || o.delivery == "" then c
    else
      var dest := NodeByName(c.nodes, o.delivery);
      if dest.None? then c else MoveAll(c, ClaimedIds(c.payloads, oid), dest.value.id, now)
  }

  /** The new destination reaches the fleet only; the order row keeps its delivery node. */
  function HandleRedirect(c: Core, env: Envelope, fleet: FleetReply): Core
    requires env.body.Redirect?
  {
    var found := OrderByUuid(c.orders, env.body.uuid);
    if found.None? then c
    else if NodeByName(c.nodes, env.body.newDeliveryNode).None? then SendError(c, env, "invalid_node")
    else
      var oid := found.value;
      if c.orders[oid].pickup == "" then SendError(c, env, "redirect_failed")
      else
        var source := NodeByName(c.nodes, c.orders[oid].pickup);
        if source.None? then SendError(c, env, "redirect_failed")
        else DispatchToFleet(Sourcing1(c, oid), oid, env, source.value, fleet)
  }

  // ---------- fleet reports ----------

  function Notify(c: Core, oid: nat, body: CoreBody): Core
    requires oid < |c.orders|
  {
    Send(c, CoreMsg(c.orders[oid].station, None, body))
  }

  /** A robot was assigned and none is recorded. */
  function AssignRobot(c: Core, oid: nat, s: FleetState, robot: string): Core
    requires oid < |c.orders| && c.orders[oid].vendor.Some?
  {
    var o := c.orders[oid];
    if robot == "" || o.robot != "" then c
    else Notify(UpdateVendor(c, oid, o.vendor, s, robot), oid, Waybill(o.uuid, o.vendor.value, robot, ""))
  }

  /** The fleet's state maps to another status: record it, tell the edge, and close terminal states. */
  function Advance(c: Core, oid: nat, vendor: Option<VendorId>, s: FleetState, robot: string): Core
    requires oid < |c.orders|
  {
    var to, uuid := MapState(s), c.orders[oid].uuid;
    var c1 := UpdateVendor(UpdateStatus(c, oid, to, FromFleet(s)), oid, vendor, s, robot);
    var c2 := Notify(c1, oid, Update(uuid, to, ""));
    if !IsTerminalState(s) then c2
    else
      var c3 := UpdateStatus(c2, oid, to, FromFleet(s));
      if to == Delivered then Notify(c3, oid, DeliveredNotice(uuid)) else c3
  }

  function HandleReport(c: Core, v: VendorId, s: FleetState, robot: string): Core {
    var found := OrderByVendor(c.orders, v);
    if found.None? then c
    else
      var oid := found.value;
      var c1 := AssignRobot(c, oid, s, robot);
      if MapState(s) == c.orders[oid].status then c1 else Advance(c1, oid, c.orders[oid].vendor, s, robot)
  }

  // ---------- steps and runs ----------

  datatype Action =
    | AMessage(env: Envelope, ch: Choice, now: int)
    | AReport(vendor: VendorId, state: FleetState, robot: string)
    | AAdd(typeId: nat, node: Option<nat>, status: string, notes: string, at: int)
    | ARemove(payload: nat)
    | ASync

  /** The order type a message asks core to source, and with what type id a store order searches. */
  function StoreTypeId(c: Core, env: Envelope): nat {
    if env.body.Request? then
      var t := TypeByName(c.types, env.body.payloadTypeCode);
      if t.Some? then t.value.id else 0
    else 0
  }

  /** A request turned down before an order row is made, and hence before any query for inventory. */
  predicate Refused(c: Core, env: Envelope) {
    && env.body.Request?
    && (TypeByName(c.types, env.body.payloadTypeCode).None?
        || (env.body.deliveryNode != "" && NodeByName(c.nodes, env.body.deliveryNode).None?))
  }

  /** The choices are ones the queries can return. */
  ghost predicate Enabled(c: Core, a: Action) {
    a.AMessage? && !Refused(c, a.env) ==>
      && (a.env.body.Request? && a.env.body.orderType == Retrieve ==>
            IsFifoSource(c.types, c.nodes, c.payloads, a.env.body.payloadTypeCode, a.ch.source))
      && ((a.env.body.Request? && a.env.body.orderType == Store) || a.env.body.StorageWaybill? ==>
            IsDestination(c.nodes, c.payloads, StoreTypeId(c, a.env), a.ch.destination))
  }

  function HandleMessage(c: Core, env: Envelope, ch: Choice, now: int): Core {
    match env.body
    case Request(_, _, _, _, _, _, _) => HandleRequest(c, env, ch)
    case Cancel(_, _) => HandleCancel(c, env)
    case Receipt(_, _) => HandleReceipt(c, env, now)
    case Redirect(_, _) => HandleRedirect(c, env, ch.fleet)
    case StorageWaybill(_, _, _, _) => HandleWaybill(c, env, ch)
  }

  function Step(c: Core, a: Action): Core {
    match a
    case AMessage(env, ch, now) => HandleMessage(c, env, ch, now)
    case AReport(v, s, robot) => HandleReport(c, v, s, robot)
    case AAdd(t, n, st, notes, at) => AddPayload(c, t, n, st, notes, at)
    case ARemove(id) => RemovePayload(c, id)
    case ASync => Sync(c)
  }

  function Run(c: Core, acts: seq<Action>): Core
    decreases |acts|
  {
    if acts == [] then c else Run(Step(c, acts[0]), acts[1..])
  }

  ghost predicate EnabledRun(c: Core, acts: seq<Action>)
    decreases |acts|
  {
    acts != [] ==> Enabled(c, acts[0]) && EnabledRun(Step(c, acts[0]), acts[1..])
  }

  /** Constraints the schema enforces, with a configuration whose node names are not empty. */
  predicate Configured(c: Core) {
    && UniqueNodes(c.nodes) && SortedIds(c.payloads)
    && (forall p :: p in c.payloads ==>
      p.id < c.nextPayload && (p.node.Some? ==> NodeById(c.nodes, p.node.value).Some?))
    && (forall n :: n in c.nodes ==> n.name != "")
  }

  predicate Init(c: Core) {
    Configured(c) && c.orders == [] && c.history == [] && c.outbox == []
    && forall p :: p in c.payloads ==> p.claimedBy.None?
  }
}
