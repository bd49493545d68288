/**
 The core node's tables and cache as an object: dispatcher, engine and node-state manager, each tied to its
 step function.
 */
module CoreNode {
  import opened Protocol
  import opened CoreTables
  import opened CoreState
  import opened CoreDispatch

  class Server {
    const types: seq<PayloadType>
    const nodes: seq<Node>
    var payloads: seq<Payload>
    var nextPayload: nat
    var orders: seq<Order>
    var history: seq<Hist>
    var outbox: seq<CoreMsg>
    var meta: map<nat, Node>
    var items: map<nat, seq<Item>>
    var counts: map<nat, nat>
    var known: set<nat>

    ghost function State(): Core
      reads this
    {
      Core(types, nodes, payloads, nextPayload, orders, history, outbox, Cache(meta, items, counts, known))
    }

    constructor (types: seq<PayloadType>, nodes: seq<Node>, payloads: seq<Payload>, nextPayload: nat)
      ensures this.types == types && this.nodes == nodes && this.payloads == payloads && this.nextPayload == nextPayload
      ensures orders == [] && history == [] && outbox == [] && State().cache == Cache(map[], map[], map[], {})
    {
      this.types, this.nodes, this.payloads, this.nextPayload := types, nodes, payloads, nextPayload;
      orders, history, outbox := [], [], [];
      meta, items, counts, known := map[], map[], map[], {};
    }

    // ---------- order rows and outbox ----------

    method FindByUuid(uuid: string) returns (r: Option<nat>)
      ensures r == OrderByUuid(orders, uuid)
    {
      var i := |orders|;
      assert orders[..i] == orders;
      while i > 0
        invariant 0 <= i <= |orders|
        invariant OrderByUuid(orders, uuid) == OrderByUuid(orders[..i], uuid)
      {
        assert orders[..i][..i - 1] == orders[..i - 1];
        if orders[i - 1].uuid == uuid { return Some(i - 1); }
        i := i - 1;
      }
      return None;
    }

    method FindByVendor(v: VendorId) returns (r: Option<nat>)
      ensures r == OrderByVendor(orders, v)
    {
      var i := |orders|;
      assert orders[..i] == orders;
      while i > 0
        invariant 0 <= i <= |orders|
        invariant OrderByVendor(orders, v) == OrderByVendor(orders[..i], v)
      {
        assert orders[..i][..i - 1] == orders[..i - 1];
        if orders[i - 1].vendor == Some(v) { return Some(i - 1); }
        i := i - 1;
      }
      return None;
    }

    method UpdateOrder(oid: nat, o: Order)
      requires oid < |orders|
      modifies this`orders
      ensures State() == SetOrder(old(State()), oid, o)
    {
      orders := orders[oid := o];
    }

    method UpdateOrderStatus(oid: nat, s: Status, d: Detail)
      requires oid < |orders|
      modifies this`orders, this`history
      ensures State() == UpdateStatus(old(State()), oid, s, d)
    {
      UpdateOrder(oid, orders[oid].(status := s));
      history := history + [Hist(oid, s, d)];
    }

    method UpdateOrderVendor(oid: nat, v: Option<VendorId>, s: FleetState, robot: string)
      requires oid < |orders|
      modifies this`orders
      ensures State() == UpdateVendor(old(State()), oid, v, s, robot)
    {
      UpdateOrder(oid, orders[oid].(vendor := v, vendorState := s, robot := robot));
    }

    method CreateOrder(o: Order) returns (oid: nat)
      modifies this`orders, this`history
      ensures oid == |old(orders)| && State() == Insert(old(State()), o)
    {
      oid := |orders|;
      orders := orders + [o];
      UpdateOrderStatus(oid, Pending, Note("received"));
    }

    method EnqueueOutbox(m: CoreMsg)
      modifies this`outbox
      ensures State() == Send(old(State()), m)
    {
      outbox := outbox + [m];
    }

    // ---------- failure and dispatch ----------

    method UnclaimOrderPayloads(oid: nat)
      modifies this`payloads
      ensures State() == UnclaimOrder(old(State()), oid)
    {
      var ids := ClaimedIds(payloads, oid);
      var i := 0;
      while i < |ids|
        invariant 0 <= i <= |ids|
        invariant UnclaimAll(old(payloads), ids) == UnclaimAll(payloads, ids[i..])
      {
        payloads := Unclaimed(payloads, ids[i]);
        i := i + 1;
      }
    }

    method FailOrder(oid: nat, env: Envelope, code: string)
      requires oid < |orders|
      modifies this
      ensures State() == Fail(old(State()), oid, env, code)
    {
      UpdateOrderStatus(oid, Failed, Note(code));
      UnclaimOrderPayloads(oid);
      EnqueueOutbox(CoreMsg(env.src, Some(env.id), Error(orders[oid].uuid, code)));
    }

    method DispatchTransport(oid: nat, env: Envelope, source: Node, fleet: FleetReply)
      requires oid < |orders|
      modifies this
      ensures State() == DispatchToFleet(old(State()), oid, env, source, fleet)
    {
      match fleet
      case Rejected => FailOrder(oid, env, "fleet_failed");
      case Accepted(tag) =>
        UpdateOrderVendor(oid, Some(VendorId(oid, tag)), FCreated, "");
        UpdateOrderStatus(oid, Dispatched, Note("vendor order created"));
        EnqueueOutbox(CoreMsg(env.src, Some(env.id), Ack(orders[oid].uuid, oid, source.name)));
    }

    // ---------- requests ----------

    method RetrieveOrder(oid: nat, env: Envelope, code: string, fleet: FleetReply) returns (source: Option<nat>)
      requires oid < |orders|
      modifies this
      ensures IsFifoSource(types, nodes, old(payloads), code, source)
      ensures State() == HandleRetrieve(old(State()), oid, env, Choice(source, None, fleet))
    {
      hide Fail, PickupAndDispatch, IsFifoSource;
      UpdateOrderStatus(oid, Sourcing, Note("sourcing"));
      source := FindSourcePayloadFIFO(types, nodes, payloads, code);
      var row := if source.Some? then PayloadById(payloads, source.value) else None;
      if row.None? || row.value.node.None? { FailOrder(oid, env, "no_source"); return; }
      payloads := Claimed(payloads, row.value.id, oid);
      var node := NodeById(nodes, row.value.node.value);
      if node.None? { FailOrder(oid, env, "node_error"); return; }
      RecordPickupAndDispatch(oid, env, node.value, fleet);
    }

    method RecordPickupAndDispatch(oid: nat, env: Envelope, source: Node, fleet: FleetReply)
      requires oid < |orders|
      modifies this
      ensures State() == PickupAndDispatch(old(State()), oid, env, source, fleet)
    {
      UpdateOrder(oid, orders[oid].(pickup := source.name));
      if NodeByName(nodes, orders[oid].delivery).None? { FailOrder(oid, env, "node_error"); return; }
      DispatchTransport(oid, env, source, fleet);
    }

    /** The scan for the payload a move takes. */
    method FindMovable(node: nat, code: string) returns (p: Option<Payload>)
      ensures p == MoveSource(State(), node, code)
    {
      var listing := ListByNode(payloads, node);
      var wanted := Movable(types, code);
      for i := 0 to |listing|
        invariant forall j :: 0 <= j < i ==> !wanted(listing[j])
      {
        if wanted(listing[i]) {
          FirstAt(listing, wanted, i);
          return Some(listing[i]);
        }
      }
      p := None;
    }

    method MoveOrder(oid: nat, env: Envelope, code: string, fleet: FleetReply)
      requires oid < |orders|
      modifies this
      ensures State() == HandleMove(old(State()), oid, env, code, fleet)
    {
      hide Fail, PickupAndDispatch;
      UpdateOrderStatus(oid, Sourcing, Note("sourcing"));
      if orders[oid].pickup == "" { FailOrder(oid, env, "missing_pickup"); return; }
      var pickup := NodeByName(nodes, orders[oid].pickup);
      if pickup.None? { FailOrder(oid, env, "invalid_node"); return; }
      if code != "" {
        var p := FindMovable(pickup.value.id, code);
        if p.None? { FailOrder(oid, env, "no_payload"); return; }
        payloads := Claimed(payloads, p.value.id, oid);
      }
      RecordPickupAndDispatch(oid, env, pickup.value, fleet);
    }

    method StoreOrder(oid: nat, env: Envelope, typeId: nat, fleet: FleetReply) returns (dest: Option<Node>)
      requires oid < |orders|
      modifies this
      ensures IsDestination(nodes, old(payloads), typeId, dest)
      ensures State() == HandleStore(old(State()), oid, env, Choice(None, dest, fleet))
    {
      UpdateOrderStatus(oid, Sourcing, Note("sourcing"));
      dest := FindStorageDestination(nodes, payloads, typeId);
      if dest.None? { FailOrder(oid, env, "no_storage"); return; }
      UpdateOrder(oid, orders[oid].(delivery := dest.value.name));
      var name := if orders[oid].pickup != "" then orders[oid].pickup else orders[oid].delivery;
      if name == "" { FailOrder(oid, env, "missing_pickup"); return; }
      var pickup := NodeByName(nodes, name);
      if pickup.None? { FailOrder(oid, env, "invalid_node"); return; }
      UpdateOrder(oid, orders[oid].(pickup := pickup.value.name));
      DispatchTransport(oid, env, pickup.value, fleet);
    }

    /** The result records which rows the queries returned; they are ones the queries may return. */
    method HandleOrderRequest(env: Envelope, fleet: FleetReply, now: int) returns (ch: Choice)
      requires env.body.Request?
      modifies this
      ensures Enabled(old(State()), AMessage(env, ch, now)) && ch.fleet == fleet
      ensures State() == HandleRequest(old(State()), env, ch)
    {
      hide HandleRetrieve, HandleMove, HandleStore, Fail;
      var r := env.body;
      ch := Choice(None, None, fleet);
      var t := TypeByName(types, r.payloadTypeCode);
      if t.None? { EnqueueOutbox(CoreMsg(env.src, Some(env.id), Error(r.uuid, "payload_type_error"))); return; }
      if r.deliveryNode != "" && NodeByName(nodes, r.deliveryNode).None? {
        EnqueueOutbox(CoreMsg(env.src, Some(env.id), Error(r.uuid, "invalid_node")));
        return;
      }
      var oid := CreateOrder(Order(r.uuid, env.src, r.orderType, Pending, r.pickupNode, r.deliveryNode,
                                   None, FUnknown(""), "", Some(t.value.id), false));
      match r.orderType
      case Retrieve =>
        var source := RetrieveOrder(oid, env, r.payloadTypeCode, fleet);
        ch := Choice(source, None, fleet);
      case Move => MoveOrder(oid, env, r.payloadTypeCode, fleet);
      case Store =>
        var dest := StoreOrder(oid, env, t.value.id, fleet);
        ch := Choice(None, dest, fleet);
      case OtherType(_) => FailOrder(oid, env, "unknown_type");
    }

    method HandleOrderStorageWaybill(env: Envelope, fleet: FleetReply, now: int) returns (ch: Choice)
      requires env.body.StorageWaybill?
      modifies this
      ensures Enabled(old(State()), AMessage(env, ch, now)) && ch.fleet == fleet
      ensures State() == HandleWaybill(old(State()), env, ch)
    {
      var w := env.body;
      var oid := CreateOrder(Order(w.uuid, env.src, w.orderType, Pending, w.pickupNode, "", None, FUnknown(""), "",
        None, false));
      var dest := StoreOrder(oid, env, 0, fleet);
      ch := Choice(None, dest, fleet);
    }

    // ---------- cancel, receipt, redirect ----------

    method HandleOrderCancel(env: Envelope)
      requires env.body.Cancel?
      modifies this
      ensures State() == HandleCancel(old(State()), env)
    {
      var found := FindByUuid(env.body.uuid);
      if found.None? { return; }
      UnclaimOrderPayloads(found.value);
      UpdateOrderStatus(found.value, Cancelled, Note(env.body.reason));
      EnqueueOutbox(CoreMsg(env.src, Some(env.id), CancelledNotice(env.body.uuid, env.body.reason)));
    }

    method HandleOrderReceipt(env: Envelope, now: int)
      requires env.body.Receipt?
      modifies this
      ensures State() == HandleReceipt(old(State()), env, now)
    {
      var found := FindByUuid(env.body.uuid);
      if found.None? { return; }
      var oid := found.value;
      UpdateOrderStatus(oid, Confirmed, Note("receipt"));
      UpdateOrder(oid, orders[oid].(completed := true));
      UpdateOrderStatus(oid, Confirmed, Note("order confirmed"));
      HandleOrderCompleted(oid, now);
    }

    method HandleOrderCompleted(oid: nat, now: int)
      requires oid < |orders|
      modifies this`payloads, this`items, this`counts
      ensures State() == OnCompleted(old(State()), oid, now)
    {
      var order := orders[oid];
      if order.pickup == "" || order.delivery == "" { return; }
      var dest := NodeByName(nodes, order.delivery);
      if dest.None? { return; }
      var ids := ClaimedIds(payloads, oid);
      var i := 0;
      while i < |ids|
        invariant 0 <= i <= |ids|
        invariant MoveAll(old(State()), ids, dest.value.id, now) == MoveAll(State(), ids[i..], dest.value.id, now)
      {
        ghost var c1 := State();
        ghost var rest := ids[i..];
        Move(ids[i], dest.value.id, now);
        assert rest[1..] == ids[i + 1..];
        assert MoveAll(c1, rest, dest.value.id, now) ==
          MoveAll(MovePayload(c1, rest[0], dest.value.id, now), rest[1..], dest.value.id, now);
        i := i + 1;
      }
    }

    method HandleOrderRedirect(env: Envelope, fleet: FleetReply)
      requires env.body.Redirect?
      modifies this
      ensures State() == HandleRedirect(old(State()), env, fleet)
    {
      var found := FindByUuid(env.body.uuid);
      if found.None? { return; }
      var oid := found.value;
      if NodeByName(nodes, env.body.newDeliveryNode).None? {
        EnqueueOutbox(CoreMsg(env.src, Some(env.id), Error(env.body.uuid, "invalid_node")));
        return;
      }
      var source := if orders[oid].pickup == "" then None else NodeByName(nodes, orders[oid].pickup);
      if source.None? {
        EnqueueOutbox(CoreMsg(env.src, Some(env.id), Error(env.body.uuid, "redirect_failed")));
        return;
      }
      UpdateOrderStatus(oid, Sourcing, Note("sourcing"));
      DispatchTransport(oid, env, source.value, fleet);
    }

    // ---------- fleet reports ----------

    method HandleVendorStatusChange(v: VendorId, s: FleetState, robot: string)
      modifies this
      ensures State() == HandleReport(old(State()), v, s, robot)
    {
      var found := FindByVendor(v);
      if found.None? { return; }
      var oid := found.value;
      var order := orders[oid];
      RecordRobot(oid, s, robot);
      if MapState(s) == order.status { return; }
      AdvanceOrder(oid, order.vendor, s, robot);
    }

    method RecordRobot(oid: nat, s: FleetState, robot: string)
      requires oid < |orders| && orders[oid].vendor.Some?
      modifies this
      ensures State() == AssignRobot(old(State()), oid, s, robot)
      ensures |orders| == |old(orders)|
    {
      var order := orders[oid];
      if robot != "" && order.robot == "" {
        UpdateOrderVendor(oid, order.vendor, s, robot);
        EnqueueOutbox(CoreMsg(order.station, None, Waybill(order.uuid, order.vendor.value, robot, "")));
      }
    }

    method AdvanceOrder(oid: nat, vendor: Option<VendorId>, s: FleetState, robot: string)
      requires oid < |orders|
      modifies this
      ensures State() == Advance(old(State()), oid, vendor, s, robot)
    {
      var order := orders[oid];
      UpdateOrderStatus(oid, MapState(s), FromFleet(s));
      UpdateOrderVendor(oid, vendor, s, robot);
      EnqueueOutbox(CoreMsg(order.station, None, Update(order.uuid, MapState(s), "")));
      if IsTerminalState(s) {
        UpdateOrderStatus(oid, MapState(s), FromFleet(s));
        if MapState(s) == Delivered { EnqueueOutbox(CoreMsg(order.station, None, DeliveredNotice(order.uuid))); }
      }
    }

    // ---------- node-state manager ----------

    method Refresh(node: nat)
      modifies this`items, this`counts
      ensures State() == RefreshNode(old(State()), node)
    {
      var listing := ItemsOf(types, ListByNode(payloads, node));
      items := items[node := listing];
      counts := counts[node := |listing|];
    }

    method Move(id: nat, node: nat, now: int)
      modifies this`payloads, this`items, this`counts
      ensures State() == MovePayload(old(State()), id, node, now)
    {
      var p := PayloadById(payloads, id);
      if p.None? || NodeById(nodes, node).None? { return; }
      payloads := Relocated(payloads, id, node, now);
      payloads := Unclaimed(payloads, id);
      if p.value.node.Some? { Refresh(p.value.node.value); }
      Refresh(node);
    }

    method Add(typeId: nat, node: Option<nat>, status: string, notes: string, now: int)
      modifies this
      ensures State() == AddPayload(old(State()), typeId, node, status, notes, now)
    {
      if !CanInsert(typeId, node) { return; }
      payloads := payloads + [Payload(nextPayload, typeId, node, status, None, now, notes)];
      nextPayload := nextPayload + 1;
      if node.Some? { Refresh(node.value); }
    }

    predicate CanInsert(typeId: nat, node: Option<nat>)
    {
      TypeById(types, typeId).Some? && (node.Some? ==> NodeById(nodes, node.value).Some?)
    }

    method Remove(id: nat)
      modifies this
      ensures State() == RemovePayload(old(State()), id)
    {
      var p := PayloadById(payloads, id);
      if p.None? { return; }
      payloads := Without(payloads, id);
      if p.value.node.Some? { Refresh(p.value.node.value); }
    }

    method RemoveNode(id: nat)
      modifies this`meta, this`items, this`counts, this`known
      ensures meta == old(meta) - {id} && items == old(items) - {id} && counts == old(counts) - {id}
        && known == old(known) - {id}
    {
      meta, items, counts, known := meta - {id}, items - {id}, counts - {id}, known - {id};
    }

    method FlushAll()
      modifies this`meta, this`items, this`counts, this`known
      ensures State() == old(State()).(cache := Flush(old(State()).cache))
    {
      var ids := known;
      var left := ids;
      while left != {}
        invariant left <= ids
        invariant meta == old(meta) - (ids - left) && items == old(items) - (ids - left)
          && counts == old(counts) - (ids - left)
        decreases left
      {
        var id :| id in left;
        RemoveNode(id);
        assert ids - (left - {id}) == (ids - left) + {id};
        left := left - {id};
      }
      assert ids - left == ids;
      known := {};
    }

    method SyncRedisFromSQL()
      modifies this`meta, this`items, this`counts, this`known
      ensures State() == Sync(old(State()))
    {
      FlushAll();
      ghost var flushed := State();
      var i := 0;
      while i < |nodes|
        invariant 0 <= i <= |nodes|
        invariant CacheNodes(flushed, nodes) == CacheNodes(State(), nodes[i..])
      {
        ghost var c1 := State();
        ghost var rest := nodes[i..];
        meta, known := meta[nodes[i].id := nodes[i]], known + {nodes[i].id};
        Refresh(nodes[i].id);
        assert rest[1..] == nodes[i + 1..];
        assert State() == CacheNode(c1, rest[0]);
        i := i + 1;
      }
    }

    method Read(node: nat) returns (r: Option<NodeState>)
      ensures r == GetNodeState(State(), node)
    {
      if node in meta {
        var inventory := if node in items then items[node] else [];
        var count := if node in counts then counts[node] else 0;
        return Some(NodeState(meta[node], inventory, count));
      }
      var n := NodeById(nodes, node);
      if n.None? { return None; }
      var listing := ItemsOf(types, ListByNode(payloads, node));
      return Some(NodeState(n.value, listing, |listing|));
    }
  }
}
