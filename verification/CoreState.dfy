/**
 The core node's state: SQL tables, outbox and Redis cache, with the single-row writes of the store
 package and the write-through operations of the node-state manager.
 An order's id is its position in `orders` (rows are never deleted).
 */
module CoreState {
  import opened Protocol
  import opened CoreTables

  /** States the fleet reports. */
  datatype FleetState = FCreated | FToBeDispatched | FRunning | FFinished | FFailed | FStopped | FWaiting
    | FUnknown(name: string)

  /** History details: free text (an error code or a note), or the fleet state that caused the entry. */
  datatype Detail = Note(text: string) | FromFleet(state: FleetState)

  datatype Order = Order(
    uuid: string, station: string, orderType: OrderType, status: Status, pickup: string, delivery: string,
    vendor: Option<VendorId>, vendorState: FleetState, robot: string, payloadTypeId: Option<nat>, completed: bool)

  datatype Hist = Hist(order: nat, status: Status, detail: Detail)

  datatype Item = Item(id: nat, typeId: nat, typeName: string, status: string, deliveredAt: int, notes: string,
    claimedBy: Option<nat>)

  /** The cache: per node its meta record, inventory and count, and the set of known nodes. */
  datatype Cache = Cache(meta: map<nat, Node>, items: map<nat, seq<Item>>, counts: map<nat, nat>, known: set<nat>)

  datatype Core = Core(
    types: seq<PayloadType>, nodes: seq<Node>, payloads: seq<Payload>, nextPayload: nat,
    orders: seq<Order>, history: seq<Hist>, outbox: seq<CoreMsg>, cache: Cache)

  // ---------- orders ----------

  /** The newest order with this UUID; a repeated request makes several. */
  function OrderByUuid(orders: seq<Order>, uuid: string): (r: Option<nat>)
    ensures r.Some? ==> r.value < |orders| && orders[r.value].uuid == uuid
    ensures r.None? ==> forall i :: 0 <= i < |orders| ==> orders[i].uuid != uuid
  {
    if orders == [] then None
    else if orders[|orders| - 1].uuid == uuid then Some(|orders| - 1)
    else OrderByUuid(orders[..|orders| - 1], uuid)
  }

  function OrderByVendor(orders: seq<Order>, v: VendorId): (r: Option<nat>)
    ensures r.Some? ==> r.value < |orders| && orders[r.value].vendor == Some(v)
  {
    if orders == [] then None
    else if orders[|orders| - 1].vendor == Some(v) then Some(|orders| - 1)
    else OrderByVendor(orders[..|orders| - 1], v)
  }

  function SetOrder(c: Core, oid: nat, o: Order): Core
    requires oid < |c.orders|
  {
    c.(orders := c.orders[oid := o])
  }

  function UpdateStatus(c: Core, oid: nat, s: Status, d: Detail): Core
    requires oid < |c.orders|
  {
    SetOrder(c, oid, c.orders[oid].(status := s)).(history := c.history + [Hist(oid, s, d)])
  }

  function UpdateVendor(c: Core, oid: nat, v: Option<VendorId>, state: FleetState, robot: string): Core
    requires oid < |c.orders|
  {
    SetOrder(c, oid, c.orders[oid].(vendor := v, vendorState := state, robot := robot))
  }

  function Send(c: Core, m: CoreMsg): Core { c.(outbox := c.outbox + [m]) }

  // ---------- payload rows ----------

  /** UPDATE payloads ... WHERE id = ? */
  function UpdateRow(payloads: seq<Payload>, id: nat, f: Payload -> Payload): (r: seq<Payload>)
    ensures |r| == |payloads|
    ensures forall i :: 0 <= i < |r| ==> r[i] == if payloads[i].id == id then f(payloads[i]) else payloads[i]
  {
    seq(|payloads|, i requires 0 <= i < |payloads| => if payloads[i].id == id then f(payloads[i]) else payloads[i])
  }

  function Claimed(payloads: seq<Payload>, id: nat, oid: nat): (r: seq<Payload>)
    ensures |r| == |payloads|
    ensures forall i :: 0 <= i < |r| ==>
      r[i] == if payloads[i].id == id then payloads[i].(claimedBy := Some(oid)) else payloads[i]
  {
    UpdateRow(payloads, id, (p: Payload) => p.(claimedBy := Some(oid)))
  }

  function Unclaimed(payloads: seq<Payload>, id: nat): (r: seq<Payload>)
    ensures |r| == |payloads|
    ensures forall i :: 0 <= i < |r| ==>
      r[i] == if payloads[i].id == id then payloads[i].(claimedBy := None) else payloads[i]
  {
    UpdateRow(payloads, id, (p: Payload) => p.(claimedBy := None))
  }

  function Relocated(payloads: seq<Payload>, id: nat, node: nat, now: int): (r: seq<Payload>)
    ensures |r| == |payloads|
    ensures forall i :: 0 <= i < |r| ==>
      r[i] == if payloads[i].id == id then payloads[i].(node := Some(node), deliveredAt := now) else payloads[i]
  {
    UpdateRow(payloads, id, (p: Payload) => p.(node := Some(node), deliveredAt := now))
  }

  /** Ids of the payloads an order claims, in table order. */
  function ClaimedIds(payloads: seq<Payload>, oid: nat): (ids: seq<nat>)
    ensures forall x :: x in ids <==> exists p :: p in payloads && p.id == x && p.claimedBy == Some(oid)
  {
    if payloads == [] then []
    else
      var rest := ClaimedIds(payloads[1..], oid);
      if payloads[0].claimedBy == Some(oid) then [payloads[0].id] + rest else rest
  }

  function UnclaimAll(payloads: seq<Payload>, ids: seq<nat>): (r: seq<Payload>)
    ensures |r| == |payloads|
    ensures forall i :: 0 <= i < |r| ==>
      r[i] == if payloads[i].id in ids then payloads[i].(claimedBy := None) else payloads[i]
    decreases |ids|
  {
    if ids == [] then payloads else UnclaimAll(Unclaimed(payloads, ids[0]), ids[1..])
  }

  // ---------- node-state manager ----------

  function ItemOf(types: seq<PayloadType>, p: Payload): Item {
    Item(p.id, p.typeId, TypeName(types, p), p.status, p.deliveredAt, p.notes, p.claimedBy)
  }

  function ItemsOf(types: seq<PayloadType>, rows: seq<Payload>): (r: seq<Item>)
    ensures |r| == |rows| && forall i :: 0 <= i < |r| ==> r[i] == ItemOf(types, rows[i])
  {
    seq(|rows|, i requires 0 <= i < |rows| => ItemOf(types, rows[i]))
  }

  function Listing(c: Core, node: nat): seq<Item> { ItemsOf(c.types, ListByNode(c.payloads, node)) }

  function RefreshNode(c: Core, node: nat): Core {
    var items := Listing(c, node);
    c.(cache := c.cache.(items := c.cache.items[node := items], counts := c.cache.counts[node := |items|]))
  }

  function RefreshIf(c: Core, node: Option<nat>): Core { if node.Some? then RefreshNode(c, node.value) else c }

  /** Move, unclaim, refresh the node left and the node reached. The reference to the node must hold. */
  function MovePayload(c: Core, id: nat, node: nat, now: int): Core {
    var p := PayloadById(c.payloads, id);
    if p.None? || NodeById(c.nodes, node).None? then c
    else
      var c1 := c.(payloads := Unclaimed(Relocated(c.payloads, id, node, now), id));
      RefreshNode(RefreshIf(c1, p.value.node), node)
  }

  function MoveAll(c: Core, ids: seq<nat>, node: nat, now: int): Core
    decreases |ids|
  {
    if ids == [] then c else MoveAll(MovePayload(c, ids[0], node, now), ids[1..], node, now)
  }

  predicate CanInsertPayload(c: Core, typeId: nat, node: Option<nat>) {
    TypeById(c.types, typeId).Some? && (node.Some? ==> NodeById(c.nodes, node.value).Some?)
  }

  function AddPayload(c: Core, typeId: nat, node: Option<nat>, status: string, notes: string, now: int): Core {
    if !CanInsertPayload(c, typeId, node) then c
    else
      var row := Payload(c.nextPayload, typeId, node, status, None, now, notes);
      RefreshIf(c.(payloads := c.payloads + [row], nextPayload := c.nextPayload + 1), node)
  }

  function Without(payloads: seq<Payload>, id: nat): (r: seq<Payload>)
    ensures forall p :: p in r <==> p in payloads && p.id != id
  {
    if payloads == [] then []
    else
      var last := payloads[|payloads| - 1];
      Without(payloads[..|payloads| - 1], id) + if last.id == id then [] else [last]
  }

  function RemovePayload(c: Core, id: nat): Core {
    var p := PayloadById(c.payloads, id);
    if p.None? then c else RefreshIf(c.(payloads := Without(c.payloads, id)), p.value.node)
  }

  /** Drop what is cached for the known nodes, then the set itself. */
  function Flush(k: Cache): Cache { Cache(k.meta - k.known, k.items - k.known, k.counts - k.known, {}) }

  function CacheNode(c: Core, n: Node): Core {
    RefreshNode(c.(cache := c.cache.(meta := c.cache.meta[n.id := n], known := c.cache.known + {n.id})), n.id)
  }

  function CacheNodes(c: Core, nodes: seq<Node>): Core
    decreases |nodes|
  {
    if nodes == [] then c else CacheNodes(CacheNode(c, nodes[0]), nodes[1..])
  }

  function Sync(c: Core): Core { CacheNodes(c.(cache := Flush(c.cache)), c.nodes) }

  datatype NodeState = NodeState(node: Node, items: seq<Item>, count: nat)

  /** From the cache when the node's meta is there; missing parts read as empty. */
  function GetNodeState(c: Core, node: nat): Option<NodeState> {
    if node in c.cache.meta then
      Some(NodeState(c.cache.meta[node],
                     if node in c.cache.items then c.cache.items[node] else [],
                     if node in c.cache.counts then c.cache.counts[node] else 0))
    else NodeStateFromSQL(c, node)
  }

  function NodeStateFromSQL(c: Core, node: nat): Option<NodeState> {
    var n := NodeById(c.nodes, node);
    if n.None? then None
    else Some(NodeState(n.value, Listing(c, node), |Listing(c, node)|))
  }
}
