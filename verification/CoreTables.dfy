/** Core's inventory tables as sequences of rows, and what its queries over them mean. */
module CoreTables {
  import opened Protocol

  datatype PayloadType = PayloadType(id: nat, name: string)
  datatype Node = Node(id: nat, name: string, nodeType: string, zone: string, capacity: int, enabled: bool)

  /** `deliveredAt` is the timestamp FIFO goes by; rows are kept in insertion (id) order. */
  datatype Payload = Payload(
    id: nat, typeId: nat, node: Option<nat>, status: string, claimedBy: Option<nat>, deliveredAt: int, notes: string)

  function NodeById(nodes: seq<Node>, id: nat): Option<Node> { FindFirst(nodes, (n: Node) => n.id == id) }
  function NodeByName(nodes: seq<Node>, name: string): Option<Node> { FindFirst(nodes, (n: Node) => n.name == name) }
  function TypeById(types: seq<PayloadType>, id: nat): Option<PayloadType> {
    FindFirst(types, (t: PayloadType) => t.id == id)
  }
  function TypeByName(types: seq<PayloadType>, name: string): Option<PayloadType> {
    FindFirst(types, (t: PayloadType) => t.name == name)
  }
  function PayloadById(payloads: seq<Payload>, id: nat): Option<Payload> {
    FindFirst(payloads, (p: Payload) => p.id == id)
  }

  function TypeName(types: seq<PayloadType>, p: Payload): string {
    var t := TypeById(types, p.typeId);
    if t.Some? then t.value.name else ""
  }

  predicate UniqueNodes(nodes: seq<Node>) {
    forall i, j :: 0 <= i < j < |nodes| ==> nodes[i].id != nodes[j].id
  }

  /** Ids are handed out in insertion order, so the table is sorted by id. */
  predicate SortedIds(payloads: seq<Payload>) {
    forall i, j :: 0 <= i < j < |payloads| ==> payloads[i].id < payloads[j].id
  }

  // ---------- listings and counts ----------

  /** Rows at a node, in table order. */
  function RowsAt(payloads: seq<Payload>, node: nat): (r: seq<Payload>)
    ensures forall p :: p in r <==> p in payloads && p.node == Some(node)
  {
    if payloads == [] then []
    else
      var last := payloads[|payloads| - 1];
      RowsAt(payloads[..|payloads| - 1], node) + if last.node == Some(node) then [last] else []
  }

  function RowsOfType(payloads: seq<Payload>, node: nat, typeId: nat): (r: seq<Payload>)
    ensures forall p :: p in r <==> p in payloads && p.node == Some(node) && p.typeId == typeId
  {
    if payloads == [] then []
    else
      var last := payloads[|payloads| - 1];
      var front := RowsOfType(payloads[..|payloads| - 1], node, typeId);
      front + if last.node == Some(node) && last.typeId == typeId then [last] else []
  }

  /** The listing of a node, newest id first. */
  function ListByNode(payloads: seq<Payload>, node: nat): (r: seq<Payload>)
    ensures forall p :: p in r ==> p in payloads && p.node == Some(node)
  {
    if payloads == [] then []
    else
      var last := payloads[|payloads| - 1];
      var rest := ListByNode(payloads[..|payloads| - 1], node);
      if last.node == Some(node) then [last] + rest else rest
  }

  lemma {:induction false} ListHas(payloads: seq<Payload>, node: nat, p: Payload)
    requires p in payloads && p.node == Some(node)
    ensures p in ListByNode(payloads, node)
  {
    var last := payloads[|payloads| - 1];
    if p != last { ListHas(payloads[..|payloads| - 1], node, p); }
  }

  predicate Descending(rows: seq<Payload>) { forall i, j :: 0 <= i < j < |rows| ==> rows[i].id > rows[j].id }

  lemma AddHighest(last: Payload, rest: seq<Payload>)
    requires Descending(rest) && forall i :: 0 <= i < |rest| ==> rest[i].id < last.id
    ensures Descending([last] + rest)
  {
  }

  /** The listing is every row at the node, highest id first: ORDER BY id DESC. */
  lemma {:induction false} ListByNodeIs(payloads: seq<Payload>, node: nat)
    requires SortedIds(payloads)
    ensures forall p :: p in payloads && p.node == Some(node) ==> p in ListByNode(payloads, node)
    ensures Descending(ListByNode(payloads, node))
  {
    assert Descending([]);
    hide Descending;
    forall p | p in payloads && p.node == Some(node) ensures p in ListByNode(payloads, node) {
      ListHas(payloads, node, p);
    }
    if payloads != [] {
      var front, last := payloads[..|payloads| - 1], payloads[|payloads| - 1];
      ListByNodeIs(front, node);
      var rest := ListByNode(front, node);
      forall i | 0 <= i < |rest| ensures rest[i].id < last.id { assert rest[i] in rest && rest[i] in front; }
      AddHighest(last, rest);
    }
  }

  function Occupancy(payloads: seq<Payload>, node: nat): nat { |RowsAt(payloads, node)| }

  function OfType(payloads: seq<Payload>, node: nat, typeId: nat): nat { |RowsOfType(payloads, node, typeId)| }

  // ---------- FIFO source ----------

  /** A payload a retrieve order may take. */
  predicate Eligible(types: seq<PayloadType>, nodes: seq<Node>, p: Payload, code: string) {
    && TypeById(types, p.typeId).Some? && TypeName(types, p) == code
    && p.node.Some? && p.claimedBy.None? && p.status == "available"
    && var n := NodeById(nodes, p.node.value); n.Some? && n.value.nodeType == "storage" && n.value.enabled
  }

  /** `pick` is an eligible payload no other eligible one is older than; none only if nothing is eligible. */
  ghost predicate IsFifoSource(types: seq<PayloadType>, nodes: seq<Node>, payloads: seq<Payload>, code: string,
                               pick: Option<nat>)
  {
    match pick
    case None => forall p :: p in payloads ==> !Eligible(types, nodes, p, code)
    case Some(id) =>
      exists p :: p in payloads && p.id == id && Eligible(types, nodes, p, code)
        && forall q :: q in payloads && Eligible(types, nodes, q, code) ==> p.deliveredAt <= q.deliveredAt
  }

  method FindSourcePayloadFIFO(types: seq<PayloadType>, nodes: seq<Node>, payloads: seq<Payload>, code: string)
    returns (pick: Option<nat>)
    ensures IsFifoSource(types, nodes, payloads, code, pick)
  {
    var best: Option<Payload> := None;
    for i := 0 to |payloads|
      invariant best.None? ==> forall k :: 0 <= k < i ==> !Eligible(types, nodes, payloads[k], code)
      invariant best.Some? ==> (best.value in payloads && Eligible(types, nodes, best.value, code)
        && forall k :: 0 <= k < i && Eligible(types, nodes, payloads[k], code) ==>
          best.value.deliveredAt <= payloads[k].deliveredAt)
    {
      if Eligible(types, nodes, payloads[i], code) && (best.None? || payloads[i].deliveredAt < best.value.deliveredAt) {
        best := Some(payloads[i]);
      }
    }
    pick := if best.Some? then Some(best.value.id) else None;
  }

  // ---------- storage destination ----------

  predicate IsStorage(n: Node) { n.nodeType == "storage" && n.enabled && n.capacity > 0 }

  predicate HasRoom(payloads: seq<Payload>, n: Node) { IsStorage(n) && Occupancy(payloads, n.id) < n.capacity }

  /**
   The intended choice: among storage nodes with room, the one holding most payloads of the type if any
   holds one, else one of least occupancy; none exactly when every storage node is full.
   */
  ghost predicate IsDestination(nodes: seq<Node>, payloads: seq<Payload>, typeId: nat, pick: Option<Node>) {
    match pick
    case None => forall n :: n in nodes ==> !HasRoom(payloads, n)
    case Some(n) =>
      && n in nodes && HasRoom(payloads, n)
      && if exists m :: m in nodes && HasRoom(payloads, m) && OfType(payloads, m.id, typeId) > 0 then
           && OfType(payloads, n.id, typeId) > 0
           && forall m :: m in nodes && HasRoom(payloads, m) ==>
             OfType(payloads, m.id, typeId) <= OfType(payloads, n.id, typeId)
         else
           forall m :: m in nodes && HasRoom(payloads, m) ==> Occupancy(payloads, n.id) <= Occupancy(payloads, m.id)
  }

  method FindStorageDestination(nodes: seq<Node>, payloads: seq<Payload>, typeId: nat) returns (pick: Option<Node>)
    ensures IsDestination(nodes, payloads, typeId, pick)
  {
    pick := Consolidate(nodes, payloads, typeId);
    if pick.None? { pick := Emptiest(nodes, payloads); }
  }

  /** The consolidation query: a node with room that already holds the type, holding most of it. */
  method Consolidate(nodes: seq<Node>, payloads: seq<Payload>, typeId: nat) returns (pick: Option<Node>)
    ensures pick.None? ==> forall m :: m in nodes && HasRoom(payloads, m) ==> OfType(payloads, m.id, typeId) == 0
    ensures pick.Some? ==>
      (pick.value in nodes && HasRoom(payloads, pick.value) && OfType(payloads, pick.value.id, typeId) > 0
      && forall m :: m in nodes && HasRoom(payloads, m) ==>
        OfType(payloads, m.id, typeId) <= OfType(payloads, pick.value.id, typeId))
  {
    pick := None;
    var most := 0;
    for i := 0 to |nodes|
      invariant pick.None? ==> most == 0
      invariant pick.Some? ==>
        pick.value in nodes && HasRoom(payloads, pick.value) && most == OfType(payloads, pick.value.id, typeId) > 0
      invariant forall k :: 0 <= k < i && HasRoom(payloads, nodes[k]) ==> OfType(payloads, nodes[k].id, typeId) <= most
    {
      if HasRoom(payloads, nodes[i]) && OfType(payloads, nodes[i].id, typeId) > most {
        pick, most := Some(nodes[i]), OfType(payloads, nodes[i].id, typeId);
      }
    }
  }

  /** The fallback query: a node with room of least occupancy. */
  method Emptiest(nodes: seq<Node>, payloads: seq<Payload>) returns (pick: Option<Node>)
    ensures pick.None? ==> forall m :: m in nodes ==> !HasRoom(payloads, m)
    ensures pick.Some? ==> (pick.value in nodes && HasRoom(payloads, pick.value)
      && forall m :: m in nodes && HasRoom(payloads, m) ==>
        Occupancy(payloads, pick.value.id) <= Occupancy(payloads, m.id))
  {
    pick := None;
    for i := 0 to |nodes|
      invariant pick.None? ==> forall k :: 0 <= k < i ==> !HasRoom(payloads, nodes[k])
      invariant pick.Some? ==> (pick.value in nodes && HasRoom(payloads, pick.value)
        && forall k :: 0 <= k < i && HasRoom(payloads, nodes[k]) ==>
          Occupancy(payloads, pick.value.id) <= Occupancy(payloads, nodes[k].id))
    {
      if HasRoom(payloads, nodes[i])
        && (pick.None? || Occupancy(payloads, nodes[i].id) < Occupancy(payloads, pick.value.id)) {
        pick := Some(nodes[i]);
      }
    }
  }
}
