/**
 The two nodes together. The network is everything ever put in an outbox: any entry may be delivered
 any number of times, in any order, or never. Any number of edge stations share one core.
 */
module OrderSystem {
  import opened Protocol
  import E = EdgeOrders
  import L = EdgeLifecycle
  import T = CoreTables
  import S = CoreState
  import D = CoreDispatch
  import C = CoreClaims
  import R = CoreRuns

  datatype Net = Net(edges: map<string, E.Edge>, core: S.Core)

  datatype Action =
    | ALocal(at: string, act: E.Action)
    | AToCore(at: string, k: nat, ch: D.Choice, now: int)
    | AToEdge(k: nat, at: string)
    | ACore(own: D.Action)

  const Broadcast: string := "*"

  /** Deliveries name an outbox entry; an edge takes only what is addressed to its station or to all. */
  function Step(n: Net, a: Action): Net {
    match a
    case ALocal(at, act) =>
      if at in n.edges && !act.AReply? then n.(edges := n.edges[at := E.Step(n.edges[at], act)]) else n
    case AToCore(at, k, ch, now) =>
      if at in n.edges && k < |n.edges[at].outbox| then
        n.(core := D.HandleMessage(n.core, n.edges[at].outbox[k], ch, now))
      else n
    case AToEdge(k, at) =>
      if && at in n.edges && k < |n.core.outbox|
         && (n.core.outbox[k].dst == n.edges[at].station || n.core.outbox[k].dst == Broadcast) then
        n.(edges := n.edges[at := E.Reply(n.edges[at], n.core.outbox[k].body)])
      else n
    case ACore(own) => if own.AMessage? then n else n.(core := D.Step(n.core, own))
  }

  function Run(n: Net, acts: seq<Action>): Net
    decreases |acts|
  {
    if acts == [] then n else Run(Step(n, acts[0]), acts[1..])
  }

  /** A delivery to an edge changes nothing else, and that edge only if the message is for its station or for all. */
  lemma DeliveredToAddressee(n: Net, k: nat, at: string, x: string)
    requires x in n.edges
    ensures var f := Step(n, AToEdge(k, at));
      && f.core == n.core && x in f.edges
      && (f.edges[x] != n.edges[x] ==>
            x == at && k < |n.core.outbox| && n.core.outbox[k].dst in {n.edges[x].station, "*"}
            && f.edges[x] == E.Reply(n.edges[x], n.core.outbox[k].body))
  {
    hide E.Reply;
  }

  predicate Init(n: Net) {
    (forall x :: x in n.edges ==> E.Init(n.edges[x])) && D.Init(n.core)
  }

  // ---------- what core has on record about a UUID ----------

  predicate Entry(c: S.Core, k: int, u: string, s: Status) {
    0 <= k < |c.history| && c.history[k].status == s && c.history[k].order < |c.orders|
      && c.orders[c.history[k].order].uuid == u
  }

  ghost predicate WasDispatched(c: S.Core, u: string) { exists i :: Entry(c, i, u, Dispatched) }

  /** Dispatched, then delivered, both before position `k`. */
  ghost predicate DispatchedThenDelivered(c: S.Core, u: string, k: int) {
    exists i, j :: i < j < k && Entry(c, i, u, Dispatched) && Entry(c, j, u, Delivered)
  }

  /** What must be on record at core before an edge order of this UUID can reach a status. */
  ghost predicate Evidence(c: S.Core, u: string, s: Status) {
    match s
    case Acknowledged => WasDispatched(c, u)
    case InTransit => WasDispatched(c, u)
    case Delivered => DispatchedThenDelivered(c, u, |c.history|)
    case _ => true
  }

  // ---------- core's side ----------

  ghost predicate MessageOk(c: S.Core, m: CoreMsg) {
    E.Target(m.body).Some? ==> Evidence(c, m.body.uuid, E.Target(m.body).value)
  }

  ghost predicate CoreOk(c: S.Core) {
    && (forall k :: 0 <= k < |c.history| ==> c.history[k].order < |c.orders|)
    && (forall o :: 0 <= o < |c.orders| && c.orders[o].vendor.Some? ==> WasDispatched(c, c.orders[o].uuid))
    && (forall m :: m in c.outbox ==> MessageOk(c, m))
  }

  /** The record grows; UUIDs stay; nothing but a receipt confirms. */
  predicate Extends(c: S.Core, f: S.Core) {
    && c.history <= f.history && |c.orders| <= |f.orders|
    && (forall o :: 0 <= o < |c.orders| ==> f.orders[o].uuid == c.orders[o].uuid)
    && (forall k :: |c.history| <= k < |f.history| ==> f.history[k].status != Confirmed)
  }

  predicate Records(c: S.Core, f: S.Core) {
    && c.history <= f.history && |c.orders| <= |f.orders|
    && (forall o :: 0 <= o < |c.orders| ==> f.orders[o].uuid == c.orders[o].uuid)
  }

  lemma EntryStays(c: S.Core, f: S.Core, k: int, u: string, s: Status)
    requires Records(c, f) && Entry(c, k, u, s)
    ensures Entry(f, k, u, s)
  {
  }

  lemma EvidenceStays(c: S.Core, f: S.Core, u: string, s: Status)
    requires Records(c, f) && Evidence(c, u, s)
    ensures Evidence(f, u, s)
  {
    if s == Acknowledged || s == InTransit {
      var i :| Entry(c, i, u, Dispatched);
      EntryStays(c, f, i, u, Dispatched);
    } else if s == Delivered {
      var i, j :| i < j < |c.history| && Entry(c, i, u, Dispatched) && Entry(c, j, u, Delivered);
      EntryStays(c, f, i, u, Dispatched);
      EntryStays(c, f, j, u, Delivered);
    }
  }

  /** A change that adds no message and gives no order a vendor id. */
  lemma QuietOk(c: S.Core, f: S.Core)
    requires CoreOk(c) && Records(c, f) && f.outbox == c.outbox
    requires forall k :: 0 <= k < |f.history| ==> f.history[k].order < |f.orders|
    requires forall o :: 0 <= o < |f.orders| && f.orders[o].vendor.Some? ==> o < |c.orders| && c.orders[o].vendor.Some?
    ensures CoreOk(f)
  {
    forall o | 0 <= o < |f.orders| && f.orders[o].vendor.Some? ensures WasDispatched(f, f.orders[o].uuid) {
      EvidenceStays(c, f, c.orders[o].uuid, Acknowledged);
    }
    forall m | m in f.outbox ensures MessageOk(f, m) {
      assert MessageOk(c, m);
      if E.Target(m.body).Some? { EvidenceStays(c, f, m.body.uuid, E.Target(m.body).value); }
    }
  }

  lemma SendOk(c: S.Core, m: CoreMsg)
    requires CoreOk(c) && MessageOk(c, m)
    ensures CoreOk(S.Send(c, m)) && Extends(c, S.Send(c, m))
  {
    var f := S.Send(c, m);
    forall o | 0 <= o < |f.orders| && f.orders[o].vendor.Some? ensures WasDispatched(f, f.orders[o].uuid) {
      EvidenceStays(c, f, c.orders[o].uuid, Acknowledged);
    }
    forall x | x in f.outbox ensures MessageOk(f, x) {
      assert MessageOk(c, x);
      if E.Target(x.body).Some? { EvidenceStays(c, f, x.body.uuid, E.Target(x.body).value); }
    }
  }

  lemma StatusOk(c: S.Core, oid: nat, s: Status, d: S.Detail)
    requires CoreOk(c) && oid < |c.orders|
    ensures var f := S.UpdateStatus(c, oid, s, d);
      CoreOk(f) && Records(c, f) && (s != Confirmed ==> Extends(c, f)) && Entry(f, |c.history|, c.orders[oid].uuid, s)
  {
    QuietOk(c, S.UpdateStatus(c, oid, s, d));
  }

  /** Order rows, payload rows and cache may change freely as long as UUIDs and vendor ids are kept. */
  lemma RowsOk(c: S.Core, f: S.Core)
    requires CoreOk(c) && f.history == c.history && f.outbox == c.outbox && |f.orders| == |c.orders|
    requires forall o :: 0 <= o < |c.orders| ==>
      f.orders[o].uuid == c.orders[o].uuid && f.orders[o].vendor == c.orders[o].vendor
    ensures CoreOk(f) && Extends(c, f)
  {
    QuietOk(c, f);
  }

  lemma ErrorOk(c: S.Core, env: Envelope, code: string)
    requires CoreOk(c)
    ensures CoreOk(D.SendError(c, env, code)) && Extends(c, D.SendError(c, env, code))
  {
    SendOk(c, CoreMsg(env.src, Some(env.id), Error(env.body.uuid, code)));
  }

  lemma FailOk(c: S.Core, oid: nat, env: Envelope, code: string)
    requires CoreOk(c) && oid < |c.orders|
    ensures CoreOk(D.Fail(c, oid, env, code)) && Extends(c, D.Fail(c, oid, env, code))
  {
    var c1 := S.UpdateStatus(c, oid, Failed, S.Note(code));
    StatusOk(c, oid, Failed, S.Note(code));
    RowsOk(c1, D.UnclaimOrder(c1, oid));
    SendOk(D.UnclaimOrder(c1, oid), CoreMsg(env.src, Some(env.id), Error(c.orders[oid].uuid, code)));
  }

  lemma DispatchOk(c: S.Core, oid: nat, env: Envelope, source: T.Node, fleet: D.FleetReply)
    requires CoreOk(c) && oid < |c.orders|
    ensures var f := D.DispatchToFleet(c, oid, env, source, fleet); CoreOk(f) && Extends(c, f)
  {
    if fleet.Rejected? {
      FailOk(c, oid, env, "fleet_failed");
    } else {
      var u := c.orders[oid].uuid;
      var c1 := S.UpdateVendor(c, oid, Some(VendorId(oid, fleet.tag)), S.FCreated, "");
      var c2 := S.UpdateStatus(c1, oid, Dispatched, S.Note("vendor order created"));
      assert Records(c, c2);
      assert Entry(c2, |c.history|, u, Dispatched);
      forall o | 0 <= o < |c2.orders| && c2.orders[o].vendor.Some? ensures WasDispatched(c2, c2.orders[o].uuid) {
        if o != oid { EvidenceStays(c, c2, c.orders[o].uuid, Acknowledged); }
      }
      forall m | m in c2.outbox ensures MessageOk(c2, m) {
        assert MessageOk(c, m);
        if E.Target(m.body).Some? { EvidenceStays(c, c2, m.body.uuid, E.Target(m.body).value); }
      }
      SendOk(c2, CoreMsg(env.src, Some(env.id), Ack(u, oid, source.name)));
    }
  }

  lemma PickupOk(c: S.Core, oid: nat, env: Envelope, source: T.Node, fleet: D.FleetReply)
    requires CoreOk(c) && oid < |c.orders|
    ensures var f := D.PickupAndDispatch(c, oid, env, source, fleet); CoreOk(f) && Extends(c, f)
  {
    hide CoreOk, D.Fail, D.DispatchToFleet;
    var c1 := D.SetPickup(c, oid, source.name);
    RowsOk(c, c1);
    if T.NodeByName(c.nodes, c.orders[oid].delivery).None? { FailOk(c1, oid, env, "node_error"); }
    else { DispatchOk(c1, oid, env, source, fleet); }
  }

  lemma RetrieveOk(c: S.Core, oid: nat, env: Envelope, ch: D.Choice)
    requires CoreOk(c) && oid < |c.orders|
    ensures var f := D.HandleRetrieve(c, oid, env, ch); CoreOk(f) && Extends(c, f)
  {
    hide CoreOk, D.Fail, D.PickupAndDispatch;
    var c1 := D.Sourcing1(c, oid);
    StatusOk(c, oid, Sourcing, S.Note("sourcing"));
    var row := if ch.source.Some? then T.PayloadById(c.payloads, ch.source.value) else None;
    if row.None? || row.value.node.None? {
      FailOk(c1, oid, env, "no_source");
    } else {
      var c2 := c1.(payloads := S.Claimed(c1.payloads, row.value.id, oid));
      RowsOk(c1, c2);
      var source := T.NodeById(c.nodes, row.value.node.value);
      if source.None? { FailOk(c2, oid, env, "node_error"); } else { PickupOk(c2, oid, env, source.value, ch.fleet); }
    }
  }

  lemma MoveOk(c: S.Core, oid: nat, env: Envelope, code: string, fleet: D.FleetReply)
    requires CoreOk(c) && oid < |c.orders|
    ensures var f := D.HandleMove(c, oid, env, code, fleet); CoreOk(f) && Extends(c, f)
  {
    hide CoreOk, D.Fail, D.PickupAndDispatch, T.NodeByName, D.MoveSource;
    var c1 := D.Sourcing1(c, oid);
    StatusOk(c, oid, Sourcing, S.Note("sourcing"));
    var pickup := T.NodeByName(c.nodes, c.orders[oid].pickup);
    if c.orders[oid].pickup == "" { FailOk(c1, oid, env, "missing_pickup"); }
    else if pickup.None? { FailOk(c1, oid, env, "invalid_node"); }
    else if code == "" { PickupOk(c1, oid, env, pickup.value, fleet); }
    else {
      var p := D.MoveSource(c, pickup.value.id, code);
      if p.None? { FailOk(c1, oid, env, "no_payload"); }
      else {
        var c2 := c1.(payloads := S.Claimed(c1.payloads, p.value.id, oid));
        RowsOk(c1, c2);
        PickupOk(c2, oid, env, pickup.value, fleet);
      }
    }
  }

  lemma StoreOk(c: S.Core, oid: nat, env: Envelope, ch: D.Choice)
    requires CoreOk(c) && oid < |c.orders|
    ensures var f := D.HandleStore(c, oid, env, ch); CoreOk(f) && Extends(c, f)
  {
    hide CoreOk, D.Fail, D.DispatchToFleet;
    var c1 := D.Sourcing1(c, oid);
    StatusOk(c, oid, Sourcing, S.Note("sourcing"));
    var f := D.HandleStore(c, oid, env, ch);
    if ch.destination.None? { FailOk(c1, oid, env, "no_storage"); }
    else {
      var dest := ch.destination.value;
      var c2 := S.SetOrder(c1, oid, c1.orders[oid].(delivery := dest.name));
      assert CoreOk(c2) && Extends(c1, c2) by { RowsOk(c1, c2); }
      var name := if c.orders[oid].pickup != "" then c.orders[oid].pickup else dest.name;
      if name == "" { FailOk(c2, oid, env, "missing_pickup"); }
      else if T.NodeByName(c.nodes, name).None? { FailOk(c2, oid, env, "invalid_node"); }
      else { StoreDispatchOk(c2, oid, env, T.NodeByName(c.nodes, name).value, ch.fleet); }
    }
  }

  lemma StoreDispatchOk(c: S.Core, oid: nat, env: Envelope, pickup: T.Node, fleet: D.FleetReply)
    requires CoreOk(c) && oid < |c.orders|
    ensures var f := D.DispatchToFleet(D.SetPickup(c, oid, pickup.name), oid, env, pickup, fleet);
      CoreOk(f) && Extends(c, f)
  {
    RowsOk(c, D.SetPickup(c, oid, pickup.name));
    DispatchOk(D.SetPickup(c, oid, pickup.name), oid, env, pickup, fleet);
  }

  lemma InsertOk(c: S.Core, o: S.Order)
    requires CoreOk(c) && o.vendor.None?
    ensures CoreOk(D.Insert(c, o)) && Extends(c, D.Insert(c, o)) && |D.Insert(c, o).orders| == |c.orders| + 1
  {
    QuietOk(c, D.Insert(c, o));
  }

  lemma RequestOk(c: S.Core, env: Envelope, ch: D.Choice)
    requires CoreOk(c) && env.body.Request?
    ensures var f := D.HandleRequest(c, env, ch);
      CoreOk(f) && Extends(c, f) && (!D.Refused(c, env) ==> |f.orders| > |c.orders|)
  {
    hide CoreOk, D.Fail, D.HandleRetrieve, D.HandleMove, D.HandleStore;
    var r := env.body;
    var t := T.TypeByName(c.types, r.payloadTypeCode);
    if t.None? { ErrorOk(c, env, "payload_type_error"); }
    else if r.deliveryNode != "" && T.NodeByName(c.nodes, r.deliveryNode).None? { ErrorOk(c, env, "invalid_node"); }
    else {
      var o := S.Order(r.uuid, env.src, r.orderType, Pending, r.pickupNode, r.deliveryNode, None, S.FUnknown(""), "",
        Some(t.value.id), false);
      InsertOk(c, o);
      var c1 := D.Insert(c, o);
      match r.orderType {
        case Retrieve => RetrieveOk(c1, |c.orders|, env, ch);
        case Move => MoveOk(c1, |c.orders|, env, r.payloadTypeCode, ch.fleet);
        case Store => StoreOk(c1, |c.orders|, env, ch);
        case OtherType(_) => FailOk(c1, |c.orders|, env, "unknown_type");
      }
    }
  }

  lemma WaybillOk(c: S.Core, env: Envelope, ch: D.Choice)
    requires CoreOk(c) && env.body.StorageWaybill?
    ensures var f := D.HandleWaybill(c, env, ch); CoreOk(f) && Extends(c, f)
  {
    hide CoreOk, D.HandleStore;
    var w := env.body;
    var o := S.Order(w.uuid, env.src, w.orderType, Pending, w.pickupNode, "", None, S.FUnknown(""), "", None, false);
    InsertOk(c, o);
    StoreOk(D.Insert(c, o), |c.orders|, env, ch);
  }

  lemma CancelOk(c: S.Core, env: Envelope)
    requires CoreOk(c) && env.body.Cancel?
    ensures CoreOk(D.HandleCancel(c, env)) && Extends(c, D.HandleCancel(c, env))
  {
    var found := S.OrderByUuid(c.orders, env.body.uuid);
    if found.Some? {
      var c1 := D.UnclaimOrder(c, found.value);
      RowsOk(c, c1);
      StatusOk(c1, found.value, Cancelled, S.Note(env.body.reason));
      SendOk(S.UpdateStatus(c1, found.value, Cancelled, S.Note(env.body.reason)),
             CoreMsg(env.src, Some(env.id), CancelledNotice(env.body.uuid, env.body.reason)));
    }
  }

  lemma RedirectOk(c: S.Core, env: Envelope, fleet: D.FleetReply)
    requires CoreOk(c) && env.body.Redirect?
    ensures CoreOk(D.HandleRedirect(c, env, fleet)) && Extends(c, D.HandleRedirect(c, env, fleet))
  {
    hide CoreOk, D.DispatchToFleet;
    var found := S.OrderByUuid(c.orders, env.body.uuid);
    if found.Some? {
      var oid := found.value;
      if T.NodeByName(c.nodes, env.body.newDeliveryNode).None? { ErrorOk(c, env, "invalid_node"); }
      else if c.orders[oid].pickup == "" || T.NodeByName(c.nodes, c.orders[oid].pickup).None? {
        ErrorOk(c, env, "redirect_failed");
      }
      else {
        StatusOk(c, oid, Sourcing, S.Note("sourcing"));
        DispatchOk(D.Sourcing1(c, oid), oid, env, T.NodeByName(c.nodes, c.orders[oid].pickup).value, fleet);
      }
    }
  }

  lemma AssignOk(c: S.Core, oid: nat, s: S.FleetState, robot: string)
    requires CoreOk(c) && oid < |c.orders| && c.orders[oid].vendor.Some?
    ensures var f := D.AssignRobot(c, oid, s, robot);
      CoreOk(f) && Extends(c, f) && |f.orders| == |c.orders| && f.orders[oid].vendor == c.orders[oid].vendor
  {
    var o := c.orders[oid];
    if robot != "" && o.robot == "" {
      var c1 := S.UpdateVendor(c, oid, o.vendor, s, robot);
      RowsOk(c, c1);
      assert WasDispatched(c1, c1.orders[oid].uuid);
      SendOk(c1, CoreMsg(o.station, None, Waybill(o.uuid, o.vendor.value, robot, "")));
    }
  }

  /** Status, vendor fields and the update message. */
  lemma UpdateOk(c: S.Core, oid: nat, s: S.FleetState, robot: string)
    requires CoreOk(c) && oid < |c.orders|
    ensures var o, to := c.orders[oid], D.MapState(s);
      var f := D.Notify(S.UpdateVendor(S.UpdateStatus(c, oid, to, S.FromFleet(s)), oid, o.vendor, s, robot), oid,
        Update(o.uuid, to, ""));
      CoreOk(f) && Extends(c, f)
  {
    var o, to := c.orders[oid], D.MapState(s);
    var c0 := S.UpdateStatus(c, oid, to, S.FromFleet(s));
    StatusOk(c, oid, to, S.FromFleet(s));
    var c1 := S.UpdateVendor(c0, oid, o.vendor, s, robot);
    assert CoreOk(c1) && Extends(c0, c1) by { RowsOk(c0, c1); }
    SendOk(c1, CoreMsg(o.station, None, Update(o.uuid, to, "")));
  }

  /** A delivered notice goes out after dispatched and delivered are both on record, in that order. */
  lemma DeliveredOk(c: S.Core, oid: nat, d: S.Detail)
    requires CoreOk(c) && oid < |c.orders| && c.orders[oid].vendor.Some?
    ensures var f := D.Notify(S.UpdateStatus(c, oid, Delivered, d), oid, DeliveredNotice(c.orders[oid].uuid));
      CoreOk(f) && Extends(c, f)
  {
    var o := c.orders[oid];
    var c1 := S.UpdateStatus(c, oid, Delivered, d);
    StatusOk(c, oid, Delivered, d);
    var i :| Entry(c, i, o.uuid, Dispatched);
    EntryStays(c, c1, i, o.uuid, Dispatched);
    assert Entry(c1, |c.history|, o.uuid, Delivered);
    assert DispatchedThenDelivered(c1, o.uuid, |c1.history|);
    SendOk(c1, CoreMsg(o.station, None, DeliveredNotice(o.uuid)));
  }

  lemma AdvanceOk(c: S.Core, oid: nat, s: S.FleetState, robot: string)
    requires CoreOk(c) && oid < |c.orders| && c.orders[oid].vendor.Some?
    ensures var f := D.Advance(c, oid, c.orders[oid].vendor, s, robot); CoreOk(f) && Extends(c, f)
  {
    hide CoreOk;
    var o, to := c.orders[oid], D.MapState(s);
    var c2 := D.Notify(S.UpdateVendor(S.UpdateStatus(c, oid, to, S.FromFleet(s)), oid, o.vendor, s, robot), oid,
      Update(o.uuid, to, ""));
    UpdateOk(c, oid, s, robot);
    if D.IsTerminalState(s) {
      StatusOk(c2, oid, to, S.FromFleet(s));
      if to == Delivered { DeliveredOk(c2, oid, S.FromFleet(s)); }
    }
  }

  lemma ReportOk(c: S.Core, v: VendorId, s: S.FleetState, robot: string)
    requires CoreOk(c)
    ensures CoreOk(D.HandleReport(c, v, s, robot)) && Extends(c, D.HandleReport(c, v, s, robot))
  {
    hide CoreOk, D.Advance;
    var found := S.OrderByVendor(c.orders, v);
    if found.Some? {
      AssignOk(c, found.value, s, robot);
      AdvanceOk(D.AssignRobot(c, found.value, s, robot), found.value, s, robot);
    }
  }

  lemma {:induction false} MoveAllRecord(c: S.Core, ids: seq<nat>, node: nat, now: int)
    ensures var f := S.MoveAll(c, ids, node, now); f == c.(payloads := f.payloads, cache := f.cache)
    decreases |ids|
  {
    if ids != [] { MoveAllRecord(S.MovePayload(c, ids[0], node, now), ids[1..], node, now); }
  }

  lemma RecordReceiptOk(c: S.Core, oid: nat)
    requires CoreOk(c) && oid < |c.orders|
    ensures var f := D.RecordReceipt(c, oid);
      && CoreOk(f) && Records(c, f) && f.outbox == c.outbox && |f.orders| == |c.orders|
      && |f.history| == |c.history| + 2
        && f.history[|c.history|].status == f.history[|c.history| + 1].status == Confirmed
      && f.history[|c.history|].order == f.history[|c.history| + 1].order == oid
  {
    QuietOk(c, D.RecordReceipt(c, oid));
  }

  lemma OnCompletedOk(c: S.Core, oid: nat, now: int)
    requires CoreOk(c) && oid < |c.orders|
    ensures var f := D.OnCompleted(c, oid, now);
      CoreOk(f) && f.history == c.history && f.orders == c.orders && f.outbox == c.outbox
  {
    hide CoreOk, S.MoveAll, S.ClaimedIds;
    var o := c.orders[oid];
    if o.pickup != "" && o.delivery != "" && T.NodeByName(c.nodes, o.delivery).Some? {
      MoveAllRecord(c, S.ClaimedIds(c.payloads, oid), T.NodeByName(c.nodes, o.delivery).value.id, now);
    }
    RowsOk(c, D.OnCompleted(c, oid, now));
  }

  /** A receipt adds two confirmed entries for its UUID and nothing else to the record. */
  lemma ReceiptOk(c: S.Core, env: Envelope, now: int)
    requires CoreOk(c) && env.body.Receipt?
    ensures var f := D.HandleReceipt(c, env, now);
      && CoreOk(f) && Records(c, f) && f.outbox == c.outbox
      && forall k :: |c.history| <= k < |f.history| ==> Entry(f, k, env.body.uuid, Confirmed)
  {
    hide CoreOk, D.OnCompleted, D.RecordReceipt;
    var found := S.OrderByUuid(c.orders, env.body.uuid);
    if found.Some? {
      RecordReceiptOk(c, found.value);
      OnCompletedOk(D.RecordReceipt(c, found.value), found.value, now);
    }
  }

  lemma CoreStepOk(c: S.Core, a: D.Action)
    requires CoreOk(c) && !(a.AMessage? && a.env.body.Receipt?)
    ensures CoreOk(D.Step(c, a)) && Extends(c, D.Step(c, a))
  {
    match a
    case AMessage(env, ch, now) =>
      match env.body {
        case Request(_, _, _, _, _, _, _) => RequestOk(c, env, ch);
        case Cancel(_, _) => CancelOk(c, env);
        case Redirect(_, _) => RedirectOk(c, env, ch.fleet);
        case StorageWaybill(_, _, _, _) => WaybillOk(c, env, ch);
      }
    case AReport(v, s, robot) => ReportOk(c, v, s, robot);
    case AAdd(t, n, st, notes, at) => RowsOk(c, D.Step(c, a));
    case ARemove(id) => RowsOk(c, D.Step(c, a));
    case ASync => R.SyncTables(c); RowsOk(c, S.Sync(c));
  }

  // ---------- the edge's side ----------

  /** Statuses an edge order may take on its own account. */
  predicate OwnMove(s: Status) { s == Submitted || s == Cancelled || s == Confirmed || s == Failed }

  /** New hops are the edge's own moves, or the one the reply asks for on the order it names. */
  ghost predicate NewHops(e: E.Edge, f: E.Edge, reply: Option<CoreBody>) {
    && L.Grows(e, f)
    && forall k :: |e.history| <= k < |f.history| ==>
         var h := f.history[k];
         h.order < |f.orders|
         && (OwnMove(h.to)
             || (reply.Some? && E.Target(reply.value) == Some(h.to) && f.orders[h.order].uuid == reply.value.uuid))
  }

  lemma CreateHops(e: E.Edge, o: E.Order)
    requires L.EdgeInv(e) && o.status == Pending && (o.orderType == Retrieve || o.orderType == Move)
    ensures NewHops(e, E.CreateAndSubmit(e, o), None)
  {
  }

  lemma {:induction false} ConsumeHops(e: E.Edge, listing: seq<E.Payload>, i: nat, js: nat, delta: int,
                                       uuids: seq<string>)
    requires L.EdgeInv(e) && i <= |listing| == |e.payloads|
    ensures NewHops(e, E.ConsumeFrom(e, listing, i, js, delta, uuids), None)
    decreases |listing| - i
  {
    if i < |listing| {
      var p, u := listing[i], E.UuidFor(uuids, i);
      var e1 := if E.Listed(p, js) then E.Consume(e, p, i, delta, u) else e;
      if E.Listed(p, js) { Consume1Hops(e, p, i, delta, u); }
      ConsumeHops(e1, listing, i + 1, js, delta, uuids);
    }
  }

  lemma Consume1Hops(e: E.Edge, p: E.Payload, pid: nat, delta: int, uuid: string)
    requires L.EdgeInv(e) && pid < |e.payloads|
    ensures NewHops(e, E.Consume(e, p, pid, delta, uuid), None) && L.EdgeInv(E.Consume(e, p, pid, delta, uuid))
  {
    L.ConsumeKeeps(e, p, pid, delta, uuid);
    L.ConsumeIsDrawnThenOrdered(e, p, pid, delta, uuid);
    L.DrawnEffect(e, p, pid, delta);
    var d := L.Drawn(e, p, pid, delta);
    L.PayloadFrame(e, d);
    if L.Reorders(p, delta) { CreateHops(d, L.Reorder(e, p, pid, uuid)); }
  }

  lemma LocalHops(e: E.Edge, a: E.Action)
    requires L.EdgeInv(e) && !a.AReply?
    ensures NewHops(e, E.Step(e, a), None)
  {
    hide E.ConsumeFrom, E.Transition, E.Confirm, E.CreateAndSubmit, L.EdgeInv;
    L.StepKeeps(e, a);
    match a
    case ACounterDelta(js, d, uuids) => if js != 0 { ConsumeHops(e, e.payloads, 0, js, d, uuids); }
    case ACreateRetrieve(uuid, pid, re, q, d, s, lt, ac) =>
      CreateHops(e, E.NewOrder(uuid, Retrieve, pid, re, q, d, s, "", lt, ac));
    case ACreateMove(uuid, pid, q, pickup, d) =>
      CreateHops(e, E.NewOrder(uuid, Move, pid, false, q, d, "", pickup, "", false));
    case ASubmit(o) => if E.CanTransition(e, o, Submitted) { L.TransitionEffect(e, o, Submitted); }
    case AAbort(o) => if E.CanTransition(e, o, Cancelled) { L.TransitionEffect(e, o, Cancelled); }
    case AConfirm(o, c) => ConfirmHops(e, o, c);
    case _ =>
  }

  lemma ConfirmHops(e: E.Edge, oid: nat, count: real)
    requires L.EdgeInv(e)
    ensures var f := E.Confirm(e, oid, count);
      f.history == e.history || (oid < |f.orders| && exists s :: f.history == e.history + [E.Hop(oid, s, Confirmed)])
  {
  }

  lemma ReplyHops(e: E.Edge, body: CoreBody)
    requires L.EdgeInv(e)
    ensures NewHops(e, E.Reply(e, body), Some(body))
  {
    hide L.EdgeInv, L.Rank, E.Transition, E.Confirm;
    L.ReplyKeeps(e, body);
    var found := E.OrderByUuid(e.orders, body.uuid);
    if found.Some? {
      var oid := found.value;
      var f := E.Reply(e, body);
      assert L.OrderGrows(e.orders[oid], f.orders[oid]);
      match body
      case Waybill(_, w, _, eta) =>
        var e1 := E.SetOrder(e, oid, e.orders[oid].(waybillId := Some(w), eta := eta));
        if E.CanTransition(e1, oid, InTransit) { L.TransitionEffect(e1, oid, InTransit); }
      case Update(_, _, eta) =>
      case DeliveredNotice(_) =>
        if E.CanTransition(e, oid, Delivered) {
          var e1 := E.Transition(e, oid, Delivered);
          L.TransitionEffect(e, oid, Delivered);
          L.TransitionKeeps(e, oid, Delivered, None);
          ConfirmHops(e1, oid, e.orders[oid].quantity);
        }
      case _ =>
        if E.CanTransition(e, oid, E.Target(body).value) { L.TransitionEffect(e, oid, E.Target(body).value); }
    }
  }

  // ---------- the system invariant ----------

  /** Every hop of an edge order has what it needs on record at core. */
  ghost predicate HopsEvidenced(e: E.Edge, c: S.Core) {
    forall h :: h in e.history ==> h.order < |e.orders| && Evidence(c, e.orders[h.order].uuid, h.to)
  }

  ghost predicate ConfirmedAt(n: Net, u: string, x: string, oid: nat) {
    && x in n.edges && oid < |n.edges[x].orders|
    && n.edges[x].orders[oid].uuid == u && n.edges[x].orders[oid].status == Confirmed
  }

  /** Position `k` of core's record confirms a UUID only after its whole life on both nodes. */
  ghost predicate Caused(n: Net, k: nat)
    requires k < |n.core.history| && n.core.history[k].order < |n.core.orders|
  {
    var u := n.core.orders[n.core.history[k].order].uuid;
    DispatchedThenDelivered(n.core, u, k) && exists x, oid: nat :: ConfirmedAt(n, u, x, oid)
  }

  ghost predicate NetInv(n: Net) {
    && (forall x :: x in n.edges ==> L.EdgeInv(n.edges[x]) && HopsEvidenced(n.edges[x], n.core))
    && CoreOk(n.core)
    && (forall k :: 0 <= k < |n.core.history| && n.core.history[k].status == Confirmed ==> Caused(n, k))
  }

  lemma CausedStays(n: Net, m: Net, k: nat)
    requires k < |n.core.history| && n.core.history[k].order < |n.core.orders| && Caused(n, k)
    requires Records(n.core, m.core)
    requires forall x :: x in n.edges ==> x in m.edges && L.Grows(n.edges[x], m.edges[x])
    ensures k < |m.core.history| && m.core.history[k] == n.core.history[k]
      && m.core.history[k].order < |m.core.orders| && Caused(m, k)
  {
    assert m.core.history[k] == n.core.history[k];
    var u := n.core.orders[n.core.history[k].order].uuid;
    var i, j :| i < j < k && Entry(n.core, i, u, Dispatched) && Entry(n.core, j, u, Delivered);
    EntryStays(n.core, m.core, i, u, Dispatched);
    EntryStays(n.core, m.core, j, u, Delivered);
    var x, oid: nat :| ConfirmedAt(n, u, x, oid);
    assert L.OrderGrows(n.edges[x].orders[oid], m.edges[x].orders[oid]);
    assert ConfirmedAt(m, u, x, oid);
  }

  lemma EvidencedStays(e: E.Edge, c: S.Core, f: S.Core)
    requires HopsEvidenced(e, c) && Records(c, f)
    ensures HopsEvidenced(e, f)
  {
    forall h | h in e.history ensures h.order < |e.orders| && Evidence(f, e.orders[h.order].uuid, h.to) {
      EvidenceStays(c, f, e.orders[h.order].uuid, h.to);
    }
  }

  /** A step of one edge. */
  lemma EdgeStepKeeps(n: Net, at: string, f: E.Edge, reply: Option<CoreBody>)
    requires NetInv(n) && at in n.edges && L.EdgeInv(f) && NewHops(n.edges[at], f, reply)
    requires reply.Some? && E.Target(reply.value).Some? ==>
      Evidence(n.core, reply.value.uuid, E.Target(reply.value).value)
    ensures NetInv(n.(edges := n.edges[at := f]))
  {
    var m := n.(edges := n.edges[at := f]);
    forall x | x in n.edges ensures L.Grows(n.edges[x], m.edges[x]) { L.GrowsSelf(n.edges[x]); }
    forall k | 0 <= k < |m.core.history| && m.core.history[k].status == Confirmed ensures Caused(m, k) {
      CausedStays(n, m, k);
    }
  }

  /** A step of core that confirms nothing. */
  lemma CoreStepKeeps(n: Net, f: S.Core)
    requires NetInv(n) && CoreOk(f) && Extends(n.core, f)
    ensures NetInv(n.(core := f))
  {
    var m := n.(core := f);
    forall x | x in m.edges ensures HopsEvidenced(m.edges[x], f) { EvidencedStays(n.edges[x], n.core, f); }
    forall x | x in n.edges ensures L.Grows(n.edges[x], m.edges[x]) { L.GrowsSelf(n.edges[x]); }
    forall k | 0 <= k < |f.history| && f.history[k].status == Confirmed ensures Caused(m, k) {
      assert k < |n.core.history| && f.history[k] == n.core.history[k];
      CausedStays(n, m, k);
    }
  }

  // ---------- receipts ----------

  lemma {:induction false} LetterPresent(box: seq<Envelope>, k: nat)
    requires k < |box|
    ensures L.LetterOf(box[k].body) in L.LettersOf(box, box[k].body.uuid)
  {
    var front := box[..|box| - 1];
    if k < |front| {
      LetterPresent(front, k);
      assert front[k] == box[k];
    }
  }

  lemma {:induction false} HopsIn(h: seq<E.Hop>, oid: nat, x: E.Hop)
    requires x in L.HopsOf(h, oid)
    ensures x in h && x.order == oid
  {
    if h != [] {
      var front := h[..|h| - 1];
      if x in L.HopsOf(front, oid) { HopsIn(front, oid, x); }
    }
  }

  /** A receipt in an edge's outbox: that edge's order went through the whole chain. */
  lemma ReceiptMeansConfirmed(e: E.Edge, k: nat) returns (oid: nat)
    requires L.EdgeInv(e) && k < |e.outbox| && e.outbox[k].body.Receipt?
    ensures oid < |e.orders| && e.orders[oid].uuid == e.outbox[k].body.uuid && e.orders[oid].status == Confirmed
    ensures L.HopsOf(e.history, oid) == L.FullChain(oid)
  {
    var u := e.outbox[k].body.uuid;
    LetterPresent(e.outbox, k);
    assert E.UuidTaken(e, u);
    oid :| 0 <= oid < |e.orders| && e.orders[oid].uuid == u;
    assert L.OrderFits(e, oid);
    L.WordShape(e.orders[oid], L.HopsOf(e.history, oid), L.LettersOf(e.outbox, u), L.Completions(e.events, oid));
    L.HopsOfOwn(e.history, oid);
    L.ChainForced(L.HopsOf(e.history, oid), Confirmed, oid);
  }

  lemma ReceiptStepKeeps(n: Net, at: string, k: nat, now: int)
    requires NetInv(n) && at in n.edges && k < |n.edges[at].outbox| && n.edges[at].outbox[k].body.Receipt?
    ensures NetInv(n.(core := D.HandleReceipt(n.core, n.edges[at].outbox[k], now)))
  {
    var e := n.edges[at];
    var u := e.outbox[k].body.uuid;
    var f := D.HandleReceipt(n.core, e.outbox[k], now);
    var m := n.(core := f);
    ReceiptOk(n.core, e.outbox[k], now);
    var oid := ReceiptMeansConfirmed(e, k);
    DeliveredOnRecord(e, n.core, oid);
    forall x | x in m.edges ensures HopsEvidenced(m.edges[x], f) { EvidencedStays(n.edges[x], n.core, f); }
    forall x | x in n.edges ensures L.Grows(n.edges[x], m.edges[x]) { L.GrowsSelf(n.edges[x]); }
    forall q | 0 <= q < |f.history| && f.history[q].status == Confirmed ensures Caused(m, q) {
      if q < |n.core.history| {
        assert f.history[q] == n.core.history[q];
        CausedStays(n, m, q);
      } else {
        assert Entry(f, q, u, Confirmed) && ConfirmedAt(m, u, at, oid);
        var i, j :| i < j < |n.core.history| && Entry(n.core, i, u, Dispatched) && Entry(n.core, j, u, Delivered);
        EntryStays(n.core, f, i, u, Dispatched);
        EntryStays(n.core, f, j, u, Delivered);
      }
    }
  }

  lemma DeliveredOnRecord(e: E.Edge, c: S.Core, oid: nat)
    requires HopsEvidenced(e, c) && L.HopsOf(e.history, oid) == L.FullChain(oid) && oid < |e.orders|
    ensures DispatchedThenDelivered(c, e.orders[oid].uuid, |c.history|)
  {
    var h := E.Hop(oid, InTransit, Delivered);
    assert L.FullChain(oid)[3] == h;
    HopsIn(e.history, oid, h);
  }

  // ---------- steps and runs ----------

  lemma StepKeeps(n: Net, a: Action)
    requires NetInv(n)
    ensures NetInv(Step(n, a))
  {
    hide D.HandleRequest, D.HandleWaybill, D.HandleCancel, D.HandleRedirect, D.HandleReceipt, D.HandleReport;
    hide E.Step, E.Reply, L.EdgeInv;
    match a
    case ALocal(at, act) =>
      if at in n.edges && !act.AReply? {
        L.StepKeeps(n.edges[at], act);
        LocalHops(n.edges[at], act);
        EdgeStepKeeps(n, at, E.Step(n.edges[at], act), None);
      }
    case AToCore(at, k, ch, now) =>
      if at in n.edges && k < |n.edges[at].outbox| {
        var env := n.edges[at].outbox[k];
        if env.body.Receipt? { ReceiptStepKeeps(n, at, k, now); }
        else {
          CoreStepOk(n.core, D.AMessage(env, ch, now));
          CoreStepKeeps(n, D.HandleMessage(n.core, env, ch, now));
        }
      }
    case AToEdge(k, at) =>
      if Step(n, a) != n {
        var m := n.core.outbox[k];
        assert MessageOk(n.core, m);
        L.ReplyKeeps(n.edges[at], m.body);
        ReplyHops(n.edges[at], m.body);
        EdgeStepKeeps(n, at, E.Reply(n.edges[at], m.body), Some(m.body));
      }
    case ACore(own) =>
      if !own.AMessage? {
        CoreStepOk(n.core, own);
        CoreStepKeeps(n, D.Step(n.core, own));
      }
  }

  lemma {:induction false} RunKeeps(n: Net, acts: seq<Action>)
    requires NetInv(n)
    ensures NetInv(Run(n, acts))
    decreases |acts|
  {
    if acts != [] {
      StepKeeps(n, acts[0]);
      RunKeeps(Step(n, acts[0]), acts[1..]);
    }
  }

  lemma InitHolds(n: Net)
    requires Init(n)
    ensures NetInv(n)
  {
  }

  /** An edge order that went through the whole chain. */
  ghost predicate WentThrough(n: Net, x: string, oid: nat, u: string) {
    && x in n.edges && oid < |n.edges[x].orders| && n.edges[x].orders[oid].uuid == u
    && n.edges[x].orders[oid].status == Confirmed && L.HopsOf(n.edges[x].history, oid) == L.FullChain(oid)
  }

  /**
   Core records `confirmed` for a UUID only if an edge order of that UUID went through pending, submitted,
   acknowledged, in transit, delivered and confirmed, and only after core recorded dispatched and then
   delivered for it, whatever the network lost, repeated or reordered.
   */
  lemma Causality(n: Net, acts: seq<Action>, k: nat, u: string)
    requires Init(n) && Entry(Run(n, acts).core, k, u, Confirmed)
    ensures var f := Run(n, acts);
      DispatchedThenDelivered(f.core, u, k) && exists x, oid: nat :: WentThrough(f, x, oid, u)
  {
    hide L.HopsOf, L.Chain, Run, CoreOk, HopsEvidenced;
    InitHolds(n);
    RunKeeps(n, acts);
    var f := Run(n, acts);
    assert Caused(f, k);
    var x, oid: nat :| ConfirmedAt(f, u, x, oid);
    var e := f.edges[x];
    assert L.OrderFits(e, oid);
    L.HopsOfOwn(e.history, oid);
    L.ChainForced(L.HopsOf(e.history, oid), Confirmed, oid);
    assert WentThrough(f, x, oid, u);
  }

  /** Every status an edge order ever took from core is backed by core's own record. */
  lemma EdgeFollowsCore(n: Net, acts: seq<Action>, x: string, h: E.Hop)
    requires Init(n) && x in Run(n, acts).edges && h in Run(n, acts).edges[x].history
    ensures var f := Run(n, acts); var e := f.edges[x];
      && h.order < |e.orders|
      && (h.to == Acknowledged || h.to == InTransit ==> WasDispatched(f.core, e.orders[h.order].uuid))
      && (h.to == Delivered ==> DispatchedThenDelivered(f.core, e.orders[h.order].uuid, |f.core.history|))
  {
    InitHolds(n);
    RunKeeps(n, acts);
    assert HopsEvidenced(Run(n, acts).edges[x], Run(n, acts).core);
  }

  // ---------- inventory ----------

  /** The action as core sees it, if it is one of core's steps. */
  function CoreAction(n: Net, a: Action): Option<D.Action> {
    match a
    case AToCore(at, k, ch, now) =>
      if at in n.edges && k < |n.edges[at].outbox| then Some(D.AMessage(n.edges[at].outbox[k], ch, now)) else None
    case ACore(own) => if own.AMessage? then None else Some(own)
    case _ => None
  }

  ghost predicate Enabled(n: Net, a: Action) {
    CoreAction(n, a).Some? ==> D.Enabled(n.core, CoreAction(n, a).value)
  }

  ghost predicate EnabledRun(n: Net, acts: seq<Action>)
    decreases |acts|
  {
    acts != [] ==> Enabled(n, acts[0]) && EnabledRun(Step(n, acts[0]), acts[1..])
  }

  lemma {:induction false} ClaimsKept(n: Net, acts: seq<Action>)
    requires C.Inv(n.core) && EnabledRun(n, acts)
    ensures C.Inv(Run(n, acts).core)
    decreases |acts|
  {
    if acts != [] {
      var a := acts[0];
      if CoreAction(n, a).Some? { R.StepKeeps(n.core, CoreAction(n, a).value); }
      ClaimsKept(Step(n, a), acts[1..]);
    }
  }

  /** Stock changes place only when a receipt arrives, hence only after the whole life of its UUID on both nodes. */
  lemma InventoryFollowsConfirmation(n: Net, acts: seq<Action>, a: Action, p: T.Payload, p': T.Payload)
    requires Init(n) && EnabledRun(n, acts) && Enabled(Run(n, acts), a)
    requires p in Run(n, acts).core.payloads && p' in Step(Run(n, acts), a).core.payloads && p.id == p'.id
      && p.node != p'.node
    ensures var f := Run(n, acts);
      && a.AToCore? && a.at in f.edges && a.k < |f.edges[a.at].outbox| && f.edges[a.at].outbox[a.k].body.Receipt?
      && var u := f.edges[a.at].outbox[a.k].body.uuid;
        DispatchedThenDelivered(f.core, u, |f.core.history|) && exists oid: nat :: WentThrough(f, a.at, oid, u)
  {
    hide Run, L.EdgeInv, CoreOk, DispatchedThenDelivered, L.HopsOf, L.FullChain;
    InitHolds(n);
    RunKeeps(n, acts);
    ClaimsKept(n, acts);
    var f := Run(n, acts);
    if CoreAction(f, a).None? {
      C.SameId(f.core.payloads, p, p');
    } else {
      var act := CoreAction(f, a).value;
      if !(act.AMessage? && act.env.body.Receipt?) { R.NoClaimOverwritten(f.core, act, p, p'); }
      var e := f.edges[a.at];
      var oid := ReceiptMeansConfirmed(e, a.k);
      DeliveredOnRecord(e, f.core, oid);
      assert WentThrough(f, a.at, oid, e.outbox[a.k].body.uuid);
    }
  }
}
