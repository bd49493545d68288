/**
 What core's handlers keep about inventory claims: no claim outlives its order's transport unless the
 fleet itself ended it, no claim is overwritten, and inventory moves only with a receipt.
 */
module CoreClaims {
  import opened Protocol
  import opened CoreTables
  import opened CoreState
  import opened CoreDispatch

  /** The newest history entry of an order. */
  function LastOf(h: seq<Hist>, oid: nat): Option<Hist> {
    if h == [] then None
    else if h[|h| - 1].order == oid then Some(h[|h| - 1])
    else LastOf(h[..|h| - 1], oid)
  }

  lemma LastAppend(h: seq<Hist>, x: Hist)
    ensures forall o :: LastOf(h + [x], o) == if x.order == o then Some(x) else LastOf(h, o)
  {
  }

  /** The last thing that happened to the order is that the fleet reported it FAILED or STOPPED. */
  predicate EndedByFleet(c: Core, oid: nat)
    requires oid < |c.orders|
  {
    var last := LastOf(c.history, oid);
    && (c.orders[oid].status == Failed || c.orders[oid].status == Cancelled)
    && last.Some? && (last.value.detail == FromFleet(FFailed) || last.value.detail == FromFleet(FStopped))
  }

  predicate UnderWay(s: Status) { s == Dispatched || s == InTransit || s == Delivered }

  /** The stored route resolves, so a receipt will find where to put the order's payloads. */
  predicate Deliverable(c: Core, oid: nat)
    requires oid < |c.orders|
  {
    c.orders[oid].pickup != "" && c.orders[oid].delivery != "" && NodeByName(c.nodes, c.orders[oid].delivery).Some?
  }

  predicate MayHold(c: Core, oid: nat) {
    oid < |c.orders| && Deliverable(c, oid) && (UnderWay(c.orders[oid].status) || EndedByFleet(c, oid))
  }

  predicate ClaimsHeld(c: Core) {
    forall p :: p in c.payloads && p.claimedBy.Some? ==> p.node.Some? && MayHold(c, p.claimedBy.value)
  }

  predicate Inv(c: Core) { Configured(c) && ClaimsHeld(c) }

  // ---------- handlers act on one order ----------

  /** A row as one handler working for order `oid` may leave it. */
  predicate RowLocal(p: Payload, p': Payload, oid: nat) {
    && p'.id == p.id && p'.typeId == p.typeId && p'.status == p.status && p'.node == p.node
      && p'.deliveredAt == p.deliveredAt
    && p'.notes == p.notes
    && (p'.claimedBy == p.claimedBy
        || (p.claimedBy.None? && p'.claimedBy == Some(oid) && p.node.Some?)
        || (p.claimedBy == Some(oid) && p'.claimedBy.None?))
  }

  ghost predicate Local(c: Core, c': Core, oid: nat) {
    && c'.types == c.types && c'.nodes == c.nodes && c'.nextPayload == c.nextPayload && c'.cache == c.cache
    && |c'.payloads| == |c.payloads|
      && (forall i :: 0 <= i < |c.payloads| ==> RowLocal(c.payloads[i], c'.payloads[i], oid))
    && |c.orders| <= |c'.orders| && (forall o :: 0 <= o < |c.orders| && o != oid ==> c'.orders[o] == c.orders[o])
    && (forall o :: o != oid ==> LastOf(c'.history, o) == LastOf(c.history, o))
  }

  lemma StatusLocal(c: Core, oid: nat, s: Status, d: Detail)
    requires oid < |c.orders|
    ensures Local(c, UpdateStatus(c, oid, s, d), oid)
    ensures LastOf(UpdateStatus(c, oid, s, d).history, oid) == Some(Hist(oid, s, d))
  {
  }

  predicate HoldsNone(payloads: seq<Payload>, oid: nat) {
    forall p :: p in payloads ==> p.claimedBy != Some(oid)
  }

  lemma UnclaimLocal(c: Core, oid: nat)
    requires SortedIds(c.payloads)
    ensures Local(c, UnclaimOrder(c, oid), oid) && HoldsNone(UnclaimOrder(c, oid).payloads, oid)
    ensures UnclaimOrder(c, oid).orders == c.orders
  {
    var ids := ClaimedIds(c.payloads, oid);
    var c' := UnclaimOrder(c, oid);
    forall i | 0 <= i < |c.payloads|
      ensures RowLocal(c.payloads[i], c'.payloads[i], oid) && c'.payloads[i].claimedBy != Some(oid) {
      var p := c.payloads[i];
      assert p in c.payloads;
      if p.id in ids {
        var q :| q in c.payloads && q.id == p.id && q.claimedBy == Some(oid);
        assert q == p;
      }
    }
  }

  predicate SameIdentity(o: Order, o': Order) {
    o'.uuid == o.uuid && o'.station == o.station && o'.orderType == o.orderType
  }

  lemma FailLocal(c: Core, oid: nat, env: Envelope, code: string)
    requires SortedIds(c.payloads) && oid < |c.orders|
    ensures var f := Fail(c, oid, env, code);
      && Local(c, f, oid) && HoldsNone(f.payloads, oid) && |f.orders| == |c.orders| && f.orders[oid].status == Failed
      && f.outbox == c.outbox + [CoreMsg(env.src, Some(env.id), Error(c.orders[oid].uuid, code))]
      && SameIdentity(c.orders[oid], f.orders[oid])
  {
  }

  /**
   One reply, correlated and addressed to the sender: an ack with the order dispatched, or an error with it
   failed and holding nothing.
   */
  ghost predicate Replied(c: Core, c': Core, oid: nat, uuid: string, env: Envelope) {
    && |c'.outbox| == |c.outbox| + 1 && c'.outbox[..|c.outbox|] == c.outbox
    && oid < |c'.orders|
    && var m := c'.outbox[|c.outbox|];
      && m.dst == env.src && m.cor == Some(env.id) && m.body.uuid == uuid
      && (m.body.Ack? || m.body.Error?)
      && (m.body.Ack? <==> c'.orders[oid].status == Dispatched)
      && (m.body.Error? ==> c'.orders[oid].status == Failed && HoldsNone(c'.payloads, oid))
  }

  lemma DispatchLocal(c: Core, oid: nat, env: Envelope, source: Node, fleet: FleetReply)
    requires SortedIds(c.payloads) && oid < |c.orders|
    ensures var f := DispatchToFleet(c, oid, env, source, fleet);
      && Local(c, f, oid) && |f.orders| == |c.orders| && Replied(c, f, oid, c.orders[oid].uuid, env)
      && (f.orders[oid].status == Dispatched <==> fleet.Accepted?)
      && f.orders[oid].pickup == c.orders[oid].pickup && f.orders[oid].delivery == c.orders[oid].delivery
      && SameIdentity(c.orders[oid], f.orders[oid])
  {
    if fleet.Rejected? {
      FailLocal(c, oid, env, "fleet_failed");
    } else {
      var c1 := UpdateVendor(c, oid, Some(VendorId(oid, fleet.tag)), FCreated, "");
      StatusLocal(c1, oid, Dispatched, Note("vendor order created"));
    }
  }

  /** What a sourcing handler ends in: dispatched with a resolvable route, or failed and empty-handed. */
  ghost predicate Sourced(c: Core, f: Core, oid: nat, env: Envelope, fleet: FleetReply)
    requires oid < |c.orders|
  {
    && Local(c, f, oid) && |f.orders| == |c.orders| && Replied(c, f, oid, c.orders[oid].uuid, env)
    && (f.orders[oid].status == Dispatched ==> fleet.Accepted?)
    && (HoldsNone(f.payloads, oid) || MayHold(f, oid))
    && SameIdentity(c.orders[oid], f.orders[oid])
  }

  lemma PickupLocal(c: Core, oid: nat, env: Envelope, source: Node, fleet: FleetReply)
    requires Configured(c) && oid < |c.orders| && source in c.nodes
    ensures Sourced(c, PickupAndDispatch(c, oid, env, source, fleet), oid, env, fleet)
  {
    var c1 := SetPickup(c, oid, source.name);
    if NodeByName(c.nodes, c.orders[oid].delivery).None? {
      FailLocal(c1, oid, env, "node_error");
    } else {
      DispatchLocal(c1, oid, env, source, fleet);
    }
  }

  lemma ClaimLocal(c: Core, id: nat, oid: nat)
    requires forall p :: p in c.payloads && p.id == id ==> p.claimedBy.None? && p.node.Some?
    ensures Local(c, c.(payloads := Claimed(c.payloads, id, oid)), oid)
  {
  }

  lemma SameId(payloads: seq<Payload>, p: Payload, q: Payload)
    requires SortedIds(payloads) && p in payloads && q in payloads && p.id == q.id
    ensures p == q
  {
  }

  lemma ClaimedConfigured(c: Core, id: nat, oid: nat)
    requires Configured(c)
    ensures Configured(c.(payloads := Claimed(c.payloads, id, oid)))
  {
  }

  lemma SourcedStep(c: Core, c1: Core, f: Core, oid: nat, env: Envelope, fleet: FleetReply)
    requires oid < |c.orders| == |c1.orders| && Local(c, c1, oid) && Sourced(c1, f, oid, env, fleet)
    requires c1.outbox == c.outbox && SameIdentity(c.orders[oid], c1.orders[oid])
    ensures Sourced(c, f, oid, env, fleet)
  {
  }

  lemma FailSourced(c: Core, oid: nat, env: Envelope, code: string, fleet: FleetReply)
    requires SortedIds(c.payloads) && oid < |c.orders|
    ensures Sourced(c, Fail(c, oid, env, code), oid, env, fleet)
  {
  }

  lemma RetrieveSourced(c: Core, oid: nat, env: Envelope, ch: Choice, code: string)
    requires Configured(c) && oid < |c.orders| && IsFifoSource(c.types, c.nodes, c.payloads, code, ch.source)
    ensures Sourced(c, HandleRetrieve(c, oid, env, ch), oid, env, ch.fleet)
  {
    hide Fail, PickupAndDispatch, DispatchToFleet, LastOf, Sourced;
    var c1 := Sourcing1(c, oid);
    StatusLocal(c, oid, Sourcing, Note("sourcing"));
    var row := if ch.source.Some? then PayloadById(c.payloads, ch.source.value) else None;
    if row.None? || row.value.node.None? {
      FailSourced(c1, oid, env, "no_source", ch.fleet);
      SourcedStep(c, c1, HandleRetrieve(c, oid, env, ch), oid, env, ch.fleet);
    } else {
      var id := row.value.id;
      var p :| p in c.payloads && p.id == ch.source.value && Eligible(c.types, c.nodes, p, code);
      SameId(c.payloads, p, row.value);
      forall q | q in c1.payloads && q.id == id ensures q.claimedBy.None? && q.node.Some? { SameId(c.payloads, p, q); }
      ClaimLocal(c1, id, oid);
      ClaimedConfigured(c1, id, oid);
      var c2 := c1.(payloads := Claimed(c1.payloads, id, oid));
      var source := NodeById(c.nodes, row.value.node.value);
      if source.None? { FailSourced(c2, oid, env, "node_error", ch.fleet); }
      else { PickupLocal(c2, oid, env, source.value, ch.fleet); }
      SourcedStep(c, c2, HandleRetrieve(c, oid, env, ch), oid, env, ch.fleet);
    }
  }

  lemma MoveSourced(c: Core, oid: nat, env: Envelope, code: string, fleet: FleetReply)
    requires Configured(c) && oid < |c.orders|
    ensures Sourced(c, HandleMove(c, oid, env, code, fleet), oid, env, fleet)
  {
    hide Fail, PickupAndDispatch, DispatchToFleet, LastOf, Sourced;
    var c1 := Sourcing1(c, oid);
    StatusLocal(c, oid, Sourcing, Note("sourcing"));
    var f := HandleMove(c, oid, env, code, fleet);
    var pickup := NodeByName(c.nodes, c.orders[oid].pickup);
    if c.orders[oid].pickup == "" {
      FailSourced(c1, oid, env, "missing_pickup", fleet);
    } else if pickup.None? {
      FailSourced(c1, oid, env, "invalid_node", fleet);
    } else if code == "" {
      PickupLocal(c1, oid, env, pickup.value, fleet);
    } else {
      var p := MoveSource(c, pickup.value.id, code);
      if p.None? {
        FailSourced(c1, oid, env, "no_payload", fleet);
      } else {
        forall q | q in c1.payloads && q.id == p.value.id ensures q.claimedBy.None? && q.node.Some? {
          SameId(c.payloads, p.value, q);
        }
        ClaimLocal(c1, p.value.id, oid);
        ClaimedConfigured(c1, p.value.id, oid);
        var c2 := c1.(payloads := Claimed(c1.payloads, p.value.id, oid));
        PickupLocal(c2, oid, env, pickup.value, fleet);
        SourcedStep(c1, c2, f, oid, env, fleet);
      }
    }
    SourcedStep(c, c1, f, oid, env, fleet);
  }

  lemma StoreSourced(c: Core, oid: nat, env: Envelope, ch: Choice)
    requires Configured(c) && oid < |c.orders| && HoldsNone(c.payloads, oid)
    ensures Sourced(c, HandleStore(c, oid, env, ch), oid, env, ch.fleet)
  {
    hide Fail, PickupAndDispatch, DispatchToFleet, LastOf, Sourced;
    var c1 := Sourcing1(c, oid);
    StatusLocal(c, oid, Sourcing, Note("sourcing"));
    var f := HandleStore(c, oid, env, ch);
    if ch.destination.None? {
      FailSourced(c1, oid, env, "no_storage", ch.fleet);
      SourcedStep(c, c1, f, oid, env, ch.fleet);
    } else {
      var dest := ch.destination.value;
      var c2 := SetOrder(c1, oid, c1.orders[oid].(delivery := dest.name));
      var name := if c.orders[oid].pickup != "" then c.orders[oid].pickup else dest.name;
      if name == "" { FailSourced(c2, oid, env, "missing_pickup", ch.fleet); }
      else {
        var pickup := NodeByName(c.nodes, name);
        if pickup.None? { FailSourced(c2, oid, env, "invalid_node", ch.fleet); }
        else {
          var c3 := SetPickup(c2, oid, pickup.value.name);
          DispatchLocal(c3, oid, env, pickup.value, ch.fleet);
          StillNone(c3, f, oid, ch.fleet);
          SourcedStep(c2, c3, f, oid, env, ch.fleet);
        }
      }
      SourcedStep(c, c2, f, oid, env, ch.fleet);
    }
  }

  /** Dispatching claims nothing. */
  lemma StillNone(c: Core, f: Core, oid: nat, fleet: FleetReply)
    requires HoldsNone(c.payloads, oid) && SortedIds(c.payloads) && oid < |c.orders|
    requires exists env, s :: f == DispatchToFleet(c, oid, env, s, fleet)
    ensures HoldsNone(f.payloads, oid)
  {
  }

  // ---------- requests and waybills ----------

  lemma LocalKeeps(c: Core, f: Core, oid: nat)
    requires Inv(c) && Local(c, f, oid) && (HoldsNone(f.payloads, oid) || MayHold(f, oid))
    ensures Inv(f)
  {
    forall p | p in f.payloads && p.claimedBy.Some? ensures p.node.Some? && MayHold(f, p.claimedBy.value) {
      var i :| 0 <= i < |f.payloads| && f.payloads[i] == p;
      assert c.payloads[i] in c.payloads && RowLocal(c.payloads[i], p, oid);
      if p.claimedBy.value != oid { assert MayHold(c, p.claimedBy.value); }
    }
  }

  /** A request or waybill either is refused outright with one error, or makes order |orders| and answers once. */
  ghost predicate Answered(c: Core, f: Core, env: Envelope, fleet: FleetReply) {
    if |f.orders| == |c.orders| then
      f == c.(outbox := f.outbox) && |f.outbox| == |c.outbox| + 1 && f.outbox[..|c.outbox|] == c.outbox
      && var m := f.outbox[|c.outbox|];
        m.dst == env.src && m.cor == Some(env.id) && m.body.Error? && m.body.uuid == env.body.uuid
    else
      && |f.orders| == |c.orders| + 1 && f.orders[|c.orders|].uuid == env.body.uuid
      && Replied(c, f, |c.orders|, env.body.uuid, env)
      && (f.orders[|c.orders|].status == Dispatched ==> fleet.Accepted?)
  }

  /** The UUID never changes, so a reply about the order names the request's. */
  lemma SourcedAnswered(c: Core, c1: Core, f: Core, env: Envelope, fleet: FleetReply)
    requires Inv(c) && |c1.orders| == |c.orders| + 1 && Local(c, c1, |c.orders|) && c1.outbox == c.outbox
    requires c1.orders[|c.orders|].uuid == env.body.uuid && Sourced(c1, f, |c.orders|, env, fleet)
    ensures Inv(f) && Answered(c, f, env, fleet) && Local(c, f, |c.orders|)
  {
    LocalKeeps(c, f, |c.orders|);
  }

  lemma InsertLocal(c: Core, o: Order)
    requires Inv(c)
    ensures var f := Insert(c, o); var oid := |c.orders|;
      && Configured(f) && HoldsNone(f.payloads, oid) && Local(c, f, oid)
      && |f.orders| == oid + 1 && f.orders[oid].uuid == o.uuid && f.outbox == c.outbox
      && f.types == c.types && f.nodes == c.nodes && f.payloads == c.payloads
  {
  }

  lemma RequestAnswered(c: Core, env: Envelope, ch: Choice)
    requires Inv(c) && env.body.Request?
    requires !Refused(c, env) && env.body.orderType == Retrieve ==>
      IsFifoSource(c.types, c.nodes, c.payloads, env.body.payloadTypeCode, ch.source)
    ensures var f := HandleRequest(c, env, ch);
      Inv(f) && Answered(c, f, env, ch.fleet) && Local(c, f, |c.orders|)
  {
    hide HandleRetrieve, HandleMove, HandleStore, Fail, Sourced, Insert, IsFifoSource;
    var r := env.body;
    var f := HandleRequest(c, env, ch);
    var t := TypeByName(c.types, r.payloadTypeCode);
    if Refused(c, env) {
      LocalKeepsClaims(c, f);
    } else {
      var oid := |c.orders|;
      var o := Order(r.uuid, env.src, r.orderType, Pending, r.pickupNode, r.deliveryNode, None, FUnknown(""), "",
        Some(t.value.id), false);
      var c1 := Insert(c, o);
      InsertLocal(c, o);
      match r.orderType {
        case Retrieve => RetrieveSourced(c1, oid, env, ch, r.payloadTypeCode);
        case Move => MoveSourced(c1, oid, env, r.payloadTypeCode, ch.fleet);
        case Store => StoreSourced(c1, oid, env, ch);
        case OtherType(_) => FailSourced(c1, oid, env, "unknown_type", ch.fleet);
      }
      SourcedAnswered(c, c1, f, env, ch.fleet);
    }
  }

  lemma WaybillAnswered(c: Core, env: Envelope, ch: Choice)
    requires Inv(c) && env.body.StorageWaybill?
    ensures var f := HandleWaybill(c, env, ch);
      Inv(f) && Answered(c, f, env, ch.fleet) && Local(c, f, |c.orders|) && |f.orders| == |c.orders| + 1
  {
    var w := env.body;
    var o := Order(w.uuid, env.src, w.orderType, Pending, w.pickupNode, "", None, FUnknown(""), "", None, false);
    var c1 := Insert(c, o);
    StoreSourced(c1, |c.orders|, env, ch);
    SourcedAnswered(c, c1, HandleWaybill(c, env, ch), env, ch.fleet);
  }

  // ---------- cancel, redirect, report ----------

  lemma CancelKeeps(c: Core, env: Envelope)
    requires Inv(c) && env.body.Cancel?
    ensures var f := HandleCancel(c, env); var found := OrderByUuid(c.orders, env.body.uuid);
      Inv(f) && (found.None? ==> f == c)
        && (found.Some? ==> Local(c, f, found.value) && HoldsNone(f.payloads, found.value))
  {
    var found := OrderByUuid(c.orders, env.body.uuid);
    if found.Some? {
      UnclaimLocal(c, found.value);
      var c1 := UnclaimOrder(c, found.value);
      StatusLocal(c1, found.value, Cancelled, Note(env.body.reason));
      LocalKeeps(c, HandleCancel(c, env), found.value);
    }
  }

  lemma RedirectKeeps(c: Core, env: Envelope, fleet: FleetReply)
    requires Inv(c) && env.body.Redirect?
    ensures var f := HandleRedirect(c, env, fleet); var found := OrderByUuid(c.orders, env.body.uuid);
      Inv(f) && (found.None? ==> f == c) && (found.Some? ==> Local(c, f, found.value))
  {
    var found := OrderByUuid(c.orders, env.body.uuid);
    var f := HandleRedirect(c, env, fleet);
    if found.Some? {
      var oid := found.value;
      if f.payloads == c.payloads && f.orders == c.orders && f.history == c.history && f == c.(outbox := f.outbox) {
        LocalKeepsClaims(c, f);
      } else {
        RedispatchKeeps(c, oid, env, NodeByName(c.nodes, c.orders[oid].pickup).value, fleet);
      }
    }
  }

  lemma LocalKeepsClaims(c: Core, f: Core)
    requires Inv(c) && f == c.(outbox := f.outbox)
    ensures Inv(f)
  {
  }

  lemma RedispatchKeeps(c: Core, oid: nat, env: Envelope, source: Node, fleet: FleetReply)
    requires Inv(c) && oid < |c.orders|
    ensures var f := DispatchToFleet(Sourcing1(c, oid), oid, env, source, fleet); Inv(f) && Local(c, f, oid)
  {
    var c1 := Sourcing1(c, oid);
    StatusLocal(c, oid, Sourcing, Note("sourcing"));
    DispatchLocal(c1, oid, env, source, fleet);
    var f := DispatchToFleet(c1, oid, env, source, fleet);
    if fleet.Rejected? {
      FailLocal(c1, oid, env, "fleet_failed");
    } else if !HoldsNone(f.payloads, oid) {
      var p :| p in f.payloads && p.claimedBy == Some(oid);
      assert p in c.payloads && MayHold(c, oid);
    }
    LocalKeeps(c, f, oid);
  }

  lemma ReportUnknown(c: Core, v: VendorId, s: FleetState, robot: string)
    requires OrderByVendor(c.orders, v).None?
    ensures HandleReport(c, v, s, robot) == c
  {
  }

  lemma ReportKeeps(c: Core, v: VendorId, s: FleetState, robot: string)
    requires Inv(c)
    ensures var f := HandleReport(c, v, s, robot); var found := OrderByVendor(c.orders, v);
      && Inv(f) && f.payloads == c.payloads && |f.orders| == |c.orders|
      && (found.None? ==> f == c) && (found.Some? ==> Local(c, f, found.value))
  {
    hide HandleReport;
    var found := OrderByVendor(c.orders, v);
    var f := HandleReport(c, v, s, robot);
    if found.None? {
      ReportUnknown(c, v, s, robot);
    } else {
      var oid := found.value;
      ReportLocal(c, v, s, robot);
      if !HoldsNone(f.payloads, oid) {
        var p :| p in f.payloads && p.claimedBy == Some(oid);
        assert p in c.payloads && MayHold(c, oid);
      }
      LocalKeeps(c, f, oid);
    }
  }

  lemma ReportLocal(c: Core, v: VendorId, s: FleetState, robot: string)
    requires OrderByVendor(c.orders, v).Some?
    ensures var oid := OrderByVendor(c.orders, v).value; var f := HandleReport(c, v, s, robot);
      && Local(c, f, oid) && f.payloads == c.payloads && |f.orders| == |c.orders|
      && f.orders[oid].pickup == c.orders[oid].pickup && f.orders[oid].delivery == c.orders[oid].delivery
      && f.orders[oid].status == MapState(s)
      && (MapState(s) == c.orders[oid].status ==> LastOf(f.history, oid) == LastOf(c.history, oid))
      && (MapState(s) != c.orders[oid].status ==> LastOf(f.history, oid) == Some(Hist(oid, MapState(s), FromFleet(s))))
  {
    var oid := OrderByVendor(c.orders, v).value;
    hide Advance, AssignRobot, LastOf, RowLocal;
    var c1 := AssignRobot(c, oid, s, robot);
    AssignLocal(c, oid, s, robot);
    if MapState(s) != c.orders[oid].status {
      AdvanceLocal(c1, oid, c.orders[oid].vendor, s, robot);
    }
  }

  lemma AssignLocal(c: Core, oid: nat, s: FleetState, robot: string)
    requires oid < |c.orders| && c.orders[oid].vendor.Some?
    ensures var f := AssignRobot(c, oid, s, robot); var o, o' := c.orders[oid], f.orders[oid];
      && Local(c, f, oid) && f.payloads == c.payloads && |f.orders| == |c.orders| && f.history == c.history
      && o'.pickup == o.pickup && o'.delivery == o.delivery && o'.status == o.status
  {
  }

  lemma AdvanceLocal(c: Core, oid: nat, vendor: Option<VendorId>, s: FleetState, robot: string)
    requires oid < |c.orders|
    ensures var f := Advance(c, oid, vendor, s, robot);
      && Local(c, f, oid) && f.payloads == c.payloads && |f.orders| == |c.orders|
      && f.orders[oid].pickup == c.orders[oid].pickup && f.orders[oid].delivery == c.orders[oid].delivery
      && f.orders[oid].status == MapState(s)
      && LastOf(f.history, oid) == Some(Hist(oid, MapState(s), FromFleet(s)))
  {
    var to := MapState(s);
    var c1 := UpdateStatus(c, oid, to, FromFleet(s));
    StatusLocal(c, oid, to, FromFleet(s));
    var c2 := Notify(UpdateVendor(c1, oid, vendor, s, robot), oid, Update(c.orders[oid].uuid, to, ""));
    if IsTerminalState(s) {
      StatusLocal(c2, oid, to, FromFleet(s));
    }
  }

  // ---------- receipts ----------

  function Landed(p: Payload, node: nat, now: int): Payload {
    p.(node := Some(node), deliveredAt := now, claimedBy := None)
  }

  predicate HasId(payloads: seq<Payload>, id: nat) { exists i :: 0 <= i < |payloads| && payloads[i].id == id }

  /** Every id names a row. */
  predicate Present(payloads: seq<Payload>, ids: seq<nat>) {
    forall k :: 0 <= k < |ids| ==> HasId(payloads, ids[k])
  }

  predicate SameIds(a: seq<Payload>, b: seq<Payload>) {
    |a| == |b| && forall i :: 0 <= i < |a| ==> b[i].id == a[i].id
  }

  lemma PresentTail(a: seq<Payload>, b: seq<Payload>, ids: seq<nat>)
    requires Present(a, ids) && ids != [] && SameIds(a, b)
    ensures Present(b, ids[1..])
  {
    forall k | 0 <= k < |ids[1..]| ensures HasId(b, ids[1..][k]) {
      assert HasId(a, ids[k + 1]);
      var i :| 0 <= i < |a| && a[i].id == ids[k + 1];
      assert b[i].id == ids[1..][k];
    }
  }

  /** The rows named by `ids` have landed, the others are as before. */
  predicate LandedRows(a: seq<Payload>, b: seq<Payload>, ids: seq<nat>, node: nat, now: int) {
    |b| == |a| && forall i :: 0 <= i < |a| ==> b[i] == if a[i].id in ids then Landed(a[i], node, now) else a[i]
  }

  lemma LandedThen(a: seq<Payload>, b: seq<Payload>, c: seq<Payload>, ids: seq<nat>, node: nat, now: int)
    requires ids != [] && LandedRows(a, b, [ids[0]], node, now) && LandedRows(b, c, ids[1..], node, now)
    ensures LandedRows(a, c, ids, node, now)
  {
  }

  lemma MoveLands(c: Core, id: nat, node: nat, now: int)
    requires SortedIds(c.payloads) && NodeById(c.nodes, node).Some? && PayloadById(c.payloads, id).Some?
    ensures var f := MovePayload(c, id, node, now);
      && f == c.(payloads := f.payloads, cache := f.cache) && SameIds(c.payloads, f.payloads)
      && LandedRows(c.payloads, f.payloads, [id], node, now)
  {
  }

  lemma {:induction false} MoveAllRows(c: Core, ids: seq<nat>, node: nat, now: int)
    requires SortedIds(c.payloads) && NodeById(c.nodes, node).Some? && Present(c.payloads, ids)
    ensures var f := MoveAll(c, ids, node, now);
      f == c.(payloads := f.payloads, cache := f.cache) && LandedRows(c.payloads, f.payloads, ids, node, now)
    decreases |ids|
  {
    if ids == [] {
      assert LandedRows(c.payloads, c.payloads, [], node, now);
    } else {
      hide MovePayload, PayloadById, LandedRows;
      assert HasId(c.payloads, ids[0]);
      var k :| 0 <= k < |c.payloads| && c.payloads[k].id == ids[0];
      assert c.payloads[k] in c.payloads;
      MoveLands(c, ids[0], node, now);
      var c1 := MovePayload(c, ids[0], node, now);
      PresentTail(c.payloads, c1.payloads, ids);
      MoveAllRows(c1, ids[1..], node, now);
      LandedThen(c.payloads, c1.payloads, MoveAll(c1, ids[1..], node, now).payloads, ids, node, now);
    }
  }

  /** Where a receipt for the order puts what it claims, if anywhere. */
  function Target(c: Core, oid: nat): Option<Node>
    requires oid < |c.orders|
  {
    if c.orders[oid].pickup == "" || c.orders[oid].delivery == "" then None
    else NodeByName(c.nodes, c.orders[oid].delivery)
  }

  lemma ClaimedPresent(payloads: seq<Payload>, oid: nat)
    ensures Present(payloads, ClaimedIds(payloads, oid))
  {
    var ids := ClaimedIds(payloads, oid);
    forall k | 0 <= k < |ids| ensures HasId(payloads, ids[k]) {
      assert ids[k] in ids;
      var p :| p in payloads && p.id == ids[k] && p.claimedBy == Some(oid);
      var i :| 0 <= i < |payloads| && payloads[i] == p;
    }
  }

  /** Completion row by row. */
  lemma CompletedRows(c: Core, oid: nat, now: int)
    requires oid < |c.orders| && SortedIds(c.payloads) && UniqueNodes(c.nodes)
    requires !HoldsNone(c.payloads, oid) ==> Target(c, oid).Some?
    ensures var f := OnCompleted(c, oid, now);
      && f == c.(payloads := f.payloads, cache := f.cache) && |f.payloads| == |c.payloads|
      && (forall i :: 0 <= i < |c.payloads| ==>
            f.payloads[i] == if c.payloads[i].claimedBy == Some(oid) && Target(c, oid).Some?
                             then Landed(c.payloads[i], Target(c, oid).value.id, now) else c.payloads[i])
  {
    if Target(c, oid).Some? {
      var ids := ClaimedIds(c.payloads, oid);
      ClaimedPresent(c.payloads, oid);
      MoveAllRows(c, ids, Target(c, oid).value.id, now);
      forall i | 0 <= i < |c.payloads| ensures c.payloads[i].claimedBy == Some(oid) <==> c.payloads[i].id in ids {
        var p := c.payloads[i];
        assert p in c.payloads;
        if p.id in ids {
          var q :| q in c.payloads && q.id == p.id && q.claimedBy == Some(oid);
          SameId(c.payloads, p, q);
        }
      }
    }
  }

  /** Row by row: the order's payloads land at its delivery node unclaimed, every other row is untouched. */
  lemma ReceiptRows(c: Core, env: Envelope, now: int)
    requires Inv(c) && env.body.Receipt? && OrderByUuid(c.orders, env.body.uuid).Some?
    ensures var oid := OrderByUuid(c.orders, env.body.uuid).value; var f := HandleReceipt(c, env, now);
      && |f.payloads| == |c.payloads| && f.nodes == c.nodes && f.types == c.types && f.outbox == c.outbox
        && f.nextPayload == c.nextPayload
      && f.orders == c.orders[oid := c.orders[oid].(status := Confirmed, completed := true)]
      && f.history == c.history + [Hist(oid, Confirmed, Note("receipt"))]
        + [Hist(oid, Confirmed, Note("order confirmed"))]
      && (forall i :: 0 <= i < |c.payloads| ==>
            if c.payloads[i].claimedBy == Some(oid) then
              Target(c, oid).Some? && f.payloads[i] == Landed(c.payloads[i], Target(c, oid).value.id, now)
            else f.payloads[i] == c.payloads[i])
  {
    var oid := OrderByUuid(c.orders, env.body.uuid).value;
    var c2 := RecordReceipt(c, oid);
    assert Target(c2, oid) == Target(c, oid) && c2.payloads == c.payloads;
    forall p | p in c.payloads && p.claimedBy == Some(oid) ensures Target(c, oid).Some? { assert MayHold(c, oid); }
    CompletedRows(c2, oid, now);
    assert forall i :: 0 <= i < |c.payloads| ==> c.payloads[i] in c.payloads;
  }

  lemma ReceiptKeeps(c: Core, env: Envelope, now: int)
    requires Inv(c) && env.body.Receipt?
    ensures Inv(HandleReceipt(c, env, now))
  {
    var found := OrderByUuid(c.orders, env.body.uuid);
    if found.Some? {
      var oid := found.value;
      ReceiptRows(c, env, now);
      var f := HandleReceipt(c, env, now);
      ReceiptConfigured(c, env, now);
      forall p | p in f.payloads && p.claimedBy.Some? ensures p.node.Some? && MayHold(f, p.claimedBy.value) {
        var i :| 0 <= i < |f.payloads| && f.payloads[i] == p;
        assert c.payloads[i] in c.payloads;
        var o := p.claimedBy.value;
        assert o != oid && MayHold(c, o);
        LastAppend(c.history, Hist(oid, Confirmed, Note("receipt")));
        LastAppend(c.history + [Hist(oid, Confirmed, Note("receipt"))], Hist(oid, Confirmed, Note("order confirmed")));
      }
    }
  }

  lemma ReceiptConfigured(c: Core, env: Envelope, now: int)
    requires Inv(c) && env.body.Receipt? && OrderByUuid(c.orders, env.body.uuid).Some?
    ensures Configured(HandleReceipt(c, env, now))
  {
    ReceiptRows(c, env, now);
    var f := HandleReceipt(c, env, now);
    var oid := OrderByUuid(c.orders, env.body.uuid).value;
    forall p | p in f.payloads
      ensures p.id < f.nextPayload && (p.node.Some? ==> NodeById(f.nodes, p.node.value).Some?) {
      var i :| 0 <= i < |f.payloads| && f.payloads[i] == p;
      assert c.payloads[i] in c.payloads;
    }
  }
}
