/**
 What core answers, message by message and report by report: the order row made or changed, the payload rows, the
 history and the messages sent, written out for every outcome.
 */
module CoreAnswers {
  import opened Protocol
  import opened CoreTables
  import opened CoreState
  import opened CoreDispatch
  import opened CoreClaims
  import R = CoreRuns

  // ---------- fleet reports ----------

  /** The order a vendor id stands for: the newest that carries it. */
  predicate NewestOf(orders: seq<Order>, oid: nat, v: VendorId) {
    && oid < |orders| && orders[oid].vendor == Some(v)
    && forall j :: oid < j < |orders| ==> orders[j].vendor != Some(v)
  }

  lemma {:induction false} FindsVendor(orders: seq<Order>, oid: nat, v: VendorId)
    requires NewestOf(orders, oid, v)
    ensures OrderByVendor(orders, v) == Some(oid)
  {
    if oid < |orders| - 1 { FindsVendor(orders[..|orders| - 1], oid, v); }
  }

  /** What the fleet's word means for an order. */
  predicate Means(s: FleetState, st: Status) {
    && (s == FCreated || s == FToBeDispatched || s == FWaiting || s.FUnknown? ==> st == Dispatched)
    && (s == FRunning ==> st == InTransit)
    && (s == FFinished ==> st == Delivered)
    && (s == FFailed ==> st == Failed)
    && (s == FStopped ==> st == Cancelled)
  }

  predicate Final(s: FleetState) { s == FFinished || s == FFailed || s == FStopped }

  function When<T>(b: bool, x: T): seq<T> { if b then [x] else [] }

  /** The order's row and what is appended to outbox and history; nothing else changes. */
  predicate Becomes(c: Core, f: Core, oid: nat, o: Order, mail: seq<CoreMsg>, log: seq<Hist>)
    requires oid < |c.orders|
  {
    f == c.(orders := c.orders[oid := o], outbox := c.outbox + mail, history := c.history + log)
  }

  lemma BecomesRow(c: Core, f: Core, oid: nat, o: Order, mail: seq<CoreMsg>, log: seq<Hist>)
    requires oid < |c.orders| && Becomes(c, f, oid, o, mail, log)
    ensures f.orders == c.orders[oid := o]
  {
  }

  lemma BecomesThen(c: Core, d: Core, f: Core, oid: nat, o1: Order, o2: Order, m1: seq<CoreMsg>, m2: seq<CoreMsg>,
                    h1: seq<Hist>, h2: seq<Hist>)
    requires oid < |c.orders| && Becomes(c, d, oid, o1, m1, h1) && Becomes(d, f, oid, o2, m2, h2)
    ensures Becomes(c, f, oid, o2, m1 + m2, h1 + h2)
  {
    assert c.outbox + m1 + m2 == c.outbox + (m1 + m2) && c.history + h1 + h2 == c.history + (h1 + h2);
  }

  lemma AssignEnds(c: Core, oid: nat, s: FleetState, robot: string)
    requires oid < |c.orders| && c.orders[oid].vendor.Some?
    ensures var o := c.orders[oid]; var first := robot != "" && o.robot == "";
      Becomes(c, AssignRobot(c, oid, s, robot), oid, if first then o.(vendorState := s, robot := robot) else o,
        When(first, CoreMsg(o.station, None, Waybill(o.uuid, o.vendor.value, robot, ""))), [])
  {
    assert c.orders[oid := c.orders[oid]] == c.orders && c.outbox + [] == c.outbox && c.history + [] == c.history;
  }

  /** A changed status: recorded and announced, final ones recorded again. */
  lemma AdvanceEnds(c: Core, oid: nat, s: FleetState, robot: string)
    requires oid < |c.orders|
    ensures var o := c.orders[oid]; var st := MapState(s); var h := Hist(oid, st, FromFleet(s));
      Becomes(c, Advance(c, oid, o.vendor, s, robot), oid, o.(status := st, vendorState := s, robot := robot),
        [CoreMsg(o.station, None, Update(o.uuid, st, ""))]
        + When(s == FFinished, CoreMsg(o.station, None, DeliveredNotice(o.uuid))),
        [h] + When(Final(s), h))
  {
    var o := c.orders[oid];
    var to, h := MapState(s), Hist(oid, MapState(s), FromFleet(s));
    var m1, m2 := CoreMsg(o.station, None, Update(o.uuid, to, "")), CoreMsg(o.station, None, DeliveredNotice(o.uuid));
    assert c.outbox + [m1] + [m2] == c.outbox + ([m1] + [m2]) && c.outbox + [m1] == c.outbox + ([m1] + []);
    assert c.history + [h] + [h] == c.history + ([h] + [h]) && c.history + [h] == c.history + ([h] + []);
  }

  lemma ReportSplits(c: Core, v: VendorId, s: FleetState, robot: string, oid: nat)
    requires NewestOf(c.orders, oid, v)
    ensures var d := AssignRobot(c, oid, s, robot);
      oid < |d.orders| && HandleReport(c, v, s, robot) ==
        if MapState(s) == c.orders[oid].status then d else Advance(d, oid, c.orders[oid].vendor, s, robot)
  {
    FindsVendor(c.orders, oid, v);
  }

  function ReportRow(o: Order, st: Status, s: FleetState, robot: string): Order {
    if st != o.status || (robot != "" && o.robot == "") then o.(status := st, vendorState := s, robot := robot) else o
  }

  function ReportMail(o: Order, v: VendorId, st: Status, s: FleetState, robot: string): seq<CoreMsg> {
    When(robot != "" && o.robot == "", CoreMsg(o.station, None, Waybill(o.uuid, v, robot, "")))
    + (When(st != o.status, CoreMsg(o.station, None, Update(o.uuid, st, "")))
       + When(st != o.status && s == FFinished, CoreMsg(o.station, None, DeliveredNotice(o.uuid))))
  }

  function ReportLog(o: Order, oid: nat, st: Status, s: FleetState): seq<Hist> {
    When(st != o.status, Hist(oid, st, FromFleet(s))) + When(st != o.status && Final(s), Hist(oid, st, FromFleet(s)))
  }

  lemma MapMeans(s: FleetState)
    ensures Means(s, MapState(s))
  {
  }

  /**
   After a report the order has the status the fleet's state means. A first robot is announced by a waybill, a
   changed status by an update, and a finished transport by a delivered notice, in this order, to the order's
   station. A changed status is recorded once, and once more when it is final.
   */
  lemma ReportAnswer(c: Core, v: VendorId, s: FleetState, robot: string, oid: nat)
    requires NewestOf(c.orders, oid, v)
    ensures var o := c.orders[oid];
      exists st :: Means(s, st) && Becomes(c, Step(c, AReport(v, s, robot)), oid, ReportRow(o, st, s, robot),
        ReportMail(o, v, st, s, robot), ReportLog(o, oid, st, s))
  {
    hide HandleReport, AssignRobot, Advance, Means, Becomes;
    var o, st := c.orders[oid], MapState(s);
    MapMeans(s);
    ReportSplits(c, v, s, robot, oid);
    if st == o.status { SameAnswer(c, v, s, robot, oid); } else { ChangedAnswer(c, v, s, robot, oid); }
  }

  lemma SameAnswer(c: Core, v: VendorId, s: FleetState, robot: string, oid: nat)
    requires oid < |c.orders| && c.orders[oid].vendor == Some(v) && MapState(s) == c.orders[oid].status
    ensures var o := c.orders[oid]; var st := MapState(s);
      Becomes(c, AssignRobot(c, oid, s, robot), oid, ReportRow(o, st, s, robot), ReportMail(o, v, st, s, robot),
        ReportLog(o, oid, st, s))
  {
    hide AssignRobot, Becomes, MapState;
    AssignEnds(c, oid, s, robot);
    var o := c.orders[oid];
    var m := When(robot != "" && o.robot == "", CoreMsg(o.station, None, Waybill(o.uuid, v, robot, "")));
    var none: seq<Hist> := [];
    assert m + ([] + []) == m && none + none == none;
  }

  lemma ChangedAnswer(c: Core, v: VendorId, s: FleetState, robot: string, oid: nat)
    requires oid < |c.orders| && c.orders[oid].vendor == Some(v) && MapState(s) != c.orders[oid].status
    ensures var o := c.orders[oid]; var st := MapState(s); var d := AssignRobot(c, oid, s, robot);
      oid < |d.orders| && Becomes(c, Advance(d, oid, o.vendor, s, robot), oid, ReportRow(o, st, s, robot),
        ReportMail(o, v, st, s, robot), ReportLog(o, oid, st, s))
  {
    hide AssignRobot, Advance, Becomes, MapState;
    var o, d, st := c.orders[oid], AssignRobot(c, oid, s, robot), MapState(s);
    var first := robot != "" && o.robot == "";
    var o1 := if first then o.(vendorState := s, robot := robot) else o;
    var m1 := When(first, CoreMsg(o.station, None, Waybill(o.uuid, v, robot, "")));
    AssignEnds(c, oid, s, robot);
    BecomesRow(c, d, oid, o1, m1, []);
    AdvanceEnds(d, oid, s, robot);
    var m2 := [CoreMsg(o.station, None, Update(o.uuid, st, ""))]
      + When(s == FFinished, CoreMsg(o.station, None, DeliveredNotice(o.uuid)));
    var h := Hist(oid, st, FromFleet(s));
    BecomesThen(c, d, Advance(d, oid, o.vendor, s, robot), oid, o1,
      o.(status := st, vendorState := s, robot := robot), m1, m2,
      [], [h] + When(Final(s), h));
    assert [] + ([h] + When(Final(s), h)) == [h] + When(Final(s), h);
  }

  lemma StrayReport(c: Core, v: VendorId, s: FleetState, robot: string)
    requires forall oid :: 0 <= oid < |c.orders| ==> c.orders[oid].vendor != Some(v)
    ensures Step(c, AReport(v, s, robot)) == c
  {
  }

  // ---------- an order in the making ----------

  /** An order row under way: appended, with the payload rows and the history so far. */
  predicate Stage(c: Core, d: Core, r: Order, rows: seq<Payload>, log: seq<Hist>) {
    d == c.(orders := c.orders + [r], payloads := rows, history := c.history + log)
  }

  /** An order made and answered. */
  predicate Makes(c: Core, f: Core, r: Order, rows: seq<Payload>, reply: CoreMsg, log: seq<Hist>) {
    f == c.(orders := c.orders + [r], payloads := rows, outbox := c.outbox + [reply], history := c.history + log)
  }

  /** Rows that differ at most by claims of order `oid` on free rows. */
  predicate ClaimsOnly(a: seq<Payload>, b: seq<Payload>, oid: nat) {
    && |a| == |b|
    && forall i :: 0 <= i < |a| ==>
      b[i] == a[i] || (a[i].claimedBy.None? && b[i] == a[i].(claimedBy := Some(oid)))
  }

  lemma StageStatus(c: Core, d: Core, r: Order, rows: seq<Payload>, log: seq<Hist>, s: Status, note: string)
    requires Stage(c, d, r, rows, log)
    ensures Stage(c, UpdateStatus(d, |c.orders|, s, Note(note)), r.(status := s), rows,
      log + [Hist(|c.orders|, s, Note(note))])
  {
    assert c.history + log + [Hist(|c.orders|, s, Note(note))] == c.history + (log + [Hist(|c.orders|, s, Note(note))]);
  }

  lemma StageRow(c: Core, d: Core, r: Order, rows: seq<Payload>, log: seq<Hist>, r': Order)
    requires Stage(c, d, r, rows, log)
    ensures Stage(c, SetOrder(d, |c.orders|, r'), r', rows, log)
  {
  }

  /** Ids are distinct, so the listed ones are those of the claimed rows. */
  lemma ListedIsClaimed(a: seq<Payload>, b: seq<Payload>, oid: nat, i: nat)
    requires SortedIds(a) && ClaimsOnly(a, b, oid) && i < |b| && b[i].id in ClaimedIds(b, oid)
    ensures b[i].claimedBy == Some(oid)
  {
    hide ClaimedIds;
    var p :| p in b && p.id == b[i].id && p.claimedBy == Some(oid);
    var j :| 0 <= j < |b| && b[j] == p;
    assert a[i].id == b[i].id && a[j].id == b[j].id;
  }

  /** Released claims leave the rows as they were. */
  lemma ClaimsUndone(a: seq<Payload>, b: seq<Payload>, oid: nat)
    requires SortedIds(a) && HoldsNone(a, oid) && ClaimsOnly(a, b, oid)
    ensures UnclaimAll(b, ClaimedIds(b, oid)) == a
  {
    hide ClaimedIds, UnclaimAll, SortedIds;
    var ids, f := ClaimedIds(b, oid), UnclaimAll(b, ClaimedIds(b, oid));
    forall i | 0 <= i < |a| ensures f[i] == a[i] {
      assert a[i] in a && b[i] in b;
      if b[i].id in ids {
        ListedIsClaimed(a, b, oid, i);
      } else {
        assert b[i].claimedBy != Some(oid);
      }
    }
    assert f == a;
  }

  /** A failure: status and history, every claim released, one error to the sender. */
  lemma StageFails(c: Core, d: Core, r: Order, rows: seq<Payload>, log: seq<Hist>, env: Envelope, code: string)
    requires Stage(c, d, r, rows, log) && SortedIds(c.payloads) && HoldsNone(c.payloads, |c.orders|)
    requires ClaimsOnly(c.payloads, rows, |c.orders|)
    ensures Makes(c, Fail(d, |c.orders|, env, code), r.(status := Failed), c.payloads,
      CoreMsg(env.src, Some(env.id), Error(r.uuid, code)), log + [Hist(|c.orders|, Failed, Note(code))])
  {
    hide UnclaimAll, ClaimedIds;
    StageStatus(c, d, r, rows, log, Failed, code);
    ClaimsUndone(c.payloads, rows, |c.orders|);
  }

  /** An accepted dispatch: vendor id, status and history, and an ack that names the pickup node. */
  lemma StageDispatches(c: Core, d: Core, r: Order, rows: seq<Payload>, log: seq<Hist>, env: Envelope, source: Node,
                        tag: string)
    requires Stage(c, d, r, rows, log)
    ensures var oid := |c.orders|;
      Makes(c, DispatchToFleet(d, oid, env, source, Accepted(tag)),
        r.(status := Dispatched, vendor := Some(VendorId(oid, tag)), vendorState := FCreated, robot := ""), rows,
        CoreMsg(env.src, Some(env.id), Ack(r.uuid, oid, source.name)),
        log + [Hist(oid, Dispatched, Note("vendor order created"))])
  {
    var oid := |c.orders|;
    var r1 := r.(vendor := Some(VendorId(oid, tag)), vendorState := FCreated, robot := "");
    var d1 := UpdateVendor(d, oid, Some(VendorId(oid, tag)), FCreated, "");
    StageRow(c, d, r, rows, log, r1);
    StageStatus(c, d1, r1, rows, log, Dispatched, "vendor order created");
  }

  /** Received, then being sourced. */
  function Begun(oid: nat): seq<Hist> { [Hist(oid, Pending, Note("received")), Hist(oid, Sourcing, Note("sourcing"))] }

  lemma StageBegins(c: Core, r: Order)
    requires r.status == Pending
    ensures Stage(c, Insert(c, r), r, c.payloads, [Hist(|c.orders|, Pending, Note("received"))])
    ensures Stage(c, Sourcing1(Insert(c, r), |c.orders|), r.(status := Sourcing), c.payloads, Begun(|c.orders|))
  {
    var oid := |c.orders|;
    var c0 := c.(orders := c.orders + [r]);
    assert c.history + [] == c.history;
    StageStatus(c, c0, r, c.payloads, [], Pending, "received");
    assert [] + [Hist(oid, Pending, Note("received"))] == [Hist(oid, Pending, Note("received"))];
    StageStatus(c, Insert(c, r), r, c.payloads, [Hist(oid, Pending, Note("received"))], Sourcing, "sourcing");
    assert [Hist(oid, Pending, Note("received"))] + [Hist(oid, Sourcing, Note("sourcing"))] == Begun(oid);
  }

  // ---------- requests turned down before an order is made ----------

  lemma UnknownTypeAnswer(c: Core, env: Envelope, ch: Choice, now: int)
    requires env.body.Request? && forall t :: t in c.types ==> t.name != env.body.payloadTypeCode
    ensures Step(c, AMessage(env, ch, now)) ==
      c.(outbox := c.outbox + [CoreMsg(env.src, Some(env.id), Error(env.body.uuid, "payload_type_error"))])
  {
  }

  lemma UnknownNodeAnswer(c: Core, env: Envelope, ch: Choice, now: int)
    requires env.body.Request? && exists t :: t in c.types && t.name == env.body.payloadTypeCode
    requires env.body.deliveryNode != "" && forall n :: n in c.nodes ==> n.name != env.body.deliveryNode
    ensures Step(c, AMessage(env, ch, now)) ==
      c.(outbox := c.outbox + [CoreMsg(env.src, Some(env.id), Error(env.body.uuid, "invalid_node"))])
  {
  }

  /** The row a request asks for. */
  function Asked(env: Envelope, typeId: nat): Order
    requires env.body.Request?
  {
    var r := env.body;
    Order(r.uuid, env.src, r.orderType, Pending, r.pickupNode, r.deliveryNode, None, FUnknown(""), "", Some(typeId),
      false)
  }

  /** A request whose type and delivery node core knows. */
  predicate Known(c: Core, env: Envelope, t: PayloadType) {
    && env.body.Request? && TypeByName(c.types, env.body.payloadTypeCode) == Some(t)
    && (env.body.deliveryNode == "" || NodeByName(c.nodes, env.body.deliveryNode).Some?)
  }

  lemma KnownInserts(c: Core, env: Envelope, ch: Choice, now: int, t: PayloadType)
    requires Known(c, env, t)
    ensures var oid := |c.orders|; var c1 := Insert(c, Asked(env, t.id)); var f := Step(c, AMessage(env, ch, now));
      && (env.body.orderType == Retrieve ==> f == HandleRetrieve(c1, oid, env, ch))
      && (env.body.orderType == Move ==> f == HandleMove(c1, oid, env, env.body.payloadTypeCode, ch.fleet))
      && (env.body.orderType == Store ==> f == HandleStore(c1, oid, env, ch))
      && (env.body.orderType.OtherType? ==> f == Fail(c1, oid, env, "unknown_type"))
  {
    hide HandleRetrieve, HandleMove, HandleStore, Fail;
  }

  /** Nobody holds a claim of an order that does not exist yet. */
  lemma NewHoldsNone(c: Core)
    requires Inv(c)
    ensures HoldsNone(c.payloads, |c.orders|) && SortedIds(c.payloads) && ClaimsOnly(c.payloads, c.payloads, |c.orders|)
  {
  }

  /** How a failed order ends: its row, the rows as they were, one error. */
  predicate FailsWith(c: Core, f: Core, env: Envelope, r: Order, code: string, log: seq<Hist>) {
    Makes(c, f, r.(status := Failed), c.payloads, CoreMsg(env.src, Some(env.id), Error(r.uuid, code)),
      log + [Hist(|c.orders|, Failed, Note(code))])
  }

  /** How a dispatched order ends. */
  predicate DispatchedFrom(c: Core, f: Core, env: Envelope, r: Order, rows: seq<Payload>, from: string, tag: string) {
    var oid, v := |c.orders|, VendorId(|c.orders|, tag);
    Makes(c, f, r.(status := Dispatched, pickup := from, vendor := Some(v), vendorState := FCreated, robot := ""),
      rows, CoreMsg(env.src, Some(env.id), Ack(r.uuid, oid, from)),
      Begun(oid) + [Hist(oid, Dispatched, Note("vendor order created"))])
  }

  lemma OtherTypeAnswer(c: Core, env: Envelope, ch: Choice, now: int, t: PayloadType)
    requires Inv(c) && Known(c, env, t) && env.body.orderType.OtherType?
    ensures FailsWith(c, Step(c, AMessage(env, ch, now)), env, Asked(env, t.id), "unknown_type",
      [Hist(|c.orders|, Pending, Note("received"))])
  {
    hide Step, Insert, Fail, Makes, Stage, Inv;
    KnownInserts(c, env, ch, now, t);
    StageBegins(c, Asked(env, t.id));
    NewHoldsNone(c);
    StageFails(c, Insert(c, Asked(env, t.id)), Asked(env, t.id), c.payloads,
      [Hist(|c.orders|, Pending, Note("received"))], env, "unknown_type");
  }

  // ---------- store orders ----------

  predicate NoNode(nodes: seq<Node>, name: string) { forall n :: n in nodes ==> n.name != name }

  /**
   A store order goes to the chosen destination, from the pickup node it names or, if it names none, from the
   destination itself; the ack names where it is picked up. It claims nothing.
   */
  predicate StoreOutcome(c: Core, f: Core, env: Envelope, r: Order, ch: Choice) {
    match ch.destination
    case None => FailsWith(c, f, env, r, "no_storage", Begun(|c.orders|))
    case Some(dest) =>
      var r1 := r.(delivery := dest.name);
      var from := if r.pickup != "" then r.pickup else dest.name;
      if from == "" then FailsWith(c, f, env, r1, "missing_pickup", Begun(|c.orders|))
      else if NoNode(c.nodes, from) then FailsWith(c, f, env, r1, "invalid_node", Begun(|c.orders|))
      else
        match ch.fleet
        case Rejected => FailsWith(c, f, env, r1.(pickup := from), "fleet_failed", Begun(|c.orders|))
        case Accepted(tag) => DispatchedFrom(c, f, env, r1, c.payloads, from, tag)
  }

  lemma StoreEnds(c: Core, r: Order, env: Envelope, ch: Choice)
    requires Inv(c) && r.status == Pending
    ensures StoreOutcome(c, HandleStore(Insert(c, r), |c.orders|, env, ch), env, r, ch)
  {
    hide Fail, DispatchToFleet, Makes, Stage, Inv, Begun, SetOrder;
    var oid, log, rows := |c.orders|, Begun(|c.orders|), c.payloads;
    StageBegins(c, r);
    SameTables(c, Insert(c, r), r, rows, [Hist(oid, Pending, Note("received"))]);
    var c1, r1 := Sourcing1(Insert(c, r), oid), r.(status := Sourcing);
    NewHoldsNone(c);
    SameTables(c, c1, r1, rows, log);
    if ch.destination.None? {
      StageFails(c, c1, r1, rows, log, env, "no_storage");
    } else {
      var dest := ch.destination.value;
      var r2 := r1.(delivery := dest.name);
      var c2 := SetOrder(c1, oid, r2);
      StageRow(c, c1, r1, rows, log, r2);
      var from := if r.pickup != "" then r.pickup else dest.name;
      if from == "" {
        StageFails(c, c2, r2, rows, log, env, "missing_pickup");
      } else if NodeByName(c.nodes, from).None? {
        StageFails(c, c2, r2, rows, log, env, "invalid_node");
      } else {
        var r3 := r2.(pickup := from);
        StageRow(c, c2, r2, rows, log, r3);
        SameTables(c, c2, r2, rows, log);
        SentOff(c, SetOrder(c2, oid, r3), r3, rows, log, env, NodeByName(c.nodes, from).value, ch.fleet);
      }
    }
  }

  /** The order and the tables in the making. */
  lemma SameTables(c: Core, d: Core, r: Order, rows: seq<Payload>, log: seq<Hist>)
    requires Stage(c, d, r, rows, log)
    ensures |d.orders| == |c.orders| + 1 && d.orders[|c.orders|] == r
    ensures d.payloads == rows && d.nodes == c.nodes && d.types == c.types
  {
  }

  lemma SentOff(c: Core, d: Core, r: Order, rows: seq<Payload>, log: seq<Hist>, env: Envelope, source: Node,
                fleet: FleetReply)
    requires Stage(c, d, r, rows, log) && SortedIds(c.payloads) && HoldsNone(c.payloads, |c.orders|)
    requires ClaimsOnly(c.payloads, rows, |c.orders|) && log == Begun(|c.orders|) && r.pickup == source.name
    ensures |d.orders| == |c.orders| + 1
    ensures var f := DispatchToFleet(d, |c.orders|, env, source, fleet);
      if fleet.Rejected? then FailsWith(c, f, env, r, "fleet_failed", log)
      else DispatchedFrom(c, f, env, r, rows, source.name, fleet.tag)
  {
    hide Stage, Makes, Fail;
    SameTables(c, d, r, rows, log);
    match fleet
    case Rejected => StageFails(c, d, r, rows, log, env, "fleet_failed");
    case Accepted(tag) => StageDispatches(c, d, r, rows, log, env, source, tag);
  }

  lemma StoreAnswer(c: Core, env: Envelope, ch: Choice, now: int, t: PayloadType)
    requires Inv(c) && Known(c, env, t) && env.body.orderType == Store
    ensures StoreOutcome(c, Step(c, AMessage(env, ch, now)), env, Asked(env, t.id), ch)
    ensures Enabled(c, AMessage(env, ch, now)) <==> IsDestination(c.nodes, c.payloads, t.id, ch.destination)
  {
    hide Step, HandleStore, Insert, Inv, StoreOutcome, IsDestination;
    KnownInserts(c, env, ch, now, t);
    StoreEnds(c, Asked(env, t.id), env, ch);
  }

  /** A storage waybill makes a store order without payload type or delivery node, and ends like one. */
  lemma WaybillAnswer(c: Core, env: Envelope, ch: Choice, now: int)
    requires Inv(c) && env.body.StorageWaybill?
    ensures var w := env.body;
      StoreOutcome(c, Step(c, AMessage(env, ch, now)), env,
        Order(w.uuid, env.src, w.orderType, Pending, w.pickupNode, "", None, FUnknown(""), "", None, false), ch)
    ensures Enabled(c, AMessage(env, ch, now)) <==> IsDestination(c.nodes, c.payloads, 0, ch.destination)
  {
    hide HandleStore, Insert, Inv, StoreOutcome, IsDestination;
    var w := env.body;
    StoreEnds(c, Order(w.uuid, env.src, w.orderType, Pending, w.pickupNode, "", None, FUnknown(""), "", None, false),
      env, ch);
  }

  // ---------- retrieve and move orders ----------

  /** Row `id` is claimed by the order, every other row is as it was. */
  predicate ClaimedRow(a: seq<Payload>, b: seq<Payload>, id: nat, oid: nat) {
    |b| == |a| && forall i :: 0 <= i < |a| ==> b[i] == if a[i].id == id then a[i].(claimedBy := Some(oid)) else a[i]
  }

  /** With the pickup node settled: the delivery node must be known, and then the fleet decides. */
  ghost predicate RouteOutcome(c: Core, f: Core, env: Envelope, r: Order, rows: seq<Payload>, from: string,
                               fleet: FleetReply)
  {
    if NoNode(c.nodes, r.delivery) then FailsWith(c, f, env, r.(pickup := from), "node_error", Begun(|c.orders|))
    else
      match fleet
      case Rejected => FailsWith(c, f, env, r.(pickup := from), "fleet_failed", Begun(|c.orders|))
      case Accepted(tag) => DispatchedFrom(c, f, env, r, rows, from, tag)
  }

  lemma RouteEnds(c: Core, d: Core, r: Order, rows: seq<Payload>, env: Envelope, source: Node, fleet: FleetReply)
    requires Stage(c, d, r, rows, Begun(|c.orders|)) && SortedIds(c.payloads) && HoldsNone(c.payloads, |c.orders|)
    requires ClaimsOnly(c.payloads, rows, |c.orders|)
    ensures |d.orders| == |c.orders| + 1
    ensures RouteOutcome(c, PickupAndDispatch(d, |c.orders|, env, source, fleet), env, r, rows, source.name, fleet)
  {
    hide Stage, Makes, Fail, DispatchToFleet, SetOrder, Begun;
    var oid, r1 := |c.orders|, r.(pickup := source.name);
    SameTables(c, d, r, rows, Begun(oid));
    StageRow(c, d, r, rows, Begun(oid), r1);
    if NodeByName(c.nodes, r.delivery).None? {
      StageFails(c, SetOrder(d, oid, r1), r1, rows, Begun(oid), env, "node_error");
    } else {
      SentOff(c, SetOrder(d, oid, r1), r1, rows, Begun(oid), env, source, fleet);
    }
  }

  lemma ClaimStage(c: Core, d: Core, r: Order, log: seq<Hist>, id: nat)
    requires Stage(c, d, r, c.payloads, log) && forall p :: p in c.payloads && p.id == id ==> p.claimedBy.None?
    ensures var rows := Claimed(c.payloads, id, |c.orders|);
      && Stage(c, d.(payloads := Claimed(d.payloads, id, |c.orders|)), r, rows, log)
      && ClaimsOnly(c.payloads, rows, |c.orders|) && ClaimedRow(c.payloads, rows, id, |c.orders|)
  {
  }

  /** A retrieve takes the chosen payload from the node it is at; without one it fails and nothing is claimed. */
  ghost predicate RetrieveOutcome(c: Core, f: Core, env: Envelope, r: Order, ch: Choice) {
    match ch.source
    case None => FailsWith(c, f, env, r, "no_source", Begun(|c.orders|))
    case Some(id) =>
      exists p, n, rows :: p in c.payloads && p.id == id && n in c.nodes && p.node == Some(n.id)
        && ClaimedRow(c.payloads, rows, id, |c.orders|) && RouteOutcome(c, f, env, r, rows, n.name, ch.fleet)
  }

  /** The row of the chosen id: free, and at a node that exists. */
  lemma FifoRow(c: Core, id: nat, code: string) returns (p: Payload)
    requires Inv(c) && IsFifoSource(c.types, c.nodes, c.payloads, code, Some(id))
    ensures p in c.payloads && PayloadById(c.payloads, id) == Some(p) && p.id == id && p.node.Some?
    ensures var n := NodeById(c.nodes, p.node.value); n.Some? && n.value in c.nodes && n.value.id == p.node.value
    ensures forall q :: q in c.payloads && q.id == id ==> q.claimedBy.None?
  {
    p :| p in c.payloads && p.id == id && Eligible(c.types, c.nodes, p, code);
    SameId(c.payloads, p, PayloadById(c.payloads, id).value);
    forall q | q in c.payloads && q.id == id ensures q.claimedBy.None? { SameId(c.payloads, p, q); }
  }

  lemma RetrieveEnds(c: Core, r: Order, env: Envelope, ch: Choice, code: string)
    requires Inv(c) && r.status == Pending && IsFifoSource(c.types, c.nodes, c.payloads, code, ch.source)
    ensures RetrieveOutcome(c, HandleRetrieve(Insert(c, r), |c.orders|, env, ch), env, r, ch)
  {
    hide Fail, PickupAndDispatch, Makes, Stage, SetOrder, Begun, RouteOutcome, Inv, IsFifoSource, HoldsNone, ClaimsOnly;
    var oid, log := |c.orders|, Begun(|c.orders|);
    StageBegins(c, r);
    SameTables(c, Insert(c, r), r, c.payloads, [Hist(oid, Pending, Note("received"))]);
    var c1, r1 := Sourcing1(Insert(c, r), oid), r.(status := Sourcing);
    NewHoldsNone(c);
    SameTables(c, c1, r1, c.payloads, log);
    if ch.source.None? {
      StageFails(c, c1, r1, c.payloads, log, env, "no_source");
    } else {
      var id := ch.source.value;
      var p := FifoRow(c, id, code);
      ClaimStage(c, c1, r1, log, id);
      var n, rows := NodeById(c.nodes, p.node.value).value, Claimed(c.payloads, id, oid);
      var c2 := c1.(payloads := Claimed(c1.payloads, id, oid));
      RouteEnds(c, c2, r1, rows, env, n, ch.fleet);
      RouteForgets(c, PickupAndDispatch(c2, oid, env, n, ch.fleet), env, r, rows, n.name, ch.fleet);
    }
  }

  /** The interim status does not show in the outcome. */
  lemma RouteForgets(c: Core, f: Core, env: Envelope, r: Order, rows: seq<Payload>, from: string, fleet: FleetReply)
    requires RouteOutcome(c, f, env, r.(status := Sourcing), rows, from, fleet)
    ensures RouteOutcome(c, f, env, r, rows, from, fleet)
  {
  }

  lemma RetrieveAnswer(c: Core, env: Envelope, ch: Choice, now: int, t: PayloadType)
    requires Inv(c) && Known(c, env, t) && env.body.orderType == Retrieve && Enabled(c, AMessage(env, ch, now))
    ensures RetrieveOutcome(c, Step(c, AMessage(env, ch, now)), env, Asked(env, t.id), ch)
  {
    hide Step, HandleRetrieve, Insert, Inv, RetrieveOutcome;
    KnownInserts(c, env, ch, now, t);
    RetrieveEnds(c, Asked(env, t.id), env, ch, env.body.payloadTypeCode);
  }

  /** A free payload of the type at the node. */
  predicate Free(c: Core, p: Payload, node: nat, code: string) {
    p in c.payloads && p.node == Some(node) && p.claimedBy.None? && TypeName(c.types, p) == code
  }

  lemma FreeUnclaimed(c: Core, p: Payload, node: nat, code: string)
    requires Free(c, p, node, code)
    ensures p in c.payloads && p.claimedBy.None?
  {
  }

  /** What a move takes: the newest free payload of the type at the node, if there is one. */
  lemma MoveTakesNewest(c: Core, node: nat, code: string)
    requires SortedIds(c.payloads)
    ensures var m := MoveSource(c, node, code);
      if m.None? then forall p :: !Free(c, p, node, code)
      else Free(c, m.value, node, code) && forall q :: Free(c, q, node, code) ==> q.id <= m.value.id
  {
    var list, wanted := ListByNode(c.payloads, node), Movable(c.types, code);
    ListByNodeIs(c.payloads, node);
    var m := FindFirst(list, wanted);
    if m.Some? {
      var i := FirstIs(list, wanted);
      forall q | Free(c, q, node, code) ensures q.id <= m.value.id {
        assert q in list;
        var j :| 0 <= j < |list| && list[j] == q;
        assert wanted(q);
      }
    } else {
      forall p ensures !Free(c, p, node, code) {
        assert p in list ==> !wanted(p);
      }
    }
  }

  /** A move starts at the node it names and takes, if it names a type, the newest free payload of that type there. */
  ghost predicate MoveOutcome(c: Core, f: Core, env: Envelope, r: Order, code: string, fleet: FleetReply) {
    if r.pickup == "" then FailsWith(c, f, env, r, "missing_pickup", Begun(|c.orders|))
    else
      match NodeByName(c.nodes, r.pickup)
      case None => FailsWith(c, f, env, r, "invalid_node", Begun(|c.orders|))
      case Some(n) =>
        if code == "" then RouteOutcome(c, f, env, r, c.payloads, n.name, fleet)
        else if forall p :: !Free(c, p, n.id, code) then FailsWith(c, f, env, r, "no_payload", Begun(|c.orders|))
        else
          exists p, rows :: Free(c, p, n.id, code) && (forall q :: Free(c, q, n.id, code) ==> q.id <= p.id)
            && ClaimedRow(c.payloads, rows, p.id, |c.orders|) && RouteOutcome(c, f, env, r, rows, n.name, fleet)
  }

  lemma MoveEnds(c: Core, r: Order, env: Envelope, code: string, fleet: FleetReply)
    requires Inv(c) && r.status == Pending
    ensures MoveOutcome(c, HandleMove(Insert(c, r), |c.orders|, env, code, fleet), env, r, code, fleet)
  {
    hide Fail, PickupAndDispatch, Makes, Stage, SetOrder, Begun, RouteOutcome, Free;
    var oid, log := |c.orders|, Begun(|c.orders|);
    StageBegins(c, r);
    SameTables(c, Insert(c, r), r, c.payloads, [Hist(oid, Pending, Note("received"))]);
    var c1, r1 := Sourcing1(Insert(c, r), oid), r.(status := Sourcing);
    NewHoldsNone(c);
    SameTables(c, c1, r1, c.payloads, log);
    var pickup := NodeByName(c.nodes, r.pickup);
    if r.pickup == "" {
      StageFails(c, c1, r1, c.payloads, log, env, "missing_pickup");
    } else if pickup.None? {
      StageFails(c, c1, r1, c.payloads, log, env, "invalid_node");
    } else if code == "" {
      RouteEnds(c, c1, r1, c.payloads, env, pickup.value, fleet);
      RouteForgets(c, PickupAndDispatch(c1, oid, env, pickup.value, fleet), env, r, c.payloads, pickup.value.name,
        fleet);
    } else {
      var n := pickup.value;
      MoveTakesNewest(c, n.id, code);
      var m := MoveSource(c, n.id, code);
      if m.None? {
        StageFails(c, c1, r1, c.payloads, log, env, "no_payload");
      } else {
        var id, rows := m.value.id, Claimed(c.payloads, m.value.id, oid);
        FreeUnclaimed(c, m.value, n.id, code);
        forall q | q in c.payloads && q.id == id ensures q.claimedBy.None? { SameId(c.payloads, m.value, q); }
        ClaimStage(c, c1, r1, log, id);
        var c2 := c1.(payloads := Claimed(c1.payloads, id, oid));
        RouteEnds(c, c2, r1, rows, env, n, fleet);
        RouteForgets(c, PickupAndDispatch(c2, oid, env, n, fleet), env, r, rows, n.name, fleet);
      }
    }
  }

  lemma MoveAnswer(c: Core, env: Envelope, ch: Choice, now: int, t: PayloadType)
    requires Inv(c) && Known(c, env, t) && env.body.orderType == Move
    ensures MoveOutcome(c, Step(c, AMessage(env, ch, now)), env, Asked(env, t.id), env.body.payloadTypeCode, ch.fleet)
  {
    hide Step, HandleMove, Insert, Inv, MoveOutcome;
    KnownInserts(c, env, ch, now, t);
    MoveEnds(c, Asked(env, t.id), env, env.body.payloadTypeCode, ch.fleet);
  }

  // ---------- cancel, receipt, redirect ----------

  /** The order a UUID stands for: the newest that carries it. */
  predicate Newest(orders: seq<Order>, oid: nat, uuid: string) {
    && oid < |orders| && orders[oid].uuid == uuid
    && forall j :: oid < j < |orders| ==> orders[j].uuid != uuid
  }

  lemma {:induction false} FindsNewest(orders: seq<Order>, oid: nat, uuid: string)
    requires Newest(orders, oid, uuid)
    ensures OrderByUuid(orders, uuid) == Some(oid)
  {
    if oid < |orders| - 1 { FindsNewest(orders[..|orders| - 1], oid, uuid); }
  }

  /** The order's claims are released, every other row is as it was. */
  predicate Freed(a: seq<Payload>, b: seq<Payload>, oid: nat) {
    && |b| == |a|
    && forall i :: 0 <= i < |a| ==> b[i] == if a[i].claimedBy == Some(oid) then a[i].(claimedBy := None) else a[i]
  }

  lemma UnclaimFrees(payloads: seq<Payload>, oid: nat)
    requires SortedIds(payloads)
    ensures Freed(payloads, UnclaimAll(payloads, ClaimedIds(payloads, oid)), oid)
  {
    hide ClaimedIds, UnclaimAll;
    var ids := ClaimedIds(payloads, oid);
    forall i | 0 <= i < |payloads| ensures payloads[i].id in ids <==> payloads[i].claimedBy == Some(oid) {
      assert payloads[i] in payloads;
      if payloads[i].id in ids {
        var p :| p in payloads && p.id == payloads[i].id && p.claimedBy == Some(oid);
        var j :| 0 <= j < |payloads| && payloads[j] == p;
      }
    }
  }

  /** A cancel works on the order in any status: claims released, cancelled, the sender told with its own reason. */
  lemma CancelAnswer(c: Core, env: Envelope, ch: Choice, now: int, oid: nat)
    requires SortedIds(c.payloads) && env.body.Cancel? && Newest(c.orders, oid, env.body.uuid)
    ensures var f := Step(c, AMessage(env, ch, now)); var m := env.body;
      && Freed(c.payloads, f.payloads, oid)
      && f == c.(orders := c.orders[oid := c.orders[oid].(status := Cancelled)], payloads := f.payloads,
           history := c.history + [Hist(oid, Cancelled, Note(m.reason))],
           outbox := c.outbox + [CoreMsg(env.src, Some(env.id), CancelledNotice(m.uuid, m.reason))])
  {
    hide ClaimedIds, UnclaimAll, Freed;
    FindsNewest(c.orders, oid, env.body.uuid);
    UnclaimFrees(c.payloads, oid);
  }

  lemma LandedRow(p: Payload, node: nat, now: int)
    ensures Landed(p, node, now) == p.(node := Some(node), deliveredAt := now, claimedBy := None)
  {
  }

  /** A receipt confirms and completes the order and lands what it claims at its delivery node; nothing is sent. */
  lemma ReceiptAnswer(c: Core, env: Envelope, ch: Choice, now: int, oid: nat)
    requires Inv(c) && env.body.Receipt? && Newest(c.orders, oid, env.body.uuid)
    ensures var f := Step(c, AMessage(env, ch, now)); var o := c.orders[oid];
      && f.orders == c.orders[oid := o.(status := Confirmed, completed := true)] && f.outbox == c.outbox
      && f.history == c.history + [Hist(oid, Confirmed, Note("receipt"))]
        + [Hist(oid, Confirmed, Note("order confirmed"))]
      && |f.payloads| == |c.payloads| && f.nodes == c.nodes && f.types == c.types
      && forall i :: 0 <= i < |c.payloads| ==>
        if c.payloads[i].claimedBy == Some(oid) then
          exists n ::
            n in c.nodes && n.name == o.delivery
            && f.payloads[i] == c.payloads[i].(node := Some(n.id), deliveredAt := now, claimedBy := None)
        else f.payloads[i] == c.payloads[i]
  {
    hide HandleReceipt, Inv, Landed;
    FindsNewest(c.orders, oid, env.body.uuid);
    ReceiptRows(c, env, now);
    forall i | 0 <= i < |c.payloads| && c.payloads[i].claimedBy == Some(oid)
      ensures exists n ::
        n in c.nodes && n.name == c.orders[oid].delivery
        && HandleReceipt(c, env, now).payloads[i] ==
          c.payloads[i].(node := Some(n.id), deliveredAt := now, claimedBy := None)
    {
      var n := Target(c, oid).value;
      assert n in c.nodes && n.name == c.orders[oid].delivery;
      LandedRow(c.payloads[i], n.id, now);
    }
  }

  /** A cancel or receipt for a UUID core has no order of changes nothing; neither does a redirect. */
  lemma StrayMessage(c: Core, env: Envelope, ch: Choice, now: int)
    requires env.body.Cancel? || env.body.Receipt? || env.body.Redirect?
    requires forall oid :: 0 <= oid < |c.orders| ==> c.orders[oid].uuid != env.body.uuid
    ensures Step(c, AMessage(env, ch, now)) == c
  {
  }

  /** Dispatched anew: the row keeps its delivery node, and a rejection by the fleet fails the order. */
  predicate Redispatched(c: Core, f: Core, env: Envelope, oid: nat, fleet: FleetReply)
    requires oid < |c.orders|
  {
    var o, log := c.orders[oid], c.history + [Hist(oid, Sourcing, Note("sourcing"))];
    match fleet
    case Rejected =>
      && Freed(c.payloads, f.payloads, oid)
      && f == c.(orders := c.orders[oid := o.(status := Failed)], payloads := f.payloads,
           history := log + [Hist(oid, Failed, Note("fleet_failed"))],
           outbox := c.outbox + [CoreMsg(env.src, Some(env.id), Error(o.uuid, "fleet_failed"))])
    case Accepted(tag) =>
      f == c.(orders := c.orders[oid := o.(status := Dispatched, vendor := Some(VendorId(oid, tag)),
             vendorState := FCreated, robot := "")],
           history := log + [Hist(oid, Dispatched, Note("vendor order created"))],
           outbox := c.outbox + [CoreMsg(env.src, Some(env.id), Ack(o.uuid, oid, o.pickup))])
  }

  lemma RedispatchEnds(c: Core, env: Envelope, oid: nat, source: Node, fleet: FleetReply)
    requires SortedIds(c.payloads) && oid < |c.orders| && source.name == c.orders[oid].pickup
    ensures Redispatched(c, DispatchToFleet(Sourcing1(c, oid), oid, env, source, fleet), env, oid, fleet)
  {
    hide ClaimedIds, UnclaimAll, Freed;
    UnclaimFrees(c.payloads, oid);
  }

  /**
   A redirect to an unknown node, or of an order whose pickup node is not known, is turned down. Otherwise the order is
   dispatched anew from its pickup node.
   */
  lemma RedirectAnswer(c: Core, env: Envelope, ch: Choice, now: int, oid: nat)
    requires SortedIds(c.payloads) && env.body.Redirect? && Newest(c.orders, oid, env.body.uuid)
    ensures var f := Step(c, AMessage(env, ch, now)); var o := c.orders[oid];
      if NoNode(c.nodes, env.body.newDeliveryNode) then
        f == c.(outbox := c.outbox + [CoreMsg(env.src, Some(env.id), Error(o.uuid, "invalid_node"))])
      else if o.pickup == "" || NoNode(c.nodes, o.pickup) then
        f == c.(outbox := c.outbox + [CoreMsg(env.src, Some(env.id), Error(o.uuid, "redirect_failed"))])
      else Redispatched(c, f, env, oid, ch.fleet)
  {
    hide DispatchToFleet, Sourcing1, Redispatched;
    FindsNewest(c.orders, oid, env.body.uuid);
    var source := NodeByName(c.nodes, c.orders[oid].pickup);
    if source.Some? { RedispatchEnds(c, env, oid, source.value, ch.fleet); }
  }

  // ---------- the inventory screen ----------

  /** A payload is added as a free row with the next id, if its type and node exist. */
  lemma AddAnswer(c: Core, a: Action)
    requires a.AAdd?
    ensures var f := Step(c, a);
      var known := (exists t :: t in c.types && t.id == a.typeId)
        && (a.node.Some? ==> exists n :: n in c.nodes && n.id == a.node.value);
      && (!known ==> f == c)
      && (known ==>
            f.payloads == c.payloads + [Payload(c.nextPayload, a.typeId, a.node, a.status, None, a.at, a.notes)]
            && f == c.(payloads := f.payloads, nextPayload := c.nextPayload + 1, cache := f.cache))
  {
  }

  /** Removing a payload deletes its row and no other, in place. */
  lemma RemoveAnswer(c: Core, id: nat)
    requires SortedIds(c.payloads)
    ensures var f := Step(c, ARemove(id));
      && (forall p :: p in f.payloads <==> p in c.payloads && p.id != id) && SortedIds(f.payloads)
      && f == c.(payloads := f.payloads, cache := f.cache)
  {
    R.WithoutSorted(c.payloads, id);
    if PayloadById(c.payloads, id).None? { assert forall p :: p in c.payloads ==> p.id != id; }
  }

  /** One item per payload at the node, with its fields and its type's name, newest first. */
  ghost predicate Inventory(c: Core, node: nat, items: seq<Item>) {
    && (forall i, j :: 0 <= i < j < |items| ==> items[i].id > items[j].id)
    && (forall p :: p in c.payloads && p.node == Some(node) ==> ItemFor(c, p) in items)
    && (forall x :: x in items ==> exists p :: p in c.payloads && p.node == Some(node) && x == ItemFor(c, p))
  }

  function ItemFor(c: Core, p: Payload): Item {
    var t := TypeById(c.types, p.typeId);
    Item(p.id, p.typeId, if t.Some? then t.value.name else "", p.status, p.deliveredAt, p.notes, p.claimedBy)
  }

  lemma ItemIs(c: Core, p: Payload)
    ensures ItemOf(c.types, p) == ItemFor(c, p)
  {
  }

  lemma ListingIs(c: Core, node: nat)
    requires SortedIds(c.payloads)
    ensures Inventory(c, node, Listing(c, node))
  {
    hide ListByNode, ItemFor;
    var list := ListByNode(c.payloads, node);
    ListByNodeIs(c.payloads, node);
    var items := ItemsOf(c.types, list);
    forall i | 0 <= i < |items| ensures items[i] == ItemFor(c, list[i]) { ItemIs(c, list[i]); }
    forall i, j | 0 <= i < j < |items| ensures items[i].id > items[j].id { assert list[i].id > list[j].id; }
    forall p | p in c.payloads && p.node == Some(node) ensures ItemFor(c, p) in items {
      var i :| 0 <= i < |list| && list[i] == p;
      assert items[i] == ItemFor(c, p);
    }
    forall x | x in items ensures exists p :: p in c.payloads && p.node == Some(node) && x == ItemFor(c, p) {
      var i :| 0 <= i < |items| && items[i] == x;
      assert list[i] in list && x == ItemFor(c, list[i]);
    }
  }

  /** Reading a node from the tables: the node's row and its inventory, or nothing for an unknown id. */
  lemma ReadAnswer(c: Core, node: nat)
    requires SortedIds(c.payloads)
    ensures match NodeStateFromSQL(c, node)
      case None => forall n :: n in c.nodes ==> n.id != node
      case Some(r) => r.node in c.nodes && r.node.id == node && r.count == |r.items| && Inventory(c, node, r.items)
  {
    hide Listing, Inventory;
    ListingIs(c, node);
  }
}
