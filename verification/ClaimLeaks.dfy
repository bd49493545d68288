/**
 When a claim outlives its order: exactly when the fleet reports FAILED or STOPPED for an order that holds
 something.
 */
module ClaimLeaks {
  import opened Protocol
  import opened CoreTables
  import opened CoreState
  import opened CoreDispatch
  import opened CoreClaims
  import opened CoreRuns

  /** Every claim belongs to an order that is dispatched, in transit or delivered. */
  predicate AllUnderWay(c: Core) {
    forall p :: p in c.payloads && p.claimedBy.Some? ==>
      p.claimedBy.value < |c.orders| && UnderWay(c.orders[p.claimedBy.value].status)
  }

  /** The guard: a report that ends an order of the vendor id while the order holds a payload. */
  predicate Leaks(c: Core, a: Action) {
    && a.AReport? && (a.state == FFailed || a.state == FStopped)
    && var found := OrderByVendor(c.orders, a.vendor);
      found.Some? && !HoldsNone(c.payloads, found.value)
  }

  // ---------- one step ----------

  /** A handler working for one order, which ends up empty-handed or under way. */
  lemma LocalUnderWay(c: Core, f: Core, oid: nat)
    requires AllUnderWay(c) && Local(c, f, oid)
    requires HoldsNone(f.payloads, oid) || (oid < |f.orders| && UnderWay(f.orders[oid].status))
    ensures AllUnderWay(f)
  {
    forall p | p in f.payloads && p.claimedBy.Some?
      ensures p.claimedBy.value < |f.orders| && UnderWay(f.orders[p.claimedBy.value].status)
    {
      var i :| 0 <= i < |f.payloads| && f.payloads[i] == p;
      assert c.payloads[i] in c.payloads && RowLocal(c.payloads[i], p, oid);
    }
  }

  /** A redirect leaves its order dispatched or empty-handed, or changes no row at all. */
  lemma RedirectEnds(c: Core, env: Envelope, fleet: FleetReply)
    requires Inv(c) && env.body.Redirect? && OrderByUuid(c.orders, env.body.uuid).Some?
    ensures var f := HandleRedirect(c, env, fleet); var oid := OrderByUuid(c.orders, env.body.uuid).value;
      f == c.(outbox := f.outbox) || HoldsNone(f.payloads, oid)
      || (oid < |f.orders| && f.orders[oid].status == Dispatched)
  {
    hide DispatchToFleet;
    var oid := OrderByUuid(c.orders, env.body.uuid).value;
    var source := NodeByName(c.nodes, c.orders[oid].pickup);
    if NodeByName(c.nodes, env.body.newDeliveryNode).Some? && c.orders[oid].pickup != "" && source.Some? {
      DispatchLocal(Sourcing1(c, oid), oid, env, source.value, fleet);
    }
  }

  lemma SameRowsUnderWay(c: Core, f: Core)
    requires AllUnderWay(c) && f.payloads == c.payloads && f.orders == c.orders
    ensures AllUnderWay(f)
  {
  }

  lemma ReceiptUnderWay(c: Core, env: Envelope, now: int)
    requires Inv(c) && AllUnderWay(c) && env.body.Receipt?
    ensures AllUnderWay(HandleReceipt(c, env, now))
  {
    var found := OrderByUuid(c.orders, env.body.uuid);
    if found.Some? {
      ReceiptRows(c, env, now);
      var f := HandleReceipt(c, env, now);
      forall p | p in f.payloads && p.claimedBy.Some?
        ensures p.claimedBy.value < |f.orders| && UnderWay(f.orders[p.claimedBy.value].status)
      {
        var i :| 0 <= i < |f.payloads| && f.payloads[i] == p;
        assert c.payloads[i] in c.payloads;
      }
    }
  }

  lemma MessageUnderWay(c: Core, env: Envelope, ch: Choice, now: int)
    requires Inv(c) && AllUnderWay(c) && Enabled(c, AMessage(env, ch, now))
    ensures AllUnderWay(HandleMessage(c, env, ch, now))
  {
    hide HandleRequest, HandleWaybill, HandleCancel, HandleRedirect, HandleReceipt;
    var f := HandleMessage(c, env, ch, now);
    var found := OrderByUuid(c.orders, env.body.uuid);
    match env.body
    case Request(_, _, _, _, _, _, _) =>
      RequestAnswered(c, env, ch);
      LocalUnderWay(c, f, |c.orders|);
    case StorageWaybill(_, _, _, _) =>
      WaybillAnswered(c, env, ch);
      LocalUnderWay(c, f, |c.orders|);
    case Cancel(_, _) =>
      CancelKeeps(c, env);
      if found.Some? { LocalUnderWay(c, f, found.value); }
    case Redirect(_, _) =>
      RedirectKeeps(c, env, ch.fleet);
      if found.Some? {
        RedirectEnds(c, env, ch.fleet);
        if f == c.(outbox := f.outbox) { SameRowsUnderWay(c, f); } else { LocalUnderWay(c, f, found.value); }
      }
    case Receipt(_, _) => ReceiptUnderWay(c, env, now);
  }

  /** A report keeps every claim with an order under way exactly when it is not one that ends a holding order. */
  lemma ReportLeaksIff(c: Core, v: VendorId, s: FleetState, robot: string)
    requires Inv(c) && AllUnderWay(c)
    ensures AllUnderWay(HandleReport(c, v, s, robot)) <==> !Leaks(c, AReport(v, s, robot))
  {
    hide HandleReport, AllUnderWay, Local, Inv, HoldsNone;
    var found := OrderByVendor(c.orders, v);
    ReportKeeps(c, v, s, robot);
    if found.Some? {
      ReportLocal(c, v, s, robot);
      if HoldsNone(c.payloads, found.value) || UnderWay(MapState(s)) {
        LocalUnderWay(c, HandleReport(c, v, s, robot), found.value);
      } else {
        HolderEnded(HandleReport(c, v, s, robot), found.value);
      }
    }
  }

  lemma HolderEnded(f: Core, oid: nat)
    requires oid < |f.orders| && !UnderWay(f.orders[oid].status) && !HoldsNone(f.payloads, oid)
    ensures !AllUnderWay(f)
  {
    var p :| p in f.payloads && p.claimedBy == Some(oid);
  }

  /**
   From a state in which claims are held by orders under way only, a step keeps that if and only if it does
   not leak.
   */
  lemma StepLeaksIff(c: Core, a: Action)
    requires Inv(c) && AllUnderWay(c) && Enabled(c, a)
    ensures AllUnderWay(Step(c, a)) <==> !Leaks(c, a)
  {
    hide HandleMessage, HandleReport, Sync;
    match a
    case AMessage(env, ch, now) => MessageUnderWay(c, env, ch, now);
    case AReport(v, s, robot) => ReportLeaksIff(c, v, s, robot);
    case AAdd(t, n, st, notes, at) => assert Step(c, a).orders == c.orders;
    case ARemove(id) => assert Step(c, a).orders == c.orders;
    case ASync => SyncTables(c);
  }

  // ---------- runs ----------

  ghost predicate LeakFree(c: Core, acts: seq<Action>)
    decreases |acts|
  {
    acts != [] ==> !Leaks(c, acts[0]) && LeakFree(Step(c, acts[0]), acts[1..])
  }

  /** Without such a report no claim ever outlives the transport it was made for. */
  lemma {:induction false} LeakFreeRun(c: Core, acts: seq<Action>)
    requires Inv(c) && AllUnderWay(c) && EnabledRun(c, acts) && LeakFree(c, acts)
    ensures AllUnderWay(Run(c, acts))
    decreases |acts|
  {
    if acts != [] {
      StepKeeps(c, acts[0]);
      StepLeaksIff(c, acts[0]);
      LeakFreeRun(Step(c, acts[0]), acts[1..]);
    }
  }

  /** The first leaking step of a run is where the property is lost. */
  lemma FirstLeakBreaks(c: Core, acts: seq<Action>, a: Action)
    requires Init(c) && EnabledRun(c, acts) && LeakFree(c, acts) && Enabled(Run(c, acts), a)
    ensures AllUnderWay(Run(c, acts)) && (AllUnderWay(Step(Run(c, acts), a)) <==> !Leaks(Run(c, acts), a))
  {
    LeakFreeRun(c, acts);
    RunKeeps(c, acts);
    StepLeaksIff(Run(c, acts), a);
  }

  // ---------- a leaking run ----------

  const Shelf: Node := Node(1, "S1", "storage", "A", 10, true)
  const Line: Node := Node(2, "L1", "line", "A", 1, true)
  const Bin: Payload := Payload(1, 1, Some(1), "available", None, 0, "")

  function Depot(): Core {
    Core([PayloadType(1, "")], [Shelf, Line], [Bin], 2, [], [], [], Cache(map[], map[], map[], {}))
  }

  const Wanted: Envelope := Envelope(0, "E1", Request("u", Retrieve, "", "", 1.0, "L1", ""))
  const Ask: Action := AMessage(Wanted, Choice(Some(1), None, Accepted("x")), 0)
  const Fail1: Action := AReport(VendorId(0, "x"), FFailed, "R1")

  lemma DepotLookups()
    ensures NodeById([Shelf, Line], 1) == Some(Shelf) && NodeByName([Shelf, Line], "L1") == Some(Line)
    ensures PayloadById([Bin], 1) == Some(Bin)
    ensures TypeByName(Depot().types, "") == Some(PayloadType(1, ""))
  {
    assert Shelf in [Shelf, Line] && Line in [Shelf, Line] && Bin in [Bin];
    assert Shelf.name[0] != Line.name[0];
    var t := PayloadType(1, "");
    assert t in Depot().types && t.name == "";
  }

  lemma AskAllowed()
    ensures Init(Depot()) && Enabled(Depot(), Ask)
  {
    DepotLookups();
    assert Bin in Depot().payloads && Eligible(Depot().types, Depot().nodes, Bin, "");
  }

  function AskedOrder(status: Status, pickup: string): Order {
    Order("u", "E1", Retrieve, status, pickup, "L1", None, FUnknown(""), "", Some(1), false)
  }

  /** The order row made, before sourcing. */
  lemma AskInserts()
    ensures var c1 := Insert(Depot(), AskedOrder(Pending, ""));
      HandleRequest(Depot(), Wanted, Ask.ch) == HandleRetrieve(c1, 0, Wanted, Ask.ch)
  {
    DepotLookups();
  }

  /** The bin is claimed before the robot is asked for. */
  lemma AskClaims(c1: Core, c2: Core)
    requires c1 == Insert(Depot(), AskedOrder(Pending, ""))
    requires c2 == Sourcing1(c1, 0).(payloads := [Bin.(claimedBy := Some(0))])
    ensures HandleRetrieve(c1, 0, Wanted, Ask.ch) == PickupAndDispatch(c2, 0, Wanted, Shelf, Accepted("x"))
    ensures c2.orders == [AskedOrder(Sourcing, "")] && c2.nodes == Depot().nodes && c2.outbox == []
  {
    hide PickupAndDispatch, Fail;
    DepotLookups();
    assert c1.orders == [AskedOrder(Pending, "")];
    assert Claimed([Bin], 1, 0) == [Bin.(claimedBy := Some(0))];
  }

  lemma AskDispatches(c1: Core)
    requires c1 == Insert(Depot(), AskedOrder(Pending, ""))
    ensures var c := HandleRetrieve(c1, 0, Wanted, Ask.ch);
      && c.orders == [AskedOrder(Dispatched, "S1").(vendor := Some(VendorId(0, "x")), vendorState := FCreated)]
      && c.payloads == [Bin.(claimedBy := Some(0))] && c.nodes == Depot().nodes
      && c.outbox == [CoreMsg("E1", Some(0), Ack("u", 0, "S1"))]
  {
    hide HandleRetrieve, Sourcing1, Fail, NodeByName;
    DepotLookups();
    AskClaims(c1, Sourcing1(c1, 0).(payloads := [Bin.(claimedBy := Some(0))]));
  }

  lemma RunOfTwo(c: Core, a: Action, b: Action)
    requires Enabled(c, a) && Enabled(Step(c, a), b)
    ensures EnabledRun(c, [a, b]) && Run(c, [a, b]) == Step(Step(c, a), b)
  {
    hide Step, Enabled;
    var (d, e) := (Step(c, a), Step(Step(c, a), b));
    assert [a, b][1..] == [b] && [b][1..] == [];
    assert EnabledRun(e, []) && Run(e, []) == e;
    assert EnabledRun(d, [b]) && Run(d, [b]) == e;
  }

  /** What the failure leaves behind. */
  lemma FailKeepsClaim(c: Core)
    requires |c.orders| == 1 && c.orders[0].vendor == Some(VendorId(0, "x"))
    requires c.payloads == [Bin.(claimedBy := Some(0))]
    ensures var f := HandleReport(c, VendorId(0, "x"), FFailed, "R1");
      && |f.orders| == 1 && f.orders[0].status == Failed
      && |f.payloads| == 1 && f.payloads[0].claimedBy == Some(0) && !AllUnderWay(f)
  {
    hide HandleReport;
    ReportLocal(c, VendorId(0, "x"), FFailed, "R1");
    var f := HandleReport(c, VendorId(0, "x"), FFailed, "R1");
    assert f.payloads[0] in f.payloads;
  }

  /** A concrete run: the fleet fails the dispatched retrieve, and the payload stays claimed by the failed order. */
  lemma FailedOrderKeepsItsClaim()
    ensures Init(Depot()) && EnabledRun(Depot(), [Ask, Fail1])
    ensures var f := Run(Depot(), [Ask, Fail1]);
      && |f.orders| == 1 && f.orders[0].status == Failed
      && |f.payloads| == 1 && f.payloads[0].claimedBy == Some(0) && !AllUnderWay(f)
  {
    hide HandleRequest, HandleRetrieve, HandleReport, Insert, Init, Inv, EnabledRun, Run, AllUnderWay;
    AskAllowed();
    AskInserts();
    AskDispatches(Insert(Depot(), AskedOrder(Pending, "")));
    RunOfTwo(Depot(), Ask, Fail1);
    var c := Step(Depot(), Ask);
    FailKeepsClaim(c);
  }
}
