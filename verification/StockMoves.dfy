/**
 A retrieve order from the operator's request to the receipt that moves the bin: the premises of the
 inventory theorems can be met.
 */
module StockMoves {
  import opened Protocol
  import E = EdgeOrders
  import S = CoreState
  import D = CoreDispatch
  import C = CoreClaims
  import K = ClaimLeaks
  import opened OrderSystem
  import opened Walkthrough

  const Create: E.Action := E.ACreateRetrieve("u", None, false, 1.0, "L1", "", "standard", false)
  const Asking: seq<Action> := [ALocal("E1", Create), AToCore("E1", 0, K.Ask.ch, 0)]
  const Reporting: seq<Action> :=
    [ACore(D.AReport(Vendor, S.FRunning, "R1")), ACore(D.AReport(Vendor, S.FFinished, "R1"))]
  const Counting1: seq<Action> := [ALocal("E1", E.AConfirm(0, 2.0))]
  const Take: Action := AToCore("E1", 1, K.Ask.ch, 1)

  /** The network before the receipt is delivered. */
  const Before: seq<Action> := Asking + Reporting + Hearing + Counting1

  // ---------- enabled runs ----------

  lemma {:induction false} EnabledConcat(n: Net, a: seq<Action>, b: seq<Action>)
    requires EnabledRun(n, a) && EnabledRun(Run(n, a), b)
    ensures EnabledRun(n, a + b)
    decreases |a|
  {
    hide Step, Enabled;
    if a == [] {
      assert a + b == b;
    } else {
      assert (a + b)[0] == a[0] && (a + b)[1..] == a[1..] + b;
      EnabledConcat(Step(n, a[0]), a[1..], b);
    }
  }

  /** Only deliveries to core are restricted. */
  lemma {:induction false} FreeRun(n: Net, acts: seq<Action>)
    requires forall i :: 0 <= i < |acts| ==> !acts[i].AToCore?
    ensures EnabledRun(n, acts)
    decreases |acts|
  {
    hide Step, D.Step;
    if acts != [] { FreeRun(Step(n, acts[0]), acts[1..]); }
  }

  lemma OneStep(n: Net, a: Action)
    ensures Run(n, [a]) == Step(n, a) && (EnabledRun(n, [a]) <==> Enabled(n, a))
  {
    hide Step, Enabled;
    assert [a][1..] == [];
    assert Run(Step(n, a), []) == Step(n, a) && EnabledRun(Step(n, a), []);
  }

  // ---------- one part after another ----------

  /** The operator's request goes out. */
  lemma Requested() returns (e: E.Edge)
    ensures e == E.Step(Edge0(), Create) && Holding(e, Submitted) && e.outbox == [K.Wanted]
  {
    e := E.Step(Edge0(), Create);
    assert e.outbox == [K.Wanted];
  }

  /** Core claims the bin on the shelf and dispatches a robot. */
  lemma Fetched() returns (c: S.Core)
    ensures c == D.HandleMessage(K.Depot(), K.Wanted, K.Ask.ch, 0)
    ensures c.orders == [K.AskedOrder(Dispatched, "S1").(vendor := Some(Vendor), vendorState := S.FCreated)]
    ensures c.payloads == [K.Bin.(claimedBy := Some(0))] && c.nodes == K.Depot().nodes
    ensures c.outbox == [CoreMsg("E1", Some(0), Ack("u", 0, "S1"))]
  {
    hide D.HandleRequest, D.HandleRetrieve, D.Insert;
    K.AskInserts();
    K.AskDispatches(D.Insert(K.Depot(), K.AskedOrder(Pending, "")));
    c := D.HandleMessage(K.Depot(), K.Wanted, K.Ask.ch, 0);
  }

  /** What core holds once the robot is there: the order knows both ends, the bin is claimed by it. */
  predicate Arrived(c: S.Core) {
    && |c.orders| == 1 && c.orders[0].uuid == "u" && c.orders[0].pickup == "S1" && c.orders[0].delivery == "L1"
    && c.payloads == [K.Bin.(claimedBy := Some(0))] && c.nodes == K.Depot().nodes
  }

  lemma Carried(c: S.Core) returns (f: S.Core, g: S.Core)
    requires Arrived(c) && c.orders[0].status == Dispatched && c.orders[0].vendor == Some(Vendor)
    requires c.orders[0].station == "E1" && c.orders[0].robot == ""
      && c.outbox == [CoreMsg("E1", Some(0), Ack("u", 0, "S1"))]
    ensures f == D.HandleReport(c, Vendor, S.FRunning, "R1") && g == D.HandleReport(f, Vendor, S.FFinished, "R1")
    ensures |g.outbox| == 5 && g.outbox[0] == c.outbox[0]
    ensures g.outbox[1] == CoreMsg("E1", None, Waybill("u", Vendor, "R1", ""))
      && g.outbox[4] == CoreMsg("E1", None, DeliveredNotice("u"))
    ensures Arrived(g)
  {
    hide D.HandleReport;
    f, g := Reported(c);
    RunningReport(c);
    C.ReportLocal(c, Vendor, S.FRunning, "R1");
    C.ReportLocal(f, Vendor, S.FFinished, "R1");
  }

  /** Asking and reporting as runs of the system. */
  lemma AskedRun() returns (e: E.Edge, c: S.Core)
    ensures var n := Both(Edge0(), K.Depot()); Run(n, Asking) == Both(e, c) && EnabledRun(n, Asking)
    ensures Holding(e, Submitted) && Arrived(c) && c.orders[0].status == Dispatched
      && c.orders[0].vendor == Some(Vendor)
    ensures c.orders[0].station == "E1" && c.orders[0].robot == ""
      && c.outbox == [CoreMsg("E1", Some(0), Ack("u", 0, "S1"))]
  {
    hide Step, Run, EnabledRun, E.Step, D.HandleMessage, D.Enabled;
    e := Requested();
    c := Fetched();
    K.AskAllowed();
    var n, m := Both(Edge0(), K.Depot()), Both(e, K.Depot());
    EdgeActs(Edge0(), K.Depot(), Create);
    CoreHears(e, K.Depot(), 0, K.Ask.ch, 0);
    OneStep(n, Asking[0]);
    OneStep(m, Asking[1]);
    RunConcat(n, [Asking[0]], [Asking[1]]);
    EnabledConcat(n, [Asking[0]], [Asking[1]]);
    assert Asking == [Asking[0]] + [Asking[1]];
  }

  lemma ReportedRun(e: E.Edge, c: S.Core) returns (g: S.Core)
    requires Arrived(c) && c.orders[0].status == Dispatched && c.orders[0].vendor == Some(Vendor)
    requires c.orders[0].station == "E1" && c.orders[0].robot == ""
      && c.outbox == [CoreMsg("E1", Some(0), Ack("u", 0, "S1"))]
    ensures Run(Both(e, c), Reporting) == Both(e, g) && Arrived(g)
    ensures |g.outbox| == 5 && g.outbox[0] == c.outbox[0]
    ensures g.outbox[1] == CoreMsg("E1", None, Waybill("u", Vendor, "R1", ""))
      && g.outbox[4] == CoreMsg("E1", None, DeliveredNotice("u"))
  {
    hide Step, Run, D.HandleReport;
    var f;
    f, g := Carried(c);
    Two(Both(e, c), Reporting);
    CoreReports(e, c, S.FRunning);
    CoreReports(e, f, S.FFinished);
  }

  /** The edge hears of it and the operator confirms. */
  lemma HeardRun(e: E.Edge, g: S.Core) returns (e': E.Edge)
    requires Holding(e, Submitted) && |g.outbox| == 5 && g.outbox[0] == CoreMsg("E1", Some(0), Ack("u", 0, "S1"))
    requires g.outbox[1] == CoreMsg("E1", None, Waybill("u", Vendor, "R1", ""))
      && g.outbox[4] == CoreMsg("E1", None, DeliveredNotice("u"))
    ensures Run(Both(e, g), Hearing + Counting1) == Both(e', g)
    ensures |e'.outbox| == 2 && e'.outbox[1].body == Receipt("u", 2.0)
  {
    hide Step, Run, E.Step, E.Confirm;
    var e3 := Heard(e, g);
    e' := E.Confirm(e3, 0, 2.0);
    Confirms(e3);
    ConfirmStep(e3);
    EdgeActs(e3, g, E.AConfirm(0, 2.0));
    OneStep(Both(e3, g), Counting1[0]);
    RunConcat(Both(e, g), Hearing, Counting1);
  }

  lemma DepotInv()
    ensures C.Inv(K.Depot())
  {
    K.AskAllowed();
  }

  /** The whole run up to the receipt, from the initial state. */
  lemma BeforeRun() returns (e: E.Edge, g: S.Core)
    ensures var n := Both(Edge0(), K.Depot()); Run(n, Before) == Both(e, g) && EnabledRun(n, Before)
    ensures Arrived(g) && |e.outbox| == 2 && e.outbox[1].body == Receipt("u", 2.0)
  {
    hide Step, Run, EnabledRun, Holding, Arrived;
    var n := Both(Edge0(), K.Depot());
    var e0, c := AskedRun();
    g := ReportedRun(e0, c);
    e := HeardRun(e0, g);
    var rest := Reporting + (Hearing + Counting1);
    RunConcat(Both(e0, c), Reporting, Hearing + Counting1);
    RunConcat(n, Asking, rest);
    FreeRun(Both(e0, c), rest);
    EnabledConcat(n, Asking, rest);
    assert Before == Asking + rest;
  }

  /** The receipt puts the bin at the line, unclaimed. */
  lemma ReceiptLands(g: S.Core, env: Envelope)
    requires C.Inv(g) && Arrived(g) && env.body == Receipt("u", 2.0)
    ensures var f := D.HandleReceipt(g, env, 1);
      f.payloads == [C.Landed(K.Bin, 2, 1)] && |f.orders| == 1 && f.orders[0].status == Confirmed
  {
    hide D.HandleReceipt, C.Inv;
    K.DepotLookups();
    C.ReceiptRows(g, env, 1);
  }

  /**
   An enabled run from an initial state, then a receipt that moves the bin from the shelf to the line and
   confirms its order.
   */
  lemma ReceiptMovesStock()
    ensures var n := Both(Edge0(), K.Depot()); var f := Run(n, Before); var h := Step(f, Take);
      && Init(n) && EnabledRun(n, Before) && Enabled(f, Take)
      && f.core.payloads == [K.Bin.(claimedBy := Some(0))] && K.Bin.node == Some(K.Shelf.id)
      && h.core.payloads == [K.Bin.(node := Some(K.Line.id), deliveredAt := 1)]
      && |h.core.orders| == 1 && h.core.orders[0].status == Confirmed
  {
    hide Run, EnabledRun, D.HandleReceipt, C.Inv, D.Init;
    var n := Both(Edge0(), K.Depot());
    var e, g := BeforeRun();
    K.AskAllowed();
    DepotInv();
    ClaimsKept(n, Before);
    CoreHears(e, g, 1, K.Ask.ch, 1);
    ReceiptLands(g, e.outbox[1]);
  }
}
