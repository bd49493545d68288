/**
 One store order from the operator's count to core's confirmation: the premises of the system's theorems can
 be met.
 */
module Walkthrough {
  import opened Protocol
  import E = EdgeOrders
  import T = CoreTables
  import S = CoreState
  import D = CoreDispatch
  import opened OrderSystem

  const Shelf: T.Node := T.Node(1, "S1", "storage", "A", 10, true)
  const Pick: D.Choice := D.Choice(None, Some(Shelf), D.Accepted("x"))
  const Vendor: VendorId := VendorId(0, "x")

  function Edge0(): E.Edge { E.Edge("E1", false, [], [], [], [], []) }

  function Core0(): S.Core { S.Core([], [Shelf], [], 1, [], [], [], S.Cache(map[], map[], map[], {})) }

  /** The operator creates, counts and submits the order. */
  lemma Submitted1() returns (e: E.Edge)
    ensures e == E.Step(E.Step(E.Step(Edge0(), E.ACreateStore("u", None, 2.0, "S1")), E.ASetCount(0, 2.0)),
      E.ASubmit(0))
    ensures |e.orders| == 1 && e.orders[0].uuid == "u" && e.orders[0].status == Submitted && !e.orders[0].autoConfirm
    ensures e.station == "E1" && e.outbox == [Envelope(0, "E1", StorageWaybill("u", Store, "S1", 2.0))]
  {
    var e1 := E.Step(Edge0(), E.ACreateStore("u", None, 2.0, "S1"));
    assert e1.orders == [E.NewOrder("u", Store, None, false, 2.0, "", "", "S1", "", false)];
    var e2 := E.Step(e1, E.ASetCount(0, 2.0));
    e := E.Step(e2, E.ASubmit(0));
  }

  /** Core stores it on the shelf and dispatches a robot. */
  lemma Dispatched1(env: Envelope) returns (c: S.Core)
    requires env == Envelope(0, "E1", StorageWaybill("u", Store, "S1", 2.0))
    ensures c == D.HandleMessage(Core0(), env, Pick, 0) && D.Enabled(Core0(), D.AMessage(env, Pick, 0))
    ensures |c.orders| == 1 && c.orders[0].uuid == "u" && c.orders[0].status == Dispatched
      && c.orders[0].vendor == Some(Vendor)
    ensures c.orders[0].station == "E1" && c.orders[0].robot == ""
    ensures c.outbox == [CoreMsg("E1", Some(0), Ack("u", 0, "S1"))] && c.payloads == [] && c.nodes == [Shelf]
  {
    c := D.HandleMessage(Core0(), env, Pick, 0);
    assert T.NodeByName([Shelf], "S1") == Some(Shelf);
    assert T.HasRoom([], Shelf) && T.OfType([], 1, 0) == 0;
    assert c.orders[0].vendor == Some(Vendor);
  }

  /** The fleet reports the robot under way, then finished. */
  lemma Reported(c: S.Core) returns (f: S.Core, g: S.Core)
    requires |c.orders| == 1 && c.orders[0].uuid == "u" && c.orders[0].status == Dispatched
      && c.orders[0].vendor == Some(Vendor)
    requires c.orders[0].station == "E1" && c.orders[0].robot == ""
      && c.outbox == [CoreMsg("E1", Some(0), Ack("u", 0, "S1"))]
    ensures f == D.HandleReport(c, Vendor, S.FRunning, "R1") && g == D.HandleReport(f, Vendor, S.FFinished, "R1")
    ensures |g.outbox| == 5 && g.outbox[0] == c.outbox[0]
    ensures g.outbox[1] == CoreMsg("E1", None, Waybill("u", Vendor, "R1", ""))
      && g.outbox[4] == CoreMsg("E1", None, DeliveredNotice("u"))
    ensures |g.orders| == 1 && g.orders[0].uuid == "u"
  {
    hide D.HandleReport;
    f := D.HandleReport(c, Vendor, S.FRunning, "R1");
    RunningReport(c);
    g := D.HandleReport(f, Vendor, S.FFinished, "R1");
    FinishedReport(f);
  }

  lemma RunningReport(c: S.Core)
    requires |c.orders| == 1 && c.orders[0].vendor == Some(Vendor) && c.orders[0].status == Dispatched
      && c.orders[0].robot == ""
    ensures var f := D.HandleReport(c, Vendor, S.FRunning, "R1"); var o := c.orders[0];
      && |f.orders| == 1 && f.orders[0].vendor == Some(Vendor) && f.orders[0].status == InTransit
        && f.orders[0].robot == "R1"
      && f.orders[0].station == o.station && f.orders[0].uuid == o.uuid
      && f.outbox == c.outbox + [CoreMsg(o.station, None, Waybill(o.uuid, Vendor, "R1", ""))]
                     + [CoreMsg(o.station, None, Update(o.uuid, InTransit, ""))]
  {
  }

  lemma FinishedReport(c: S.Core)
    requires |c.orders| == 1 && c.orders[0].vendor == Some(Vendor) && c.orders[0].status == InTransit
      && c.orders[0].robot == "R1"
    ensures var f := D.HandleReport(c, Vendor, S.FFinished, "R1"); var o := c.orders[0];
      && |f.orders| == 1 && f.orders[0].uuid == o.uuid
      && f.outbox == c.outbox + [CoreMsg(o.station, None, Update(o.uuid, Delivered, ""))]
        + [CoreMsg(o.station, None, DeliveredNotice(o.uuid))]
  {
  }

  /** An edge with the one order at a given status, and nothing sent but the waybill. */
  predicate Holding(e: E.Edge, s: Status) {
    && |e.orders| == 1 && e.orders[0].uuid == "u" && e.orders[0].status == s && !e.orders[0].autoConfirm
    && |e.outbox| == 1 && e.station == "E1"
  }

  lemma Hears(e: E.Edge, body: CoreBody, from: Status, to: Status)
    requires Holding(e, from) && body.uuid == "u" && !E.IsValidTransition(Pending, to) && !IsTerminal(to)
    requires E.IsValidTransition(from, to) && E.Target(body) == Some(to)
    ensures Holding(E.Reply(e, body), to)
  {
  }

  lemma Confirms(e: E.Edge)
    requires Holding(e, Delivered)
    ensures var f := E.Confirm(e, 0, 2.0); |f.outbox| == 2 && f.outbox[1].body == Receipt("u", 2.0) && f.station == "E1"
  {
  }

  // ---------- the same as a run of the system ----------

  function Both(e: E.Edge, c: S.Core): Net { Net(map["E1" := e], c) }

  const Counting: seq<Action> :=
    [ALocal("E1", E.ACreateStore("u", None, 2.0, "S1")), ALocal("E1", E.ASetCount(0, 2.0)), ALocal("E1", E.ASubmit(0))]
  const Moving: seq<Action> :=
    [AToCore("E1", 0, Pick, 0), ACore(D.AReport(Vendor, S.FRunning, "R1")), ACore(D.AReport(Vendor, S.FFinished, "R1"))]
  const Hearing: seq<Action> := [AToEdge(0, "E1"), AToEdge(1, "E1"), AToEdge(4, "E1")]
  const Confirming: seq<Action> := [ALocal("E1", E.AConfirm(0, 2.0)), AToCore("E1", 1, Pick, 1)]

  lemma {:induction false} RunConcat(n: Net, a: seq<Action>, b: seq<Action>)
    ensures Run(n, a + b) == Run(Run(n, a), b)
    decreases |a|
  {
    if a == [] {
      assert a + b == b;
    } else {
      assert (a + b)[0] == a[0] && (a + b)[1..] == a[1..] + b;
      RunConcat(Step(n, a[0]), a[1..], b);
    }
  }

  lemma Three(n: Net, acts: seq<Action>)
    requires |acts| == 3
    ensures Run(n, acts) == Step(Step(Step(n, acts[0]), acts[1]), acts[2])
  {
    hide Step;
    var m := Step(Step(n, acts[0]), acts[1]);
    assert acts[1..][0] == acts[1] && acts[1..][1..] == acts[2..] && acts[2..][0] == acts[2] && acts[2..][1..] == [];
    assert Run(m, acts[2..]) == Run(Step(m, acts[2]), []);
  }

  lemma Two(n: Net, acts: seq<Action>)
    requires |acts| == 2
    ensures Run(n, acts) == Step(Step(n, acts[0]), acts[1])
  {
    hide Step;
    assert acts[1..][0] == acts[1] && acts[1..][1..] == [];
    var m := Step(n, acts[0]);
    assert Run(n, acts) == Run(m, acts[1..]);
    assert Run(m, acts[1..]) == Run(Step(m, acts[1]), acts[1..][1..]);
  }

  lemma EdgeActs(e: E.Edge, c: S.Core, act: E.Action)
    requires !act.AReply?
    ensures Step(Both(e, c), ALocal("E1", act)) == Both(E.Step(e, act), c)
  {
  }

  lemma CoreHears(e: E.Edge, c: S.Core, k: nat, ch: D.Choice, now: int)
    requires k < |e.outbox|
    ensures Step(Both(e, c), AToCore("E1", k, ch, now)) == Both(e, D.HandleMessage(c, e.outbox[k], ch, now))
  {
  }

  lemma EdgeHears(e: E.Edge, c: S.Core, k: nat)
    requires k < |c.outbox| && c.outbox[k].dst == e.station
    ensures Step(Both(e, c), AToEdge(k, "E1")) == Both(E.Reply(e, c.outbox[k].body), c)
  {
  }

  lemma CoreReports(e: E.Edge, c: S.Core, s: S.FleetState)
    ensures Step(Both(e, c), ACore(D.AReport(Vendor, s, "R1"))) == Both(e, D.HandleReport(c, Vendor, s, "R1"))
  {
  }

  lemma Counted() returns (e: E.Edge)
    ensures Run(Both(Edge0(), Core0()), Counting) == Both(e, Core0())
    ensures Holding(e, Submitted) && e.outbox[0] == Envelope(0, "E1", StorageWaybill("u", Store, "S1", 2.0))
  {
    hide Step, Run, E.Step;
    e := Submitted1();
    var e0 := E.Step(Edge0(), E.ACreateStore("u", None, 2.0, "S1"));
    Three(Both(Edge0(), Core0()), Counting);
    EdgeActs(Edge0(), Core0(), E.ACreateStore("u", None, 2.0, "S1"));
    EdgeActs(e0, Core0(), E.ASetCount(0, 2.0));
    EdgeActs(E.Step(e0, E.ASetCount(0, 2.0)), Core0(), E.ASubmit(0));
  }

  lemma Moved(e: E.Edge) returns (g: S.Core)
    requires Holding(e, Submitted) && e.outbox[0] == Envelope(0, "E1", StorageWaybill("u", Store, "S1", 2.0))
    ensures Run(Both(e, Core0()), Moving) == Both(e, g)
    ensures |g.outbox| == 5 && g.outbox[0] == CoreMsg("E1", Some(0), Ack("u", 0, "S1"))
    ensures g.outbox[1] == CoreMsg("E1", None, Waybill("u", Vendor, "R1", ""))
      && g.outbox[4] == CoreMsg("E1", None, DeliveredNotice("u"))
    ensures |g.orders| == 1 && g.orders[0].uuid == "u"
  {
    hide Step, Run, D.HandleMessage, D.HandleReport;
    var c := Dispatched1(e.outbox[0]);
    var f;
    f, g := Reported(c);
    Three(Both(e, Core0()), Moving);
    CoreHears(e, Core0(), 0, Pick, 0);
    CoreReports(e, c, S.FRunning);
    CoreReports(e, f, S.FFinished);
    assert g.outbox[0] == c.outbox[0];
  }

  lemma Heard(e: E.Edge, g: S.Core) returns (e3: E.Edge)
    requires Holding(e, Submitted) && |g.outbox| == 5 && g.outbox[0] == CoreMsg("E1", Some(0), Ack("u", 0, "S1"))
    requires g.outbox[1] == CoreMsg("E1", None, Waybill("u", Vendor, "R1", ""))
      && g.outbox[4] == CoreMsg("E1", None, DeliveredNotice("u"))
    ensures Run(Both(e, g), Hearing) == Both(e3, g) && Holding(e3, Delivered)
  {
    hide Step, Run, E.Reply;
    var e1 := E.Reply(e, Ack("u", 0, "S1"));
    var e2 := E.Reply(e1, Waybill("u", Vendor, "R1", ""));
    e3 := E.Reply(e2, DeliveredNotice("u"));
    Hears(e, Ack("u", 0, "S1"), Submitted, Acknowledged);
    Hears(e1, Waybill("u", Vendor, "R1", ""), Acknowledged, InTransit);
    Hears(e2, DeliveredNotice("u"), InTransit, Delivered);
    Three(Both(e, g), Hearing);
    EdgeHears(e, g, 0);
    EdgeHears(e1, g, 1);
    EdgeHears(e2, g, 4);
  }

  lemma Settled(e3: E.Edge, g: S.Core) returns (n: Net)
    requires Holding(e3, Delivered) && |g.orders| == 1 && g.orders[0].uuid == "u"
    ensures n == Run(Both(e3, g), Confirming)
    ensures |n.core.orders| == 1 && n.core.orders[0].uuid == "u" && n.core.orders[0].status == Confirmed
  {
    hide Step, Run, E.Step, E.Confirm, D.HandleMessage;
    var e' := E.Confirm(e3, 0, 2.0);
    Confirms(e3);
    Two(Both(e3, g), Confirming);
    EdgeActs(e3, g, E.AConfirm(0, 2.0));
    ConfirmStep(e3);
    CoreHears(e', g, 1, Pick, 1);
    ReceiptConfirms(g, e'.outbox[1]);
    n := Both(e', D.HandleMessage(g, e'.outbox[1], Pick, 1));
  }

  /** A run from the initial state in which core confirms an order. */
  lemma ConfirmationIsReachable()
    ensures var n := Both(Edge0(), Core0());
      Init(n) && var f := Run(n, Counting + Moving + Hearing + Confirming);
        |f.core.orders| == 1 && f.core.orders[0].uuid == "u" && f.core.orders[0].status == Confirmed
  {
    hide Run, Counting, Moving, Hearing, Confirming;
    var e := Counted();
    var g := Moved(e);
    var e3 := Heard(e, g);
    var n := Settled(e3, g);
    RunConcat(Both(Edge0(), Core0()), Counting, Moving);
    RunConcat(Both(Edge0(), Core0()), Counting + Moving, Hearing);
    RunConcat(Both(Edge0(), Core0()), Counting + Moving + Hearing, Confirming);
  }

  lemma ConfirmStep(e: E.Edge)
    ensures E.Step(e, E.AConfirm(0, 2.0)) == E.Confirm(e, 0, 2.0)
  {
  }

  lemma ReceiptConfirms(c: S.Core, env: Envelope)
    requires |c.orders| == 1 && c.orders[0].uuid == "u" && env.body == Receipt("u", 2.0)
    ensures var f := D.HandleMessage(c, env, Pick, 1);
      |f.orders| == 1 && f.orders[0].uuid == "u" && f.orders[0].status == Confirmed
  {
    var c2 := D.RecordReceipt(c, 0);
    var o := c2.orders[0];
    if o.pickup != "" && o.delivery != "" && T.NodeByName(c2.nodes, o.delivery).Some? {
      MoveAllRecord(c2, S.ClaimedIds(c2.payloads, 0), T.NodeByName(c2.nodes, o.delivery).value.id, 1);
    }
  }
}
