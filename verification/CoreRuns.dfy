/** Core's properties over whole runs, built on the per-handler facts of CoreClaims. */
module CoreRuns {
  import opened Protocol
  import opened CoreTables
  import opened CoreState
  import opened CoreDispatch
  import opened CoreClaims

  // ---------- the node-state manager's steps ----------

  /** Only the cache differs. */
  predicate SameTables(c: Core, f: Core) { f == c.(cache := f.cache) }

  lemma SameTablesKeep(c: Core, f: Core)
    requires Inv(c) && SameTables(c, f)
    ensures Inv(f)
  {
  }

  lemma {:induction false} CacheNodesTables(c: Core, nodes: seq<Node>)
    ensures SameTables(c, CacheNodes(c, nodes))
    decreases |nodes|
  {
    if nodes != [] { CacheNodesTables(CacheNode(c, nodes[0]), nodes[1..]); }
  }

  lemma InsertKeeps(c: Core, row: Payload)
    requires Inv(c) && row.id == c.nextPayload && row.claimedBy.None?
    requires row.node.Some? ==> NodeById(c.nodes, row.node.value).Some?
    ensures Inv(c.(payloads := c.payloads + [row], nextPayload := c.nextPayload + 1))
  {
  }

  lemma AddKeeps(c: Core, typeId: nat, node: Option<nat>, status: string, notes: string, now: int)
    requires Inv(c)
    ensures Inv(AddPayload(c, typeId, node, status, notes, now))
  {
    if CanInsertPayload(c, typeId, node) {
      hide Inv, RefreshIf;
      var row := Payload(c.nextPayload, typeId, node, status, None, now, notes);
      InsertKeeps(c, row);
    }
  }

  lemma {:induction false} WithoutSorted(payloads: seq<Payload>, id: nat)
    requires SortedIds(payloads)
    ensures SortedIds(Without(payloads, id))
  {
    if payloads != [] {
      var front := payloads[..|payloads| - 1];
      WithoutSorted(front, id);
      var r := Without(front, id);
      forall i | 0 <= i < |r| ensures r[i].id < payloads[|payloads| - 1].id { assert r[i] in front; }
    }
  }

  lemma RemoveKeeps(c: Core, id: nat)
    requires Inv(c)
    ensures Inv(RemovePayload(c, id))
  {
    var p := PayloadById(c.payloads, id);
    if p.Some? {
      var f := c.(payloads := Without(c.payloads, id));
      WithoutSorted(c.payloads, id);
      forall q | q in f.payloads && q.claimedBy.Some? ensures q.node.Some? && MayHold(f, q.claimedBy.value) {
        assert q in c.payloads && MayHold(c, q.claimedBy.value);
      }
      SameTablesKeep(f, RefreshIf(f, p.value.node));
    }
  }

  lemma SyncTables(c: Core)
    ensures SameTables(c, Sync(c))
  {
    CacheNodesTables(c.(cache := Flush(c.cache)), c.nodes);
  }

  // ---------- every step keeps the invariant ----------

  lemma MessageKeeps(c: Core, env: Envelope, ch: Choice, now: int)
    requires Inv(c) && Enabled(c, AMessage(env, ch, now))
    ensures Inv(HandleMessage(c, env, ch, now))
  {
    match env.body
    case Request(_, _, _, _, _, _, _) => RequestAnswered(c, env, ch);
    case Cancel(_, _) => CancelKeeps(c, env);
    case Receipt(_, _) => ReceiptKeeps(c, env, now);
    case Redirect(_, _) => RedirectKeeps(c, env, ch.fleet);
    case StorageWaybill(_, _, _, _) => WaybillAnswered(c, env, ch);
  }

  lemma StepKeeps(c: Core, a: Action)
    requires Inv(c) && Enabled(c, a)
    ensures Inv(Step(c, a))
  {
    match a
    case AMessage(env, ch, now) => MessageKeeps(c, env, ch, now);
    case AReport(v, s, robot) => ReportKeeps(c, v, s, robot);
    case AAdd(t, n, st, notes, at) => AddKeeps(c, t, n, st, notes, at);
    case ARemove(id) => RemoveKeeps(c, id);
    case ASync => SyncTables(c); SameTablesKeep(c, Sync(c));
  }

  lemma {:induction false} RunKeeps(c: Core, acts: seq<Action>)
    requires Inv(c) && EnabledRun(c, acts)
    ensures Inv(Run(c, acts))
    decreases |acts|
  {
    if acts != [] {
      StepKeeps(c, acts[0]);
      RunKeeps(Step(c, acts[0]), acts[1..]);
    }
  }

  /** A claimed payload sits at a node and its order is under way, unless the fleet itself ended that order last. */
  lemma ClaimsNeverLeak(c: Core, acts: seq<Action>, p: Payload)
    requires Init(c) && EnabledRun(c, acts) && p in Run(c, acts).payloads && p.claimedBy.Some?
    ensures var f := Run(c, acts); var o := p.claimedBy.value;
      p.node.Some? && o < |f.orders| && (UnderWay(f.orders[o].status) || EndedByFleet(f, o))
  {
    RunKeeps(c, acts);
    assert MayHold(Run(c, acts), p.claimedBy.value);
  }

  // ---------- claims over one step ----------

  /** How a row may change in a step that is not a receipt. */
  predicate RowStep(p: Payload, p': Payload, newOrder: nat) {
    && p'.node == p.node && p'.deliveredAt == p.deliveredAt
    && (p.claimedBy.Some? ==> p'.claimedBy == p.claimedBy || p'.claimedBy.None?)
    && (p.claimedBy.None? && p'.claimedBy.Some? ==> p'.claimedBy.value == newOrder)
  }

  /** Every message but a receipt keeps the rows in place and treats each by RowStep. */
  lemma MessageRows(c: Core, env: Envelope, ch: Choice, now: int)
    requires Inv(c) && Enabled(c, AMessage(env, ch, now)) && !env.body.Receipt?
    ensures var f := HandleMessage(c, env, ch, now);
      && SameIds(c.payloads, f.payloads) && |c.orders| <= |f.orders|
      && forall i :: 0 <= i < |c.payloads| ==> RowStep(c.payloads[i], f.payloads[i], |c.orders|)
  {
    hide HandleRequest, HandleWaybill, HandleCancel, HandleRedirect, Inv, Answered;
    var f := HandleMessage(c, env, ch, now);
    match env.body
    case Request(_, _, _, _, _, _, _) => RequestAnswered(c, env, ch);
    case StorageWaybill(_, _, _, _) => WaybillAnswered(c, env, ch);
    case Cancel(_, _) => CancelRows(c, env);
    case Redirect(_, _) => RedirectRows(c, env, ch.fleet);
  }

  /** Redirects and cancels make no claim. */
  lemma RedirectRows(c: Core, env: Envelope, fleet: FleetReply)
    requires env.body.Redirect?
    ensures var f := HandleRedirect(c, env, fleet);
      |f.payloads| == |c.payloads| && |f.orders| == |c.orders|
      && forall i :: 0 <= i < |c.payloads| ==>
        f.payloads[i] == c.payloads[i] || f.payloads[i] == c.payloads[i].(claimedBy := None)
  {
  }

  lemma CancelRows(c: Core, env: Envelope)
    requires env.body.Cancel?
    ensures var f := HandleCancel(c, env);
      |f.payloads| == |c.payloads| && |f.orders| == |c.orders|
      && forall i :: 0 <= i < |c.payloads| ==>
        f.payloads[i] == c.payloads[i] || f.payloads[i] == c.payloads[i].(claimedBy := None)
  {
  }

  /** No held claim is overwritten, new claims are by the order being created, and only receipts move inventory. */
  lemma NoClaimOverwritten(c: Core, a: Action, p: Payload, p': Payload)
    requires Inv(c) && Enabled(c, a) && p in c.payloads && p' in Step(c, a).payloads && p.id == p'.id
    requires !(a.AMessage? && a.env.body.Receipt?)
    ensures RowStep(p, p', |c.orders|)
  {
    match a
    case AMessage(env, ch, now) =>
      MessageRows(c, env, ch, now);
      var f := Step(c, a);
      var i :| 0 <= i < |f.payloads| && f.payloads[i] == p';
      SameId(c.payloads, p, c.payloads[i]);
    case AReport(v, s, robot) => ReportKeeps(c, v, s, robot); SameId(c.payloads, p, p');
    case AAdd(t, n, st, notes, at) =>
      if p' in c.payloads { SameId(c.payloads, p, p'); }
    case ARemove(id) => SameId(c.payloads, p, p');
    case ASync => SyncTables(c); SameId(c.payloads, p, p');
  }

  // ---------- receipts ----------

  /** Total stock over the node table, counted node by node. */
  function Stock(nodes: seq<Node>, payloads: seq<Payload>): nat {
    if nodes == [] then 0 else Occupancy(payloads, nodes[0].id) + Stock(nodes[1..], payloads)
  }

  function Placed(payloads: seq<Payload>): nat {
    if payloads == [] then 0
    else Placed(payloads[..|payloads| - 1]) + if payloads[|payloads| - 1].node.Some? then 1 else 0
  }

  function CountNode(nodes: seq<Node>, id: nat): nat {
    if nodes == [] then 0 else (if nodes[0].id == id then 1 else 0) + CountNode(nodes[1..], id)
  }

  lemma {:induction false} StockAppend(nodes: seq<Node>, payloads: seq<Payload>)
    requires payloads != []
    ensures var last := payloads[|payloads| - 1];
      Stock(nodes, payloads) ==
        Stock(nodes, payloads[..|payloads| - 1]) + if last.node.Some? then CountNode(nodes, last.node.value) else 0
  {
    if nodes != [] { StockAppend(nodes[1..], payloads); }
  }

  lemma {:induction false} StockEmpty(nodes: seq<Node>)
    ensures Stock(nodes, []) == 0
  {
    if nodes != [] { StockEmpty(nodes[1..]); }
  }

  lemma {:induction false} CountOnce(nodes: seq<Node>, id: nat)
    requires UniqueNodes(nodes)
    ensures CountNode(nodes, id) == if NodeById(nodes, id).Some? then 1 else 0
  {
    if nodes != [] {
      CountOnce(nodes[1..], id);
      assert nodes[0] in nodes;
      if NodeById(nodes[1..], id).Some? { assert NodeById(nodes[1..], id).value in nodes; }
      if NodeById(nodes, id).Some? && nodes[0].id != id { assert NodeById(nodes, id).value in nodes[1..]; }
    }
  }

  /** With references intact, summing node by node counts every placed payload once. */
  lemma {:induction false} StockIsPlaced(nodes: seq<Node>, payloads: seq<Payload>)
    requires UniqueNodes(nodes)
    requires forall p :: p in payloads && p.node.Some? ==> NodeById(nodes, p.node.value).Some?
    ensures Stock(nodes, payloads) == Placed(payloads)
  {
    if payloads == [] {
      StockEmpty(nodes);
    } else {
      var last := payloads[|payloads| - 1];
      assert last in payloads;
      StockIsPlaced(nodes, payloads[..|payloads| - 1]);
      StockAppend(nodes, payloads);
      if last.node.Some? { CountOnce(nodes, last.node.value); }
    }
  }

  lemma {:induction false} SamePlaced(a: seq<Payload>, b: seq<Payload>)
    requires |a| == |b| && forall i :: 0 <= i < |a| ==> (a[i].node.Some? <==> b[i].node.Some?)
    ensures Placed(a) == Placed(b)
  {
    if a != [] { SamePlaced(a[..|a| - 1], b[..|b| - 1]); }
  }

  /**
   A receipt relocates exactly the payloads its order claims, to the order's stored delivery node, and
   frees them; ids, other rows and the total stock stay as they are.
   */
  lemma ReceiptConserves(c: Core, env: Envelope, now: int)
    requires Inv(c) && env.body.Receipt? && OrderByUuid(c.orders, env.body.uuid).Some?
    ensures var oid := OrderByUuid(c.orders, env.body.uuid).value; var f := HandleReceipt(c, env, now);
      && SameIds(c.payloads, f.payloads)
      && (forall i :: 0 <= i < |c.payloads| && c.payloads[i].claimedBy == Some(oid) ==>
            exists n ::
              n in c.nodes && n.name == c.orders[oid].delivery && f.payloads[i] == Landed(c.payloads[i], n.id, now))
      && (forall i :: 0 <= i < |c.payloads| && c.payloads[i].claimedBy != Some(oid) ==> f.payloads[i] == c.payloads[i])
      && Stock(c.nodes, f.payloads) == Stock(c.nodes, c.payloads)
  {
    var oid := OrderByUuid(c.orders, env.body.uuid).value;
    var f := HandleReceipt(c, env, now);
    ReceiptRows(c, env, now);
    ReceiptKeeps(c, env, now);
    forall i | 0 <= i < |c.payloads| ensures c.payloads[i].node.Some? <==> f.payloads[i].node.Some? {
      assert c.payloads[i] in c.payloads;
    }
    SamePlaced(c.payloads, f.payloads);
    StockIsPlaced(c.nodes, c.payloads);
    StockIsPlaced(c.nodes, f.payloads);
    forall i | 0 <= i < |c.payloads| && c.payloads[i].claimedBy == Some(oid)
      ensures exists n ::
        n in c.nodes && n.name == c.orders[oid].delivery && f.payloads[i] == Landed(c.payloads[i], n.id, now)
    {
      assert Target(c, oid).value in c.nodes;
    }
  }

  /** Orders are never deleted, and one that holds nothing never claims again. */
  lemma StepStaysEmpty(c: Core, a: Action, oid: nat)
    requires Inv(c) && Enabled(c, a) && oid < |c.orders| && HoldsNone(c.payloads, oid)
    ensures oid < |Step(c, a).orders| && HoldsNone(Step(c, a).payloads, oid)
  {
    match a
    case AMessage(env, ch, now) => MessageStaysEmpty(c, env, ch, now, oid);
    case AReport(v, s, robot) => ReportKeeps(c, v, s, robot);
    case AAdd(t, n, st, notes, at) =>
    case ARemove(id) =>
    case ASync => SyncTables(c);
  }

  lemma MessageStaysEmpty(c: Core, env: Envelope, ch: Choice, now: int, oid: nat)
    requires Inv(c) && Enabled(c, AMessage(env, ch, now)) && oid < |c.orders| && HoldsNone(c.payloads, oid)
    ensures oid < |HandleMessage(c, env, ch, now).orders| && HoldsNone(HandleMessage(c, env, ch, now).payloads, oid)
  {
    var f := HandleMessage(c, env, ch, now);
    if !env.body.Receipt? {
      MessageRows(c, env, ch, now);
    } else if OrderByUuid(c.orders, env.body.uuid).Some? {
      ReceiptRows(c, env, now);
    }
    forall p' | p' in f.payloads ensures p'.claimedBy != Some(oid) {
      var i :| 0 <= i < |f.payloads| && f.payloads[i] == p';
      assert c.payloads[i] in c.payloads;
    }
  }

  lemma {:induction false} RunStaysEmpty(c: Core, acts: seq<Action>, oid: nat)
    requires Inv(c) && EnabledRun(c, acts) && oid < |c.orders| && HoldsNone(c.payloads, oid)
    ensures Inv(Run(c, acts)) && HoldsNone(Run(c, acts).payloads, oid)
    decreases |acts|
  {
    if acts != [] {
      StepKeeps(c, acts[0]);
      StepStaysEmpty(c, acts[0], oid);
      RunStaysEmpty(Step(c, acts[0]), acts[1..], oid);
    }
  }

  /** However much later and however often a receipt reaches the same order again, it moves nothing. */
  lemma RepeatedReceiptMovesNothing(c: Core, env: Envelope, now: int, acts: seq<Action>, again: Envelope, later: int)
    requires Inv(c) && env.body.Receipt? && again.body.Receipt? && OrderByUuid(c.orders, env.body.uuid).Some?
    requires EnabledRun(HandleReceipt(c, env, now), acts)
    requires OrderByUuid(Run(HandleReceipt(c, env, now), acts).orders, again.body.uuid) ==
      OrderByUuid(c.orders, env.body.uuid)
    ensures var g := Run(HandleReceipt(c, env, now), acts); HandleReceipt(g, again, later).payloads == g.payloads
  {
    hide Inv, Run, EnabledRun, HandleReceipt;
    var oid := OrderByUuid(c.orders, env.body.uuid).value;
    var f := HandleReceipt(c, env, now);
    ReceiptRows(c, env, now);
    ReceiptKeeps(c, env, now);
    forall p | p in f.payloads ensures p.claimedBy != Some(oid) {
      var i :| 0 <= i < |f.payloads| && f.payloads[i] == p;
    }
    RunStaysEmpty(f, acts, oid);
    var g := Run(f, acts);
    ReceiptRows(g, again, later);
    assert forall i :: 0 <= i < |g.payloads| ==> g.payloads[i] in g.payloads;
  }

  // ---------- exactly one reply ----------

  /** Requests and waybills are answered once, whatever the outcome. */
  lemma ExactlyOneReply(c: Core, env: Envelope, ch: Choice, now: int)
    requires Inv(c) && Enabled(c, AMessage(env, ch, now)) && (env.body.Request? || env.body.StorageWaybill?)
    ensures var f := HandleMessage(c, env, ch, now); var k := |c.orders|;
      && |f.outbox| == |c.outbox| + 1 && f.outbox[..|c.outbox|] == c.outbox
      && var m := f.outbox[|c.outbox|];
        && m.dst == env.src && m.cor == Some(env.id) && m.body.uuid == env.body.uuid
        && (m.body.Ack? <==> k < |f.orders| && f.orders[k].status == Dispatched)
        && (m.body.Ack? ==> ch.fleet.Accepted?)
        && (!m.body.Ack? ==>
          m.body.Error? && (k < |f.orders| ==> f.orders[k].status == Failed && HoldsNone(f.payloads, k)))
  {
    if env.body.Request? { RequestAnswered(c, env, ch); } else { WaybillAnswered(c, env, ch); }
  }

  // ---------- successive FIFO retrieves ----------

  /** `c1` is `c` after a retrieve request of the type that was dispatched. */
  ghost predicate Retrieved(c: Core, c1: Core, env: Envelope, ch: Choice, code: string) {
    && env.body.Request? && env.body.orderType == Retrieve && env.body.payloadTypeCode == code
    && IsFifoSource(c.types, c.nodes, c.payloads, code, ch.source)
    && c1 == HandleRequest(c, env, ch)
    && |c1.orders| > |c.orders| && c1.orders[|c.orders|].status == Dispatched
  }

  /** A dispatched retrieve took the chosen payload: claimed by the new order, all other rows as before. */
  lemma RetrieveTakes(c: Core, env: Envelope, ch: Choice)
    requires Inv(c) && env.body.Request? && env.body.orderType == Retrieve
    requires IsFifoSource(c.types, c.nodes, c.payloads, env.body.payloadTypeCode, ch.source)
    requires var f := HandleRequest(c, env, ch); |f.orders| > |c.orders| && f.orders[|c.orders|].status == Dispatched
    ensures ch.source.Some? && HandleRequest(c, env, ch).payloads == Claimed(c.payloads, ch.source.value, |c.orders|)
    ensures var f := HandleRequest(c, env, ch); f.types == c.types && f.nodes == c.nodes
  {
    var f := HandleRequest(c, env, ch);
    RequestAnswered(c, env, ch);
    var oid := |c.orders|;
    var r := env.body;
    var t := TypeByName(c.types, r.payloadTypeCode);
    var c1 := Insert(c, Order(r.uuid, env.src, r.orderType, Pending, r.pickupNode, r.deliveryNode, None, FUnknown(""),
      "", Some(t.value.id), false));
    assert f == HandleRetrieve(c1, oid, env, ch);
    DispatchedRetrieve(c1, oid, env, ch);
  }

  lemma DispatchedRetrieve(c: Core, oid: nat, env: Envelope, ch: Choice)
    requires oid < |c.orders| && HandleRetrieve(c, oid, env, ch).orders[oid].status == Dispatched
    ensures ch.source.Some? && HandleRetrieve(c, oid, env, ch).payloads == Claimed(c.payloads, ch.source.value, oid)
  {
  }

  /** What one retrieve means for the next ones: rows still eligible are untouched, and not the one taken. */
  ghost predicate Fifo1(c: Core, c1: Core, source: Option<nat>, code: string) {
    && SortedIds(c.payloads) && c1.types == c.types && c1.nodes == c.nodes
    && source.Some? && IsFifoSource(c.types, c.nodes, c.payloads, code, source)
    && forall q :: q in c1.payloads && Eligible(c.types, c.nodes, q, code) ==> q in c.payloads && q.id != source.value
  }

  lemma RetrievedFifo(c: Core, c1: Core, env: Envelope, ch: Choice, code: string)
    requires Inv(c) && Retrieved(c, c1, env, ch, code)
    ensures Inv(c1) && Fifo1(c, c1, ch.source, code)
  {
    hide HandleRequest, Answered;
    RetrieveTakes(c, env, ch);
    RequestAnswered(c, env, ch);
    forall q | q in c1.payloads && Eligible(c.types, c.nodes, q, code)
      ensures q in c.payloads && q.id != ch.source.value {
      var k :| 0 <= k < |c1.payloads| && c1.payloads[k] == q;
      assert c.payloads[k] in c.payloads;
    }
  }

  /** States before, between and after successive dispatched retrieves of one type. */
  ghost predicate Retrieves(cs: seq<Core>, envs: seq<Envelope>, chs: seq<Choice>, code: string) {
    |cs| == |envs| + 1 == |chs| + 1 && forall i :: 0 <= i < |envs| ==>
      Retrieved(cs[i], cs[i + 1], envs[i], chs[i], code)
  }

  ghost predicate FifoChain(cs: seq<Core>, sources: seq<Option<nat>>, code: string) {
    |cs| == |sources| + 1 && forall i :: 0 <= i < |sources| ==> Fifo1(cs[i], cs[i + 1], sources[i], code)
  }

  function Sources(chs: seq<Choice>): (r: seq<Option<nat>>)
    ensures |r| == |chs| && forall i :: 0 <= i < |r| ==> r[i] == chs[i].source
  {
    seq(|chs|, i requires 0 <= i < |chs| => chs[i].source)
  }

  lemma {:induction false} RetrievesFifo(cs: seq<Core>, envs: seq<Envelope>, chs: seq<Choice>, code: string, k: nat)
    requires Retrieves(cs, envs, chs, code) && Inv(cs[0]) && k <= |envs|
    ensures Inv(cs[k]) && forall i :: 0 <= i < k ==> Fifo1(cs[i], cs[i + 1], chs[i].source, code)
  {
    hide Inv, Retrieved, Fifo1;
    if k > 0 {
      RetrievesFifo(cs, envs, chs, code, k - 1);
      RetrievedFifo(cs[k - 1], cs[k], envs[k - 1], chs[k - 1], code);
    }
  }

  /** What is eligible later was eligible earlier, and was taken by no retrieve in between. */
  lemma {:induction false} EligibleBack(cs: seq<Core>, sources: seq<Option<nat>>, code: string, i: nat, j: nat,
                                        q: Payload)
    requires FifoChain(cs, sources, code) && i <= j <= |sources|
    requires q in cs[j].payloads && Eligible(cs[j].types, cs[j].nodes, q, code)
    ensures cs[i].types == cs[j].types && cs[i].nodes == cs[j].nodes
    ensures q in cs[i].payloads && forall k :: i <= k < j ==> sources[k] != Some(q.id)
    decreases j - i
  {
    if i < j {
      assert Fifo1(cs[j - 1], cs[j], sources[j - 1], code);
      EligibleBack(cs, sources, code, i, j - 1, q);
    }
  }

  predicate AllDistinct(s: seq<Option<nat>>) {
    && (forall i :: 0 <= i < |s| ==> s[i].Some?)
    && (forall i, j :: 0 <= i < j < |s| ==> s[i] != s[j])
  }

  /** Of two successive retrieves the later one takes another payload. */
  lemma RetrievesDiffer(cs: seq<Core>, sources: seq<Option<nat>>, code: string, i: nat, j: nat)
    requires FifoChain(cs, sources, code) && i < j < |sources|
    ensures sources[i] != sources[j]
  {
    assert Fifo1(cs[i], cs[i + 1], sources[i], code) && Fifo1(cs[j], cs[j + 1], sources[j], code);
    var p :| p in cs[j].payloads && p.id == sources[j].value && Eligible(cs[j].types, cs[j].nodes, p, code);
    EligibleBack(cs, sources, code, i, j, p);
  }

  /** What a retrieve took is no newer than anything still eligible after the last one. */
  lemma TookOldest(cs: seq<Core>, sources: seq<Option<nat>>, code: string, i: nat, p: Payload, q: Payload)
    requires FifoChain(cs, sources, code) && i < |sources|
    requires p in cs[i].payloads && Some(p.id) == sources[i]
    requires q in cs[|sources|].payloads && Eligible(cs[0].types, cs[0].nodes, q, code)
    ensures p.deliveredAt <= q.deliveredAt
  {
    SameConfig(cs, sources, code, |sources|);
    EligibleBack(cs, sources, code, i, |sources|, q);
    assert Fifo1(cs[i], cs[i + 1], sources[i], code);
  }

  /**
   k successive retrieves of a type take k distinct payloads, and none of them is newer than one still
   eligible at the end.
   */
  lemma SuccessiveRetrieves(cs: seq<Core>, envs: seq<Envelope>, chs: seq<Choice>, code: string)
    requires Retrieves(cs, envs, chs, code) && Inv(cs[0])
    ensures AllDistinct(Sources(chs))
    ensures forall i, p, q ::
      (0 <= i < |chs| && p in cs[i].payloads && Some(p.id) == chs[i].source && q in cs[|chs|].payloads
      && Eligible(cs[0].types, cs[0].nodes, q, code)) ==> p.deliveredAt <= q.deliveredAt
  {
    RetrievesFifo(cs, envs, chs, code, |envs|);
    var sources := Sources(chs);
    assert FifoChain(cs, sources, code);
    forall i | 0 <= i < |sources| ensures sources[i].Some? { assert Fifo1(cs[i], cs[i + 1], sources[i], code); }
    forall i, j | 0 <= i < j < |sources| ensures sources[i] != sources[j] { RetrievesDiffer(cs, sources, code, i, j); }
    forall i, p, q | 0 <= i < |chs| && p in cs[i].payloads && Some(p.id) == chs[i].source
      && q in cs[|chs|].payloads && Eligible(cs[0].types, cs[0].nodes, q, code)
      ensures p.deliveredAt <= q.deliveredAt
    {
      TookOldest(cs, sources, code, i, p, q);
    }
  }

  lemma {:induction false} SameConfig(cs: seq<Core>, sources: seq<Option<nat>>, code: string, k: nat)
    requires FifoChain(cs, sources, code) && k <= |sources|
    ensures cs[k].types == cs[0].types && cs[k].nodes == cs[0].nodes
  {
    if k > 0 {
      assert Fifo1(cs[k - 1], cs[k], sources[k - 1], code);
      SameConfig(cs, sources, code, k - 1);
    }
  }
}
