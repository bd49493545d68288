/**
 The Redis cache against the SQL tables: after a sync, every read from the cache is the read from SQL, up to
 claims.
 */
module CacheAgreement {
  import opened Protocol
  import opened CoreTables
  import opened CoreState
  import opened CoreDispatch
  import opened CoreClaims
  import opened CoreRuns

  /** Claims are written to SQL only, so a cached item may carry an older one. */
  predicate AlikeItem(a: Item, b: Item) { a.(claimedBy := None) == b.(claimedBy := None) }

  predicate Alike(a: seq<Item>, b: seq<Item>) {
    |a| == |b| && forall i :: 0 <= i < |a| ==> AlikeItem(a[i], b[i])
  }

  /** What is cached for a node is its listing. */
  predicate NodeAgrees(c: Core, node: nat) {
    && node in c.cache.items && node in c.cache.counts
    && Alike(c.cache.items[node], Listing(c, node)) && c.cache.counts[node] == |Listing(c, node)|
  }

  /** The flush only removes entries of known nodes, so nothing else may have been cached. */
  predicate OnlyKnown(k: Cache) { k.meta.Keys <= k.known }

  predicate MetaAgrees(c: Core) {
    && (forall n :: n in c.nodes ==> n.id in c.cache.meta && c.cache.meta[n.id] == n)
    && (forall x :: x in c.cache.meta ==> exists n :: n in c.nodes && n.id == x)
  }

  predicate CacheAgrees(c: Core) {
    OnlyKnown(c.cache) && MetaAgrees(c) && forall n :: n in c.nodes ==> NodeAgrees(c, n.id)
  }

  // ---------- listings under row changes ----------

  /** How a row may change without showing at `node`: a claim, or a move between two other places. */
  predicate Unseen(p: Payload, p': Payload, node: nat) {
    p'.(claimedBy := None) == p.(claimedBy := None) || (p.node != Some(node) && p'.node != Some(node))
  }

  predicate RowsAlike(a: seq<Payload>, b: seq<Payload>) {
    |a| == |b| && forall i :: 0 <= i < |a| ==> a[i].(claimedBy := None) == b[i].(claimedBy := None)
  }

  lemma {:induction false} ListStays(a: seq<Payload>, b: seq<Payload>, node: nat)
    requires |a| == |b| && forall i :: 0 <= i < |a| ==> Unseen(a[i], b[i], node)
    ensures RowsAlike(ListByNode(a, node), ListByNode(b, node))
  {
    if a != [] {
      hide RowsAlike;
      var n := |a| - 1;
      ListStays(a[..n], b[..n], node);
      assert Unseen(a[n], b[n], node);
    } else {
      assert RowsAlike([], []);
    }
  }

  lemma ListingStays(types: seq<PayloadType>, a: seq<Payload>, b: seq<Payload>, node: nat)
    requires |a| == |b| && forall i :: 0 <= i < |a| ==> Unseen(a[i], b[i], node)
    ensures Alike(ItemsOf(types, ListByNode(a, node)), ItemsOf(types, ListByNode(b, node)))
  {
    ListStays(a, b, node);
  }

  /** Rows changed unseen at `node`, its cache entries kept. */
  lemma AgreesStays(c: Core, f: Core, node: nat)
    requires NodeAgrees(c, node) && f.types == c.types && |f.payloads| == |c.payloads|
    requires f.cache.items == c.cache.items && f.cache.counts == c.cache.counts
    requires forall i :: 0 <= i < |c.payloads| ==> Unseen(c.payloads[i], f.payloads[i], node)
    ensures NodeAgrees(f, node)
  {
    ListingStays(c.types, c.payloads, f.payloads, node);
  }

  lemma {:induction false} ListWithout(payloads: seq<Payload>, id: nat, node: nat)
    requires forall p :: p in payloads && p.id == id ==> p.node != Some(node)
    ensures ListByNode(Without(payloads, id), node) == ListByNode(payloads, node)
  {
    if payloads != [] {
      var front, last := payloads[..|payloads| - 1], payloads[|payloads| - 1];
      ListWithout(front, id, node);
      assert last in payloads;
      if last.id != id {
        assert Without(payloads, id)[..|Without(front, id)|] == Without(front, id);
      } else {
        assert Without(payloads, id) == Without(front, id);
      }
    }
  }

  lemma {:induction false} ListIsOccupancy(payloads: seq<Payload>, node: nat)
    ensures |ListByNode(payloads, node)| == Occupancy(payloads, node)
  {
    if payloads != [] { ListIsOccupancy(payloads[..|payloads| - 1], node); }
  }

  // ---------- refreshes and the sync ----------

  lemma RefreshAgrees(c: Core, node: nat, other: nat)
    requires other == node || NodeAgrees(c, other)
    ensures NodeAgrees(RefreshNode(c, node), other)
  {
  }

  lemma RefreshIfAgrees(c: Core, node: Option<nat>, other: nat)
    requires node == Some(other) || NodeAgrees(c, other)
    ensures NodeAgrees(RefreshIf(c, node), other)
  {
  }

  /** Caching nodes one by one brings each into agreement and disturbs none. */
  lemma {:induction false} CacheNodesAgree(c: Core, nodes: seq<Node>, done: seq<Node>)
    requires c.nodes == done + nodes && UniqueNodes(c.nodes) && OnlyKnown(c.cache)
    requires forall n :: n in done ==> n.id in c.cache.meta && c.cache.meta[n.id] == n && NodeAgrees(c, n.id)
    requires forall x :: x in c.cache.meta ==> exists n :: n in done && n.id == x
    ensures CacheAgrees(CacheNodes(c, nodes))
    decreases |nodes|
  {
    if nodes == [] {
      assert c.nodes == done;
    } else {
      var n0 := nodes[0];
      var c1 := CacheNode(c, n0);
      var done1 := done + [n0];
      assert c.nodes == done1 + nodes[1..] && c.nodes[|done|] == n0;
      forall n | n in done1 ensures n.id in c1.cache.meta && c1.cache.meta[n.id] == n && NodeAgrees(c1, n.id) {
        if n != n0 {
          var k :| 0 <= k < |done| && done[k] == n;
          assert c.nodes[k] == n;
        }
        var base := c.(cache := c.cache.(meta := c.cache.meta[n0.id := n0], known := c.cache.known + {n0.id}));
        if n != n0 { assert NodeAgrees(base, n.id); }
        RefreshAgrees(base, n0.id, n.id);
      }
      forall x | x in c1.cache.meta ensures exists n :: n in done1 && n.id == x {
        if x == n0.id { assert n0 in done1; }
        else {
          var n :| n in done && n.id == x;
          assert n in done1;
        }
      }
      CacheNodesAgree(c1, nodes[1..], done1);
    }
  }

  lemma SyncAgrees(c: Core)
    requires UniqueNodes(c.nodes) && OnlyKnown(c.cache)
    ensures CacheAgrees(Sync(c))
  {
    var flushed := c.(cache := Flush(c.cache));
    assert c.nodes == [] + c.nodes;
    CacheNodesAgree(flushed, c.nodes, []);
  }

  function IdsOf(nodes: seq<Node>): set<nat> { set n | n in nodes :: n.id }

  /** Entries for these ids have been added in every part. */
  predicate Adds(k: Cache, k': Cache, ids: set<nat>) {
    && k'.known == k.known + ids && k'.meta.Keys == k.meta.Keys + ids
    && k'.items.Keys == k.items.Keys + ids && k'.counts.Keys == k.counts.Keys + ids
  }

  lemma AddsThen(k0: Cache, k1: Cache, k2: Cache, a: set<nat>, b: set<nat>)
    requires Adds(k0, k1, a) && Adds(k1, k2, b)
    ensures Adds(k0, k2, a + b)
  {
  }

  lemma {:induction false} CacheNodesKeys(c: Core, nodes: seq<Node>)
    ensures Adds(c.cache, CacheNodes(c, nodes).cache, IdsOf(nodes))
    decreases |nodes|
  {
    if nodes == [] {
      assert IdsOf(nodes) == {};
    } else {
      hide CacheNode, IdsOf, Adds;
      var c1 := CacheNode(c, nodes[0]);
      CacheNodeKeys(c, nodes[0]);
      FirstId(nodes);
      CacheNodesKeys(c1, nodes[1..]);
      AddsThen(c.cache, c1.cache, CacheNodes(c1, nodes[1..]).cache, {nodes[0].id}, IdsOf(nodes[1..]));
    }
  }

  lemma CacheNodeKeys(c: Core, n: Node)
    ensures Adds(c.cache, CacheNode(c, n).cache, {n.id})
  {
  }

  lemma FirstId(nodes: seq<Node>)
    requires nodes != []
    ensures IdsOf(nodes) == {nodes[0].id} + IdsOf(nodes[1..])
  {
    assert forall n :: n in nodes <==> n == nodes[0] || n in nodes[1..];
  }

  /** A sync leaves exactly the entries of the current nodes and those of ids it never knew of. */
  lemma SyncKeys(c: Core)
    ensures var k, k' := c.cache, Sync(c).cache; var ids := IdsOf(c.nodes);
      && k'.known == ids && k'.meta.Keys == (k.meta.Keys - k.known) + ids
      && k'.items.Keys == (k.items.Keys - k.known) + ids && k'.counts.Keys == (k.counts.Keys - k.known) + ids
  {
    CacheNodesKeys(c.(cache := Flush(c.cache)), c.nodes);
  }

  // ---------- steps ----------

  /** A handler that writes claims but not the cache. */
  lemma LocalAgrees(c: Core, f: Core, oid: nat)
    requires CacheAgrees(c) && Local(c, f, oid)
    ensures CacheAgrees(f)
  {
    forall n | n in f.nodes ensures NodeAgrees(f, n.id) {
      forall i | 0 <= i < |c.payloads| ensures Unseen(c.payloads[i], f.payloads[i], n.id) {
        assert RowLocal(c.payloads[i], f.payloads[i], oid);
      }
      AgreesStays(c, f, n.id);
    }
  }

  /** A move between two other nodes does not show. */
  lemma MoveUnseen(c: Core, id: nat, to: nat, now: int, node: nat)
    requires NodeAgrees(c, node) && SortedIds(c.payloads) && PayloadById(c.payloads, id).Some?
    requires PayloadById(c.payloads, id).value.node != Some(node) && to != node
    ensures NodeAgrees(c.(payloads := Unclaimed(Relocated(c.payloads, id, to, now), id)), node)
  {
    hide NodeAgrees;
    var c1 := c.(payloads := Unclaimed(Relocated(c.payloads, id, to, now), id));
    forall i | 0 <= i < |c.payloads| ensures Unseen(c.payloads[i], c1.payloads[i], node) {
      assert c.payloads[i] in c.payloads;
      if c.payloads[i].id == id { SameId(c.payloads, c.payloads[i], PayloadById(c.payloads, id).value); }
    }
    AgreesStays(c, c1, node);
  }

  /** After a move every node that agreed still does: those concerned are refreshed. */
  lemma MoveNode(c: Core, id: nat, to: nat, now: int, node: nat)
    requires NodeAgrees(c, node) && SortedIds(c.payloads)
    ensures NodeAgrees(MovePayload(c, id, to, now), node)
  {
    hide NodeAgrees;
    var p := PayloadById(c.payloads, id);
    if p.Some? && NodeById(c.nodes, to).Some? {
      var c1 := c.(payloads := Unclaimed(Relocated(c.payloads, id, to, now), id));
      if Some(node) != p.value.node && node != to { MoveUnseen(c, id, to, now, node); }
      if node != to { RefreshIfAgrees(c1, p.value.node, node); }
      RefreshAgrees(RefreshIf(c1, p.value.node), to, node);
    }
  }

  lemma MoveFrame(c: Core, id: nat, to: nat, now: int)
    ensures var f := MovePayload(c, id, to, now);
      f.nodes == c.nodes && f.cache.meta == c.cache.meta && f.cache.known == c.cache.known
        && SameIds(c.payloads, f.payloads)
  {
  }

  lemma MoveAgrees(c: Core, id: nat, node: nat, now: int)
    requires CacheAgrees(c) && SortedIds(c.payloads)
    ensures CacheAgrees(MovePayload(c, id, node, now))
  {
    hide NodeAgrees, MovePayload;
    MoveFrame(c, id, node, now);
    forall n | n in c.nodes ensures NodeAgrees(MovePayload(c, id, node, now), n.id) {
      MoveNode(c, id, node, now, n.id);
    }
  }

  lemma {:induction false} MoveAllAgrees(c: Core, ids: seq<nat>, node: nat, now: int)
    requires CacheAgrees(c) && SortedIds(c.payloads)
    ensures CacheAgrees(MoveAll(c, ids, node, now))
    decreases |ids|
  {
    if ids != [] {
      hide CacheAgrees, MovePayload;
      MoveAgrees(c, ids[0], node, now);
      MoveFrame(c, ids[0], node, now);
      var c1 := MovePayload(c, ids[0], node, now);
      MoveAllAgrees(c1, ids[1..], node, now);
    }
  }

  lemma ReceiptAgrees(c: Core, env: Envelope, now: int)
    requires CacheAgrees(c) && SortedIds(c.payloads) && env.body.Receipt?
    ensures CacheAgrees(HandleReceipt(c, env, now))
  {
    var found := OrderByUuid(c.orders, env.body.uuid);
    if found.Some? {
      var c1 := RecordReceipt(c, found.value);
      var o := c1.orders[found.value];
      if o.pickup != "" && o.delivery != "" && NodeByName(c.nodes, o.delivery).Some? {
        MoveAllAgrees(c1, ClaimedIds(c1.payloads, found.value), NodeByName(c.nodes, o.delivery).value.id, now);
      }
    }
  }

  /** A new row elsewhere does not show. */
  lemma AddUnseen(c: Core, row: Payload, next: nat, node: nat)
    requires NodeAgrees(c, node) && row.node != Some(node)
    ensures NodeAgrees(c.(payloads := c.payloads + [row], nextPayload := next), node)
  {
  }

  lemma AddNode(c: Core, typeId: nat, at: Option<nat>, status: string, notes: string, now: int, node: nat)
    requires NodeAgrees(c, node)
    ensures NodeAgrees(AddPayload(c, typeId, at, status, notes, now), node)
  {
    hide NodeAgrees, CanInsertPayload, RefreshIf;
    if CanInsertPayload(c, typeId, at) {
      var row := Payload(c.nextPayload, typeId, at, status, None, now, notes);
      var c1 := c.(payloads := c.payloads + [row], nextPayload := c.nextPayload + 1);
      if at != Some(node) { AddUnseen(c, row, c.nextPayload + 1, node); }
      RefreshIfAgrees(c1, at, node);
    }
  }

  lemma AddFrame(c: Core, typeId: nat, at: Option<nat>, status: string, notes: string, now: int)
    ensures var f := AddPayload(c, typeId, at, status, notes, now);
      f.nodes == c.nodes && f.cache.meta == c.cache.meta && f.cache.known == c.cache.known
  {
  }

  lemma AddAgrees(c: Core, typeId: nat, at: Option<nat>, status: string, notes: string, now: int)
    requires CacheAgrees(c)
    ensures CacheAgrees(AddPayload(c, typeId, at, status, notes, now))
  {
    hide NodeAgrees, AddPayload;
    AddFrame(c, typeId, at, status, notes, now);
    forall n | n in c.nodes ensures NodeAgrees(AddPayload(c, typeId, at, status, notes, now), n.id) {
      AddNode(c, typeId, at, status, notes, now, n.id);
    }
  }

  lemma RemoveAgrees(c: Core, id: nat)
    requires CacheAgrees(c) && SortedIds(c.payloads)
    ensures CacheAgrees(RemovePayload(c, id))
  {
    var p := PayloadById(c.payloads, id);
    if p.Some? {
      var c1 := c.(payloads := Without(c.payloads, id));
      var f := RefreshIf(c1, p.value.node);
      forall n | n in f.nodes ensures NodeAgrees(f, n.id) {
        if p.value.node != Some(n.id) {
          forall q | q in c.payloads && q.id == id ensures q.node != Some(n.id) { SameId(c.payloads, p.value, q); }
          ListWithout(c.payloads, id, n.id);
          assert NodeAgrees(c1, n.id);
        }
        RefreshIfAgrees(c1, p.value.node, n.id);
      }
    }
  }

  lemma MessageAgrees(c: Core, env: Envelope, ch: Choice, now: int)
    requires Inv(c) && Enabled(c, AMessage(env, ch, now)) && CacheAgrees(c)
    ensures CacheAgrees(HandleMessage(c, env, ch, now))
  {
    var f := HandleMessage(c, env, ch, now);
    match env.body
    case Request(_, _, _, _, _, _, _) => RequestAnswered(c, env, ch); LocalAgrees(c, f, |c.orders|);
    case StorageWaybill(_, _, _, _) => WaybillAnswered(c, env, ch); LocalAgrees(c, f, |c.orders|);
    case Cancel(_, _) =>
      CancelKeeps(c, env);
      if f != c { LocalAgrees(c, f, OrderByUuid(c.orders, env.body.uuid).value); }
    case Redirect(_, _) =>
      RedirectKeeps(c, env, ch.fleet);
      if f != c { LocalAgrees(c, f, OrderByUuid(c.orders, env.body.uuid).value); }
    case Receipt(_, _) => ReceiptAgrees(c, env, now);
  }

  lemma StepAgrees(c: Core, a: Action)
    requires Inv(c) && Enabled(c, a) && CacheAgrees(c)
    ensures CacheAgrees(Step(c, a))
  {
    match a
    case AMessage(env, ch, now) => MessageAgrees(c, env, ch, now);
    case AReport(v, s, robot) =>
      ReportKeeps(c, v, s, robot);
      if Step(c, a) != c { LocalAgrees(c, Step(c, a), OrderByVendor(c.orders, v).value); }
    case AAdd(t, n, st, notes, at) => AddAgrees(c, t, n, st, notes, at);
    case ARemove(id) => RemoveAgrees(c, id);
    case ASync => SyncAgrees(c);
  }

  lemma {:induction false} RunAgrees(c: Core, acts: seq<Action>)
    requires Inv(c) && EnabledRun(c, acts) && CacheAgrees(c)
    ensures CacheAgrees(Run(c, acts))
    decreases |acts|
  {
    if acts != [] {
      StepKeeps(c, acts[0]);
      StepAgrees(c, acts[0]);
      RunAgrees(Step(c, acts[0]), acts[1..]);
    }
  }

  // ---------- reads ----------

  predicate AlikeState(a: Option<NodeState>, b: Option<NodeState>) {
    if a.None? || b.None? then a == b
    else a.value.node == b.value.node && a.value.count == b.value.count && Alike(a.value.items, b.value.items)
  }

  /** With the cache in agreement, both ways of reading a node give the same answer, for any id. */
  lemma ReadsAgree(c: Core, node: nat)
    requires UniqueNodes(c.nodes) && CacheAgrees(c)
    ensures AlikeState(GetNodeState(c, node), NodeStateFromSQL(c, node))
    ensures GetNodeState(c, node).Some? ==> GetNodeState(c, node).value.count == Occupancy(c.payloads, node)
  {
    ListIsOccupancy(c.payloads, node);
    if node in c.cache.meta {
      var n :| n in c.nodes && n.id == node;
      assert NodeAgrees(c, node);
    }
  }

  /** Once synced, and whatever happens afterwards, the cache answers like SQL up to the claimed-by field. */
  lemma CacheIsSQL(c: Core, acts: seq<Action>, node: nat)
    requires Inv(c) && OnlyKnown(c.cache) && EnabledRun(Sync(c), acts)
    ensures var f := Run(Sync(c), acts);
      && AlikeState(GetNodeState(f, node), NodeStateFromSQL(f, node))
      && (GetNodeState(f, node).Some? ==> GetNodeState(f, node).value.count == Occupancy(f.payloads, node))
  {
    SyncTables(c);
    SameTablesKeep(c, Sync(c));
    SyncAgrees(c);
    RunAgrees(Sync(c), acts);
    RunKeeps(Sync(c), acts);
    ReadsAgree(Run(Sync(c), acts), node);
  }
}
