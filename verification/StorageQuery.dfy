/**
 The storage-destination query as SQL evaluates it (joins, grouping, DISTINCT counts, HAVING, ORDER BY,
 LIMIT 1) and the proof that it picks what CoreTables.IsDestination says.
 */
module StorageQuery {
  import opened Protocol
  import opened CoreTables

  // ---------- the consolidation query ----------

  /** A row of nodes JOIN payloads match LEFT JOIN payloads total. */
  datatype JoinRow = JoinRow(n: Node, match_: Payload, total: Option<Payload>)

  /** LEFT JOIN: every row of the right table at the node, or one NULL. */
  function LeftJoin(payloads: seq<Payload>, node: nat): (r: seq<Option<Payload>>)
    ensures r != []
  {
    var rows := RowsAt(payloads, node);
    if rows == [] then [None] else Somes(rows)
  }

  function Somes(rows: seq<Payload>): (r: seq<Option<Payload>>)
    ensures |r| == |rows| && forall i :: 0 <= i < |r| ==> r[i] == Some(rows[i])
  {
    seq(|rows|, i requires 0 <= i < |rows| => Some(rows[i]))
  }

  /** One matching row against every row of the second join. */
  function WithTotals(n: Node, m: Payload, totals: seq<Option<Payload>>): (r: seq<JoinRow>)
    ensures |r| == |totals| && forall i :: 0 <= i < |r| ==> r[i] == JoinRow(n, m, totals[i])
  {
    seq(|totals|, i requires 0 <= i < |totals| => JoinRow(n, m, totals[i]))
  }

  function NodeRows(n: Node, matches: seq<Payload>, totals: seq<Option<Payload>>): (r: seq<JoinRow>)
    ensures forall x :: x in r <==> x.n == n && x.match_ in matches && x.total in totals
  {
    if matches == [] then []
    else
      var first := WithTotals(n, matches[0], totals);
      assert forall x: JoinRow :: x in first <==> x.n == n && x.match_ == matches[0] && x.total in totals by {
        forall x: JoinRow | x.n == n && x.match_ == matches[0] && x.total in totals ensures x in first {
          var i :| 0 <= i < |totals| && totals[i] == x.total;
          assert first[i] == x;
        }
      }
      first + NodeRows(n, matches[1..], totals)
  }

  /** WHERE n.node_type = 'storage' AND n.enabled = 1 AND n.capacity > 0. */
  predicate Where(n: Node) { n.nodeType == "storage" && n.enabled && n.capacity > 0 }

  /** The joined rows that pass the WHERE clause. */
  function Joined(nodes: seq<Node>, payloads: seq<Payload>, typeId: nat): (r: seq<JoinRow>)
    ensures forall x :: x in r <==>
      x.n in nodes && Where(x.n) && x.match_ in RowsOfType(payloads, x.n.id, typeId)
        && x.total in LeftJoin(payloads, x.n.id)
  {
    if nodes == [] then []
    else
      var n := nodes[0];
      (if Where(n) then NodeRows(n, RowsOfType(payloads, n.id, typeId), LeftJoin(payloads, n.id)) else [])
      + Joined(nodes[1..], payloads, typeId)
  }

  /** COUNT(DISTINCT total.id) over the group of node `id`; NULLs do not count. */
  function DistinctTotals(rows: seq<JoinRow>, id: nat): set<nat> {
    set x | x in rows && x.n.id == id && x.total.Some? :: x.total.value.id
  }

  function DistinctMatches(rows: seq<JoinRow>, id: nat): set<nat> {
    set x | x in rows && x.n.id == id :: x.match_.id
  }

  predicate HasGroup(rows: seq<JoinRow>, n: Node) {
    exists i :: 0 <= i < |rows| && rows[i].n == n
  }

  /** A group that survives HAVING. */
  predicate Surviving(rows: seq<JoinRow>, n: Node) {
    HasGroup(rows, n) && |DistinctTotals(rows, n.id)| < n.capacity
  }

  /** ORDER BY COUNT(DISTINCT match.id) DESC LIMIT 1: any first group, or no row. */
  ghost predicate FirstByMatches(rows: seq<JoinRow>, pick: Option<Node>) {
    match pick
    case None => forall n :: !Surviving(rows, n)
    case Some(n) =>
      Surviving(rows, n) && forall m :: Surviving(rows, m) ==>
        |DistinctMatches(rows, m.id)| <= |DistinctMatches(rows, n.id)|
  }

  // ---------- the fallback query ----------

  datatype FillRow = FillRow(n: Node, p: Option<Payload>)

  function Fills(n: Node, ps: seq<Option<Payload>>): (r: seq<FillRow>)
    ensures |r| == |ps| && forall i :: 0 <= i < |r| ==> r[i] == FillRow(n, ps[i])
  {
    seq(|ps|, i requires 0 <= i < |ps| => FillRow(n, ps[i]))
  }

  function FillJoin(nodes: seq<Node>, payloads: seq<Payload>): seq<FillRow> {
    if nodes == [] then []
    else
      var n := nodes[0];
      (if Where(n) then Fills(n, LeftJoin(payloads, n.id)) else []) + FillJoin(nodes[1..], payloads)
  }

  /** COUNT(p.id) over the group of node `id`, with multiplicity, NULLs not counted. */
  function CountFilled(rows: seq<FillRow>, id: nat): nat {
    if rows == [] then 0 else (if rows[0].n.id == id && rows[0].p.Some? then 1 else 0) + CountFilled(rows[1..], id)
  }

  predicate InFill(rows: seq<FillRow>, n: Node) {
    exists i :: 0 <= i < |rows| && rows[i].n == n
  }

  predicate FillSurviving(rows: seq<FillRow>, n: Node) {
    InFill(rows, n) && CountFilled(rows, n.id) < n.capacity
  }

  ghost predicate FirstByFill(rows: seq<FillRow>, pick: Option<Node>) {
    match pick
    case None => forall n :: !FillSurviving(rows, n)
    case Some(n) =>
      FillSurviving(rows, n) && forall m :: FillSurviving(rows, m) ==>
        CountFilled(rows, n.id) <= CountFilled(rows, m.id)
  }

  /** The two queries in sequence: the second runs only when the first returns no row. */
  ghost predicate SqlDestination(nodes: seq<Node>, payloads: seq<Payload>, typeId: nat, pick: Option<Node>) {
    var joined := Joined(nodes, payloads, typeId);
    if exists n :: Surviving(joined, n) then FirstByMatches(joined, pick)
    else FirstByFill(FillJoin(nodes, payloads), pick)
  }

  // ---------- counting ids is counting rows ----------

  function Ids(rows: seq<Payload>): set<nat> { set p | p in rows :: p.id }

  predicate DistinctIds(rows: seq<Payload>) {
    forall i, j :: 0 <= i < j < |rows| ==> rows[i].id != rows[j].id
  }

  lemma EmptyIds()
    ensures Ids([]) == {}
  {
  }

  lemma {:induction false} IdCount(rows: seq<Payload>)
    requires DistinctIds(rows)
    ensures |Ids(rows)| == |rows|
  {
    hide Ids, DistinctIds;
    if rows == [] {
      EmptyIds();
    } else {
      var front, last := rows[..|rows| - 1], rows[|rows| - 1];
      LastIsNew(rows);
      IdCount(front);
      IdsAppend(front, last);
      assert rows == front + [last];
    }
  }

  lemma LastIsNew(rows: seq<Payload>)
    requires DistinctIds(rows) && rows != []
    ensures DistinctIds(rows[..|rows| - 1]) && rows[|rows| - 1].id !in Ids(rows[..|rows| - 1])
  {
  }

  lemma IdsAppend(front: seq<Payload>, last: Payload)
    ensures Ids(front + [last]) == Ids(front) + {last.id}
  {
    var rows := front + [last];
    forall x ensures x in Ids(rows) <==> x in Ids(front) + {last.id} {
      if x in Ids(rows) { var p :| p in rows && p.id == x; }
      if x in Ids(front) { var p :| p in front && p.id == x; assert p in rows; }
      assert last in rows;
    }
  }

  /** Filtering a table with increasing ids leaves distinct ids. */
  lemma {:induction false} IdsAt(payloads: seq<Payload>, node: nat)
    requires SortedIds(payloads)
    ensures DistinctIds(RowsAt(payloads, node))
  {
    if payloads != [] {
      var front, last := payloads[..|payloads| - 1], payloads[|payloads| - 1];
      IdsAt(front, node);
      var rows := RowsAt(front, node);
      forall i | 0 <= i < |rows| ensures rows[i].id < last.id { assert rows[i] in front; }
    }
  }

  lemma {:induction false} IdsOfType(payloads: seq<Payload>, node: nat, typeId: nat)
    requires SortedIds(payloads)
    ensures DistinctIds(RowsOfType(payloads, node, typeId))
  {
    if payloads != [] {
      var front, last := payloads[..|payloads| - 1], payloads[|payloads| - 1];
      IdsOfType(front, node, typeId);
      var rows := RowsOfType(front, node, typeId);
      forall i | 0 <= i < |rows| ensures rows[i].id < last.id { assert rows[i] in front; }
    }
  }

  // ---------- the groups ----------

  lemma GroupOf(nodes: seq<Node>, payloads: seq<Payload>, typeId: nat, n: Node)
    requires UniqueNodes(nodes) && SortedIds(payloads)
    requires n in nodes && IsStorage(n) && OfType(payloads, n.id, typeId) > 0
    ensures |DistinctTotals(Joined(nodes, payloads, typeId), n.id)| == Occupancy(payloads, n.id)
    ensures |DistinctMatches(Joined(nodes, payloads, typeId), n.id)| == OfType(payloads, n.id, typeId)
  {
    GroupTotals(nodes, payloads, typeId, n);
    GroupMatches(nodes, payloads, typeId, n);
    IdsAt(payloads, n.id);
    IdsOfType(payloads, n.id, typeId);
    IdCount(RowsAt(payloads, n.id));
    IdCount(RowsOfType(payloads, n.id, typeId));
  }

  /** Which nodes survive HAVING, and by what they are ordered. */
  lemma SurvivingMeans(nodes: seq<Node>, payloads: seq<Payload>, typeId: nat, n: Node)
    requires UniqueNodes(nodes) && SortedIds(payloads)
    ensures var j := Joined(nodes, payloads, typeId);
      && (Surviving(j, n) <==> n in nodes && HasRoom(payloads, n) && OfType(payloads, n.id, typeId) > 0)
      && (Surviving(j, n) ==> |DistinctMatches(j, n.id)| == OfType(payloads, n.id, typeId))
  {
    if n in nodes && IsStorage(n) && OfType(payloads, n.id, typeId) > 0 { GroupOf(nodes, payloads, typeId, n); }
  }

  lemma LeftJoinHas(payloads: seq<Payload>, node: nat, p: Payload)
    ensures Some(p) in LeftJoin(payloads, node) <==> p in RowsAt(payloads, node)
  {
    var rows := RowsAt(payloads, node);
    if p in rows {
      var i :| 0 <= i < |rows| && rows[i] == p;
      assert Somes(rows)[i] == Some(p);
    }
  }

  lemma TotalIsListed(nodes: seq<Node>, payloads: seq<Payload>, typeId: nat, id: nat, x: nat)
    requires x in DistinctTotals(Joined(nodes, payloads, typeId), id)
    ensures x in Ids(RowsAt(payloads, id))
  {
    hide Joined, LeftJoin, RowsAt, RowsOfType;
    var r :| r in Joined(nodes, payloads, typeId) && r.n.id == id && r.total.Some? && r.total.value.id == x;
    LeftJoinHas(payloads, id, r.total.value);
  }

  lemma ListedIsTotal(nodes: seq<Node>, payloads: seq<Payload>, typeId: nat, n: Node, x: nat)
    requires n in nodes && IsStorage(n) && RowsOfType(payloads, n.id, typeId) != [] && x in Ids(RowsAt(payloads, n.id))
    ensures x in DistinctTotals(Joined(nodes, payloads, typeId), n.id)
  {
    hide Joined, LeftJoin, RowsAt, RowsOfType;
    var m := RowsOfType(payloads, n.id, typeId)[0];
    var p :| p in RowsAt(payloads, n.id) && p.id == x;
    LeftJoinHas(payloads, n.id, p);
    assert JoinRow(n, m, Some(p)) in Joined(nodes, payloads, typeId);
  }

  lemma GroupTotals(nodes: seq<Node>, payloads: seq<Payload>, typeId: nat, n: Node)
    requires n in nodes && IsStorage(n) && RowsOfType(payloads, n.id, typeId) != []
    ensures DistinctTotals(Joined(nodes, payloads, typeId), n.id) == Ids(RowsAt(payloads, n.id))
  {
    hide Joined, RowsAt, RowsOfType, DistinctTotals, Ids;
    var totals, ids := DistinctTotals(Joined(nodes, payloads, typeId), n.id), Ids(RowsAt(payloads, n.id));
    forall x ensures x in totals <==> x in ids {
      if x in totals { TotalIsListed(nodes, payloads, typeId, n.id, x); }
      if x in ids { ListedIsTotal(nodes, payloads, typeId, n, x); }
    }
  }

  lemma GroupMatches(nodes: seq<Node>, payloads: seq<Payload>, typeId: nat, n: Node)
    requires UniqueNodes(nodes) && n in nodes && IsStorage(n)
    ensures DistinctMatches(Joined(nodes, payloads, typeId), n.id) == Ids(RowsOfType(payloads, n.id, typeId))
  {
    hide Joined, LeftJoin;
    var j := Joined(nodes, payloads, typeId);
    var matches := RowsOfType(payloads, n.id, typeId);
    forall x ensures x in DistinctMatches(j, n.id) <==> x in Ids(matches) {
      if x in DistinctMatches(j, n.id) {
        var r :| r in j && r.n.id == n.id && r.match_.id == x;
        assert r.match_ in matches;
      }
      if x in Ids(matches) {
        var p :| p in matches && p.id == x;
        assert JoinRow(n, p, LeftJoin(payloads, n.id)[0]) in j;
      }
    }
  }

  lemma {:induction false} CountConcat(a: seq<FillRow>, b: seq<FillRow>, id: nat)
    ensures CountFilled(a + b, id) == CountFilled(a, id) + CountFilled(b, id)
  {
    if a == [] {
      assert a + b == b;
    } else {
      assert (a + b)[1..] == a[1..] + b;
      CountConcat(a[1..], b, id);
    }
  }

  lemma {:induction false} CountFills(n: Node, ps: seq<Option<Payload>>, id: nat)
    requires forall p :: p in ps ==> p.Some?
    ensures CountFilled(Fills(n, ps), id) == if n.id == id then |ps| else 0
  {
    if ps != [] {
      assert Fills(n, ps)[1..] == Fills(n, ps[1..]);
      assert ps[0] in ps;
      CountFills(n, ps[1..], id);
    }
  }

  lemma CountLeftJoin(n: Node, payloads: seq<Payload>, id: nat)
    ensures CountFilled(Fills(n, LeftJoin(payloads, n.id)), id) == if n.id == id then Occupancy(payloads, n.id) else 0
  {
    if RowsAt(payloads, n.id) == [] {
      assert Fills(n, [None]) == [FillRow(n, None)];
    } else {
      CountFills(n, Somes(RowsAt(payloads, n.id)), id);
    }
  }

  lemma {:induction false} FillGroup(nodes: seq<Node>, payloads: seq<Payload>, n: Node)
    requires UniqueNodes(nodes)
    ensures var f := FillJoin(nodes, payloads);
      && (InFill(f, n) <==> n in nodes && IsStorage(n))
      && (InFill(f, n) ==> CountFilled(f, n.id) == Occupancy(payloads, n.id))
      && ((forall m :: m in nodes ==> m.id != n.id) ==> CountFilled(f, n.id) == 0)
  {
    if nodes != [] {
      var m, rest := nodes[0], nodes[1..];
      var head := if IsStorage(m) then Fills(m, LeftJoin(payloads, m.id)) else [];
      var tail := FillJoin(rest, payloads);
      FillGroup(rest, payloads, n);
      CountConcat(head, tail, n.id);
      CountLeftJoin(m, payloads, n.id);
      assert forall k :: 0 <= k < |rest| ==> rest[k] == nodes[k + 1];
      HeadTailIn(head, tail, n);
      if IsStorage(m) { assert head[0].n == m; }
      if m == n {
        assert forall x :: x in rest ==> x.id != n.id;
      }
    }
  }

  lemma HeadTailIn(a: seq<FillRow>, b: seq<FillRow>, n: Node)
    ensures InFill(a + b, n) <==> InFill(a, n) || InFill(b, n)
  {
    var ab := a + b;
    if InFill(a, n) { var i :| 0 <= i < |a| && a[i].n == n; assert ab[i].n == n; }
    if InFill(b, n) { var i :| 0 <= i < |b| && b[i].n == n; assert ab[|a| + i].n == n; }
    if InFill(ab, n) {
      var i :| 0 <= i < |ab| && ab[i].n == n;
      if i < |a| { assert a[i].n == n; } else { assert b[i - |a|].n == n; }
    }
  }

  // ---------- the theorem ----------

  /** For every content of the tables, the rows SQL may return are exactly the intended choices. */
  lemma QueryMeansDestination(nodes: seq<Node>, payloads: seq<Payload>, typeId: nat, pick: Option<Node>)
    requires UniqueNodes(nodes) && SortedIds(payloads)
    ensures SqlDestination(nodes, payloads, typeId, pick) <==> IsDestination(nodes, payloads, typeId, pick)
  {
    if exists n :: Surviving(Joined(nodes, payloads, typeId), n) {
      var w :| Surviving(Joined(nodes, payloads, typeId), w);
      SurvivingMeans(nodes, payloads, typeId, w);
      ConsolidationCase(nodes, payloads, typeId, pick);
    } else {
      forall m | m in nodes && HasRoom(payloads, m) ensures !(OfType(payloads, m.id, typeId) > 0) {
        SurvivingMeans(nodes, payloads, typeId, m);
      }
      FallbackCase(nodes, payloads, typeId, pick);
    }
  }

  lemma ConsolidationCase(nodes: seq<Node>, payloads: seq<Payload>, typeId: nat, pick: Option<Node>)
    requires UniqueNodes(nodes) && SortedIds(payloads)
    requires exists m :: m in nodes && HasRoom(payloads, m) && OfType(payloads, m.id, typeId) > 0
    ensures FirstByMatches(Joined(nodes, payloads, typeId), pick) <==> IsDestination(nodes, payloads, typeId, pick)
  {
    hide Surviving, Joined, DistinctMatches, HasRoom, OfType;
    ghost var w :| w in nodes && HasRoom(payloads, w) && OfType(payloads, w.id, typeId) > 0;
    SurvivingMeans(nodes, payloads, typeId, w);
    if pick.Some? {
      if FirstByMatches(Joined(nodes, payloads, typeId), pick) {
        FirstIsDestination(nodes, payloads, typeId, pick.value);
      }
      if IsDestination(nodes, payloads, typeId, pick) { DestinationIsFirst(nodes, payloads, typeId, pick.value); }
    }
  }

  lemma FirstIsDestination(nodes: seq<Node>, payloads: seq<Payload>, typeId: nat, n: Node)
    requires UniqueNodes(nodes) && SortedIds(payloads)
    requires FirstByMatches(Joined(nodes, payloads, typeId), Some(n))
    ensures n in nodes && HasRoom(payloads, n) && OfType(payloads, n.id, typeId) > 0
    ensures forall m :: m in nodes && HasRoom(payloads, m) ==>
      OfType(payloads, m.id, typeId) <= OfType(payloads, n.id, typeId)
  {
    SurvivingMeans(nodes, payloads, typeId, n);
    forall m | m in nodes && HasRoom(payloads, m)
      ensures OfType(payloads, m.id, typeId) <= OfType(payloads, n.id, typeId) {
      SurvivingMeans(nodes, payloads, typeId, m);
    }
  }

  lemma DestinationIsFirst(nodes: seq<Node>, payloads: seq<Payload>, typeId: nat, n: Node)
    requires UniqueNodes(nodes) && SortedIds(payloads)
    requires n in nodes && HasRoom(payloads, n) && OfType(payloads, n.id, typeId) > 0
    requires forall m :: m in nodes && HasRoom(payloads, m) ==>
      OfType(payloads, m.id, typeId) <= OfType(payloads, n.id, typeId)
    ensures FirstByMatches(Joined(nodes, payloads, typeId), Some(n))
  {
    var j := Joined(nodes, payloads, typeId);
    SurvivingMeans(nodes, payloads, typeId, n);
    forall m | Surviving(j, m) ensures |DistinctMatches(j, m.id)| <= |DistinctMatches(j, n.id)| {
      SurvivingMeans(nodes, payloads, typeId, m);
    }
  }

  lemma FallbackCase(nodes: seq<Node>, payloads: seq<Payload>, typeId: nat, pick: Option<Node>)
    requires UniqueNodes(nodes)
    requires forall m :: m in nodes && HasRoom(payloads, m) ==> !(OfType(payloads, m.id, typeId) > 0)
    ensures FirstByFill(FillJoin(nodes, payloads), pick) <==> IsDestination(nodes, payloads, typeId, pick)
  {
    var f := FillJoin(nodes, payloads);
    forall n ensures FillSurviving(f, n) <==> n in nodes && HasRoom(payloads, n)
             ensures FillSurviving(f, n) ==> CountFilled(f, n.id) == Occupancy(payloads, n.id)
    {
      FillGroup(nodes, payloads, n);
    }
  }

  // ---------- the source query ----------

  /** A row of payloads JOIN payload types LEFT JOIN nodes. */
  datatype SourceRow = SourceRow(p: Payload, t: PayloadType, n: Option<Node>)

  predicate IsSourceRow(types: seq<PayloadType>, nodes: seq<Node>, payloads: seq<Payload>, x: SourceRow) {
    && x.p in payloads && x.t in types && x.t.id == x.p.typeId
    && match x.n
       case Some(n) => n in nodes && x.p.node == Some(n.id)
       case None => forall n :: n in nodes ==> x.p.node != Some(n.id)
  }

  /** The joined rows that pass the WHERE clause: of the type, free, available, at an enabled storage node. */
  predicate SourceHit(types: seq<PayloadType>, nodes: seq<Node>, payloads: seq<Payload>, code: string, x: SourceRow) {
    && IsSourceRow(types, nodes, payloads, x) && x.t.name == code
    && x.n.Some? && x.n.value.nodeType == "storage" && x.n.value.enabled
    && x.p.claimedBy == None && x.p.status == "available"
  }

  /** ORDER BY delivered_at ASC LIMIT 1: the id of any first row, or no row. */
  ghost predicate SqlSource(types: seq<PayloadType>, nodes: seq<Node>, payloads: seq<Payload>, code: string,
                            pick: Option<nat>)
  {
    match pick
    case None => forall x :: !SourceHit(types, nodes, payloads, code, x)
    case Some(id) =>
      exists x :: SourceHit(types, nodes, payloads, code, x) && x.p.id == id
        && forall y :: SourceHit(types, nodes, payloads, code, y) ==> x.p.deliveredAt <= y.p.deliveredAt
  }

  predicate UniqueTypes(types: seq<PayloadType>) { forall i, j :: 0 <= i < j < |types| ==> types[i].id != types[j].id }

  lemma SameNode(nodes: seq<Node>, a: Node, b: Node)
    requires UniqueNodes(nodes) && a in nodes && b in nodes && a.id == b.id
    ensures a == b
  {
  }

  lemma SameType(types: seq<PayloadType>, a: PayloadType, b: PayloadType)
    requires UniqueTypes(types) && a in types && b in types && a.id == b.id
    ensures a == b
  {
  }

  /** A payload is eligible exactly when some joined row of it is hit. */
  lemma HitIsEligible(types: seq<PayloadType>, nodes: seq<Node>, payloads: seq<Payload>, code: string, p: Payload)
    requires UniqueNodes(nodes) && UniqueTypes(types) && p in payloads
    ensures Eligible(types, nodes, p, code) <==> exists x :: SourceHit(types, nodes, payloads, code, x) && x.p == p
  {
    var t := TypeById(types, p.typeId);
    var n := if p.node.Some? then NodeById(nodes, p.node.value) else None;
    if Eligible(types, nodes, p, code) {
      assert SourceHit(types, nodes, payloads, code, SourceRow(p, t.value, n));
    }
    forall x | SourceHit(types, nodes, payloads, code, x) && x.p == p ensures Eligible(types, nodes, p, code) {
      SameType(types, x.t, t.value);
      SameNode(nodes, x.n.value, n.value);
    }
  }

  /** The query that picks a retrieve's source returns exactly the intended choices. */
  lemma QueryMeansSource(types: seq<PayloadType>, nodes: seq<Node>, payloads: seq<Payload>, code: string,
                         pick: Option<nat>)
    requires UniqueNodes(nodes) && UniqueTypes(types)
    ensures SqlSource(types, nodes, payloads, code, pick) <==> IsFifoSource(types, nodes, payloads, code, pick)
  {
    forall x | SourceHit(types, nodes, payloads, code, x) ensures x.p in payloads {}
    hide Eligible, SourceHit;
    forall p | p in payloads
      ensures Eligible(types, nodes, p, code) <==> exists x :: SourceHit(types, nodes, payloads, code, x) && x.p == p
    {
      HitIsEligible(types, nodes, payloads, code, p);
    }
  }
}
