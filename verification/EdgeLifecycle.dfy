/**
 What every run of the edge keeps about a single order: its history is a chain of the transition
 table, it is completed exactly once and only when terminal, and the messages it has caused form a
 word of a small language. Replies that were accepted once are harmless when delivered again.
 */
module EdgeLifecycle {
  import opened Protocol
  import opened EdgeOrders

  // ---------- projections of the logs to one order ----------

  datatype Letter = LRequest | LRedirect | LCancel | LReceipt | LWaybill

  function LetterOf(b: EdgeBody): Letter {
    match b
    case Request(_, _, _, _, _, _, _) => LRequest
    case Cancel(_, _) => LCancel
    case Receipt(_, _) => LReceipt
    case Redirect(_, _) => LRedirect
    case StorageWaybill(_, _, _, _) => LWaybill
  }

  function HopsOf(h: seq<Hop>, oid: nat): seq<Hop> {
    if h == [] then []
    else HopsOf(h[..|h| - 1], oid) + if h[|h| - 1].order == oid then [h[|h| - 1]] else []
  }

  function LettersOf(box: seq<Envelope>, uuid: string): seq<Letter> {
    if box == [] then []
    else LettersOf(box[..|box| - 1], uuid)
         + if box[|box| - 1].body.uuid == uuid then [LetterOf(box[|box| - 1].body)] else []
  }

  function Completions(evs: seq<Event>, oid: nat): nat {
    if evs == [] then 0
    else Completions(evs[..|evs| - 1], oid) + if evs[|evs| - 1] == OrderCompleted(oid) then 1 else 0
  }

  lemma CompletionsConcat(a: seq<Event>, b: seq<Event>, oid: nat)
    ensures Completions(a + b, oid) == Completions(a, oid) + Completions(b, oid)
  {
    if b == [] {
      assert a + b == a;
    } else {
      assert (a + b)[..|a + b| - 1] == a + b[..|b| - 1];
      CompletionsConcat(a, b[..|b| - 1], oid);
    }
  }

  // ---------- the message language ----------

  /** States of the automaton reading an order's messages. */
  datatype Reading = Fresh | Counting | Open | EarlyCancel | DoneCancel | DoneReceipt | Bad

  function Read1(q: Reading, x: Letter): Reading {
    match (q, x)
    case (Fresh, LRequest) => Open
    case (Counting, LRedirect) => Counting
    case (Counting, LWaybill) => Open
    case (Counting, LCancel) => EarlyCancel
    case (Open, LRedirect) => Open
    case (Open, LCancel) => DoneCancel
    case (Open, LReceipt) => DoneReceipt
    case _ => Bad
  }

  /** Store orders start out waiting for the operator's count, the others with a request. */
  function Start(t: OrderType): Reading { if t == Store then Counting else Fresh }

  function Read(t: OrderType, w: seq<Letter>): Reading {
    if w == [] then Start(t) else Read1(Read(t, w[..|w| - 1]), w[|w| - 1])
  }

  function Redirects(n: nat): (w: seq<Letter>)
    ensures |w| == n && forall i :: 0 <= i < n ==> w[i] == LRedirect
  {
    seq(n, _ => LRedirect)
  }

  /** request redirect* (cancel | receipt)?  and  redirect* (waybill redirect*)? (cancel | receipt)? */
  ghost predicate InLanguage(t: OrderType, w: seq<Letter>, tail: seq<Letter>) {
    if t == Store then
      || (exists n: nat :: w == Redirects(n) + tail && LReceipt !in tail)
      || (exists n: nat, m: nat :: w == Redirects(n) + [LWaybill] + Redirects(m) + tail)
    else
      exists n: nat :: w == [LRequest] + Redirects(n) + tail
  }

  predicate Closing(tail: seq<Letter>) { tail == [] || tail == [LCancel] || tail == [LReceipt] }

  function TailOf(q: Reading): seq<Letter> {
    if q == DoneCancel || q == EarlyCancel then [LCancel] else if q == DoneReceipt then [LReceipt] else []
  }

  ghost predicate Requested(w: seq<Letter>) { exists n: nat :: w == [LRequest] + Redirects(n) }

  lemma JustRequested()
    ensures Requested([] + [LRequest])
  {
    assert [] + [LRequest] == [LRequest] + Redirects(0);
  }

  lemma RequestedNext(w: seq<Letter>)
    requires Requested(w)
    ensures Requested(w + [LRedirect])
  {
    var n: nat :| w == [LRequest] + Redirects(n);
    assert w + [LRedirect] == [LRequest] + Redirects(n + 1);
  }

  /** Words of a request order that are still open. */
  lemma {:induction false} RequestWords(t: OrderType, w: seq<Letter>)
    requires t != Store
    ensures Read(t, w) == Fresh ==> w == []
    ensures Read(t, w) == Open ==> Requested(w)
    ensures Read(t, w) != Counting && Read(t, w) != EarlyCancel
  {
    hide Requested;
    if w != [] {
      var v, x := w[..|w| - 1], w[|w| - 1];
      assert w == v + [x];
      RequestWords(t, v);
      if v == [] { JustRequested(); }
      if Read(t, v) == Open { RequestedNext(v); }
    }
  }

  ghost predicate BeforeWaybill(w: seq<Letter>) { exists n: nat :: w == Redirects(n) }

  ghost predicate AfterWaybill(w: seq<Letter>) {
    exists n: nat, m: nat :: w == Redirects(n) + [LWaybill] + Redirects(m)
  }

  lemma NothingYet()
    ensures BeforeWaybill([])
  {
    assert [] == Redirects(0);
  }

  lemma BeforeNext(w: seq<Letter>)
    requires BeforeWaybill(w)
    ensures BeforeWaybill(w + [LRedirect]) && AfterWaybill(w + [LWaybill])
  {
    var n: nat :| w == Redirects(n);
    assert w + [LRedirect] == Redirects(n + 1);
    assert w + [LWaybill] == Redirects(n) + [LWaybill] + Redirects(0);
  }

  lemma AfterNext(w: seq<Letter>)
    requires AfterWaybill(w)
    ensures AfterWaybill(w + [LRedirect])
  {
    var n: nat, m: nat :| w == Redirects(n) + [LWaybill] + Redirects(m);
    assert w + [LRedirect] == Redirects(n) + [LWaybill] + Redirects(m + 1);
  }

  /** Words of a store order before and after its waybill. */
  lemma {:induction false} StoreWords(w: seq<Letter>)
    ensures Read(Store, w) == Counting ==> BeforeWaybill(w)
    ensures Read(Store, w) == Open ==> AfterWaybill(w)
    ensures Read(Store, w) != Fresh
  {
    hide BeforeWaybill, AfterWaybill;
    if w == [] {
      NothingYet();
    } else {
      var v, x := w[..|w| - 1], w[|w| - 1];
      assert w == v + [x];
      StoreWords(v);
      if Read(Store, v) == Counting { BeforeNext(v); }
      if Read(Store, v) == Open { AfterNext(v); }
    }
  }

  /** A closing letter is read in an open state, or before the waybill if it is a cancel. */
  lemma LastLetter(q: Reading, x: Letter)
    requires Read1(q, x) != Bad && TailOf(Read1(q, x)) != []
    ensures TailOf(Read1(q, x)) == [x] && (q == Open || (q == Counting && x == LCancel))
  {
  }

  /** The open word before a closing letter, if there is one. */
  lemma {:induction false} SplitTail(t: OrderType, w: seq<Letter>) returns (v: seq<Letter>)
    requires Read(t, w) != Bad && Read(t, w) != Fresh
    ensures w == v + TailOf(Read(t, w))
    ensures Read(t, v) == Open || Read(t, v) == Counting
    ensures Read(t, v) == Counting ==> LReceipt !in TailOf(Read(t, w))
  {
    if TailOf(Read(t, w)) == [] {
      v := w;
    } else {
      v := w[..|w| - 1];
      LastLetter(Read(t, v), w[|w| - 1]);
      assert w == v + [w[|w| - 1]];
      hide Read1, TailOf;
    }
  }

  /** Every word the automaton does not reject is a word of the language. */
  lemma AcceptedWords(t: OrderType, w: seq<Letter>)
    requires Read(t, w) != Bad && Read(t, w) != Fresh
    ensures InLanguage(t, w, TailOf(Read(t, w)))
  {
    var tail := TailOf(Read(t, w));
    var v := SplitTail(t, w);
    if t != Store {
      RequestWords(t, v);
      var n: nat :| v == [LRequest] + Redirects(n);
      assert w == [LRequest] + Redirects(n) + tail;
    } else {
      StoreWords(v);
      if Read(t, v) == Counting {
        var n: nat :| v == Redirects(n);
        assert w == Redirects(n) + tail && LReceipt !in tail;
      } else {
        var n: nat, m: nat :| v == Redirects(n) + [LWaybill] + Redirects(m);
        assert w == Redirects(n) + [LWaybill] + Redirects(m) + tail;
      }
    }
  }

  // ---------- histories ----------

  function Rank(s: Status): nat {
    match s
    case Pending => 0
    case Submitted => 1
    case Acknowledged => 2
    case InTransit => 3
    case Delivered => 4
    case _ => 5
  }

  /** A connected chain of valid transitions from pending to `last`. */
  predicate Chain(hops: seq<Hop>, last: Status) {
    if hops == [] then last == Pending
    else
      var x := hops[|hops| - 1];
      x.to == last && IsValidTransition(x.from, x.to) && Chain(hops[..|hops| - 1], x.from)
  }

  predicate Reached(hops: seq<Hop>, s: Status) {
    exists i :: 0 <= i < |hops| && hops[i].to == s
  }

  lemma {:induction false} ChainBound(hops: seq<Hop>, last: Status)
    requires Chain(hops, last)
    ensures |hops| <= Rank(last) <= 5
    ensures !IsTerminal(last) ==> |hops| == Rank(last)
    ensures forall i :: 0 <= i < |hops| ==> Rank(hops[i].to) <= Rank(last)
  {
    if hops != [] {
      ChainBound(hops[..|hops| - 1], hops[|hops| - 1].from);
    }
  }

  /** The one chain that ends in confirmed. */
  function FullChain(oid: nat): seq<Hop> {
    [Hop(oid, Pending, Submitted), Hop(oid, Submitted, Acknowledged), Hop(oid, Acknowledged, InTransit),
     Hop(oid, InTransit, Delivered), Hop(oid, Delivered, Confirmed)]
  }

  lemma {:induction false} ChainForced(hops: seq<Hop>, last: Status, oid: nat)
    requires Chain(hops, last) && !(last == Cancelled || last == Failed)
    requires forall i :: 0 <= i < |hops| ==> hops[i].order == oid
    ensures Rank(last) <= |FullChain(oid)| && hops == FullChain(oid)[..Rank(last)]
    decreases |hops|
  {
    if hops != [] {
      hide FullChain, IsValidTransition;
      var front, x := hops[..|hops| - 1], hops[|hops| - 1];
      ChainForced(front, x.from, oid);
      assert hops == front + [x];
      assert FullChain(oid)[..Rank(x.from) + 1] == FullChain(oid)[..Rank(x.from)] + [x];
    }
  }

  lemma HopsOfOwn(h: seq<Hop>, oid: nat)
    ensures forall i :: 0 <= i < |HopsOf(h, oid)| ==> HopsOf(h, oid)[i].order == oid
  {
  }

  // ---------- the invariant ----------

  /** What has been said for an order of this type and status, submitted or not. */
  predicate WordState(t: OrderType, s: Status, sent: bool, q: Reading) {
    match t
    case Store =>
      if s == Confirmed then q == DoneReceipt
      else if s == Cancelled && sent then q == Open || q == DoneCancel
      else if s == Cancelled then q == Counting || q == EarlyCancel
      else q == if sent then Open else Counting
    case OtherType(_) => false
    case _ =>
      if s == Confirmed then q == DoneReceipt
      else if s == Cancelled then q == Open || q == DoneCancel
      else s != Pending && q == Open
  }

  predicate WordFits(o: Order, hops: seq<Hop>, q: Reading) {
    WordState(o.orderType, o.status, Reached(hops, Submitted), q)
  }

  predicate OrderOk(o: Order, hops: seq<Hop>, word: seq<Letter>, completions: nat) {
    && Chain(hops, o.status)
    && completions == (if IsTerminal(o.status) then 1 else 0)
    && WordFits(o, hops, Read(o.orderType, word))
    && (o.orderType == Store && Reached(hops, Submitted) ==> o.countConfirmed)
  }

  ghost predicate OrderFits(e: Edge, oid: nat) {
    if oid < |e.orders| then
      OrderOk(e.orders[oid], HopsOf(e.history, oid), LettersOf(e.outbox, e.orders[oid].uuid),
        Completions(e.events, oid))
    else HopsOf(e.history, oid) == [] && Completions(e.events, oid) == 0
  }

  ghost predicate EdgeInv(e: Edge) {
    && (forall i, j :: 0 <= i < j < |e.orders| ==> e.orders[i].uuid != e.orders[j].uuid)
    && (forall u :: !UuidTaken(e, u) ==> LettersOf(e.outbox, u) == [])
    && (forall oid: nat :: OrderFits(e, oid))
  }

  // ---------- effects of the building blocks ----------

  lemma TransitionEffect(e: Edge, oid: nat, to: Status)
    requires CanTransition(e, oid, to)
    ensures var e' := Transition(e, oid, to);
      && e'.orders == e.orders[oid := e.orders[oid].(status := to)]
      && e'.outbox == e.outbox && e.events <= e'.events
      && e'.history == e.history + [Hop(oid, e.orders[oid].status, to)]
      && e'.station == e.station && |e'.payloads| == |e.payloads|
    ensures forall o ::
      HopsOf(Transition(e, oid, to).history, o) ==
        (if o == oid then HopsOf(e.history, o) + [Hop(oid, e.orders[oid].status, to)] else HopsOf(e.history, o))
    ensures forall o ::
      Completions(Transition(e, oid, to).events, o) ==
        Completions(e.events, o) + if o == oid && IsTerminal(to) then 1 else 0
  {
    hide Completions;
    var e' := Transition(e, oid, to);
    var added := TransitionEvents(e, oid, to);
    TransitionAdds(e, oid, to);
    forall o
      ensures Completions(e'.events, o) == Completions(e.events, o) + if o == oid && IsTerminal(to) then 1 else 0
    {
      CompletionsConcat(e.events, added, o);
      AddedCompletions(e, oid, to, o);
    }
  }

  /** The events a transition adds. */
  function TransitionEvents(e: Edge, oid: nat, to: Status): seq<Event>
    requires CanTransition(e, oid, to)
  {
    var s := [StatusChanged(oid, e.orders[oid].status, to)];
    if !IsTerminal(to) then s
    else s + [OrderCompleted(oid)] + RefillEvents(e, oid) + if to == Failed then [OrderFailed(oid)] else []
  }

  function RefillEvents(e: Edge, oid: nat): seq<Event>
    requires oid < |e.orders|
  {
    var o := e.orders[oid];
    if o.payloadId.None? || o.orderType != Retrieve || o.payloadId.value >= |e.payloads| then []
    else
      var p := e.payloads[o.payloadId.value];
      [PayloadUpdated(o.payloadId.value, p.remaining, p.productionUnits, Active)]
  }

  lemma TransitionAdds(e: Edge, oid: nat, to: Status)
    requires CanTransition(e, oid, to)
    ensures Transition(e, oid, to).events == e.events + TransitionEvents(e, oid, to)
  {
  }

  lemma AddedCompletions(e: Edge, oid: nat, to: Status, o: nat)
    requires CanTransition(e, oid, to)
    ensures Completions(TransitionEvents(e, oid, to), o) == if o == oid && IsTerminal(to) then 1 else 0
  {
    var s, c, r := [StatusChanged(oid, e.orders[oid].status, to)], [OrderCompleted(oid)], RefillEvents(e, oid);
    if IsTerminal(to) {
      CompletionsConcat(s + c + r, if to == Failed then [OrderFailed(oid)] else [], o);
      CompletionsConcat(s + c, r, o);
      CompletionsConcat(s, c, o);
    }
  }

  lemma EnqueueEffect(e: Edge, b: EdgeBody)
    ensures forall u ::
      LettersOf(Enqueue(e, b).outbox, u) ==
        (if b.uuid == u then LettersOf(e.outbox, u) + [LetterOf(b)] else LettersOf(e.outbox, u))
  {
  }

  lemma ReachedAppend(hops: seq<Hop>, x: Hop, s: Status)
    ensures Reached(hops + [x], s) <==> Reached(hops, s) || x.to == s
  {
    assert forall i :: 0 <= i < |hops| ==> (hops + [x])[i] == hops[i];
    assert (hops + [x])[|hops|] == x;
  }

  lemma {:induction false} SubmittedFirst(hops: seq<Hop>, last: Status)
    requires Chain(hops, last)
    ensures last == Submitted || last == Acknowledged || last == InTransit || last == Delivered || last == Confirmed ==>
      Reached(hops, Submitted)
    ensures last == Pending ==> hops == []
  {
    if hops != [] {
      hide Reached;
      var front, x := hops[..|hops| - 1], hops[|hops| - 1];
      SubmittedFirst(front, x.from);
      assert hops == front + [x];
      ReachedAppend(front, x, Submitted);
    }
  }

  // ---------- every step keeps it ----------

  /** What one step, and hence any run, may do to what is already there. */
  ghost predicate Grows(e: Edge, e': Edge) {
    && |e.orders| <= |e'.orders| && e.history <= e'.history && e.events <= e'.events && e.outbox <= e'.outbox
    && e'.station == e.station && |e'.payloads| == |e.payloads|
    && forall o :: 0 <= o < |e.orders| ==> OrderGrows(e.orders[o], e'.orders[o])
  }

  predicate OrderGrows(o: Order, o': Order) {
    && o'.uuid == o.uuid && o'.orderType == o.orderType && o'.payloadId == o.payloadId
    && Rank(o.status) <= Rank(o'.status) && (IsTerminal(o.status) ==> o'.status == o.status)
    && (o.countConfirmed ==> o'.countConfirmed)
  }

  /** Row edits that leave status, type, UUID and a confirmed count alone. */
  lemma EditKeeps(e: Edge, oid: nat, o: Order)
    requires EdgeInv(e) && oid < |e.orders|
    requires o.uuid == e.orders[oid].uuid && o.orderType == e.orders[oid].orderType && o.status == e.orders[oid].status
    requires o.payloadId == e.orders[oid].payloadId && (e.orders[oid].countConfirmed ==> o.countConfirmed)
    ensures EdgeInv(SetOrder(e, oid, o)) && Grows(e, SetOrder(e, oid, o))
  {
    var e' := SetOrder(e, oid, o);
    forall i: nat ensures OrderFits(e', i) { assert OrderFits(e, i); }
    forall u | !UuidTaken(e', u) ensures LettersOf(e'.outbox, u) == [] {
      SameUuids(e, e', u);
    }
  }

  lemma SameUuids(e: Edge, e': Edge, u: string)
    requires |e.orders| == |e'.orders| && forall i :: 0 <= i < |e.orders| ==> e'.orders[i].uuid == e.orders[i].uuid
    ensures UuidTaken(e, u) <==> UuidTaken(e', u)
  {
  }

  /** The message a handler may send along with a transition of the same order. */
  predicate Accompanies(t: OrderType, to: Status, letter: Option<Letter>) {
    match to
    case Submitted => letter == if t == Store then Some(LWaybill) else None
    case Confirmed => letter == Some(LReceipt)
    case Cancelled => letter == None || letter == Some(LCancel)
    case _ => letter == None
  }

  function Opt<T>(x: Option<T>): seq<T> { if x.Some? then [x.value] else [] }

  lemma {:induction false} OrderMoves(
    o: Order, hops: seq<Hop>, word: seq<Letter>, n: nat, x: Hop, letter: Option<Letter>)
    requires OrderOk(o, hops, word, n) && IsValidTransition(o.status, x.to) && x.from == o.status
    requires Accompanies(o.orderType, x.to, letter)
    requires o.orderType == Store && x.to == Submitted ==> o.countConfirmed
    ensures OrderOk(o.(status := x.to), hops + [x], word + Opt(letter), n + if IsTerminal(x.to) then 1 else 0)
  {
    hide Read, Reached, Chain, WordState, Accompanies, Read1;
    ChainAppend(hops, x);
    ReachedAppend(hops, x, Submitted);
    SentSoFar(hops, o.status);
    ReadMore(o.orderType, word, letter);
    StateMoves(o.orderType, o.status, x.to, Reached(hops, Submitted), Reached(hops + [x], Submitted),
      Read(o.orderType, word), Read(o.orderType, word + Opt(letter)), letter);
  }

  /** A step and what is said with it. */
  lemma StateMoves(t: OrderType, from: Status, to: Status, sent: bool, sent': bool, q: Reading, q': Reading,
                   letter: Option<Letter>)
    requires WordState(t, from, sent, q) && IsValidTransition(from, to) && Accompanies(t, to, letter)
    requires from == Pending ==> !sent
    requires from == Submitted || from == Acknowledged || from == InTransit || from == Delivered ==> sent
    requires sent' <==> sent || to == Submitted
    requires q' == if letter.Some? then Read1(q, letter.value) else q
    ensures WordState(t, to, sent', q')
  {
  }

  lemma SentSoFar(hops: seq<Hop>, last: Status)
    requires Chain(hops, last)
    ensures last == Pending ==> !Reached(hops, Submitted)
    ensures last == Submitted || last == Acknowledged || last == InTransit || last == Delivered ==>
      Reached(hops, Submitted)
  {
    hide Chain;
    SubmittedFirst(hops, last);
  }

  lemma ChainAppend(hops: seq<Hop>, x: Hop)
    requires Chain(hops, x.from) && IsValidTransition(x.from, x.to)
    ensures Chain(hops + [x], x.to)
  {
    assert (hops + [x])[..|hops|] == hops;
  }

  lemma ReadMore(t: OrderType, word: seq<Letter>, letter: Option<Letter>)
    ensures Read(t, word + Opt(letter)) == if letter.Some? then Read1(Read(t, word), letter.value) else Read(t, word)
  {
    if letter.Some? {
      assert (word + [letter.value])[..|word|] == word;
    } else {
      assert word + [] == word;
    }
  }

  /** A state that differs from `e` by one transition of order `oid` and at most one message about it. */
  ghost predicate Moved(e: Edge, e': Edge, oid: nat, x: Hop, letter: Option<Letter>)
    requires oid < |e.orders|
  {
    && e'.orders == e.orders[oid := e.orders[oid].(status := x.to)]
    && (forall o :: HopsOf(e'.history, o) == (if o == oid then HopsOf(e.history, o) + [x] else HopsOf(e.history, o)))
    && (forall o ::
          Completions(e'.events, o) == Completions(e.events, o) + if o == oid && IsTerminal(x.to) then 1 else 0)
    && (forall u ::
          LettersOf(e'.outbox, u) ==
            (if u == e.orders[oid].uuid then LettersOf(e.outbox, u) + Opt(letter) else LettersOf(e.outbox, u)))
  }

  lemma MovedKeeps(e: Edge, e': Edge, oid: nat, x: Hop, letter: Option<Letter>)
    requires EdgeInv(e) && oid < |e.orders| && Moved(e, e', oid, x, letter)
    requires IsValidTransition(e.orders[oid].status, x.to) && x.from == e.orders[oid].status
    requires Accompanies(e.orders[oid].orderType, x.to, letter)
    requires e.orders[oid].orderType == Store && x.to == Submitted ==> e.orders[oid].countConfirmed
    ensures EdgeInv(e')
  {
    forall i: nat ensures OrderFits(e', i) {
      assert OrderFits(e, i);
      if i == oid {
        OrderMoves(e.orders[oid], HopsOf(e.history, oid), LettersOf(e.outbox, e.orders[oid].uuid),
          Completions(e.events, oid), x, letter);
      }
    }
    forall u | !UuidTaken(e', u) ensures LettersOf(e'.outbox, u) == [] {
      SameUuids(e, e', u);
      assert e.orders[oid].uuid != u;
    }
  }

  /** A transition together with the message (if any) the handler sends for the same order. */
  lemma TransitionKeeps(e: Edge, oid: nat, to: Status, msg: Option<EdgeBody>)
    requires EdgeInv(e) && CanTransition(e, oid, to)
    requires msg.Some? ==> msg.value.uuid == e.orders[oid].uuid
    requires Accompanies(e.orders[oid].orderType, to, if msg.Some? then Some(LetterOf(msg.value)) else None)
    ensures var t := Transition(e, oid, to); var e' := if msg.Some? then Enqueue(t, msg.value) else t;
      EdgeInv(e') && Grows(e, e')
  {
    hide EdgeInv, Transition, HopsOf, LettersOf, Completions;
    var t := Transition(e, oid, to);
    TransitionEffect(e, oid, to);
    if msg.Some? { EnqueueEffect(t, msg.value); }
    var e' := if msg.Some? then Enqueue(t, msg.value) else t;
    MovedKeeps(e, e', oid, Hop(oid, e.orders[oid].status, to), if msg.Some? then Some(LetterOf(msg.value)) else None);
  }

  lemma {:induction false} RedirectFits(e: Edge, oid: nat, node: string, i: nat)
    requires EdgeInv(e) && oid < |e.orders| && !IsTerminal(e.orders[oid].status)
    ensures OrderFits(Enqueue(e, Redirect(e.orders[oid].uuid, node)), i)
  {
    hide HopsOf, Completions, LettersOf, OrderOk;
    var o := e.orders[oid];
    EnqueueEffect(e, Redirect(o.uuid, node));
    assert OrderFits(e, i);
    if i == oid {
      RedirectSaid(o, HopsOf(e.history, oid), LettersOf(e.outbox, o.uuid), Completions(e.events, oid));
    } else if i < |e.orders| {
      assert e.orders[i].uuid != o.uuid;
    }
  }

  lemma {:induction false} RedirectSaid(o: Order, hops: seq<Hop>, word: seq<Letter>, n: nat)
    requires OrderOk(o, hops, word, n) && !IsTerminal(o.status)
    ensures OrderOk(o, hops, word + [LRedirect], n)
  {
    hide Chain, Reached;
    assert (word + [LRedirect])[..|word|] == word;
  }

  /** A redirect message about a live order. */
  lemma RedirectMessageKeeps(e: Edge, oid: nat, node: string)
    requires EdgeInv(e) && oid < |e.orders| && !IsTerminal(e.orders[oid].status)
    ensures EdgeInv(Enqueue(e, Redirect(e.orders[oid].uuid, node)))
  {
    hide HopsOf, Completions, LettersOf, OrderFits;
    var o := e.orders[oid];
    var e' := Enqueue(e, Redirect(o.uuid, node));
    EnqueueEffect(e, Redirect(o.uuid, node));
    forall i: nat ensures OrderFits(e', i) { RedirectFits(e, oid, node, i); }
  }

  lemma RedirectKeeps(e: Edge, oid: nat, node: string)
    requires EdgeInv(e)
    ensures EdgeInv(RedirectTo(e, oid, node)) && Grows(e, RedirectTo(e, oid, node))
  {
    if oid < |e.orders| && !IsTerminal(e.orders[oid].status) {
      var e1 := SetOrder(e, oid, e.orders[oid].(deliveryNode := node));
      EditKeeps(e, oid, e.orders[oid].(deliveryNode := node));
      RedirectMessageKeeps(e1, oid, node);
    }
  }

  /** Enqueue-then-transition and transition-then-enqueue build the same state. */
  lemma SayAndMove(e: Edge, oid: nat, to: Status, b: EdgeBody)
    requires CanTransition(e, oid, to)
    ensures CanTransition(Enqueue(e, b), oid, to)
    ensures Transition(Enqueue(e, b), oid, to) == Enqueue(Transition(e, oid, to), b)
  {
  }

  lemma {:induction false} ConfirmKeeps(e: Edge, oid: nat, count: real)
    requires EdgeInv(e)
    ensures EdgeInv(Confirm(e, oid, count)) && Grows(e, Confirm(e, oid, count))
  {
    hide EdgeInv, Grows, Enqueue, Transition;
    if oid < |e.orders| && e.orders[oid].status == Delivered {
      var o := e.orders[oid];
      EditKeeps(e, oid, o.(finalCount := Some(count), countConfirmed := true));
      var e1 := SetCount(e, oid, count);
      var b := Receipt(o.uuid, count);
      SayAndMove(e1, oid, Confirmed, b);
      TransitionKeeps(e1, oid, Confirmed, Some(b));
      GrowsTrans(e, e1, Confirm(e, oid, count));
    } else {
      GrowsSelf(e);
    }
  }

  lemma GrowsSelf(e: Edge)
    ensures Grows(e, e)
  {
  }

  lemma GrowsTrans(a: Edge, b: Edge, c: Edge)
    requires Grows(a, b) && Grows(b, c)
    ensures Grows(a, c)
  {
  }

  /** Inserting a fresh row keeps everything but the new order's own word. */
  lemma InsertUuids(e: Edge, o: Order, u: string)
    ensures UuidTaken(e.(orders := e.orders + [o]), u) <==> UuidTaken(e, u) || o.uuid == u
  {
    var rows := e.orders + [o];
    assert rows[|e.orders|] == o;
    if UuidTaken(e, u) {
      var i :| 0 <= i < |e.orders| && e.orders[i].uuid == u;
      assert rows[i].uuid == u;
    }
  }

  lemma CreateStoreKeeps(e: Edge, uuid: string, pid: Option<nat>, quantity: real, pickup: string)
    requires EdgeInv(e)
    ensures EdgeInv(CreateStore(e, uuid, pid, quantity, pickup))
      && Grows(e, CreateStore(e, uuid, pid, quantity, pickup))
  {
    var o := NewOrder(uuid, Store, pid, false, quantity, "", "", pickup, "", false);
    if CanInsertOrder(e, o) {
      var e' := CreateStore(e, uuid, pid, quantity, pickup);
      forall i: nat ensures OrderFits(e', i) { assert OrderFits(e, i); }
      forall u | !UuidTaken(e', u) ensures LettersOf(e'.outbox, u) == [] {
        InsertUuids(e, o, u);
        SameUuids(e.(orders := e.orders + [o]), e', u);
      }
    }
  }

  /** What inserting, requesting and submitting an order leaves behind. */
  ghost predicate Inserted(e: Edge, e': Edge, o: Order) {
    var oid := |e.orders|;
    && e'.orders == e.orders + [o.(status := Submitted)]
    && (forall i ::
          HopsOf(e'.history, i) ==
            (if i == oid then HopsOf(e.history, i) + [Hop(oid, Pending, Submitted)] else HopsOf(e.history, i)))
    && (forall i :: Completions(e'.events, i) == Completions(e.events, i))
    && (forall u ::
          LettersOf(e'.outbox, u) ==
            (if u == o.uuid then LettersOf(e.outbox, u) + [LRequest] else LettersOf(e.outbox, u)))
  }

  lemma CreateAndSubmitEffect(e: Edge, o: Order)
    requires o.status == Pending && (o.orderType == Retrieve || o.orderType == Move) && CanInsertOrder(e, o)
    ensures Inserted(e, CreateAndSubmit(e, o), o) && Grows(e, CreateAndSubmit(e, o))
  {
    var oid := |e.orders|;
    var e1 := e.(orders := e.orders + [o]);
    var b := Request(o.uuid, o.orderType, "", PayloadDesc(e, o.payloadId), o.quantity, o.deliveryNode, o.pickupNode);
    var e2 := Enqueue(e1, b);
    EnqueueEffect(e1, b);
    TransitionEffect(e2, oid, Submitted);
  }

  lemma InsertedFits(e: Edge, e': Edge, o: Order, i: nat)
    requires EdgeInv(e) && CanInsertOrder(e, o) && Inserted(e, e', o)
    requires o.status == Pending && (o.orderType == Retrieve || o.orderType == Move)
    ensures OrderFits(e', i)
  {
    hide HopsOf, LettersOf, Completions;
    assert OrderFits(e, i);
    if i == |e.orders| {
      assert LettersOf(e.outbox, o.uuid) == [];
      FirstHop(o, i);
    } else if i < |e.orders| {
      assert e.orders[i].uuid != o.uuid;
    }
  }

  /** A submitted request order: one hop, one letter. */
  lemma FirstHop(o: Order, i: nat)
    requires o.status == Pending && (o.orderType == Retrieve || o.orderType == Move)
    ensures OrderOk(o.(status := Submitted), [] + [Hop(i, Pending, Submitted)], [] + [LRequest], 0)
  {
  }

  lemma InsertedKeeps(e: Edge, e': Edge, o: Order)
    requires EdgeInv(e) && CanInsertOrder(e, o) && Inserted(e, e', o)
    requires o.status == Pending && (o.orderType == Retrieve || o.orderType == Move)
    ensures EdgeInv(e')
  {
    hide HopsOf, LettersOf, Completions, OrderOk;
    forall i: nat ensures OrderFits(e', i) { InsertedFits(e, e', o, i); }
    var o' := o.(status := Submitted);
    forall u | !UuidTaken(e', u) ensures LettersOf(e'.outbox, u) == [] {
      InsertUuids(e, o', u);
      SameUuids(e.(orders := e.orders + [o']), e', u);
    }
  }

  lemma CreateAndSubmitKeeps(e: Edge, o: Order)
    requires EdgeInv(e) && o.status == Pending && (o.orderType == Retrieve || o.orderType == Move)
    ensures EdgeInv(CreateAndSubmit(e, o)) && Grows(e, CreateAndSubmit(e, o))
  {
    if CanInsertOrder(e, o) {
      CreateAndSubmitEffect(e, o);
      InsertedKeeps(e, CreateAndSubmit(e, o), o);
    }
  }

  /** States that differ in payload rows and non-completion events only. */
  lemma PayloadFrame(e: Edge, e': Edge)
    requires EdgeInv(e)
    requires e'.orders == e.orders && e'.history == e.history && e'.outbox == e.outbox && e'.station == e.station
    requires e.events <= e'.events && |e'.payloads| == |e.payloads|
    requires forall o :: Completions(e'.events, o) == Completions(e.events, o)
    ensures EdgeInv(e') && Grows(e, e')
  {
    forall i: nat ensures OrderFits(e', i) { assert OrderFits(e, i); }
    forall u | !UuidTaken(e', u) ensures LettersOf(e'.outbox, u) == [] { SameUuids(e, e', u); }
  }

  /** The row and event part of consuming a listed payload, up to and including the reorder event. */
  function Drawn(e: Edge, p: Payload, pid: nat, delta: int): Edge
    requires pid < |e.payloads|
  {
    var left := Saturate(p.remaining - delta);
    var status := if left == 0 then Empty else p.status;
    var e1 := SetPayload(e, pid, e.payloads[pid].(remaining := left, status := status));
    var e2 := Emit(e1, PayloadUpdated(pid, p.remaining, left, status));
    var e3 := if left == 0 && p.remaining > 0 then Emit(e2, PayloadEmpty(pid)) else e2;
    if Reorders(p, delta) then
      Emit(SetPayload(e3, pid, e3.payloads[pid].(remaining := left, status := Replenishing)), PayloadReorder(pid))
    else e3
  }

  predicate Reorders(p: Payload, delta: int) {
    var left := Saturate(p.remaining - delta);
    p.autoReorder && p.remaining > p.reorderPoint && left <= p.reorderPoint && p.status != Replenishing
  }

  function Reorder(e: Edge, p: Payload, pid: nat, uuid: string): Order {
    NewOrder(uuid, Retrieve, Some(pid), p.retrieveEmpty, p.reorderQty as real, p.location, p.stagingNode, "",
      "standard", e.autoConfirm)
  }

  lemma ConsumeIsDrawnThenOrdered(e: Edge, p: Payload, pid: nat, delta: int, uuid: string)
    requires pid < |e.payloads|
    ensures Consume(e, p, pid, delta, uuid) ==
      if Reorders(p, delta) then CreateAndSubmit(Drawn(e, p, pid, delta), Reorder(e, p, pid, uuid))
      else Drawn(e, p, pid, delta)
  {
  }

  /** The events drawing adds. */
  function DrawnEvents(p: Payload, pid: nat, delta: int): seq<Event> {
    var left := Saturate(p.remaining - delta);
    [PayloadUpdated(pid, p.remaining, left, if left == 0 then Empty else p.status)]
    + (if left == 0 && p.remaining > 0 then [PayloadEmpty(pid)] else [])
    + (if Reorders(p, delta) then [PayloadReorder(pid)] else [])
  }

  lemma DrawnAdds(e: Edge, p: Payload, pid: nat, delta: int)
    requires pid < |e.payloads|
    ensures Drawn(e, p, pid, delta).events == e.events + DrawnEvents(p, pid, delta)
  {
  }

  lemma {:induction false} NoCompletions(evs: seq<Event>, o: nat)
    requires forall i :: 0 <= i < |evs| ==> !evs[i].OrderCompleted?
    ensures Completions(evs, o) == 0
  {
    if evs != [] { NoCompletions(evs[..|evs| - 1], o); }
  }

  lemma DrawnEffect(e: Edge, p: Payload, pid: nat, delta: int)
    requires pid < |e.payloads|
    ensures var d := Drawn(e, p, pid, delta);
      && d.orders == e.orders && d.history == e.history && d.outbox == e.outbox && d.station == e.station
      && d.autoConfirm == e.autoConfirm && e.events <= d.events && |d.payloads| == |e.payloads|
    ensures forall o :: Completions(Drawn(e, p, pid, delta).events, o) == Completions(e.events, o)
  {
    hide Completions;
    var d, added := Drawn(e, p, pid, delta), DrawnEvents(p, pid, delta);
    DrawnAdds(e, p, pid, delta);
    forall o ensures Completions(d.events, o) == Completions(e.events, o) {
      CompletionsConcat(e.events, added, o);
      NoCompletions(added, o);
    }
  }

  lemma ConsumeKeeps(e: Edge, p: Payload, pid: nat, delta: int, uuid: string)
    requires EdgeInv(e) && pid < |e.payloads|
    ensures EdgeInv(Consume(e, p, pid, delta, uuid)) && Grows(e, Consume(e, p, pid, delta, uuid))
  {
    var d := Drawn(e, p, pid, delta);
    ConsumeIsDrawnThenOrdered(e, p, pid, delta, uuid);
    DrawnEffect(e, p, pid, delta);
    PayloadFrame(e, d);
    if Reorders(p, delta) {
      CreateAndSubmitKeeps(d, Reorder(e, p, pid, uuid));
      GrowsTrans(e, d, Consume(e, p, pid, delta, uuid));
    }
  }

  lemma {:induction false} ConsumeFromKeeps(e: Edge, listing: seq<Payload>, i: nat, js: nat, delta: int,
                                            uuids: seq<string>)
    requires EdgeInv(e) && i <= |listing| == |e.payloads|
    ensures EdgeInv(ConsumeFrom(e, listing, i, js, delta, uuids))
      && Grows(e, ConsumeFrom(e, listing, i, js, delta, uuids))
    decreases |listing| - i
  {
    if i < |listing| {
      var e1 := if Listed(listing[i], js) then Consume(e, listing[i], i, delta, UuidFor(uuids, i)) else e;
      if Listed(listing[i], js) { ConsumeKeeps(e, listing[i], i, delta, UuidFor(uuids, i)); }
      ConsumeFromKeeps(e1, listing, i + 1, js, delta, uuids);
      GrowsTrans(e, e1, ConsumeFrom(e, listing, i, js, delta, uuids));
    }
  }

  lemma ReplyKeeps(e: Edge, body: CoreBody)
    requires EdgeInv(e)
    ensures EdgeInv(Reply(e, body)) && Grows(e, Reply(e, body))
  {
    var found := OrderByUuid(e.orders, body.uuid);
    if found.Some? {
      var oid := found.value;
      match body
      case Waybill(_, w, _, eta) =>
        var e1 := SetOrder(e, oid, e.orders[oid].(waybillId := Some(w), eta := eta));
        EditKeeps(e, oid, e.orders[oid].(waybillId := Some(w), eta := eta));
        if CanTransition(e1, oid, InTransit) {
          TransitionKeeps(e1, oid, InTransit, None);
          GrowsTrans(e, e1, Reply(e, body));
        }
      case Update(_, _, eta) =>
        EditKeeps(e, oid, e.orders[oid].(eta := eta));
      case DeliveredNotice(_) =>
        if CanTransition(e, oid, Delivered) {
          var e1 := Transition(e, oid, Delivered);
          TransitionKeeps(e, oid, Delivered, None);
          ConfirmKeeps(e1, oid, e.orders[oid].quantity);
          if e.orders[oid].autoConfirm { GrowsTrans(e, e1, Reply(e, body)); }
        }
      case _ =>
        var to := Target(body).value;
        if CanTransition(e, oid, to) { TransitionKeeps(e, oid, to, None); }
    }
  }

  lemma SubmitKeeps(e: Edge, oid: nat)
    requires EdgeInv(e)
    ensures EdgeInv(Submit(e, oid)) && Grows(e, Submit(e, oid))
  {
    if CanTransition(e, oid, Submitted) {
      var o := e.orders[oid];
      assert OrderFits(e, oid);
      var b := StorageWaybill(o.uuid, Store, o.pickupNode, if o.finalCount.Some? then o.finalCount.value else 0.0);
      TransitionKeeps(e, oid, Submitted, if o.orderType == Store then Some(b) else None);
    }
  }

  lemma StepKeeps(e: Edge, a: Action)
    requires EdgeInv(e)
    ensures EdgeInv(Step(e, a)) && Grows(e, Step(e, a))
  {
    hide EdgeInv, Grows, Transition;
    GrowsSelf(e);
    match a
    case ACreateRetrieve(uuid, pid, re, q, d, s, lt, ac) =>
      CreateAndSubmitKeeps(e, NewOrder(uuid, Retrieve, pid, re, q, d, s, "", lt, ac));
    case ACreateMove(uuid, pid, q, pickup, d) =>
      CreateAndSubmitKeeps(e, NewOrder(uuid, Move, pid, false, q, d, "", pickup, "", false));
    case ACreateStore(uuid, pid, q, pickup) => CreateStoreKeeps(e, uuid, pid, q, pickup);
    case ASubmit(o) => SubmitKeeps(e, o);
    case AAbort(o) =>
      if o < |e.orders| && CanTransition(e, o, Cancelled) {
        TransitionKeeps(e, o, Cancelled, Some(Cancel(e.orders[o].uuid, AbortReason)));
      }
    case ARedirect(o, d) => RedirectKeeps(e, o, d);
    case ASetCount(o, c) =>
      if o < |e.orders| { EditKeeps(e, o, e.orders[o].(finalCount := Some(c), countConfirmed := true)); }
    case AConfirm(o, c) => ConfirmKeeps(e, o, c);
    case AReply(b) => ReplyKeeps(e, b);
    case ACounterDelta(js, d, uuids) =>
      if js != 0 { ConsumeFromKeeps(e, e.payloads, 0, js, d, uuids); }
    case AReorderPoint(p, rp) => PayloadFrame(e, Step(e, a));
    case AAutoReorder(p, b) => PayloadFrame(e, Step(e, a));
  }

  lemma {:induction false} RunKeeps(e: Edge, acts: seq<Action>)
    requires EdgeInv(e)
    ensures EdgeInv(Run(e, acts)) && Grows(e, Run(e, acts))
    decreases |acts|
  {
    if acts != [] {
      StepKeeps(e, acts[0]);
      RunKeeps(Step(e, acts[0]), acts[1..]);
      GrowsTrans(e, Step(e, acts[0]), Run(e, acts));
    }
  }

  lemma InitHolds(e: Edge)
    requires Init(e)
    ensures EdgeInv(e)
  {
  }

  // ---------- theorems over runs ----------

  /**
   Every order of every run: a valid chain of at most five hops, completed once iff terminal, counted before
   submission.
   */
  lemma Lifecycle(e: Edge, acts: seq<Action>, oid: nat)
    requires Init(e) && oid < |Run(e, acts).orders|
    ensures var f := Run(e, acts); var o := f.orders[oid]; var hops := HopsOf(f.history, oid);
      && Chain(hops, o.status) && |hops| <= 5
      && Completions(f.events, oid) == (if IsTerminal(o.status) then 1 else 0)
      && (o.orderType == Store && Reached(hops, Submitted) ==> o.countConfirmed)
      && (o.status == Confirmed ==> hops == FullChain(oid))
      && (if o.status == Failed || o.status == Cancelled then CutShort(hops, o.status, oid)
          else hops == FullChain(oid)[..|hops|])
  {
    InitHolds(e);
    RunKeeps(e, acts);
    var f := Run(e, acts);
    assert OrderFits(f, oid);
    HopsOfOwn(f.history, oid);
    HistoryShape(HopsOf(f.history, oid), f.orders[oid].status, oid);
  }

  /** Part of the full chain, then one hop to failed or cancelled. */
  predicate CutShort(hops: seq<Hop>, last: Status, oid: nat) {
    && 0 < |hops| <= 5 && hops[..|hops| - 1] == FullChain(oid)[..|hops| - 1]
    && hops[|hops| - 1] == Hop(oid, FullChain(oid)[|hops| - 1].from, last)
  }

  lemma {:induction false} HistoryShape(hops: seq<Hop>, last: Status, oid: nat)
    requires Chain(hops, last) && forall i :: 0 <= i < |hops| ==> hops[i].order == oid
    ensures |hops| <= 5 && (last == Confirmed ==> hops == FullChain(oid))
    ensures if last == Failed || last == Cancelled then CutShort(hops, last, oid) else hops == FullChain(oid)[..|hops|]
  {
    ChainBound(hops, last);
    if last == Failed || last == Cancelled {
      var x := hops[|hops| - 1];
      ChainForced(hops[..|hops| - 1], x.from, oid);
      ChainBound(hops[..|hops| - 1], x.from);
    } else {
      ChainForced(hops, last, oid);
    }
  }

  lemma ChainOf(e: Edge, oid: nat)
    requires EdgeInv(e) && oid < |e.orders|
    ensures Chain(HopsOf(e.history, oid), e.orders[oid].status)
  {
    assert OrderFits(e, oid);
  }

  /** Once terminal, an order keeps its status whatever happens later. */
  lemma TerminalAbsorbing(e: Edge, acts: seq<Action>, more: seq<Action>, oid: nat)
    requires Init(e) && oid < |Run(e, acts).orders| && IsTerminal(Run(e, acts).orders[oid].status)
    ensures var f, g := Run(e, acts), Run(Run(e, acts), more);
      oid < |g.orders| && g.orders[oid].status == f.orders[oid].status
        && HopsOf(g.history, oid) == HopsOf(f.history, oid)
  {
    hide EdgeInv, Run, HopsOf, Chain;
    InitHolds(e);
    RunKeeps(e, acts);
    RunKeeps(Run(e, acts), more);
    var f, g := Run(e, acts), Run(Run(e, acts), more);
    assert OrderGrows(f.orders[oid], g.orders[oid]);
    ChainOf(f, oid);
    ChainOf(g, oid);
    var added := g.history[|f.history|..];
    assert g.history == f.history + added;
    HopsConcat(f.history, added, oid);
    ChainNoExtension(HopsOf(f.history, oid), HopsOf(added, oid), f.orders[oid].status);
  }

  lemma HopsConcat(a: seq<Hop>, b: seq<Hop>, oid: nat)
    ensures HopsOf(a + b, oid) == HopsOf(a, oid) + HopsOf(b, oid)
  {
    if b == [] {
      assert a + b == a;
    } else {
      assert (a + b)[..|a + b| - 1] == a + b[..|b| - 1];
      HopsConcat(a, b[..|b| - 1], oid);
    }
  }

  lemma ChainLast(hops: seq<Hop>, x: Hop, last: Status)
    requires Chain(hops + [x], last)
    ensures x.to == last && Rank(x.from) < Rank(last) && Chain(hops, x.from)
  {
    assert (hops + [x])[..|hops + [x]| - 1] == hops;
  }

  lemma {:induction false} ChainPrefix(a: seq<Hop>, b: seq<Hop>, last: Status) returns (mid: Status)
    requires Chain(a + b, last)
    ensures Chain(a, mid) && (b == [] ==> mid == last) && (b != [] ==> Rank(mid) < Rank(last))
    decreases |b|
  {
    hide Chain, Rank;
    if b == [] {
      assert a + b == a;
      mid := last;
    } else {
      var front, x := b[..|b| - 1], b[|b| - 1];
      assert a + b == a + front + [x];
      ChainLast(a + front, x, last);
      mid := ChainPrefix(a, front, x.from);
    }
  }

  lemma ChainNoExtension(a: seq<Hop>, b: seq<Hop>, last: Status)
    requires Chain(a, last) && Chain(a + b, last)
    ensures b == []
  {
    var mid := ChainPrefix(a, b, last);
  }

  /**
   The messages sent for an order are always a word of its language; a receipt is there exactly when it is
   confirmed.
   */
  lemma MessageLanguage(e: Edge, acts: seq<Action>, oid: nat)
    requires Init(e) && oid < |Run(e, acts).orders|
    ensures var f := Run(e, acts); var o := f.orders[oid]; var w := LettersOf(f.outbox, o.uuid);
      && (exists tail :: Closing(tail) && InLanguage(o.orderType, w, tail))
      && (LReceipt in w <==> o.status == Confirmed)
      && (LCancel in w ==> o.status == Cancelled)
      && (o.orderType == Store ==> (LWaybill in w <==> Reached(HopsOf(f.history, oid), Submitted)))
  {
    InitHolds(e);
    RunKeeps(e, acts);
    var f := Run(e, acts);
    var o := f.orders[oid];
    assert OrderFits(f, oid);
    WordShape(o, HopsOf(f.history, oid), LettersOf(f.outbox, o.uuid), Completions(f.events, oid));
  }

  lemma WordShape(o: Order, hops: seq<Hop>, w: seq<Letter>, n: nat)
    requires OrderOk(o, hops, w, n)
    ensures exists tail :: Closing(tail) && InLanguage(o.orderType, w, tail)
    ensures LReceipt in w <==> o.status == Confirmed
    ensures LCancel in w ==> o.status == Cancelled
    ensures o.orderType == Store ==> (LWaybill in w <==> Reached(hops, Submitted))
  {
    var tail := TailOf(Read(o.orderType, w));
    AcceptedWords(o.orderType, w);
    assert Closing(tail);
    LettersRead(o.orderType, w);
    SubmittedFirst(hops, o.status);
  }

  /** What the automaton's state says about the letters read. */
  lemma LettersRead(t: OrderType, w: seq<Letter>)
    requires Read(t, w) != Bad
    ensures LReceipt in w <==> Read(t, w) == DoneReceipt
    ensures LCancel in w <==> Read(t, w) == DoneCancel || Read(t, w) == EarlyCancel
    ensures t == Store ==> (LWaybill in w <==> Read(t, w) in {Open, DoneCancel, DoneReceipt})
  {
    if w != [] {
      var v := w[..|w| - 1];
      assert w == v + [w[|w| - 1]];
      LettersRead(t, v);
    }
  }

  /** A reply accepted once does nothing when it is delivered again, however much later. */
  lemma ReplaySafe(e: Edge, acts: seq<Action>, body: CoreBody, more: seq<Action>)
    requires Init(e) && Accepts(Run(e, acts), body)
    ensures var g := Run(Step(Run(e, acts), AReply(body)), more); var g' := Step(g, AReply(body));
      && |g'.orders| == |g.orders| && (forall i :: 0 <= i < |g.orders| ==> g'.orders[i].status == g.orders[i].status)
      && g'.history == g.history && g'.events == g.events && g'.outbox == g.outbox && g'.payloads == g.payloads
  {
    hide EdgeInv, Run, Reply;
    InitHolds(e);
    RunKeeps(e, acts);
    var f := Run(e, acts);
    var oid := OrderByUuid(f.orders, body.uuid).value;
    var f1 := Step(f, AReply(body));
    StepKeeps(f, AReply(body));
    RunKeeps(f1, more);
    var g := Run(f1, more);
    if Target(body).Some? {
      AcceptedReaches(f, body);
      assert OrderGrows(f.orders[oid], f1.orders[oid]) && OrderGrows(f1.orders[oid], g.orders[oid]);
      LateReplyIsQuiet(g, oid, body);
    } else {
      UpdateIsQuiet(g, body);
    }
  }

  lemma UpdateIsQuiet(g: Edge, body: CoreBody)
    requires Target(body).None?
    ensures var g' := Reply(g, body);
      && |g'.orders| == |g.orders| && (forall i :: 0 <= i < |g.orders| ==> g'.orders[i].status == g.orders[i].status)
      && g'.history == g.history && g'.events == g.events && g'.outbox == g.outbox && g'.payloads == g.payloads
  {
  }

  /** A reply asking for a status the order has reached or passed changes at most waybill number and ETA. */
  lemma LateReplyIsQuiet(g: Edge, oid: nat, body: CoreBody)
    requires EdgeInv(g) && oid < |g.orders| && g.orders[oid].uuid == body.uuid
    requires Target(body).Some? && Rank(g.orders[oid].status) >= Rank(Target(body).value)
    ensures var g' := Reply(g, body);
      && |g'.orders| == |g.orders| && (forall i :: 0 <= i < |g.orders| ==> g'.orders[i].status == g.orders[i].status)
      && g'.history == g.history && g'.events == g.events && g'.outbox == g.outbox && g'.payloads == g.payloads
  {
    var found := OrderByUuid(g.orders, body.uuid);
    assert found.Some? && found.value == oid;
    RankBlocks(g.orders[oid].status, Target(body).value);
  }

  /** After an accepted reply the order has at least the rank of the status asked for. */
  lemma AcceptedReaches(e: Edge, body: CoreBody)
    requires Accepts(e, body) && Target(body).Some?
    ensures var oid := OrderByUuid(e.orders, body.uuid).value;
      oid < |Reply(e, body).orders| && Rank(Reply(e, body).orders[oid].status) >= Rank(Target(body).value)
  {
    var oid := OrderByUuid(e.orders, body.uuid).value;
    var to := Target(body).value;
    if body.Waybill? {
      TransitionEffect(SetOrder(e, oid, e.orders[oid].(waybillId := Some(body.waybillId), eta := body.eta)), oid, to);
    } else {
      TransitionEffect(e, oid, to);
      if body.DeliveredNotice? && e.orders[oid].autoConfirm {
        var e1 := Transition(e, oid, to);
        TransitionEffect(Enqueue(SetCount(e1, oid, e.orders[oid].quantity),
          Receipt(e.orders[oid].uuid, e.orders[oid].quantity)), oid, Confirmed);
      }
    }
  }

  lemma RankBlocks(s: Status, to: Status)
    requires Rank(s) >= Rank(to)
    ensures !IsValidTransition(s, to)
  {
  }
}
