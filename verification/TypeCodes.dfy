/**
 No request an edge sends names a payload type, so core turns every one of them down unless a type has the
 empty name.
 */
module TypeCodes {
  import opened Protocol
  import E = EdgeOrders
  import L = EdgeLifecycle
  import T = CoreTables
  import D = CoreDispatch
  import opened OrderSystem

  predicate Codeless(b: EdgeBody) { b.Request? ==> b.payloadTypeCode == "" }

  predicate AllCodeless(e: E.Edge) { forall x :: x in e.outbox ==> Codeless(x.body) }

  lemma {:induction false} ConsumeCodeless(e: E.Edge, listing: seq<E.Payload>, i: nat, js: nat, delta: int,
                                           uuids: seq<string>)
    requires AllCodeless(e) && i <= |listing| == |e.payloads|
    ensures AllCodeless(E.ConsumeFrom(e, listing, i, js, delta, uuids))
    decreases |listing| - i
  {
    if i < |listing| {
      var p, u := listing[i], E.UuidFor(uuids, i);
      if E.Listed(p, js) {
        ConsumeCodeless(E.Consume(e, p, i, delta, u), listing, i + 1, js, delta, uuids);
      } else {
        ConsumeCodeless(e, listing, i + 1, js, delta, uuids);
      }
    }
  }

  lemma ConfirmCodeless(e: E.Edge, oid: nat, count: real)
    requires AllCodeless(e)
    ensures AllCodeless(E.Confirm(e, oid, count))
  {
  }

  lemma ReplyCodeless(e: E.Edge, body: CoreBody)
    requires AllCodeless(e)
    ensures AllCodeless(E.Reply(e, body))
  {
    var found := E.OrderByUuid(e.orders, body.uuid);
    if found.Some? {
      var oid := found.value;
      match body
      case Waybill(_, w, _, eta) =>
        var e1 := E.SetOrder(e, oid, e.orders[oid].(waybillId := Some(w), eta := eta));
        if E.CanTransition(e1, oid, InTransit) { L.TransitionEffect(e1, oid, InTransit); }
      case Update(_, _, eta) =>
      case DeliveredNotice(_) =>
        if E.CanTransition(e, oid, Delivered) {
          L.TransitionEffect(e, oid, Delivered);
          ConfirmCodeless(E.Transition(e, oid, Delivered), oid, e.orders[oid].quantity);
        }
      case _ => if E.CanTransition(e, oid, E.Target(body).value) { L.TransitionEffect(e, oid, E.Target(body).value); }
    }
  }

  lemma StepCodeless(e: E.Edge, a: E.Action)
    requires AllCodeless(e)
    ensures AllCodeless(E.Step(e, a))
  {
    match a
    case ASubmit(o) => if E.CanTransition(e, o, Submitted) { L.TransitionEffect(e, o, Submitted); }
    case AAbort(o) => if E.CanTransition(e, o, Cancelled) { L.TransitionEffect(e, o, Cancelled); }
    case AConfirm(o, c) => ConfirmCodeless(e, o, c);
    case AReply(b) => ReplyCodeless(e, b);
    case ACounterDelta(js, d, uuids) => if js != 0 { ConsumeCodeless(e, e.payloads, 0, js, d, uuids); }
    case _ =>
  }

  lemma {:induction false} RunCodeless(n: Net, acts: seq<Action>)
    requires forall x :: x in n.edges ==> AllCodeless(n.edges[x])
    ensures forall x :: x in Run(n, acts).edges ==> AllCodeless(Run(n, acts).edges[x])
    decreases |acts|
  {
    if acts != [] {
      match acts[0] {
        case ALocal(at, act) => if at in n.edges { StepCodeless(n.edges[at], act); }
        case AToEdge(k, at) => if at in n.edges && k < |n.core.outbox| {
          ReplyCodeless(n.edges[at], n.core.outbox[k].body);
        }
        case _ =>
      }
      RunCodeless(Step(n, acts[0]), acts[1..]);
    }
  }

  /**
   Whenever an edge's request reaches core, it is refused for its payload type exactly when no type has the
   empty name.
   */
  lemma EdgeRequestsNeedANamelessType(n: Net, acts: seq<Action>, at: string, k: nat, ch: D.Choice)
    requires Init(n) && at in Run(n, acts).edges
    requires k < |Run(n, acts).edges[at].outbox| && Run(n, acts).edges[at].outbox[k].body.Request?
    ensures var f := Run(n, acts); var env := f.edges[at].outbox[k];
      (D.HandleRequest(f.core, env, ch) == D.SendError(f.core, env, "payload_type_error"))
      <==> T.TypeByName(f.core.types, "").None?
  {
    InitHolds(n);
    RunKeeps(n, acts);
    RunCodeless(n, acts);
    var f := Run(n, acts);
    var env := f.edges[at].outbox[k];
    assert env in f.edges[at].outbox && env.body.payloadTypeCode == "";
    RequestOk(f.core, env, ch);
    if T.TypeByName(f.core.types, "").Some? && D.Refused(f.core, env) {
      var wrong := CoreMsg(env.src, Some(env.id), Error(env.body.uuid, "payload_type_error"));
      assert D.SendError(f.core, env, "payload_type_error").outbox[|f.core.outbox|] == wrong;
      assert D.HandleRequest(f.core, env, ch).outbox[|f.core.outbox|] != wrong;
    }
  }
}
