/** The vocabulary both nodes share: statuses, order types and the order messages of the two topics. */
module Protocol {

  datatype Option<+T> = None | Some(value: T)

  /** Canonical order statuses; each node uses the part of them its own tables allow. */
  datatype Status =
    | Pending | Sourcing | Submitted | Dispatched | Acknowledged
    | InTransit | Delivered | Confirmed | Failed | Cancelled

  /** An order type arrives as a string, so core must also handle one it does not know. */
  datatype OrderType = Retrieve | Move | Store | OtherType(name: string)

  /** Payloads of the messages edge sends to core. */
  datatype EdgeBody =
    | Request(uuid: string, orderType: OrderType, payloadTypeCode: string, payloadDesc: string,
              quantity: real, deliveryNode: string, pickupNode: string)
    | Cancel(uuid: string, reason: string)
    | Receipt(uuid: string, finalCount: real)
    | Redirect(uuid: string, newDeliveryNode: string)
    | StorageWaybill(uuid: string, orderType: OrderType, pickupNode: string, finalCount: real)

  /** An outbound edge message; `id` stands for the envelope's own fresh identifier. */
  datatype Envelope = Envelope(id: nat, src: string, body: EdgeBody)

  /** The fleet's order identifier is built from the core order id and a random tag. */
  datatype VendorId = VendorId(orderId: nat, tag: string)

  /** Payloads of the messages core sends to edge. */
  datatype CoreBody =
    | Ack(uuid: string, orderId: nat, sourceNode: string)
    | Waybill(uuid: string, waybillId: VendorId, robotId: string, eta: string)
    | Update(uuid: string, status: Status, eta: string)
    | DeliveredNotice(uuid: string)
    | Error(uuid: string, code: string)
    | CancelledNotice(uuid: string, reason: string)

  /** An outbound core message: addressee, correlation id (replies only) and payload. */
  datatype CoreMsg = CoreMsg(dst: string, cor: Option<nat>, body: CoreBody)

  predicate IsTerminal(s: Status) {
    s == Confirmed || s == Cancelled || s == Failed
  }

  /** The first row satisfying `p`, in table order: the linear scan behind a lookup by a unique column. */
  function FindFirst<T>(rows: seq<T>, p: T -> bool): (r: Option<T>)
    ensures r.Some? ==> r.value in rows && p(r.value)
    ensures r.None? ==> forall x :: x in rows ==> !p(x)
  {
    if rows == [] then None
    else if p(rows[0]) then Some(rows[0])
    else FindFirst(rows[1..], p)
  }

  lemma {:induction false} FirstAt<T>(rows: seq<T>, p: T -> bool, i: nat)
    requires i < |rows| && p(rows[i]) && forall j :: 0 <= j < i ==> !p(rows[j])
    ensures FindFirst(rows, p) == Some(rows[i])
  {
    if i > 0 { FirstAt(rows[1..], p, i - 1); }
  }

  /** The row found is the first one that satisfies `p`. */
  lemma {:induction false} FirstIs<T>(rows: seq<T>, p: T -> bool) returns (i: nat)
    requires FindFirst(rows, p).Some?
    ensures i < |rows| && rows[i] == FindFirst(rows, p).value && forall j :: 0 <= j < i ==> !p(rows[j])
  {
    if p(rows[0]) {
      i := 0;
    } else {
      var k := FirstIs(rows[1..], p);
      i := k + 1;
    }
  }
}
