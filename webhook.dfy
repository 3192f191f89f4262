/**
 * The payment processor's notification endpoint (app/api/mp/webhook/route.ts): a
 * shared-secret guard, the event filter, and the order update built from the
 * processor's record of the payment. It answers HTTP 200 on every path.
 */
module Webhook {
  import opened Text
  import CreatePayment

  /** The notification body's `type`, `action` and `data.id`. */
  datatype Event = Event(eventType: Option<string>, action: Option<string>, dataId: Option<string>)

  /** The query's `secret` and `type`, and the body (`None` when it is not JSON, read as `{}`). */
  datatype Notification = Notification(secret: Option<string>, typeParam: Option<string>, body: Option<Event>)

  /** The payment lookup: the processor's record, or an exception. */
  datatype Lookup = Fetched(payment: CreatePayment.ProcessorPayment) | LookupThrew

  /** The order as read: its notes, and whether the `mp_payment_id` key came back at all. */
  datatype OrderRead = OrderRead(notes: Option<string>, mpPaymentIdDefined: bool)

  /** The last column of the update: the payment id, or a prefixed note. */
  datatype Trail = SetPaymentId(id: string) | SetNotes(notes: string)

  datatype Updates = Updates(paymentStatus: Option<string>, status: string, updatedAt: int, trail: Trail)

  datatype Reply = Ok | Ignored | MissingPaymentId | NoOrder | Received | NotReceived

  datatype OrderWrite = OrderWrite(orderId: string, updates: Updates)

  /** The answer, whether the processor was asked about the payment, and the order write if any. */
  datatype Result = Result(httpStatus: int, reply: Reply, lookedUp: bool, write: Option<OrderWrite>)

  /** `body?.action`. */
  function Action(n: Notification): (r: Option<string>)
    ensures n.body.None? ==> r.None?
    ensures r.Some? ==> n.body.Some? && r == n.body.value.action
  {
    if n.body.Some? then n.body.value.action else None
  }

  /** `body?.data?.id`. */
  function PaymentId(n: Notification): (r: Option<string>)
    ensures n.body.None? ==> r.None?
    ensures r.Some? ==> n.body.Some? && r == n.body.value.dataId
  {
    if n.body.Some? then n.body.value.dataId else None
  }

  /** `body.type || type` from the query. */
  function EventType(n: Notification): (t: Option<string>)
    ensures n.body.Some? && Filled(n.body.value.eventType) ==> t == n.body.value.eventType
    ensures !(n.body.Some? && Filled(n.body.value.eventType)) ==> t == n.typeParam
  {
    if n.body.Some? && Filled(n.body.value.eventType) then n.body.value.eventType else n.typeParam
  }

  /** `type === "payment"`, a payment action, or any non-empty payment id. */
  predicate IsPaymentEvent(n: Notification)
    ensures Filled(PaymentId(n)) ==> IsPaymentEvent(n)
    ensures EventType(n) == Some("payment") ==> IsPaymentEvent(n)
    ensures n.body.None? && n.typeParam != Some("payment") ==> !IsPaymentEvent(n)
    ensures EventType(n) != Some("payment") && Action(n).None? && !Filled(PaymentId(n)) ==> !IsPaymentEvent(n)
  {
    var action := Action(n);
    EventType(n) == Some("payment") || action == Some("payment.created")
    || action == Some("payment.updated") || Filled(PaymentId(n))
  }

  function Prefix(p: CreatePayment.ProcessorPayment): (s: string)
    ensures StartsWith(s, "[MP webhook payment_id=")
  {
    "[MP webhook payment_id=" + OrElse(p.id, "?") + " status=" + OrElse(p.status, "?") + "]"
  }

  /**
   * The `updates` record: the raw processor status as `payment_status`, `paid` or
   * `pending` as `status`, and either the payment id (when the order has that column)
   * or a prefix put in front of the order's notes.
   */
  function BuildUpdates(p: CreatePayment.ProcessorPayment, order: Option<OrderRead>, now: int): (u: Updates)
    ensures u.paymentStatus == p.status && u.updatedAt == now
    ensures u.status == "paid" <==> p.status == Some("approved")
    ensures u.status == "pending" <==> p.status != Some("approved")
    ensures u.trail.SetPaymentId? <==> order.Some? && order.value.mpPaymentIdDefined
    ensures u.trail.SetPaymentId? ==> u.trail.id == OrElse(p.id, "")
    ensures u.trail.SetNotes? ==>
              StartsWith(u.trail.notes, Prefix(p))
              && (order.Some? && Filled(order.value.notes) <==> |u.trail.notes| > |Prefix(p)|)
  {
    var status := if p.status == Some("approved") then "paid" else "pending";
    if order.Some? && order.value.mpPaymentIdDefined then
      Updates(p.status, status, now, SetPaymentId(OrElse(p.id, "")))
    else
      var prefix := Prefix(p);
      var notes := if order.Some? && Filled(order.value.notes) then prefix + " " + order.value.notes.value else prefix;
      assert notes[..|prefix|] == prefix;
      Updates(p.status, status, now, SetNotes(notes))
  }

  /**
   * `POST`: the secret guard, the event filter, the payment id, the lookup, the order id
   * from the payment's metadata, then one update of that order.
   */
  function Handle(n: Notification, configured: Option<string>, lookup: Lookup, order: Option<OrderRead>, now: int): (r: Result)
    ensures r.httpStatus == 200
    ensures !Filled(n.secret) || n.secret != configured ==> r.reply == Ok && !r.lookedUp && r.write.None?
    ensures Filled(n.secret) && n.secret == configured && !IsPaymentEvent(n) ==>
              r.reply == Ignored && !r.lookedUp && r.write.None?
    ensures Filled(n.secret) && n.secret == configured && IsPaymentEvent(n) && !Filled(PaymentId(n)) ==>
              r.reply == MissingPaymentId && !r.lookedUp && r.write.None?
    ensures r.lookedUp <==> Filled(n.secret) && n.secret == configured && Filled(PaymentId(n))
    ensures r.lookedUp && lookup.LookupThrew? ==> r.reply == NotReceived && r.write.None?
    ensures r.lookedUp && lookup.Fetched? && !Filled(lookup.payment.metadataOrderId) ==>
              r.reply == NoOrder && r.write.None?
    ensures r.write.Some? <==> r.lookedUp && lookup.Fetched? && Filled(lookup.payment.metadataOrderId)
    ensures r.write.Some? ==>
              r.reply == Received
              && r.write.value == OrderWrite(lookup.payment.metadataOrderId.value, BuildUpdates(lookup.payment, order, now))
  {
    if !Filled(n.secret) || n.secret != configured then Result(200, Ok, false, None)
    else if !IsPaymentEvent(n) then Result(200, Ignored, false, None)
    else if !Filled(PaymentId(n)) then Result(200, MissingPaymentId, false, None)
    else match lookup
      case LookupThrew => Result(200, NotReceived, true, None)
      case Fetched(p) =>
        if !Filled(p.metadataOrderId) then Result(200, NoOrder, true, None)
        else Result(200, Received, true, Some(OrderWrite(p.metadataOrderId.value, BuildUpdates(p, order, now))))
  }

  /** A rejected payment is recorded with `status` pending. */
  lemma RejectedStaysPending(p: CreatePayment.ProcessorPayment, order: Option<OrderRead>, now: int)
    requires p.status == Some("rejected")
    ensures BuildUpdates(p, order, now).status == "pending"
    ensures BuildUpdates(p, order, now).paymentStatus == Some("rejected")
  {
  }

  // ---------------------------------------------------------------------------
  // Redelivery: the same notification handled twice
  // ---------------------------------------------------------------------------

  /** On the notes path a redelivery reads the notes the first delivery wrote and prefixes them again. */
  lemma NotesRedeliveryGrows(p: CreatePayment.ProcessorPayment, order: Option<OrderRead>, now: int, later: int)
    requires !(order.Some? && order.value.mpPaymentIdDefined)
    ensures var first := BuildUpdates(p, order, now).trail;
            var again := BuildUpdates(p, Some(OrderRead(Some(first.notes), false)), later).trail;
            first.SetNotes? && again.SetNotes? && |again.notes| > |first.notes| && again.notes != first.notes
  {
  }

  /** On the payment-id path a redelivery builds the same update, apart from `updated_at`. */
  lemma PaymentIdRedeliveryRepeats(p: CreatePayment.ProcessorPayment, o1: OrderRead, o2: OrderRead, now: int, later: int)
    requires o1.mpPaymentIdDefined && o2.mpPaymentIdDefined
    ensures BuildUpdates(p, Some(o2), later) == BuildUpdates(p, Some(o1), now).(updatedAt := later)
  {
  }

  // ---------------------------------------------------------------------------
  // The order's payment columns, written by both endpoints
  // ---------------------------------------------------------------------------

  datatype OrderPayment = OrderPayment(
    paymentStatus: Option<string>, status: string, mpPaymentId: Option<string>,
    mpStatus: Option<string>, notes: Option<string>)

  function ApplyCreate(row: OrderPayment, u: CreatePayment.OrderUpdate): (r: OrderPayment)
    ensures r.paymentStatus == Some(u.paymentStatus) && r.mpPaymentId == Some(u.mpPaymentId)
    ensures r.status == row.status && r.notes == row.notes
  {
    row.(paymentStatus := Some(u.paymentStatus), mpPaymentId := Some(u.mpPaymentId), mpStatus := u.mpStatus)
  }

  function ApplyWebhook(row: OrderPayment, u: Updates): (r: OrderPayment)
    ensures r.paymentStatus == u.paymentStatus && r.status == u.status
    ensures r.mpStatus == row.mpStatus
  {
    match u.trail
    case SetPaymentId(id) => row.(paymentStatus := u.paymentStatus, status := u.status, mpPaymentId := Some(id))
    case SetNotes(notes) => row.(paymentStatus := u.paymentStatus, status := u.status, notes := Some(notes))
  }

  /**
   * For one approved payment, the order's final `payment_status` is "approved" when the
   * notification lands after the endpoint's write and "paid" when it lands before.
   */
  lemma WriteOrderDecidesPaymentStatus(row: OrderPayment, id: string, detail: Option<string>,
                                       metadata: Option<string>, order: Option<OrderRead>, now: int)
    ensures var created := CreatePayment.OrderUpdate(id, Some("approved"), detail, CreatePayment.PaymentStatusFor(Some("approved")));
            var notified := BuildUpdates(CreatePayment.ProcessorPayment(Some(id), Some("approved"), metadata), order, now);
            ApplyWebhook(ApplyCreate(row, created), notified).paymentStatus == Some("approved")
            && ApplyCreate(ApplyWebhook(row, notified), created).paymentStatus == Some("paid")
  {
  }

  /** The update the notification evidently means to write: `payment_status` mapped as the payment endpoint maps it. */
  function BuildUpdatesMapped(p: CreatePayment.ProcessorPayment, order: Option<OrderRead>, now: int): (u: Updates)
    ensures u.paymentStatus == Some(CreatePayment.PaymentStatusFor(p.status))
    ensures u.status == BuildUpdates(p, order, now).status && u.trail == BuildUpdates(p, order, now).trail
  {
    BuildUpdates(p, order, now).(paymentStatus := Some(CreatePayment.PaymentStatusFor(p.status)))
  }

  /** With the mapped update, both write orders leave the same `payment_status`, whatever the processor status. */
  lemma MappedWritesCommute(row: OrderPayment, id: string, status: Option<string>, detail: Option<string>,
                            metadata: Option<string>, order: Option<OrderRead>, now: int)
    ensures var created := CreatePayment.OrderUpdate(id, status, detail, CreatePayment.PaymentStatusFor(status));
            var notified := BuildUpdatesMapped(CreatePayment.ProcessorPayment(Some(id), status, metadata), order, now);
            ApplyWebhook(ApplyCreate(row, created), notified).paymentStatus
            == ApplyCreate(ApplyWebhook(row, notified), created).paymentStatus
            == Some(CreatePayment.PaymentStatusFor(status))
  {
  }

  // ---------------------------------------------------------------------------
  // The two endpoints together
  // ---------------------------------------------------------------------------

  /**
   * A notification about a payment the payment endpoint created, however well signed,
   * never reaches the order: the payment carries no order id.
   */
  lemma CreatedPaymentNeverMatched(env: CreatePayment.Env, header: Option<string>, uuid: string,
                                   body: Option<CreatePayment.Body>, record: Option<CreatePayment.OrderRecord>,
                                   answer: CreatePayment.ProcessorAnswer, updateOk: bool,
                                   n: Notification, configured: Option<string>, order: Option<OrderRead>, now: int)
    requires answer.Created?
    requires CreatePayment.Post(env, header, uuid, body, record, answer, updateOk).sent.Some?
    ensures var q := CreatePayment.Post(env, header, uuid, body, record, answer, updateOk).sent.value;
            Handle(n, configured, Fetched(CreatePayment.Recorded(q, answer)), order, now).write.None?
  {
    CreatePayment.CreatedPaymentsCarryNoOrder(env, header, uuid, body, record, answer, updateOk);
  }

  /** With the order id attached, a signed notification about the payment updates exactly that order. */
  lemma PaymentWithOrderIsMatched(orderId: string, form: CreatePayment.CardForm, record: CreatePayment.OrderRecord,
                                  key: string, answer: CreatePayment.ProcessorAnswer,
                                  n: Notification, order: Option<OrderRead>, now: int)
    requires Truthy(record.total) && Filled(form.token) && orderId != []
    requires answer.Created?
    requires Filled(n.secret) && Filled(PaymentId(n))
    ensures var p := CreatePayment.Recorded(CreatePayment.RequestWithOrder(orderId, form, record, key), answer);
            Handle(n, n.secret, Fetched(p), order, now).write == Some(OrderWrite(orderId, BuildUpdates(p, order, now)))
  {
  }
}
