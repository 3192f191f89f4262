/**
 * The card-payment endpoint (app/api/mp/create-payment/route.ts): it validates the
 * request, charges the stored order total through the payment processor and records
 * the processor's answer on the order.
 *
 * Environment variables, the request body, the order read, the processor call and the
 * order write are all parameters: each is what that step returned.
 */
module CreatePayment {
  import opened Text

  /** The environment variables the handler reads; `None` is an unset variable. */
  datatype Env = Env(supabaseUrl: Option<string>, serviceRoleKey: Option<string>, mpAccessToken: Option<string>)

  /** The card form the payment widget posts; `token` is `None` when absent or not a string. */
  datatype CardForm = CardForm(
    token: Option<string>, installments: Option<Num>, paymentMethodId: Option<string>,
    issuerId: Option<string>, payerEmail: Option<string>, payerIdentification: Option<string>)

  /** The parsed body; `None` for a body that is not JSON. */
  datatype Body = Body(orderId: Option<string>, formData: Option<CardForm>)

  /** The columns of the order the handler reads. */
  datatype OrderRecord = OrderRecord(total: Num, customerEmail: Option<string>)

  /**
   * What is sent to the processor. `metadataOrderId` is the `metadata.orderId` the
   * processor would keep with the payment; this handler never sets it.
   */
  datatype PaymentRequest = PaymentRequest(
    amount: real, token: string, installments: Num, paymentMethodId: Option<string>,
    issuerId: Option<string>, payerEmail: Option<string>, payerIdentification: Option<string>,
    description: string, metadataOrderId: Option<string>, idempotencyKey: string)

  /** The processor's answer to the create call, or an exception. */
  datatype ProcessorAnswer = Created(id: Option<string>, status: Option<string>, statusDetail: Option<string>) | Threw

  /** The processor's own record of a payment, as a later lookup returns it. */
  datatype ProcessorPayment = ProcessorPayment(id: Option<string>, status: Option<string>, metadataOrderId: Option<string>)

  /** The columns written on the order after the processor answered. */
  datatype OrderUpdate = OrderUpdate(mpPaymentId: string, mpStatus: Option<string>, mpStatusDetail: Option<string>, paymentStatus: string)

  datatype ResponseBody = ErrorBody(error: string) | PaymentBody(id: string, status: Option<string>, statusDetail: Option<string>)

  /** The HTTP answer, the request sent to the processor (if any) and the order write (if any). */
  datatype Outcome = Outcome(httpStatus: int, body: ResponseBody, sent: Option<PaymentRequest>, update: Option<OrderUpdate>)

  /** `x-idempotency-key` header, or a fresh UUID when the header is missing or empty. */
  function IdempotencyKey(header: Option<string>, uuid: string): (k: string)
    ensures Filled(header) ==> k == header.value
    ensures !Filled(header) ==> k == uuid
  {
    if Filled(header) then header.value else uuid
  }

  /** The order's `payment_status` for the processor's status: approved is paid, rejected stays rejected, anything else is pending. */
  function PaymentStatusFor(mpStatus: Option<string>): (s: string)
    ensures s == "paid" <==> mpStatus == Some("approved")
    ensures s == "rejected" <==> mpStatus == Some("rejected")
    ensures s == "pending" <==> mpStatus != Some("approved") && mpStatus != Some("rejected")
  {
    if mpStatus == Some("approved") then "paid"
    else if mpStatus == Some("rejected") then "rejected"
    else "pending"
  }

  /** `Number(formData.installments || 1)`: a missing, zero or NaN count becomes 1. */
  function Installments(x: Option<Num>): (n: Num)
    ensures Truthy(n)
    ensures x.Some? && Truthy(x.value) ==> n == x.value
  {
    if x.Some? && Truthy(x.value) then x.value else Fin(1.0)
  }

  predicate EnvReady(env: Env) {
    Filled(env.supabaseUrl) && Filled(env.serviceRoleKey) && Filled(env.mpAccessToken)
  }

  predicate BodyValid(body: Option<Body>) {
    body.Some? && Filled(body.value.orderId) && body.value.formData.Some?
  }

  /** The payment request for a validated body and order, as the handler builds it. */
  function BuildRequest(orderId: string, form: CardForm, order: OrderRecord, key: string): (q: PaymentRequest)
    requires Truthy(order.total) && Filled(form.token)
    ensures q.amount == order.total.v && q.token == form.token.value && q.idempotencyKey == key
    ensures Truthy(q.installments)
    ensures q.payerEmail == (if Filled(order.customerEmail) then order.customerEmail else form.payerEmail)
    ensures q.description == "Pago de orden " + orderId
    ensures q.metadataOrderId.None?
  {
    PaymentRequest(
      order.total.v, form.token.value, Installments(form.installments), form.paymentMethodId,
      form.issuerId, if Filled(order.customerEmail) then order.customerEmail else form.payerEmail,
      form.payerIdentification, "Pago de orden " + orderId, None, key)
  }

  /**
   * `POST`: env, then body, then order, then amount, then token; each failure answers
   * without calling the processor. A processor exception answers 500. Otherwise the
   * order is updated (`updateOk` is that write's result, which is only logged) and the
   * processor's id, status and detail are returned.
   */
  function Post(env: Env, header: Option<string>, uuid: string, body: Option<Body>,
                order: Option<OrderRecord>, answer: ProcessorAnswer, updateOk: bool): (r: Outcome)
    ensures !Filled(env.supabaseUrl) || !Filled(env.serviceRoleKey) || !Filled(env.mpAccessToken) ==>
              r.httpStatus == 500 && r.sent.None? && r.update.None?
    ensures EnvReady(env) && !BodyValid(body) ==> r.httpStatus == 400 && r.sent.None? && r.update.None?
    ensures EnvReady(env) && BodyValid(body) && order.None? ==> r.httpStatus == 404 && r.sent.None? && r.update.None?
    ensures EnvReady(env) && BodyValid(body) && order.Some? && !Truthy(order.value.total) ==>
              r.httpStatus == 400 && r.sent.None? && r.update.None?
    ensures EnvReady(env) && BodyValid(body) && order.Some? && Truthy(order.value.total)
            && !Filled(body.value.formData.value.token) ==>
              r.httpStatus == 400 && r.sent.None? && r.update.None?
    ensures r.sent.Some? <==>
              EnvReady(env) && BodyValid(body) && order.Some? && Truthy(order.value.total)
              && Filled(body.value.formData.value.token)
    ensures r.sent.Some? ==> r.sent.value.amount == order.value.total.v
                             && r.sent.value.idempotencyKey == IdempotencyKey(header, uuid)
    ensures r.sent.Some? && answer.Threw? ==> r.httpStatus == 500 && r.body.ErrorBody? && r.update.None?
    ensures r.httpStatus == 200 <==> r.sent.Some? && answer.Created?
    ensures r.httpStatus == 200 ==>
              var id := OrElse(answer.id, "");
              r.body == PaymentBody(id, answer.status, answer.statusDetail)
              && r.update == Some(OrderUpdate(id, answer.status, answer.statusDetail, PaymentStatusFor(answer.status)))
  {
    var key := IdempotencyKey(header, uuid);
    if !Filled(env.supabaseUrl) || !Filled(env.serviceRoleKey) then
      Outcome(500, ErrorBody("Faltan env de Supabase (URL o SERVICE_ROLE_KEY)"), None, None)
    else if !Filled(env.mpAccessToken) then
      Outcome(500, ErrorBody("Falta MP_ACCESS_TOKEN en env"), None, None)
    else if !BodyValid(body) then
      Outcome(400, ErrorBody("Body inválido. Requiere { orderId, formData }"), None, None)
    else if order.None? then
      Outcome(404, ErrorBody("Orden no encontrada"), None, None)
    else if !Truthy(order.value.total) then
      Outcome(400, ErrorBody("Monto inválido en la orden"), None, None)
    else if !Filled(body.value.formData.value.token) then
      Outcome(400, ErrorBody("Token de tarjeta ausente/ inválido"), None, None)
    else
      var request := BuildRequest(body.value.orderId.value, body.value.formData.value, order.value, key);
      match answer
      case Threw => Outcome(500, ErrorBody("Error procesando pago"), Some(request), None)
      case Created(id, status, detail) =>
        var paymentId := OrElse(id, "");
        Outcome(200, PaymentBody(paymentId, status, detail), Some(request),
                Some(OrderUpdate(paymentId, status, detail, PaymentStatusFor(status))))
  }

  /** A negative order total passes the amount check and is sent to the processor as is. */
  lemma NegativeTotalIsCharged(env: Env, header: Option<string>, uuid: string, orderId: string, form: CardForm,
                               total: real, email: Option<string>, answer: ProcessorAnswer, updateOk: bool)
    requires EnvReady(env) && orderId != [] && Filled(form.token) && total < 0.0
    ensures var r := Post(env, header, uuid, Some(Body(Some(orderId), Some(form))),
                          Some(OrderRecord(Fin(total), email)), answer, updateOk);
            r.sent.Some? && r.sent.value.amount == total
  {
  }

  /** Whether the order write succeeded changes neither the status nor the body of the answer. */
  lemma UpdateErrorNotReported(env: Env, header: Option<string>, uuid: string, body: Option<Body>,
                               order: Option<OrderRecord>, answer: ProcessorAnswer)
    ensures var a := Post(env, header, uuid, body, order, answer, true);
            var b := Post(env, header, uuid, body, order, answer, false);
            a.httpStatus == b.httpStatus && a.body == b.body
  {
  }

  /** The processor keeps a created payment with the metadata of the request that created it. */
  function Recorded(q: PaymentRequest, answer: ProcessorAnswer): (p: ProcessorPayment)
    requires answer.Created?
    ensures p.id == answer.id && p.status == answer.status && p.metadataOrderId == q.metadataOrderId
  {
    ProcessorPayment(answer.id, answer.status, q.metadataOrderId)
  }

  /** Every payment this handler creates is recorded without an order reference. */
  lemma CreatedPaymentsCarryNoOrder(env: Env, header: Option<string>, uuid: string, body: Option<Body>,
                                    order: Option<OrderRecord>, answer: ProcessorAnswer, updateOk: bool)
    requires answer.Created?
    ensures var r := Post(env, header, uuid, body, order, answer, updateOk);
            r.sent.Some? ==> !Filled(Recorded(r.sent.value, answer).metadataOrderId)
  {
  }

  /** The request the handler evidently means to send: the same, with the order id as metadata. */
  function RequestWithOrder(orderId: string, form: CardForm, order: OrderRecord, key: string): (q: PaymentRequest)
    requires Truthy(order.total) && Filled(form.token)
    ensures q.metadataOrderId == Some(orderId)
    ensures q.amount == order.total.v && q.idempotencyKey == key
  {
    BuildRequest(orderId, form, order, key).(metadataOrderId := Some(orderId))
  }
}
