/**
 * The card-payment widget (components/payments/MPPaymentBrick.tsx): one idempotency
 * key per order, kept in session storage, a flag that drops submits while one is in
 * flight, and the session cleanup after an approved payment.
 */
module PaymentBrick {
  import opened Text
  import CreatePayment

  /** The session-storage entry that holds the key for an order. */
  function KeyName(orderId: string): (k: string)
    ensures StartsWith(k, "pay_attempt_") && k != "order_id"
  {
    "pay_attempt_" + orderId
  }

  lemma KeyNamesDistinct(o1: string, o2: string)
    requires o1 != o2
    ensures KeyName(o1) != KeyName(o2)
  {
    assert KeyName(o1)[12..] == o1 && KeyName(o2)[12..] == o2;
  }

  /** A non-empty key already stored for the order. */
  function StoredKey(session: map<string, string>, orderId: string): (r: Option<string>)
    ensures r.Some? <==> KeyName(orderId) in session && session[KeyName(orderId)] != ""
    ensures r.Some? ==> r.value == session[KeyName(orderId)]
  {
    var k := KeyName(orderId);
    if k in session && session[k] != "" then Some(session[k]) else None
  }

  /** The memoised key: a stored one if there is one, otherwise the fresh UUID (always so when rendered on the server). */
  function KeyFor(session: map<string, string>, orderId: string, uuid: string, browser: bool): (k: string)
    ensures !browser ==> k == uuid
    ensures browser && StoredKey(session, orderId).Some? ==> k == StoredKey(session, orderId).value
    ensures browser && StoredKey(session, orderId).None? ==> k == uuid
  {
    if browser && StoredKey(session, orderId).Some? then StoredKey(session, orderId).value else uuid
  }

  /** The session after the key was memoised: a fresh key is stored, anything else leaves it as it was. */
  function SessionWithKey(session: map<string, string>, orderId: string, uuid: string, browser: bool): (s: map<string, string>)
    ensures browser && StoredKey(session, orderId).None? ==> s == session[KeyName(orderId) := uuid]
    ensures !(browser && StoredKey(session, orderId).None?) ==> s == session
  {
    if browser && StoredKey(session, orderId).None? then session[KeyName(orderId) := uuid] else session
  }

  /** `cleanupSession`: drops `order_id` and this order's key (nothing on the server). */
  function Cleanup(session: map<string, string>, orderId: string, browser: bool): (s: map<string, string>)
    ensures browser ==> s.Keys == session.Keys - {"order_id", KeyName(orderId)}
    ensures forall k :: k in s ==> k in session && s[k] == session[k]
    ensures !browser ==> s == session
  {
    if browser then session - {"order_id", KeyName(orderId)} else session
  }

  /** A remount for the same order, with whatever fresh UUID, finds the key of the first mount and stores nothing new. */
  lemma KeyStableAcrossRemounts(session: map<string, string>, orderId: string, first: string, later: string)
    requires first != ""
    ensures var s := SessionWithKey(session, orderId, first, true);
            KeyFor(s, orderId, later, true) == KeyFor(session, orderId, first, true)
            && SessionWithKey(s, orderId, later, true) == s
  {
  }

  /** After the cleanup the order's next mount gets a fresh key. */
  lemma CleanupForgetsKey(session: map<string, string>, orderId: string, uuid: string)
    ensures KeyFor(Cleanup(session, orderId, true), orderId, uuid, true) == uuid
    ensures "order_id" !in Cleanup(session, orderId, true)
  {
  }

  /** Memoising the key of one order leaves every other order's key as it was. */
  lemma KeysOfOtherOrdersKept(session: map<string, string>, orderId: string, other: string, uuid: string, browser: bool)
    requires other != orderId
    ensures StoredKey(SessionWithKey(session, orderId, uuid, browser), other) == StoredKey(session, other)
  {
    KeyNamesDistinct(orderId, other);
  }

  /** The card form the widget hands to `onSubmit`. */
  datatype CardForm = CardForm(token: Option<string>, paymentMethodId: Option<string>, issuerId: Option<string>, installments: Option<Num>)

  /** The request posted to the payment endpoint: header key, order id, token, installments and the buyer's e-mail. */
  datatype PaymentPost = PaymentPost(idempotencyKey: string, orderId: string, token: string,
                                     paymentMethodId: Option<string>, issuerId: Option<string>,
                                     installments: Num, payerEmail: string)

  datatype SubmitStart = InFlight | NoToken | Send(post: PaymentPost)

  /** What the payment endpoint answered: HTTP ok, `status`, `payment.status`; or the fetch or the JSON read threw. */
  datatype Answer = Answer(ok: bool, status: Option<string>, paymentStatus: Option<string>) | Failed

  /** The payment counts as approved iff the answer is ok and either status says "approved". */
  predicate Approved(a: Answer) {
    a.Answer? && a.ok && (a.status == Some("approved") || a.paymentStatus == Some("approved"))
  }

  class Brick {
    const orderId: string
    const browser: bool
    const buyerEmail: string
    var session: map<string, string>
    var idempotencyKey: string
    var submitting: bool

    /** Mounting the widget memoises the key for the order. */
    constructor(orderId: string, buyerEmail: string, browser: bool, session: map<string, string>, uuid: string)
      ensures this.orderId == orderId && this.buyerEmail == buyerEmail && this.browser == browser
      ensures idempotencyKey == KeyFor(session, orderId, uuid, browser)
      ensures this.session == SessionWithKey(session, orderId, uuid, browser)
      ensures !submitting
    {
      this.orderId := orderId;
      this.buyerEmail := buyerEmail;
      this.browser := browser;
      idempotencyKey := KeyFor(session, orderId, uuid, browser);
      this.session := SessionWithKey(session, orderId, uuid, browser);
      submitting := false;
    }

    /**
     * The first half of `onSubmit`: a submit while one is in flight is dropped; a form
     * without a token ends the attempt (and the `finally` clears the flag); otherwise the
     * request goes out with the memoised key, the buyer's e-mail and installments
     * defaulting to 1, and the flag stays set until the answer.
     */
    method BeginSubmit(form: CardForm) returns (r: SubmitStart)
      modifies this
      ensures session == old(session) && idempotencyKey == old(idempotencyKey)
      ensures old(submitting) ==> r == InFlight && submitting
      ensures !old(submitting) && !Filled(form.token) ==> r == NoToken && !submitting
      ensures !old(submitting) && Filled(form.token) ==>
                submitting
                && r == Send(PaymentPost(idempotencyKey, orderId, form.token.value, form.paymentMethodId,
                                         form.issuerId, CreatePayment.Installments(form.installments), buyerEmail))
    {
      if submitting {
        return InFlight;
      }
      submitting := true;
      if !Filled(form.token) {
        submitting := false;
        return NoToken;
      }
      r := Send(PaymentPost(idempotencyKey, orderId, form.token.value, form.paymentMethodId,
                            form.issuerId, CreatePayment.Installments(form.installments), buyerEmail));
    }

    /**
     * The second half: on approval the session is cleaned and the browser goes to the
     * confirmation page; any other answer leaves the session. The flag is cleared either way.
     */
    method FinishSubmit(a: Answer) returns (redirect: Option<string>)
      modifies this
      ensures idempotencyKey == old(idempotencyKey) && !submitting
      ensures redirect.Some? <==> Approved(a)
      ensures Approved(a) ==> redirect.value == "/pedido-confirmado?o=" + orderId
                              && session == Cleanup(old(session), orderId, browser)
      ensures !Approved(a) ==> session == old(session)
    {
      if Approved(a) {
        session := Cleanup(session, orderId, browser);
        redirect := Some("/pedido-confirmado?o=" + orderId);
      } else {
        redirect := None;
      }
      submitting := false;
    }

    /** `onError`: the widget's own error clears the flag. */
    method OnError()
      modifies this
      ensures !submitting && session == old(session) && idempotencyKey == old(idempotencyKey)
    {
      submitting := false;
    }
  }

  /** Two submits in a row before any answer send one request: the second is dropped. */
  method SecondSubmitDropped(b: Brick, first: CardForm, second: CardForm) returns (r1: SubmitStart, r2: SubmitStart)
    modifies b
    ensures Filled(first.token) && !old(b.submitting) ==> r1.Send? && r2 == InFlight
  {
    r1 := b.BeginSubmit(first);
    r2 := b.BeginSubmit(second);
  }
}
