/**
 * The Stripe webhook of library/webhooks.py. `stripe.Webhook.construct_event` is a parameter:
 * the verified event, or `None` when the payload does not parse or its signature does not
 * match. `Settle` states what the handler does to the payments table; `StripeWebhook` is the
 * handler itself, which updates the table in place.
 */
module LibraryWebhooks {
  import opened Common
  import opened Tables
  import opened LibraryModels
  import opened Store
  import opened LibraryViews

  const CompletedEvent: string := "checkout.session.completed"
  const ExpiredEvent: string := "checkout.session.expired"

  /** What the handler reads of an event: `event.get("type")` and `event["data"]["object"].get("id")`. */
  datatype StripeEvent = StripeEvent(eventType: string, sessionId: Option<string>)

  /** The response status and the payments table after handling an event. */
  datatype Settlement = Settlement(status: int, payments: map<nat, Payment>)

  /** `Payment.objects.filter(stripe_session_id=sid).first()`. */
  function SessionPayment(payments: map<nat, Payment>, sid: string, bound: nat): Option<nat> {
    FirstMatch(payments, (p: Payment) => p.sessionId == sid, bound)
  }

  /**
   * The session column is not declared in the shown model; this model takes it to hold text
   * and never null, so filtering on a missing id finds nothing.
   */
  function SessionPaymentOf(payments: map<nat, Payment>, sid: Option<string>, bound: nat): Option<nat> {
    if sid.None? then None else SessionPayment(payments, sid.value, bound)
  }

  function WithStatus(payments: map<nat, Payment>, k: nat, status: PaymentStatus): map<nat, Payment>
    requires k in payments
  {
    payments[k := payments[k].(status := status)]
  }

  /** The effect of `stripe_webhook` on the payments table. */
  function Settle(payments: map<nat, Payment>, verified: Option<StripeEvent>, bound: nat): (r: Settlement)
    ensures r.status == HttpOk || r.status == HttpBadRequest
    ensures r.status == HttpBadRequest ==> r.payments == payments
    ensures verified.None? ==> r == Settlement(HttpBadRequest, payments)
    ensures r.payments.Keys == payments.Keys
    ensures r.payments == payments
      || exists k :: k in payments && r.payments == payments[k := payments[k].(status := r.payments[k].status)]
    ensures verified.Some? && verified.value.eventType != CompletedEvent && verified.value.eventType != ExpiredEvent
      ==> r == Settlement(HttpOk, payments)
    ensures verified.Some? && verified.value.eventType == CompletedEvent ==>
      var sid := verified.value.sessionId;
      && (sid.None? || sid.value == "" ==> r == Settlement(HttpBadRequest, payments))
      && (sid.Some? && KeysBelow(payments, bound) ==>
            (r.status == HttpBadRequest <==>
               (sid.value == "" || forall k :: k in payments ==> payments[k].sessionId != sid.value)))
      && (r.status == HttpOk ==>
            var k := SessionPaymentOf(payments, sid, bound);
            k.Some? && payments[k.value].sessionId == sid.value && r.payments[k.value].status == Paid)
    ensures verified.Some? && verified.value.eventType == ExpiredEvent ==> r.status == HttpOk
    ensures verified.Some? && verified.value.eventType == ExpiredEvent && KeysBelow(payments, bound) ==>
      var sid := verified.value.sessionId;
      && ((sid.None? || forall k :: k in payments ==> payments[k].sessionId != sid.value) ==> r.payments == payments)
      && (forall k :: k in payments && sid.Some? && payments[k].sessionId == sid.value
            && (forall j :: j in payments && j < k ==> payments[j].sessionId != sid.value)
            ==> r.payments == payments[k := payments[k].(status := Expired)])
  {
    if verified.None? then Settlement(HttpBadRequest, payments)
    else
      var event := verified.value;
      if event.eventType == CompletedEvent then
        if event.sessionId.None? || event.sessionId.value == "" then Settlement(HttpBadRequest, payments)
        else match SessionPayment(payments, event.sessionId.value, bound)
          case None => Settlement(HttpBadRequest, payments)
          case Some(k) =>
            if payments[k].status == Paid then Settlement(HttpOk, payments)
            else Settlement(HttpOk, WithStatus(payments, k, Paid))
      else if event.eventType == ExpiredEvent then
        match SessionPaymentOf(payments, event.sessionId, bound)
          case None => Settlement(HttpOk, payments)
          case Some(k) => Settlement(HttpOk, WithStatus(payments, k, Expired))
      else Settlement(HttpOk, payments)
  }

  /** `stripe_webhook`, updating the payments table in place. */
  method StripeWebhook(db: Database, verified: Option<StripeEvent>) returns (status: int)
    requires db.Valid()
    modifies db`payments
    ensures db.Valid()
    ensures status == Settle(old(db.payments), verified, db.nextId).status
    ensures db.payments == Settle(old(db.payments), verified, db.nextId).payments
  {
    if verified.None? {
      return HttpBadRequest;
    }
    var event := verified.value;
    if event.eventType == CompletedEvent {
      if event.sessionId.None? || event.sessionId.value == "" {
        return HttpBadRequest;
      }
      var found := SessionPayment(db.payments, event.sessionId.value, db.nextId);
      if found.None? {
        return HttpBadRequest;
      }
      var payment := db.payments[found.value];
      if payment.status == Paid {
        return HttpOk;
      }
      db.payments := db.payments[found.value := payment.(status := Paid)];
      return HttpOk;
    } else if event.eventType == ExpiredEvent {
      var found := SessionPaymentOf(db.payments, event.sessionId, db.nextId);
      if found.Some? {
        var payment := db.payments[found.value];
        db.payments := db.payments[found.value := payment.(status := Expired)];
      }
      return HttpOk;
    }
    return HttpOk;
  }

  /** Writing a status leaves every session id, hence every session lookup, as it was. */
  lemma {:induction false} StatusWriteKeepsLookup(payments: map<nat, Payment>, k: nat, status: PaymentStatus,
                                                 sid: Option<string>, bound: nat)
    requires k in payments
    ensures SessionPaymentOf(WithStatus(payments, k, status), sid, bound) == SessionPaymentOf(payments, sid, bound)
  {
    if sid.Some? {
      var after := WithStatus(payments, k, status);
      FirstMatchAgrees(payments, after, (p: Payment) => p.sessionId == sid.value, bound);
    }
  }

  /**
   * Delivering the same event twice has the effect of delivering it once: a second "completed"
   * finds the payment PAID, a second "expired" writes EXPIRED again.
   */
  lemma SettleIsIdempotent(payments: map<nat, Payment>, verified: Option<StripeEvent>, bound: nat)
    ensures Settle(Settle(payments, verified, bound).payments, verified, bound) == Settle(payments, verified, bound)
  {
    var once := Settle(payments, verified, bound);
    if verified.Some? {
      var event := verified.value;
      var found := SessionPaymentOf(payments, event.sessionId, bound);
      if found.Some? && (event.eventType == CompletedEvent || event.eventType == ExpiredEvent) {
        var k := found.value;
        var status := if event.eventType == CompletedEvent then Paid else Expired;
        if once.payments != payments {
          assert once.payments == WithStatus(payments, k, status);
          StatusWriteKeepsLookup(payments, k, status, event.sessionId, bound);
          assert WithStatus(once.payments, k, status) == once.payments;
        }
      }
    }
  }

  /** A "completed" event for the PENDING payment holding the session marks it PAID. */
  lemma CompletedSettlesPending(payments: map<nat, Payment>, k: nat, sid: string, bound: nat)
    requires KeysBelow(payments, bound) && sid != ""
    requires k in payments && payments[k].sessionId == sid && payments[k].status == Pending
    requires forall j :: j in payments && j != k ==> payments[j].sessionId != sid
    ensures Settle(payments, Some(StripeEvent(CompletedEvent, Some(sid))), bound)
         == Settlement(HttpOk, payments[k := payments[k].(status := Paid)])
  {
    FirstMatchUnique(payments, (p: Payment) => p.sessionId == sid, bound, k);
  }

  /** PAID absorbs "completed" events: the handler answers 200 and changes nothing. */
  lemma PaidAbsorbsCompleted(payments: map<nat, Payment>, k: nat, sid: string, bound: nat)
    requires KeysBelow(payments, bound) && sid != ""
    requires k in payments && payments[k].sessionId == sid && payments[k].status == Paid
    requires forall j :: j in payments && j != k ==> payments[j].sessionId != sid
    ensures Settle(payments, Some(StripeEvent(CompletedEvent, Some(sid))), bound) == Settlement(HttpOk, payments)
  {
    FirstMatchUnique(payments, (p: Payment) => p.sessionId == sid, bound, k);
  }

  /** An "expired" event overwrites whatever status the payment had, PAID included. */
  lemma ExpiredOverwritesAnyStatus(payments: map<nat, Payment>, k: nat, sid: string, bound: nat)
    requires KeysBelow(payments, bound)
    requires k in payments && payments[k].sessionId == sid
    requires forall j :: j in payments && j != k ==> payments[j].sessionId != sid
    ensures Settle(payments, Some(StripeEvent(ExpiredEvent, Some(sid))), bound)
         == Settlement(HttpOk, payments[k := payments[k].(status := Expired)])
  {
    FirstMatchUnique(payments, (p: Payment) => p.sessionId == sid, bound, k);
  }

  /**
   * library/tests/test_stripe_webhooks.py expects 200 for a "completed" event with an unknown
   * session; the handler answers 400.
   */
  lemma UnknownCompletedSessionIsRejected(payments: map<nat, Payment>, sid: string, bound: nat)
    requires KeysBelow(payments, bound)
    requires forall j :: j in payments ==> payments[j].sessionId != sid
    ensures Settle(payments, Some(StripeEvent(CompletedEvent, Some(sid))), bound) == Settlement(HttpBadRequest, payments)
  {
  }

  /**
   * The session a renewal obtains is never stored as the payment's session id, so when Stripe
   * later reports it completed, no payment matches and nothing is settled.
   */
  lemma RenewedSessionCannotSettle(payments: map<nat, Payment>, k: nat, session: CheckoutSession, bound: nat)
    requires KeysBelow(payments, bound) && k in payments
    requires forall j :: j in payments ==> payments[j].sessionId != session.id
    ensures var renewed := payments[k := RenewedAsWritten(payments[k], session)];
      Settle(renewed, Some(StripeEvent(CompletedEvent, Some(session.id))), bound) == Settlement(HttpBadRequest, renewed)
  {
    var renewed := payments[k := RenewedAsWritten(payments[k], session)];
    assert forall j :: j in renewed ==> renewed[j].sessionId == payments[j].sessionId;
  }
}
