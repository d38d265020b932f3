/** The payment routes (backend/routes/payments.js) over the booking store.
    Stripe's answers are parameters: the intent it creates, the intent it
    reports back, whether it accepts a refund, and the event a verified
    webhook carries. */
module Payments {
  import opened Common
  import opened Money
  import opened BookingModel
  import opened Bookings

  /** What Stripe returns from paymentIntents.create. */
  datatype CreatedIntent = CreatedIntent(id: string, clientSecret: string)

  /** What Stripe reports from paymentIntents.retrieve: its status and amount in cents. */
  datatype IntentSnapshot = IntentSnapshot(status: string, amountCents: int)

  const Succeeded: string := "succeeded"

  /** A webhook event whose signature verified. */
  datatype WebhookEvent =
    | IntentSucceeded(intentId: string, amountCents: int)
    | IntentPaymentFailed(intentId: string)
    | OtherEvent(kind: string)

  /** create-payment-intent: the intent id and the recomputed totals are stored. */
  function WithIntent(b: Booking, intentId: string, t: Totals): Booking {
    b.(paymentIntentId := Some(intentId), totalAmount := t.totalAmount, taxAmount := t.taxAmount,
       serviceCharge := t.serviceCharge)
  }

  /** A succeeded intent, on confirm-payment and on the webhook alike. */
  function MarkPaid(b: Booking, amountCents: int): Booking {
    b.(paymentStatus := Paid, status := Confirmed, amountPaid := FromCents(amountCents))
  }

  /** payment_intent.payment_failed: only the payment status changes. */
  function MarkFailed(b: Booking): Booking {
    b.(paymentStatus := PaymentFailed)
  }

  /** A processed refund cancels the booking. */
  function MarkRefunded(b: Booking, reason: string, now: int): Booking {
    b.(paymentStatus := Refunded, status := Cancelled, cancellationReason := Some(reason),
       cancellationDate := Some(now))
  }

  /** The charge that create-payment-intent sends for a client-supplied amount:
      the defaulted totals of that amount, in cents, in "usd". */
  function ChargeFor(amount: real, bookingId: BookingId, userId: UserId): IntentRequest {
    PaymentIntentRequest(DefaultTotals(amount).totalAmount, Some("usd"), bookingId, userId)
  }

  /** The stored total is charged to the cent, and when Stripe reports that
      charge back, the amount recorded as paid equals the stored total. */
  lemma {:induction false} ChargeMatchesStoredTotal(b: Booking, intentId: string, amount: real,
                                                    bookingId: BookingId, userId: UserId)
    ensures var t := DefaultTotals(amount);
      && FromCents(ChargeFor(amount, bookingId, userId).amountCents) == t.totalAmount
      && MarkPaid(WithIntent(b, intentId, t), ChargeFor(amount, bookingId, userId).amountCents).amountPaid
         == WithIntent(b, intentId, t).totalAmount
  {
    CentsRoundTrip(DefaultTotals(amount).totalAmount);
  }

  /** Confirming twice with the same report gives the state of confirming once,
      so confirm-payment followed by the webhook for the same intent agree. */
  lemma MarkPaidIdempotent(b: Booking, amountCents: int)
    ensures MarkPaid(MarkPaid(b, amountCents), amountCents) == MarkPaid(b, amountCents)
  {
  }

  /** No payment transition makes the payment pending again. */
  lemma NoReturnToPaymentPending(b: Booking, intentId: string, t: Totals, cents: int, reason: string, now: int)
    ensures MarkPaid(b, cents).paymentStatus != PaymentPending
    ensures MarkFailed(b).paymentStatus != PaymentPending
    ensures MarkRefunded(b, reason, now).paymentStatus != PaymentPending
  {
  }

  /** Binding an intent leaves both statuses alone, and a refunded booking is
      no longer paid, so a second refund of it is refused. */
  lemma BindingKeepsStatusesAndRefundIsFinal(b: Booking, intentId: string, t: Totals, reason: string, now: int)
    ensures WithIntent(b, intentId, t).status == b.status
    ensures WithIntent(b, intentId, t).paymentStatus == b.paymentStatus
    ensures WithIntent(b, intentId, t).paymentIntentId == Some(intentId)
    ensures MarkRefunded(b, reason, now).paymentStatus != Paid
    ensures MarkRefunded(b, reason, now).status == Cancelled
  {
  }

  /** Two bookings of one slot, the second already cancelled after its
      owner bound the intent "pi_1" to it. */
  function CancelledTwinStore(): map<BookingId, Booking> {
    var g := GuestDetails("A", "B", "a@b.c", "1");
    var first := NewBooking(1, 7, Double, 0, DayMs, Guests(1, 0), 100.0, 10.0, 5.0, g, None, CreditCard);
    map[0 := first, 1 := first.(user := 2, status := Cancelled, paymentIntentId := Some("pi_1"))]
  }

  /** confirm-payment has no status guard. In the store above, booking 1 is
      the first bound to "pi_1", its owner is user 2 and marking it paid passes
      the save check, so by ConfirmPayment's contract user 2's confirm of a
      succeeded "pi_1" answers Ok and stores exactly the map below: two
      confirmed-or-pending bookings then hold one room for the same nights. */
  lemma ConfirmingCancelledBookingDoubleBooks()
    ensures NoDoubleBooking(CancelledTwinStore())
    ensures var m := CancelledTwinStore();
      && m[0].paymentIntentId != Some("pi_1") && m[1].paymentIntentId == Some("pi_1")
      && m[1].user == 2 && m[1].status == Cancelled
      && CanSave(MarkPaid(m[1], 11500), 0)
    ensures !NoDoubleBooking(CancelledTwinStore()[1 := MarkPaid(CancelledTwinStore()[1], 11500)])
  {
    var m := CancelledTwinStore();
    var m' := m[1 := MarkPaid(m[1], 11500)];
    assert Collide(m'[0], m'[1]);
  }

  /** The webhook for a failed payment overwrites a recorded payment. */
  lemma FailedEventOverwritesPaid(b: Booking)
    requires b.paymentStatus == Paid
    ensures MarkFailed(b).paymentStatus == PaymentFailed && MarkFailed(b).status == b.status
    ensures MarkFailed(b).amountPaid == b.amountPaid
  {
  }

  /** POST /create-payment-intent: validation, lookup, ownership (no admin
      bypass), totals recomputed from the client's amount, the Stripe intent,
      then the save. The returned charge is the Stripe call made, if any. */
  method CreatePaymentIntent(store: BookingStore, principal: Principal, bookingId: Option<BookingId>,
                             amount: real, stripe: Option<CreatedIntent>, now: int)
    returns (reply: Reply, charge: Option<IntentRequest>, totals: Option<Totals>)
    requires store.Valid()
    modifies store`bookings
    ensures store.Valid()
    ensures reply in {Ok, BadRequest, Forbidden, NotFound, ServerError}
    ensures bookingId.None? || amount < 0.01 ==> reply == BadRequest && charge.None?
    ensures (bookingId.Some? && 0.01 <= amount && bookingId.value !in old(store.bookings)) ==>
              reply == NotFound && charge.None?
    ensures (bookingId.Some? && 0.01 <= amount && bookingId.value in old(store.bookings)
             && old(store.bookings)[bookingId.value].user != principal.id) ==> reply == Forbidden && charge.None?
    ensures charge.Some? <==>
              bookingId.Some? && 0.01 <= amount && bookingId.value in old(store.bookings)
              && old(store.bookings)[bookingId.value].user == principal.id
    ensures charge.Some? ==> charge == Some(ChargeFor(amount, bookingId.value, principal.id))
    ensures charge.Some? && stripe.None? ==> reply == ServerError
    ensures reply == Ok <==>
              charge.Some? && stripe.Some?
              && CanSave(WithIntent(old(store.bookings)[bookingId.value], stripe.value.id, DefaultTotals(amount)), now)
    ensures reply == Ok ==>
              bookingId.Some? && bookingId.value in old(store.bookings) && stripe.Some?
              && totals == Some(DefaultTotals(amount))
              && store.bookings == old(store.bookings)[bookingId.value :=
                   WithIntent(old(store.bookings)[bookingId.value], stripe.value.id, DefaultTotals(amount))]
    ensures reply != Ok ==> store.bookings == old(store.bookings)
    ensures old(NoDoubleBooking(store.bookings)) ==> NoDoubleBooking(store.bookings)
  {
    charge, totals := None, None;
    if bookingId.None? || amount < 0.01 {
      return BadRequest, charge, totals;
    }
    var id := bookingId.value;
    if id !in store.bookings {
      return NotFound, charge, totals;
    }
    var b := store.bookings[id];
    if b.user != principal.id {
      return Forbidden, charge, totals;
    }
    var t := DefaultTotals(amount);
    charge := Some(ChargeFor(amount, id, principal.id));
    if stripe.None? {
      return ServerError, charge, totals;
    }
    var b' := WithIntent(b, stripe.value.id, t);
    if NoDoubleBooking(store.bookings) {
      UpdateInPlacePreservesNoDoubleBooking(store.bookings, id, b');
    }
    var saved := store.Save(id, b', now);
    if !saved {
      return ServerError, charge, totals;
    }
    totals := Some(t);
    reply := Ok;
  }

  /** POST /confirm-payment: the intent is retrieved first, then the booking
      bound to it is looked up and its owner checked. A succeeded intent marks
      the booking paid and confirmed whatever its status was, and the
      confirmation email is awaited outside any guard: when it fails the
      route answers 500 although the save went through. */
  method ConfirmPayment(store: BookingStore, principal: Principal, intentId: string,
                        retrieved: Option<IntentSnapshot>, now: int, emailDelivered: bool)
    returns (reply: Reply, booking: Option<BookingId>)
    requires store.Valid()
    modifies store`bookings, store`outbox
    ensures store.Valid()
    ensures reply in {Ok, BadRequest, Forbidden, NotFound, ServerError}
    ensures intentId == "" ==> reply == BadRequest
    ensures intentId != "" && retrieved.None? ==> reply == ServerError
    ensures (intentId != "" && retrieved.Some?
             && forall id :: id in old(store.bookings) ==> old(store.bookings)[id].paymentIntentId != Some(intentId))
            ==> reply == NotFound
    ensures intentId != "" && retrieved.Some? ==>
              (booking.None? <==> forall id :: id in old(store.bookings) ==> old(store.bookings)[id].paymentIntentId != Some(intentId))
    ensures booking.Some? ==>
              intentId != "" && retrieved.Some?
              && booking.value in old(store.bookings)
              && old(store.bookings)[booking.value].paymentIntentId == Some(intentId)
              && (forall j :: j in old(store.bookings) && j < booking.value ==>
                    old(store.bookings)[j].paymentIntentId != Some(intentId))
    ensures booking.Some? && old(store.bookings)[booking.value].user != principal.id ==> reply == Forbidden
    ensures reply == Ok <==>
              booking.Some? && old(store.bookings)[booking.value].user == principal.id
              && (retrieved.value.status == Succeeded ==>
                    CanSave(MarkPaid(old(store.bookings)[booking.value], retrieved.value.amountCents), now) && emailDelivered)
    ensures (booking.Some? && old(store.bookings)[booking.value].user == principal.id
             && retrieved.value.status == Succeeded
             && CanSave(MarkPaid(old(store.bookings)[booking.value], retrieved.value.amountCents), now))
            ==> store.bookings == old(store.bookings)[booking.value :=
                                    MarkPaid(old(store.bookings)[booking.value], retrieved.value.amountCents)]
                && store.outbox == old(store.outbox) + (if emailDelivered
                    then [Email(BookingConfirmation, old(store.bookings)[booking.value].guestDetails.email, booking.value)]
                    else [])
    ensures !(booking.Some? && old(store.bookings)[booking.value].user == principal.id
              && retrieved.value.status == Succeeded
              && CanSave(MarkPaid(old(store.bookings)[booking.value], retrieved.value.amountCents), now))
            ==> store.bookings == old(store.bookings) && store.outbox == old(store.outbox)
  {
    booking := None;
    if intentId == "" {
      return BadRequest, booking;
    }
    if retrieved.None? {
      return ServerError, booking;
    }
    booking := store.FindByIntent(intentId);
    if booking.None? {
      return NotFound, booking;
    }
    var id := booking.value;
    var b := store.bookings[id];
    if b.user != principal.id {
      return Forbidden, booking;
    }
    if retrieved.value.status == Succeeded {
      var saved := store.Save(id, MarkPaid(b, retrieved.value.amountCents), now);
      if !saved {
        return ServerError, booking;
      }
      store.Send(BookingConfirmation, b.guestDetails.email, id, emailDelivered);
      if !emailDelivered {
        return ServerError, booking;
      }
    }
    reply := Ok;
  }

  /** POST /refund: validation, lookup, ownership and the "paid" guard; the
      Stripe refund is requested before the booking is saved, so a save that
      then fails leaves a refunded charge behind a booking still marked paid. */
  method Refund(store: BookingStore, principal: Principal, bookingId: Option<BookingId>, reason: string,
                amount: Option<real>, refundAccepted: bool, now: int)
    returns (reply: Reply, issued: Option<RefundRequest>)
    requires store.Valid()
    modifies store`bookings
    ensures store.Valid()
    ensures reply in {Ok, BadRequest, Forbidden, NotFound, ServerError}
    ensures bookingId.None? || reason == "" ==> reply == BadRequest && issued.None?
    ensures (bookingId.Some? && reason != "" && bookingId.value !in old(store.bookings)) ==> reply == NotFound
    ensures (bookingId.Some? && reason != "" && bookingId.value in old(store.bookings)
             && old(store.bookings)[bookingId.value].user != principal.id) ==> reply == Forbidden
    ensures (bookingId.Some? && reason != "" && bookingId.value in old(store.bookings)
             && old(store.bookings)[bookingId.value].user == principal.id
             && old(store.bookings)[bookingId.value].paymentStatus != Paid) ==> reply == BadRequest
    ensures issued.Some? <==>
              bookingId.Some? && reason != "" && bookingId.value in old(store.bookings)
              && old(store.bookings)[bookingId.value].user == principal.id
              && old(store.bookings)[bookingId.value].paymentStatus == Paid
    ensures issued.Some? ==>
              issued == Some(RefundRequestFor(old(store.bookings)[bookingId.value].paymentIntentId, amount))
    ensures reply == Ok <==>
              issued.Some? && refundAccepted
              && CanSave(MarkRefunded(old(store.bookings)[bookingId.value], reason, now), now)
    ensures reply == Ok ==>
              bookingId.Some? && bookingId.value in old(store.bookings)
              && store.bookings == old(store.bookings)[bookingId.value :=
                                     MarkRefunded(old(store.bookings)[bookingId.value], reason, now)]
    ensures reply != Ok ==> store.bookings == old(store.bookings)
    ensures old(NoDoubleBooking(store.bookings)) ==> NoDoubleBooking(store.bookings)
  {
    issued := None;
    if bookingId.None? || reason == "" {
      return BadRequest, issued;
    }
    var id := bookingId.value;
    if id !in store.bookings {
      return NotFound, issued;
    }
    var b := store.bookings[id];
    if b.user != principal.id {
      return Forbidden, issued;
    }
    if b.paymentStatus != Paid {
      return BadRequest, issued;
    }
    issued := Some(RefundRequestFor(b.paymentIntentId, amount));
    if !refundAccepted {
      return ServerError, issued;
    }
    var b' := MarkRefunded(b, reason, now);
    if NoDoubleBooking(store.bookings) {
      UpdateInPlacePreservesNoDoubleBooking(store.bookings, id, b');
    }
    var saved := store.Save(id, b', now);
    reply := if saved then Ok else ServerError;
  }

  /** A refund requested once the check-in date has passed is sent to Stripe,
      but the pre-save hook then refuses the booking, so it stays paid. */
  lemma RefundAfterCheckInCannotBeRecorded(b: Booking, reason: string, now: int)
    requires b.checkIn < now
    ensures !CanSave(MarkRefunded(b, reason, now), now)
    ensures !CanSave(MarkPaid(b, 0), now)
  {
  }

  /** The rewrite a handled event applies to its booking. */
  function Applied(e: WebhookEvent, b: Booking): Booking
    requires !e.OtherEvent?
  {
    if e.IntentSucceeded? then MarkPaid(b, e.amountCents) else MarkFailed(b)
  }

  /** POST /webhook: an unverifiable event, or a save that fails, answers 400;
      events for unknown intents and other event types are acknowledged. The
      booking the event applied to is returned; there is no ownership check. */
  method Webhook(store: BookingStore, event: Option<WebhookEvent>, now: int)
    returns (reply: Reply, target: Option<BookingId>)
    requires store.Valid()
    modifies store`bookings
    ensures store.Valid()
    ensures reply in {Ok, BadRequest}
    ensures event.None? ==> reply == BadRequest && target.None?
    ensures event.Some? && event.value.OtherEvent? ==> reply == Ok && target.None?
    ensures event.Some? && !event.value.OtherEvent? ==>
              (target.None? <==> forall id :: id in old(store.bookings) ==>
                                   old(store.bookings)[id].paymentIntentId != Some(event.value.intentId))
    ensures target.Some? ==>
              event.Some? && !event.value.OtherEvent?
              && target.value in old(store.bookings)
              && old(store.bookings)[target.value].paymentIntentId == Some(event.value.intentId)
              && (forall j :: j in old(store.bookings) && j < target.value ==>
                    old(store.bookings)[j].paymentIntentId != Some(event.value.intentId))
    ensures target.None? && event.Some? ==> reply == Ok
    ensures target.Some? ==>
              (reply == Ok <==> CanSave(Applied(event.value, old(store.bookings)[target.value]), now))
    ensures reply == Ok && target.Some? ==>
              store.bookings == old(store.bookings)[target.value := Applied(event.value, old(store.bookings)[target.value])]
    ensures reply == BadRequest || target.None? ==> store.bookings == old(store.bookings)
    ensures (event.Some? && event.value.IntentPaymentFailed? && old(NoDoubleBooking(store.bookings)))
            ==> NoDoubleBooking(store.bookings)
  {
    target := None;
    if event.None? {
      return BadRequest, target;
    }
    match event.value
    case OtherEvent(_) =>
      reply := Ok;
    case IntentSucceeded(intentId, cents) =>
      target := store.FindByIntent(intentId);
      if target.Some? {
        var saved := store.Save(target.value, MarkPaid(store.bookings[target.value], cents), now);
        if !saved {
          return BadRequest, target;
        }
      }
      reply := Ok;
    case IntentPaymentFailed(intentId) =>
      target := store.FindByIntent(intentId);
      if target.Some? {
        var b' := MarkFailed(store.bookings[target.value]);
        if NoDoubleBooking(store.bookings) {
          UpdateInPlacePreservesNoDoubleBooking(store.bookings, target.value, b');
        }
        var saved := store.Save(target.value, b', now);
        if !saved {
          return BadRequest, target;
        }
      }
      reply := Ok;
  }
}
