/** A guest's journey through the back end on concrete dates: two stays that
    meet on one day, payment through both the client and the webhook, then
    cancellation. Dates are milliseconds since the epoch (UTC midnights in 2024). */
module Scenario {
  import opened Common
  import opened Money
  import opened BookingModel
  import opened HotelModel
  import opened Bookings
  import opened Payments

  const Feb1: int := 1706745600000
  const Mar1: int := 1709251200000
  const Mar3: int := 1709424000000
  const Mar5: int := 1709596800000

  const Alice: Principal := Principal(1, UserRole)
  const Bob: Principal := Principal(2, UserRole)
  const InnId: HotelId := 7

  function Inn(): Hotel {
    NewHotel("Harbor Inn", "Rooms by the sea", [NewRoom(Double, 100.0, 2, None)])
  }

  function Catalog(): map<HotelId, Hotel> {
    map[InnId := Inn()]
  }

  function Guest(name: string): GuestDetails {
    GuestDetails(name, "Doe", name + "@example.com", "555-0100")
  }

  function Stay(who: string, checkIn: int, checkOut: int): BookingRequest {
    BookingRequest(InnId, Double, checkIn, checkOut, 1, None, Guest(who), true, None, None)
  }

  lemma InnOffersDouble()
    ensures HotelOpen(Catalog(), InnId)
    ensures FindRoom(Catalog()[InnId].rooms, Double) == Some(NewRoom(Double, 100.0, 2, None))
  {
    assert FirstRoomIndex(Catalog()[InnId].rooms, Double) == 0;
  }

  /** Two nights at 100 are priced 200 + 20 tax + 10 service = 230. */
  lemma TwoNightsAtHundred()
    ensures Nights(Mar1, Mar3) == 2
    ensures DefaultTotals(200.0) == Totals(200.0, 20.0, 10.0, 230.0)
  {
    assert (-(Mar3 - Mar1)) / DayMs == -2;
    assert RoundHalfAway(200.0 * 100.0) == 20000;
    assert RoundHalfAway(200.0 * 0.1 * 100.0) == 2000;
    assert RoundHalfAway(200.0 * 0.05 * 100.0) == 1000;
    assert RoundHalfAway((200.0 + 200.0 * 0.1 + 200.0 * 0.05) * 100.0) == 23000;
  }

  /** Alice books March 1 to 3; Bob's stay from March 3, the day Alice leaves,
      is refused because the inclusive bounds make the two stays collide. */
  method BackToBackIsRefused() returns (first: Reply, second: Reply, totals: Option<Totals>)
    ensures first == Created && totals == Some(Totals(200.0, 20.0, 10.0, 230.0))
    ensures second == BadRequest
  {
    var store := new BookingStore();
    InnOffersDouble();
    TwoNightsAtHundred();
    var id;
    first, id, totals := store.Create(Alice, Stay("Alice", Mar1, Mar3), Catalog(), Feb1, true);
    assert Blocks(store.bookings[id], InnId, Double, Mar3, Mar5);
    var t;
    second, id, t := store.Create(Bob, Stay("Bob", Mar3, Mar5), Catalog(), Feb1, true);
  }

  /** Alice's booking as the create route stores it. */
  function AliceBooking(): Booking {
    Candidate(Alice.id, Stay("Alice", Mar1, Mar3), NewRoom(Double, 100.0, 2, None))
  }

  function AlicePaid(): Booking {
    MarkPaid(WithIntent(AliceBooking(), "pi_1", DefaultTotals(200.0)), 23000)
  }

  /** Alice books March 1 to 3 in an empty store. */
  method BookAlice() returns (store: BookingStore, booked: Reply)
    ensures fresh(store) && store.Valid()
    ensures booked == Created
    ensures store.bookings == map[0 := AliceBooking()]
  {
    store := new BookingStore();
    InnOffersDouble();
    TwoNightsAtHundred();
    var id, totals;
    booked, id, totals := store.Create(Alice, Stay("Alice", Mar1, Mar3), Catalog(), Feb1, true);
  }

  /** Alice books and asks for a payment intent; the charge is 23000 cents. */
  method BookAndBind() returns (store: BookingStore, booked: Reply, intent: Reply, charge: Option<IntentRequest>)
    ensures fresh(store) && store.Valid()
    ensures booked == Created && intent == Ok
    ensures charge.Some? && charge.value.amountCents == 23000 && charge.value.currency == "usd"
    ensures store.bookings == map[0 := WithIntent(AliceBooking(), "pi_1", DefaultTotals(200.0))]
  {
    store, booked := BookAlice();
    TwoNightsAtHundred();
    var t;
    intent, charge, t := CreatePaymentIntent(store, Alice, Some(0), 200.0, Some(CreatedIntent("pi_1", "secret_1")), Feb1);
    assert ToCents(230.0) == 23000;
  }

  /** The client's confirm records 230 as paid and sends one email; the
      webhook replaying the same success leaves the booking as it was. */
  method ConfirmThenWebhook() returns (store: BookingStore, confirmed: Reply, hooked: Reply)
    ensures fresh(store) && store.Valid()
    ensures confirmed == Ok && hooked == Ok
    ensures store.bookings == map[0 := AlicePaid()]
    ensures AlicePaid().amountPaid == 230.0 && AlicePaid().status == Confirmed
  {
    var booked, intent, charge;
    store, booked, intent, charge := BookAndBind();
    TwoNightsAtHundred();
    ghost var bound := store.bookings;
    assert bound[0].paymentIntentId == Some("pi_1") && bound[0].user == Alice.id;
    assert CanSave(AlicePaid(), Feb1);
    var which;
    confirmed, which := ConfirmPayment(store, Alice, "pi_1", Some(IntentSnapshot(Succeeded, 23000)), Feb1, true);
    assert which.Some? && which.value in bound;
    assert which == Some(0);
    assert store.bookings == map[0 := AlicePaid()];
    MarkPaidIdempotent(WithIntent(AliceBooking(), "pi_1", DefaultTotals(200.0)), 23000);
    assert CanSave(MarkPaid(AlicePaid(), 23000), Feb1);
    var target;
    hooked, target := Webhook(store, Some(IntentSucceeded("pi_1", 23000)), Feb1);
    assert target == Some(0);
  }

  /** Cancelling the paid booking keeps the payment recorded as paid:
      cancellation does not refund. */
  method PaidThenCancelled() returns (cancelled: Reply, final: Booking)
    ensures cancelled == Ok
    ensures final.status == Cancelled && final.paymentStatus == Paid && final.amountPaid == 230.0
    ensures final.cancellationReason == Some(DefaultCancellationReason)
  {
    var store, confirmed, hooked := ConfirmThenWebhook();
    cancelled := store.Cancel(Alice, 0, None, Feb1, true);
    final := store.bookings[0];
  }

  /** Alice books March 1 to 3, binds an intent and cancels; Bob books the
      nights she freed; then Alice's client confirms the intent, which Stripe
      reports succeeded. The confirm route revives the cancelled booking, and
      the store ends with two active bookings of one room for the same nights. */
  method CancelledThenConfirmedDoubleBooks()
    returns (store: BookingStore, cancelled: Reply, rebooked: Reply, bobs: BookingId, confirmed: Reply)
    ensures fresh(store) && store.Valid()
    ensures cancelled == Ok && rebooked == Created && confirmed == Ok
    ensures bobs != 0 && 0 in store.bookings && bobs in store.bookings
    ensures store.bookings[0].status == Confirmed && store.bookings[bobs].status == Pending
    ensures !NoDoubleBooking(store.bookings)
  {
    var booked, intent, charge;
    store, booked, intent, charge := BookAndBind();
    TwoNightsAtHundred();
    cancelled := store.Cancel(Alice, 0, None, Feb1, true);
    assert store.bookings[0].status == Cancelled;
    var totals;
    InnOffersDouble();
    rebooked, bobs, totals := store.Create(Bob, Stay("Bob", Mar1, Mar3), Catalog(), Feb1, true);
    ghost var bound := store.bookings;
    assert bound[0].paymentIntentId == Some("pi_1") && bound[0].user == Alice.id;
    assert bound[bobs].paymentIntentId.None?;
    assert CanSave(MarkPaid(bound[0], 23000), Feb1);
    var which;
    confirmed, which := ConfirmPayment(store, Alice, "pi_1", Some(IntentSnapshot(Succeeded, 23000)), Feb1, true);
    assert which == Some(0);
    assert Collide(store.bookings[bobs], store.bookings[0]);
  }
}
