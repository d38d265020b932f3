/** The admin routes (backend/routes/admin.js). Every route sits behind the
    admin role check, which therefore runs before any validation. */
module Admin {
  import opened Common
  import opened BookingModel
  import opened Bookings
  import opened Payments

  // ---------------------------------------------------------------------
  // Revenue on the dashboard

  /** What one booking adds to the revenue: its total when it is paid. */
  function Contribution(b: Booking): real {
    if b.paymentStatus == Paid then b.totalAmount else 0.0
  }

  /** totalRevenue: the sum of totalAmount over the paid bookings with an id
      below `n` (0 when there are none). */
  function Revenue(m: map<BookingId, Booking>, n: nat): real {
    if n == 0 then 0.0
    else Revenue(m, n - 1) + (if n - 1 in m then Contribution(m[n - 1]) else 0.0)
  }

  /** Without a paid booking the dashboard reports no revenue. */
  lemma {:induction false} RevenueWithoutPaidIsZero(m: map<BookingId, Booking>, n: nat)
    requires forall id :: id in m ==> m[id].paymentStatus != Paid
    ensures Revenue(m, n) == 0.0
  {
    if n > 0 {
      RevenueWithoutPaidIsZero(m, n - 1);
    }
  }

  /** Revenue is never negative while every paid total is non-negative. */
  lemma {:induction false} RevenueNonNegative(m: map<BookingId, Booking>, n: nat)
    requires forall id :: id in m && m[id].paymentStatus == Paid ==> m[id].totalAmount >= 0.0
    ensures Revenue(m, n) >= 0.0
  {
    if n > 0 {
      RevenueNonNegative(m, n - 1);
    }
  }

  /** Rewriting one booking changes the revenue by the difference of its
      contributions. */
  lemma {:induction false} RevenueAfterUpdate(m: map<BookingId, Booking>, n: nat, id: BookingId, b: Booking)
    requires id in m && id < n
    ensures Revenue(m[id := b], n) == Revenue(m, n) - Contribution(m[id]) + Contribution(b)
  {
    if n - 1 == id {
      RevenueIgnoresHigherIds(m, n - 1, id, b);
    } else {
      RevenueAfterUpdate(m, n - 1, id, b);
    }
  }

  lemma {:induction false} RevenueIgnoresHigherIds(m: map<BookingId, Booking>, n: nat, id: BookingId, b: Booking)
    requires n <= id
    ensures Revenue(m[id := b], n) == Revenue(m, n)
  {
    if n > 0 {
      RevenueIgnoresHigherIds(m, n - 1, id, b);
    }
  }

  /** A booking whose payment is confirmed adds its total to the revenue, and
      its refund takes the total out again. */
  lemma {:induction false} PaymentAndRefundMoveRevenue(m: map<BookingId, Booking>, n: nat, id: BookingId,
                                                       cents: int, reason: string, now: int)
    requires id in m && id < n && m[id].paymentStatus != Paid
    ensures Revenue(m[id := MarkPaid(m[id], cents)], n) == Revenue(m, n) + m[id].totalAmount
    ensures var paid := m[id := MarkPaid(m[id], cents)];
      Revenue(paid[id := MarkRefunded(paid[id], reason, now)], n) == Revenue(m, n)
  {
    RevenueAfterUpdate(m, n, id, MarkPaid(m[id], cents));
    var paid := m[id := MarkPaid(m[id], cents)];
    RevenueAfterUpdate(paid, n, id, MarkRefunded(paid[id], reason, now));
    assert paid[id := MarkRefunded(paid[id], reason, now)] == m[id := MarkRefunded(paid[id], reason, now)];
  }

  // ---------------------------------------------------------------------
  // Booking status override

  /** PUT /bookings/:bookingId/status: the status is assigned as requested;
      the reason and date are recorded only when cancelling with a non-empty
      reason. There is no transition guard. */
  function AdminOverride(b: Booking, status: BookingStatus, reason: Option<string>, now: int): (r: Booking)
    ensures r.status == status && SameSlot(r, b)
    ensures r.paymentStatus == b.paymentStatus && r.amountPaid == b.amountPaid
    ensures (status == Cancelled && reason.Some? && reason.value != "") ==>
              r.cancellationReason == reason && r.cancellationDate == Some(now)
    ensures !(status == Cancelled && reason.Some? && reason.value != "") ==>
              r.cancellationReason == b.cancellationReason && r.cancellationDate == b.cancellationDate
  {
    if status == Cancelled && reason.Some? && reason.value != "" then
      b.(status := status, cancellationReason := reason, cancellationDate := Some(now))
    else b.(status := status)
  }

  /** The override can reopen a cancelled booking whose slot was taken in the
      meantime, and then two active bookings hold the same room. */
  lemma AdminReopeningDoubleBooks()
    ensures NoDoubleBooking(CancelledTwinStore())
    ensures CanSave(AdminOverride(CancelledTwinStore()[1], Pending, None, 0), 0)
    ensures !NoDoubleBooking(CancelledTwinStore()[1 := AdminOverride(CancelledTwinStore()[1], Pending, None, 0)])
  {
    var m := CancelledTwinStore();
    var m' := m[1 := AdminOverride(m[1], Pending, None, 0)];
    assert Collide(m'[0], m'[1]);
  }

  /** The override keeps the store free of double bookings unless it makes an
      inactive booking active. */
  lemma {:induction false} OverrideWithoutReopeningIsSafe(m: map<BookingId, Booking>, id: BookingId,
                                                          status: BookingStatus, reason: Option<string>, now: int)
    requires NoDoubleBooking(m) && id in m
    requires IsActive(m[id]) || !(status == Pending || status == Confirmed)
    ensures NoDoubleBooking(m[id := AdminOverride(m[id], status, reason, now)])
  {
    UpdateInPlacePreservesNoDoubleBooking(m, id, AdminOverride(m[id], status, reason, now));
  }

  /** The admin booking-status route; `status` is None when the body's value is
      not one of the four statuses. */
  method SetBookingStatus(store: BookingStore, principal: Principal, id: BookingId, status: Option<BookingStatus>,
                          reason: Option<string>, now: int)
    returns (reply: Reply)
    requires store.Valid()
    modifies store`bookings
    ensures store.Valid()
    ensures reply in {Ok, BadRequest, Forbidden, NotFound, ServerError}
    ensures !IsAdmin(principal) ==> reply == Forbidden
    ensures IsAdmin(principal) && status.None? ==> reply == BadRequest
    ensures IsAdmin(principal) && status.Some? && id !in old(store.bookings) ==> reply == NotFound
    ensures reply == Ok <==>
              IsAdmin(principal) && status.Some? && id in old(store.bookings)
              && CanSave(AdminOverride(old(store.bookings)[id], status.value, reason, now), now)
    ensures reply == Ok ==>
              status.Some? && id in old(store.bookings)
              && store.bookings == old(store.bookings)[id := AdminOverride(old(store.bookings)[id], status.value, reason, now)]
    ensures reply != Ok ==> store.bookings == old(store.bookings)
    ensures (old(NoDoubleBooking(store.bookings)) && reply == Ok
             && (IsActive(old(store.bookings)[id]) || !IsActive(store.bookings[id]))) ==> NoDoubleBooking(store.bookings)
  {
    if !IsAdmin(principal) {
      return Forbidden;
    }
    if status.None? {
      return BadRequest;
    }
    if id !in store.bookings {
      return NotFound;
    }
    var b' := AdminOverride(store.bookings[id], status.value, reason, now);
    ghost var before := store.bookings;
    var saved := store.Save(id, b', now);
    if saved && NoDoubleBooking(before) && (IsActive(before[id]) || !IsActive(b')) {
      UpdateInPlacePreservesNoDoubleBooking(before, id, b');
    }
    reply := if saved then Ok else ServerError;
  }

  // ---------------------------------------------------------------------
  // User accounts

  /** The part of a user record the admin routes touch. */
  datatype Account = Account(role: Role, isActive: bool)

  class UserDirectory {
    var users: map<UserId, Account>

    constructor (initial: map<UserId, Account>)
      ensures users == initial
    {
      users := initial;
    }

    /** PUT /users/:userId/status: `isActive` is None when the body's value is
        not a boolean. Nothing stops an admin from deactivating themselves. */
    method SetUserActive(principal: Principal, userId: UserId, isActive: Option<bool>) returns (reply: Reply)
      modifies this
      ensures reply in {Ok, BadRequest, Forbidden, NotFound}
      ensures !IsAdmin(principal) ==> reply == Forbidden
      ensures IsAdmin(principal) && isActive.None? ==> reply == BadRequest
      ensures IsAdmin(principal) && isActive.Some? && userId !in old(users) ==> reply == NotFound
      ensures reply == Ok <==> IsAdmin(principal) && isActive.Some? && userId in old(users)
      ensures reply == Ok ==> users == old(users)[userId := old(users)[userId].(isActive := isActive.value)]
      ensures reply != Ok ==> users == old(users)
    {
      if !IsAdmin(principal) {
        return Forbidden;
      }
      if isActive.None? {
        return BadRequest;
      }
      if userId !in users {
        return NotFound;
      }
      users := users[userId := users[userId].(isActive := isActive.value)];
      reply := Ok;
    }
  }
}
