/** Reservation creation, status changes and cancellation
    (backend/routes/bookings.js), over one store of bookings. */
module Bookings {
  import opened Common
  import opened Money
  import opened BookingModel
  import opened HotelModel

  const DayMs: int := 1000 * 60 * 60 * 24

  /** Math.ceil(a / d) for a positive divisor. */
  function CeilDiv(a: int, d: int): (q: int)
    requires d > 0
    ensures (q - 1) * d < a <= q * d
  {
    var f := (-a) / d;
    assert -a == d * f + (-a) % d;
    assert (-f - 1) * d == -(f * d) - d;
    -f
  }

  /** Math.ceil((checkOut - checkIn) / one day): at least one night whenever
      check-in is before check-out. */
  function Nights(checkIn: int, checkOut: int): (n: int)
    ensures (n - 1) * DayMs < checkOut - checkIn <= n * DayMs
    ensures checkIn < checkOut ==> n >= 1
  {
    CeilDiv(checkOut - checkIn, DayMs)
  }

  // ---------------------------------------------------------------------
  // The availability / conflict predicate

  /** The statuses the conflict query looks at. */
  predicate IsActive(b: Booking) {
    b.status == Pending || b.status == Confirmed
  }

  /** The date test of the query: existing.checkIn <= checkOut and
      existing.checkOut >= checkIn (both bounds inclusive). */
  predicate Overlaps(b: Booking, checkIn: int, checkOut: int) {
    b.checkIn <= checkOut && b.checkOut >= checkIn
  }

  /** An existing booking that makes the create route answer "not available". */
  predicate Blocks(b: Booking, hotel: HotelId, roomType: RoomType, checkIn: int, checkOut: int) {
    b.hotel == hotel && b.roomType == roomType && IsActive(b) && Overlaps(b, checkIn, checkOut)
  }

  predicate HasConflict(m: map<BookingId, Booking>, hotel: HotelId, roomType: RoomType, checkIn: int, checkOut: int) {
    exists id :: id in m && Blocks(m[id], hotel, roomType, checkIn, checkOut)
  }

  /** Two active bookings of one hotel and room type that the query would
      report against each other. */
  predicate Collide(a: Booking, b: Booking) {
    IsActive(b) && Blocks(a, b.hotel, b.roomType, b.checkIn, b.checkOut)
  }

  /** No two pending/confirmed bookings of the same hotel and room type overlap. */
  predicate NoDoubleBooking(m: map<BookingId, Booking>) {
    forall i, j :: i in m && j in m && i != j ==> !Collide(m[i], m[j])
  }

  /** Because the test is inclusive, bookings that do not collide are separated
      by a gap: half-open stays [checkIn, checkOut) are in particular disjoint. */
  lemma NoDoubleBookingSeparatesStays(m: map<BookingId, Booking>, i: BookingId, j: BookingId)
    requires NoDoubleBooking(m) && i in m && j in m && i != j
    requires m[i].hotel == m[j].hotel && m[i].roomType == m[j].roomType
    requires IsActive(m[i]) && IsActive(m[j])
    ensures m[i].checkOut < m[j].checkIn || m[j].checkOut < m[i].checkIn
    ensures !(m[i].checkIn < m[j].checkOut && m[j].checkIn < m[i].checkOut)
  {
    assert !Collide(m[i], m[j]);
  }

  /** Inserting a booking the query does not object to keeps the store free of
      double bookings. */
  lemma {:induction false} InsertPreservesNoDoubleBooking(m: map<BookingId, Booking>, id: BookingId, b: Booking)
    requires NoDoubleBooking(m) && id !in m
    requires !HasConflict(m, b.hotel, b.roomType, b.checkIn, b.checkOut)
    ensures NoDoubleBooking(m[id := b])
  {
    var m' := m[id := b];
    forall i, j | i in m' && j in m' && i != j
      ensures !Collide(m'[i], m'[j])
    {
      if i == id {
        assert m'[j] == m[j];
        assert !Blocks(m[j], b.hotel, b.roomType, b.checkIn, b.checkOut);
      } else if j == id {
        assert m'[i] == m[i];
        assert !Blocks(m[i], b.hotel, b.roomType, b.checkIn, b.checkOut);
      } else {
        assert m'[i] == m[i] && m'[j] == m[j];
      }
    }
  }

  /** Same hotel, room type and dates. */
  predicate SameSlot(a: Booking, b: Booking) {
    a.hotel == b.hotel && a.roomType == b.roomType && a.checkIn == b.checkIn && a.checkOut == b.checkOut
  }

  /** Rewriting a booking in place without moving it and without making an
      inactive booking active keeps the store free of double bookings. */
  lemma {:induction false} UpdateInPlacePreservesNoDoubleBooking(m: map<BookingId, Booking>, id: BookingId, b: Booking)
    requires NoDoubleBooking(m) && id in m
    requires SameSlot(m[id], b)
    requires IsActive(b) ==> IsActive(m[id])
    ensures NoDoubleBooking(m[id := b])
  {
    var m' := m[id := b];
    forall i, j | i in m' && j in m' && i != j
      ensures !Collide(m'[i], m'[j])
    {
      assert !Collide(m[i], m[j]);
      if i == id {
        assert m'[j] == m[j];
      } else if j == id {
        assert m'[i] == m[i];
      } else {
        assert m'[i] == m[i] && m'[j] == m[j];
      }
    }
  }

  // ---------------------------------------------------------------------
  // Create

  datatype BookingRequest = BookingRequest(
    hotel: HotelId,
    roomType: RoomType,
    checkIn: int,
    checkOut: int,
    adults: int,
    children: Option<int>,
    guestDetails: GuestDetails,
    emailWellFormed: bool,        // the result of express-validator's isEmail
    specialRequests: Option<string>,
    paymentMethod: Option<PaymentMethod>)

  /** The express-validator chain of the create route. */
  predicate RequestValid(req: BookingRequest) {
    && req.adults >= 1
    && (req.children.Some? ==> req.children.value >= 0)
    && req.guestDetails.firstName != ""
    && req.guestDetails.lastName != ""
    && req.emailWellFormed
    && req.guestDetails.phone != ""
  }

  /** The request passes validation and both date guards. */
  predicate DatesAdmissible(req: BookingRequest, now: int) {
    RequestValid(req) && now <= req.checkIn && req.checkIn < req.checkOut
  }

  /** The hotel exists and is active. */
  predicate HotelOpen(hotels: map<HotelId, Hotel>, id: HotelId) {
    id in hotels && hotels[id].isActive
  }

  predicate RoomMatches(r: Room, roomType: RoomType) {
    r.roomType == roomType && r.available
  }

  /** Index of the first available room of the type (|rooms| when there is none). */
  function FirstRoomIndex(rooms: seq<Room>, roomType: RoomType): (k: nat)
    ensures k <= |rooms|
    ensures forall j :: 0 <= j < k ==> !RoomMatches(rooms[j], roomType)
    ensures k < |rooms| ==> RoomMatches(rooms[k], roomType)
  {
    if rooms == [] then 0
    else if RoomMatches(rooms[0], roomType) then 0
    else 1 + FirstRoomIndex(rooms[1..], roomType)
  }

  /** rooms.find(r => r.type === roomType && r.available). */
  function FindRoom(rooms: seq<Room>, roomType: RoomType): Option<Room> {
    var k := FirstRoomIndex(rooms, roomType);
    if k < |rooms| then Some(rooms[k]) else None
  }

  lemma FindRoomFinds(rooms: seq<Room>, roomType: RoomType)
    ensures FindRoom(rooms, roomType).None? <==> forall r :: r in rooms ==> !RoomMatches(r, roomType)
    ensures FindRoom(rooms, roomType).Some? ==>
              FindRoom(rooms, roomType).value in rooms && RoomMatches(FindRoom(rooms, roomType).value, roomType)
  {
  }

  /** The price of a stay: room price times the number of nights, before tax. */
  function BaseAmount(room: Room, checkIn: int, checkOut: int): real {
    room.price * (Nights(checkIn, checkOut) as real)
  }

  /** The totals the create route computes and returns. */
  function CreateTotals(room: Room, req: BookingRequest): Totals {
    DefaultTotals(BaseAmount(room, req.checkIn, req.checkOut))
  }

  /** The document the create route builds: totals from calculateBookingTotal
      of room price times nights, children defaulting to 0, payment method to
      credit card. */
  function Candidate(user: UserId, req: BookingRequest, room: Room): (b: Booking)
    ensures b.status == Pending && b.paymentStatus == PaymentPending && b.amountPaid == 0.0
    ensures b.user == user && b.hotel == req.hotel && b.roomType == req.roomType
    ensures b.checkIn == req.checkIn && b.checkOut == req.checkOut
    ensures b.totalAmount == CreateTotals(room, req).totalAmount
    ensures b.taxAmount == CreateTotals(room, req).taxAmount
    ensures b.serviceCharge == CreateTotals(room, req).serviceCharge
    ensures b.guests.children == req.children.GetOr(0)
    ensures b.paymentMethod == req.paymentMethod.GetOr(CreditCard)
  {
    var t := CreateTotals(room, req);
    NewBooking(user, req.hotel, req.roomType, req.checkIn, req.checkOut,
               Guests(req.adults, req.children.GetOr(0)), t.totalAmount, t.taxAmount, t.serviceCharge,
               req.guestDetails, req.specialRequests, req.paymentMethod.GetOr(CreditCard))
  }

  // ---------------------------------------------------------------------
  // Status update and cancellation

  predicate Terminal(s: BookingStatus) {
    s == Completed || s == Cancelled
  }

  predicate OwnerOrAdmin(b: Booking, p: Principal) {
    b.user == p.id || IsAdmin(p)
  }

  /** The guards of PUT /:id/status after the lookup, in the order they run. */
  predicate StatusUpdateAllowed(b: Booking, p: Principal, status: BookingStatus) {
    OwnerOrAdmin(b, p) && !Terminal(b.status) && (IsAdmin(p) || status != Confirmed)
  }

  /** PUT /:id/status assignments: the status, and the reason and date when cancelling. */
  function StatusUpdated(b: Booking, status: BookingStatus, reason: Option<string>, now: int): Booking {
    if status == Cancelled then b.(status := status, cancellationReason := reason, cancellationDate := Some(now))
    else b.(status := status)
  }

  const DefaultCancellationReason: string := "Cancelled by user"

  /** `req.body.reason || 'Cancelled by user'`. */
  function CancellationReason(reason: Option<string>): (r: string)
    ensures reason.Some? && reason.value != "" ==> r == reason.value
    ensures reason.None? || reason.value == "" ==> r == DefaultCancellationReason
  {
    if reason.Some? && reason.value != "" then reason.value else DefaultCancellationReason
  }

  /** DELETE /:id assignments. */
  function CancelledBooking(b: Booking, reason: Option<string>, now: int): Booking {
    b.(status := Cancelled, cancellationReason := Some(CancellationReason(reason)), cancellationDate := Some(now))
  }

  /** A successful status update changes the status, and the cancellation
      fields only when cancelling; it keeps the slot and cannot activate a
      booking that was not active. */
  lemma {:induction false} StatusUpdateChangesOnlyStatus(b: Booking, p: Principal, status: BookingStatus,
                                                          reason: Option<string>, now: int)
    requires StatusUpdateAllowed(b, p, status) && (status == Confirmed || status == Cancelled)
    ensures var b' := StatusUpdated(b, status, reason, now);
      && b'.status == status
      && b' == b.(status := status, cancellationReason := b'.cancellationReason, cancellationDate := b'.cancellationDate)
      && (status == Cancelled ==> b'.cancellationDate == Some(now) && b'.cancellationReason == reason)
      && (status != Cancelled ==> b'.cancellationReason == b.cancellationReason && b'.cancellationDate == b.cancellationDate)
      && SameSlot(b, b')
      && (IsActive(b') ==> IsActive(b))
  {
    assert !Terminal(b.status);
  }

  // ---------------------------------------------------------------------
  // Pagination metadata, shared by the listing routes

  datatype PageInfo = PageInfo(skip: int, totalPages: Option<int>, hasNext: bool, hasPrev: bool)

  /** skip = (page - 1) * limit, totalPages = Math.ceil(total / limit)
      (Infinity or NaN when limit is 0), hasNext = page * limit < total,
      hasPrev = page > 1. */
  function Paginate(page: int, limit: nat, total: nat): (p: PageInfo)
    ensures limit > 0 <==> p.totalPages.Some?
    ensures p.totalPages.Some? ==> (p.totalPages.value - 1) * limit < total <= p.totalPages.value * limit
    ensures p.hasPrev <==> page > 1
  {
    PageInfo((page - 1) * limit,
             if limit > 0 then Some(CeilDiv(total, limit)) else None,
             page * limit < total,
             page > 1)
  }

  lemma MulLeftMonotone(a: int, b: int, c: nat)
    requires a <= b
    ensures a * c <= b * c
  {
    assert b * c - a * c == (b - a) * c;
  }

  /** There is a next page exactly when the current page comes before the last one. */
  lemma {:induction false} HasNextIffBeforeLastPage(page: int, limit: nat, total: nat)
    requires limit > 0
    ensures Paginate(page, limit, total).hasNext <==> page < Paginate(page, limit, total).totalPages.value
  {
    var t := Paginate(page, limit, total).totalPages.value;
    if page < t {
      MulLeftMonotone(page, t - 1, limit);
    } else {
      MulLeftMonotone(t, page, limit);
    }
  }

  // ---------------------------------------------------------------------
  // The store

  datatype EmailKind = BookingConfirmation | BookingCancellation

  /** A notification that reached the mail transport. */
  datatype Email = Email(kind: EmailKind, to: string, booking: BookingId)

  class BookingStore {
    var bookings: map<BookingId, Booking>
    var nextId: nat
    var outbox: seq<Email>

    /** Every stored booking passed a save: it satisfies the schema and its
        check-in is before its check-out; ids are below nextId. */
    ghost predicate Valid()
      reads this
    {
      forall id :: id in bookings ==>
        id < nextId && SchemaValid(bookings[id]) && bookings[id].checkIn < bookings[id].checkOut
    }

    constructor ()
      ensures Valid() && bookings == map[] && nextId == 0 && outbox == []
    {
      bookings := map[];
      nextId := 0;
      outbox := [];
    }

    /** Booking.findOne for the conflict query: the first blocking booking in
        insertion order, if any. */
    method FindConflict(hotel: HotelId, roomType: RoomType, checkIn: int, checkOut: int)
      returns (found: Option<BookingId>)
      requires Valid()
      ensures found.None? <==> !HasConflict(bookings, hotel, roomType, checkIn, checkOut)
      ensures found.Some? ==>
                found.value in bookings && Blocks(bookings[found.value], hotel, roomType, checkIn, checkOut)
      ensures found.Some? ==> forall j :: j in bookings && j < found.value ==>
                                 !Blocks(bookings[j], hotel, roomType, checkIn, checkOut)
    {
      var i := 0;
      while i < nextId
        invariant i <= nextId
        invariant forall j :: j in bookings && j < i ==> !Blocks(bookings[j], hotel, roomType, checkIn, checkOut)
      {
        if i in bookings && Blocks(bookings[i], hotel, roomType, checkIn, checkOut) {
          return Some(i);
        }
        i := i + 1;
      }
      return None;
    }

    /** Booking.findOne({ paymentIntentId }): the first booking bound to the intent. */
    method FindByIntent(intentId: string) returns (found: Option<BookingId>)
      requires Valid()
      ensures found.None? <==> forall id :: id in bookings ==> bookings[id].paymentIntentId != Some(intentId)
      ensures found.Some? ==> found.value in bookings && bookings[found.value].paymentIntentId == Some(intentId)
      ensures found.Some? ==> forall j :: j in bookings && j < found.value ==>
                                 bookings[j].paymentIntentId != Some(intentId)
    {
      var i := 0;
      while i < nextId
        invariant i <= nextId
        invariant forall j :: j in bookings && j < i ==> bookings[j].paymentIntentId != Some(intentId)
      {
        if i in bookings && bookings[i].paymentIntentId == Some(intentId) {
          return Some(i);
        }
        i := i + 1;
      }
      return None;
    }

    /** booking.save() on an existing document. */
    method Save(id: BookingId, b: Booking, now: int) returns (saved: bool)
      requires Valid() && id in bookings
      modifies this`bookings
      ensures Valid()
      ensures saved == CanSave(b, now)
      ensures bookings == if saved then old(bookings)[id := b] else old(bookings)
    {
      saved := CanSave(b, now);
      if saved {
        bookings := bookings[id := b];
      }
    }

    /** An email the route awaits; a failed delivery appends nothing. */
    method Send(kind: EmailKind, to: string, id: BookingId, delivered: bool)
      modifies this`outbox
      ensures outbox == old(outbox) + (if delivered then [Email(kind, to, id)] else [])
    {
      if delivered {
        outbox := outbox + [Email(kind, to, id)];
      }
    }

    /** POST /: validation, the two date guards, the hotel and room lookups,
        the conflict query, pricing, then one insert; the confirmation email
        is best-effort. */
    method Create(principal: Principal, req: BookingRequest, hotels: map<HotelId, Hotel>, now: int,
                  emailDelivered: bool)
      returns (reply: Reply, id: BookingId, totals: Option<Totals>)
      requires Valid()
      modifies this
      ensures Valid()
      ensures reply in {Created, BadRequest, NotFound, ServerError}
      ensures !RequestValid(req) ==> reply == BadRequest
      ensures RequestValid(req) && req.checkIn < now ==> reply == BadRequest
      ensures RequestValid(req) && now <= req.checkIn && req.checkOut <= req.checkIn ==> reply == BadRequest
      ensures DatesAdmissible(req, now) && !HotelOpen(hotels, req.hotel) ==> reply == NotFound
      ensures (DatesAdmissible(req, now) && HotelOpen(hotels, req.hotel)
               && FindRoom(hotels[req.hotel].rooms, req.roomType).None?) ==> reply == BadRequest
      ensures (DatesAdmissible(req, now) && HotelOpen(hotels, req.hotel)
               && HasConflict(old(bookings), req.hotel, req.roomType, req.checkIn, req.checkOut)) ==> reply == BadRequest
      ensures reply == Created <==>
                DatesAdmissible(req, now) && HotelOpen(hotels, req.hotel)
                && FindRoom(hotels[req.hotel].rooms, req.roomType).Some?
                && !HasConflict(old(bookings), req.hotel, req.roomType, req.checkIn, req.checkOut)
                && CanSave(Candidate(principal.id, req, FindRoom(hotels[req.hotel].rooms, req.roomType).value), now)
      ensures reply == Created ==>
                HotelOpen(hotels, req.hotel) && FindRoom(hotels[req.hotel].rooms, req.roomType).Some?
                && id == old(nextId) && id !in old(bookings)
                && bookings == old(bookings)[id := Candidate(principal.id, req, FindRoom(hotels[req.hotel].rooms, req.roomType).value)]
                && totals == Some(CreateTotals(FindRoom(hotels[req.hotel].rooms, req.roomType).value, req))
                && outbox == old(outbox) + (if emailDelivered then [Email(BookingConfirmation, req.guestDetails.email, id)] else [])
      ensures reply != Created ==> bookings == old(bookings) && outbox == old(outbox)
      ensures old(NoDoubleBooking(bookings)) ==> NoDoubleBooking(bookings)
    {
      id, totals := nextId, None;
      if !RequestValid(req) {
        return BadRequest, id, totals;
      }
      if req.checkIn < now {
        return BadRequest, id, totals;
      }
      if req.checkIn >= req.checkOut {
        return BadRequest, id, totals;
      }
      if req.hotel !in hotels || !hotels[req.hotel].isActive {
        return NotFound, id, totals;
      }
      var room := FindRoom(hotels[req.hotel].rooms, req.roomType);
      if room.None? {
        return BadRequest, id, totals;
      }
      var existing := FindConflict(req.hotel, req.roomType, req.checkIn, req.checkOut);
      if existing.Some? {
        return BadRequest, id, totals;
      }
      var b := Candidate(principal.id, req, room.value);
      if !CanSave(b, now) {
        return ServerError, id, totals;
      }
      totals := Some(CreateTotals(room.value, req));
      if NoDoubleBooking(bookings) {
        InsertPreservesNoDoubleBooking(bookings, id, b);
      }
      bookings := bookings[id := b];
      nextId := nextId + 1;
      Send(BookingConfirmation, req.guestDetails.email, id, emailDelivered);
      reply := Created;
    }

    /** PUT /:id/status: the requested status must be confirmed or cancelled;
        then lookup, ownership, the terminal guard and the admin-only confirm. */
    method UpdateStatus(principal: Principal, id: BookingId, status: BookingStatus, reason: Option<string>, now: int)
      returns (reply: Reply)
      requires Valid()
      modifies this`bookings
      ensures Valid()
      ensures reply in {Ok, BadRequest, Forbidden, NotFound, ServerError}
      ensures status != Confirmed && status != Cancelled ==> reply == BadRequest
      ensures (status == Confirmed || status == Cancelled) && id !in old(bookings) ==> reply == NotFound
      ensures ((status == Confirmed || status == Cancelled) && id in old(bookings)
               && !OwnerOrAdmin(old(bookings)[id], principal)) ==> reply == Forbidden
      ensures ((status == Confirmed || status == Cancelled) && id in old(bookings)
               && OwnerOrAdmin(old(bookings)[id], principal) && Terminal(old(bookings)[id].status)) ==> reply == BadRequest
      ensures ((status == Confirmed || status == Cancelled) && id in old(bookings)
               && OwnerOrAdmin(old(bookings)[id], principal) && !Terminal(old(bookings)[id].status)
               && !IsAdmin(principal) && status == Confirmed) ==> reply == Forbidden
      ensures reply == Ok <==>
                (status == Confirmed || status == Cancelled) && id in old(bookings)
                && StatusUpdateAllowed(old(bookings)[id], principal, status)
                && CanSave(StatusUpdated(old(bookings)[id], status, reason, now), now)
      ensures reply == Ok ==>
                id in old(bookings) && bookings == old(bookings)[id := StatusUpdated(old(bookings)[id], status, reason, now)]
      ensures reply != Ok ==> bookings == old(bookings)
      ensures old(NoDoubleBooking(bookings)) ==> NoDoubleBooking(bookings)
    {
      if status != Confirmed && status != Cancelled {
        return BadRequest;
      }
      if id !in bookings {
        return NotFound;
      }
      var b := bookings[id];
      if !OwnerOrAdmin(b, principal) {
        return Forbidden;
      }
      if Terminal(b.status) {
        return BadRequest;
      }
      if !IsAdmin(principal) && status == Confirmed {
        return Forbidden;
      }
      var b' := StatusUpdated(b, status, reason, now);
      StatusUpdateChangesOnlyStatus(b, principal, status, reason, now);
      if NoDoubleBooking(bookings) {
        UpdateInPlacePreservesNoDoubleBooking(bookings, id, b');
      }
      var saved := Save(id, b', now);
      reply := if saved then Ok else ServerError;
    }

    /** DELETE /:id: lookup, ownership and the terminal guard, then cancel
        with the given or default reason; the email is best-effort. */
    method Cancel(principal: Principal, id: BookingId, reason: Option<string>, now: int, emailDelivered: bool)
      returns (reply: Reply)
      requires Valid()
      modifies this`bookings, this`outbox
      ensures Valid()
      ensures reply in {Ok, BadRequest, Forbidden, NotFound, ServerError}
      ensures id !in old(bookings) ==> reply == NotFound
      ensures id in old(bookings) && !OwnerOrAdmin(old(bookings)[id], principal) ==> reply == Forbidden
      ensures (id in old(bookings) && OwnerOrAdmin(old(bookings)[id], principal)
               && Terminal(old(bookings)[id].status)) ==> reply == BadRequest
      ensures reply == Ok <==>
                id in old(bookings) && OwnerOrAdmin(old(bookings)[id], principal)
                && !Terminal(old(bookings)[id].status)
                && CanSave(CancelledBooking(old(bookings)[id], reason, now), now)
      ensures reply == Ok ==>
                id in old(bookings)
                && bookings == old(bookings)[id := CancelledBooking(old(bookings)[id], reason, now)]
                && outbox == old(outbox) + (if emailDelivered
                                            then [Email(BookingCancellation, old(bookings)[id].guestDetails.email, id)]
                                            else [])
      ensures reply != Ok ==> bookings == old(bookings) && outbox == old(outbox)
      ensures old(NoDoubleBooking(bookings)) ==> NoDoubleBooking(bookings)
    {
      if id !in bookings {
        return NotFound;
      }
      var b := bookings[id];
      if !OwnerOrAdmin(b, principal) {
        return Forbidden;
      }
      if Terminal(b.status) {
        return BadRequest;
      }
      var b' := CancelledBooking(b, reason, now);
      if NoDoubleBooking(bookings) {
        UpdateInPlacePreservesNoDoubleBooking(bookings, id, b');
      }
      var saved := Save(id, b', now);
      if !saved {
        return ServerError;
      }
      Send(BookingCancellation, b.guestDetails.email, id, emailDelivered);
      reply := Ok;
    }
  }

  /** The inclusive bounds make back-to-back stays collide: a stay ending on
      the day another begins blocks it. */
  lemma BackToBackStaysCollide(b: Booking, checkOut: int)
    requires IsActive(b) && b.checkIn < b.checkOut < checkOut
    ensures Blocks(b, b.hotel, b.roomType, b.checkOut, checkOut)
  {
  }

  /** Cancelled and completed bookings never block. */
  lemma InactiveNeverBlocks(b: Booking, hotel: HotelId, roomType: RoomType, checkIn: int, checkOut: int)
    requires Terminal(b.status)
    ensures !Blocks(b, hotel, roomType, checkIn, checkOut)
  {
  }
}
