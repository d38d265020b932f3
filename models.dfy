/** The Booking schema (backend/models/Booking.js): field enums, defaults and
    bounds, and the checks every save runs. */
module BookingModel {
  import opened Common

  datatype RoomType = Single | Double | Suite | Deluxe
  datatype BookingStatus = Pending | Confirmed | Cancelled | Completed
  datatype PaymentStatus = PaymentPending | Paid | PaymentFailed | Refunded
  datatype PaymentMethod = CreditCard | DebitCard | PayPal | Cash

  datatype Guests = Guests(adults: int, children: int)
  datatype GuestDetails = GuestDetails(firstName: string, lastName: string, email: string, phone: string)

  /** One booking document; dates are milliseconds since the epoch. */
  datatype Booking = Booking(
    user: UserId,
    hotel: HotelId,
    roomType: RoomType,
    checkIn: int,
    checkOut: int,
    guests: Guests,
    totalAmount: real,
    status: BookingStatus,
    paymentStatus: PaymentStatus,
    paymentMethod: PaymentMethod,
    paymentIntentId: Option<string>,
    amountPaid: real,
    currency: string,
    taxAmount: real,
    serviceCharge: real,
    discountAmount: real,
    specialRequests: Option<string>,
    guestDetails: GuestDetails,
    cancellationReason: Option<string>,
    cancellationDate: Option<int>)

  const MaxSpecialRequests: nat := 500

  /** The schema validators: adults at least 1, children at least 0, special
      requests at most 500 characters. */
  predicate SchemaValid(b: Booking) {
    && b.guests.adults >= 1
    && b.guests.children >= 0
    && (b.specialRequests.Some? ==> |b.specialRequests.value| <= MaxSpecialRequests)
  }

  datatype SaveError = ValidationFailed | CheckInNotBeforeCheckOut | CheckInInPast

  /** What `booking.save()` reports: schema validation runs first, then the
      pre('save') hook compares the dates, on every save and not only the first. */
  function SaveCheck(b: Booking, now: int): (e: Option<SaveError>)
    ensures e.None? <==> SchemaValid(b) && b.checkIn < b.checkOut && now <= b.checkIn
    ensures e == Some(CheckInNotBeforeCheckOut) <==> SchemaValid(b) && b.checkOut <= b.checkIn
  {
    if !SchemaValid(b) then Some(ValidationFailed)
    else if b.checkIn >= b.checkOut then Some(CheckInNotBeforeCheckOut)
    else if b.checkIn < now then Some(CheckInInPast)
    else None
  }

  predicate CanSave(b: Booking, now: int) {
    SaveCheck(b, now).None?
  }

  /** A new booking document: the fields the create route supplies, the schema
      defaults for the rest (status and payment pending, nothing paid, USD, no
      discount). */
  function NewBooking(user: UserId, hotel: HotelId, roomType: RoomType, checkIn: int, checkOut: int,
                      guests: Guests, totalAmount: real, taxAmount: real, serviceCharge: real,
                      guestDetails: GuestDetails, specialRequests: Option<string>,
                      paymentMethod: PaymentMethod): (b: Booking)
    ensures b.status == Pending && b.paymentStatus == PaymentPending
    ensures b.amountPaid == 0.0 && b.discountAmount == 0.0 && b.currency == "USD"
    ensures b.paymentIntentId.None? && b.cancellationReason.None? && b.cancellationDate.None?
    ensures b.user == user && b.hotel == hotel && b.roomType == roomType
    ensures b.checkIn == checkIn && b.checkOut == checkOut
  {
    Booking(user, hotel, roomType, checkIn, checkOut, guests, totalAmount, Pending, PaymentPending,
            paymentMethod, None, 0.0, "USD", taxAmount, serviceCharge, 0.0, specialRequests,
            guestDetails, None, None)
  }

  /** An update that touches only the status and payment fields keeps the
      schema validators satisfied. */
  lemma StatusFieldsDoNotAffectSchema(b: Booking, s: BookingStatus, ps: PaymentStatus, paid: real,
                                      reason: Option<string>, date: Option<int>)
    requires SchemaValid(b)
    ensures SchemaValid(b.(status := s, paymentStatus := ps, amountPaid := paid,
                           cancellationReason := reason, cancellationDate := date))
  {
  }
}

/** The Hotel schema (backend/models/Hotel.js). */
module HotelModel {
  import opened Common
  import opened Seqs
  import opened BookingModel

  datatype Room = Room(roomType: RoomType, price: real, capacity: int, amenities: seq<string>,
                       available: bool, images: seq<string>)

  datatype Hotel = Hotel(
    name: string,
    description: string,
    rating: real,
    amenities: seq<string>,
    images: seq<string>,
    rooms: seq<Room>,
    checkInTime: string,
    checkOutTime: string,
    isActive: bool)

  /** A room as the schema stores it: `available` defaults to true. */
  function NewRoom(roomType: RoomType, price: real, capacity: int, available: Option<bool>): (r: Room)
    ensures r.available == (available != Some(false))
    ensures r.roomType == roomType && r.price == price && r.capacity == capacity
  {
    Room(roomType, price, capacity, [], available.GetOr(true), [])
  }

  /** A hotel as the schema stores it: the name trimmed by its `trim` setter,
      rating 4, check-in 14:00, check-out 11:00, active. */
  function NewHotel(name: string, description: string, rooms: seq<Room>): (h: Hotel)
    ensures h.name == Trim(name) && h.description == description
    ensures h.rating == 4.0 && h.isActive
    ensures h.checkInTime == "14:00" && h.checkOutTime == "11:00"
    ensures h.rooms == rooms
  {
    Hotel(Trim(name), description, 4.0, [], [], rooms, "14:00", "11:00", true)
  }

  /** The schema validators on the stored (already trimmed) name: name and
      description required, rating within [1, 5]. */
  predicate HotelSchemaValid(h: Hotel) {
    h.name != "" && h.description != "" && 1.0 <= h.rating <= 5.0
  }

  /** A new hotel passes the schema exactly when its name has a character
      other than white space and its description is not empty; a name of
      blanks is trimmed to "" and then fails `required`. */
  lemma NewHotelValid(name: string, description: string, rooms: seq<Room>)
    ensures HotelSchemaValid(NewHotel(name, description, rooms)) <==>
              (exists i :: 0 <= i < |name| && !IsSpace(name[i])) && description != ""
  {
  }
}

/** The Review schema (backend/models/Review.js). */
module ReviewModel {
  import opened Common
  import opened BookingModel

  datatype ReviewResponse = ReviewResponse(text: string, author: string, date: int)

  datatype Review = Review(
    user: UserId,
    hotel: HotelId,
    booking: BookingId,
    rating: int,
    title: string,
    comment: string,
    pros: seq<string>,
    cons: seq<string>,
    recommendToFriend: bool,
    stayDate: int,
    roomType: RoomType,
    isVerified: bool,
    helpfulVotes: int,
    response: Option<ReviewResponse>)

  const MaxTitle: nat := 100
  const MaxComment: nat := 1000

  /** The schema validators: rating within [1, 5], title and comment required
      (a required string must not be empty) and bounded in length. */
  predicate ReviewSchemaValid(r: Review) {
    && 1 <= r.rating <= 5
    && r.title != "" && |r.title| <= MaxTitle
    && r.comment != "" && |r.comment| <= MaxComment
  }

  /** The unique index on (user, booking): no two stored reviews share both. */
  predicate OnePerUserBooking(m: map<ReviewId, Review>) {
    forall i, j :: i in m && j in m && i != j ==>
      m[i].user != m[j].user || m[i].booking != m[j].booking
  }

  /** The unique index accepts saving `r` under `id` into `m`. */
  predicate UniqueAccepts(m: map<ReviewId, Review>, id: ReviewId, r: Review) {
    forall j :: j in m && j != id ==> m[j].user != r.user || m[j].booking != r.booking
  }

  lemma {:induction false} UniqueAcceptsPreserves(m: map<ReviewId, Review>, id: ReviewId, r: Review)
    requires OnePerUserBooking(m) && UniqueAccepts(m, id, r)
    ensures OnePerUserBooking(m[id := r])
  {
    var m' := m[id := r];
    forall i, j | i in m' && j in m' && i != j
      ensures m'[i].user != m'[j].user || m'[i].booking != m'[j].booking
    {
      if i == id {
        assert m'[j] == m[j];
      } else if j == id {
        assert m'[i] == m[i];
      }
    }
  }

  /** Schema defaults: recommendToFriend true, isVerified false, no helpful votes. */
  function DefaultReview(user: UserId, hotel: HotelId, booking: BookingId, rating: int,
                         title: string, comment: string, stayDate: int, roomType: RoomType): (r: Review)
    ensures r.recommendToFriend && !r.isVerified && r.helpfulVotes == 0
    ensures r.pros == [] && r.cons == [] && r.response.None?
  {
    Review(user, hotel, booking, rating, title, comment, [], [], true, stayDate, roomType, false, 0, None)
  }
}
