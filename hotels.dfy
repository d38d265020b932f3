/** The hotel routes (backend/routes/hotels.js): lookup with inactive hotels
    treated as absent, soft delete, the image list, and room availability for
    a date range. Admin-only routes check the caller's role before anything
    else. */
module Hotels {
  import opened Common
  import opened Seqs
  import opened BookingModel
  import opened HotelModel
  import opened Bookings

  /** The room types held by a pending or confirmed booking of the hotel whose
      dates meet the range (both bounds inclusive); the booking's own room
      type is not part of the query. */
  function BookedTypes(bookings: map<BookingId, Booking>, hotel: HotelId, checkIn: int, checkOut: int): (ts: set<RoomType>)
    ensures forall t :: t in ts <==> HasConflict(bookings, hotel, t, checkIn, checkOut)
  {
    var ts := set id | id in bookings && bookings[id].hotel == hotel && IsActive(bookings[id])
                       && Overlaps(bookings[id], checkIn, checkOut) :: bookings[id].roomType;
    assert forall t :: t in ts ==> HasConflict(bookings, hotel, t, checkIn, checkOut);
    assert forall t :: HasConflict(bookings, hotel, t, checkIn, checkOut) ==> t in ts by {
      forall t | HasConflict(bookings, hotel, t, checkIn, checkOut)
        ensures t in ts
      {
        var id :| id in bookings && Blocks(bookings[id], hotel, t, checkIn, checkOut);
        assert bookings[id].roomType == t;
      }
    }
    ts
  }

  /** The filter predicate `room.available && !bookedRoomTypes.includes(room.type)`. */
  function OfferedGiven(booked: set<RoomType>): Room -> bool {
    (r: Room) => r.available && r.roomType !in booked
  }

  /** The rooms GET /:id/availability lists for a date range, in the hotel's order. */
  function AvailableRooms(rooms: seq<Room>, bookings: map<BookingId, Booking>, hotel: HotelId,
                          checkIn: int, checkOut: int): (r: seq<Room>)
    ensures IsSubsequence(r, rooms)
    ensures forall x :: x in r <==>
              x in rooms && x.available && !HasConflict(bookings, hotel, x.roomType, checkIn, checkOut)
    ensures forall x :: multiset(r)[x] ==
              if x.available && !HasConflict(bookings, hotel, x.roomType, checkIn, checkOut)
              then multiset(rooms)[x] else 0
  {
    Filter(rooms, OfferedGiven(BookedTypes(bookings, hotel, checkIn, checkOut)))
  }

  /** What the availability route answers. */
  datatype AvailabilityReply = Missing | HotelNotFound | Offer(rooms: seq<Room>)

  /** GET /:id/availability: both dates are required, then an active hotel. */
  function Availability(hotels: map<HotelId, Hotel>, bookings: map<BookingId, Booking>, id: HotelId,
                        checkIn: Option<int>, checkOut: Option<int>): (a: AvailabilityReply)
    ensures a.Missing? <==> checkIn.None? || checkOut.None?
    ensures a.HotelNotFound? <==> checkIn.Some? && checkOut.Some? && !HotelOpen(hotels, id)
    ensures a.Offer? ==>
              HotelOpen(hotels, id) && a.rooms == AvailableRooms(hotels[id].rooms, bookings, id, checkIn.value, checkOut.value)
  {
    if checkIn.None? || checkOut.None? then Missing
    else if !HotelOpen(hotels, id) then HotelNotFound
    else Offer(AvailableRooms(hotels[id].rooms, bookings, id, checkIn.value, checkOut.value))
  }

  /** Availability and booking creation agree: a room type is listed for a
      range exactly when the create route, for that type and range, finds an
      available room and no conflicting booking. */
  lemma {:induction false} ListedIffBookable(hotels: map<HotelId, Hotel>, bookings: map<BookingId, Booking>,
                                             id: HotelId, t: RoomType, checkIn: int, checkOut: int)
    requires HotelOpen(hotels, id)
    ensures (exists x :: x in AvailableRooms(hotels[id].rooms, bookings, id, checkIn, checkOut) && x.roomType == t)
            <==> FindRoom(hotels[id].rooms, t).Some? && !HasConflict(bookings, id, t, checkIn, checkOut)
  {
    var rooms := hotels[id].rooms;
    var listed := AvailableRooms(rooms, bookings, id, checkIn, checkOut);
    FindRoomFinds(rooms, t);
    if FindRoom(rooms, t).Some? && !HasConflict(bookings, id, t, checkIn, checkOut) {
      var x := FindRoom(rooms, t).value;
      assert x in listed && x.roomType == t;
    }
    if exists x :: x in listed && x.roomType == t {
      var x :| x in listed && x.roomType == t;
      assert x in rooms && RoomMatches(x, t);
    }
  }

  /** `!img.includes(imageId)`. */
  function KeepsImage(imageId: string): string -> bool {
    (img: string) => !Contains(img, imageId)
  }

  /** The image list after DELETE /:id/images/:imageId. */
  function WithoutImage(images: seq<string>, imageId: string): (r: seq<string>)
    ensures IsSubsequence(r, images)
    ensures forall img :: img in r <==> img in images && !Contains(img, imageId)
    ensures forall img :: multiset(r)[img] == if Contains(img, imageId) then 0 else multiset(images)[img]
  {
    Filter(images, KeepsImage(imageId))
  }

  /** Removing the same image twice removes nothing more. */
  lemma {:induction false} WithoutImageIdempotent(images: seq<string>, imageId: string)
    ensures WithoutImage(WithoutImage(images, imageId), imageId) == WithoutImage(images, imageId)
  {
    FilterKeepsFixpoint(WithoutImage(images, imageId), KeepsImage(imageId));
  }

  lemma {:induction false} FilterKeepsFixpoint<T(!new)>(s: seq<T>, p: T -> bool)
    requires forall x :: x in s ==> p(x)
    ensures Filter(s, p) == s
    decreases |s|
  {
    if s != [] {
      assert s[0] in s;
      assert forall x :: x in s[1..] ==> x in s;
      FilterKeepsFixpoint(s[1..], p);
      assert [s[0]] + s[1..] == s;
    }
  }

  class HotelCatalog {
    var hotels: map<HotelId, Hotel>

    /** Every stored hotel satisfies its schema. */
    ghost predicate Valid()
      reads this
    {
      forall id :: id in hotels ==> HotelSchemaValid(hotels[id])
    }

    constructor (initial: map<HotelId, Hotel>)
      requires forall id :: id in initial ==> HotelSchemaValid(initial[id])
      ensures Valid() && hotels == initial
    {
      hotels := initial;
    }

    /** GET /:id: an inactive hotel is reported as not found. */
    method GetHotel(id: HotelId) returns (reply: Reply, hotel: Option<Hotel>)
      requires Valid()
      ensures reply == Ok <==> HotelOpen(hotels, id)
      ensures reply != Ok ==> reply == NotFound && hotel.None?
      ensures reply == Ok ==> hotel == Some(hotels[id]) && hotel.value.isActive
    {
      if id !in hotels || !hotels[id].isActive {
        return NotFound, None;
      }
      return Ok, Some(hotels[id]);
    }

    /** DELETE /:id: clears isActive; the lookup does not ask for an active hotel. */
    method SoftDelete(principal: Principal, id: HotelId) returns (reply: Reply)
      requires Valid()
      modifies this
      ensures Valid()
      ensures !IsAdmin(principal) ==> reply == Forbidden
      ensures IsAdmin(principal) && id !in old(hotels) ==> reply == NotFound
      ensures reply == Ok <==> IsAdmin(principal) && id in old(hotels)
      ensures reply == Ok ==> hotels == old(hotels)[id := old(hotels)[id].(isActive := false)]
      ensures reply != Ok ==> hotels == old(hotels)
      ensures reply == Ok ==> !HotelOpen(hotels, id)
    {
      if !IsAdmin(principal) {
        return Forbidden;
      }
      if id !in hotels {
        return NotFound;
      }
      hotels := hotels[id := hotels[id].(isActive := false)];
      reply := Ok;
    }

    /** POST /:id/images: at least one file, an existing hotel, then the
        uploaded URLs (None when the image service fails) appended in order. */
    method AddImages(principal: Principal, id: HotelId, fileCount: nat, uploaded: Option<seq<string>>)
      returns (reply: Reply)
      requires Valid()
      modifies this
      ensures Valid()
      ensures !IsAdmin(principal) ==> reply == Forbidden
      ensures IsAdmin(principal) && fileCount == 0 ==> reply == BadRequest
      ensures IsAdmin(principal) && fileCount > 0 && id !in old(hotels) ==> reply == NotFound
      ensures IsAdmin(principal) && fileCount > 0 && id in old(hotels) && uploaded.None? ==> reply == ServerError
      ensures reply == Ok <==> IsAdmin(principal) && fileCount > 0 && id in old(hotels) && uploaded.Some?
      ensures reply == Ok ==>
                hotels == old(hotels)[id := old(hotels)[id].(images := old(hotels)[id].images + uploaded.value)]
      ensures reply != Ok ==> hotels == old(hotels)
    {
      if !IsAdmin(principal) {
        return Forbidden;
      }
      if fileCount == 0 {
        return BadRequest;
      }
      if id !in hotels {
        return NotFound;
      }
      if uploaded.None? {
        return ServerError;
      }
      hotels := hotels[id := hotels[id].(images := hotels[id].images + uploaded.value)];
      reply := Ok;
    }

    /** DELETE /:id/images/:imageId: every image URL containing the id is
        dropped and saved before Cloudinary is asked to delete it, so a
        Cloudinary failure answers 500 with the list already shortened. */
    method DeleteImage(principal: Principal, id: HotelId, imageId: string, cloudinaryOk: bool)
      returns (reply: Reply)
      requires Valid()
      modifies this
      ensures Valid()
      ensures !IsAdmin(principal) ==> reply == Forbidden && hotels == old(hotels)
      ensures IsAdmin(principal) && id !in old(hotels) ==> reply == NotFound && hotels == old(hotels)
      ensures IsAdmin(principal) && id in old(hotels) ==>
                hotels == old(hotels)[id := old(hotels)[id].(images := WithoutImage(old(hotels)[id].images, imageId))]
                && (reply == Ok <==> cloudinaryOk)
                && (reply != Ok ==> reply == ServerError)
    {
      if !IsAdmin(principal) {
        return Forbidden;
      }
      if id !in hotels {
        return NotFound;
      }
      hotels := hotels[id := hotels[id].(images := WithoutImage(hotels[id].images, imageId))];
      reply := if cloudinaryOk then Ok else ServerError;
    }

    /** The rating update after a review changes: `hotel.rating = rating` and
        a save, skipped when the hotel is missing. */
    method SetRating(id: HotelId, rating: real)
      requires Valid()
      requires 1.0 <= rating <= 5.0
      modifies this
      ensures Valid()
      ensures hotels == if id in old(hotels) then old(hotels)[id := old(hotels)[id].(rating := rating)] else old(hotels)
    {
      if id in hotels {
        hotels := hotels[id := hotels[id].(rating := rating)];
      }
    }
  }
}
