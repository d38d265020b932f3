/** The review routes (backend/routes/reviews.js): creation from a completed
    booking, owner-only update and deletion, helpful votes, admin responses,
    the rating statistics and the hotel's average rating. */
module Reviews {
  import opened Common
  import opened Seqs
  import opened Money
  import opened BookingModel
  import opened ReviewModel
  import opened HotelModel
  import opened Hotels

  // ---------------------------------------------------------------------
  // Ratings of a hotel

  /** The ratings of the hotel's reviews with an id below `n`, in id order. */
  function RatingsOf(m: map<ReviewId, Review>, hotel: HotelId, n: nat): (r: seq<int>)
    ensures |r| <= n
    ensures r == [] <==> forall id :: id in m && id < n ==> m[id].hotel != hotel
    ensures (forall id :: id in m ==> 1 <= m[id].rating <= 5) ==> forall i :: 0 <= i < |r| ==> 1 <= r[i] <= 5
  {
    if n == 0 then []
    else RatingsOf(m, hotel, n - 1) + (if n - 1 in m && m[n - 1].hotel == hotel then [m[n - 1].rating] else [])
  }

  function Sum(s: seq<int>): int {
    if s == [] then 0 else Sum(s[..|s| - 1]) + s[|s| - 1]
  }

  /** $avg over the ratings. */
  function Mean(s: seq<int>): real
    requires |s| > 0
  {
    (Sum(s) as real) / (|s| as real)
  }

  lemma {:induction false} SumBounds(s: seq<int>)
    requires forall i :: 0 <= i < |s| ==> 1 <= s[i] <= 5
    ensures |s| <= Sum(s) <= 5 * |s|
  {
    if s != [] {
      SumBounds(s[..|s| - 1]);
    }
  }

  lemma QuotientBounds(x: real, n: real, lo: real, hi: real)
    requires n > 0.0 && lo * n <= x <= hi * n
    ensures lo <= x / n <= hi
  {
    var q := x / n;
    assert q * n == x;
    assert (q - lo) * n == x - lo * n;
    assert (hi - q) * n == hi * n - x;
  }

  /** The average of valid ratings lies within [1, 5]. */
  lemma {:induction false} MeanInRange(s: seq<int>)
    requires |s| > 0
    requires forall i :: 0 <= i < |s| ==> 1 <= s[i] <= 5
    ensures 1.0 <= Mean(s) <= 5.0
  {
    SumBounds(s);
    QuotientBounds(Sum(s) as real, |s| as real, 1.0, 5.0);
  }

  /** The stored average: the mean rounded to one decimal stays within the
      schema's [1, 5] and within 0.05 of the mean. */
  lemma {:induction false} RoundedMeanInRange(s: seq<int>)
    requires |s| > 0
    requires forall i :: 0 <= i < |s| ==> 1 <= s[i] <= 5
    ensures 1.0 <= ToFixed1(Mean(s)) <= 5.0
    ensures -0.05 <= ToFixed1(Mean(s)) - Mean(s) <= 0.05
  {
    MeanInRange(s);
    var x := Mean(s);
    var k := RoundHalfAway(x * 10.0);
    assert 10 <= k <= 50;
    assert ToFixed1(x) == (k as real) / 10.0;
  }

  // ---------------------------------------------------------------------
  // The rating breakdown

  /** How many entries of `s` equal `k`. */
  function Count(s: seq<int>, k: int): (c: nat)
    ensures c <= |s|
  {
    if s == [] then 0 else Count(s[..|s| - 1], k) + (if s[|s| - 1] == k then 1 else 0)
  }

  /** Every rating lands in exactly one of the five stars. */
  lemma {:induction false} CountsSumToLength(s: seq<int>)
    requires forall i :: 0 <= i < |s| ==> 1 <= s[i] <= 5
    ensures Count(s, 1) + Count(s, 2) + Count(s, 3) + Count(s, 4) + Count(s, 5) == |s|
  {
    if s != [] {
      CountsSumToLength(s[..|s| - 1]);
    }
  }

  /** `{ 1: 0, ..., 5: 0 }` and `ratingBreakdown[rating]++` for each rating. */
  method Breakdown(ratings: seq<int>) returns (counts: map<int, nat>)
    requires forall i :: 0 <= i < |ratings| ==> 1 <= ratings[i] <= 5
    ensures counts.Keys == {1, 2, 3, 4, 5}
    ensures forall k :: k in counts ==> counts[k] == Count(ratings, k)
  {
    counts := map[1 := 0, 2 := 0, 3 := 0, 4 := 0, 5 := 0];
    var i := 0;
    while i < |ratings|
      invariant i <= |ratings|
      invariant counts.Keys == {1, 2, 3, 4, 5}
      invariant forall k :: k in counts ==> counts[k] == Count(ratings[..i], k)
    {
      var r := ratings[i];
      assert ratings[..i + 1][..i] == ratings[..i];
      counts := counts[r := counts[r] + 1];
      i := i + 1;
    }
    assert ratings[..i] == ratings;
  }

  datatype Statistics = Statistics(averageRating: real, totalReviews: nat, ratingBreakdown: map<int, nat>)

  // ---------------------------------------------------------------------
  // Requests

  datatype ReviewRequest = ReviewRequest(
    bookingId: Option<BookingId>,
    rating: int,
    title: string,
    comment: string,
    pros: Option<seq<string>>,
    cons: Option<seq<string>>,
    recommendToFriend: Option<bool>)

  /** The create route's validators, which look at the untrimmed text. */
  predicate ReviewRequestValid(q: ReviewRequest) {
    q.bookingId.Some? && 1 <= q.rating <= 5 && q.title != "" && q.comment != ""
  }

  /** The review POST / builds from the request and the booking: title and
      comment trimmed, hotel, stay date and room type from the booking,
      verified, lists defaulting to empty and the recommendation to true. */
  function ReviewFrom(user: UserId, b: Booking, q: ReviewRequest): (r: Review)
    requires q.bookingId.Some?
    ensures r.user == user && r.hotel == b.hotel && r.booking == q.bookingId.value
    ensures r.stayDate == b.checkIn && r.roomType == b.roomType && r.isVerified
    ensures r.title == Trim(q.title) && r.comment == Trim(q.comment) && r.rating == q.rating
    ensures r.pros == q.pros.GetOr([]) && r.cons == q.cons.GetOr([])
    ensures r.recommendToFriend == q.recommendToFriend.GetOr(true)
    ensures r.helpfulVotes == 0 && r.response.None?
  {
    DefaultReview(user, b.hotel, q.bookingId.value, q.rating, Trim(q.title), Trim(q.comment), b.checkIn, b.roomType)
      .(pros := q.pros.GetOr([]), cons := q.cons.GetOr([]),
        recommendToFriend := q.recommendToFriend.GetOr(true), isVerified := true)
  }

  /** A title of blanks passes the create route's validator but is trimmed
      to the empty string, which the schema then rejects. */
  lemma BlankTitleFailsSchema(user: UserId, b: Booking, q: ReviewRequest)
    requires q.bookingId.Some? && q.title != [] && forall i :: 0 <= i < |q.title| ==> IsSpace(q.title[i])
    ensures !ReviewSchemaValid(ReviewFrom(user, b, q))
  {
  }

  /** The body of PUT /:reviewId as Object.assign copies it: every field the
      client sends, including those the validators do not look at. A
      `response` of `Some(None)` is a body that sends `response: null`. */
  datatype ReviewPatch = ReviewPatch(
    rating: Option<int>,
    title: Option<string>,
    comment: Option<string>,
    pros: Option<seq<string>>,
    cons: Option<seq<string>>,
    recommendToFriend: Option<bool>,
    user: Option<UserId>,
    hotel: Option<HotelId>,
    booking: Option<BookingId>,
    stayDate: Option<int>,
    roomType: Option<RoomType>,
    isVerified: Option<bool>,
    helpfulVotes: Option<int>,
    response: Option<Option<ReviewResponse>>)

  /** An empty body. */
  const NoChanges: ReviewPatch :=
    ReviewPatch(None, None, None, None, None, None, None, None, None, None, None, None, None, None)

  /** The update route's only constraint: a rating, when sent, is an integer in [1, 5]. */
  predicate PatchValid(p: ReviewPatch) {
    p.rating.Some? ==> 1 <= p.rating.value <= 5
  }

  function TrimOpt(s: Option<string>): Option<string> {
    if s.Some? then Some(Trim(s.value)) else None
  }

  /** Object.assign(review, body) after the trim sanitizers: a field the body
      sends replaces the stored one (title and comment trimmed), and a field it
      does not send is kept. */
  function Patched(r: Review, p: ReviewPatch): (r': Review)
    ensures r'.rating == (if p.rating.Some? then p.rating.value else r.rating)
    ensures r'.title == (if p.title.Some? then Trim(p.title.value) else r.title)
    ensures r'.comment == (if p.comment.Some? then Trim(p.comment.value) else r.comment)
    ensures r'.pros == (if p.pros.Some? then p.pros.value else r.pros)
    ensures r'.cons == (if p.cons.Some? then p.cons.value else r.cons)
    ensures r'.recommendToFriend == (if p.recommendToFriend.Some? then p.recommendToFriend.value else r.recommendToFriend)
    ensures r'.user == (if p.user.Some? then p.user.value else r.user)
    ensures r'.booking == (if p.booking.Some? then p.booking.value else r.booking)
    ensures r'.hotel == (if p.hotel.Some? then p.hotel.value else r.hotel)
    ensures r'.stayDate == (if p.stayDate.Some? then p.stayDate.value else r.stayDate)
    ensures r'.roomType == (if p.roomType.Some? then p.roomType.value else r.roomType)
    ensures r'.isVerified == (if p.isVerified.Some? then p.isVerified.value else r.isVerified)
    ensures r'.helpfulVotes == (if p.helpfulVotes.Some? then p.helpfulVotes.value else r.helpfulVotes)
    ensures r'.response == (if p.response.Some? then p.response.value else r.response)
  {
    r.(rating := p.rating.GetOr(r.rating),
       title := TrimOpt(p.title).GetOr(r.title),
       comment := TrimOpt(p.comment).GetOr(r.comment),
       pros := p.pros.GetOr(r.pros),
       cons := p.cons.GetOr(r.cons),
       recommendToFriend := p.recommendToFriend.GetOr(r.recommendToFriend),
       user := p.user.GetOr(r.user),
       hotel := p.hotel.GetOr(r.hotel),
       booking := p.booking.GetOr(r.booking),
       stayDate := p.stayDate.GetOr(r.stayDate),
       roomType := p.roomType.GetOr(r.roomType),
       isVerified := p.isVerified.GetOr(r.isVerified),
       helpfulVotes := p.helpfulVotes.GetOr(r.helpfulVotes),
       response := p.response.GetOr(r.response))
  }

  /** An empty body changes nothing, and applying the same body twice is
      applying it once. */
  lemma {:induction false} PatchIdempotent(r: Review, p: ReviewPatch)
    ensures Patched(Patched(r, p), p) == Patched(r, p)
    ensures Patched(r, NoChanges) == r
  {
    if p.title.Some? {
      TrimIdempotent(p.title.value);
    }
    if p.comment.Some? {
      TrimIdempotent(p.comment.value);
    }
  }

  lemma {:induction false} TrimIdempotent(s: string)
    ensures Trim(Trim(s)) == Trim(s)
  {
    var t := Trim(s);
    if t != [] {
      assert LeadingSpaces(t) == 0;
      assert TrailingStart(t) == |t|;
    }
  }

  /** An owner can raise their own review's helpful votes and mark it verified
      through the update route. */
  lemma OwnerCanSetVotes(r: Review, votes: int)
    ensures var r' := Patched(r, NoChanges.(isVerified := Some(true), helpfulVotes := Some(votes)));
      r'.helpfulVotes == votes && r'.isVerified && r'.rating == r.rating
  {
  }

  /** An owner can write the hotel's official response to their own review
      through the update route: the body passes the route's validators, the
      patched review still satisfies the schema and the unique index, and it
      carries the response of the author's choosing. */
  lemma OwnerCanForgeResponse(m: map<ReviewId, Review>, id: ReviewId, forged: ReviewResponse)
    requires id in m && ReviewSchemaValid(m[id])
    ensures var p := NoChanges.(response := Some(Some(forged)));
      var r' := Patched(m[id], p);
      && PatchValid(p)
      && ReviewSchemaValid(r')
      && (UniqueAccepts(m, id, r') <==> UniqueAccepts(m, id, m[id]))
      && r'.response == Some(forged)
      && r' == m[id].(response := Some(forged))
  {
  }

  /** The hotel table after updateHotelRating(hotel) over the reviews with ids
      below `n`: when the hotel has ratings its rating becomes their mean to
      one decimal, which lies in [1, 5]; every other hotel, and a hotel
      without ratings, is left as it was. */
  function Rerated(hotels: map<HotelId, Hotel>, m: map<ReviewId, Review>, hotel: HotelId, n: nat)
    : (h: map<HotelId, Hotel>)
    requires forall id :: id in m ==> 1 <= m[id].rating <= 5
    ensures h.Keys == hotels.Keys
    ensures forall k :: k in hotels && k != hotel ==> h[k] == hotels[k]
    ensures RatingsOf(m, hotel, n) == [] ==> h == hotels
    ensures hotel in hotels && RatingsOf(m, hotel, n) != [] ==>
              && h[hotel] == hotels[hotel].(rating := ToFixed1(Mean(RatingsOf(m, hotel, n))))
              && 1.0 <= h[hotel].rating <= 5.0
              && -0.05 <= h[hotel].rating - Mean(RatingsOf(m, hotel, n)) <= 0.05
  {
    var rs := RatingsOf(m, hotel, n);
    if rs != [] && hotel in hotels then
      RoundedMeanInRange(rs);
      hotels[hotel := hotels[hotel].(rating := ToFixed1(Mean(rs)))]
    else
      hotels
  }

  predicate HasReview(m: map<ReviewId, Review>, user: UserId, booking: BookingId) {
    exists j :: j in m && m[j].user == user && m[j].booking == booking
  }

  class ReviewStore {
    var reviews: map<ReviewId, Review>
    var nextId: nat

    /** Every stored review satisfies its schema, the unique index holds and
        ids are below nextId. */
    ghost predicate Valid()
      reads this
    {
      && (forall id :: id in reviews ==> id < nextId && ReviewSchemaValid(reviews[id]))
      && OnePerUserBooking(reviews)
    }

    constructor ()
      ensures Valid() && reviews == map[]
    {
      reviews := map[];
      nextId := 0;
    }

    /** review.save(): the schema validators, then the unique index. */
    predicate Saveable(id: ReviewId, r: Review)
      reads this
    {
      ReviewSchemaValid(r) && UniqueAccepts(reviews, id, r)
    }

    /** The statistics of GET /hotel/:hotelId: the average rounded to one
        decimal (0 without reviews), the count and the per-star breakdown. */
    method HotelStatistics(hotel: HotelId) returns (stats: Statistics)
      requires Valid()
      ensures var rs := RatingsOf(reviews, hotel, nextId);
        && stats.totalReviews == |rs|
        && (rs == [] ==> stats.averageRating == 0.0)
        && (rs != [] ==> 1.0 <= stats.averageRating <= 5.0 && -0.05 <= stats.averageRating - Mean(rs) <= 0.05)
        && stats.ratingBreakdown.Keys == {1, 2, 3, 4, 5}
        && (forall k :: k in stats.ratingBreakdown ==> stats.ratingBreakdown[k] == Count(rs, k))
        && stats.ratingBreakdown[1] + stats.ratingBreakdown[2] + stats.ratingBreakdown[3]
           + stats.ratingBreakdown[4] + stats.ratingBreakdown[5] == stats.totalReviews
    {
      var rs := RatingsOf(reviews, hotel, nextId);
      var counts := Breakdown(rs);
      CountsSumToLength(rs);
      var average := 0.0;
      if rs != [] {
        RoundedMeanInRange(rs);
        average := ToFixed1(Mean(rs));
      }
      stats := Statistics(average, |rs|, counts);
    }

    /** updateHotelRating: with at least one review the hotel's rating becomes
        the mean rounded to one decimal; with none it is left as it was. */
    method UpdateHotelRating(catalog: HotelCatalog, hotel: HotelId)
      requires Valid() && catalog.Valid()
      modifies catalog
      ensures catalog.Valid()
      ensures catalog.hotels == Rerated(old(catalog.hotels), reviews, hotel, nextId)
    {
      var rs := RatingsOf(reviews, hotel, nextId);
      if rs != [] {
        RoundedMeanInRange(rs);
        catalog.SetRating(hotel, ToFixed1(Mean(rs)));
      }
    }

    /** POST /: validation, the booking (found, owned, completed), no earlier
        review of it by the caller, the save, then the hotel's rating. */
    method Create(principal: Principal, bookings: map<BookingId, Booking>, q: ReviewRequest, catalog: HotelCatalog)
      returns (reply: Reply, id: ReviewId)
      requires Valid() && catalog.Valid()
      modifies this, catalog
      ensures Valid() && catalog.Valid()
      ensures reply in {Created, BadRequest, Forbidden, NotFound, ServerError}
      ensures !ReviewRequestValid(q) ==> reply == BadRequest
      ensures ReviewRequestValid(q) && q.bookingId.value !in bookings ==> reply == NotFound
      ensures (ReviewRequestValid(q) && q.bookingId.value in bookings
               && bookings[q.bookingId.value].user != principal.id) ==> reply == Forbidden
      ensures (ReviewRequestValid(q) && q.bookingId.value in bookings
               && bookings[q.bookingId.value].user == principal.id
               && bookings[q.bookingId.value].status != Completed) ==> reply == BadRequest
      ensures (ReviewRequestValid(q) && q.bookingId.value in bookings
               && bookings[q.bookingId.value].user == principal.id
               && bookings[q.bookingId.value].status == Completed
               && HasReview(old(reviews), principal.id, q.bookingId.value)) ==> reply == BadRequest
      ensures reply == Created <==>
                ReviewRequestValid(q) && q.bookingId.value in bookings
                && bookings[q.bookingId.value].user == principal.id
                && bookings[q.bookingId.value].status == Completed
                && !HasReview(old(reviews), principal.id, q.bookingId.value)
                && ReviewSchemaValid(ReviewFrom(principal.id, bookings[q.bookingId.value], q))
      ensures reply == Created ==>
                q.bookingId.Some? && q.bookingId.value in bookings
                && id == old(nextId)
                && reviews == old(reviews)[id := ReviewFrom(principal.id, bookings[q.bookingId.value], q)]
                && catalog.hotels == Rerated(old(catalog.hotels), reviews, reviews[id].hotel, nextId)
                && RatingsOf(reviews, reviews[id].hotel, nextId) != []
      ensures reply != Created ==> reviews == old(reviews) && catalog.hotels == old(catalog.hotels)
    {
      id := nextId;
      if !ReviewRequestValid(q) {
        return BadRequest, id;
      }
      var bid := q.bookingId.value;
      if bid !in bookings {
        return NotFound, id;
      }
      var b := bookings[bid];
      if b.user != principal.id {
        return Forbidden, id;
      }
      if b.status != Completed {
        return BadRequest, id;
      }
      if HasReview(reviews, principal.id, bid) {
        return BadRequest, id;
      }
      var r := ReviewFrom(principal.id, b, q);
      if !ReviewSchemaValid(r) {
        return ServerError, id;
      }
      UniqueAcceptsPreserves(reviews, id, r);
      reviews := reviews[id := r];
      nextId := nextId + 1;
      UpdateHotelRating(catalog, b.hotel);
      reply := Created;
    }

    /** PUT /:reviewId: the rating check, lookup, ownership, then the body
        mass-assigned and saved; the rating is recomputed for the hotel the
        review names afterwards. */
    method Update(principal: Principal, id: ReviewId, p: ReviewPatch, catalog: HotelCatalog)
      returns (reply: Reply)
      requires Valid() && catalog.Valid()
      modifies this, catalog
      ensures Valid() && catalog.Valid()
      ensures reply in {Ok, BadRequest, Forbidden, NotFound, ServerError}
      ensures !PatchValid(p) ==> reply == BadRequest
      ensures PatchValid(p) && id !in old(reviews) ==> reply == NotFound
      ensures (PatchValid(p) && id in old(reviews) && old(reviews)[id].user != principal.id) ==> reply == Forbidden
      ensures reply == Ok <==>
                PatchValid(p) && id in old(reviews) && old(reviews)[id].user == principal.id
                && ReviewSchemaValid(Patched(old(reviews)[id], p))
                && UniqueAccepts(old(reviews), id, Patched(old(reviews)[id], p))
      ensures reply == Ok ==>
                && id in old(reviews) && reviews == old(reviews)[id := Patched(old(reviews)[id], p)]
                && catalog.hotels == Rerated(old(catalog.hotels), reviews, reviews[id].hotel, nextId)
                && RatingsOf(reviews, reviews[id].hotel, nextId) != []
      ensures reply != Ok ==> reviews == old(reviews) && catalog.hotels == old(catalog.hotels)
    {
      if !PatchValid(p) {
        return BadRequest;
      }
      if id !in reviews {
        return NotFound;
      }
      var r := reviews[id];
      if r.user != principal.id {
        return Forbidden;
      }
      var r' := Patched(r, p);
      if !Saveable(id, r') {
        return ServerError;
      }
      UniqueAcceptsPreserves(reviews, id, r');
      reviews := reviews[id := r'];
      UpdateHotelRating(catalog, r'.hotel);
      reply := Ok;
    }

    /** DELETE /:reviewId: owner only (no admin bypass); the hotel's rating is
        recomputed from the remaining reviews, and kept when none remain. */
    method Delete(principal: Principal, id: ReviewId, catalog: HotelCatalog) returns (reply: Reply)
      requires Valid() && catalog.Valid()
      modifies this, catalog
      ensures Valid() && catalog.Valid()
      ensures reply in {Ok, Forbidden, NotFound}
      ensures id !in old(reviews) ==> reply == NotFound
      ensures id in old(reviews) && old(reviews)[id].user != principal.id ==> reply == Forbidden
      ensures reply == Ok <==> id in old(reviews) && old(reviews)[id].user == principal.id
      ensures reply == Ok ==>
                && reviews == old(reviews) - {id}
                && catalog.hotels == Rerated(old(catalog.hotels), reviews, old(reviews)[id].hotel, nextId)
      ensures reply != Ok ==> reviews == old(reviews) && catalog.hotels == old(catalog.hotels)
      ensures (reply == Ok && RatingsOf(reviews, old(reviews)[id].hotel, nextId) == []) ==>
                catalog.hotels == old(catalog.hotels)
    {
      if id !in reviews {
        return NotFound;
      }
      var r := reviews[id];
      if r.user != principal.id {
        return Forbidden;
      }
      reviews := reviews - {id};
      UpdateHotelRating(catalog, r.hotel);
      reply := Ok;
    }

    /** POST /:reviewId/helpful: any authenticated caller, any number of times. */
    method MarkHelpful(id: ReviewId) returns (reply: Reply, votes: int)
      requires Valid()
      modifies this`reviews
      ensures Valid()
      ensures reply == Ok <==> id in old(reviews)
      ensures reply != Ok ==> reply == NotFound && reviews == old(reviews)
      ensures reply == Ok ==>
                votes == old(reviews)[id].helpfulVotes + 1
                && reviews == old(reviews)[id := old(reviews)[id].(helpfulVotes := votes)]
    {
      votes := 0;
      if id !in reviews {
        return NotFound, votes;
      }
      var r := reviews[id];
      votes := r.helpfulVotes + 1;
      UniqueAcceptsPreserves(reviews, id, r.(helpfulVotes := votes));
      reviews := reviews[id := r.(helpfulVotes := votes)];
      reply := Ok;
    }

    /** POST /:reviewId/response: admin only; text and author must be
        non-empty before trimming; a later response replaces an earlier one. */
    method Respond(principal: Principal, id: ReviewId, text: string, author: string, now: int)
      returns (reply: Reply)
      requires Valid()
      modifies this`reviews
      ensures Valid()
      ensures reply in {Ok, BadRequest, Forbidden, NotFound}
      ensures !IsAdmin(principal) ==> reply == Forbidden
      ensures IsAdmin(principal) && (text == "" || author == "") ==> reply == BadRequest
      ensures IsAdmin(principal) && text != "" && author != "" && id !in old(reviews) ==> reply == NotFound
      ensures reply == Ok <==> IsAdmin(principal) && text != "" && author != "" && id in old(reviews)
      ensures reply == Ok ==>
                reviews == old(reviews)[id := old(reviews)[id].(response := Some(ReviewResponse(Trim(text), Trim(author), now)))]
      ensures reply != Ok ==> reviews == old(reviews)
    {
      if !IsAdmin(principal) {
        return Forbidden;
      }
      if text == "" || author == "" {
        return BadRequest;
      }
      if id !in reviews {
        return NotFound;
      }
      var r := reviews[id].(response := Some(ReviewResponse(Trim(text), Trim(author), now)));
      UniqueAcceptsPreserves(reviews, id, r);
      reviews := reviews[id := r];
      reply := Ok;
    }
  }

  /** Removing a hotel's only review leaves no ratings for it, so the delete
      route keeps the rating that review produced. */
  lemma LastReviewLeavesRatingStale(m: map<ReviewId, Review>, id: ReviewId, n: nat)
    requires id in m && id < n
    requires forall j :: j in m && j < n && j != id ==> m[j].hotel != m[id].hotel
    ensures RatingsOf(m, m[id].hotel, n) != []
    ensures RatingsOf(m - {id}, m[id].hotel, n) == []
  {
  }
}
