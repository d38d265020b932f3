# Hotel booking core in Dafny

This project models the booking back end of a hotel-reservation web
application (an Express/Mongoose server with a React client). It covers the
booking record and every request handler that changes it:

- reservation creation, with its date guards, the conflict query, nights ×
  room price and the pricing totals;
- status changes by the owner or an admin, and cancellation;
- the admin status override;
- payment reconciliation: binding a Stripe payment intent, the client's
  confirm call, the refund and the Stripe webhook;
- the schema constraints of bookings, hotels and reviews, including the
  booking `pre('save')` hook, which runs on every save;
- room availability, soft delete and the hotel image list;
- review creation, update, deletion, helpful votes and admin responses, the
  star breakdown and the hotel's average rating;
- the dashboard's revenue total and the user `isActive` toggle;
- the client's `authReducer` session state machine.

## Layout

| file | module | what it holds |
|---|---|---|
| `common.dfy` | `Common`, `Seqs` | `Option`, the reply codes (200/201/400/403/404/500), principals and roles; subsequences, `filter`, substring search and `trim` |
| `money.dfy` | `Money` | `toFixed` and `Math.round` on exact rationals, `calculateBookingTotal`, the cents conversions of the Stripe calls |
| `models.dfy` | `BookingModel`, `HotelModel`, `ReviewModel` | the three schemas: enums, defaults, validators, the save check and the review unique index |
| `bookings.dfy` | `Bookings` | the conflict predicate, nights, pagination, and the `BookingStore` class with create, status update and cancel |
| `payments.dfy` | `Payments` | create-payment-intent, confirm-payment, refund and the webhook on the same store |
| `hotels.dfy` | `Hotels` | availability, and the `HotelCatalog` class with lookup, soft delete, images and the rating update |
| `reviews.dfy` | `Reviews` | rating arithmetic, the breakdown loop, and the `ReviewStore` class |
| `admin.dfy` | `Admin` | revenue, the booking status override, and the `UserDirectory` class |
| `auth_context.dfy` | `AuthContext` | `initialState`, `authReducer` and its invariant |
| `scenario.dfy` | `Scenario` | one guest's journey on concrete dates, as methods whose contracts pin down every reply |

## Modelling decisions

- **Stores are classes.** Each handler loads one document, assigns fields
  and saves it. A handler is one method on a class holding a map from id to
  document: `BookingStore`, `HotelCatalog`, `ReviewStore`, `UserDirectory`.
  Ids are natural numbers allocated in insertion order. `findOne` returns the
  least matching id, found by a loop over the ids.
- **Replies** are the HTTP status codes the handler returns. A handler that
  throws inside its `try` answers 500. The webhook's `catch` answers 400.
- **Time** is an integer number of milliseconds and `now` is a parameter.
  One day is 86 400 000 ms.
- **Money** is an exact rational number of dollars. `toFixed(2)` rounds half
  away from zero at the cent, and `Math.round` rounds half up. Stripe
  amounts are integers in cents.
- **Foreign calls are parameters.**
  - Stripe: the intent it creates (or `None` when the call throws), the
    intent it reports back, whether it accepts a refund, and the event a
    verified webhook carries (`None` when verification fails).
  - Cloudinary: the uploaded URLs, or whether the delete succeeded.
  - Email: whether the message was delivered. A delivered email is
    appended to `BookingStore.outbox`.
- **Every save runs the schema validators and then the `pre('save')`
  hook**, as `CanSave(b, now)`. So every later update fails once the
  check-in date has passed, not only the create.
- **The authenticated caller** is a `Principal` (id and role). The
  authentication middleware is not modelled. Admin-only routes check the
  role first, before any validation.

## Behaviour worth knowing

The model follows the code as written. These consequences of it are proved,
each grounded in the source lines named here:

- **Inclusive bounds.** The conflict query at
  `backend/routes/bookings.js:124-134` compares with `$lte`/`$gte`, so a stay
  starting on another's check-out day is refused
  (`Bookings.BackToBackStaysCollide`, `Scenario.BackToBackIsRefused`). A
  hotel would usually expect half-open stays, where back-to-back bookings
  are allowed; that is an expectation, not something the repository states.
  The invariant the create, status and cancel handlers preserve is the
  inclusive one, `Bookings.NoDoubleBooking`. It implies the half-open one
  (`Bookings.NoDoubleBookingSeparatesStays`).
- **The terminal guard is applied unevenly.** The status route and the
  cancel route refuse to touch a completed or cancelled booking
  (`backend/routes/bookings.js:211-212` and `:255-256`). confirm-payment
  (`backend/routes/payments.js:91-95`), the webhook (`:205-208`) and the
  admin override (`backend/routes/admin.js:207-211`) have no such guard and
  rewrite the status whatever it was. A cancelled booking can become
  confirmed again over a slot that was rebooked in the meantime
  (`Payments.ConfirmingCancelledBookingDoubleBooks`,
  `Scenario.CancelledThenConfirmedDoubleBooks`, which runs the routes,
  and `Admin.AdminReopeningDoubleBooks`).
- **A failed-payment event overwrites `paid`** at
  `backend/routes/payments.js:217-219` (`Payments.FailedEventOverwritesPaid`),
  so the order of the two notification paths matters.
- **Emails on every confirm.** confirm-payment sends its email on every
  call with a succeeded intent (`backend/routes/payments.js:97-103`). Its
  failure is not swallowed: the route answers 500 after the booking was
  saved (`Payments.ConfirmPayment`).
- **Cancelling does not refund.** `DELETE /bookings/:id`
  (`backend/routes/bookings.js:259-261`) leaves a paid booking paid
  (`Scenario.PaidThenCancelled`).
- **The pre-save hook on check-in.** The hook at
  `backend/models/Booking.js:98-110` runs on every save, so a refund
  requested after check-in is sent to Stripe, and then the booking cannot be
  saved as refunded (`Payments.RefundAfterCheckInCannotBeRecorded`).
- **Totals from the client.** create-payment-intent
  (`backend/routes/payments.js:33-48`) recomputes the stored totals from the
  amount the client sends, not from the booking.
- **Rounding of the total.** The total is rounded on its own
  (`backend/services/paymentService.js:88-95`), so it can differ by a cent
  from the sum of the rounded parts (`Money.TotalDiffersFromPartsExample`).
- **The review update copies the whole body.** `Object.assign(review,
  updateData)` at `backend/routes/reviews.js:175` copies every field the
  body sends, including `response`, `helpfulVotes`, `isVerified`, `hotel`,
  `stayDate` and `roomType`. An author can therefore write the hotel's
  official response to their own review, which otherwise only the admin
  route at `:289-293` sets (`Reviews.OwnerCanForgeResponse`), and set their
  own helpful votes (`Reviews.OwnerCanSetVotes`).

Two more behaviours of the review routes follow the code in the same way. A
title of blanks passes the validator and then fails the schema after
trimming (`Reviews.BlankTitleFailsSchema`). Deleting a hotel's last review
leaves its rating as it was (`Reviews.LastReviewLeavesRatingStale`).

## Model

| member | source | states |
|---|---|---|
| Money.ToFixed2 | backend/services/paymentService.js:91-94 | `parseFloat(x.toFixed(2))` is a whole number of cents within half a cent of `x` |
| Money.CalculateBookingTotal | backend/services/paymentService.js:85-95 | every field is whole cents; base, tax (base × taxRate), service charge (base × serviceChargeRate) and total (their sum) are each within half a cent of the exact value |
| Money.PaymentIntentRequest | backend/services/paymentService.js:5-8 | the charge is `Math.round(amount × 100)` cents (within half a cent of the exact amount), and the currency defaults to "usd" |
| Money.RefundRequestFor | backend/services/paymentService.js:42-47 | cents are sent exactly when an amount is given and non-zero, and then equal `Math.round(amount × 100)`; otherwise it is a full refund for the same intent |
| Money.CentsRoundTrip | backend/services/paymentService.js:8 | for a whole-cent amount, converting to cents and back (`amount / 100` on confirm) gives the same amount |
| Money.TotalWithinOneCentOfParts | backend/services/paymentService.js:88-95 | for a whole-cent base, the stored base is unchanged and the stored total is within one cent of base + tax + service charge as stored |
| Money.TotalDiffersFromPartsExample | backend/services/paymentService.js:88-95 | a base of 0.16 is stored as (0.16, 0.02, 0.01, 0.18), whose parts sum to 0.19 |
| Money.DefaultTotalsOfHundred | backend/services/paymentService.js:85-96 | with the default rates, a base of 100 gives tax 10.00, service 5.00 and total 115.00 |
| BookingModel.SaveCheck | backend/models/Booking.js:98-110 | a save succeeds exactly when the schema validators pass, check-in is before check-out and check-in is not in the past; with valid fields, dates out of order are the error reported |
| BookingModel.NewBooking | backend/models/Booking.js:43-84 | a new booking is pending in both statuses, with nothing paid, no discount, currency "USD", no intent and no cancellation |
| BookingModel.StatusFieldsDoNotAffectSchema | backend/models/Booking.js:27-84 | rewriting only the status, payment and cancellation fields keeps the schema validators satisfied |
| HotelModel.NewRoom | backend/models/Hotel.js:4-21 | a room keeps its type, price and capacity, and `available` defaults to true |
| HotelModel.NewHotel | backend/models/Hotel.js:25-83 | a new hotel stores its name trimmed (the `trim` setter), has rating 4, check-in "14:00", check-out "11:00" and is active |
| HotelModel.NewHotelValid | backend/models/Hotel.js:25-58 | a new hotel satisfies the schema exactly when its name has a non-blank character and its description is non-empty; a name of blanks is trimmed to "" and fails `required` |
| ReviewModel.UniqueAcceptsPreserves | backend/models/Review.js:67 | a save the (user, booking) unique index accepts keeps at most one review per pair |
| ReviewModel.DefaultReview | backend/models/Review.js:37-56 | the defaults: recommendToFriend true, isVerified false, no helpful votes, no pros, cons or response |
| Bookings.Nights | backend/routes/bookings.js:141 | nights is the ceiling of the stay's length in days, so at least one when check-in is before check-out |
| Bookings.Candidate | backend/routes/bookings.js:141-159 | the new document is pending, unpaid, for the caller, on the requested slot, with the totals of room price × nights; children default to 0 and the payment method to credit card |
| Bookings.FindRoomFinds | backend/routes/bookings.js:118-121 | the room lookup fails exactly when no room has the type and is available; otherwise it returns such a room |
| Bookings.CancellationReason | backend/routes/bookings.js:260 | the given reason when it is non-empty, otherwise "Cancelled by user" |
| Bookings.StatusUpdateChangesOnlyStatus | backend/routes/bookings.js:220-224 | an allowed update sets the status, changes the reason and date only when cancelling (to the given reason and now), keeps the slot and cannot activate an inactive booking |
| Bookings.NoDoubleBookingSeparatesStays | backend/routes/bookings.js:124-138 | in a store without double bookings, two active bookings of one hotel and room type are separated by a gap, so their half-open stays are disjoint |
| Bookings.InsertPreservesNoDoubleBooking | backend/routes/bookings.js:124-161 | inserting a booking the conflict query does not object to keeps the store free of double bookings |
| Bookings.UpdateInPlacePreservesNoDoubleBooking | backend/routes/bookings.js:220-226 | rewriting a booking without moving its slot and without activating it keeps the store free of double bookings |
| Bookings.BackToBackStaysCollide | backend/routes/bookings.js:128-133 | an active stay blocks a new stay that starts on its check-out day |
| Bookings.InactiveNeverBlocks | backend/routes/bookings.js:127 | cancelled and completed bookings never block a new stay |
| Bookings.Paginate | backend/routes/bookings.js:24-37 | totalPages is defined exactly when limit > 0 and is then the least number of pages that holds every item; hasPrev holds exactly when page > 1 |
| Bookings.HasNextIffBeforeLastPage | backend/routes/bookings.js:33-35 | `page × limit < total` holds exactly when the page comes before totalPages |
| Bookings.BookingStore.FindConflict | backend/routes/bookings.js:124-134 | finds nothing exactly when no stored booking blocks the slot; otherwise returns the first blocking booking |
| Bookings.BookingStore.FindByIntent | backend/routes/payments.js:80 | finds nothing exactly when no booking is bound to the intent; otherwise returns the first bound booking |
| Bookings.BookingStore.Save | backend/models/Booking.js:98-110 | the document is stored exactly when it passes the save check; otherwise the store is unchanged |
| Bookings.BookingStore.Send | backend/routes/bookings.js:167-172 | a delivered email is appended to the outbox; a failed one appends nothing |
| Bookings.BookingStore.Create | backend/routes/bookings.js:82-178 | each guard's reply in order (validation, past check-in, dates out of order → 400; closed hotel → 404; no room, conflict → 400); created exactly when all pass and the save check holds; then exactly one new pending record at a fresh id, the totals returned and the email logged if delivered; otherwise nothing changes; no double booking is introduced |
| Bookings.BookingStore.UpdateStatus | backend/routes/bookings.js:186-226 | the guards in order (status not confirmed/cancelled → 400, unknown → 404, neither owner nor admin → 403, terminal → 400, non-admin confirming → 403); success exactly when they pass and the save check holds, rewriting only that booking; any rejection leaves the store unchanged; no double booking is introduced |
| Bookings.BookingStore.Cancel | backend/routes/bookings.js:241-272 | unknown → 404, neither owner nor admin → 403, terminal → 400; success exactly when these pass and the save check holds; then the booking is cancelled with the given or default reason and now, and the email is logged if delivered; a failed email does not undo the cancellation; no double booking is introduced |
| Payments.ChargeMatchesStoredTotal | backend/routes/payments.js:33-48 | the cents charged for the recomputed total convert back to that total, so the amount recorded on confirm equals the stored total |
| Payments.MarkPaidIdempotent | backend/routes/payments.js:91-95 | applying the same succeeded intent twice gives the state of applying it once |
| Payments.NoReturnToPaymentPending | backend/routes/payments.js:92-218 | none of the paid, failed and refunded transitions leaves the payment pending |
| Payments.BindingKeepsStatusesAndRefundIsFinal | backend/routes/payments.js:46-51 | binding an intent keeps both statuses and stores the intent id; a refunded booking is cancelled and no longer paid, so a second refund is refused |
| Payments.ConfirmingCancelledBookingDoubleBooks | backend/routes/payments.js:80-95 | a store without double bookings whose cancelled booking is the first bound to its intent, owned by the caller and savable as paid; by the confirm route's contract its confirm stores that booking paid and confirmed, and the store then holds a double booking |
| Payments.FailedEventOverwritesPaid | backend/routes/payments.js:217-219 | a failed-payment event turns a paid booking into failed, keeping its status and the amount paid |
| Payments.RefundAfterCheckInCannotBeRecorded | backend/models/Booking.js:104-107 | once check-in has passed, neither the refunded nor the paid rewrite of the booking can be saved |
| Payments.CreatePaymentIntent | backend/routes/payments.js:12-57 | missing id or amount < 0.01 → 400, unknown → 404, not the owner → 403, with no Stripe call; otherwise the charge is the defaulted totals of the client's amount in cents; Ok exactly when Stripe answers and the save check holds; then only the intent id and the three totals of that booking change; no double booking is introduced |
| Payments.ConfirmPayment | backend/routes/payments.js:65-110 | empty id → 400, Stripe failure → 500, no bound booking → 404, not the owner → 403; the booking found is the first bound to the intent; a succeeded intent marks it paid and confirmed with amount/100 whatever its status, the email is logged if delivered, and Ok exactly when the save and the email succeed; any other intent status changes nothing |
| Payments.Refund | backend/routes/payments.js:145-181 | missing id or reason → 400, unknown → 404, not the owner → 403, not paid → 400, all before the refund request; the request is for the booking's intent with the cents of the amount if given; Ok exactly when Stripe accepts and the save check holds; then only that booking becomes refunded and cancelled with the reason and now |
| Payments.Webhook | backend/routes/payments.js:195-231 | an unverified event → 400 with no change; other event types and unknown intents → 200 with no change; otherwise the first bound booking is marked paid or failed with no ownership check, and the reply is 200 exactly when that save succeeds; failed events introduce no double booking |
| Hotels.BookedTypes | backend/routes/hotels.js:236-247 | a room type is booked exactly when some active booking of the hotel meets the range, with inclusive bounds |
| Hotels.AvailableRooms | backend/routes/hotels.js:248-250 | the listed rooms are a subsequence of the hotel's rooms; a room is listed exactly when it is available and its type has no conflicting booking, and each such room is listed as many times as the hotel holds it |
| Hotels.Availability | backend/routes/hotels.js:223-250 | a missing date → 400, then a missing or inactive hotel → 404, otherwise the available rooms |
| Hotels.ListedIffBookable | backend/routes/hotels.js:236-250 | a room type is listed as available for a range exactly when the create route would find a room of that type and no conflict |
| Hotels.WithoutImage | backend/routes/hotels.js:310 | the remaining images are a subsequence of the old list, holding every URL that does not contain the image id as many times as before, and no other |
| Hotels.WithoutImageIdempotent | backend/routes/hotels.js:310 | deleting the same image id twice removes nothing more |
| Hotels.HotelCatalog.GetHotel | backend/routes/hotels.js:135-141 | Ok with the hotel exactly when it exists and is active; otherwise 404 |
| Hotels.HotelCatalog.SoftDelete | backend/routes/hotels.js:201-213 | non-admin → 403, unknown → 404; otherwise only isActive is cleared, the record is kept and the hotel is then reported as not found |
| Hotels.HotelCatalog.AddImages | backend/routes/hotels.js:273-287 | non-admin → 403, no file → 400, unknown → 404, upload failure → 500; otherwise the new URLs are appended after the old ones |
| Hotels.HotelCatalog.DeleteImage | backend/routes/hotels.js:304-316 | non-admin → 403, unknown → 404; otherwise the matching URLs are removed and saved, and the reply is Ok exactly when Cloudinary succeeds |
| Hotels.HotelCatalog.SetRating | backend/routes/reviews.js:321-324 | an existing hotel's rating is set and nothing else changes; a missing hotel is skipped |
| Reviews.RatingsOf | backend/routes/reviews.js:310-311 | the ratings of the hotel's reviews; empty exactly when the hotel has no review; valid ratings give values in [1, 5] |
| Reviews.MeanInRange | backend/routes/reviews.js:315 | the average of ratings in [1, 5] lies in [1, 5] |
| Reviews.RoundedMeanInRange | backend/routes/reviews.js:323 | the average rounded to one decimal lies in [1, 5] and within 0.05 of the average |
| Reviews.CountsSumToLength | backend/routes/reviews.js:48-53 | the five star counts of valid ratings add up to the number of ratings |
| Reviews.Breakdown | backend/routes/reviews.js:48-53 | the breakdown has exactly the keys 1 to 5, each holding how many ratings equal it |
| Reviews.ReviewFrom | backend/routes/reviews.js:116-129 | the review takes the hotel, stay date and room type from the booking, is verified, has trimmed title and comment, lists defaulting to empty and the recommendation to true |
| Reviews.BlankTitleFailsSchema | backend/routes/reviews.js:80 | a non-empty title of blanks passes validation but the trimmed review fails the schema |
| Reviews.Patched | backend/routes/reviews.js:175 | every field the body sends replaces the stored one, including user, hotel, booking, stay date, room type, isVerified, helpfulVotes and response (title and comment trimmed); every field not sent is kept |
| Reviews.PatchIdempotent | backend/routes/reviews.js:175 | applying the same body twice equals applying it once, and an empty body changes nothing |
| Reviews.TrimIdempotent | backend/routes/reviews.js:150-151 | trimming twice is trimming once |
| Reviews.OwnerCanSetVotes | backend/routes/reviews.js:163-175 | the owner can set helpfulVotes and isVerified through the update body |
| Reviews.OwnerCanForgeResponse | backend/routes/reviews.js:149-176 | a body holding only a `response` passes the update validators, keeps the review valid for the schema and the unique index, and stores the author's chosen response |
| Reviews.Rerated | backend/routes/reviews.js:308-325 | the hotel table after a rating update: with ratings for the hotel, its rating is their mean to one decimal, within [1, 5] and 0.05 of the mean; every other hotel, and a hotel without ratings, is unchanged |
| Reviews.ReviewStore.HotelStatistics | backend/routes/reviews.js:33-68 | the total is the hotel's review count; the average is 0 without reviews, otherwise within [1, 5] and 0.05 of the mean; the breakdown counts each star and sums to the total |
| Reviews.ReviewStore.UpdateHotelRating | backend/routes/reviews.js:308-329 | the hotel table becomes `Rerated`: with at least one review, the hotel's rating becomes the mean rounded to one decimal; with none, or a missing hotel, nothing changes |
| Reviews.ReviewStore.Create | backend/routes/reviews.js:78-135 | the guards in order (validation → 400, unknown → 404, not the owner → 403, not completed → 400, already reviewed → 400); created exactly when they pass and the schema holds; then exactly one new review built from the booking at a fresh id, and the hotel's rating is recomputed over its reviews, which now include the new one; otherwise neither reviews nor hotels change |
| Reviews.ReviewStore.Update | backend/routes/reviews.js:149-180 | a rating outside [1, 5] → 400, unknown → 404, not the author → 403; Ok exactly when the patched review passes the schema and the unique index; then only that review changes among the reviews, and the rating of the hotel the patched review names is recomputed; otherwise neither reviews nor hotels change |
| Reviews.ReviewStore.Delete | backend/routes/reviews.js:197-209 | unknown → 404, not the author → 403; otherwise only that review is removed and its hotel's rating is recomputed over the remaining reviews, kept when none remain; otherwise nothing changes |
| Reviews.ReviewStore.MarkHelpful | backend/routes/reviews.js:252-258 | unknown → 404; otherwise helpfulVotes rises by exactly one and nothing else changes |
| Reviews.ReviewStore.Respond | backend/routes/reviews.js:271-295 | non-admin → 403, empty text or author → 400, unknown → 404; otherwise only the response is set, to the trimmed text and author and now |
| Reviews.LastReviewLeavesRatingStale | backend/routes/reviews.js:321-325 | removing a hotel's only review leaves it no ratings, so its rating is not recomputed |
| Admin.RevenueWithoutPaidIsZero | backend/routes/admin.js:29-32 | without a paid booking the revenue is 0 |
| Admin.RevenueNonNegative | backend/routes/admin.js:29-32 | revenue is never negative while paid totals are non-negative |
| Admin.RevenueAfterUpdate | backend/routes/admin.js:29-32 | rewriting one booking moves the revenue by the difference of its contributions |
| Admin.PaymentAndRefundMoveRevenue | backend/routes/admin.js:29-32 | marking an unpaid booking paid adds its total to the revenue, and refunding it takes the total out again |
| Admin.AdminOverride | backend/routes/admin.js:207-211 | the status becomes the requested one on the same slot with the payment untouched; reason and date are recorded exactly when cancelling with a non-empty reason |
| Admin.AdminReopeningDoubleBooks | backend/routes/admin.js:191-211 | a store without double bookings whose cancelled booking can be saved reopened as pending; by the override route's contract the admin's request then answers Ok and the store holds a double booking |
| Admin.OverrideWithoutReopeningIsSafe | backend/routes/admin.js:207-213 | an override that does not activate an inactive booking keeps the store free of double bookings |
| Admin.SetBookingStatus | backend/routes/admin.js:190-213 | non-admin → 403, invalid status → 400, unknown → 404; Ok exactly when the overridden booking passes the save check, with no terminal guard; then only that booking changes |
| Admin.UserDirectory.SetUserActive | backend/routes/admin.js:111-129 | non-admin → 403, non-boolean → 400, unknown → 404; otherwise only that user's isActive changes |
| AuthContext.Initial | frontend/src/contexts/AuthContext.js:6-11 | no user, loading, not authenticated, and the stored token |
| AuthContext.SuccessAuthenticates | frontend/src/contexts/AuthContext.js:15-22 | AUTH_SUCCESS stores the payload's user and token, authenticates and ends loading |
| AuthContext.FailIsLogout | frontend/src/contexts/AuthContext.js:23-38 | AUTH_FAIL and LOGOUT give the same state, with no user or token, not authenticated and not loading; each is idempotent |
| AuthContext.LoadingOnlyTouchesLoading | frontend/src/contexts/AuthContext.js:39-45 | SET_LOADING changes only isLoading; an unknown action changes nothing |
| AuthContext.ReducePreservesInv | frontend/src/contexts/AuthContext.js:13-47 | every action keeps "not authenticated implies no user" |
| AuthContext.RunPreservesInv | frontend/src/contexts/AuthContext.js:13-47 | any sequence of actions keeps that invariant |
| AuthContext.ReachableStatesKeepInv | frontend/src/contexts/AuthContext.js:6-47 | the invariant holds in every state reachable from the initial state |
| AuthContext.LogoutIsSticky | frontend/src/contexts/AuthContext.js:31-45 | after a logout, no action other than AUTH_SUCCESS brings back a user, a token or authentication |
| AuthContext.StaysLoggedOut | frontend/src/contexts/AuthContext.js:23-45 | from a logged-out state, actions other than AUTH_SUCCESS keep it logged out |
| Scenario.InnOffersDouble | backend/routes/bookings.js:112-121 | the sample hotel is open and its lookup for a double room finds it |
| Scenario.TwoNightsAtHundred | backend/routes/bookings.js:141-143 | March 1 to 3 is two nights, and a base of 200 is priced (200, 20, 10, 230) |
| Scenario.BackToBackIsRefused | backend/routes/bookings.js:124-138 | the first stay is created with total 230, and a stay starting on its check-out day is refused with 400 |
| Scenario.BookAlice | backend/routes/bookings.js:82-178 | in an empty store, Alice's March 1 to 3 request is created and the store holds exactly the booking the create route builds |
| Scenario.BookAndBind | backend/routes/payments.js:33-51 | after creating and binding, the charge is 23000 cents in "usd" and the store holds the bound booking |
| Scenario.ConfirmThenWebhook | backend/routes/payments.js:91-209 | confirm then webhook for the same succeeded intent both answer Ok and leave the booking paid 230 and confirmed, as after the confirm alone |
| Scenario.CancelledThenConfirmedDoubleBooks | backend/routes/payments.js:65-110 | cancel, rebook of the freed nights by another guest, then confirm of the first guest's succeeded intent: every reply succeeds and the store ends with two active bookings of one room for the same nights |
| Scenario.PaidThenCancelled | backend/routes/bookings.js:259-261 | cancelling the paid booking succeeds and leaves it cancelled with the default reason but still paid 230 |

## Left out

- Hotel search and listing (the aggregation pipeline, text and geo search, price filters and sorting). Only their pagination arithmetic is modelled, by `Bookings.Paginate`.
- The other listing and read routes: GET bookings, GET booking by id, the admin bookings, users and reviews listings, and GET /reviews/user/my-reviews. They read and never change a record. Filters and sort orders are not modelled.
- The admin analytics, the monthly statistics and the admin review deletion. They are aggregations or plain deletes, with no rule of the booking core.
- GET /payments/payment-status. It reads and never changes anything.
- Hotel creation and update (`new Hotel(req.body)`, `Object.assign`). They are schema-checked CRUD whose only constraints are in `HotelModel`.
- `backend/routes/auth.js` and the authentication middleware. The caller is given as a `Principal`, so the 401 answers are not modelled.
- The email service, the image service and the Stripe client. Their answers are parameters and the message bodies are not modelled. The upload limit of 10 files is enforced by the upload middleware, which is not part of this model.
- Malformed ids. In the source, Mongoose's cast error turns a malformed id into a 500. Here ids are natural numbers, so that error cannot arise.
- express-validator format checks. `isEmail` is a boolean field of the request. `isISO8601` and the string-to-number coercions of query parameters and body amounts are not modelled: dates and amounts arrive as numbers.
- IEEE-754 arithmetic. Amounts are exact rationals, so binary rounding artefacts of `toFixed` are not modelled.
- Concurrency. Each handler is one atomic step, so the check-then-insert race on create and the confirm/webhook race are not modelled, and nothing is claimed about them.
- The React `AuthProvider`'s effects (localStorage, the profile fetch). Only `initialState` and `authReducer` are modelled.
- Response bodies. They, and document fields no rule reads (addresses, contact, policies, amenities, timestamps, the create-payment-intent `hotelName` metadata), are not modelled.
- Reviews.ReviewStore.HotelStatistics: states the statistics the route evidently intends. Mongoose does not cast `aggregate` pipelines, so `{ $match: { hotel: hotelId } }` at `backend/routes/reviews.js:33-34` compares the string parameter with an ObjectId field and matches nothing: as written, the route answers an all-zero breakdown and an average of 0 for every hotel.
- Reviews.ReviewPatch: carries the room type as one of the booking enum's values. The review schema stores it as a free string, so a patched room type outside that enum, and body fields set to `null` for required paths, are not modelled.
- Reviews.ReviewStore.UpdateHotelRating: the rating is always in range, so the hotel save cannot fail. The swallowed error path is therefore never taken.
- Bookings.Paginate: takes page as an integer and limit as a natural number. Negative or non-numeric query values are not modelled.
