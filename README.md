# Veterinary booking core: appointment ledger and rating aggregator

This project is a Dafny model of the core of a veterinary clinic booking
back end: the appointment routes (book, cancel, list, look up, available
slots), the review routes (submit, list a hospital's reviews) with the
rating recomputation that follows every review, and the stored records
those routes read and write (appointments, reviews, doctors).

The model is sequential. The appointment collection is a `seq` field of a
`Ledger` object and the review collection a `seq` field of a `Board`
object. Both change only through their methods. The doctor collection and
the hospitals' cached ratings are `map` fields of a `Catalog` object, and
pet ownership is a read-only `map` from pet to owner. The routes that can
refuse a request (booking, cancelling, the slot query, submitting a
review) return a `Result` whose error side is `ValidationError`,
`NotFoundError`, `ConflictError`, `StateError` or `UnknownError`. These
stand for the route's 400, 404, "already booked / already reviewed" 400,
"cannot cancel" 400 and 500 answers. The lookup by id returns an
`Option`, where `None` is its 404. The caller's appointment list and the
hospital review list return a plain sequence, because their only failure
is the 500 catch-all, which is left out.

Files:

- `wrappers.dfy`: `Option` and `Result`.
- `seqs.dfy`: the query engine's filter, findOne, sort-descending and
  limit, written as generic functions with full contracts: order
  preserved, exact multiplicities, sortedness, permutation, and "nothing
  left out is larger than what is kept".
- `models.dfy`: the records, status enums, schema defaults, required
  fields and ranges, the pre-save hook, and the `Catalog` object.
- `appointments.dfy`: the appointment route checks, the `Ledger` with
  `CreateBooking` and `Cancel`, the slot query, the caller-scoped
  queries, and the lemmas about the no-double-booking invariant.
- `reviews.dfy`: the review route checks, the rounded mean, the
  `Board` with `SubmitReview` and `UpdateRatings`, the hospital review
  list, and the lemmas about the cached ratings.
- `scenarios.dfy`: client scenarios checked by the verifier.
  - `BookCancelRebook` books a slot, is refused the same slot, sees it
    booked, cancels, is refused a second cancel and sees the slot
    available again.
  - `RateFourVisits` rates a doctor 5, 4 and 3 (giving 4.0) and then 2
    (giving 3.5).
  - `RefusedReviews` shows three reviews refused with nothing changed: a
    zero rating, a repeated review and an unfinished visit.

Conventions:

- Ids are natural numbers. A request field that the route tests with
  `!field` is `None` (ids, date, review rating) or `""` (text fields)
  when it is absent or falsy. A review rating of 0 is therefore refused
  as missing.
- Dates and clock readings are integers supplied by the caller.
- Ratings are kept exactly, in integer tenths (46 is 4.6).
  `Math.round(avg * 10) / 10` becomes `(20 * sum + n) / (2 * n)` with
  floor division. Its contract says this is the nearest tenth, with a
  half rounded up.

What the code does not check or enforce, and the model therefore does not either:

- Booking does not check that the doctor is active.
- Booking does not check that the time slot is one of the doctor's
  template slots. So `bookedSlots` can hold a slot outside `allSlots`, and
  "available ∪ booked = all" does not hold in general. What is proved is
  that every template slot is in exactly one of available and booked.
- Booking does not check that the hospital exists, or that it is the
  doctor's hospital. It does not compare the date with `availableDays`.
- The available-slots query does not remove duplicates from
  `bookedSlots`. Under the ledger invariant there are none anyway
  (`BookedSlotsDistinct`).
- No storage-level uniqueness constraint exists. The schema declares no
  unique index on doctor, date and slot. So the invariant rests on the
  route's conflict check alone, and `ConflictCheckIsNecessary` shows that
  check cannot be dropped.
- A review rating outside 1..5 that is not 0 passes the route's own
  checks. Schema validation then refuses it at save time, and the route
  answers with a server error. It is modelled as `UnknownError` with no
  change.

## Model

| member | source | states |
|---|---|---|
| `Models.StatusNameInjective` | models/appointment.js:39-43 | the five statuses are stored as five distinct enum strings |
| `Models.NewAppointment` | models/appointment.js:39-70 | a saved appointment has its required text fields, status pending, payment pending, reminderSent false, no notes or prescription, and both timestamps at the save time |
| `Models.PreSave` | models/appointment.js:73-77 | the pre-save hook sets updatedAt to the save time and changes no other field |
| `Models.NewDoctor` | models/doctor.js:29-51 | a new doctor record is valid (name and specialization present, rating in [0, 5]), has rating 0, is active, and keeps its slot template and fee |
| `Appointments.CheckBooking` | routes/appointments.js:21-48 | booking checks in order: missing field gives a validation error, a pet not owned by the caller gives not-found, a missing doctor gives not-found, an active booking of the same doctor, date and slot gives a conflict; success exactly when all pass, carrying the doctor whose fee is snapshotted |
| `Appointments.Booked` | routes/appointments.js:51-62 | the appended record: user is the caller, the requested pet, hospital, doctor, date, slot, reason and symptoms, status pending, totalFee equal to the doctor's consultationFee at booking time |
| `Appointments.BookingPreservesLedger` | routes/appointments.js:39-64 | appending a booking whose slot was free keeps at most one active appointment per (doctor, date, slot) and keeps ids distinct |
| `Appointments.ConflictCheckIsNecessary` | routes/appointments.js:39-48 | appending an active booking for a slot already held would break the invariant, so the check is what enforces it |
| `Appointments.GetAppointment` | routes/appointments.js:103-116 | the lookup by id returns only a record of the caller's with that id, and returns nothing exactly when the caller has none |
| `Appointments.GetAppointmentExact` | routes/appointments.js:105-108 | with distinct ids, the lookup returns a record exactly when it is the caller's record with that id |
| `Appointments.CheckCancel` | routes/appointments.js:129-145 | cancel checks in order: a status other than "cancelled" gives a validation error, no such appointment of the caller's gives not-found, a status other than pending or confirmed gives a state error; success exactly otherwise, at the looked-up record |
| `Appointments.CancelledAt` | routes/appointments.js:147-148 | the saved record has status cancelled and a fresh updatedAt, and every other field unchanged |
| `Appointments.CancelPreservesLedger` | routes/appointments.js:142-148 | cancelling a record keeps the ledger invariant |
| `Appointments.RepeatedCancelFails` | routes/appointments.js:142-145 | after a successful cancel, the same cancel request fails with a state error |
| `Appointments.CancelFreesSlot` | routes/appointments.js:171-175 | once an active appointment is cancelled, no appointment holds its (doctor, date, slot) any more |
| `Appointments.MyAppointments` | routes/appointments.js:81-94 | the list holds exactly the caller's appointments (with the queried status, if one is given), each as often as stored, latest appointment date first |
| `Appointments.BookedSlots` | routes/appointments.js:170-177 | a slot is reported booked exactly when a pending or confirmed appointment of that doctor on that exact date holds it |
| `Appointments.BookedSlotsDistinct` | routes/appointments.js:171-177 | under the ledger invariant no slot is reported booked twice |
| `Appointments.AvailableSlots` | routes/appointments.js:179-182 | the available slots are the template slots not booked, with their template multiplicities, in template order |
| `Appointments.ResolveSlots` | routes/appointments.js:157-189 | a missing date gives a validation error and an unknown doctor not-found; otherwise allSlots is the template unchanged, bookedSlots is as above, availableSlots is disjoint from bookedSlots, contains every un-booked template slot and keeps template order; availableSlots is exactly `AvailableSlots` of the template and bookedSlots, so a repeated template slot keeps its multiplicity |
| `Appointments.BookingAgreesWithSlots` | routes/appointments.js:39-48 | a request that passes the field, pet and doctor checks is booked exactly when its slot is not reported booked, and for a template slot exactly when it is reported available |
| `Appointments.Ledger.CreateBooking` | routes/appointments.js:9-64 | on any failed check the ledger is unchanged; on success exactly one record (`Booked`) is appended and every earlier record is unchanged; the ledger invariant is kept |
| `Appointments.Ledger.Cancel` | routes/appointments.js:125-148 | on any failed check the ledger is unchanged; on success only the looked-up record changes, to `CancelledAt`; the ledger invariant is kept |
| `Reviews.CheckReview` | routes/reviews.js:14-38 | review checks in order: a missing or falsy id, rating or comment (so rating 0) gives a validation error; no completed appointment of the caller's with that id gives not-found; an existing review of it gives a conflict; a rating outside 1..5 is refused at save; success exactly otherwise, at a completed appointment of the caller's |
| `Reviews.NewReview` | routes/reviews.js:41-48 | the stored review has the caller as user, the appointment's hospital and doctor, the given rating and comment, and createdAt at submission time |
| `Reviews.SubmissionKeepsStoreValid` | routes/reviews.js:32-50 | a submission that passes the checks keeps every review valid and at most one review per appointment |
| `Reviews.RatingsAbout` | routes/reviews.js:83-85 | the rating list of an entity is empty exactly when no review is about it |
| `Reviews.RatingsAboutAppend` | routes/reviews.js:83-94 | appending a review extends the rating list of exactly the hospital and doctor it is about |
| `Reviews.RatingsAboutInRange` | models/review.js:65-70 | all ratings of valid reviews lie in 1..5 |
| `Reviews.SumBounds` | routes/reviews.js:85 | n values in [lo, hi] sum to a value in [lo * n, hi * n] |
| `Reviews.Round1Mean` | routes/reviews.js:85-87 | the result r, in tenths, satisfies r - 1/2 <= 10 * mean < r + 1/2: the nearest tenth with halves rounded up |
| `Reviews.MeanInRange` | routes/reviews.js:85-87 | ratings in 1..5 give a rounded mean in [1.0, 5.0] |
| `Reviews.RatingExample` | routes/reviews.js:85-87 | ratings 5, 4, 3 give 4.0 and 5, 4, 3, 2 give 3.5 |
| `Reviews.AggregateRating` | routes/reviews.js:83-88 | there is a rating to write exactly when the entity has at least one review |
| `Reviews.AggregateInRange` | routes/reviews.js:84-88 | with valid reviews the written rating lies in [1.0, 5.0] |
| `Reviews.AggregateUnaffected` | routes/reviews.js:91-98 | a review about another entity leaves an entity's aggregate rating unchanged |
| `Reviews.RefreshHospital` | routes/reviews.js:83-89 | only the hospital's own rating may change; it becomes the aggregate when there are reviews, and is unchanged when there are none or the hospital does not exist |
| `Reviews.RefreshDoctor` | routes/reviews.js:91-98 | only the doctor's rating field may change, to the aggregate when there are reviews; everything else is unchanged |
| `Reviews.RefreshKeepsConsistency` | routes/reviews.js:81-98 | if every cached rating equalled the rounded mean of its reviews, it still does after appending a review and refreshing its hospital and doctor |
| `Reviews.RefreshKeepsDoctorsValid` | models/doctor.js:36-41 | refreshing a doctor from valid reviews keeps its rating within [0, 5] |
| `Reviews.HospitalReviews` | routes/reviews.js:64-78 | at most 50 reviews, all stored and all of that hospital, newest createdAt first; a review of the hospital is left out only when 50 are listed and none listed is older than it |
| `Reviews.Board.UpdateRatings` | routes/reviews.js:81-99 | writes the hospital's and the doctor's cached rating as `RefreshHospital` and `RefreshDoctor` say, keeping the catalog valid |
| `Reviews.Board.SubmitReview` | routes/reviews.js:10-56 | on a failed check nothing changes; on success exactly one review (`NewReview`) is appended, then its hospital and doctor are refreshed; cached ratings stay consistent with the reviews |
| `Scenarios.BookTwice` | routes/appointments.js:39-64 | from an empty ledger a booking succeeds as pending with the doctor's fee, and the same request then fails with a conflict |
| `Scenarios.CancelTwice` | routes/appointments.js:129-148 | a pending booking is cancelled once, and a second cancel fails with a state error |
| `Scenarios.Rate` | routes/reviews.js:10-53 | reviewing a completed visit stores the review and sets the doctor's rating to the aggregate of its reviews |
| `Scenarios.DoctorRatingExample` | routes/reviews.js:91-98 | a doctor with reviews rated 5, 4, 3 aggregates to 4.0, and with a fourth rated 2 to 3.5 |

## Left out

- Express wiring, authentication, populate enrichment and HTTP status codes. The caller is an opaque user id, and outcomes are the `Error` kinds above.
- Storage faults and malformed ids that make the query engine throw (the 500 catch-all paths). Only the rating validation refused at save is modelled as `UnknownError`.
- Date parsing (`new Date(...)`) and `Date.now`. Dates and clock readings are supplied integers compared by equality and order.
- Floating point. Ratings are exact tenths, so IEEE halfway effects of `Math.round(avg * 10) / 10` and non-integer review ratings are not modelled.
- Concurrency. The check-then-insert races of booking and reviewing are outside a sequential model.
- The status changes to confirmed, completed and no-show. No route in the code makes them. The ledger's constructor takes an already stored collection, which is how completed appointments reach the review route.
- The array fields of the pet, hospital and user records, and the doctor's experience, phone, email, image, bio and createdAt. The core never reads them. Pets appear only as the pet-to-owner map. Hospitals appear only as their cached rating, because the hospital model is not part of this model.
- Models.PreSave: the pre-save hook mutates the document in place. The model applies it as a function to a record value, and the ledger's method writes the result back into its sequence.
- Appointments.MyAppointments: the order among appointments with equal dates is not specified, because the query engine does not fix it either. The same holds for reviews with equal createdAt in Reviews.HospitalReviews.
