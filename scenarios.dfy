/**
 * Client scenarios of the routes, checked by the verifier, on worked
 * examples: book, be refused, cancel and see the slot free again; ratings
 * 5, 4 and 3, then 2.
 */
module Scenarios {
  import opened Wrappers
  import opened Models
  import opened Appointments
  import opened Reviews

  const Date0110: Date := 20250110

  function Request(): BookingRequest {
    BookingRequest(Some(3), Some(1), Some(7), Some(Date0110), "09:00", "checkup", None)
  }

  /** Book doctor 7 at 09:00, then be refused the same slot. */
  method BookTwice(ledger: Ledger) returns (booked: Appointment)
    requires ledger.Valid() && ledger.appointments == [] && ledger.nextId == 0
    requires ledger.petOwner == map[3 := 42] && 7 in ledger.catalog.doctors
    modifies ledger
    ensures ledger.Valid() && ledger.appointments == [booked]
    ensures booked.user == 42 && booked.status == Pending
    ensures booked.totalFee == ledger.catalog.doctors[7].consultationFee
    ensures Holds(booked, 7, Date0110, "09:00")
  {
    var first := ledger.CreateBooking(42, Request(), 100);
    assert first.Ok?;
    booked := first.value;
    assert Holds(ledger.appointments[0], 7, Date0110, "09:00");
    var second := ledger.CreateBooking(42, Request(), 101);
    assert second == Err(ConflictError);
  }

  /** Cancel the booking, then be refused a second cancellation. */
  method CancelTwice(ledger: Ledger, booked: Appointment) returns (gone: Appointment)
    requires ledger.Valid() && ledger.appointments == [booked] && Active(booked.status)
    modifies ledger
    ensures ledger.Valid() && ledger.appointments == [gone]
    ensures gone == CancelledAt(booked, 102)
  {
    assert GetAppointment([booked], booked.user, booked.id) == Some(booked);
    var cancelled := ledger.Cancel(booked.user, booked.id, "cancelled", 102);
    assert cancelled.Ok?;
    gone := cancelled.value;
    assert GetAppointment([gone], booked.user, booked.id) == Some(gone);
    var retry := ledger.Cancel(booked.user, booked.id, "cancelled", 103);
    assert retry == Err(StateError);
  }

  /** The end-to-end run: booked, refused, shown booked, cancelled, shown available again. */
  method BookCancelRebook() {
    var doctor := NewDoctor("Dr. Ahmed Hassan", 1, "General Practitioner", ["Monday"], ["09:00", "09:30"], 200);
    var catalog := new Catalog(map[7 := doctor], map[1 := 0]);
    var ledger := new Ledger(catalog, map[3 := 42], [], 0);

    var booked := BookTwice(ledger);
    assert booked.totalFee == 200;
    var view := ResolveSlots(catalog.doctors, ledger.appointments, 7, Some(Date0110));
    assert SlotTaken(ledger.appointments, 7, Date0110, "09:00");
    assert "09:00" in view.value.bookedSlots && "09:00" !in view.value.availableSlots;

    var gone := CancelTwice(ledger, booked);
    assert !SlotTaken([gone], 7, Date0110, "09:00");
    var again := ResolveSlots(catalog.doctors, ledger.appointments, 7, Some(Date0110));
    assert "09:00" in again.value.allSlots;
    assert "09:00" in again.value.availableSlots;
  }

  /** A completed appointment of user 42 with doctor 7 at hospital 1. */
  function Visit(id: AppointmentId): Appointment {
    Appointment(id, 42, 3, 1, 7, Date0110, "09:00", "checkup", None,
                Completed, None, None, 200, Paid, false, 0, 0)
  }

  /** Review visit `id` with `rating`: the review is stored and doctor 7's rating is its aggregate. */
  method Rate(board: Board, id: AppointmentId, rating: int, now: Time) returns (review: Review)
    requires board.Valid() && board.ledger.Valid() && Visit(id) in board.ledger.appointments
    requires 7 in board.catalog.doctors
    requires !AlreadyReviewed(board.reviews, id) && 1 <= rating <= 5
    modifies board, board.catalog
    ensures board.Valid() && 7 in board.catalog.doctors
    ensures review == Review(42, id, 1, 7, rating, "ok", now)
    ensures board.reviews == old(board.reviews) + [review]
    ensures Some(board.catalog.doctors[7].rating) == AggregateRating(board.reviews, OfDoctor(7))
  {
    var req := ReviewRequest(Some(id), Some(rating), "ok");
    var apts := board.ledger.appointments;
    assert Reviewable(Visit(id), id, 42);
    var a := CheckReview(apts, board.reviews, 42, req).value;
    assert a == Visit(id) by {
      var i :| 0 <= i < |apts| && apts[i] == a;
      var j :| 0 <= j < |apts| && apts[j] == Visit(id);
      assert apts[i].id == apts[j].id;
    }
    var r := board.SubmitReview(42, req, now);
    review := r.value;
    assert About(board.reviews[|board.reviews| - 1], OfDoctor(7));
    assert AggregateRating(board.reviews, OfDoctor(7)).Some?;
  }

  /** Ratings 5, 4 and 3 for one doctor aggregate to 4.0; a fourth rating of 2 makes it 3.5. */
  lemma DoctorRatingExample(r0: Review, r1: Review, r2: Review, r3: Review)
    requires r0.doctor == 7 && r1.doctor == 7 && r2.doctor == 7 && r3.doctor == 7
    requires r0.rating == 5 && r1.rating == 4 && r2.rating == 3 && r3.rating == 2
    ensures AggregateRating([r0, r1, r2], OfDoctor(7)) == Some(40)
    ensures AggregateRating([r0, r1, r2, r3], OfDoctor(7)) == Some(35)
  {
    var e := OfDoctor(7);
    RatingsAboutAppend([], r0, e);
    assert [] + [r0] == [r0];
    assert RatingsAbout([r0], e) == [5];
    RatingsAboutAppend([r0], r1, e);
    assert [r0] + [r1] == [r0, r1];
    assert RatingsAbout([r0, r1], e) == [5, 4];
    RatingsAboutAppend([r0, r1], r2, e);
    assert [r0, r1] + [r2] == [r0, r1, r2];
    assert RatingsAbout([r0, r1, r2], e) == [5, 4, 3];
    RatingsAboutAppend([r0, r1, r2], r3, e);
    assert [r0, r1, r2] + [r3] == [r0, r1, r2, r3];
    assert RatingsAbout([r0, r1, r2, r3], e) == [5, 4, 3, 2];
    RatingExample();
  }

  /** A board over four completed visits of user 42 with doctor 7, and no reviews yet. */
  method FourVisits() returns (board: Board)
    ensures board.Valid() && board.ledger.Valid() && board.reviews == []
    ensures board.ledger.appointments == [Visit(0), Visit(1), Visit(2), Visit(3)]
    ensures 7 in board.catalog.doctors
    ensures fresh(board) && fresh(board.catalog)
  {
    var doctor := NewDoctor("Dr. Ahmed Hassan", 1, "General Practitioner", ["Monday"], ["09:00"], 200);
    var catalog := new Catalog(map[7 := doctor], map[1 := 0]);
    var visits := [Visit(0), Visit(1), Visit(2), Visit(3)];
    assert forall i, j :: 0 <= i < j < |visits| ==> visits[i].id != visits[j].id;
    var ledger := new Ledger(catalog, map[3 := 42], visits, 4);
    board := new Board(ledger, catalog, []);
  }

  /** Reviews rated 5, 4 and 3 give doctor 7 a rating of 4.0; a fourth rated 2 brings it to 3.5. */
  method RateFourVisits() {
    var board := FourVisits();
    var r0 := Rate(board, 0, 5, 10);
    var r1 := Rate(board, 1, 4, 11);
    var r2 := Rate(board, 2, 3, 12);
    assert board.reviews == [r0, r1, r2];
    DoctorRatingExample(r0, r1, r2, Review(42, 3, 1, 7, 2, "ok", 13));
    assert board.catalog.doctors[7].rating == 40;
    var r3 := Rate(board, 3, 2, 13);
    assert board.reviews == [r0, r1, r2, r3];
    assert board.catalog.doctors[7].rating == 35;
  }

  /** A zero rating, a repeated review and an unfinished visit are each refused and change nothing. */
  method RefusedReviews() {
    var doctor := NewDoctor("Dr. Ahmed Hassan", 1, "General Practitioner", ["Monday"], ["09:00"], 200);
    var catalog := new Catalog(map[7 := doctor], map[1 := 0]);
    var pending := Visit(1).(status := Pending);
    var ledger := new Ledger(catalog, map[3 := 42], [Visit(0), pending], 2);
    var board := new Board(ledger, catalog, [Review(42, 0, 1, 7, 5, "great", 9)]);

    var zero := board.SubmitReview(42, ReviewRequest(Some(0), Some(0), "ok"), 10);
    assert zero == Err(ValidationError);
    assert Reviewable(Visit(0), 0, 42) && board.reviews[0].appointment == 0;
    var twice := board.SubmitReview(42, ReviewRequest(Some(0), Some(4), "ok"), 11);
    assert twice == Err(ConflictError);
    var early := board.SubmitReview(42, ReviewRequest(Some(1), Some(4), "ok"), 12);
    assert early == Err(NotFoundError);
    assert board.reviews == [Review(42, 0, 1, 7, 5, "great", 9)];
  }
}
