/**
 * The review routes: submitting a review for a completed appointment, the
 * recomputation of the cached hospital and doctor ratings that follows it,
 * and the newest-first review list of a hospital.
 */
module Reviews {
  import opened Wrappers
  import opened Models
  import opened Seqs
  import Appointments

  /** The most reviews the hospital list returns. */
  const ListLimit: nat := 50

  /**
   * The body of a review request. A missing or falsy id or rating is `None`
   * (so is a rating 0, which `!rating` also rejects); a missing comment is "".
   */
  datatype ReviewRequest = ReviewRequest(appointmentId: Option<AppointmentId>, rating: Option<int>, comment: string)

  predicate HasAllFields(req: ReviewRequest) {
    req.appointmentId.Some? && req.rating.Some? && req.rating.value != 0 && req.comment != ""
  }

  /** The filter of the appointment lookup: that id, the caller's, and completed. */
  predicate Reviewable(a: Appointment, id: AppointmentId, caller: UserId) {
    a.id == id && a.user == caller && a.status == Completed
  }

  predicate AlreadyReviewed(reviews: seq<Review>, id: AppointmentId) {
    exists i :: 0 <= i < |reviews| && reviews[i].appointment == id
  }

  /**
   * The checks of the review route, failing fast in their order. A rating
   * outside 1..5 passes the route's own checks but is refused by the
   * schema's validation when the review is saved, which the route answers
   * as a server error. On success, the appointment being reviewed.
   */
  function CheckReview(apts: seq<Appointment>, reviews: seq<Review>, caller: UserId, req: ReviewRequest): (r: Result<Appointment, Error>)
    ensures !HasAllFields(req) ==> r == Err(ValidationError)
    ensures (HasAllFields(req) && forall a :: a in apts ==> !Reviewable(a, req.appointmentId.value, caller))
            ==> r == Err(NotFoundError)
    ensures (HasAllFields(req) && (exists a :: a in apts && Reviewable(a, req.appointmentId.value, caller))
             && AlreadyReviewed(reviews, req.appointmentId.value)) ==> r == Err(ConflictError)
    ensures (HasAllFields(req) && (exists a :: a in apts && Reviewable(a, req.appointmentId.value, caller))
             && !AlreadyReviewed(reviews, req.appointmentId.value) && !(1 <= req.rating.value <= 5))
            ==> r == Err(UnknownError)
    ensures r.Ok? <==> && HasAllFields(req)
                       && (exists a :: a in apts && Reviewable(a, req.appointmentId.value, caller))
                       && !AlreadyReviewed(reviews, req.appointmentId.value)
                       && 1 <= req.rating.value <= 5
    ensures r.Ok? ==> r.value in apts && Reviewable(r.value, req.appointmentId.value, caller)
  {
    if !HasAllFields(req) then Err(ValidationError)
    else
      var id := req.appointmentId.value;
      match Find(apts, a => Reviewable(a, id, caller))
      case None => Err(NotFoundError)
      case Some(k) =>
        if AlreadyReviewed(reviews, id) then Err(ConflictError)
        else if !(1 <= req.rating.value <= 5) then Err(UnknownError)
        else Ok(apts[k])
  }

  /** The review a successful submission stores: hospital and doctor copied from the appointment. */
  function NewReview(caller: UserId, a: Appointment, req: ReviewRequest, now: Time): (r: Review)
    requires HasAllFields(req)
    ensures r.user == caller && r.appointment == a.id
    ensures r.hospital == a.hospital && r.doctor == a.doctor
    ensures r.rating == req.rating.value && r.comment == req.comment && r.createdAt == now
  {
    Review(caller, a.id, a.hospital, a.doctor, req.rating.value, req.comment, now)
  }

  /** The review collection's state: every record valid, and at most one review per appointment. */
  ghost predicate StoreValid(reviews: seq<Review>) {
    && (forall i :: 0 <= i < |reviews| ==> ReviewValid(reviews[i]))
    && (forall i, j :: 0 <= i < j < |reviews| ==> reviews[i].appointment != reviews[j].appointment)
  }

  /** A submission that passes the checks keeps the review collection valid. */
  lemma SubmissionKeepsStoreValid(apts: seq<Appointment>, reviews: seq<Review>, caller: UserId,
                                  req: ReviewRequest, now: Time)
    requires StoreValid(reviews)
    requires CheckReview(apts, reviews, caller, req).Ok?
    ensures StoreValid(reviews + [NewReview(caller, CheckReview(apts, reviews, caller, req).value, req, now)])
  {
    var s := reviews + [NewReview(caller, CheckReview(apts, reviews, caller, req).value, req, now)];
    forall i, j | 0 <= i < j < |s| ensures s[i].appointment != s[j].appointment {
      if j == |reviews| {
        assert s[i] == reviews[i];
      }
    }
  }

  /** Whose rating a review counts toward. */
  datatype Entity = OfHospital(hospital: HospitalId) | OfDoctor(doctor: DoctorId)

  predicate About(r: Review, e: Entity) {
    match e
    case OfHospital(h) => r.hospital == h
    case OfDoctor(d) => r.doctor == d
  }

  /** The ratings of every review about `e`: the find-all query the recomputation reduces. */
  function RatingsAbout(reviews: seq<Review>, e: Entity): (xs: seq<int>)
    ensures xs == [] <==> forall i :: 0 <= i < |reviews| ==> !About(reviews[i], e)
  {
    if reviews == [] then []
    else
      var rest := RatingsAbout(reviews[1..], e);
      assert (forall i :: 0 <= i < |reviews| ==> !About(reviews[i], e)) <==>
             !About(reviews[0], e) && forall i :: 0 <= i < |reviews[1..]| ==> !About(reviews[1..][i], e) by {
        if forall i :: 0 <= i < |reviews[1..]| ==> !About(reviews[1..][i], e) {
          forall i | 1 <= i < |reviews| ensures !About(reviews[i], e) {
            assert reviews[i] == reviews[1..][i - 1];
          }
        }
      }
      (if About(reviews[0], e) then [reviews[0].rating] else []) + rest
  }

  /** Appending a review extends exactly the rating lists of the entities it is about. */
  lemma {:induction false} RatingsAboutAppend(reviews: seq<Review>, r: Review, e: Entity)
    ensures RatingsAbout(reviews + [r], e) == RatingsAbout(reviews, e) + (if About(r, e) then [r.rating] else [])
  {
    if reviews == [] {
      assert [] + [r] == [r];
    } else {
      assert (reviews + [r])[1..] == reviews[1..] + [r];
      RatingsAboutAppend(reviews[1..], r, e);
    }
  }

  /** Valid reviews carry ratings in 1..5. */
  lemma {:induction false} RatingsAboutInRange(reviews: seq<Review>, e: Entity)
    requires forall i :: 0 <= i < |reviews| ==> ReviewValid(reviews[i])
    ensures forall i :: 0 <= i < |RatingsAbout(reviews, e)| ==> 1 <= RatingsAbout(reviews, e)[i] <= 5
  {
    if reviews != [] {
      assert forall i :: 0 <= i < |reviews[1..]| ==> ReviewValid(reviews[1..][i]) by {
        forall i | 0 <= i < |reviews[1..]| ensures ReviewValid(reviews[1..][i]) {
          assert reviews[1..][i] == reviews[i + 1];
        }
      }
      RatingsAboutInRange(reviews[1..], e);
    }
  }

  function Sum(xs: seq<int>): int {
    if xs == [] then 0 else xs[0] + Sum(xs[1..])
  }

  /** Every element in [lo, hi] puts the sum in [lo * n, hi * n]. */
  lemma {:induction false} SumBounds(xs: seq<int>, lo: int, hi: int)
    requires forall i :: 0 <= i < |xs| ==> lo <= xs[i] <= hi
    ensures lo * |xs| <= Sum(xs) <= hi * |xs|
  {
    if xs != [] {
      assert forall i :: 0 <= i < |xs[1..]| ==> lo <= xs[1..][i] <= hi by {
        forall i | 0 <= i < |xs[1..]| ensures lo <= xs[1..][i] <= hi {
          assert xs[1..][i] == xs[i + 1];
        }
      }
      SumBounds(xs[1..], lo, hi);
    }
  }

  /**
   * Math.round(mean * 10) / 10 in tenths: the tenth nearest to the mean,
   * a half rounded up.
   */
  function Round1Mean(xs: seq<int>): (r: Tenths)
    requires xs != []
    ensures 2 * |xs| * r - |xs| <= 20 * Sum(xs) < 2 * |xs| * r + |xs|
  {
    var n := |xs|;
    var q := (20 * Sum(xs) + n) / (2 * n);
    assert 2 * n * q <= 20 * Sum(xs) + n < 2 * n * q + 2 * n by {
      var m := (20 * Sum(xs) + n) % (2 * n);
      assert 20 * Sum(xs) + n == (2 * n) * q + m && 0 <= m < 2 * n;
    }
    q
  }

  /** With every rating in 1..5 the rounded mean lies in [1.0, 5.0]. */
  lemma MeanInRange(xs: seq<int>)
    requires xs != []
    requires forall i :: 0 <= i < |xs| ==> 1 <= xs[i] <= 5
    ensures 10 <= Round1Mean(xs) <= 50
  {
    SumBounds(xs, 1, 5);
    var n, r := |xs|, Round1Mean(xs);
    if r > 50 {
      assert 2 * n * r >= 2 * n * 51 by { MulGrows(2 * n, 51, r); }
      assert false;
    }
    if r < 10 {
      assert 2 * n * r <= 2 * n * 9 by { MulGrows(2 * n, r, 9); }
      assert false;
    }
  }

  /** Multiplying by a natural number keeps an order. */
  lemma MulGrows(k: nat, a: int, b: int)
    requires a <= b
    ensures k * a <= k * b
  {
  }

  /** The worked example: ratings 5, 4, 3 give 4.0, and a fourth rating of 2 gives 3.5. */
  lemma RatingExample()
    ensures Round1Mean([5, 4, 3]) == 40
    ensures Round1Mean([5, 4, 3, 2]) == 35
  {
    assert Sum([5, 4, 3]) == 12 by {
      assert [5, 4, 3][1..] == [4, 3] && [4, 3][1..] == [3] && [3][1..] == [];
    }
    assert Sum([5, 4, 3, 2]) == 14 by {
      assert [5, 4, 3, 2][1..] == [4, 3, 2] && [4, 3, 2][1..] == [3, 2] && [3, 2][1..] == [2] && [2][1..] == [];
    }
  }

  /** The rating the recomputation writes for `e`, or nothing when `e` has no reviews. */
  function AggregateRating(reviews: seq<Review>, e: Entity): (r: Option<Tenths>)
    ensures r.None? <==> forall i :: 0 <= i < |reviews| ==> !About(reviews[i], e)
  {
    var xs := RatingsAbout(reviews, e);
    if xs == [] then None else Some(Round1Mean(xs))
  }

  /** Valid reviews give an aggregate rating in [1.0, 5.0]. */
  lemma AggregateInRange(reviews: seq<Review>, e: Entity)
    requires forall i :: 0 <= i < |reviews| ==> ReviewValid(reviews[i])
    requires AggregateRating(reviews, e).Some?
    ensures 10 <= AggregateRating(reviews, e).value <= 50
  {
    RatingsAboutInRange(reviews, e);
    MeanInRange(RatingsAbout(reviews, e));
  }

  /** A review not about `e` leaves its aggregate rating as it was. */
  lemma AggregateUnaffected(reviews: seq<Review>, r: Review, e: Entity)
    requires !About(r, e)
    ensures AggregateRating(reviews + [r], e) == AggregateRating(reviews, e)
  {
    RatingsAboutAppend(reviews, r, e);
    assert RatingsAbout(reviews, e) + [] == RatingsAbout(reviews, e);
  }

  /** The hospital half of the recomputation: written only when the hospital has reviews. */
  function RefreshHospital(ratings: map<HospitalId, Tenths>, reviews: seq<Review>, h: HospitalId): (m: map<HospitalId, Tenths>)
    ensures m.Keys == ratings.Keys
    ensures forall k :: k in m && k != h ==> m[k] == ratings[k]
    ensures h in m ==> m[h] == if AggregateRating(reviews, OfHospital(h)).Some?
                               then AggregateRating(reviews, OfHospital(h)).value else ratings[h]
  {
    match AggregateRating(reviews, OfHospital(h))
    case None => ratings
    case Some(v) => if h in ratings then ratings[h := v] else ratings
  }

  /** The doctor half of the recomputation: only the doctor's rating field changes. */
  function RefreshDoctor(doctors: map<DoctorId, Doctor>, reviews: seq<Review>, d: DoctorId): (m: map<DoctorId, Doctor>)
    ensures m.Keys == doctors.Keys
    ensures forall k :: k in m && k != d ==> m[k] == doctors[k]
    ensures d in m ==> m[d] == if AggregateRating(reviews, OfDoctor(d)).Some?
                               then doctors[d].(rating := AggregateRating(reviews, OfDoctor(d)).value) else doctors[d]
  {
    match AggregateRating(reviews, OfDoctor(d))
    case None => doctors
    case Some(v) => if d in doctors then doctors[d := doctors[d].(rating := v)] else doctors
  }

  /** Every cached hospital rating of a reviewed hospital is the rounded mean of its reviews. */
  ghost predicate HospitalsConsistent(ratings: map<HospitalId, Tenths>, reviews: seq<Review>) {
    forall h :: h in ratings && AggregateRating(reviews, OfHospital(h)).Some? ==>
      ratings[h] == AggregateRating(reviews, OfHospital(h)).value
  }

  /** Every cached doctor rating of a reviewed doctor is the rounded mean of its reviews. */
  ghost predicate DoctorsConsistent(doctors: map<DoctorId, Doctor>, reviews: seq<Review>) {
    forall d :: d in doctors && AggregateRating(reviews, OfDoctor(d)).Some? ==>
      doctors[d].rating == AggregateRating(reviews, OfDoctor(d)).value
  }

  /**
   * Recomputing the new review's hospital and doctor after appending it
   * keeps every cached rating equal to the rounded mean of its reviews.
   */
  lemma RefreshKeepsConsistency(ratings: map<HospitalId, Tenths>, doctors: map<DoctorId, Doctor>,
                                reviews: seq<Review>, r: Review)
    requires HospitalsConsistent(ratings, reviews) && DoctorsConsistent(doctors, reviews)
    ensures HospitalsConsistent(RefreshHospital(ratings, reviews + [r], r.hospital), reviews + [r])
    ensures DoctorsConsistent(RefreshDoctor(doctors, reviews + [r], r.doctor), reviews + [r])
  {
    forall h | h != r.hospital ensures AggregateRating(reviews + [r], OfHospital(h)) == AggregateRating(reviews, OfHospital(h)) {
      AggregateUnaffected(reviews, r, OfHospital(h));
    }
    forall d | d != r.doctor ensures AggregateRating(reviews + [r], OfDoctor(d)) == AggregateRating(reviews, OfDoctor(d)) {
      AggregateUnaffected(reviews, r, OfDoctor(d));
    }
  }

  /** Refreshing a doctor keeps the catalog's records valid when the reviews are valid. */
  lemma RefreshKeepsDoctorsValid(doctors: map<DoctorId, Doctor>, reviews: seq<Review>, d: DoctorId)
    requires forall k :: k in doctors ==> DoctorValid(doctors[k])
    requires forall i :: 0 <= i < |reviews| ==> ReviewValid(reviews[i])
    ensures forall k :: k in RefreshDoctor(doctors, reviews, d) ==> DoctorValid(RefreshDoctor(doctors, reviews, d)[k])
  {
    if AggregateRating(reviews, OfDoctor(d)).Some? {
      AggregateInRange(reviews, OfDoctor(d));
    }
  }

  function CreatedKey(r: Review): int {
    r.createdAt
  }

  /**
   * GET hospital/:hospitalId: only reviews of that hospital, newest first,
   * at most 50 of them, and no review of it left out that is newer than
   * one listed.
   */
  function HospitalReviews(reviews: seq<Review>, h: HospitalId): (r: seq<Review>)
    ensures |r| <= ListLimit
    ensures forall x :: x in r ==> x in reviews && x.hospital == h
    ensures multiset(r) <= multiset(reviews)
    ensures SortedDesc(r, CreatedKey)
    ensures forall x :: x in reviews && x.hospital == h && x !in r ==> |r| == ListLimit
    ensures forall x, i :: x in reviews && x.hospital == h && x !in r && 0 <= i < |r| ==> x.createdAt <= r[i].createdAt
  {
    var hs := Filter(reviews, (x: Review) => x.hospital == h);
    var r := Largest(hs, CreatedKey, ListLimit);
    LargestOfFilter(reviews, h, hs, r);
    r
  }

  /** What the limit keeps of the filtered reviews is still that hospital's and still stored. */
  lemma LargestOfFilter(reviews: seq<Review>, h: HospitalId, hs: seq<Review>, r: seq<Review>)
    requires forall x :: x in hs <==> x in reviews && x.hospital == h
    requires multiset(hs) <= multiset(reviews)
    requires r == Largest(hs, CreatedKey, ListLimit)
    ensures forall x :: x in r ==> x in reviews && x.hospital == h
    ensures multiset(r) <= multiset(reviews)
  {
    forall x | x in r ensures x in hs {
      assert x in multiset(r);
    }
  }

  /** The review collection, with the ledger it reads and the catalog whose ratings it writes. */
  class Board {
    var reviews: seq<Review>
    const ledger: Appointments.Ledger
    const catalog: Catalog

    ghost predicate Valid()
      reads this, catalog
    {
      StoreValid(reviews) && catalog.Valid()
    }

    /** The cached ratings agree with the reviews. */
    ghost predicate Consistent()
      reads this, catalog
    {
      HospitalsConsistent(catalog.hospitalRatings, reviews) && DoctorsConsistent(catalog.doctors, reviews)
    }

    constructor (ledger: Appointments.Ledger, catalog: Catalog, stored: seq<Review>)
      requires StoreValid(stored) && catalog.Valid()
      ensures Valid()
      ensures this.ledger == ledger && this.catalog == catalog && reviews == stored
    {
      this.ledger := ledger;
      this.catalog := catalog;
      reviews := stored;
    }

    /**
     * updateRatings: the hospital's and the doctor's cached rating become the
     * rounded mean of all their reviews, each only when it has any.
     */
    method UpdateRatings(h: HospitalId, d: DoctorId)
      requires Valid()
      modifies catalog
      ensures Valid()
      ensures catalog.hospitalRatings == RefreshHospital(old(catalog.hospitalRatings), reviews, h)
      ensures catalog.doctors == RefreshDoctor(old(catalog.doctors), reviews, d)
    {
      var hospital := AggregateRating(reviews, OfHospital(h));
      if hospital.Some? && h in catalog.hospitalRatings {
        catalog.hospitalRatings := catalog.hospitalRatings[h := hospital.value];
      }
      var doctor := AggregateRating(reviews, OfDoctor(d));
      RefreshKeepsDoctorsValid(catalog.doctors, reviews, d);
      if doctor.Some? && d in catalog.doctors {
        catalog.doctors := catalog.doctors[d := catalog.doctors[d].(rating := doctor.value)];
      }
      assert catalog.doctors == RefreshDoctor(old(catalog.doctors), reviews, d);
    }

    /**
     * POST /: on a failed check nothing changes; otherwise exactly one review
     * is appended and the ratings of its hospital and doctor are recomputed,
     * which keeps every cached rating consistent with the reviews.
     */
    method SubmitReview(caller: UserId, req: ReviewRequest, now: Time) returns (r: Result<Review, Error>)
      requires Valid()
      modifies this, catalog
      ensures Valid()
      ensures CheckReview(ledger.appointments, old(reviews), caller, req).Err? ==>
                && r == Err(CheckReview(ledger.appointments, old(reviews), caller, req).error)
                && reviews == old(reviews)
                && catalog.doctors == old(catalog.doctors)
                && catalog.hospitalRatings == old(catalog.hospitalRatings)
      ensures CheckReview(ledger.appointments, old(reviews), caller, req).Ok? ==>
                var a := CheckReview(ledger.appointments, old(reviews), caller, req).value;
                && r == Ok(NewReview(caller, a, req, now))
                && reviews == old(reviews) + [r.value]
                && catalog.hospitalRatings == RefreshHospital(old(catalog.hospitalRatings), reviews, a.hospital)
                && catalog.doctors == RefreshDoctor(old(catalog.doctors), reviews, a.doctor)
      ensures old(Consistent()) ==> Consistent()
    {
      var check := CheckReview(ledger.appointments, reviews, caller, req);
      if check.Err? {
        r := Err(check.error);
        return;
      }
      var a := check.value;
      var review := NewReview(caller, a, req, now);
      SubmissionKeepsStoreValid(ledger.appointments, reviews, caller, req, now);
      if Consistent() {
        RefreshKeepsConsistency(catalog.hospitalRatings, catalog.doctors, reviews, review);
      }
      reviews := reviews + [review];
      UpdateRatings(a.hospital, a.doctor);
      r := Ok(review);
    }
  }
}
