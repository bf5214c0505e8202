/**
 * The appointment routes: booking, cancelling, the caller's appointment list
 * and lookup, and the available-slots query, over a ledger object that holds
 * the appointment collection.
 */
module Appointments {
  import opened Wrappers
  import opened Models
  import opened Seqs

  /**
   * The body of a booking request. A field the route tests with `!field` is
   * `None` (the id and date fields) or "" (the text fields) when it is
   * absent or falsy.
   */
  datatype BookingRequest = BookingRequest(
    petId: Option<PetId>,
    hospitalId: Option<HospitalId>,
    doctorId: Option<DoctorId>,
    appointmentDate: Option<Date>,
    timeSlot: Slot,
    reason: string,
    symptoms: Option<string>)

  predicate HasRequiredFields(req: BookingRequest) {
    && req.petId.Some? && req.hospitalId.Some? && req.doctorId.Some?
    && req.appointmentDate.Some? && req.timeSlot != "" && req.reason != ""
  }

  /** An active appointment (pending or confirmed) holds its slot. */
  predicate Active(s: Status) {
    s == Pending || s == Confirmed
  }

  /** `a` is an active appointment for `doctor` at `slot` on `date`. */
  predicate Holds(a: Appointment, doctor: DoctorId, date: Date, slot: Slot) {
    a.doctor == doctor && a.appointmentDate == date && a.timeSlot == slot && Active(a.status)
  }

  /** The conflict query of the booking route finds a record. */
  predicate SlotTaken(apts: seq<Appointment>, doctor: DoctorId, date: Date, slot: Slot) {
    exists i :: 0 <= i < |apts| && Holds(apts[i], doctor, date, slot)
  }

  /** At most one active appointment per (doctor, date, slot). */
  ghost predicate NoDoubleBooking(apts: seq<Appointment>) {
    forall i, j :: 0 <= i < j < |apts| && Active(apts[i].status) ==>
      !Holds(apts[j], apts[i].doctor, apts[i].appointmentDate, apts[i].timeSlot)
  }

  /**
   * The state the ledger keeps: no double booking, distinct ids all below
   * the next id to hand out, and every record's required fields present.
   */
  ghost predicate LedgerValid(apts: seq<Appointment>, nextId: AppointmentId) {
    && NoDoubleBooking(apts)
    && (forall i, j :: 0 <= i < j < |apts| ==> apts[i].id != apts[j].id)
    && (forall i :: 0 <= i < |apts| ==> apts[i].id < nextId && AppointmentValid(apts[i]))
  }

  predicate OwnsPet(petOwner: map<PetId, UserId>, caller: UserId, pet: PetId) {
    pet in petOwner && petOwner[pet] == caller
  }

  /**
   * The checks of the booking route, failing fast in their order; on success
   * the doctor whose fee the new appointment snapshots.
   */
  function CheckBooking(petOwner: map<PetId, UserId>, doctors: map<DoctorId, Doctor>,
                        apts: seq<Appointment>, caller: UserId, req: BookingRequest): (r: Result<Doctor, Error>)
    ensures !HasRequiredFields(req) ==> r == Err(ValidationError)
    ensures HasRequiredFields(req) && !OwnsPet(petOwner, caller, req.petId.value) ==> r == Err(NotFoundError)
    ensures (HasRequiredFields(req) && OwnsPet(petOwner, caller, req.petId.value)
             && req.doctorId.value !in doctors) ==> r == Err(NotFoundError)
    ensures (HasRequiredFields(req) && OwnsPet(petOwner, caller, req.petId.value) && req.doctorId.value in doctors
             && SlotTaken(apts, req.doctorId.value, req.appointmentDate.value, req.timeSlot)) ==> r == Err(ConflictError)
    ensures r.Ok? <==> && HasRequiredFields(req) && OwnsPet(petOwner, caller, req.petId.value)
                       && req.doctorId.value in doctors
                       && !SlotTaken(apts, req.doctorId.value, req.appointmentDate.value, req.timeSlot)
    ensures r.Ok? ==> r.value == doctors[req.doctorId.value]
  {
    if !HasRequiredFields(req) then Err(ValidationError)
    else if !OwnsPet(petOwner, caller, req.petId.value) then Err(NotFoundError)
    else if req.doctorId.value !in doctors then Err(NotFoundError)
    else if SlotTaken(apts, req.doctorId.value, req.appointmentDate.value, req.timeSlot) then Err(ConflictError)
    else Ok(doctors[req.doctorId.value])
  }

  /** The record a successful booking appends: pending, with the doctor's fee at booking time. */
  function Booked(id: AppointmentId, caller: UserId, req: BookingRequest, doctor: Doctor, now: Time): (a: Appointment)
    requires HasRequiredFields(req)
    ensures AppointmentValid(a) && a.id == id && a.user == caller
    ensures a.pet == req.petId.value && a.hospital == req.hospitalId.value && a.doctor == req.doctorId.value
    ensures a.appointmentDate == req.appointmentDate.value && a.timeSlot == req.timeSlot
    ensures a.reason == req.reason && a.symptoms == req.symptoms
    ensures a.status == Pending && a.totalFee == doctor.consultationFee
  {
    NewAppointment(id, caller, req.petId.value, req.hospitalId.value, req.doctorId.value,
                   req.appointmentDate.value, req.timeSlot, req.reason, req.symptoms,
                   doctor.consultationFee, now)
  }

  /** Appending a booked record keeps the ledger's state valid exactly when its slot was free. */
  lemma BookingPreservesLedger(apts: seq<Appointment>, nextId: AppointmentId, a: Appointment)
    requires LedgerValid(apts, nextId)
    requires a.id == nextId && AppointmentValid(a)
    requires !SlotTaken(apts, a.doctor, a.appointmentDate, a.timeSlot)
    ensures LedgerValid(apts + [a], nextId + 1)
  {
    var s := apts + [a];
    forall i, j | 0 <= i < j < |s| && Active(s[i].status)
      ensures !Holds(s[j], s[i].doctor, s[i].appointmentDate, s[i].timeSlot)
    {
      if j == |apts| {
        if Holds(s[j], s[i].doctor, s[i].appointmentDate, s[i].timeSlot) {
          assert Holds(apts[i], a.doctor, a.appointmentDate, a.timeSlot);
        }
      }
    }
  }

  /** Without the conflict check, booking an active slot twice would break the invariant. */
  lemma ConflictCheckIsNecessary(apts: seq<Appointment>, a: Appointment)
    requires SlotTaken(apts, a.doctor, a.appointmentDate, a.timeSlot) && Active(a.status)
    ensures !NoDoubleBooking(apts + [a])
  {
    var i :| 0 <= i < |apts| && Holds(apts[i], a.doctor, a.appointmentDate, a.timeSlot);
    var s := apts + [a];
    assert s[i] == apts[i] && s[|apts|] == a;
    assert Holds(s[|apts|], s[i].doctor, s[i].appointmentDate, s[i].timeSlot);
  }

  /** The appointment stored under `id` for `caller`: the filter of the lookup by id. */
  predicate OwnedBy(a: Appointment, id: AppointmentId, caller: UserId) {
    a.id == id && a.user == caller
  }

  /** The position of the first appointment with `id` that belongs to `caller`. */
  function OwnedIndex(apts: seq<Appointment>, caller: UserId, id: AppointmentId): (r: Option<nat>)
    ensures r.Some? ==> r.value < |apts| && OwnedBy(apts[r.value], id, caller)
    ensures r.Some? ==> forall j :: 0 <= j < r.value ==> !OwnedBy(apts[j], id, caller)
    ensures r.None? <==> forall j :: 0 <= j < |apts| ==> !OwnedBy(apts[j], id, caller)
  {
    Find(apts, a => OwnedBy(a, id, caller))
  }

  /** GET by id: the caller's appointment with that id, or nothing (a 404). */
  function GetAppointment(apts: seq<Appointment>, caller: UserId, id: AppointmentId): (r: Option<Appointment>)
    ensures r.Some? ==> r.value in apts && r.value.id == id && r.value.user == caller
    ensures r.None? <==> forall a :: a in apts ==> !OwnedBy(a, id, caller)
  {
    match OwnedIndex(apts, caller, id)
    case None => None
    case Some(k) => Some(apts[k])
  }

  /** With distinct ids, the lookup finds precisely the caller's record with that id. */
  lemma GetAppointmentExact(apts: seq<Appointment>, caller: UserId, id: AppointmentId, a: Appointment)
    requires forall i, j :: 0 <= i < j < |apts| ==> apts[i].id != apts[j].id
    ensures GetAppointment(apts, caller, id) == Some(a) <==> a in apts && OwnedBy(a, id, caller)
  {
    if a in apts && OwnedBy(a, id, caller) {
      var i :| 0 <= i < |apts| && apts[i] == a;
      assert OwnedIndex(apts, caller, id).Some?;
    }
  }

  /**
   * The checks of the status route: only "cancelled" may be requested, the
   * appointment must be the caller's, and only an active one can be
   * cancelled. On success, the position of the record to update.
   */
  function CheckCancel(apts: seq<Appointment>, caller: UserId, id: AppointmentId, requested: string): (r: Result<nat, Error>)
    ensures requested != StatusName(Cancelled) ==> r == Err(ValidationError)
    ensures requested == StatusName(Cancelled) && GetAppointment(apts, caller, id).None? ==> r == Err(NotFoundError)
    ensures (requested == StatusName(Cancelled) && GetAppointment(apts, caller, id).Some?
             && !Active(GetAppointment(apts, caller, id).value.status)) ==> r == Err(StateError)
    ensures r.Ok? <==> && requested == StatusName(Cancelled) && GetAppointment(apts, caller, id).Some?
                       && Active(GetAppointment(apts, caller, id).value.status)
    ensures r.Ok? ==> r.value < |apts| && apts[r.value] == GetAppointment(apts, caller, id).value
  {
    if requested != StatusName(Cancelled) then Err(ValidationError)
    else
      match OwnedIndex(apts, caller, id)
      case None => Err(NotFoundError)
      case Some(k) => if !Active(apts[k].status) then Err(StateError) else Ok(k)
  }

  /** The record as the status route saves it: cancelled, and stamped by the pre-save hook. */
  function CancelledAt(a: Appointment, now: Time): (b: Appointment)
    ensures b.status == Cancelled && b.updatedAt == now
    ensures b.(status := a.status, updatedAt := a.updatedAt) == a
  {
    PreSave(a.(status := Cancelled), now)
  }

  /** Cancelling a record keeps the ledger's state valid. */
  lemma CancelPreservesLedger(apts: seq<Appointment>, nextId: AppointmentId, k: nat, now: Time)
    requires LedgerValid(apts, nextId) && k < |apts|
    ensures LedgerValid(apts[k := CancelledAt(apts[k], now)], nextId)
  {
  }

  /** A cancellation that succeeded cannot be repeated: the second one meets a state error. */
  lemma RepeatedCancelFails(apts: seq<Appointment>, caller: UserId, id: AppointmentId, now: Time)
    requires CheckCancel(apts, caller, id, "cancelled").Ok?
    ensures var k := CheckCancel(apts, caller, id, "cancelled").value;
            CheckCancel(apts[k := CancelledAt(apts[k], now)], caller, id, "cancelled") == Err(StateError)
  {
    var k := CheckCancel(apts, caller, id, "cancelled").value;
    var after := apts[k := CancelledAt(apts[k], now)];
    assert OwnedIndex(apts, caller, id) == Some(k);
    assert OwnedBy(after[k], id, caller);
    assert forall j :: 0 <= j < k ==> after[j] == apts[j];
    assert OwnedIndex(after, caller, id) == Some(k) by {
      assert OwnedIndex(after, caller, id).Some?;
    }
  }

  /** Once cancelled, an appointment no longer holds its slot, and no other appointment does. */
  lemma CancelFreesSlot(apts: seq<Appointment>, k: nat, now: Time)
    requires NoDoubleBooking(apts) && k < |apts| && Active(apts[k].status)
    ensures var a := apts[k];
            !SlotTaken(apts[k := CancelledAt(a, now)], a.doctor, a.appointmentDate, a.timeSlot)
  {
    var a := apts[k];
    var after := apts[k := CancelledAt(a, now)];
    forall j | 0 <= j < |after|
      ensures !Holds(after[j], a.doctor, a.appointmentDate, a.timeSlot)
    {
      if j < k {
        if Holds(after[j], a.doctor, a.appointmentDate, a.timeSlot) {
          assert Holds(apts[k], apts[j].doctor, apts[j].appointmentDate, apts[j].timeSlot);
        }
      }
    }
  }

  /** The status query of the caller's appointment list: "" when none is given. */
  predicate MatchesQuery(a: Appointment, caller: UserId, statusQuery: string) {
    a.user == caller && (statusQuery == "" || StatusName(a.status) == statusQuery)
  }

  function DateKey(a: Appointment): int {
    a.appointmentDate
  }

  /**
   * GET my-appointments: exactly the caller's appointments, restricted to
   * the queried status when one is given, latest appointment date first.
   */
  function MyAppointments(apts: seq<Appointment>, caller: UserId, statusQuery: string): (r: seq<Appointment>)
    ensures forall a :: a in r <==> a in apts && MatchesQuery(a, caller, statusQuery)
    ensures forall a :: multiset(r)[a] == if MatchesQuery(a, caller, statusQuery) then multiset(apts)[a] else 0
    ensures SortedDesc(r, DateKey)
  {
    var mine := Filter(apts, a => MatchesQuery(a, caller, statusQuery));
    var r := SortDesc(mine, DateKey);
    assert forall a :: a in r <==> a in mine by {
      forall a ensures a in r <==> a in mine {
        assert a in r <==> a in multiset(r);
        assert a in mine <==> a in multiset(mine);
      }
    }
    r
  }

  /**
   * The time slots of the active appointments for `doctor` on `date`, in
   * ledger order: the projection of the booked-appointments query.
   */
  function BookedSlots(apts: seq<Appointment>, doctor: DoctorId, date: Date): (r: seq<Slot>)
    ensures forall s :: s in r <==> SlotTaken(apts, doctor, date, s)
  {
    if apts == [] then []
    else
      var rest := BookedSlots(apts[1..], doctor, date);
      assert forall s :: SlotTaken(apts, doctor, date, s) <==>
                         Holds(apts[0], doctor, date, s) || SlotTaken(apts[1..], doctor, date, s) by {
        forall s ensures SlotTaken(apts, doctor, date, s) <==>
                         Holds(apts[0], doctor, date, s) || SlotTaken(apts[1..], doctor, date, s) {
          if SlotTaken(apts, doctor, date, s) {
            var i :| 0 <= i < |apts| && Holds(apts[i], doctor, date, s);
            if i > 0 { assert apts[1..][i - 1] == apts[i]; }
          }
          if SlotTaken(apts[1..], doctor, date, s) {
            var i :| 0 <= i < |apts[1..]| && Holds(apts[1..][i], doctor, date, s);
            assert apts[i + 1] == apts[1..][i];
          }
        }
      }
      if Holds(apts[0], doctor, date, apts[0].timeSlot) then [apts[0].timeSlot] + rest else rest
  }

  /** No element of `s` occurs twice. */
  ghost predicate Distinct(s: seq<Slot>) {
    forall i, j :: 0 <= i < j < |s| ==> s[i] != s[j]
  }

  /** Under the ledger invariant no slot is reported as booked twice. */
  lemma {:induction false} BookedSlotsDistinct(apts: seq<Appointment>, doctor: DoctorId, date: Date)
    requires NoDoubleBooking(apts)
    ensures Distinct(BookedSlots(apts, doctor, date))
  {
    if apts != [] {
      var tail := apts[1..];
      assert NoDoubleBooking(tail) by {
        forall i, j | 0 <= i < j < |tail| && Active(tail[i].status)
          ensures !Holds(tail[j], tail[i].doctor, tail[i].appointmentDate, tail[i].timeSlot)
        {
          assert tail[i] == apts[i + 1] && tail[j] == apts[j + 1];
        }
      }
      BookedSlotsDistinct(tail, doctor, date);
      var rest := BookedSlots(tail, doctor, date);
      var a := apts[0];
      if Holds(a, doctor, date, a.timeSlot) {
        assert a.timeSlot !in rest;
        var b := BookedSlots(apts, doctor, date);
        assert b == [a.timeSlot] + rest;
        assert b[0] == a.timeSlot;
        forall i, j | 0 <= i < j < |b| ensures b[i] != b[j] {
          if i == 0 { assert b[j] == rest[j - 1]; assert rest[j - 1] in rest; }
          else { assert b[i] == rest[i - 1] && b[j] == rest[j - 1]; }
        }
      } else {
        assert BookedSlots(apts, doctor, date) == BookedSlots(tail, doctor, date);
      }
    }
  }

  /** The template slots not in `booked`, in template order. */
  function AvailableSlots(all: seq<Slot>, booked: seq<Slot>): (r: seq<Slot>)
    ensures forall s :: s in r <==> s in all && s !in booked
    ensures forall s :: multiset(r)[s] == if s in booked then 0 else multiset(all)[s]
    ensures Subsequence(r, all)
  {
    Filter(all, s => s !in booked)
  }

  /** The answer of the available-slots route. */
  datatype SlotView = SlotView(date: Date, availableSlots: seq<Slot>, bookedSlots: seq<Slot>, allSlots: seq<Slot>)

  /**
   * GET available-slots: the doctor's whole template, the slots of active
   * bookings for that doctor on that date, and the template with those
   * removed, in template order.
   */
  function ResolveSlots(doctors: map<DoctorId, Doctor>, apts: seq<Appointment>,
                        doctorId: DoctorId, date: Option<Date>): (r: Result<SlotView, Error>)
    ensures date.None? ==> r == Err(ValidationError)
    ensures date.Some? && doctorId !in doctors ==> r == Err(NotFoundError)
    ensures r.Ok? <==> date.Some? && doctorId in doctors
    ensures r.Ok? ==> r.value.date == date.value && r.value.allSlots == doctors[doctorId].availableTimeSlots
    ensures r.Ok? ==> forall s :: s in r.value.bookedSlots <==> SlotTaken(apts, doctorId, date.value, s)
    ensures r.Ok? ==> forall s :: s in r.value.availableSlots <==>
                        s in r.value.allSlots && !SlotTaken(apts, doctorId, date.value, s)
    ensures r.Ok? ==> Subsequence(r.value.availableSlots, r.value.allSlots)
    ensures r.Ok? ==> r.value.availableSlots == AvailableSlots(r.value.allSlots, r.value.bookedSlots)
  {
    if date.None? then Err(ValidationError)
    else if doctorId !in doctors then Err(NotFoundError)
    else
      var all := doctors[doctorId].availableTimeSlots;
      var booked := BookedSlots(apts, doctorId, date.value);
      Ok(SlotView(date.value, AvailableSlots(all, booked), booked, all))
  }

  /**
   * The slot query and the booking route agree: a request that passes the
   * field, pet and doctor checks is accepted exactly when its slot is not
   * reported booked, and, for a template slot, exactly when it is reported
   * available.
   */
  lemma BookingAgreesWithSlots(petOwner: map<PetId, UserId>, doctors: map<DoctorId, Doctor>,
                               apts: seq<Appointment>, caller: UserId, req: BookingRequest)
    requires HasRequiredFields(req) && OwnsPet(petOwner, caller, req.petId.value)
    requires req.doctorId.value in doctors
    ensures var view := ResolveSlots(doctors, apts, req.doctorId.value, req.appointmentDate).value;
            && (CheckBooking(petOwner, doctors, apts, caller, req).Ok? <==> req.timeSlot !in view.bookedSlots)
            && (req.timeSlot in view.allSlots ==>
                  (CheckBooking(petOwner, doctors, apts, caller, req).Ok? <==> req.timeSlot in view.availableSlots))
  {
  }

  /** The appointment collection, with the pet owners and the catalog it reads. */
  class Ledger {
    var appointments: seq<Appointment>
    var nextId: AppointmentId
    const petOwner: map<PetId, UserId>
    const catalog: Catalog

    ghost predicate Valid()
      reads this
    {
      LedgerValid(appointments, nextId)
    }

    constructor (catalog: Catalog, petOwner: map<PetId, UserId>, stored: seq<Appointment>, nextId: AppointmentId)
      requires LedgerValid(stored, nextId)
      ensures Valid()
      ensures this.catalog == catalog && this.petOwner == petOwner
      ensures appointments == stored && this.nextId == nextId
    {
      this.catalog := catalog;
      this.petOwner := petOwner;
      appointments := stored;
      this.nextId := nextId;
    }

    /**
     * POST /: on a failed check nothing changes; otherwise exactly one
     * pending record is appended, with the doctor's current fee, and every
     * earlier record is unchanged.
     */
    method CreateBooking(caller: UserId, req: BookingRequest, now: Time) returns (r: Result<Appointment, Error>)
      requires Valid()
      modifies this
      ensures Valid()
      ensures CheckBooking(petOwner, catalog.doctors, old(appointments), caller, req).Err? ==>
                && r == Err(CheckBooking(petOwner, catalog.doctors, old(appointments), caller, req).error)
                && appointments == old(appointments) && nextId == old(nextId)
      ensures CheckBooking(petOwner, catalog.doctors, old(appointments), caller, req).Ok? ==>
                && r == Ok(Booked(old(nextId), caller, req, catalog.doctors[req.doctorId.value], now))
                && appointments == old(appointments) + [r.value]
                && nextId == old(nextId) + 1
    {
      var check := CheckBooking(petOwner, catalog.doctors, appointments, caller, req);
      if check.Err? {
        r := Err(check.error);
        return;
      }
      var a := Booked(nextId, caller, req, check.value, now);
      BookingPreservesLedger(appointments, nextId, a);
      appointments := appointments + [a];
      nextId := nextId + 1;
      r := Ok(a);
    }

    /**
     * PATCH /:id/status: on a failed check nothing changes; otherwise only
     * that record changes, to cancelled with a fresh update time.
     */
    method Cancel(caller: UserId, id: AppointmentId, requested: string, now: Time) returns (r: Result<Appointment, Error>)
      requires Valid()
      modifies this
      ensures Valid() && nextId == old(nextId)
      ensures CheckCancel(old(appointments), caller, id, requested).Err? ==>
                && r == Err(CheckCancel(old(appointments), caller, id, requested).error)
                && appointments == old(appointments)
      ensures CheckCancel(old(appointments), caller, id, requested).Ok? ==>
                var k := CheckCancel(old(appointments), caller, id, requested).value;
                && appointments == old(appointments)[k := CancelledAt(old(appointments)[k], now)]
                && r == Ok(appointments[k])
    {
      var check := CheckCancel(appointments, caller, id, requested);
      if check.Err? {
        r := Err(check.error);
        return;
      }
      var k := check.value;
      CancelPreservesLedger(appointments, nextId, k, now);
      appointments := appointments[k := CancelledAt(appointments[k], now)];
      r := Ok(appointments[k]);
    }
  }
}
