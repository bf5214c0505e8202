/**
 * The stored records of the clinic: appointments, reviews and doctors, with
 * the enums, defaults, ranges and required fields their schemas declare, and
 * the catalog collection whose cached ratings the review route writes.
 */
module Models {
  import opened Wrappers

  type UserId = nat
  type PetId = nat
  type HospitalId = nat
  type DoctorId = nat
  type AppointmentId = nat
  /** A calendar instant; the model only compares two of them. */
  type Date = int
  /** A reading of the server clock, supplied by the caller of each operation. */
  type Time = int
  /** A time-of-day string from a doctor's template, such as "09:00". */
  type Slot = string
  /** A rating kept in tenths: 46 stands for 4.6. */
  type Tenths = int

  /** The kinds of failure a route answers with (400, 404, 400, 400 and 500). */
  datatype Error = ValidationError | NotFoundError | ConflictError | StateError | UnknownError

  datatype Status = Pending | Confirmed | Completed | Cancelled | NoShow

  /** The string the schema's enum stores for each status. */
  function StatusName(s: Status): (name: string)
    ensures name != ""
  {
    match s
    case Pending => "pending"
    case Confirmed => "confirmed"
    case Completed => "completed"
    case Cancelled => "cancelled"
    case NoShow => "no-show"
  }

  /** Distinct statuses are stored as distinct strings. */
  lemma StatusNameInjective(s: Status, t: Status)
    ensures StatusName(s) == StatusName(t) ==> s == t
  {
  }

  datatype PaymentStatus = PaymentPending | Paid | Refunded

  datatype Appointment = Appointment(
    id: AppointmentId,
    user: UserId,
    pet: PetId,
    hospital: HospitalId,
    doctor: DoctorId,
    appointmentDate: Date,
    timeSlot: Slot,
    reason: string,
    symptoms: Option<string>,
    status: Status,
    notes: Option<string>,
    prescription: Option<string>,
    totalFee: int,
    paymentStatus: PaymentStatus,
    reminderSent: bool,
    createdAt: Time,
    updatedAt: Time)

  /**
   * The required fields of an appointment are present. References, the date
   * and the fee are present by their types; a `required` string must also be
   * non-empty.
   */
  predicate AppointmentValid(a: Appointment) {
    a.timeSlot != "" && a.reason != ""
  }

  /**
   * A freshly saved appointment: the given fields, the schema defaults for
   * the rest, and both timestamps at the save time.
   */
  function NewAppointment(id: AppointmentId, user: UserId, pet: PetId, hospital: HospitalId,
                          doctor: DoctorId, date: Date, slot: Slot, reason: string,
                          symptoms: Option<string>, fee: int, now: Time): (a: Appointment)
    requires slot != "" && reason != ""
    ensures AppointmentValid(a)
    ensures a.status == Pending && a.paymentStatus == PaymentPending && !a.reminderSent
    ensures a.notes == None && a.prescription == None
    ensures a.createdAt == now && a.updatedAt == now
  {
    Appointment(id, user, pet, hospital, doctor, date, slot, reason, symptoms,
                Pending, None, None, fee, PaymentPending, false, now, now)
  }

  /** The pre-save hook: stamps `updatedAt` with the save time. */
  function PreSave(a: Appointment, now: Time): (b: Appointment)
    ensures b.updatedAt == now
    ensures b.(updatedAt := a.updatedAt) == a
  {
    a.(updatedAt := now)
  }

  datatype Review = Review(
    user: UserId,
    appointment: AppointmentId,
    hospital: HospitalId,
    doctor: DoctorId,
    rating: int,
    comment: string,
    createdAt: Time)

  /** The stored rating lies in 1..5 and the required comment is non-empty. */
  predicate ReviewValid(r: Review) {
    1 <= r.rating <= 5 && r.comment != ""
  }

  datatype Doctor = Doctor(
    name: string,
    hospital: HospitalId,
    specialization: string,
    availableDays: seq<string>,
    availableTimeSlots: seq<Slot>,
    consultationFee: int,
    rating: Tenths,
    isActive: bool)

  /** The required strings are non-empty and the rating lies in [0, 5]. */
  predicate DoctorValid(d: Doctor) {
    d.name != "" && d.specialization != "" && 0 <= d.rating <= 50
  }

  /** A doctor record as the schema creates it: rating 0 and active. */
  function NewDoctor(name: string, hospital: HospitalId, specialization: string,
                     days: seq<string>, slots: seq<Slot>, fee: int): (d: Doctor)
    requires name != "" && specialization != ""
    ensures DoctorValid(d)
    ensures d.rating == 0 && d.isActive
    ensures d.availableTimeSlots == slots && d.consultationFee == fee
  {
    Doctor(name, hospital, specialization, days, slots, fee, 0, true)
  }

  /**
   * The doctor and hospital collections as the core sees them: the doctor
   * records, and for each hospital only its cached rating.
   */
  class Catalog {
    var doctors: map<DoctorId, Doctor>
    var hospitalRatings: map<HospitalId, Tenths>

    ghost predicate Valid()
      reads this
    {
      forall d :: d in doctors ==> DoctorValid(doctors[d])
    }

    constructor (doctors: map<DoctorId, Doctor>, hospitalRatings: map<HospitalId, Tenths>)
      requires forall d :: d in doctors ==> DoctorValid(doctors[d])
      ensures Valid()
      ensures this.doctors == doctors && this.hospitalRatings == hospitalRatings
    {
      this.doctors := doctors;
      this.hospitalRatings := hospitalRatings;
    }
  }
}
