/** The clinic's entities as values: doctors, patients, appointments and bills,
    with the field defaults and the choice lists the schema declares.
    Money is held in whole cents, because the amounts are fixed-point decimals
    with two places. */
module Models {
  import opened Wrappers

  type DoctorId = nat
  type PatientId = nat
  type AppointmentId = nat
  type BillingId = nat

  /** Calendar dates and times of day, compared by equality only. */
  type Date = string
  type Time = string

  /** An amount of money in cents; it may be negative (see PendingAmount). */
  type Cents = int

  datatype Doctor = Doctor(id: DoctorId, name: string, specialization: string, bio: string)

  /** The age a patient record gets when none is given. */
  const DefaultAge: int := 0

  datatype Patient = Patient(id: PatientId, name: string, phone: string, age: int)

  /** The four appointment states; the stored value is Code(). */
  datatype AppointmentStatus = Pending | Confirmed | Completed | Cancelled
  {
    function Code(): (r: string)
      ensures r == "PENDING" <==> this == Pending
      ensures r == "CONFIRMED" <==> this == Confirmed
      ensures r == "COMPLETED" <==> this == Completed
      ensures r == "CANCELLED" <==> this == Cancelled
    {
      match this
      case Pending => "PENDING"
      case Confirmed => "CONFIRMED"
      case Completed => "COMPLETED"
      case Cancelled => "CANCELLED"
    }
  }

  /** The status a new appointment gets when none is given. */
  const DefaultAppointmentStatus: AppointmentStatus := Pending

  /** Reads a stored status value back; only the four choice codes are valid. */
  function ParseAppointmentStatus(code: string): (r: Option<AppointmentStatus>)
    ensures r.Some? ==> r.value.Code() == code
    ensures r.None? ==> forall s: AppointmentStatus :: s.Code() != code
  {
    if code == "PENDING" then Some(Pending)
    else if code == "CONFIRMED" then Some(Confirmed)
    else if code == "COMPLETED" then Some(Completed)
    else if code == "CANCELLED" then Some(Cancelled)
    else None
  }

  /** A bookable window: one doctor at one date and time. */
  datatype Slot = Slot(doctor: DoctorId, date: Date, time: Time)

  datatype Appointment = Appointment(
    id: AppointmentId,
    patient: PatientId,
    doctor: DoctorId,
    date: Date,
    time: Time,
    symptoms: string,
    status: AppointmentStatus)
  {
    /** The slot the appointment occupies, whatever its status. */
    function BookedSlot(): Slot
    {
      Slot(doctor, date, time)
    }
  }

  /** The three payment states; the stored value is Code(). The state stored
      as "pending" is the one the schema labels "Unpaid". */
  datatype PaymentStatus = Paid | Partial | Unpaid
  {
    function Code(): (r: string)
      ensures r == "paid" <==> this == Paid
      ensures r == "partial" <==> this == Partial
      ensures r == "pending" <==> this == Unpaid
    {
      match this
      case Paid => "paid"
      case Partial => "partial"
      case Unpaid => "pending"
    }
  }

  /** Reads a stored payment status back; only the three choice codes are valid. */
  function ParsePaymentStatus(code: string): (r: Option<PaymentStatus>)
    ensures r.Some? ==> r.value.Code() == code
    ensures r.None? ==> forall s: PaymentStatus :: s.Code() != code
  {
    if code == "paid" then Some(Paid)
    else if code == "partial" then Some(Partial)
    else if code == "pending" then Some(Unpaid)
    else None
  }

  const DefaultPaymentStatus: PaymentStatus := Unpaid
  const DefaultAmountPaid: Cents := 0

  datatype Billing = Billing(
    id: BillingId,
    patient: PatientId,
    treatments: string,
    totalAmount: Cents,
    amountPaid: Cents,
    paymentStatus: PaymentStatus)
  {
    /** What is still owed. It is derived on every read and never clamped:
        an overpaid bill has a negative balance. */
    function PendingAmount(): (r: Cents)
      ensures amountPaid + r == totalAmount
      ensures r == 0 <==> amountPaid == totalAmount
      ensures r < 0 <==> amountPaid > totalAmount
    {
      totalAmount - amountPaid
    }
  }

  /** A bill created with only its required fields; the rest take their defaults. */
  function NewBilling(id: BillingId, patient: PatientId, treatments: string, totalAmount: Cents): (b: Billing)
    ensures b.id == id && b.patient == patient && b.treatments == treatments
    ensures b.totalAmount == totalAmount
    ensures b.amountPaid == 0
    ensures b.paymentStatus.Code() == "pending"
  {
    Billing(id, patient, treatments, totalAmount, DefaultAmountPaid, DefaultPaymentStatus)
  }

  /** A new bill owes its whole total. */
  lemma NewBillingOwesTotal(id: BillingId, patient: PatientId, treatments: string, totalAmount: Cents)
    ensures NewBilling(id, patient, treatments, totalAmount).PendingAmount() == totalAmount
  {
  }
}
