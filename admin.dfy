/** The admin side: the slot check of the appointment edit form and the two
    balance displays of the billing list. */
module Admin {
  import opened Wrappers
  import opened Models
  import opened Queries

  /** The appointment form's fields after field-level cleaning; a field that
      was left empty or failed its own validation is None. */
  datatype CleanedData = CleanedData(
    patient: Option<PatientId>,
    doctor: Option<Doctor>,
    date: Option<Date>,
    time: Option<Time>,
    symptoms: Option<string>,
    status: Option<AppointmentStatus>)

  /** The form error raised when the slot is taken; it names the doctor, the
      time and the date. */
  datatype SlotError = DoctorBooked(doctorName: string, time: Time, date: Date)

  /** Whether doctor, date and time were all given. */
  predicate SlotGiven(data: CleanedData)
  {
    data.doctor.Some? && data.date.Some? && data.time.Some?
  }

  /** The slot the form asks for. */
  function RequestedSlot(data: CleanedData): Slot
    requires SlotGiven(data)
  {
    Slot(data.doctor.value.id, data.date.value, data.time.value)
  }

  /** Form-wide validation of an appointment being added (`instancePk` None) or
      edited (`instancePk` its own key): it fails exactly when doctor, date and
      time are all given and some OTHER appointment holds that slot, whatever
      that appointment's status; otherwise it hands the data back untouched. */
  function Clean(appts: seq<Appointment>, data: CleanedData, instancePk: Option<AppointmentId>): (r: Result<CleanedData, SlotError>)
    ensures r.Ok? ==> r.value == data
    ensures r.Err? <==> (SlotGiven(data) &&
      exists i :: 0 <= i < |appts| && appts[i].BookedSlot() == RequestedSlot(data) && Some(appts[i].id) != instancePk)
    ensures r.Err? ==> r.error == DoctorBooked(data.doctor.value.name, data.time.value, data.date.value)
  {
    if SlotGiven(data) then
      if SlotOccupied(appts, RequestedSlot(data), instancePk) then
        Err(DoctorBooked(data.doctor.value.name, data.time.value, data.date.value))
      else
        Ok(data)
    else
      Ok(data)
  }

  /** With a field of the slot missing, no conflict check is made. */
  lemma CleanSkippedWithoutSlot(appts: seq<Appointment>, data: CleanedData, instancePk: Option<AppointmentId>)
    requires !SlotGiven(data)
    ensures Clean(appts, data, instancePk) == Ok(data)
  {
  }

  /** Re-saving an appointment whose slot is held by nobody but itself passes,
      because its own key is excluded. */
  lemma CleanAcceptsOwnSlot(appts: seq<Appointment>, data: CleanedData, pk: AppointmentId)
    requires SlotGiven(data)
    requires forall i :: 0 <= i < |appts| && appts[i].BookedSlot() == RequestedSlot(data) ==> appts[i].id == pk
    ensures Clean(appts, data, Some(pk)) == Ok(data)
  {
  }

  /** A cancelled appointment blocks its slot in the form as any other does. */
  lemma CleanCountsCancelled(appts: seq<Appointment>, data: CleanedData, instancePk: Option<AppointmentId>, k: nat)
    requires SlotGiven(data)
    requires k < |appts| && appts[k].status == Cancelled
    requires appts[k].BookedSlot() == RequestedSlot(data) && Some(appts[k].id) != instancePk
    ensures Clean(appts, data, instancePk).Err?
  {
  }

  /** For a new appointment the form applies the booking page's rule: it fails
      exactly when the booking page would report the slot taken. */
  lemma CleanMatchesBookingCheck(appts: seq<Appointment>, data: CleanedData)
    requires SlotGiven(data)
    ensures Clean(appts, data, None).Err? <==> SlotOccupied(appts, RequestedSlot(data), None)
  {
  }

  /** The form data of an existing appointment, as the change form shows it. */
  function FormOf(a: Appointment, doctor: Doctor): CleanedData
  {
    CleanedData(Some(a.patient), Some(doctor), Some(a.date), Some(a.time), Some(a.symptoms), Some(a.status))
  }

  /** An appointment just booked into a free slot can be re-saved unchanged in
      the admin form, while a new appointment for the same slot is refused. */
  lemma BookedAppointmentAdminCheck(appts: seq<Appointment>, a: Appointment, doctor: Doctor)
    requires !SlotOccupied(appts, a.BookedSlot(), None)
    requires doctor.id == a.doctor
    ensures Clean(appts + [a], FormOf(a, doctor), Some(a.id)) == Ok(FormOf(a, doctor))
    ensures Clean(appts + [a], FormOf(a, doctor), None) == Err(DoctorBooked(doctor.name, a.time, a.date))
  {
  }

  /** The "Balance Due" column: "Settled" or the amount still owed. */
  datatype BalanceDue = Settled | Due(amount: Cents)

  function GetPending(b: Billing): (c: BalanceDue)
    ensures c == Settled <==> b.PendingAmount() <= 0
    ensures c.Due? ==> c.amount == b.PendingAmount() && c.amount > 0
  {
    var pending := b.PendingAmount();
    if pending > 0 then Due(pending) else Settled
  }

  /** The status line of the bill message: fully paid, or the amount pending. */
  datatype InvoiceStatusText = FullyPaid | PaymentPending(amount: Cents)

  function InvoiceStatus(b: Billing): (t: InvoiceStatusText)
    ensures t == FullyPaid <==> b.PendingAmount() <= 0
    ensures t.PaymentPending? ==> t.amount == b.PendingAmount() && t.amount > 0
  {
    if b.PendingAmount() > 0 then PaymentPending(b.PendingAmount()) else FullyPaid
  }

  /** A bill paid to the cent owes nothing and shows as settled and fully paid. */
  lemma PaidInFullShowsSettled(b: Billing)
    requires b.amountPaid == b.totalAmount
    ensures b.PendingAmount() == 0
    ensures GetPending(b) == Settled && InvoiceStatus(b) == FullyPaid
  {
  }

  /** The column and the message never disagree about a bill. */
  lemma BalanceDisplaysAgree(b: Billing)
    ensures GetPending(b) == Settled <==> InvoiceStatus(b) == FullyPaid
    ensures GetPending(b).Due? ==> InvoiceStatus(b) == PaymentPending(GetPending(b).amount)
  {
  }

  /** An overpaid bill shows as settled and fully paid, though its balance is
      negative. */
  lemma OverpaidShowsSettled(b: Billing)
    requires b.amountPaid > b.totalAmount
    ensures b.PendingAmount() < 0
    ensures GetPending(b) == Settled && InvoiceStatus(b) == FullyPaid
  {
  }

  /** Both displays follow the amounts alone; the stored payment status does
      not enter into them. */
  lemma DisplaysIgnorePaymentStatus(b: Billing, s: PaymentStatus)
    ensures GetPending(b.(paymentStatus := s)) == GetPending(b)
    ensures InvoiceStatus(b.(paymentStatus := s)) == InvoiceStatus(b)
  {
  }
}
