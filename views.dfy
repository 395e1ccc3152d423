/** The public pages: the booking form of the home page, which works on the
    record store step by step, and the invoice download. */
module Views {
  import opened Wrappers
  import opened Models
  import opened Queries

  /** The fields of a submitted booking form. */
  datatype BookingRequest = BookingRequest(
    name: string,
    phone: string,
    date: Date,
    time: Time,
    doctorId: DoctorId,
    symptoms: string)
  {
    function RequestedSlot(): Slot
    {
      Slot(doctorId, date, time)
    }
  }

  /** How a booking ends. Booked carries the stored appointment, its patient and
      whether that patient was created by this booking. SlotTaken is the
      message naming the doctor and the requested time. DoctorNotFound and
      MultiplePatients are the two lookups that fail by raising. */
  datatype BookingOutcome =
    | Booked(appointment: Appointment, patient: Patient, created: bool)
    | SlotTaken(doctorName: string, time: Time)
    | DoctorNotFound
    | MultiplePatients

  /** What the patient lookup by phone found: the one patient with that
      phone, a patient it created, or more than one patient. */
  datatype PatientLookup = Found(patient: Patient) | Created(patient: Patient) | MultipleFound

  /** No two appointments share a slot. */
  predicate NoDoubleBooking(appts: seq<Appointment>)
  {
    forall i, j :: 0 <= i < j < |appts| ==> appts[i].BookedSlot() != appts[j].BookedSlot()
  }

  /** No two patients share a phone number. */
  predicate UniquePhones(patients: seq<Patient>)
  {
    forall i, j :: 0 <= i < j < |patients| ==> patients[i].phone != patients[j].phone
  }

  /** The integrity the database maintains: doctors are keyed by their own id,
      the primary keys of patients, appointments and bills are distinct, those
      of patients and appointments are below the next key to be handed out,
      and every reference points at an existing record. */
  ghost predicate Consistent(
    doctors: map<DoctorId, Doctor>, patients: seq<Patient>, appointments: seq<Appointment>,
    billings: seq<Billing>, nextPatientId: PatientId, nextAppointmentId: AppointmentId)
  {
    && (forall id :: id in doctors ==> doctors[id].id == id)
    && (forall i :: 0 <= i < |patients| ==> patients[i].id < nextPatientId)
    && (forall i, j :: 0 <= i < j < |patients| ==> patients[i].id != patients[j].id)
    && (forall i :: 0 <= i < |appointments| ==> appointments[i].id < nextAppointmentId)
    && (forall i, j :: 0 <= i < j < |appointments| ==> appointments[i].id != appointments[j].id)
    && (forall i :: 0 <= i < |appointments| ==>
          appointments[i].doctor in doctors && HasPatient(patients, appointments[i].patient))
    && (forall i, j :: 0 <= i < j < |billings| ==> billings[i].id != billings[j].id)
    && (forall i :: 0 <= i < |billings| ==> HasPatient(patients, billings[i].patient))
  }

  /** Adding a patient keeps every existing reference to a patient valid. */
  lemma HasPatientAppend(patients: seq<Patient>, p: Patient, id: PatientId)
    requires HasPatient(patients, id)
    ensures HasPatient(patients + [p], id)
  {
    var j :| 0 <= j < |patients| && patients[j].id == id;
    assert (patients + [p])[j] == patients[j];
  }

  /** Creating a patient under the next free key keeps the store consistent. */
  lemma CreatePatientKeepsConsistent(
    doctors: map<DoctorId, Doctor>, patients: seq<Patient>, appointments: seq<Appointment>,
    billings: seq<Billing>, nextPatientId: PatientId, nextAppointmentId: AppointmentId, p: Patient)
    requires Consistent(doctors, patients, appointments, billings, nextPatientId, nextAppointmentId)
    requires p.id == nextPatientId
    ensures Consistent(doctors, patients + [p], appointments, billings, nextPatientId + 1, nextAppointmentId)
    ensures HasPatient(patients + [p], p.id)
  {
    forall id | HasPatient(patients, id) ensures HasPatient(patients + [p], id) {
      HasPatientAppend(patients, p, id);
    }
    assert (patients + [p])[|patients|] == p;
  }

  /** Appending an appointment under the next free key, for a known doctor and
      an existing patient, keeps the store consistent. */
  lemma AddAppointmentKeepsConsistent(
    doctors: map<DoctorId, Doctor>, patients: seq<Patient>, appointments: seq<Appointment>,
    billings: seq<Billing>, nextPatientId: PatientId, nextAppointmentId: AppointmentId, a: Appointment)
    requires Consistent(doctors, patients, appointments, billings, nextPatientId, nextAppointmentId)
    requires a.id == nextAppointmentId && a.doctor in doctors && HasPatient(patients, a.patient)
    ensures Consistent(doctors, patients, appointments + [a], billings, nextPatientId, nextAppointmentId + 1)
  {
  }

  /** Appending an appointment to a slot nobody holds keeps the slots unshared. */
  lemma BookingFreeSlotKeepsNoDoubleBooking(appts: seq<Appointment>, a: Appointment)
    requires NoDoubleBooking(appts)
    requires !SlotOccupied(appts, a.BookedSlot(), None)
    ensures NoDoubleBooking(appts + [a])
  {
  }

  /** Creating a patient with a phone nobody has keeps phone numbers unique. */
  lemma NewPhoneKeepsUniquePhones(patients: seq<Patient>, p: Patient)
    requires UniquePhones(patients)
    requires PatientsWithPhone(patients, p.phone) == []
    ensures UniquePhones(patients + [p])
  {
  }

  /** The record store behind the booking page. */
  class ClinicStore {
    var doctors: map<DoctorId, Doctor>
    var patients: seq<Patient>
    var appointments: seq<Appointment>
    var billings: seq<Billing>
    var nextPatientId: PatientId
    var nextAppointmentId: AppointmentId

    ghost predicate Valid()
      reads this
    {
      Consistent(doctors, patients, appointments, billings, nextPatientId, nextAppointmentId)
    }

    /** A store holding the given records. */
    constructor (
      doctors: map<DoctorId, Doctor>, patients: seq<Patient>, appointments: seq<Appointment>,
      billings: seq<Billing>, nextPatientId: PatientId, nextAppointmentId: AppointmentId)
      requires Consistent(doctors, patients, appointments, billings, nextPatientId, nextAppointmentId)
      ensures Valid()
      ensures this.doctors == doctors && this.patients == patients
      ensures this.appointments == appointments && this.billings == billings
      ensures this.nextPatientId == nextPatientId && this.nextAppointmentId == nextAppointmentId
    {
      this.doctors := doctors;
      this.patients := patients;
      this.appointments := appointments;
      this.billings := billings;
      this.nextPatientId := nextPatientId;
      this.nextAppointmentId := nextAppointmentId;
    }

    /** Patient lookup by phone, creating the patient when none has that
        phone. An existing record is returned as it is: the name given here
        is used only for a new patient, whose age is the default 0. More than
        one patient with the phone is an error, and then nothing changes. */
    method GetOrCreatePatient(phone: string, name: string) returns (r: PatientLookup)
      requires Valid()
      modifies this`patients, this`nextPatientId
      ensures Valid()
      ensures r == MultipleFound <==> |PatientsWithPhone(old(patients), phone)| > 1
      ensures r.Found? <==> |PatientsWithPhone(old(patients), phone)| == 1
      ensures r.Found? ==> PatientsWithPhone(old(patients), phone) == [r.patient]
      ensures !r.Created? ==> patients == old(patients) && nextPatientId == old(nextPatientId)
      ensures r.Created? ==>
        && PatientsWithPhone(old(patients), phone) == []
        && r.patient == Patient(old(nextPatientId), name, phone, DefaultAge)
        && patients == old(patients) + [r.patient]
        && nextPatientId == old(nextPatientId) + 1
      ensures !r.MultipleFound? ==> HasPatient(patients, r.patient.id)
      ensures old(UniquePhones(patients)) ==> UniquePhones(patients)
    {
      var matches := PatientsWithPhone(patients, phone);
      if |matches| > 1 {
        return MultipleFound;
      } else if |matches| == 1 {
        assert matches[0] in matches;
        var j :| 0 <= j < |patients| && patients[j] == matches[0];
        assert matches == [matches[0]];
        return Found(matches[0]);
      }
      var patient := Patient(nextPatientId, name, phone, DefaultAge);
      CreatePatientKeepsConsistent(doctors, patients, appointments, billings, nextPatientId, nextAppointmentId, patient);
      if UniquePhones(patients) {
        NewPhoneKeepsUniquePhones(patients, patient);
      }
      patients := patients + [patient];
      nextPatientId := nextPatientId + 1;
      r := Created(patient);
    }

    /** A booking-form submission. The doctor is looked up first; then the slot
        is checked against every appointment, whatever its status; only then is
        the patient found or created by phone, and a pending appointment for
        the request appended. Any failure leaves the store as it was. */
    method Book(req: BookingRequest) returns (outcome: BookingOutcome)
      requires Valid()
      modifies this
      ensures Valid()
      ensures doctors == old(doctors) && billings == old(billings)
      ensures outcome == DoctorNotFound <==> req.doctorId !in old(doctors)
      ensures outcome.SlotTaken? <==>
        req.doctorId in old(doctors) && SlotOccupied(old(appointments), req.RequestedSlot(), None)
      ensures outcome.SlotTaken? ==> outcome == SlotTaken(old(doctors)[req.doctorId].name, req.time)
      ensures outcome == MultiplePatients <==>
        (req.doctorId in old(doctors) && !SlotOccupied(old(appointments), req.RequestedSlot(), None)
         && |PatientsWithPhone(old(patients), req.phone)| > 1)
      ensures !outcome.Booked? ==> unchanged(this)
      ensures outcome.Booked? ==>
        && outcome.appointment == Appointment(old(nextAppointmentId), outcome.patient.id, req.doctorId,
                                              req.date, req.time, req.symptoms, AppointmentStatus.Pending)
        && appointments == old(appointments) + [outcome.appointment]
        && nextAppointmentId == old(nextAppointmentId) + 1
      ensures outcome.Booked? && outcome.created ==>
        && PatientsWithPhone(old(patients), req.phone) == []
        && outcome.patient == Patient(old(nextPatientId), req.name, req.phone, DefaultAge)
        && patients == old(patients) + [outcome.patient]
        && nextPatientId == old(nextPatientId) + 1
      ensures outcome.Booked? && !outcome.created ==>
        && PatientsWithPhone(old(patients), req.phone) == [outcome.patient]
        && patients == old(patients) && nextPatientId == old(nextPatientId)
      ensures old(NoDoubleBooking(appointments)) ==> NoDoubleBooking(appointments)
      ensures old(UniquePhones(patients)) ==> UniquePhones(patients)
    {
      if req.doctorId !in doctors {
        return DoctorNotFound;
      }
      var doctor := doctors[req.doctorId];
      if SlotOccupied(appointments, req.RequestedSlot(), None) {
        return SlotTaken(doctor.name, req.time);
      }
      var lookup := GetOrCreatePatient(req.phone, req.name);
      if lookup.MultipleFound? {
        return MultiplePatients;
      }
      var appointment := Appointment(nextAppointmentId, lookup.patient.id, req.doctorId,
                                     req.date, req.time, req.symptoms, AppointmentStatus.Pending);
      AddAppointmentKeepsConsistent(doctors, patients, appointments, billings, nextPatientId, nextAppointmentId, appointment);
      if NoDoubleBooking(appointments) {
        BookingFreeSlotKeepsNoDoubleBooking(appointments, appointment);
      }
      appointments := appointments + [appointment];
      nextAppointmentId := nextAppointmentId + 1;
      outcome := Booked(appointment, lookup.patient, lookup.Created?);
    }
  }

  /** Booking the same slot twice: once the first request is booked, the
      second is refused as taken, whoever makes it and for whatever symptoms. */
  method BookSameSlotTwice(store: ClinicStore, first: BookingRequest, second: BookingRequest)
    returns (o1: BookingOutcome, o2: BookingOutcome)
    requires store.Valid()
    requires second.RequestedSlot() == first.RequestedSlot()
    modifies store
    ensures store.Valid()
    ensures o1.Booked? ==> first.doctorId in store.doctors && o2 == SlotTaken(store.doctors[first.doctorId].name, second.time)
  {
    o1 := store.Book(first);
    if o1.Booked? {
      assert o1.appointment.BookedSlot() == second.RequestedSlot();
      AppendedSlotOccupied(old(store.appointments), o1.appointment, None);
    }
    o2 := store.Book(second);
  }

  /** Two successful bookings from the same phone share one patient record:
      the second reuses the first's patient, so a patient created by the first
      keeps the first request's name. */
  method BookSamePhoneTwice(store: ClinicStore, first: BookingRequest, second: BookingRequest)
    returns (o1: BookingOutcome, o2: BookingOutcome)
    requires store.Valid()
    requires second.phone == first.phone
    modifies store
    ensures store.Valid()
    ensures o1.Booked? && o2.Booked? ==> !o2.created && o2.patient == o1.patient
    ensures o1.Booked? && o1.created && o2.Booked? ==> o2.patient.name == first.name
  {
    o1 := store.Book(first);
    if o1.Booked? {
      if o1.created {
        PatientsWithPhoneAppend(old(store.patients), o1.patient, first.phone);
      }
      assert PatientsWithPhone(store.patients, second.phone) == [o1.patient];
    }
    o2 := store.Book(second);
  }

  /** A worked example on an empty store with one doctor: the first request
      creates the patient and a pending appointment, and the same request
      again is refused, naming the doctor and the time. */
  method BookingExample() returns (first: BookingOutcome, second: BookingOutcome)
    ensures first.Booked? && first.created && first.patient.name == "Asha"
    ensures first.appointment.status == AppointmentStatus.Pending
    ensures second == SlotTaken("Mehta", "10:00")
  {
    var doctor := Doctor(1, "Mehta", "Orthodontist", "");
    var store := new ClinicStore(map[1 := doctor], [], [], [], 1, 1);
    var req := BookingRequest("Asha", "9999999999", "2024-01-10", "10:00", 1, "toothache");
    assert SlotConflicts([], req.RequestedSlot(), None) == [];
    assert PatientsWithPhone([], req.phone) == [];
    first := store.Book(req);
    AppendedSlotOccupied([], first.appointment, None);
    second := store.Book(req);
  }

  /** What the invoice download sends back: the bill and its patient for the
      document, the fixed doctor label, and the attachment's file name. */
  datatype InvoiceDownload = InvoiceDownload(bill: Billing, patient: Patient, doctorLabel: string, filename: string)

  datatype InvoiceError = BillingNotFound

  const InvoiceDoctorLabel: string := "Dr. Uncle (Senior Orthodontist)"

  /** The invoice download for bill `billingId`: an error when no such bill
      exists, otherwise the bill with its patient and a file name made of
      "Invoice_", the patient's name and ".pdf". Keys are distinct and every
      bill's patient exists, as the database guarantees. */
  function GenerateInvoice(billings: seq<Billing>, patients: seq<Patient>, billingId: BillingId): (r: Result<InvoiceDownload, InvoiceError>)
    requires forall i, j :: 0 <= i < j < |billings| ==> billings[i].id != billings[j].id
    requires forall i, j :: 0 <= i < j < |patients| ==> patients[i].id != patients[j].id
    requires forall i :: 0 <= i < |billings| ==> HasPatient(patients, billings[i].patient)
    ensures r.Err? <==> forall i :: 0 <= i < |billings| ==> billings[i].id != billingId
    ensures r.Ok? ==> forall i :: 0 <= i < |billings| && billings[i].id == billingId ==> billings[i] == r.value.bill
    ensures r.Ok? ==> forall i :: 0 <= i < |patients| && patients[i].id == r.value.bill.patient ==> patients[i] == r.value.patient
    ensures r.Ok? ==>
      && r.value.bill in billings && r.value.bill.id == billingId
      && r.value.patient in patients && r.value.patient.id == r.value.bill.patient
      && r.value.doctorLabel == InvoiceDoctorLabel
      && r.value.filename == "Invoice_" + r.value.patient.name + ".pdf"
  {
    match FindBilling(billings, billingId)
    case None => Err(BillingNotFound)
    case Some(bill) =>
      assert exists i :: 0 <= i < |billings| && billings[i] == bill;
      match FindPatient(patients, bill.patient)
      case Some(patient) =>
        Ok(InvoiceDownload(bill, patient, InvoiceDoctorLabel, "Invoice_" + patient.name + ".pdf"))
  }
}
