# Clinic booking and billing, modelled in Dafny

This project models the core of a small dental-clinic web application. The
core has three parts:

- **Booking from the home page.** A patient submits name, phone, date, time,
  doctor and symptoms. The request is refused when any appointment already
  holds that (doctor, date, time) slot. Otherwise the patient is looked up by
  phone, or created, and a `PENDING` appointment is stored.
- **The admin appointment form.** It applies the same slot rule. It leaves out
  the appointment being edited, and it skips the check when doctor, date or
  time is missing.
- **Billing.** The balance of a bill is its total minus what was paid. Two
  admin displays, the "Balance Due" column and the status line of the bill
  message, are derived from that balance.

Modules, one per source concern:

- `Wrappers` (`wrappers.dfy`): `Option` and `Result`.
- `Models` (`models.dfy`, after `core/models.py`): the entities as datatypes.
  The status choice lists are datatypes with their stored codes. It holds the
  field defaults: `DefaultAge` (0), `DefaultAppointmentStatus` (`Pending`),
  `DefaultAmountPaid` (0) and `DefaultPaymentStatus` (stored as `"pending"`).
  It also holds the derived `PendingAmount` of a bill. Money is `int` cents.
- `Queries` (`queries.dfy`): the record-store lookups both pages use, written
  over in-memory tables (`seq`). These are the exact-match slot filter with
  exclusion by primary key, the patient filter by phone, and lookup by
  primary key.
- `Admin` (`admin.dfy`, after `core/admin.py`): the form-wide `Clean` check
  and the two balance displays.
- `Views` (`views.dfy`, after `core/views.py`): class `ClinicStore`, the record
  store. Its `Book` method runs the home page's POST branch step by step, and
  `GetOrCreatePatient` is the get-or-create by phone. `GenerateInvoice` is the
  lookup and file naming of the invoice download.

Behaviour of the code that the model keeps:

- A cancelled appointment keeps its slot. The check at `core/views.py:25`
  reads every appointment, whatever its status, so `NoDoubleBooking` is
  stated over all appointments.
- The home page's refusal names only the doctor and the time
  (`core/views.py:26`), so `SlotTaken` carries those two. The admin form's
  refusal names the doctor, the time and the date (`DoctorBooked`).
- Besides a taken slot, booking fails in two cases. One is an unknown doctor
  id (`core/views.py:21`, `DoctorNotFound`), checked before anything else.
  The other is several patients sharing the phone (`core/views.py:30`,
  `MultiplePatients`), because phone is not a unique field. Neither failure
  changes the store. While only `Book` creates patients, phones stay unique
  (`UniquePhones` is preserved).
- In the admin form, an appointment not yet saved has no primary key.
  Excluding "no key" excludes nothing, so the exclusion is an
  `Option<AppointmentId>`. `None` leaves out no appointment.

## Model

| member | source | states |
|---|---|---|
| `Models.ParseAppointmentStatus` | core/models.py:21-26 | only the four choice codes PENDING, CONFIRMED, COMPLETED, CANCELLED read back as a status, each as the status whose code it is |
| `Models.AppointmentStatus.Code` | core/models.py:21-26 | each appointment status has its own stored code: PENDING, CONFIRMED, COMPLETED or CANCELLED |
| `Models.PaymentStatus.Code` | core/models.py:39-43 | each payment status has its own stored code: paid, partial or pending (the one labelled Unpaid) |
| `Models.ParsePaymentStatus` | core/models.py:39-43 | only the three codes paid, partial, pending read back as a payment status, each as the status whose code it is |
| `Models.Billing.PendingAmount` | core/models.py:56-58 | paid plus pending is the total; the balance is zero exactly when paid equals total, and negative exactly when overpaid (no clamping) |
| `Models.NewBilling` | core/models.py:49-52 | a new bill keeps its given fields, has paid 0 and the payment status stored as "pending" |
| `Models.NewBillingOwesTotal` | core/models.py:50-58 | a new bill's balance is its whole total |
| `Queries.SlotConflicts` | core/admin.py:21-25 | the result holds exactly the appointments at the doctor, date and time, minus the excluded key, regardless of status |
| `Queries.SlotConflictsNonEmpty` | core/admin.py:27 | the filtered table is non-empty exactly when some stored appointment, other than the excluded one, holds the slot |
| `Queries.SlotOccupied` | core/views.py:25 | the existence test is true exactly when an appointment other than the excluded one holds the slot; both the booking page and the admin form decide on it |
| `Queries.AppendedSlotOccupied` | core/views.py:35-42 | an appointment just stored makes its slot occupied for any check that does not exclude it |
| `Queries.PatientsWithPhone` | core/views.py:30-31 | the result holds exactly the patients with the given phone |
| `Queries.PatientsWithPhoneAppend` | core/views.py:30-33 | after one patient is added, the phone filter gives the old matches followed by the new patient when its phone matches |
| `Queries.FindPatient` | core/views.py:56 | finds a patient with the key when one exists, and fails exactly when none does |
| `Queries.FindBilling` | core/views.py:51 | finds a bill with the key when one exists, and fails exactly when none does |
| `Admin.Clean` | core/admin.py:14-30 | fails exactly when doctor, date and time are all given and another appointment (not the edited one) holds that slot; the error names doctor, time and date; on success the data comes back unchanged |
| `Admin.CleanSkippedWithoutSlot` | core/admin.py:20 | with doctor, date or time missing, no error is raised and the data is returned as is |
| `Admin.CleanAcceptsOwnSlot` | core/admin.py:25 | an appointment whose slot is held only by itself passes when re-saved |
| `Admin.CleanCountsCancelled` | core/admin.py:21-28 | a cancelled appointment at the slot makes the form fail |
| `Admin.CleanMatchesBookingCheck` | core/admin.py:20-28 | for a new appointment the form fails exactly when the booking page's slot check fires |
| `Admin.BookedAppointmentAdminCheck` | core/admin.py:21-28 | after a booking into a free slot, re-saving that appointment passes and adding another one at the slot fails with the doctor, time and date |
| `Admin.GetPending` | core/admin.py:78-82 | shows Settled exactly when the balance is at most 0, and otherwise the positive balance |
| `Admin.InvoiceStatus` | core/admin.py:89-92 | shows Fully Paid exactly when the balance is at most 0, and otherwise Payment Pending with the positive balance |
| `Admin.PaidInFullShowsSettled` | core/admin.py:78-92 | a bill paid to the cent has balance 0 and shows Settled and Fully Paid |
| `Admin.BalanceDisplaysAgree` | core/admin.py:78-92 | the column and the bill message agree for every bill, with the same amount when money is owed |
| `Admin.OverpaidShowsSettled` | core/admin.py:78-92 | an overpaid bill has a negative balance and displays as settled and fully paid |
| `Admin.DisplaysIgnorePaymentStatus` | core/admin.py:78-92 | changing the stored payment status changes neither display |
| `Views.CreatePatientKeepsConsistent` | core/views.py:30-33 | storing a patient under the next key keeps keys distinct and every reference valid |
| `Views.AddAppointmentKeepsConsistent` | core/views.py:35-42 | storing an appointment under the next key, for a known doctor and an existing patient, keeps the store consistent |
| `Views.BookingFreeSlotKeepsNoDoubleBooking` | core/views.py:25-42 | appending to a slot nobody holds keeps every slot held at most once |
| `Views.NewPhoneKeepsUniquePhones` | core/views.py:30-33 | creating a patient only for an unknown phone keeps phones unique |
| `Views.ClinicStore.GetOrCreatePatient` | core/views.py:30-33 | the one patient with the phone is returned unchanged (no new record, name kept); with none, exactly one patient is created with that phone, the given name and age 0; with several, an error and no change |
| `Views.ClinicStore.Book` | core/views.py:13-45 | unknown doctor fails first; an occupied slot (any status) fails with the doctor's name and time; every failure leaves the store unchanged; success appends exactly one PENDING appointment with the request's patient, doctor, date, time and symptoms; double booking and phone clashes are never introduced |
| `Views.BookSameSlotTwice` | core/views.py:25-42 | after a successful booking, a second request for the same slot is refused, whatever its name, phone or symptoms |
| `Views.BookSamePhoneTwice` | core/views.py:30-33 | two successful bookings from one phone share a single patient record, and a patient created by the first keeps the first request's name |
| `Views.BookingExample` | core/views.py:21-45 | on an empty store with one doctor, the first booking creates the patient and a pending appointment, and the identical request then fails naming the doctor and 10:00 |
| `Views.GenerateInvoice` | core/views.py:49-68 | fails exactly when no bill has the key; otherwise returns the one bill with that key, its patient, the fixed doctor label and the file name "Invoice_" + patient name + ".pdf" |

## Left out

- Framework machinery is not modelled: the ORM, request parsing, templates,
  flash messages and redirects. The tables are in-memory sequences, and a
  page's outcome is a result datatype.
- Missing or malformed POST fields on the booking page are not modelled. For
  example, a doctor id that is not a number is outside the model: the request
  is taken to carry all six fields.
- Dates and times are compared as given. Parsing them and normalising their
  text (for example "10:00" against "10:00:00") is not modelled.
- The PDF rendering of the invoice is not modelled, and neither is its
  fallback error page. They are calls into a foreign library.
- WhatsApp link building, URL quoting and HTML markup in the admin are not
  modelled. They are text encoding and display.
- The other parts of the bill message and the Content-Disposition header text
  are not modelled. Only the status line and the file name are kept.
- Admin registration, list columns and widgets are not modelled. They are UI
  configuration.
- URL routing is not modelled. It holds no logic.
- Concurrent requests are not modelled. Two bookings that both pass the slot
  check before either stores its appointment cannot happen in this model:
  bookings run one at a time.
- Cascading deletes are not modelled, and neither are the admin's own create
  and edit on the tables. The store starts from any consistent snapshot given
  to its constructor.
- The doctor photo, the `__str__` texts and the bill's creation date are not
  modelled. They are display values or framework-supplied.
- The ten-digit limit of the decimal amounts is not modelled. Amounts are
  unbounded integers of cents.
- `Views.GenerateInvoice` takes as given that primary keys are distinct and
  that every bill's patient exists. These are the database's key and
  foreign-key guarantees, which `ClinicStore.Valid` also maintains.
