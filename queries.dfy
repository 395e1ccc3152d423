/** The record-store lookups the views and the admin form rely on, written
    over in-memory tables: exact-match filters, exclusion by primary key and
    lookup by primary key. */
module Queries {
  import opened Wrappers
  import opened Models

  /** The appointments that occupy `slot`, leaving out the one whose primary
      key is `exclude` (none is left out when `exclude` is None). Status plays
      no part: a cancelled appointment still occupies its slot. */
  function SlotConflicts(appts: seq<Appointment>, slot: Slot, exclude: Option<AppointmentId>): (r: seq<Appointment>)
    ensures |r| <= |appts|
    ensures forall a :: a in r <==> a in appts && a.BookedSlot() == slot && Some(a.id) != exclude
  {
    if appts == [] then []
    else
      var rest := SlotConflicts(appts[1..], slot, exclude);
      if appts[0].BookedSlot() == slot && Some(appts[0].id) != exclude then [appts[0]] + rest else rest
  }

  /** The filtered table is non-empty exactly when some appointment at an
      index of the table occupies the slot and is not the excluded one. */
  lemma SlotConflictsNonEmpty(appts: seq<Appointment>, slot: Slot, exclude: Option<AppointmentId>)
    ensures |SlotConflicts(appts, slot, exclude)| > 0 <==>
      exists i :: 0 <= i < |appts| && appts[i].BookedSlot() == slot && Some(appts[i].id) != exclude
  {
    var r := SlotConflicts(appts, slot, exclude);
    if |r| > 0 {
      assert r[0] in r;
      var i :| 0 <= i < |appts| && appts[i] == r[0];
      assert appts[i].BookedSlot() == slot && Some(appts[i].id) != exclude;
    }
    if i :| 0 <= i < |appts| && appts[i].BookedSlot() == slot && Some(appts[i].id) != exclude {
      assert appts[i] in appts;
      assert appts[i] in r;
    }
  }

  /** Whether any appointment other than `exclude` occupies `slot`: the
      existence test run on the filtered table. */
  predicate SlotOccupied(appts: seq<Appointment>, slot: Slot, exclude: Option<AppointmentId>)
    ensures SlotOccupied(appts, slot, exclude) <==>
      exists i :: 0 <= i < |appts| && appts[i].BookedSlot() == slot && Some(appts[i].id) != exclude
  {
    SlotConflictsNonEmpty(appts, slot, exclude);
    |SlotConflicts(appts, slot, exclude)| > 0
  }

  /** An appointment just added occupies its slot for every later check that
      does not exclude it. */
  lemma AppendedSlotOccupied(appts: seq<Appointment>, a: Appointment, exclude: Option<AppointmentId>)
    requires Some(a.id) != exclude
    ensures SlotOccupied(appts + [a], a.BookedSlot(), exclude)
  {
  }

  /** The patients whose phone is `phone`, in table order. */
  function PatientsWithPhone(patients: seq<Patient>, phone: string): (r: seq<Patient>)
    ensures |r| <= |patients|
    ensures forall p :: p in r <==> p in patients && p.phone == phone
  {
    if patients == [] then []
    else
      var rest := PatientsWithPhone(patients[1..], phone);
      if patients[0].phone == phone then [patients[0]] + rest else rest
  }

  /** Filtering a table with one more patient filters the old table and then
      the new patient. */
  lemma {:induction false} PatientsWithPhoneAppend(patients: seq<Patient>, p: Patient, phone: string)
    ensures PatientsWithPhone(patients + [p], phone) ==
      PatientsWithPhone(patients, phone) + (if p.phone == phone then [p] else [])
  {
    if patients == [] {
      assert [] + [p] == [p];
    } else {
      assert (patients + [p])[1..] == patients[1..] + [p];
      PatientsWithPhoneAppend(patients[1..], p, phone);
    }
  }

  /** Whether some patient in the table has primary key `id`. */
  predicate HasPatient(patients: seq<Patient>, id: PatientId)
  {
    exists j :: 0 <= j < |patients| && patients[j].id == id
  }

  /** The patient with primary key `id`, if there is one. */
  function FindPatient(patients: seq<Patient>, id: PatientId): (r: Option<Patient>)
    ensures r.Some? ==> r.value in patients && r.value.id == id
    ensures r.None? <==> !HasPatient(patients, id)
  {
    if patients == [] then None
    else if patients[0].id == id then Some(patients[0])
    else
      var r := FindPatient(patients[1..], id);
      assert HasPatient(patients, id) ==> patients[0].id == id || HasPatient(patients[1..], id) by {
        if j :| 0 <= j < |patients| && patients[j].id == id {
          if j > 0 { assert patients[1..][j - 1] == patients[j]; }
        }
      }
      r
  }

  /** The bill with primary key `id`, if there is one. */
  function FindBilling(billings: seq<Billing>, id: BillingId): (r: Option<Billing>)
    ensures r.Some? ==> r.value in billings && r.value.id == id
    ensures r.None? <==> forall i :: 0 <= i < |billings| ==> billings[i].id != id
  {
    if billings == [] then None
    else if billings[0].id == id then Some(billings[0])
    else
      var r := FindBilling(billings[1..], id);
      assert forall i :: 1 <= i < |billings| ==> billings[i] == billings[1..][i - 1];
      r
  }
}
