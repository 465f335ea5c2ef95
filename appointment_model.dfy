/**
 * The Appointment schema (required references, date and reason, the limit
 * of 500 UTF-16 code units on the reason, the status enum defaulting to PENDING), the two
 * unique indexes on (patient, date) and (doctor, date), and the collection.
 */
module AppointmentModel {
  import opened Wrappers
  import opened Ids
  import opened Collections
  import opened Validation
  import Text
  import UserModel

  datatype Status = PENDING | CONFIRMED | COMPLETED | CANCELLED

  function StatusName(s: Status): string
  {
    match s
    case PENDING => "PENDING"
    case CONFIRMED => "CONFIRMED"
    case COMPLETED => "COMPLETED"
    case CANCELLED => "CANCELLED"
  }

  function ParseStatus(s: string): (r: Option<Status>)
    ensures forall x :: r == Some(x) <==> s == StatusName(x)
  {
    if s == "PENDING" then Some(PENDING)
    else if s == "CONFIRMED" then Some(CONFIRMED)
    else if s == "COMPLETED" then Some(COMPLETED)
    else if s == "CANCELLED" then Some(CANCELLED)
    else None
  }

  const MaxReasonLength: nat := 500

  /** A stored appointment; `date` is a timestamp. */
  datatype Appointment = Appointment(
    id: Id,
    patient: Id,
    doctor: Id,
    date: int,
    reason: string,
    status: Status)

  predicate ValidAppointment(a: Appointment)
  {
    a.reason != "" && Text.JsLength(a.reason) <= MaxReasonLength
  }

  /** What a new appointment is built from; `None` is a missing (or uncastable) value. */
  datatype Draft = Draft(patient: Id, doctor: Id, date: Option<int>, reason: Option<string>)

  predicate Fails(d: Draft, p: Path)
  {
    match p
    case DatePath => d.date.None?
    case ReasonPath => !(UserModel.Present(d.reason) && Text.JsLength(d.reason.value) <= MaxReasonLength)
    case _ => false
  }

  /** The paths that fail validation, in schema order. */
  function DraftErrors(d: Draft): (errs: seq<Path>)
    ensures forall p :: p in errs <==> Fails(d, p)
    ensures errs == [] <==> !Fails(d, DatePath) && !Fails(d, ReasonPath)
  {
    (if Fails(d, DatePath) then [DatePath] else [])
    + (if Fails(d, ReasonPath) then [ReasonPath] else [])
  }

  /** The limit counts UTF-16 code units: 300 emoji are 600 units, too long a reason. */
  lemma AstralReasonTooLong(d: Draft)
    requires d.reason.Some? && |d.reason.value| == 300
    requires forall i :: 0 <= i < |d.reason.value| ==> d.reason.value[i] as int >= 0x1_0000
    ensures ReasonPath in DraftErrors(d)
  {
    Text.JsLengthAstral(d.reason.value);
  }

  /** The record a valid draft becomes: status takes its default. */
  function Build(d: Draft, id: Id): (a: Appointment)
    requires DraftErrors(d) == []
    ensures ValidAppointment(a)
    ensures a.id == id && a.patient == d.patient && a.doctor == d.doctor
    ensures a.date == d.date.value && a.reason == d.reason.value
    ensures a.status == PENDING
  {
    Appointment(id, d.patient, d.doctor, d.date.value, d.reason.value, PENDING)
  }

  // ---- the unique indexes

  /** Some stored appointment already holds (patient, date). */
  predicate PatientBusy(rows: seq<Appointment>, patient: Id, date: int)
  {
    exists i :: 0 <= i < |rows| && rows[i].patient == patient && rows[i].date == date
  }

  /** Some stored appointment already holds (doctor, date). */
  predicate DoctorBusy(rows: seq<Appointment>, doctor: Id, date: int)
  {
    exists i :: 0 <= i < |rows| && rows[i].doctor == doctor && rows[i].date == date
  }

  /** Neither party holds two appointments at the same instant. */
  predicate NoDoubleBooking(rows: seq<Appointment>)
  {
    forall i, j :: 0 <= i < j < |rows| ==>
      && !(rows[i].patient == rows[j].patient && rows[i].date == rows[j].date)
      && !(rows[i].doctor == rows[j].doctor && rows[i].date == rows[j].date)
  }

  predicate TableOk(rows: seq<Appointment>, nextId: nat)
  {
    && (forall i :: 0 <= i < |rows| ==> rows[i].id < nextId && ValidAppointment(rows[i]))
    && (forall i, j :: 0 <= i < j < |rows| ==> rows[i].id != rows[j].id)
    && NoDoubleBooking(rows)
  }

  /** Adding an appointment whose slots are free keeps the indexes unique. */
  lemma InsertKeepsNoDoubleBooking(rows: seq<Appointment>, a: Appointment)
    requires NoDoubleBooking(rows)
    requires !PatientBusy(rows, a.patient, a.date) && !DoctorBusy(rows, a.doctor, a.date)
    ensures NoDoubleBooking(rows + [a])
  {
    var r := rows + [a];
    forall i, j | 0 <= i < j < |r|
      ensures !(r[i].patient == r[j].patient && r[i].date == r[j].date)
      ensures !(r[i].doctor == r[j].doctor && r[i].date == r[j].date)
    {
      if j == |rows| {
        assert r[i] == rows[i] && r[j] == a;
      }
    }
  }

  /** Removing an appointment keeps the indexes unique. */
  lemma RemoveKeepsNoDoubleBooking(rows: seq<Appointment>, k: nat)
    requires k < |rows| && NoDoubleBooking(rows)
    ensures NoDoubleBooking(RemoveAt(rows, k))
  {
    var r := RemoveAt(rows, k);
    forall i, j | 0 <= i < j < |r|
      ensures !(r[i].patient == r[j].patient && r[i].date == r[j].date)
      ensures !(r[i].doctor == r[j].doctor && r[i].date == r[j].date)
    {
      var i', j' := if i < k then i else i + 1, if j < k then j else j + 1;
      assert r[i] == rows[i'] && r[j] == rows[j'] && i' < j';
    }
  }

  /** Changing a status leaves parties and dates, hence the indexes, alone. */
  lemma SetStatusKeepsNoDoubleBooking(rows: seq<Appointment>, k: nat, st: Status)
    requires k < |rows| && NoDoubleBooking(rows)
    ensures NoDoubleBooking(rows[k := rows[k].(status := st)])
  {
    var r := rows[k := rows[k].(status := st)];
    assert forall i :: 0 <= i < |r| ==>
      r[i].patient == rows[i].patient && r[i].doctor == rows[i].doctor && r[i].date == rows[i].date;
  }

  // ---- lookups and read projections

  /** `Appointment.findById(id)`, as the position of the record. */
  function IndexOf(rows: seq<Appointment>, id: Id): (r: Option<nat>)
    ensures r.Some? ==> r.value < |rows| && rows[r.value].id == id
    ensures r.None? <==> forall i :: 0 <= i < |rows| ==> rows[i].id != id
  {
    FirstIndex(rows, (a: Appointment) => a.id == id)
  }

  /** An appointment as a read returns it, with its two references left bare or populated. */
  datatype AppointmentView = AppointmentView(appt: Appointment, patient: UserModel.Party, doctor: UserModel.Party)

  function Records(items: seq<AppointmentView>): (r: seq<Appointment>)
    ensures |r| == |items| && forall i :: 0 <= i < |r| ==> r[i] == items[i].appt
  {
    seq(|items|, i requires 0 <= i < |items| => items[i].appt)
  }

  // ---- the collection

  datatype SaveResult = Saved(record: Appointment) | Invalid(paths: seq<Path>) | DuplicateKey

  class Appointments {
    var rows: seq<Appointment>
    var nextId: nat

    ghost predicate Valid()
      reads this
    {
      TableOk(rows, nextId)
    }

    constructor ()
      ensures Valid() && rows == []
    {
      rows := [];
      nextId := 0;
    }

    /** `new Appointment(draft).save()`: validation first, then the insert under both unique indexes (error 11000). */
    method Save(d: Draft) returns (r: SaveResult)
      requires Valid()
      modifies this
      ensures Valid()
      ensures DraftErrors(d) != [] ==> r == Invalid(DraftErrors(d)) && unchanged(this)
      ensures DraftErrors(d) == [] &&
              (PatientBusy(old(rows), d.patient, d.date.value) || DoctorBusy(old(rows), d.doctor, d.date.value)) ==>
                r == DuplicateKey && unchanged(this)
      ensures DraftErrors(d) == [] &&
              !PatientBusy(old(rows), d.patient, d.date.value) && !DoctorBusy(old(rows), d.doctor, d.date.value) ==>
                && r == Saved(Build(d, old(nextId)))
                && rows == old(rows) + [r.record]
                && nextId == old(nextId) + 1
    {
      var errs := DraftErrors(d);
      if errs != [] {
        return Invalid(errs);
      }
      if PatientBusy(rows, d.patient, d.date.value) || DoctorBusy(rows, d.doctor, d.date.value) {
        return DuplicateKey;
      }
      var a := Build(d, nextId);
      InsertKeepsNoDoubleBooking(rows, a);
      rows := rows + [a];
      nextId := nextId + 1;
      r := Saved(a);
    }

    /** `appointment.remove()` on the record at position `k`. */
    method Delete(k: nat)
      requires Valid() && k < |rows|
      modifies this
      ensures Valid()
      ensures rows == RemoveAt(old(rows), k) && nextId == old(nextId)
    {
      RemoveKeepsNoDoubleBooking(rows, k);
      rows := RemoveAt(rows, k);
    }

    /** `appointment.status = st; appointment.save()` on the record at position `k`. */
    method SetStatus(k: nat, st: Status)
      requires Valid() && k < |rows|
      modifies this
      ensures Valid()
      ensures rows == old(rows)[k := old(rows)[k].(status := st)] && nextId == old(nextId)
    {
      SetStatusKeepsNoDoubleBooking(rows, k, st);
      rows := rows[k := rows[k].(status := st)];
    }
  }
}
