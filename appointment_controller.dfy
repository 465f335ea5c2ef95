/**
 * The appointment handlers: booking, the caller's own list, cancellation by
 * the patient, status updates by the doctor, and the administrator's list.
 * Every refusal leaves the collection as it was.
 */
module AppointmentController {
  import opened Wrappers
  import opened Ids
  import opened Collections
  import opened AppointmentModel
  import opened Http
  import UserModel

  const DoctorNotFound: string := "Doctor not found"
  const SlotBooked: string := "Appointment time slot is already booked."
  const AppointmentNotFound: string := "Appointment not found"
  const NotAuthorized: string := "User not authorized"
  const NotCancellable: string := "Cannot cancel a confirmed or completed appointment"
  const Cancelled: string := "Appointment cancelled successfully"
  const InvalidStatus: string := "Invalid status"
  const NoAppointmentsForRole: string := "No appointments found for this role."

  // ---- createAppointment

  /** The request body of a booking. */
  datatype BookingBody = BookingBody(doctor: IdArg, date: Option<int>, reason: Option<string>)

  /** The referenced user exists and is a doctor. */
  predicate IsDoctor(users: seq<UserModel.User>, id: Id)
  {
    UserModel.FindById(users, id).Some? && UserModel.FindById(users, id).value.role == UserModel.DOCTOR
  }

  /** The appointment the handler constructs: the caller is the patient. */
  function BookingDraft(caller: UserModel.SafeUser, b: BookingBody): (d: Draft)
    requires b.doctor.Given?
    ensures d.patient == caller.id && d.doctor == b.doctor.id && d.date == b.date && d.reason == b.reason
  {
    Draft(caller.id, b.doctor.id, b.date, b.reason)
  }

  /**
   * The refusal `createAppointment` answers with, or `None` when it inserts.
   * An absent doctor id looks up nothing (404); a malformed one makes the
   * lookup throw (500); a schema violation is not told apart from other
   * failures (500); only the duplicate-key error gets its own 400.
   */
  function BookingRejection(users: seq<UserModel.User>, rows: seq<Appointment>, caller: UserModel.SafeUser, b: BookingBody): (r: Option<Response>)
    ensures b.doctor.Malformed? ==> r == Some(Response(500, Text(ServerErrorText)))
    ensures b.doctor.Absent? || (b.doctor.Given? && !IsDoctor(users, b.doctor.id)) ==>
              r == Some(Response(404, Msg(DoctorNotFound)))
    ensures b.doctor.Given? && IsDoctor(users, b.doctor.id) && DraftErrors(BookingDraft(caller, b)) != [] ==>
              r == Some(Response(500, Text(ServerErrorText)))
    ensures b.doctor.Given? && IsDoctor(users, b.doctor.id) && DraftErrors(BookingDraft(caller, b)) == [] &&
            (PatientBusy(rows, caller.id, b.date.value) || DoctorBusy(rows, b.doctor.id, b.date.value)) ==>
              r == Some(Response(400, Msg(SlotBooked)))
    ensures b.doctor.Given? && IsDoctor(users, b.doctor.id) && DraftErrors(BookingDraft(caller, b)) == [] &&
            !PatientBusy(rows, caller.id, b.date.value) && !DoctorBusy(rows, b.doctor.id, b.date.value) ==>
              r.None?
  {
    match b.doctor
    case Malformed => Some(Response(500, Text(ServerErrorText)))
    case Absent => Some(Response(404, Msg(DoctorNotFound)))
    case Given(doctor) =>
      if !IsDoctor(users, doctor) then Some(Response(404, Msg(DoctorNotFound)))
      else if DraftErrors(BookingDraft(caller, b)) != [] then Some(Response(500, Text(ServerErrorText)))
      else if PatientBusy(rows, caller.id, b.date.value) || DoctorBusy(rows, doctor, b.date.value) then
        Some(Response(400, Msg(SlotBooked)))
      else None
  }

  /** `createAppointment`: on success exactly one PENDING appointment of the caller's is added. */
  method CreateAppointment(users: seq<UserModel.User>, store: Appointments, caller: UserModel.SafeUser, b: BookingBody)
    returns (resp: Response)
    requires store.Valid()
    modifies store
    ensures store.Valid()
    ensures BookingRejection(users, old(store.rows), caller, b).Some? ==>
              resp == BookingRejection(users, old(store.rows), caller, b).value && unchanged(store)
    ensures BookingRejection(users, old(store.rows), caller, b).None? ==>
              && b.doctor.Given? && DraftErrors(BookingDraft(caller, b)) == []
              && var a := Build(BookingDraft(caller, b), old(store.nextId));
              && a.patient == caller.id && a.doctor == b.doctor.id && a.status == PENDING
              && store.rows == old(store.rows) + [a]
              && resp == Response(201, OneAppointment(a))
  {
    if b.doctor.Malformed? {
      return Response(500, Text(ServerErrorText));
    }
    if b.doctor.Absent? || !IsDoctor(users, b.doctor.id) {
      return Response(404, Msg(DoctorNotFound));
    }
    var saved := store.Save(BookingDraft(caller, b));
    match saved
    case Invalid(_) =>
      resp := Response(500, Text(ServerErrorText));
    case DuplicateKey =>
      resp := Response(400, Msg(SlotBooked));
    case Saved(a) =>
      resp := Response(201, OneAppointment(a));
  }

  // ---- getMyAppointments and getAllAppointments

  function Date(a: Appointment): int
  {
    a.date
  }

  /** The appointments a caller of the given role reads as "mine". */
  predicate Mine(caller: UserModel.SafeUser, a: Appointment)
  {
    if caller.role == UserModel.PATIENT then a.patient == caller.id
    else caller.role == UserModel.DOCTOR && a.doctor == caller.id
  }

  /** A patient sees each appointment with the doctor populated (name, specialty). */
  function PatientViews(users: seq<UserModel.User>, s: seq<Appointment>): (r: seq<AppointmentView>)
    ensures |r| == |s|
    ensures forall i :: 0 <= i < |s| ==>
      r[i] == AppointmentView(s[i], UserModel.Ref(s[i].patient), UserModel.NameSpecialtyOf(users, s[i].doctor))
  {
    seq(|s|, i requires 0 <= i < |s| =>
      AppointmentView(s[i], UserModel.Ref(s[i].patient), UserModel.NameSpecialtyOf(users, s[i].doctor)))
  }

  /** A doctor sees each appointment with the patient populated (name, email). */
  function DoctorViews(users: seq<UserModel.User>, s: seq<Appointment>): (r: seq<AppointmentView>)
    ensures |r| == |s|
    ensures forall i :: 0 <= i < |s| ==>
      r[i] == AppointmentView(s[i], UserModel.NameEmailOf(users, s[i].patient), UserModel.Ref(s[i].doctor))
  {
    seq(|s|, i requires 0 <= i < |s| =>
      AppointmentView(s[i], UserModel.NameEmailOf(users, s[i].patient), UserModel.Ref(s[i].doctor)))
  }

  /** The administrator sees both parties populated. */
  function FullViews(users: seq<UserModel.User>, s: seq<Appointment>): (r: seq<AppointmentView>)
    ensures |r| == |s|
    ensures forall i :: 0 <= i < |s| ==>
      r[i] == AppointmentView(s[i], UserModel.NameEmailOf(users, s[i].patient), UserModel.NameSpecialtyOf(users, s[i].doctor))
  {
    seq(|s|, i requires 0 <= i < |s| =>
      AppointmentView(s[i], UserModel.NameEmailOf(users, s[i].patient), UserModel.NameSpecialtyOf(users, s[i].doctor)))
  }

  /** The caller's appointments, latest date first. */
  function MineSorted(rows: seq<Appointment>, caller: UserModel.SafeUser): (r: seq<Appointment>)
    ensures SortedDesc(r, Date)
    ensures forall x {:trigger multiset(r)[x]} :: multiset(r)[x] == if Mine(caller, x) then multiset(rows)[x] else 0
    ensures forall i :: 0 <= i < |r| ==> Mine(caller, r[i])
  {
    var mine := Filter(rows, (a: Appointment) => Mine(caller, a));
    var r := SortDesc(mine, Date);
    assert forall i :: 0 <= i < |r| ==> r[i] in multiset(mine);
    r
  }

  /**
   * `getMyAppointments`: exactly the caller's appointments (as patient or as
   * doctor, by role), latest date first, the other party populated.
   */
  function MyAppointments(users: seq<UserModel.User>, rows: seq<Appointment>, caller: UserModel.SafeUser): (r: Response)
    ensures caller.role == UserModel.ADMIN ==> r == Response(400, Msg(NoAppointmentsForRole))
    ensures caller.role != UserModel.ADMIN ==> r.status == 200 && r.body.AppointmentList?
    ensures r.body.AppointmentList? ==>
      && SortedDesc(Records(r.body.appts), Date)
      && (forall x {:trigger multiset(Records(r.body.appts))[x]} ::
            multiset(Records(r.body.appts))[x] == if Mine(caller, x) then multiset(rows)[x] else 0)
    ensures caller.role == UserModel.PATIENT ==> forall i :: 0 <= i < |r.body.appts| ==>
      && r.body.appts[i].appt.patient == caller.id
      && r.body.appts[i].doctor == UserModel.NameSpecialtyOf(users, r.body.appts[i].appt.doctor)
    ensures caller.role == UserModel.DOCTOR ==> forall i :: 0 <= i < |r.body.appts| ==>
      && r.body.appts[i].appt.doctor == caller.id
      && r.body.appts[i].patient == UserModel.NameEmailOf(users, r.body.appts[i].appt.patient)
  {
    if caller.role == UserModel.ADMIN then Response(400, Msg(NoAppointmentsForRole))
    else
      var mine := MineSorted(rows, caller);
      var views := if caller.role == UserModel.PATIENT then PatientViews(users, mine) else DoctorViews(users, mine);
      assert Records(views) == mine;
      Response(200, AppointmentList(views))
  }

  /** `getAllAppointments`: every appointment, latest date first, both parties populated. */
  function AllAppointments(users: seq<UserModel.User>, rows: seq<Appointment>): (r: Response)
    ensures r.status == 200 && r.body.AppointmentList?
    ensures SortedDesc(Records(r.body.appts), Date)
    ensures multiset(Records(r.body.appts)) == multiset(rows)
    ensures forall i :: 0 <= i < |r.body.appts| ==>
      && r.body.appts[i].patient == UserModel.NameEmailOf(users, r.body.appts[i].appt.patient)
      && r.body.appts[i].doctor == UserModel.NameSpecialtyOf(users, r.body.appts[i].appt.doctor)
  {
    var sorted := SortDesc(rows, Date);
    var views := FullViews(users, sorted);
    assert Records(views) == sorted;
    Response(200, AppointmentList(views))
  }

  // ---- cancelAppointment

  /**
   * The refusal `cancelAppointment` answers with, or `None` when it removes
   * the appointment. The checks run in this order: lookup (a malformed id
   * throws), ownership, status.
   */
  function CancelRejection(rows: seq<Appointment>, caller: UserModel.SafeUser, param: string): (r: Option<Response>)
    ensures ParseId(param).Malformed? ==> r == Some(Response(500, Text(ServerErrorText)))
    ensures ParseId(param).Given? && IndexOf(rows, ParseId(param).id).None? ==>
              r == Some(Response(404, Msg(AppointmentNotFound)))
    ensures ParseId(param).Given? && IndexOf(rows, ParseId(param).id).Some? ==>
              var a := rows[IndexOf(rows, ParseId(param).id).value];
              && (a.patient != caller.id ==> r == Some(Response(401, Msg(NotAuthorized))))
              && (a.patient == caller.id && a.status != PENDING ==> r == Some(Response(400, Msg(NotCancellable))))
              && (r.None? <==> a.patient == caller.id && a.status == PENDING)
  {
    if ParseId(param).Malformed? then Some(Response(500, Text(ServerErrorText)))
    else
      match IndexOf(rows, ParseId(param).id)
      case None => Some(Response(404, Msg(AppointmentNotFound)))
      case Some(k) =>
        if rows[k].patient != caller.id then Some(Response(401, Msg(NotAuthorized)))
        else if rows[k].status != PENDING then Some(Response(400, Msg(NotCancellable)))
        else None
  }

  /** `cancelAppointment`: removes exactly the named appointment and nothing else. */
  method CancelAppointment(store: Appointments, caller: UserModel.SafeUser, param: string) returns (resp: Response)
    requires store.Valid()
    modifies store
    ensures store.Valid()
    ensures CancelRejection(old(store.rows), caller, param).Some? ==>
              resp == CancelRejection(old(store.rows), caller, param).value && unchanged(store)
    ensures CancelRejection(old(store.rows), caller, param).None? ==>
              && ParseId(param).Given? && IndexOf(old(store.rows), ParseId(param).id).Some?
              && store.rows == RemoveAt(old(store.rows), IndexOf(old(store.rows), ParseId(param).id).value)
              && resp == Response(200, Msg(Cancelled))
  {
    var rejection := CancelRejection(store.rows, caller, param);
    if rejection.Some? {
      return rejection.value;
    }
    var k := IndexOf(store.rows, ParseId(param).id).value;
    store.Delete(k);
    resp := Response(200, Msg(Cancelled));
  }

  // ---- updateAppointmentStatus

  /** The statuses a doctor may set; PENDING and anything else are refused. */
  function AllowedStatus(s: Option<string>): (r: Option<Status>)
    ensures r.Some? <==> s.Some? && ParseStatus(s.value).Some? && ParseStatus(s.value).value != PENDING
    ensures r.Some? ==> s == Some(StatusName(r.value)) && r.value != PENDING
  {
    if s.Some? && ParseStatus(s.value).Some? && ParseStatus(s.value).value != PENDING then ParseStatus(s.value)
    else None
  }

  /**
   * The refusal `updateAppointmentStatus` answers with, or `None` when it
   * updates. The status test comes before any lookup; the current status is
   * never consulted.
   */
  function StatusRejection(rows: seq<Appointment>, caller: UserModel.SafeUser, param: string, status: Option<string>): (r: Option<Response>)
    ensures AllowedStatus(status).None? ==> r == Some(Response(400, Msg(InvalidStatus)))
    ensures AllowedStatus(status).Some? && ParseId(param).Malformed? ==> r == Some(Response(500, Text(ServerErrorText)))
    ensures AllowedStatus(status).Some? && ParseId(param).Given? && IndexOf(rows, ParseId(param).id).None? ==>
              r == Some(Response(404, Msg(AppointmentNotFound)))
    ensures r.None? <==>
              && AllowedStatus(status).Some? && ParseId(param).Given? && IndexOf(rows, ParseId(param).id).Some?
              && rows[IndexOf(rows, ParseId(param).id).value].doctor == caller.id
    ensures AllowedStatus(status).Some? && ParseId(param).Given? && IndexOf(rows, ParseId(param).id).Some? &&
            rows[IndexOf(rows, ParseId(param).id).value].doctor != caller.id ==>
              r == Some(Response(401, Msg(NotAuthorized)))
  {
    if AllowedStatus(status).None? then Some(Response(400, Msg(InvalidStatus)))
    else if ParseId(param).Malformed? then Some(Response(500, Text(ServerErrorText)))
    else
      match IndexOf(rows, ParseId(param).id)
      case None => Some(Response(404, Msg(AppointmentNotFound)))
      case Some(k) =>
        if rows[k].doctor != caller.id then Some(Response(401, Msg(NotAuthorized)))
        else None
  }

  /** `updateAppointmentStatus`: overwrites the status of exactly the named appointment. */
  method UpdateAppointmentStatus(store: Appointments, caller: UserModel.SafeUser, param: string, status: Option<string>)
    returns (resp: Response)
    requires store.Valid()
    modifies store
    ensures store.Valid()
    ensures StatusRejection(old(store.rows), caller, param, status).Some? ==>
              resp == StatusRejection(old(store.rows), caller, param, status).value && unchanged(store)
    ensures StatusRejection(old(store.rows), caller, param, status).None? ==>
              && ParseId(param).Given? && IndexOf(old(store.rows), ParseId(param).id).Some?
              && var k := IndexOf(old(store.rows), ParseId(param).id).value;
              && store.rows == old(store.rows)[k := old(store.rows)[k].(status := AllowedStatus(status).value)]
              && resp == Response(200, OneAppointment(store.rows[k]))
  {
    var rejection := StatusRejection(store.rows, caller, param, status);
    if rejection.Some? {
      return rejection.value;
    }
    var k := IndexOf(store.rows, ParseId(param).id).value;
    store.SetStatus(k, AllowedStatus(status).value);
    resp := Response(200, OneAppointment(store.rows[k]));
  }

  /** Positions are decided by ids alone, so a status change does not move any lookup. */
  lemma IndexOfIgnoresStatus(rows: seq<Appointment>, k: nat, st: Status, id: Id)
    requires k < |rows|
    ensures IndexOf(rows[k := rows[k].(status := st)], id) == IndexOf(rows, id)
  {
    var t := rows[k := rows[k].(status := st)];
    assert forall i :: 0 <= i < |rows| ==> t[i].id == rows[i].id;
  }

  /**
   * Whether an update is accepted does not depend on the appointment's
   * current status: a completed appointment can be set back to CONFIRMED.
   */
  lemma StatusRejectionIgnoresCurrentStatus(rows: seq<Appointment>, k: nat, st: Status, caller: UserModel.SafeUser, param: string, status: Option<string>)
    requires k < |rows|
    ensures StatusRejection(rows[k := rows[k].(status := st)], caller, param, status) == StatusRejection(rows, caller, param, status)
  {
    var id := ParseId(param);
    if id.Given? {
      IndexOfIgnoresStatus(rows, k, st, id.id);
    }
  }
}
