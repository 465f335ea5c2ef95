/**
 * The route tables of the users, appointments and documents routers and
 * the decision a request gets: which route it matches, then its middleware
 * (`protect`, `authorize(...)`, the upload step) run in order, then its handler.
 */
module Routes {
  import opened Wrappers
  import opened Ids
  import opened UserModel
  import opened Http
  import opened AuthMiddleware
  import AppointmentModel
  import AppointmentController
  import Decimal

  datatype Verb = GET | POST | PUT | DELETE

  /** A path segment of a route: a literal, or a named parameter (`:id`). */
  datatype Segment = Lit(text: string) | Param(name: string)

  datatype Handler =
    | CreateAppointment | MyAppointments | CancelAppointment | UpdateAppointmentStatus | AllAppointments
    | MyDocuments | UploadDocument | DocumentsForPatient | AllDocuments | DeleteDocument
    | Doctors | AllUsers | CreateUser

  datatype Step = Protect | Authorize(roles: seq<Role>) | Upload

  /** `router.<verb>(path, ...middleware, handler)`. */
  datatype Route = Route(verb: Verb, path: seq<Segment>, middleware: seq<Step>, handler: Handler)

  /** `routes/appointments.js`, in declaration order. */
  const AppointmentRoutes: seq<Route> := [
    Route(POST, [], [Protect, Authorize([PATIENT])], CreateAppointment),
    Route(GET, [Lit("my")], [Protect], MyAppointments),
    Route(DELETE, [Param("id")], [Protect], CancelAppointment),
    Route(PUT, [Param("id"), Lit("status")], [Protect, Authorize([DOCTOR])], UpdateAppointmentStatus),
    Route(GET, [Lit("all")], [Protect, Authorize([ADMIN])], AllAppointments)
  ]

  /** `routes/documents.js`, in declaration order. */
  const DocumentRoutes: seq<Route> := [
    Route(GET, [Lit("my")], [Protect, Authorize([PATIENT])], MyDocuments),
    Route(POST, [], [Protect, Authorize([DOCTOR]), Upload], UploadDocument),
    Route(GET, [Lit("patient"), Param("patientId")], [Protect, Authorize([DOCTOR])], DocumentsForPatient),
    Route(GET, [Lit("all")], [Protect, Authorize([ADMIN])], AllDocuments),
    Route(DELETE, [Param("id")], [Protect, Authorize([ADMIN])], DeleteDocument)
  ]

  /** `routes/users.js`, in declaration order. */
  const UserRoutes: seq<Route> := [
    Route(GET, [Lit("doctors")], [Protect], Doctors),
    Route(GET, [], [Protect, Authorize([ADMIN])], AllUsers),
    Route(POST, [], [Protect, Authorize([ADMIN])], CreateUser)
  ]

  /** The routers mounted under `/api/<mount>`. */
  function TableFor(mount: string): Option<seq<Route>>
  {
    if mount == "users" then Some(UserRoutes)
    else if mount == "appointments" then Some(AppointmentRoutes)
    else if mount == "documents" then Some(DocumentRoutes)
    else None
  }

  // ---- matching

  predicate SegmentMatches(p: Segment, s: string)
  {
    match p
    case Lit(t) => s == t
    case Param(_) => s != ""
  }

  /** The parameters a route path binds, if it matches the request segments. */
  function Match(path: seq<Segment>, segs: seq<string>): (r: Option<map<string, string>>)
    ensures r.Some? <==> |path| == |segs| && forall i :: 0 <= i < |path| ==> SegmentMatches(path[i], segs[i])
  {
    if path == [] then (if segs == [] then Some(map[]) else None)
    else if segs == [] || !SegmentMatches(path[0], segs[0]) then None
    else
      match Match(path[1..], segs[1..])
      case None => None
      case Some(m) => Some(if path[0].Param? then m[path[0].name := segs[0]] else m)
  }

  predicate Takes(rt: Route, verb: Verb, segs: seq<string>)
  {
    rt.verb == verb && Match(rt.path, segs).Some?
  }

  /** The first route of the table that takes the verb and the path (Express tries them in order). */
  function Lookup(table: seq<Route>, verb: Verb, segs: seq<string>): (r: Option<Route>)
    ensures r.Some? ==> r.value in table && Takes(r.value, verb, segs)
    ensures r.None? <==> forall i :: 0 <= i < |table| ==> !Takes(table[i], verb, segs)
  {
    if table == [] then None
    else if Takes(table[0], verb, segs) then Some(table[0])
    else
      var rest := Lookup(table[1..], verb, segs);
      assert forall i :: 1 <= i < |table| ==> table[i] == table[1..][i - 1];
      rest
  }

  // ---- running the middleware

  /** What becomes of a request. */
  datatype Decision =
    | NotFound
    | Reject(response: Response)
    /** `authorize` ran with no user attached: reading its role throws. */
    | Fault
    | Invoke(handler: Handler, caller: Option<SafeUser>, params: map<string, string>, uploaded: bool)

  /** Either every middleware called `next`, or one of them ended the request. */
  datatype Passage = Pass(caller: Option<SafeUser>, uploaded: bool) | Stop(decision: Decision)

  /**
   * Runs the middleware in order; each one either answers or passes on to
   * the next. `auth` is what `protect` decides for the request's header.
   */
  function Run(steps: seq<Step>, auth: Outcome, caller: Option<SafeUser>, uploaded: bool): (p: Passage)
    ensures p.Stop? ==> p.decision.Reject? || p.decision.Fault?
  {
    if steps == [] then Pass(caller, uploaded)
    else
      match steps[0]
      case Protect =>
        (match auth
         case Denied(resp) => Stop(Reject(resp))
         case Authenticated(u) => Run(steps[1..], auth, Some(u), uploaded))
      case Authorize(roles) =>
        if caller.None? then Stop(Fault)
        else
          (match AuthMiddleware.Authorize(roles, caller.value)
           case Some(resp) => Stop(Reject(resp))
           case None => Run(steps[1..], auth, caller, uploaded))
      case Upload => Run(steps[1..], auth, caller, true)
  }

  /** A matched route: its middleware, then its handler if every middleware passed. */
  function Finish(rt: Route, params: map<string, string>, auth: Outcome): (d: Decision)
    ensures d.Invoke? <==> Run(rt.middleware, auth, None, false).Pass?
    ensures d.Invoke? ==> d.handler == rt.handler && d.params == params
    ensures !d.Invoke? ==> d.Reject? || d.Fault?
  {
    match Run(rt.middleware, auth, None, false)
    case Stop(d) => d
    case Pass(caller, uploaded) => Invoke(rt.handler, caller, params, uploaded)
  }

  /** The decision for `verb /api/<mount>/<segs...>` carrying the Authorization header `header`. */
  function Dispatch(verb: Verb, mount: string, segs: seq<string>, header: Option<string>, users: seq<User>): (d: Decision)
    ensures d.NotFound? <==>
      TableFor(mount).None? || forall i :: 0 <= i < |TableFor(mount).value| ==> !Takes(TableFor(mount).value[i], verb, segs)
    ensures d.Invoke? ==>
      && TableFor(mount).Some?
      && exists rt :: rt in TableFor(mount).value && Takes(rt, verb, segs) && rt.handler == d.handler
  {
    match TableFor(mount)
    case None => NotFound
    case Some(table) =>
      match Lookup(table, verb, segs)
      case None => NotFound
      case Some(rt) => Finish(rt, Match(rt.path, segs).value, Check(header, users))
  }

  // ---- the policy the routes implement, stated independently

  /** The roles each endpoint is meant for; `None`: any signed-in user. */
  function Policy(h: Handler): Option<seq<Role>>
  {
    match h
    case CreateAppointment => Some([PATIENT])
    case MyAppointments => None
    case CancelAppointment => None
    case UpdateAppointmentStatus => Some([DOCTOR])
    case AllAppointments => Some([ADMIN])
    case MyDocuments => Some([PATIENT])
    case UploadDocument => Some([DOCTOR])
    case DocumentsForPatient => Some([DOCTOR])
    case AllDocuments => Some([ADMIN])
    case DeleteDocument => Some([ADMIN])
    case Doctors => None
    case AllUsers => Some([ADMIN])
    case CreateUser => Some([ADMIN])
  }

  /** The decision the policy calls for: sign-in first, then the role test, then the handler. */
  function Expected(h: Handler, params: map<string, string>, auth: Outcome): Decision
  {
    match auth
    case Denied(resp) => Reject(resp)
    case Authenticated(u) =>
      if Policy(h).Some? && u.role !in Policy(h).value then Reject(Response(403, Msg(RoleDenied(u.role))))
      else Invoke(h, Some(u), params, h == UploadDocument)
  }

  /** The appointment endpoints, read off their paths. */
  function AppointmentEndpoint(verb: Verb, segs: seq<string>): Option<(Handler, map<string, string>)>
  {
    if verb == POST && segs == [] then Some((CreateAppointment, map[]))
    else if verb == GET && segs == ["my"] then Some((MyAppointments, map[]))
    else if verb == DELETE && |segs| == 1 && segs[0] != "" then Some((CancelAppointment, map["id" := segs[0]]))
    else if verb == PUT && |segs| == 2 && segs[0] != "" && segs[1] == "status" then
      Some((UpdateAppointmentStatus, map["id" := segs[0]]))
    else if verb == GET && segs == ["all"] then Some((AllAppointments, map[]))
    else None
  }

  /** The document endpoints, read off their paths. */
  function DocumentEndpoint(verb: Verb, segs: seq<string>): Option<(Handler, map<string, string>)>
  {
    if verb == GET && segs == ["my"] then Some((MyDocuments, map[]))
    else if verb == POST && segs == [] then Some((UploadDocument, map[]))
    else if verb == GET && |segs| == 2 && segs[0] == "patient" && segs[1] != "" then
      Some((DocumentsForPatient, map["patientId" := segs[1]]))
    else if verb == GET && segs == ["all"] then Some((AllDocuments, map[]))
    else if verb == DELETE && |segs| == 1 && segs[0] != "" then Some((DeleteDocument, map["id" := segs[0]]))
    else None
  }

  /** The user endpoints, read off their paths. */
  function UserEndpoint(verb: Verb, segs: seq<string>): Option<(Handler, map<string, string>)>
  {
    if verb == GET && segs == ["doctors"] then Some((Doctors, map[]))
    else if verb == GET && segs == [] then Some((AllUsers, map[]))
    else if verb == POST && segs == [] then Some((CreateUser, map[]))
    else None
  }

  function Endpoint(verb: Verb, mount: string, segs: seq<string>): Option<(Handler, map<string, string>)>
  {
    if mount == "appointments" then AppointmentEndpoint(verb, segs)
    else if mount == "documents" then DocumentEndpoint(verb, segs)
    else if mount == "users" then UserEndpoint(verb, segs)
    else None
  }

  // Match on the path shapes the tables use.

  lemma MatchLit(t: string, segs: seq<string>)
    ensures Match([Lit(t)], segs) == if segs == [t] then Some(map[]) else None
  {
    if |segs| == 1 {
      assert segs == [segs[0]];
    }
  }

  lemma MatchParam(n: string, segs: seq<string>)
    ensures Match([Param(n)], segs) == if |segs| == 1 && segs[0] != "" then Some(map[n := segs[0]]) else None
  {
    if |segs| >= 1 {
      assert segs[1..] == [] <==> |segs| == 1;
    }
  }

  lemma MatchParamLit(n: string, t: string, segs: seq<string>)
    ensures Match([Param(n), Lit(t)], segs) ==
      if |segs| == 2 && segs[0] != "" && segs[1] == t then Some(map[n := segs[0]]) else None
  {
    if |segs| >= 1 {
      MatchLit(t, segs[1..]);
      assert [Param(n), Lit(t)][1..] == [Lit(t)];
      if |segs| == 2 {
        assert segs[1..] == [segs[1]];
      }
    }
  }

  lemma MatchLitParam(t: string, n: string, segs: seq<string>)
    ensures Match([Lit(t), Param(n)], segs) ==
      if |segs| == 2 && segs[0] == t && segs[1] != "" then Some(map[n := segs[1]]) else None
  {
    if |segs| >= 1 {
      MatchParam(n, segs[1..]);
      assert [Lit(t), Param(n)][1..] == [Param(n)];
    }
  }

  /** The route `Lookup` selects agrees with the endpoint `e`, handler and bound parameters both. */
  predicate Agrees(table: seq<Route>, verb: Verb, segs: seq<string>, e: Option<(Handler, map<string, string>)>)
  {
    match Lookup(table, verb, segs)
    case None => e.None?
    case Some(rt) => e == Some((rt.handler, Match(rt.path, segs).value))
  }

  lemma LookupAppointmentsGet(segs: seq<string>)
    ensures Agrees(AppointmentRoutes, GET, segs, AppointmentEndpoint(GET, segs))
  {
    MatchLit("my", segs);
    MatchLit("all", segs);
    var t := AppointmentRoutes;
    if Lookup(t, GET, segs).None? {
      assert !Takes(t[1], GET, segs) && !Takes(t[4], GET, segs);
    }
  }

  lemma LookupAppointmentsOther(verb: Verb, segs: seq<string>)
    requires verb != GET
    ensures Agrees(AppointmentRoutes, verb, segs, AppointmentEndpoint(verb, segs))
  {
    MatchParam("id", segs);
    MatchParamLit("id", "status", segs);
    var t := AppointmentRoutes;
    if Lookup(t, verb, segs).None? {
      assert !Takes(t[0], verb, segs) && !Takes(t[2], verb, segs) && !Takes(t[3], verb, segs);
    }
  }

  lemma LookupAppointments(verb: Verb, segs: seq<string>)
    ensures Agrees(AppointmentRoutes, verb, segs, AppointmentEndpoint(verb, segs))
  {
    if verb == GET {
      LookupAppointmentsGet(segs);
    } else {
      LookupAppointmentsOther(verb, segs);
    }
  }

  lemma LookupDocumentsGet(segs: seq<string>)
    ensures Agrees(DocumentRoutes, GET, segs, DocumentEndpoint(GET, segs))
  {
    MatchLit("my", segs);
    MatchLit("all", segs);
    MatchLitParam("patient", "patientId", segs);
    var t := DocumentRoutes;
    if Lookup(t, GET, segs).None? {
      assert !Takes(t[0], GET, segs) && !Takes(t[2], GET, segs) && !Takes(t[3], GET, segs);
    }
  }

  lemma LookupDocumentsOther(verb: Verb, segs: seq<string>)
    requires verb != GET
    ensures Agrees(DocumentRoutes, verb, segs, DocumentEndpoint(verb, segs))
  {
    MatchParam("id", segs);
    var t := DocumentRoutes;
    if Lookup(t, verb, segs).None? {
      assert !Takes(t[1], verb, segs) && !Takes(t[4], verb, segs);
    }
  }

  lemma LookupDocuments(verb: Verb, segs: seq<string>)
    ensures Agrees(DocumentRoutes, verb, segs, DocumentEndpoint(verb, segs))
  {
    if verb == GET {
      LookupDocumentsGet(segs);
    } else {
      LookupDocumentsOther(verb, segs);
    }
  }

  lemma LookupUsers(verb: Verb, segs: seq<string>)
    ensures Agrees(UserRoutes, verb, segs, UserEndpoint(verb, segs))
  {
    MatchLit("doctors", segs);
    var t := UserRoutes;
    if Lookup(t, verb, segs).None? {
      assert !Takes(t[0], verb, segs) && !Takes(t[1], verb, segs) && !Takes(t[2], verb, segs);
    }
  }

  // Run on the middleware lists the tables use.

  /** Each declared route has one of three middleware shapes, each matching its handler's policy. */
  predicate Shaped(rt: Route)
  {
    || (rt.middleware == [Protect] && Policy(rt.handler).None?)
    || (Policy(rt.handler).Some? && rt.middleware == [Protect, Authorize(Policy(rt.handler).value)]
        && rt.handler != UploadDocument)
    || (rt.handler == UploadDocument && rt.middleware == [Protect, Authorize([DOCTOR]), Upload])
  }

  /** Every declared route is shaped, so runs `protect` first and `protect` alone ahead of any role test. */
  lemma TablesShaped()
    ensures forall rt :: rt in AppointmentRoutes ==> Shaped(rt)
    ensures forall rt :: rt in DocumentRoutes ==> Shaped(rt)
    ensures forall rt :: rt in UserRoutes ==> Shaped(rt)
  {
  }

  lemma RunOpen(auth: Outcome)
    ensures Run([Protect], auth, None, false) ==
      match auth
      case Denied(resp) => Stop(Reject(resp))
      case Authenticated(u) => Pass(Some(u), false)
  {
    assert [Protect][1..] == [];
  }

  lemma RunRoles(roles: seq<Role>, auth: Outcome)
    ensures Run([Protect, Authorize(roles)], auth, None, false) ==
      match auth
      case Denied(resp) => Stop(Reject(resp))
      case Authenticated(u) =>
        if u.role !in roles then Stop(Reject(Response(403, Msg(RoleDenied(u.role))))) else Pass(Some(u), false)
  {
    var c := [Protect, Authorize(roles)];
    assert c[1..] == [Authorize(roles)] && c[1..][1..] == [];
    match auth
    case Denied(_) =>
    case Authenticated(u) =>
      assert Run(c, auth, None, false) == Run(c[1..], auth, Some(u), false);
      if u.role in roles {
        assert Run(c[1..], auth, Some(u), false) == Run(c[1..][1..], auth, Some(u), false);
      }
  }

  lemma RunUpload(auth: Outcome)
    ensures Run([Protect, Authorize([DOCTOR]), Upload], auth, None, false) ==
      match auth
      case Denied(resp) => Stop(Reject(resp))
      case Authenticated(u) =>
        if u.role != DOCTOR then Stop(Reject(Response(403, Msg(RoleDenied(u.role))))) else Pass(Some(u), true)
  {
    var c := [Protect, Authorize([DOCTOR]), Upload];
    assert c[1..] == [Authorize([DOCTOR]), Upload];
    assert c[1..][1..] == [Upload] && c[1..][1..][1..] == [];
    match auth
    case Denied(_) =>
    case Authenticated(u) =>
      assert Run(c, auth, None, false) == Run(c[1..], auth, Some(u), false);
      if u.role == DOCTOR {
        assert Run(c[1..], auth, Some(u), false) == Run(c[1..][1..], auth, Some(u), false);
        assert Run(c[1..][1..], auth, Some(u), false) == Run(c[1..][1..][1..], auth, Some(u), true);
      }
  }

  /** A shaped route's middleware implements the policy of its handler. */
  lemma RouteFollowsPolicy(rt: Route, params: map<string, string>, auth: Outcome)
    requires Shaped(rt)
    ensures Finish(rt, params, auth) == Expected(rt.handler, params, auth)
  {
    if rt.middleware == [Protect] {
      RunOpen(auth);
    } else if rt.handler == UploadDocument {
      RunUpload(auth);
    } else {
      RunRoles(Policy(rt.handler).value, auth);
    }
  }

  /** The route tables implement the policy: every request gets the decision `Expected` describes. */
  lemma DispatchFollowsPolicy(verb: Verb, mount: string, segs: seq<string>, header: Option<string>, users: seq<User>)
    ensures Dispatch(verb, mount, segs, header, users) ==
      match Endpoint(verb, mount, segs)
      case None => NotFound
      case Some((h, params)) => Expected(h, params, Check(header, users))
  {
    TablesShaped();
    if mount == "appointments" {
      LookupAppointments(verb, segs);
    } else if mount == "documents" {
      LookupDocuments(verb, segs);
    } else if mount == "users" {
      LookupUsers(verb, segs);
    }
    if TableFor(mount).Some? {
      var r := Lookup(TableFor(mount).value, verb, segs);
      if r.Some? {
        RouteFollowsPolicy(r.value, Match(r.value.path, segs).value, Check(header, users));
      }
    }
  }

  /** DELETE /api/appointments/:id has no role test: every signed-in caller reaches the handler. */
  lemma CancelOpenToAllRoles(id: string, header: Option<string>, users: seq<User>)
    requires id != "" && Check(header, users).Authenticated?
    ensures Dispatch(DELETE, "appointments", [id], header, users)
         == Invoke(CancelAppointment, Some(Check(header, users).user), map["id" := id], false)
  {
    LookupAppointmentsOther(DELETE, [id]);
    var rt := Lookup(AppointmentRoutes, DELETE, [id]).value;
    MatchParam("id", [id]);
    assert rt == AppointmentRoutes[2];
    RunOpen(Check(header, users));
  }

  /**
   * Composed with the handler: a signed-in caller who is not the
   * appointment's patient gets 401 from DELETE /api/appointments/:id,
   * whatever their role.
   */
  lemma CancelOthersRefused(n: Id, header: Option<string>, users: seq<User>,
                            rows: seq<AppointmentModel.Appointment>, k: nat)
    requires Check(header, users).Authenticated?
    requires AppointmentModel.IndexOf(rows, n) == Some(k)
    requires rows[k].patient != Check(header, users).user.id
    ensures var d := Dispatch(DELETE, "appointments", [Decimal.Show(n)], header, users);
      && d.Invoke? && d.handler == CancelAppointment && "id" in d.params && d.caller.Some?
      && AppointmentController.CancelRejection(rows, d.caller.value, d.params["id"])
         == Some(Response(401, Msg(AppointmentController.NotAuthorized)))
  {
    ParseIdShow(n);
    CancelOpenToAllRoles(Decimal.Show(n), header, users);
  }
}
