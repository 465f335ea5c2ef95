# Hospital management: request handling, access control and the client session

A Dafny model of a small hospital-management web application. Patients book appointments with doctors. Doctors confirm or complete them and upload medical documents. Administrators manage users. The model covers:

- **The three collections** (users, appointments, documents): one record per schema, with the schema's rules as validity predicates and the unique indexes as store invariants. The collection classes `Users`, `Appointments` and `Documents` keep their rows in a field and insert, delete or update them in place.
- **The controller handlers**:
  - Each state-changing handler is a method over a collection. A pure `...Rejection` function gives its error response, and the method proves that every error leaves the collection unchanged.
  - Each read handler is a function: a filter, a descending sort and a projection.
- **Access control**: `protect` (bearer header → token → stored user), `authorize` (role allow-list), and the three route tables. The routes compose into a decision `Dispatch`. It is proved equal to an independently written per-endpoint policy.
- **The client**:
  - the request interceptor that attaches the bearer header;
  - the session store (`loadUser`, `register`, `login`, `logout`) as a class, with browser storage as a ghost field;
  - the route guards and the page table.

Identifiers are natural numbers. Dates are integer timestamps. Request values that may be missing are `Option`s. A path parameter is parsed into `Absent | Malformed | Given(id)`. A canonical decimal stands in for a well-formed ObjectId: the parameter is a valid identifier exactly when it is one. String length limits count UTF-16 code units, as JavaScript's `length` does. bcrypt is an abstract `Hash`/`Matches` pair. The JSON web token is an abstract `Sign`/`Verify` pair with `Verify(t) == Some(id) <==> t == Sign(id)`.

A double booking is answered `400 "Appointment time slot is already booked."` (appointmentController.js:30-32).

## Model

| member | source | states |
|---|---|---|
| UserModel.ParseRole | backend/models/User.js:24-28 | a role string is accepted exactly when it names PATIENT, DOCTOR or ADMIN |
| UserModel.ParseSpecialty | backend/models/User.js:39-43 | a specialty is accepted exactly when it is one of OPD, Skin care, ENT, Dermatologist, OTHER |
| UserModel.ExampleAddresses | backend/models/User.js:13-16 | the email pattern accepts a dotted/dashed address and rejects one without a two- or three-letter top-level part |
| UserModel.UserErrors | backend/models/User.js:5-28 | a path is reported exactly when its rule fails: name required, email required and matching the pattern, password required with at least 8 UTF-16 code units, role and specialty within their enums |
| UserModel.ValidEmail | backend/models/User.js:12-16 | the email pattern as written; an address it accepts is at least six characters long and begins and ends with a word character |
| UserModel.AstralPasswordLongEnough | backend/models/User.js:21 | a password of four characters outside the Basic Multilingual Plane has eight UTF-16 code units and meets the minimum |
| UserModel.BuildUser | backend/models/User.js:24-50 | a valid create yields a valid record with the given name and email, a password that matches the entered one, role defaulting to PATIENT, specialty to OPD, medicalHistory "" and isActive true |
| UserModel.Safe | backend/models/User.js:22 | a read without the password keeps every other field |
| UserModel.SafeForgetsOnlyPassword | backend/models/User.js:22 | two users have the same password-free view exactly when they differ at most in the password |
| UserModel.FindById | backend/middleware/authMiddleware.js:16 | finds a stored user with that id, and finds none exactly when no stored user has it |
| UserModel.FindByEmail | backend/controllers/authController.js:16 | finds a user with that email, or none exactly when no user has it; with no email at all the first stored user is returned (an empty filter) |
| UserModel.NameSpecialtyOf | backend/controllers/appointmentController.js:46 | the populated doctor is missing exactly when no user has the id |
| UserModel.NameEmailOf | backend/controllers/appointmentController.js:50 | the populated patient is missing exactly when no user has the id |
| UserModel.Users.Create | backend/models/User.js:4-67 | an invalid create reports its failing paths and changes nothing; a taken email is refused with nothing changed; otherwise exactly the built user is appended; the table stays valid with unique ids and emails |
| AppointmentModel.ParseStatus | backend/models/Appointment.js:23-27 | a status string is accepted exactly when it is PENDING, CONFIRMED, COMPLETED or CANCELLED |
| AppointmentModel.DraftErrors | backend/models/Appointment.js:14-22 | the date and the reason are reported exactly when missing, and the reason also when it is empty or longer than 500 UTF-16 code units |
| AppointmentModel.Build | backend/models/Appointment.js:4-27 | a valid draft becomes a valid appointment with the given parties, date and reason and status PENDING |
| AppointmentModel.AstralReasonTooLong | backend/models/Appointment.js:21 | a reason of 300 characters outside the Basic Multilingual Plane is 600 UTF-16 code units and is refused |
| AppointmentModel.InsertKeepsNoDoubleBooking | backend/models/Appointment.js:31-34 | appending an appointment whose (patient, date) and (doctor, date) are free keeps both unique indexes |
| AppointmentModel.RemoveKeepsNoDoubleBooking | backend/models/Appointment.js:31-34 | removing any appointment keeps both unique indexes |
| AppointmentModel.SetStatusKeepsNoDoubleBooking | backend/models/Appointment.js:31-34 | changing one appointment's status keeps both unique indexes |
| AppointmentModel.IndexOf | backend/controllers/appointmentController.js:68 | finds the position of the appointment with the id, or none exactly when no appointment has it |
| AppointmentModel.Appointments.Save | backend/controllers/appointmentController.js:18-34 | a draft with failing paths changes nothing; a taken (patient, date) or (doctor, date) is a duplicate key with nothing changed; otherwise exactly the built appointment is appended; the indexes stay unique |
| AppointmentModel.Appointments.Delete | backend/controllers/appointmentController.js:84 | removes exactly the chosen appointment and keeps the others in order; the table stays valid |
| AppointmentModel.Appointments.SetStatus | backend/controllers/appointmentController.js:120-121 | changes only the chosen appointment's status; the table stays valid |
| AppointmentController.BookingDraft | backend/controllers/appointmentController.js:18-23 | the draft carries the caller as patient and the body's doctor, date and reason |
| AppointmentController.BookingRejection | backend/controllers/appointmentController.js:13-34 | an uncastable doctor id is 500; an absent id or a user who is not a doctor is 404 "Doctor not found"; a schema failure is 500; a taken slot is 400 "Appointment time slot is already booked."; otherwise none |
| AppointmentController.CreateAppointment | backend/controllers/appointmentController.js:7-35 | on rejection the response is that rejection and the store is unchanged; otherwise 201 with exactly one appended appointment (caller as patient, status PENDING) |
| AppointmentController.PatientViews | backend/controllers/appointmentController.js:45-46 | each appointment with the doctor populated as name and specialty |
| AppointmentController.DoctorViews | backend/controllers/appointmentController.js:49-50 | each appointment with the patient populated as name and email |
| AppointmentController.FullViews | backend/controllers/appointmentController.js:136-138 | each appointment with both parties populated |
| AppointmentController.MineSorted | backend/controllers/appointmentController.js:44-51 | exactly the caller's appointments (as patient for a patient, as doctor for a doctor), with multiplicity, latest date first |
| AppointmentController.MyAppointments | backend/controllers/appointmentController.js:40-61 | ADMIN gets 400; others get 200 with exactly their appointments by date descending and the other party populated |
| AppointmentController.AllAppointments | backend/controllers/appointmentController.js:134-146 | 200 with every appointment (a permutation of the store), date descending, both parties populated |
| AppointmentController.CancelRejection | backend/controllers/appointmentController.js:66-91 | in this order: uncastable id 500, missing 404, caller not the patient 401, status not PENDING 400, otherwise none |
| AppointmentController.CancelAppointment | backend/controllers/appointmentController.js:66-91 | on rejection the store is unchanged; otherwise exactly that appointment is removed and the answer is 200 |
| AppointmentController.AllowedStatus | backend/controllers/appointmentController.js:102-103 | a requested status is accepted exactly when it is CONFIRMED, COMPLETED or CANCELLED |
| AppointmentController.StatusRejection | backend/controllers/appointmentController.js:102-117 | a status outside the allow-list is 400 before any lookup; then uncastable id 500, missing 404, caller not the doctor 401, otherwise none |
| AppointmentController.UpdateAppointmentStatus | backend/controllers/appointmentController.js:97-128 | on rejection the store is unchanged; otherwise only that appointment's status changes and it is returned with 200 |
| AppointmentController.IndexOfIgnoresStatus | backend/controllers/appointmentController.js:108 | finding an appointment by id does not depend on any status |
| AppointmentController.StatusRejectionIgnoresCurrentStatus | backend/controllers/appointmentController.js:108-121 | the decision does not depend on the current status, so COMPLETED → CONFIRMED is allowed |
| DocumentModel.ParseDocumentType | backend/models/Document.js:26-29 | a document type is accepted exactly when it is PRESCRIPTION, LAB_RESULT, MEDICAL_REPORT or OTHER |
| DocumentModel.DraftErrors | backend/models/Document.js:4-29 | a path is reported exactly when its rule fails: patient is a castable reference, fileName, filePath and fileType are non-empty, documentType is within its enum |
| DocumentModel.Build | backend/models/Document.js:3-31 | a valid draft becomes a valid document with the given references and file fields and documentType defaulting to OTHER |
| DocumentModel.IndexOf | backend/controllers/documentController.js:102 | finds the position of the document with the id, or none exactly when no document has it |
| DocumentModel.Documents.Save | backend/controllers/documentController.js:36-45 | a draft with failing paths changes nothing; otherwise exactly the built document is appended |
| DocumentModel.Documents.Delete | backend/controllers/documentController.js:119 | removes exactly the chosen document and keeps the others in order |
| DocumentController.UploaderViews | backend/controllers/documentController.js:11 | each document with the uploader populated as name and specialty |
| DocumentController.FullViews | backend/controllers/documentController.js:86-87 | each document with the patient as name and email and the uploader as name and specialty |
| DocumentController.DocumentsOf | backend/controllers/documentController.js:10-12 | exactly the documents of the patient, with multiplicity, newest first, uploader populated |
| DocumentController.MyDocuments | backend/controllers/documentController.js:8-19 | 200 with exactly the caller's documents, newest first |
| DocumentController.DocumentsForPatient | backend/controllers/documentController.js:65-76 | an uncastable id is 500; otherwise 200 with exactly that patient's documents, newest first |
| DocumentController.AllDocuments | backend/controllers/documentController.js:83-95 | 200 with every document (a permutation of the store), newest first, both references populated |
| DocumentController.UploadDraft | backend/controllers/documentController.js:36-43 | uploadedBy is the caller, fileName the original name, fileType the mimetype, and filePath the stored path with every backslash turned into a slash |
| DocumentController.UploadRejection | backend/controllers/documentController.js:28-58 | no file is 400 "Please upload a file"; a schema failure is 400 with the failing paths; otherwise none |
| DocumentController.UploadDocument | backend/controllers/documentController.js:24-60 | on rejection the store is unchanged; otherwise 201 with exactly one appended document and the uploader populated |
| DocumentController.DeleteRejection | backend/controllers/documentController.js:100-129 | a missing or uncastable id is 404 "Document not found", and nothing else is rejected |
| DocumentController.DeleteDocument | backend/controllers/documentController.js:100-129 | on rejection the store is unchanged; otherwise exactly that document is removed and the answer is 200, whatever the file unlink did |
| Text.Split | backend/middleware/authMiddleware.js:11 | `split(' ')` returns at least one part, no part holds a space, and joining the parts gives back the input |
| Text.JsLength | backend/models/Appointment.js:21 | JavaScript's `length`: at least the number of characters and at most twice it, and exactly it when every character lies in the Basic Multilingual Plane |
| Text.JsLengthAstral | backend/models/User.js:21 | every character outside the Basic Multilingual Plane counts two code units |
| Text.SplitJoin | backend/middleware/authMiddleware.js:11 | splitting undoes joining separator-free parts |
| Text.SecondField | backend/middleware/authMiddleware.js:11 | the second space-separated field exists exactly when the header holds a space |
| Text.ReplaceBackslashes | backend/controllers/documentController.js:41 | same length, no backslash left, every other character unchanged and every backslash now a slash |
| Text.ReplaceBackslashesIdempotent | backend/controllers/documentController.js:41 | normalising twice is normalising once |
| Token.Sign | backend/controllers/authController.js:29 | an issued token is non-empty and holds no space |
| Token.VerifyIffSigned | backend/middleware/authMiddleware.js:13 | a token verifies to an id exactly when it was issued for that id |
| Ids.ParseId | backend/controllers/appointmentController.js:68 | a path parameter is an identifier exactly when it is a canonical decimal, and then it is that number's decimal form |
| Ids.ParseIdShow | backend/controllers/appointmentController.js:68 | an identifier written out parses back to itself |
| AuthMiddleware.Check | backend/middleware/authMiddleware.js:5-32 | no "Bearer" header is 401 "no token"; every refusal is 401; an accepted request carries a stored user minus the password, whose id the second header field verifies to |
| AuthMiddleware.CheckSignedToken | backend/middleware/authMiddleware.js:9-20 | the header for a token issued for an id is accepted as that stored user, or refused with 401 "user not found" |
| AuthMiddleware.CheckForeignToken | backend/middleware/authMiddleware.js:13-26 | a token that verifies to no id is refused with 401 "token failed" |
| AuthMiddleware.Protect | backend/middleware/authMiddleware.js:5-32 | `next` is called exactly when the check accepts, and then `req.user` is the found user; otherwise the check's response is returned |
| AuthMiddleware.Authorize | backend/middleware/authMiddleware.js:34-43 | `next` exactly when the caller's role is listed; otherwise 403 naming the role |
| AuthController.RegisterFields | backend/controllers/authController.js:22-27 | the fields passed to create are the body's, with role falling back to PATIENT only when absent |
| AuthController.RoleFallbackUnused | backend/controllers/authController.js:12-26 | once the completeness check has passed, the PATIENT fallback never applies |
| AuthController.RegisterRejection | backend/controllers/authController.js:12-44 | any of name, email, password or role missing is 400 under the key `messsage`; a stored email is 400 "User already exists"; a schema failure is 500 "Server error"; otherwise none |
| AuthController.Register | backend/controllers/authController.js:8-45 | on rejection the store is unchanged; otherwise exactly one user is added and the answer is 201 with a token issued for it and the user without the password |
| AuthController.Login | backend/controllers/authController.js:50-87 | missing email or password is 400; every 401 is the same "Invalid credentials"; a 200 carries the token for a stored user whose password matches, and that user without the password |
| AuthController.FindByOwnEmail | backend/models/User.js:12 | under the unique email index, looking up a stored user's email finds that user |
| AuthController.LoginOwnCredentials | backend/controllers/authController.js:59-81 | a stored user's own email and password log in with 200 and that user's token |
| AuthController.UnknownEmailLooksLikeWrongPassword | backend/controllers/authController.js:61-69 | an unknown email and a wrong password get the identical 401 response |
| AuthController.LoginTokenVerifies | backend/controllers/authController.js:71-80 | the token a successful login returns verifies to the returned user's id |
| AuthController.GetMe | backend/controllers/authController.js:92-95 | 200 with exactly the user `protect` attached |
| UserController.Cards | backend/controllers/userController.js:10-11 | each user projected to id, name and specialty |
| UserController.Doctors | backend/controllers/userController.js:6-19 | 200 with one card (id, name, specialty) per user whose role is DOCTOR, as many as there are such users, and no card for anyone else |
| UserController.AllUsers | backend/controllers/userController.js:27-36 | 200 with every user in order, each without the password |
| UserController.CreateUserRejection | backend/controllers/userController.js:42-80 | a found email is 400 "User already exists"; otherwise a schema failure is 400 with the failing paths, or none |
| UserController.CreateWithoutEmail | backend/controllers/userController.js:46-49 | with no email in the body and a non-empty table, the lookup finds the first user and the answer is 400 "User already exists" |
| UserController.CreateUser | backend/controllers/userController.js:42-80 | on rejection the store is unchanged; otherwise exactly one user is added and the answer is 201 with id, name, email, role, specialty and createdAt, and no password or token |
| Routes.Match | backend/routes/appointments.js:25-35 | a route path matches exactly when it has as many segments, each literal equal and each parameter non-empty |
| Routes.Finish | backend/routes/documents.js:15-21 | the handler runs, with the route's own handler and parameters, exactly when every middleware passed; otherwise a middleware rejected or faulted |
| Routes.Dispatch | backend/server.js:43-48 | a request is not found exactly when its mount has no router or no route of it takes the request; a handler runs only when some route of the mounted table takes the request and names that handler |
| Routes.Lookup | backend/routes/appointments.js:15-40 | the route found is in the table and takes the request; none is found exactly when no route takes it |
| Routes.Run | backend/routes/documents.js:15-21 | the middleware either passes every step or stops with a rejection or a fault |
| Routes.LookupAppointments | backend/routes/appointments.js:15-40 | the first appointment route taking a request is the endpoint its verb and path name |
| Routes.LookupDocuments | backend/routes/documents.js:10-42 | the first document route taking a request is the endpoint its verb and path name |
| Routes.LookupUsers | backend/routes/users.js:9-19 | the first user route taking a request is the endpoint its verb and path name |
| Routes.TablesShaped | backend/routes/users.js:9-19 | every route runs `protect` first, then at most its role test, with the upload step only on the upload route |
| Routes.RouteFollowsPolicy | backend/routes/documents.js:10-42 | a route's middleware gives the decision its endpoint's policy calls for |
| Routes.DispatchFollowsPolicy | backend/routes/appointments.js:15-40 | every request gets: not found off the tables; else sign-in first, then 403 for a role outside the endpoint's list (PATIENT for booking and own documents, DOCTOR for status, upload and patient documents, ADMIN for the lists, document deletion and user creation, anyone for own appointments, cancel and doctors), then the handler |
| Routes.CancelOpenToAllRoles | backend/routes/appointments.js:25 | DELETE /api/appointments/:id reaches the handler for every signed-in caller, whatever the role |
| Routes.CancelOthersRefused | backend/controllers/appointmentController.js:75-77 | a signed-in caller of any role who is not the patient gets 401 from DELETE /api/appointments/:id |
| ApiClient.Attach | frontend/src/api/api.jsx:21-24 | a truthy stored token sets Authorization to "Bearer " + token; otherwise the headers are unchanged; no other header is touched or added |
| ApiClient.Intercept | frontend/src/api/api.jsx:18-26 | the same config comes back, its headers are the attached ones, and its url and method are unchanged |
| ApiClient.BearerRoundTrip | frontend/src/api/api.jsx:23 | for a token without spaces, `protect` sees a "Bearer" header whose second field is that token |
| ApiClient.SignedTokenAuthenticates | frontend/src/api/api.jsx:23 | a request carrying an issued token is authenticated as its stored user, or refused as user not found |
| ApiClient.NoTokenNoHeader | frontend/src/api/api.jsx:22 | with nothing stored, a request without a header is refused with 401 "no token" |
| AuthStore.FromPublic | frontend/src/store/authStore.jsx:72 | the kept user has the server's id, name and email, and a role string naming the server's role |
| AuthStore.FromSafe | frontend/src/store/authStore.jsx:22-26 | the same for the user `GET /auth/me` returns |
| AuthStore.ServerMsg | frontend/src/store/authStore.jsx:61 | an error reply has a message exactly when its body has a `msg` |
| AuthStore.ErrorMessage | frontend/src/store/authStore.jsx:61-86 | the rethrown message is the server's msg when truthy, else the fallback, so it is never empty |
| AuthStore.IncompleteRegistrationHidden | frontend/src/store/authStore.jsx:61 | an incomplete-registration reply (key `messsage`) surfaces as "Registration failed" |
| AuthStore.Truthy | frontend/src/store/authStore.jsx:5 | `getItem(...) \|\| null` keeps a non-empty value and turns an empty or missing one into null |
| AuthStore.Session.constructor | frontend/src/store/authStore.jsx:5-12 | the token is the truthy stored value, isAuthenticated says whether there is one, user is null and isLoading is true |
| AuthStore.Session.LoadUser | frontend/src/store/authStore.jsx:15-38 | with no token: not loading, signed out, storage untouched; on success: signed in with the reply's user; on failure: token, user and storage cleared; a consistent store ends settled |
| AuthStore.Session.Register | frontend/src/store/authStore.jsx:41-63 | success stores the returned token in storage and state, signed in with the user; failure clears state and storage and rethrows the server's msg or "Registration failed"; with a non-empty token the store ends settled |
| AuthStore.Session.Login | frontend/src/store/authStore.jsx:66-88 | the same as register, with "Login failed" |
| AuthStore.Session.Logout | frontend/src/store/authStore.jsx:91-99 | token, user and storage cleared, signed out, not loading, settled |
| AuthStore.Startup | frontend/src/store/authStore.jsx:102 | the store created from storage and then loaded is settled: signed in with the server's user when a token was stored and accepted, signed out otherwise |
| RouteGuard.Guard | frontend/src/components/ProtectedRoute.jsx:6-27 | loading shows the loading view before any check; signed out goes to /login; a given role list that does not include the user's role goes to /dashboard; otherwise admitted, rendering the children if given or the outlet |
| RouteGuard.SingleRoleGuard | frontend/src/components/ProtectedRoute.jsx:22 | on a settled session a one-role guard admits exactly the users with that role |
| App.PublicRoute | frontend/src/App.jsx:24-29 | loading while loading; otherwise signed-in visitors go to /dashboard and signed-out ones see the page |
| App.DashboardFor | frontend/src/App.jsx:47-56 | a role has a dashboard exactly when it is ADMIN, DOCTOR or PATIENT |
| App.DashboardRedirect | frontend/src/App.jsx:35-57 | loading first; a missing user or an unknown role goes to /login; the three roles go to their dashboards |
| App.Find | frontend/src/App.jsx:62-136 | the route found has the path; none is found exactly when no route has it |
| App.Render | frontend/src/App.jsx:59-139 | an unmatched path goes to /; a page is shown only for the route of that path, and /dashboard itself never shows a page |
| App.Through | frontend/src/App.jsx:96-126 | nested guards show the page exactly when every one of them admits the visitor, and what shows is that page |
| App.RenderRoute | frontend/src/App.jsx:67-126 | a route shows only its own page, and never the page behind /dashboard |
| App.ThroughRoleGuard | frontend/src/App.jsx:103-126 | on a settled signed-in session, the signed-in guard followed by a one-role guard shows the page exactly to that role and sends others to /dashboard |
| App.HomeForwards | frontend/src/App.jsx:96-100 | for a signed-in visitor, /dashboard renders what the dashboard redirect decides |
| App.DashboardAdmitsExactlyItsRole | frontend/src/App.jsx:47-126 | on a settled signed-in session, each role's dashboard shows exactly to that role and sends every other role to /dashboard |
| App.DashboardLands | frontend/src/App.jsx:47-100 | a signed-in user with a known role goes from /dashboard to their dashboard, and it shows |
| App.UnknownRoleBounces | frontend/src/App.jsx:28-55 | a signed-in user whose role has no dashboard is sent from /dashboard to /login and from /login back to /dashboard |
| App.SignedOutPublicRoute | frontend/src/App.jsx:67-90 | a signed-out visitor sees the landing, login and registration pages |
| App.SignedOutProtectedRoute | frontend/src/App.jsx:96-126 | a signed-out visitor asking for any signed-in page goes to /login |
| App.SignedOutSeesOnlyPublicPages | frontend/src/App.jsx:62-136 | a signed-out visitor is shown a page exactly for /, /login and /register, and only the public pages |

## Left out

- Password hashing: bcrypt is replaced by `Hash`/`Matches`. The pre-save hook's missing `return` after `next()` (backend/models/User.js:61-63) would hash an unmodified password again. That depends on library behaviour and is not modelled; every save here hashes once.
- JSON web tokens: the secret, the signature algorithm and expiry are not modelled. `Sign`/`Verify` is an abstract injective pairing. `utils/generateToken.js` is not part of this model.
- MongoDB machinery:
  - queries are functions over sequences;
  - `populate` is a projection lookup;
  - ObjectId casting becomes a canonical-decimal test;
  - the unique indexes are an atomic check-and-insert;
  - concurrent requests are not modelled.
- Appointment timestamps (createdAt/updatedAt): no read depends on them, so appointments carry none. User and document creation times are a `now` parameter.
- Sort ties: the model fixes one order (stable insertion sort, latest first). The database may return equal keys in another order. The contracts state only sortedness and the multiset of results.
- Validation messages: a Mongoose ValidationError is reduced to the list of failing paths. The message text is not modelled.
- Error branches unreachable in the model: a CastError during an update, and a database failure on a read, are not modelled. A read therefore never answers 500 "Server Error" except for an uncastable id.
- multer (backend/routes/documents.js:5, 19): the upload step only records that it ran. The file, or its absence, is a parameter of the upload handler.
- File deletion: `fs.unlink` runs asynchronously and its failure is ignored, so `DeleteDocument` takes its outcome as a parameter that does not affect the result.
- `appointment.remove()` (backend/controllers/appointmentController.js:84) exists only in older Mongoose versions. The model takes it as removing the record.
- The duplicated reply in `protect`: whenever the header starts with "Bearer" and its second space-separated field is empty or missing ("Bearer", "Bearer ", "Bearer  abc", "Bearerxyz"), the code answers 401 "token failed" and then tries to answer again with "no token". Only the first reply is modelled.
- Path matching: the model compares paths exactly (case-sensitive, no trailing slash), both in the Express route tables (Routes.Match, Routes.Lookup) and in the client route table (App.Find, App.Render). The client router also accepts `/Login` or `/login/` for `/login`; the model sends those to `/`.
- Request bodies: each field is a string that is present or absent. JSON values of other types (numbers, arrays, objects) are outside the model.
- Server wiring: the router for routes/auth.js, CORS, JSON parsing and static serving (backend/server.js) are not part of this model. Register, login and getMe are modelled as handlers, not dispatched.
- React rendering: pages, layout, forms and the thin axios wrappers are not modelled. Browser storage is the single ghost field `stored`. Server calls appear only as the replies they produced.
- Asynchrony in the client: each store action runs to completion before the next one starts.
- Dates and timezones on the client are not modelled.
- AuthStore.Session.Register and AuthStore.Session.Login: the settled-state guarantee assumes the server's token is non-empty. An empty token would leave the store signed in with a falsy stored value.
