/**
 * The responses the handlers send: a status code and a JSON (or plain text)
 * body. Each body alternative is one shape the source puts on the wire.
 */
module Http {
  import opened Ids
  import opened Validation
  import UserModel
  import AppointmentModel
  import DocumentModel

  datatype Body =
    /** `{ msg: text }` */
    | Msg(text: string)
    /** `{ messsage: text }`, the key register's incomplete-data reply uses */
    | Messsage(text: string)
    /** `res.send(text)` */
    | Text(text: string)
    /** `{ msg: err.message }` for a Mongoose ValidationError, reduced to the failing paths */
    | ValidationFailed(paths: seq<Path>)
    | OneAppointment(appt: AppointmentModel.Appointment)
    | AppointmentList(appts: seq<AppointmentModel.AppointmentView>)
    | OneDocument(doc: DocumentModel.DocumentView)
    | DocumentList(docs: seq<DocumentModel.DocumentView>)
    | DoctorList(cards: seq<UserModel.DoctorCard>)
    | UserList(users: seq<UserModel.SafeUser>)
    /** `{ token, user: { _id, name, email, role } }` */
    | TokenReply(token: string, account: UserModel.PublicUser)
    /** `{ _id, name, email, role, specialty, createdAt }` */
    | NewUser(
        id: Id, name: string, email: string, role: UserModel.Role,
        specialty: UserModel.Specialty, createdAt: int)
    | Me(caller: UserModel.SafeUser)

  datatype Response = Response(status: nat, body: Body)

  const ServerErrorText: string := "Server Error"
  /** The spelling the auth and user controllers use. */
  const ServerErrorLower: string := "Server error"

  predicate IsError(r: Response)
  {
    r.status >= 400
  }
}
