/**
 * Registration, login and "who am I". Registration inserts a user and
 * answers with a session; login only reads.
 */
module AuthController {
  import opened Wrappers
  import opened Ids
  import opened Token
  import opened UserModel
  import opened Http

  const Incomplete: string := "Client data is imcomplete, please provide aname, email, password, and role."
  const UserExists: string := "User already exists"
  const MissingCredentials: string := "Please provide an email and password"
  const InvalidCredentials: string := "Invalid credentials"

  // ---- register

  datatype RegisterBody = RegisterBody(
    name: Option<string>,
    email: Option<string>,
    password: Option<string>,
    role: Option<string>)

  predicate Complete(b: RegisterBody)
  {
    Present(b.name) && Present(b.email) && Present(b.password) && Present(b.role)
  }

  /** The fields handed to `User.create`, with the `role || 'PATIENT'` fallback. */
  function RegisterFields(b: RegisterBody): (f: UserFields)
    ensures f.name == b.name && f.email == b.email && f.password == b.password && f.specialty.None?
    ensures Present(b.role) ==> f.role == b.role
    ensures !Present(b.role) ==> f.role == Some("PATIENT")
  {
    UserFields(b.name, b.email, b.password, if Present(b.role) then b.role else Some("PATIENT"), None)
  }

  /** The fallback role never takes effect: a body that gets past the completeness test carries its own role. */
  lemma RoleFallbackUnused(b: RegisterBody)
    requires Complete(b)
    ensures RegisterFields(b).role == b.role
  {
  }

  /**
   * The refusal `register` answers with, or `None` when it inserts. What
   * `User.create` rejects is not told apart from other failures (500).
   */
  function RegisterRejection(rows: seq<User>, b: RegisterBody): (r: Option<Response>)
    ensures !Complete(b) ==> r == Some(Response(400, Messsage(Incomplete)))
    ensures Complete(b) && EmailTaken(rows, b.email.value) ==> r == Some(Response(400, Msg(UserExists)))
    ensures Complete(b) && !EmailTaken(rows, b.email.value) ==>
              (r.None? <==> UserErrors(RegisterFields(b)) == [])
    ensures Complete(b) && !EmailTaken(rows, b.email.value) && UserErrors(RegisterFields(b)) != [] ==>
              r == Some(Response(500, Text(ServerErrorLower)))
  {
    if !Complete(b) then Some(Response(400, Messsage(Incomplete)))
    else if FindByEmail(rows, b.email).Some? then Some(Response(400, Msg(UserExists)))
    else if UserErrors(RegisterFields(b)) != [] then Some(Response(500, Text(ServerErrorLower)))
    else None
  }

  /** `register`: adds exactly one user and answers with its token and public fields. */
  method Register(store: Users, b: RegisterBody, now: int) returns (resp: Response)
    requires store.Valid()
    modifies store
    ensures store.Valid()
    ensures RegisterRejection(old(store.rows), b).Some? ==>
              resp == RegisterRejection(old(store.rows), b).value && unchanged(store)
    ensures RegisterRejection(old(store.rows), b).None? ==>
              && UserErrors(RegisterFields(b)) == []
              && var u := BuildUser(RegisterFields(b), old(store.nextId), now);
              && store.rows == old(store.rows) + [u]
              && resp == Response(201, TokenReply(Sign(u.id), Public(u)))
  {
    if !Complete(b) {
      return Response(400, Messsage(Incomplete));
    }
    if FindByEmail(store.rows, b.email).Some? {
      return Response(400, Msg(UserExists));
    }
    var created := store.Create(RegisterFields(b), now);
    if created.Created? {
      resp := Response(201, TokenReply(Sign(created.user.id), Public(created.user)));
    } else {
      resp := Response(500, Text(ServerErrorLower));
    }
  }

  // ---- login

  datatype LoginBody = LoginBody(email: Option<string>, password: Option<string>)

  /** `login`: a read-only decision on the users table. */
  function Login(rows: seq<User>, b: LoginBody): (r: Response)
    ensures !(Present(b.email) && Present(b.password)) ==> r == Response(400, Msg(MissingCredentials))
    ensures Present(b.email) && Present(b.password) &&
            (FindByEmail(rows, b.email).None? || !Matches(b.password.value, FindByEmail(rows, b.email).value.password)) ==>
              r == Response(401, Msg(InvalidCredentials))
    ensures r.status == 401 ==> r == Response(401, Msg(InvalidCredentials))
    ensures r.status == 200 ==>
      && Present(b.email) && Present(b.password)
      && FindByEmail(rows, b.email).Some?
      && var u := FindByEmail(rows, b.email).value;
      && u.email == b.email.value && Matches(b.password.value, u.password)
      && r == Response(200, TokenReply(Sign(u.id), Public(u)))
    ensures r.status in {200, 400, 401}
  {
    if !(Present(b.email) && Present(b.password)) then Response(400, Msg(MissingCredentials))
    else
      match FindByEmail(rows, b.email)
      case None => Response(401, Msg(InvalidCredentials))
      case Some(u) =>
        if !Matches(b.password.value, u.password) then Response(401, Msg(InvalidCredentials))
        else Response(200, TokenReply(Sign(u.id), Public(u)))
  }

  /** The stored user an email names is the one `FindByEmail` finds, since emails are unique. */
  lemma FindByOwnEmail(rows: seq<User>, nextId: nat, k: nat)
    requires TableOk(rows, nextId) && k < |rows|
    ensures FindByEmail(rows, Some(rows[k].email)) == Some(rows[k])
  {
    var found := FindByEmail(rows, Some(rows[k].email));
    var j :| 0 <= j < |rows| && rows[j] == found.value;
    assert j == k;
  }

  /** A stored user who gives their own email and a matching password gets in. */
  lemma LoginOwnCredentials(rows: seq<User>, nextId: nat, k: nat, password: string)
    requires TableOk(rows, nextId) && k < |rows| && password != ""
    requires Matches(password, rows[k].password)
    ensures Login(rows, LoginBody(Some(rows[k].email), Some(password)))
         == Response(200, TokenReply(Sign(rows[k].id), Public(rows[k])))
  {
    assert ValidUser(rows[k]);
    FindByOwnEmail(rows, nextId, k);
  }

  /** An email nobody holds and a wrong password give the same answer, 401 "Invalid credentials". */
  lemma UnknownEmailLooksLikeWrongPassword(rows: seq<User>, nextId: nat, k: nat, unknown: string, password: string)
    requires TableOk(rows, nextId) && k < |rows| && unknown != "" && password != ""
    requires !EmailTaken(rows, unknown) && !Matches(password, rows[k].password)
    ensures Login(rows, LoginBody(Some(unknown), Some(password))) == Response(401, Msg(InvalidCredentials))
    ensures Login(rows, LoginBody(Some(rows[k].email), Some(password))) == Response(401, Msg(InvalidCredentials))
  {
    assert ValidUser(rows[k]);
    FindByOwnEmail(rows, nextId, k);
  }

  /** The token login hands out verifies to the id of the user it answers with. */
  lemma LoginTokenVerifies(rows: seq<User>, b: LoginBody)
    requires Login(rows, b).status == 200
    ensures Verify(Login(rows, b).body.token) == Some(Login(rows, b).body.account.id)
  {
    var id := Login(rows, b).body.account.id;
    VerifyIffSigned(Sign(id), id);
  }

  // ---- getMe

  /** `getMe`: the user `protect` attached, as it is. */
  function GetMe(caller: SafeUser): (r: Response)
    ensures r.status == 200 && r.body == Me(caller)
  {
    Response(200, Me(caller))
  }
}
