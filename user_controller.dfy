/**
 * The user handlers: the doctor directory, the administrator's user list
 * and creation of a user by an administrator.
 */
module UserController {
  import opened Wrappers
  import opened Ids
  import opened Collections
  import opened Validation
  import opened UserModel
  import opened Http

  const UserExists: string := "User already exists"

  function Cards(s: seq<User>): (r: seq<DoctorCard>)
    ensures |r| == |s| && forall i :: 0 <= i < |s| ==> r[i] == Card(s[i])
  {
    seq(|s|, i requires 0 <= i < |s| => Card(s[i]))
  }

  /** The `find({ role: 'DOCTOR' })` filter. */
  predicate IsDoctorUser(u: User)
  {
    u.role == DOCTOR
  }

  /** `getDoctors`: one card per user whose role is DOCTOR, and none for anyone else. */
  function Doctors(rows: seq<User>): (r: Response)
    ensures r.status == 200 && r.body.DoctorList?
    ensures r.body.cards == Cards(Filter(rows, IsDoctorUser))
    ensures forall c :: c in r.body.cards <==> exists u :: u in rows && u.role == DOCTOR && Card(u) == c
  {
    var doctors := Filter(rows, IsDoctorUser);
    assert forall u :: u in doctors <==> u in rows && u.role == DOCTOR by {
      forall u ensures u in doctors <==> u in rows && u.role == DOCTOR {
        assert u in doctors <==> multiset(doctors)[u] > 0;
        assert u in rows <==> multiset(rows)[u] > 0;
      }
    }
    Response(200, DoctorList(Cards(doctors)))
  }

  /** `getAllUsers`: every user, in table order, with the password left out. */
  function AllUsers(rows: seq<User>): (r: Response)
    ensures r.status == 200 && r.body.UserList?
    ensures |r.body.users| == |rows|
    ensures forall i :: 0 <= i < |rows| ==> r.body.users[i] == Safe(rows[i])
  {
    Response(200, UserList(seq(|rows|, i requires 0 <= i < |rows| => Safe(rows[i]))))
  }

  // ---- createUser

  /** The body of a create request; its fields go to `User.create` unchanged. */
  datatype CreateBody = CreateBody(
    name: Option<string>,
    email: Option<string>,
    password: Option<string>,
    role: Option<string>,
    specialty: Option<string>)

  function Fields(b: CreateBody): UserFields
  {
    UserFields(b.name, b.email, b.password, b.role, b.specialty)
  }

  /**
   * The refusal `createUser` answers with, or `None` when it inserts. The
   * lookup runs on whatever email the body holds, also on none at all.
   */
  function CreateUserRejection(rows: seq<User>, b: CreateBody): (r: Option<Response>)
    ensures FindByEmail(rows, b.email).Some? ==> r == Some(Response(400, Msg(UserExists)))
    ensures FindByEmail(rows, b.email).None? ==>
      (r.None? <==> UserErrors(Fields(b)) == [])
    ensures FindByEmail(rows, b.email).None? && r.Some? ==>
      r == Some(Response(400, ValidationFailed(UserErrors(Fields(b)))))
  {
    if FindByEmail(rows, b.email).Some? then Some(Response(400, Msg(UserExists)))
    else if UserErrors(Fields(b)) != [] then Some(Response(400, ValidationFailed(UserErrors(Fields(b)))))
    else None
  }

  /**
   * A body without an email is refused as "User already exists" whenever the
   * table is not empty: the lookup then has no condition and finds the first user.
   */
  lemma CreateWithoutEmail(rows: seq<User>, b: CreateBody)
    requires b.email.None? && rows != []
    ensures CreateUserRejection(rows, b) == Some(Response(400, Msg(UserExists)))
  {
  }

  /** `createUser`: adds one user and answers with its public fields, no password and no token. */
  method CreateUser(store: Users, b: CreateBody, now: int) returns (resp: Response)
    requires store.Valid()
    modifies store
    ensures store.Valid()
    ensures CreateUserRejection(old(store.rows), b).Some? ==>
              resp == CreateUserRejection(old(store.rows), b).value && unchanged(store)
    ensures CreateUserRejection(old(store.rows), b).None? ==>
              && UserErrors(Fields(b)) == []
              && var u := BuildUser(Fields(b), old(store.nextId), now);
              && store.rows == old(store.rows) + [u]
              && resp == Response(201, NewUser(u.id, u.name, u.email, u.role, u.specialty, u.createdAt))
  {
    if FindByEmail(store.rows, b.email).Some? {
      return Response(400, Msg(UserExists));
    }
    var created := store.Create(Fields(b), now);
    if created.Created? {
      var u := created.user;
      resp := Response(201, NewUser(u.id, u.name, u.email, u.role, u.specialty, u.createdAt));
    } else {
      // the lookup above has ruled out the duplicate-key outcome
      resp := Response(400, ValidationFailed(created.paths));
    }
  }
}
