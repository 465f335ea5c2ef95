/**
 * `protect` reads the bearer token from the Authorization header, verifies
 * it and attaches the stored user (without the password) to the request;
 * `authorize(...roles)` admits only callers whose role is listed.
 */
module AuthMiddleware {
  import opened Wrappers
  import opened Ids
  import opened Text
  import opened Token
  import opened UserModel
  import opened Http

  const NoToken: string := "Not authorized, no token"
  const TokenFailed: string := "Not authorized, token failed"
  const UserNotFound: string := "Not authorized, user not found"

  datatype Outcome = Authenticated(user: SafeUser) | Denied(response: Response)

  /** The header is truthy and starts with "Bearer". */
  predicate BearerHeader(header: Option<string>)
  {
    Present(header) && StartsWith(header.value, "Bearer")
  }

  /** The decision `protect` takes for a request carrying `header`. */
  function Check(header: Option<string>, users: seq<User>): (o: Outcome)
    ensures !BearerHeader(header) ==> o == Denied(Response(401, Msg(NoToken)))
    ensures o.Denied? ==> o.response.status == 401
    ensures o.Authenticated? ==> exists i :: 0 <= i < |users| && Safe(users[i]) == o.user
    ensures o.Authenticated? ==>
      && BearerHeader(header)
      && SecondField(header.value).Some?
      && Verify(SecondField(header.value).value) == Some(o.user.id)
  {
    if !BearerHeader(header) then Denied(Response(401, Msg(NoToken)))
    else
      match SecondField(header.value)
      case None => Denied(Response(401, Msg(TokenFailed)))
      case Some(t) =>
        match Verify(t)
        case None => Denied(Response(401, Msg(TokenFailed)))
        case Some(id) =>
          match FindById(users, id)
          case None => Denied(Response(401, Msg(UserNotFound)))
          case Some(u) => Authenticated(Safe(u))
  }

  /** A header carrying the token signed for `id` reaches the user lookup. */
  lemma CheckSignedToken(users: seq<User>, id: Id)
    ensures Check(Some("Bearer " + Sign(id)), users) ==
      match FindById(users, id)
      case Some(u) => Authenticated(Safe(u))
      case None => Denied(Response(401, Msg(UserNotFound)))
  {
    var h := "Bearer " + Sign(id);
    assert h == "Bearer" + [' '] + Sign(id);
    SecondFieldOf("Bearer", Sign(id));
    VerifyIffSigned(Sign(id), id);
    assert StartsWith(h, "Bearer");
  }

  /** A bearer token that verifies to no id is refused as a failed token. */
  lemma CheckForeignToken(users: seq<User>, t: string)
    requires ' ' !in t && Verify(t).None?
    ensures Check(Some("Bearer " + t), users) == Denied(Response(401, Msg(TokenFailed)))
  {
    var h := "Bearer " + t;
    assert h == "Bearer" + [' '] + t;
    SecondFieldOf("Bearer", t);
    assert StartsWith(h, "Bearer");
  }

  /** The request object; `protect` sets its `user` field. */
  class Request {
    var user: Option<SafeUser>

    constructor ()
      ensures user.None?
    {
      user := None;
    }
  }

  /**
   * `protect(req, res, next)`: `None` means `next()` was called. The lookup
   * result is assigned to `req.user` before it is tested, so a token for a
   * vanished user leaves `req.user` null.
   */
  method Protect(req: Request, header: Option<string>, users: seq<User>) returns (denied: Option<Response>)
    modifies req
    ensures denied.None? <==> Check(header, users).Authenticated?
    ensures denied.None? ==> req.user == Some(Check(header, users).user)
    ensures denied.Some? ==> denied.value == Check(header, users).response
    ensures Check(header, users) == Denied(Response(401, Msg(UserNotFound))) ==> req.user.None?
    ensures denied.Some? && Check(header, users) != Denied(Response(401, Msg(UserNotFound))) ==>
              req.user == old(req.user)
  {
    if !BearerHeader(header) {
      return Some(Response(401, Msg(NoToken)));
    }
    var token := SecondField(header.value);
    if token.None? {
      return Some(Response(401, Msg(TokenFailed)));
    }
    var decoded := Verify(token.value);
    if decoded.None? {
      return Some(Response(401, Msg(TokenFailed)));
    }
    var found := FindById(users, decoded.value);
    req.user := if found.Some? then Some(Safe(found.value)) else None;
    if found.None? {
      return Some(Response(401, Msg(UserNotFound)));
    }
    denied := None;
  }

  function RoleDenied(role: Role): string
  {
    "User role '" + RoleName(role) + "' is not authorized to access this route"
  }

  /** `authorize(...roles)`: `None` means `next()` was called. */
  function Authorize(roles: seq<Role>, user: SafeUser): (r: Option<Response>)
    ensures r.None? <==> user.role in roles
    ensures r.Some? ==> r.value == Response(403, Msg(RoleDenied(user.role)))
  {
    if user.role in roles then None else Some(Response(403, Msg(RoleDenied(user.role))))
  }
}
