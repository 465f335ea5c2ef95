/**
 * The client's axios instance: a request interceptor copies the stored
 * token into the `Authorization` header of every outgoing request.
 */
module ApiClient {
  import opened Wrappers
  import opened Ids
  import opened Text
  import opened Token
  import opened UserModel
  import opened Http
  import opened AuthMiddleware

  const AuthorizationKey: string := "Authorization"

  /** The header value the interceptor builds for `token`. */
  function Bearer(token: string): string
  {
    "Bearer " + token
  }

  /** The `Authorization` header as the server receives it, if the request carries one. */
  function AuthorizationOf(headers: map<string, string>): Option<string>
  {
    if AuthorizationKey in headers then Some(headers[AuthorizationKey]) else None
  }

  /**
   * The headers after the interceptor ran with `stored` read from storage:
   * a truthy token sets `Authorization`, anything else leaves them alone.
   */
  function Attach(headers: map<string, string>, stored: Option<string>): (r: map<string, string>)
    ensures Present(stored) ==> AuthorizationOf(r) == Some(Bearer(stored.value))
    ensures !Present(stored) ==> r == headers
    ensures forall k :: k in headers && k != AuthorizationKey ==> k in r && r[k] == headers[k]
    ensures forall k :: k in r && k != AuthorizationKey ==> k in headers
  {
    if Present(stored) then headers[AuthorizationKey := Bearer(stored.value)] else headers
  }

  /** The parts of an axios request config the interceptor can see. */
  class RequestConfig {
    var url: string
    var verb: string
    var headers: map<string, string>

    /** `axios.create` sends JSON by default. */
    constructor (url: string, verb: string)
      ensures this.url == url && this.verb == verb
      ensures headers == map["Content-Type" := "application/json"]
    {
      this.url := url;
      this.verb := verb;
      headers := map["Content-Type" := "application/json"];
    }
  }

  /** The request interceptor: updates `config.headers` in place and hands back the same config. */
  method Intercept(config: RequestConfig, stored: Option<string>) returns (out: RequestConfig)
    modifies config
    ensures out == config
    ensures config.headers == Attach(old(config.headers), stored)
    ensures config.url == old(config.url) && config.verb == old(config.verb)
  {
    if Present(stored) {
      config.headers := config.headers[AuthorizationKey := Bearer(stored.value)];
    }
    out := config;
  }

  /**
   * What the interceptor writes, `protect` reads back: a token without
   * spaces passes the "Bearer" test and is the header's second field.
   */
  lemma BearerRoundTrip(headers: map<string, string>, token: string)
    requires token != "" && ' ' !in token
    ensures BearerHeader(AuthorizationOf(Attach(headers, Some(token))))
    ensures SecondField(AuthorizationOf(Attach(headers, Some(token))).value) == Some(token)
  {
    var h := Bearer(token);
    assert h == "Bearer" + [' '] + token;
    assert StartsWith(h, "Bearer");
    SecondFieldOf("Bearer", token);
  }

  /** A request sent with the token issued for `id` is authenticated as that stored user. */
  lemma SignedTokenAuthenticates(headers: map<string, string>, users: seq<User>, id: Id)
    ensures Check(AuthorizationOf(Attach(headers, Some(Sign(id)))), users) ==
      match FindById(users, id)
      case Some(u) => Authenticated(Safe(u))
      case None => Denied(Response(401, Msg(UserNotFound)))
  {
    assert Present(Some(Sign(id)));
    CheckSignedToken(users, id);
  }

  /** With nothing stored, a request that had no `Authorization` header is refused by `protect`. */
  lemma NoTokenNoHeader(headers: map<string, string>, users: seq<User>, stored: Option<string>)
    requires !Present(stored) && AuthorizationKey !in headers
    ensures Check(AuthorizationOf(Attach(headers, stored)), users) == Denied(Response(401, Msg(NoToken)))
  {
  }
}
