/**
 * The client's session store: the signed-in user, the token, and the two
 * flags the route guards read. Each action updates the store and the
 * token kept in the browser's storage; storage is modelled as the ghost
 * field `stored`, and every server call as the reply it produced.
 */
module AuthStore {
  import opened Wrappers
  import opened Ids
  import opened UserModel
  import opened Http

  const RegistrationFailed: string := "Registration failed"
  const LoginFailed: string := "Login failed"

  /** The user object the client keeps; the role is the string the server sent. */
  datatype Account = Account(id: Id, name: string, email: string, role: string)

  /** The `user` of a login or registration reply. */
  function FromPublic(p: PublicUser): (a: Account)
    ensures a.id == p.id && a.name == p.name && a.email == p.email
    ensures ParseRole(a.role) == Some(p.role)
  {
    Account(p.id, p.name, p.email, RoleName(p.role))
  }

  /** The body of a `GET /auth/me` reply, of which the client reads the same four fields. */
  function FromSafe(s: SafeUser): (a: Account)
    ensures a.id == s.id && a.name == s.name && a.email == s.email
    ensures ParseRole(a.role) == Some(s.role)
  {
    FromPublic(PublicUser(s.id, s.name, s.email, s.role))
  }

  /** `{ token, user }` of a successful login or registration. */
  datatype Grant = Grant(token: string, user: Account)

  /** A server call as the store sees it: the reply's data, or `error.response?.data?.msg`. */
  type Reply<T> = Result<T, Option<string>>

  /** `error.response?.data?.msg` of an error reply: only a `{ msg }` body has one. */
  function ServerMsg(b: Body): (m: Option<string>)
    ensures m.Some? <==> b.Msg?
    ensures b.Msg? ==> m == Some(b.text)
  {
    if b.Msg? then Some(b.text) else None
  }

  /** The message of the error an action rethrows: the server's `msg` if truthy, else `fallback`. */
  function ErrorMessage(msg: Option<string>, fallback: string): (r: string)
    ensures fallback != "" ==> r != ""
    ensures Present(msg) ==> r == msg.value
    ensures !Present(msg) ==> r == fallback
  {
    if Present(msg) then msg.value else fallback
  }

  /**
   * An incomplete registration is answered under the misspelt key
   * `messsage`, so the client shows its generic failure instead.
   */
  lemma IncompleteRegistrationHidden(text: string)
    ensures ErrorMessage(ServerMsg(Messsage(text)), RegistrationFailed) == RegistrationFailed
  {
  }

  /** `x || null` for a value read from storage. */
  function Truthy(o: Option<string>): (r: Option<string>)
    ensures r.Some? <==> Present(o)
    ensures r.Some? ==> r == o
  {
    if Present(o) then o else None
  }

  /** What the route guards read from the store. */
  datatype Snapshot = Snapshot(user: Option<Account>, isAuthenticated: bool, isLoading: bool)

  /** The view of a store whose last action completed: not loading, and signed in exactly when a user is held. */
  predicate SettledView(v: Snapshot)
  {
    !v.isLoading && (v.isAuthenticated <==> v.user.Some?)
  }

  class Session {
    var user: Option<Account>
    var token: Option<string>
    var isAuthenticated: bool
    var isLoading: bool
    /** The `token` entry of the browser's storage. */
    ghost var stored: Option<string>

    /**
     * Holds from creation on: the flag mirrors the token, the token is
     * the truthy stored value, and a user is only kept while signed in.
     */
    ghost predicate Consistent()
      reads this
    {
      && (isAuthenticated <==> token.Some?)
      && (token.Some? ==> token.value != "")
      && Truthy(stored) == token
      && (user.Some? ==> isAuthenticated)
    }

    /** After an action completes: consistent, with a settled view. */
    ghost predicate Settled()
      reads this
    {
      Consistent() && SettledView(View())
    }

    function View(): (v: Snapshot)
      reads this
      ensures v.user == user && v.isAuthenticated == isAuthenticated && v.isLoading == isLoading
    {
      Snapshot(user, isAuthenticated, isLoading)
    }

    /** The store as created, with `initial` read from storage. */
    constructor (initial: Option<string>)
      ensures stored == initial
      ensures token == Truthy(initial)
      ensures isAuthenticated == Present(initial)
      ensures user.None? && isLoading
      ensures Consistent()
    {
      user := None;
      token := Truthy(initial);
      isAuthenticated := Present(initial);
      isLoading := true;
      stored := initial;
    }

    /** Signed out, in the store and in storage. */
    method Clear()
      modifies this
      ensures token.None? && user.None? && !isAuthenticated && !isLoading
      ensures stored.None?
      ensures Settled()
    {
      stored := None;
      token := None;
      user := None;
      isAuthenticated := false;
      isLoading := false;
    }

    /**
     * `loadUser`: without a token it settles signed out without calling
     * the server; otherwise `me` is the reply to `GET /auth/me`.
     */
    method LoadUser(me: Reply<Account>)
      modifies this
      ensures !Present(old(token)) ==>
        && !isLoading && !isAuthenticated && user.None?
        && token == old(token) && stored == old(stored)
      ensures Present(old(token)) && me.Ok? ==>
        && isAuthenticated && user == Some(me.value) && !isLoading
        && token == old(token) && stored == old(stored)
      ensures Present(old(token)) && me.Err? ==>
        && token.None? && user.None? && !isAuthenticated && !isLoading
        && stored.None?
      ensures old(Consistent()) ==> Settled()
    {
      if !Present(token) {
        isLoading := false;
        isAuthenticated := false;
        user := None;
        return;
      }
      match me
      case Ok(account) =>
        isAuthenticated := true;
        user := Some(account);
        isLoading := false;
      case Err(_) =>
        Clear();
    }

    /** The shared body of `register` and `login`: `thrown` is the error rethrown, if any. */
    method SignIn(reply: Reply<Grant>, fallback: string) returns (thrown: Option<string>)
      modifies this
      ensures reply.Ok? ==>
        && thrown.None?
        && stored == Some(reply.value.token) && token == Some(reply.value.token)
        && isAuthenticated && user == Some(reply.value.user) && !isLoading
      ensures reply.Err? ==>
        && thrown == Some(ErrorMessage(reply.error, fallback))
        && stored.None? && token.None? && user.None? && !isAuthenticated && !isLoading
      ensures (reply.Ok? ==> reply.value.token != "") ==> Settled()
    {
      match reply
      case Ok(g) =>
        stored := Some(g.token);
        isAuthenticated := true;
        user := Some(g.user);
        token := Some(g.token);
        isLoading := false;
        thrown := None;
      case Err(msg) =>
        Clear();
        thrown := Some(ErrorMessage(msg, fallback));
    }

    /** `register`: `reply` is the answer to `POST /auth/register`. */
    method Register(reply: Reply<Grant>) returns (thrown: Option<string>)
      modifies this
      ensures reply.Ok? ==>
        && thrown.None?
        && stored == Some(reply.value.token) && token == Some(reply.value.token)
        && isAuthenticated && user == Some(reply.value.user) && !isLoading
      ensures reply.Err? ==>
        && thrown == Some(ErrorMessage(reply.error, RegistrationFailed))
        && stored.None? && token.None? && user.None? && !isAuthenticated && !isLoading
      ensures (reply.Ok? ==> reply.value.token != "") ==> Settled()
    {
      thrown := SignIn(reply, RegistrationFailed);
    }

    /** `login`: `reply` is the answer to `POST /auth/login`. */
    method Login(reply: Reply<Grant>) returns (thrown: Option<string>)
      modifies this
      ensures reply.Ok? ==>
        && thrown.None?
        && stored == Some(reply.value.token) && token == Some(reply.value.token)
        && isAuthenticated && user == Some(reply.value.user) && !isLoading
      ensures reply.Err? ==>
        && thrown == Some(ErrorMessage(reply.error, LoginFailed))
        && stored.None? && token.None? && user.None? && !isAuthenticated && !isLoading
      ensures (reply.Ok? ==> reply.value.token != "") ==> Settled()
    {
      thrown := SignIn(reply, LoginFailed);
    }

    /** `logout`. */
    method Logout()
      modifies this
      ensures token.None? && user.None? && !isAuthenticated && !isLoading
      ensures stored.None?
      ensures Settled()
    {
      Clear();
    }
  }

  /**
   * Startup is the store created from storage followed by `loadUser`:
   * whatever the reply, it ends settled.
   */
  method Startup(initial: Option<string>, me: Reply<Account>) returns (s: Session)
    ensures fresh(s)
    ensures s.Settled()
    ensures Present(initial) && me.Ok? ==> s.user == Some(me.value) && s.token == Some(initial.value)
    ensures !(Present(initial) && me.Ok?) ==> s.user.None? && s.token.None?
  {
    s := new Session(initial);
    s.LoadUser(me);
  }
}
