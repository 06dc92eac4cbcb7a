/**
 * The session held by the authentication context: the profile, the two flags the views
 * read, and the bearer token persisted under the storage key `token`.
 */
module Auth {
  import opened Wrappers
  import opened Types

  /** The body of a successful login exchange: the backend session token and the profile. */
  datatype LoginReply = LoginReply(token: string, user: User)

  class AuthProvider {
    var user: Option<User>
    var isLoading: bool
    var isAuthenticated: bool
    /** The value stored under the `token` key, `None` when the key is absent. */
    var token: Option<string>

    /** An authenticated session always has a token in storage. */
    ghost predicate Valid()
      reads this
    {
      isAuthenticated ==> token.Some?
    }

    /** The provider as it mounts: no profile, loading, not authenticated, over whatever the
        storage already holds. */
    constructor (storedToken: Option<string>)
      ensures user == None && isLoading && !isAuthenticated && token == storedToken
      ensures Valid()
    {
      user := None;
      isLoading := true;
      isAuthenticated := false;
      token := storedToken;
    }

    /**
     * The mount-time check. A verify request is sent, carrying the stored token, only when the
     * stored token is truthy; `verify` is how that request ends. A body that fails to decode is
     * a `Threw` outcome.
     */
    method CheckAuth(verify: FetchResult<User>) returns (sent: Option<string>)
      modifies this
      ensures sent == (if Truthy(old(token)) then old(token) else None)
      ensures !isLoading
      ensures sent.None? ==>
        user == old(user) && isAuthenticated == old(isAuthenticated) && token == old(token)
      ensures sent.Some? && verify.Ok? ==>
        user == Some(verify.body) && isAuthenticated && token == old(token)
      ensures sent.Some? && verify.NotOk? ==>
        token == None && user == old(user) && isAuthenticated == old(isAuthenticated)
      ensures sent.Some? && verify.Threw? ==>
        token == old(token) && user == old(user) && isAuthenticated == old(isAuthenticated)
      ensures !old(isAuthenticated) ==> Valid()
    {
      sent := None;
      if Truthy(token) {
        sent := token;
        match verify
        case Ok(body) =>
          user := Some(body);
          isAuthenticated := true;
        case NotOk(_) =>
          token := None;
        case Threw(_) =>
      }
      isLoading := false;
    }

    /**
     * Exchanges an identity-provider credential for a session: the POST body carries the
     * credential and nothing else, and `exchange` is how the POST ends. On failure the error
     * carries the server's message (or the thrown error's) and the session is left as it was.
     */
    method GoogleLogin(credential: string, exchange: FetchResult<LoginReply>)
      returns (sent: string, result: Outcome<string>)
      modifies this
      ensures sent == credential
      ensures !isLoading
      ensures exchange.Ok? || old(Valid()) ==> Valid()
      ensures exchange.Ok? ==>
        result == Pass && token == Some(exchange.body.token) &&
        user == Some(exchange.body.user) && isAuthenticated
      ensures exchange.NotOk? ==> result == Fail(exchange.message)
      ensures exchange.Threw? ==> result == Fail(exchange.reason)
      ensures !exchange.Ok? ==>
        token == old(token) && user == old(user) && isAuthenticated == old(isAuthenticated)
    {
      isLoading := true;
      sent := credential;
      match exchange {
        case Ok(reply) =>
          token := Some(reply.token);
          user := Some(reply.user);
          isAuthenticated := true;
          result := Pass;
        case NotOk(message) =>
          result := Fail(message);
        case Threw(reason) =>
          result := Fail(reason);
      }
      isLoading := false;
    }

    /** Ends the session locally: no token, no profile, not authenticated. */
    method Logout()
      modifies this
      ensures token == None && user == None && !isAuthenticated && !isLoading
      ensures Valid()
    {
      isLoading := true;
      token := None;
      user := None;
      isAuthenticated := false;
      isLoading := false;
    }

    /** The context's `setUser`: replaces the profile and nothing else. */
    method SetUser(u: Option<User>)
      modifies this`user
      ensures user == u
    {
      user := u;
    }
  }

  /** A reload after logout finds no token, so it ends unauthenticated without any request. */
  method ReloadAfterLogout(session: AuthProvider, verify: FetchResult<User>)
    returns (reloaded: AuthProvider, sent: Option<string>)
    modifies session
    ensures sent == None
    ensures reloaded.user == None && !reloaded.isAuthenticated && !reloaded.isLoading
  {
    session.Logout();
    reloaded := new AuthProvider(session.token);
    sent := reloaded.CheckAuth(verify);
  }
}
