/**
 * The session provider: whether the console is authenticated, whether the
 * initial cookie check is still pending, the signed-in user, and the token
 * cookie it reads and writes.
 */
module Auth {
  import opened Js

  /** What the provider hands to its consumers. */
  datatype AuthValue = AuthValue(isAuthenticated: bool, loading: bool, user: Value)

  datatype Result<+T> = Success(value: T) | Failure(error: string)

  /** useAuth: the provider's value, or the error thrown outside a provider. */
  function UseAuth(context: Option<AuthValue>): (r: Result<AuthValue>)
    ensures r.Failure? <==> context.None?
    ensures r.Success? ==> r.value == context.value
    ensures r.Failure? ==> r.error == "useAuth must be used within an AuthProvider"
  {
    if context.None? then Failure("useAuth must be used within an AuthProvider") else Success(context.value)
  }

  class AuthProvider {
    var isAuthenticated: bool
    var loading: bool
    var user: Value
    /** The `token` cookie; None when it is not set. */
    var token: Option<string>

    /** Mounting: not authenticated, still loading, no user; the cookie is whatever the browser holds. */
    constructor (cookie: Option<string>)
      ensures !isAuthenticated && loading && user == Null && token == cookie
    {
      isAuthenticated := false;
      loading := true;
      user := Null;
      token := cookie;
    }

    function Current(): AuthValue
      reads this
    {
      AuthValue(isAuthenticated, loading, user)
    }

    /**
     * checkAuth: a non-empty token cookie marks the session authenticated
     * without any server check; the user stays as it was; loading ends.
     */
    method CheckAuth()
      modifies this
      ensures isAuthenticated == ((old(token).Some? && old(token).value != "") || old(isAuthenticated))
      ensures !loading
      ensures user == old(user) && token == old(token)
    {
      if token.Some? && Truthy(Str(token.value)) {
        isAuthenticated := true;
      }
      loading := false;
    }

    method Login(t: string, userData: Value)
      modifies this
      ensures token == Some(t) && isAuthenticated && user == userData
      ensures loading == old(loading)
    {
      token := Some(t);
      isAuthenticated := true;
      user := userData;
    }

    method Logout()
      modifies this
      ensures token == None && !isAuthenticated && user == Null
      ensures loading == old(loading)
    {
      token := None;
      isAuthenticated := false;
      user := Null;
    }
  }

  /** Mount followed by the cookie check: authenticated exactly when a non-empty token is set, with no user and loading over. */
  method Restore(cookie: Option<string>) returns (v: AuthValue)
    ensures v.isAuthenticated <==> cookie.Some? && cookie.value != ""
    ensures !v.loading && v.user == Null
  {
    var p := new AuthProvider(cookie);
    p.CheckAuth();
    v := p.Current();
  }
}
