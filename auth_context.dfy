/**
 * contexts/AuthContext.tsx: the signed-in user as the browser sees it. The
 * provider holds `user` and `isLoading`; `refreshSession` asks the server
 * who is signed in, `login` and `signup` post credentials and adopt the user
 * the server returns, and `logout` forgets the user once its request
 * resolves. Each server exchange is a parameter: what the awaited `fetch`
 * and `response.json()` produced, or that one of them threw.
 */
module AuthContext {
  import opened Js
  import opened Api

  const LoginFailed: string := "Login failed"
  const LoginRetry: string := "Login failed. Please try again."
  const SignupFailed: string := "Signup failed"
  const SignupRetry: string := "Signup failed. Please try again."

  /**
   * A JSON exchange: an ok response and its `user` field (`None` for null
   * or absent), a non-ok response and its `error` field, or an exception
   * from `fetch` or `response.json()`.
   */
  datatype Reply = Ok(user: Option<User>) | NotOk(error: Option<string>) | Threw

  /** What `logout`'s `fetch` did: resolved (with any status) or threw. */
  datatype LogoutReply = Resolved | Rejected

  /** `AuthResult`: `{ success }` or `{ success: false, error }`. */
  datatype AuthResult = AuthResult(success: bool, error: Option<string>)

  /** The user after a session refresh: the server's user if the reply is ok, otherwise none. */
  function SessionUser(reply: Reply): (u: Option<User>)
    ensures reply.Ok? ==> u == reply.user
    ensures !reply.Ok? ==> u == None
  {
    if reply.Ok? then reply.user else None
  }

  /**
   * The result `login` or `signup` returns: success exactly for an ok
   * reply; otherwise the server's non-empty `error`, else `notOkDefault`
   * for a non-ok reply or `threwMessage` after an exception.
   */
  function Result(reply: Reply, notOkDefault: string, threwMessage: string): (r: AuthResult)
    requires notOkDefault != "" && threwMessage != ""
    ensures r.success <==> reply.Ok?
    ensures r.success ==> r.error == None
    ensures !r.success ==> r.error.Some? && r.error.value != ""
    ensures reply.NotOk? && !Falsy(reply.error) ==> r.error == reply.error
    ensures reply.NotOk? && Falsy(reply.error) ==> r.error == Some(notOkDefault)
    ensures reply.Threw? ==> r.error == Some(threwMessage)
  {
    match reply
    case Ok(_) => AuthResult(true, None)
    case NotOk(error) => AuthResult(false, Some(StrOr(error, notOkDefault)))
    case Threw => AuthResult(false, Some(threwMessage))
  }

  /** The user after `login` or `signup`: the server's user on success, else unchanged. */
  function UserAfter(reply: Reply, before: Option<User>): (u: Option<User>)
    ensures reply.Ok? ==> u == reply.user
    ensures !reply.Ok? ==> u == before
  {
    if reply.Ok? then reply.user else before
  }

  /**
   * The user after `logout` as written: cleared once the request resolves,
   * kept when it throws, since `setUser(null)` follows the awaited `fetch`.
   */
  function UserAfterLogout(reply: LogoutReply, before: Option<User>): (u: Option<User>)
    ensures reply.Resolved? ==> u == None
    ensures reply.Rejected? ==> u == before
  {
    if reply.Resolved? then None else before
  }

  /** A signed-in user whose logout request throws stays signed in. */
  lemma LogoutFailureKeepsUser(u: User)
    ensures UserAfterLogout(Rejected, Some(u)) == Some(u) != None
  {
  }

  class AuthProvider {
    var user: Option<User>
    var isLoading: bool

    /** Nobody is signed in yet and the first refresh is pending. */
    constructor()
      ensures user == None && isLoading
    {
      user := None;
      isLoading := true;
    }

    /** `refreshSession`: loading while the request runs, settled afterwards whatever happened. */
    method RefreshSession(reply: Reply)
      modifies this
      ensures !isLoading
      ensures user == SessionUser(reply)
    {
      isLoading := true;
      match reply {
        case Ok(u) => user := u;
        case NotOk(_) => user := None;
        case Threw => user := None;
      }
      isLoading := false;
    }

    /** `refreshUser` is the same function as `refreshSession`. */
    method RefreshUser(reply: Reply)
      modifies this
      ensures !isLoading
      ensures user == SessionUser(reply)
    {
      RefreshSession(reply);
    }

    /** `login`: posts `{ email, password }`; `isLoading` is never touched. */
    method Login(email: string, password: string, reply: Reply) returns (result: AuthResult)
      modifies this
      ensures result == Result(reply, LoginFailed, LoginRetry)
      ensures user == UserAfter(reply, old(user))
      ensures isLoading == old(isLoading)
    {
      if reply.NotOk? {
        return AuthResult(false, Some(StrOr(reply.error, LoginFailed)));
      } else if reply.Threw? {
        return AuthResult(false, Some(LoginRetry));
      }
      user := reply.user;
      result := AuthResult(true, None);
    }

    /** `signup`: posts `{ name, email, password }`, with the signup messages. */
    method Signup(name: string, email: string, password: string, reply: Reply) returns (result: AuthResult)
      modifies this
      ensures result == Result(reply, SignupFailed, SignupRetry)
      ensures user == UserAfter(reply, old(user))
      ensures isLoading == old(isLoading)
    {
      if reply.NotOk? {
        return AuthResult(false, Some(StrOr(reply.error, SignupFailed)));
      } else if reply.Threw? {
        return AuthResult(false, Some(SignupRetry));
      }
      user := reply.user;
      result := AuthResult(true, None);
    }

    /**
     * `logout`: the user is forgotten only once the request resolves; if it
     * throws, the exception propagates and the user stays signed in.
     */
    method Logout(reply: LogoutReply)
      modifies this
      ensures user == UserAfterLogout(reply, old(user))
      ensures reply.Resolved? ==> user == None
      ensures reply.Rejected? ==> user == old(user)
      ensures isLoading == old(isLoading)
    {
      if reply.Resolved? {
        user := None;
      }
    }

    /**
     * `logout` as intended: the user is signed out locally whether or not
     * the request to the server succeeds.
     */
    method LogoutIntended(reply: LogoutReply)
      modifies this
      ensures user == None
      ensures isLoading == old(isLoading)
    {
      user := None;
    }
  }
}
