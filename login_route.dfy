/**
 * app/api/auth/login/route.ts: sign-in. Both fields must be present; an
 * unknown email and a wrong password get the same 401 reply, so the reply
 * does not reveal which accounts exist; only after the password verifies is
 * the last-login time updated and a session started. The lookup, password
 * check, last-login update, token and cookie calls are parameters.
 */
module LoginRoute {
  import opened Js
  import opened Api

  const RequiredMessage: string := "Email and password are required"
  const InvalidCredentialsMessage: string := "Invalid email or password"
  const LoginFailedMessage: string := "Login failed"

  /** The parsed body `{ email, password }`, or a body that is not JSON. */
  datatype LoginRequest = Malformed | LoginBody(email: Option<string>, password: Option<string>)

  /** The outcomes of the calls the route awaits, in order. */
  datatype LoginServices = LoginServices(
    user: Call<Option<User>>,  // getUserByEmail(email)
    verified: Call<bool>,      // verifyPassword(password, user.metadata.password_hash)
    lastLogin: Call<()>,       // updateLastLogin(user.id)
    token: Call<string>,       // createToken(user)
    session: Call<()>)         // setSession(token)

  /**
   * The reply, the user whose last-login time the route asked to update (if
   * it got that far), and the session token it stored (if that call returned).
   */
  datatype LoginOutcome = LoginOutcome(response: Response<User>, lastLoginUpdated: Option<string>, session: Option<string>)

  function Reject(status: int, message: string): LoginOutcome {
    LoginOutcome(Failure(status, message), None, None)
  }

  /** The `POST` handler. */
  function Login(request: LoginRequest, services: LoginServices): (r: LoginOutcome)
    ensures r.session.Some? <==> r.response.Success?
    ensures r.response.Success? ==> r.lastLoginUpdated.Some?
  {
    match request
    case Malformed => Reject(500, LoginFailedMessage)
    case LoginBody(email, password) =>
      if Falsy(email) || Falsy(password) then Reject(400, RequiredMessage)
      else
        match services.user
        case Threw => Reject(500, LoginFailedMessage)
        case Returned(None) => Reject(401, InvalidCredentialsMessage)
        case Returned(Some(user)) =>
          match services.verified
          case Threw => Reject(500, LoginFailedMessage)
          case Returned(false) => Reject(401, InvalidCredentialsMessage)
          case Returned(true) =>
            match services.lastLogin
            case Threw => Reject(500, LoginFailedMessage)
            case Returned(_) =>
              var updated := Some(user.id);
              match services.token
              case Threw => LoginOutcome(Failure(500, LoginFailedMessage), updated, None)
              case Returned(token) =>
                match services.session
                case Threw => LoginOutcome(Failure(500, LoginFailedMessage), updated, None)
                case Returned(_) => LoginOutcome(Success(WithoutPasswordHash(user)), updated, Some(token))
  }

  /** Missing or empty fields are refused before any lookup. */
  lemma LoginRequiresFields(email: Option<string>, password: Option<string>, services: LoginServices)
    ensures var r := Login(LoginBody(email, password), services);
            (Falsy(email) || Falsy(password)) <==> r.response == Failure(400, RequiredMessage)
  {
  }

  /**
   * Error parity: for the same request, an unknown email and a known email
   * with a wrong password produce the same outcome — the same 401 reply and
   * no update, no session — whatever the other calls would have returned.
   */
  lemma LoginErrorParity(email: Option<string>, password: Option<string>, user: User,
                         unknown: LoginServices, wrongPassword: LoginServices)
    requires !Falsy(email) && !Falsy(password)
    requires unknown.user == Returned(None)
    requires wrongPassword.user == Returned(Some(user)) && wrongPassword.verified == Returned(false)
    ensures Login(LoginBody(email, password), unknown) == Login(LoginBody(email, password), wrongPassword)
    ensures Login(LoginBody(email, password), unknown).response == Failure(401, InvalidCredentialsMessage)
  {
  }

  /**
   * The last-login update and the session happen only for an existing user
   * whose password verified, the update names that user, and a successful
   * reply is that user without the password hash.
   */
  lemma LoginEffectsFollowVerification(request: LoginRequest, services: LoginServices)
    ensures var r := Login(request, services);
            r.lastLoginUpdated.Some? || r.session.Some? || r.response.Success? ==>
              && request.LoginBody? && !Falsy(request.email) && !Falsy(request.password)
              && services.user.Returned? && services.user.value.Some?
              && services.verified == Returned(true)
              && r.lastLoginUpdated == Some(services.user.value.value.id)
    ensures var r := Login(request, services);
            r.response.Success? <==> r.session.Some?
    ensures var r := Login(request, services);
            r.response.Success? ==>
              && r.response.body == WithoutPasswordHash(services.user.value.value)
              && PasswordHashKey !in r.response.body.metadata
  {
  }

  /** Every failure is one of the three replies, and an exception anywhere yields 500 "Login failed". */
  lemma LoginFailures(request: LoginRequest, services: LoginServices)
    ensures var r := Login(request, services).response;
            r.Failure? ==>
              || r == Failure(400, RequiredMessage)
              || r == Failure(401, InvalidCredentialsMessage)
              || r == Failure(500, LoginFailedMessage)
    ensures request.Malformed? ==> Login(request, services).response == Failure(500, LoginFailedMessage)
  {
  }
}
