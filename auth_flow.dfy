/**
 * The sign-in and sign-up round trips: the reply of app/api/auth/login and
 * app/api/auth/signup as contexts/AuthContext.tsx receives it. An ok reply's
 * `user` field is the route's body, and an error reply's `error` field is
 * the route's message.
 */
module AuthFlow {
  import opened Js
  import opened Api
  import A = AuthContext
  import L = LoginRoute
  import S = SignupRoute

  /** The JSON a route sends, as the client reads it: `{ user }` or `{ error }`. */
  function ReplyOf(response: Response<User>): (r: A.Reply)
    ensures response.Success? <==> r.Ok?
    ensures response.Success? ==> r.user == Some(response.body)
    ensures response.Failure? ==> r.NotOk? && r.error == Some(response.error)
  {
    match response
    case Success(user) => A.Ok(Some(user))
    case Failure(_, error) => A.NotOk(Some(error))
  }

  /**
   * The client cannot tell an unknown email from a wrong password: both
   * come back as the same failed result with "Invalid email or password",
   * and leave the signed-in user as it was.
   */
  lemma LoginParityAtClient(email: Option<string>, password: Option<string>, user: User,
                            unknown: L.LoginServices, wrongPassword: L.LoginServices, before: Option<User>)
    requires !Falsy(email) && !Falsy(password)
    requires unknown.user == Returned(None)
    requires wrongPassword.user == Returned(Some(user)) && wrongPassword.verified == Returned(false)
    ensures var a := ReplyOf(L.Login(L.LoginBody(email, password), unknown).response);
            var b := ReplyOf(L.Login(L.LoginBody(email, password), wrongPassword).response);
            && A.Result(a, A.LoginFailed, A.LoginRetry) == A.Result(b, A.LoginFailed, A.LoginRetry)
            && A.Result(a, A.LoginFailed, A.LoginRetry) == A.AuthResult(false, Some(L.InvalidCredentialsMessage))
            && A.UserAfter(a, before) == before && A.UserAfter(b, before) == before
  {
    L.LoginErrorParity(email, password, user, unknown, wrongPassword);
  }

  /**
   * A successful sign-in signs the client in as the route's user, without
   * the password hash; any failure keeps the previous user.
   */
  lemma LoginSignsIn(request: L.LoginRequest, services: L.LoginServices, before: Option<User>)
    ensures var r := L.Login(request, services).response;
            var u := A.UserAfter(ReplyOf(r), before);
            && (r.Success? ==> u == Some(WithoutPasswordHash(services.user.value.value))
                               && PasswordHashKey !in u.value.metadata)
            && (r.Failure? ==> u == before)
            && (A.Result(ReplyOf(r), A.LoginFailed, A.LoginRetry).success <==> r.Success?)
  {
    L.LoginEffectsFollowVerification(request, services);
  }

  /**
   * A successful sign-up signs the client in as the created user, without
   * the password hash; a refused sign-up shows the route's own message.
   */
  lemma SignupSignsIn(request: S.SignupRequest, services: S.SignupServices, before: Option<User>)
    ensures var r := S.Signup(request, services).response;
            var u := A.UserAfter(ReplyOf(r), before);
            && (r.Success? ==> u == Some(WithoutPasswordHash(services.created.value))
                               && PasswordHashKey !in u.value.metadata)
            && (r.Failure? ==> u == before
                               && A.Result(ReplyOf(r), A.SignupFailed, A.SignupRetry) == A.AuthResult(false, Some(r.error)))
  {
    S.SignupSuccess(request, services);
    if S.Signup(request, services).response.Failure? {
      SignupMessagesNonEmpty(request, services);
    }
  }

  /** Every failure message of the sign-up route is non-empty, so the client shows it as sent. */
  lemma SignupMessagesNonEmpty(request: S.SignupRequest, services: S.SignupServices)
    ensures S.Signup(request, services).response.Failure? ==> S.Signup(request, services).response.error != ""
  {
  }
}
