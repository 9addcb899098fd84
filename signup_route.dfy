/**
 * app/api/auth/signup/route.ts: account creation. The request is checked in
 * a fixed order (fields present, email shape, password length, email not
 * yet registered) and the first failing check decides the reply; otherwise
 * the account is created, a session is started, and the new user is sent
 * back without its password hash. The user lookup, hashing, creation, token
 * and cookie calls are parameters, each a value or an exception.
 */
module SignupRoute {
  import opened Js
  import opened Api

  const MinPasswordLength: nat := 6

  const RequiredMessage: string := "Name, email, and password are required"
  const InvalidEmailMessage: string := "Invalid email format"
  const ShortPasswordMessage: string := "Password must be at least 6 characters"
  const DuplicateMessage: string := "Email already registered"
  const CreateFailedMessage: string := "Failed to create user account. Please try again."
  const SignupFailedMessage: string := "Signup failed. Please try again."

  // ---------------------------------------------------------------------------
  // The email pattern ^[^\s@]+@[^\s@]+\.[^\s@]+$
  // ---------------------------------------------------------------------------

  /** The class `[^\s@]`. */
  predicate Plain(c: char) {
    !IsWhitespace(c) && c != '@'
  }

  /** Every character of `s` at a position in `lo..hi` is in `[^\s@]`. */
  predicate PlainIn(s: string, lo: int, hi: int) {
    forall i :: lo <= i < hi && 0 <= i < |s| ==> Plain(s[i])
  }

  /**
   * The pattern read literally: one or more plain characters, '@', one or
   * more plain characters, '.', one or more plain characters, and nothing else.
   */
  ghost predicate MatchesEmailPattern(s: string) {
    exists at, dot :: EmailSplit(s, at, dot)
  }

  /** The pattern matched with its '@' at `at` and its last '.' group starting after `dot`. */
  predicate EmailSplit(s: string, at: int, dot: int) {
    && 0 < at && at + 1 < dot && dot + 1 < |s| && s[at] == '@' && s[dot] == '.'
    && PlainIn(s, 0, at) && PlainIn(s, at + 1, dot) && PlainIn(s, dot + 1, |s|)
  }

  /**
   * `emailRegex.test(email)`, decided directly: the text before the first
   * '@' is non-empty and plain, nothing after it is whitespace or another
   * '@', and the part after it has a '.' that is neither its first nor its
   * last character.
   */
  function IsValidEmail(s: string): bool {
    var at := FindIndex(s, IsChar('@'));
    && 0 < at
    && PlainIn(s, 0, at)
    && PlainIn(s, at + 1, |s|)
    && at + 3 < |s| + 1
    && FindIndex(s[at + 2..|s| - 1], IsChar('.')) != -1
  }

  /** The direct decision agrees with the pattern on every string. */
  lemma IsValidEmailMatchesPattern(s: string)
    ensures IsValidEmail(s) <==> MatchesEmailPattern(s)
  {
    if IsValidEmail(s) {
      ValidEmailMatches(s);
    }
    if MatchesEmailPattern(s) {
      PatternIsValidEmail(s);
    }
  }

  lemma ValidEmailMatches(s: string)
    requires IsValidEmail(s)
    ensures MatchesEmailPattern(s)
  {
    var at := FindIndex(s, IsChar('@'));
    var inner := s[at + 2..|s| - 1];
    var k := FindIndex(inner, IsChar('.'));
    var dot := at + 2 + k;
    assert s[dot] == '.' by {
      assert s[dot] == inner[k];
    }
    assert s[at] == '@';
    assert EmailSplit(s, at, dot);
  }

  lemma PatternIsValidEmail(s: string)
    requires MatchesEmailPattern(s)
    ensures IsValidEmail(s)
  {
    var at, dot :| EmailSplit(s, at, dot);
    FirstAt(s, at);
    assert Plain(s[dot]);
    var inner := s[at + 2..|s| - 1];
    assert inner[dot - (at + 2)] == s[dot];
    Found(inner, dot - (at + 2), '.');
  }

  /** A character that occurs makes `findIndex` succeed. */
  lemma Found(s: string, k: int, c: char)
    requires 0 <= k < |s| && s[k] == c
    ensures FindIndex(s, IsChar(c)) != -1
  {
    assert IsChar(c)(s[k]);
  }

  /** Before a run of plain characters, the first '@' is the one that ends it. */
  lemma FirstAt(s: string, at: int)
    requires 0 <= at < |s| && s[at] == '@' && PlainIn(s, 0, at)
    ensures FindIndex(s, IsChar('@')) == at
  {
    assert IsChar('@')(s[at]);
  }

  // ---------------------------------------------------------------------------
  // Password length
  // ---------------------------------------------------------------------------

  /** `password.length`: UTF-16 code units, two for a character beyond U+FFFF. */
  function Utf16Length(s: string): (n: nat)
    ensures n >= |s|
  {
    if s == [] then 0 else (if s[0] as int > 0xFFFF then 2 else 1) + Utf16Length(s[1..])
  }

  /** For text within the Basic Multilingual Plane, `length` counts characters. */
  lemma {:induction false} Utf16LengthOfBmp(s: string)
    requires forall i :: 0 <= i < |s| ==> s[i] as int <= 0xFFFF
    ensures Utf16Length(s) == |s|
  {
    if s != [] {
      Utf16LengthOfBmp(s[1..]);
    }
  }

  // ---------------------------------------------------------------------------
  // The route
  // ---------------------------------------------------------------------------

  /** The parsed body `{ name, email, password }`, or a body that is not JSON. */
  datatype SignupRequest = Malformed | SignupBody(name: Option<string>, email: Option<string>, password: Option<string>)

  /** The outcomes of the calls the route awaits, in order. */
  datatype SignupServices = SignupServices(
    existing: Call<Option<User>>,  // getUserByEmail(email)
    passwordHash: Call<string>,    // hashPassword(password)
    created: Call<User>,           // createUser(name, email, passwordHash)
    token: Call<string>,           // createToken(user)
    session: Call<()>)             // setSession(token)

  /** The arguments `createUser` is called with. */
  datatype NewAccount = NewAccount(name: string, email: string, passwordHash: string)

  /**
   * The reply, the account creation the route asked for (if it got that
   * far), and the session token it stored (if that call returned).
   */
  datatype SignupOutcome = SignupOutcome(response: Response<User>, createRequested: Option<NewAccount>, session: Option<string>)

  function Reject(status: int, message: string): SignupOutcome {
    SignupOutcome(Failure(status, message), None, None)
  }

  predicate FieldsPresent(request: SignupRequest) {
    request.SignupBody? && !Falsy(request.name) && !Falsy(request.email) && !Falsy(request.password)
  }

  /** The `POST` handler. */
  function Signup(request: SignupRequest, services: SignupServices): (r: SignupOutcome)
    ensures r.response.Failure? ==> r.response.status in {400, 409, 500}
    ensures r.session.Some? <==> r.response.Success?
    ensures r.response.Success? ==> r.createRequested.Some?
  {
    match request
    case Malformed => Reject(500, SignupFailedMessage)
    case SignupBody(name, email, password) =>
      if Falsy(name) || Falsy(email) || Falsy(password) then Reject(400, RequiredMessage)
      else if !IsValidEmail(email.value) then Reject(400, InvalidEmailMessage)
      else if Utf16Length(password.value) < MinPasswordLength then Reject(400, ShortPasswordMessage)
      else
        match services.existing
        case Threw => Reject(500, SignupFailedMessage)
        case Returned(Some(_)) => Reject(409, DuplicateMessage)
        case Returned(None) =>
          match services.passwordHash
          case Threw => Reject(500, SignupFailedMessage)
          case Returned(hash) =>
            var account := Some(NewAccount(name.value, email.value, hash));
            match services.created
            case Threw => SignupOutcome(Failure(500, CreateFailedMessage), account, None)
            case Returned(user) =>
              match services.token
              case Threw => SignupOutcome(Failure(500, SignupFailedMessage), account, None)
              case Returned(token) =>
                match services.session
                case Threw => SignupOutcome(Failure(500, SignupFailedMessage), account, None)
                case Returned(_) => SignupOutcome(Success(WithoutPasswordHash(user)), account, Some(token))
  }

  /**
   * The checks run in order and the first failing one decides the reply:
   * each 400 and the 409 happen exactly when every earlier check passed and
   * that one failed, with the email checked against the pattern itself.
   */
  lemma SignupValidationOrder(name: Option<string>, email: Option<string>, password: Option<string>, services: SignupServices)
    ensures var r := Signup(SignupBody(name, email, password), services).response;
            var present := !Falsy(name) && !Falsy(email) && !Falsy(password);
            && (r == Failure(400, RequiredMessage) <==> !present)
            && (r == Failure(400, InvalidEmailMessage) <==> present && !MatchesEmailPattern(email.value))
            && (r == Failure(400, ShortPasswordMessage) <==>
                  present && MatchesEmailPattern(email.value) && Utf16Length(password.value) < MinPasswordLength)
            && (r == Failure(409, DuplicateMessage) <==>
                  present && MatchesEmailPattern(email.value) && Utf16Length(password.value) >= MinPasswordLength
                  && services.existing.Returned? && services.existing.value.Some?)
  {
    if !Falsy(email) {
      IsValidEmailMatchesPattern(email.value);
    }
  }

  /**
   * An account is only requested once every check passed and the email is
   * not registered, and then with the request's name and email and the
   * hash; a registered email never leads to a new account.
   */
  lemma SignupCreatesOnlyNewAccounts(request: SignupRequest, services: SignupServices)
    ensures var r := Signup(request, services);
            r.createRequested.Some? <==>
              && FieldsPresent(request)
              && MatchesEmailPattern(request.email.value)
              && Utf16Length(request.password.value) >= MinPasswordLength
              && services.existing == Returned(None)
              && services.passwordHash.Returned?
    ensures var r := Signup(request, services);
            r.createRequested.Some? ==>
              r.createRequested.value == NewAccount(request.name.value, request.email.value, services.passwordHash.value)
  {
    if request.SignupBody? && !Falsy(request.email) {
      IsValidEmailMatchesPattern(request.email.value);
    }
  }

  /**
   * A successful reply is the created user minus its password hash, and
   * comes only after the session was stored with the issued token.
   */
  lemma SignupSuccess(request: SignupRequest, services: SignupServices)
    ensures var r := Signup(request, services);
            r.response.Success? <==> r.createRequested.Some? && services.created.Returned?
                                     && services.token.Returned? && services.session.Returned?
    ensures var r := Signup(request, services);
            r.response.Success? ==>
              && r.response.body == WithoutPasswordHash(services.created.value)
              && PasswordHashKey !in r.response.body.metadata
              && r.session == Some(services.token.value)
  {
  }
}
