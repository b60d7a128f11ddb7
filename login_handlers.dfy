/**
 * The sign-up and sign-in handlers of pkg/handlers/login.go. The store
 * calls, the bcrypt password check and the JWT signer are parameters; each is
 * applied to exactly the arguments the handler passes it, its Go receiver
 * included: the bound request for Create and FindByEmail, the found user for
 * CheckPassword and GetJwtToken.
 */
module LoginHandlers {
  import opened Wrappers
  import opened Types
  import opened Http

  const InvalidRequestMessage := "invalid request"
  const MissingDetailsMessage := "please provide required details"
  const MissingCredentialsMessage := "please provide valid credentials"
  const InvalidCredentialsMessage := "invalid credentials"

  const AuthCookieName := "Authorization"
  /** 24 hours, in seconds. */
  const AuthCookieMaxAge := 24 * 3600

  /** The cookie a successful sign-in sets: the token, for a day, on the request's path, HttpOnly, not Secure. */
  function AuthCookie(token: string, path: string): Cookie
  {
    Cookie(AuthCookieName, token, AuthCookieMaxAge, path, "", false, true)
  }

  /** The body of a successful sign-in. */
  function TokenBody(token: string): Body
  {
    map["access_token" := Str(token), "type" := Str("bearer")]
  }

  /** FindByEmail, called on the bound request with the request's e-mail. */
  type EmailLookup = (User, string) -> Outcome<User>

  /** CheckPassword, called on the found user with a stored hash and a plain password. */
  type PasswordChecker = (User, string, string) -> Outcome<()>

  /** GetJwtToken, called on the found user. */
  type TokenSigner = User -> Outcome<string>

  /** Sign-up needs all three of username, e-mail and password; sign-in needs e-mail and password. */
  predicate HasSignUpDetails(req: User)
  {
    req.username != "" && req.email != "" && req.password != ""
  }

  predicate HasCredentials(req: User)
  {
    req.email != "" && req.password != ""
  }

  /**
   * SignUpHandler: a bind failure is 400 "invalid request" (the bind error's
   * own text is only logged); a request missing any of username, e-mail or
   * password is 400 "please provide required details"; a failed create is 409
   * with the store's text as it is; a created user is 201 with that user as
   * the only key, "user".
   */
  function SignUp(bind: Outcome<User>, create: User -> Outcome<User>): (r: Response)
    ensures bind.Fail? ==> IsError(r, StatusBadRequest, InvalidRequestMessage)
    ensures bind.Ok? && !HasSignUpDetails(bind.value) ==> IsError(r, StatusBadRequest, MissingDetailsMessage)
    ensures r.status == StatusBadRequest <==> bind.Fail? || !HasSignUpDetails(bind.value)
    ensures r.status == StatusConflict <==>
      bind.Ok? && HasSignUpDetails(bind.value) && create(bind.value).Fail?
    ensures r.status == StatusConflict ==> IsError(r, StatusConflict, create(bind.value).msg)
    ensures r.status == StatusCreated <==>
      bind.Ok? && HasSignUpDetails(bind.value) && create(bind.value).Ok?
    ensures r.status == StatusCreated ==>
      r == Json(StatusCreated, map["user" := UserValue(create(bind.value).value)]) && |r.body.value| == 1
  {
    match bind
    case Fail(_) => AbortJson(StatusBadRequest, ErrorBody(InvalidRequestMessage))
    case Ok(req) =>
      if req.username == "" || req.email == "" || req.password == "" then
        AbortJson(StatusBadRequest, ErrorBody(MissingDetailsMessage))
      else
        match create(req)
        case Fail(msg) => AbortJson(StatusConflict, ErrorBody(msg))
        case Ok(newUser) => Json(StatusCreated, map["user" := UserValue(newUser)])
  }

  /** The steps of sign-in, in the order the handler takes them. */
  datatype SignInStep = Bind | Credentials | Lookup | PasswordCheck | Token

  /**
   * The first step of sign-in that fails, or None when all pass: binding,
   * then non-empty e-mail and password, then the lookup by e-mail, then the
   * check of the stored hash against the request's password, then the token
   * for the stored user.
   */
  function FirstFailure(bind: Outcome<User>, findByEmail: EmailLookup,
                        checkPassword: PasswordChecker, getToken: TokenSigner): Option<SignInStep>
  {
    if bind.Fail? then Some(Bind)
    else if !HasCredentials(bind.value) then Some(Credentials)
    else if Found(bind.value, findByEmail).Fail? then Some(Lookup)
    else
      var user := Found(bind.value, findByEmail).value;
      if checkPassword(user, user.password, bind.value.password).Fail? then Some(PasswordCheck)
      else if getToken(user).Fail? then Some(Token)
      else None
  }

  /** What the lookup returns for a bound request. */
  function Found(req: User, findByEmail: EmailLookup): Outcome<User>
  {
    findByEmail(req, req.email)
  }

  /** The status each failing step answers with. */
  function StepStatus(step: SignInStep): int
  {
    match step
    case Bind => StatusBadRequest
    case Credentials => StatusBadRequest
    case Lookup => StatusNotFound
    case PasswordCheck => StatusUnauthorized
    case Token => StatusInternalServerError
  }

  /**
   * SignInHandler. Steps run in a fixed order and the first one that fails
   * alone decides the response: 400 "invalid request" for a bind failure, 400
   * "please provide valid credentials" for an empty e-mail or password, 404
   * with the store's text for a failed lookup, 401 "invalid credentials" when
   * the stored user's password hash does not match the request's password,
   * 500 with the signer's text for a token failure. On success: 200 with
   * exactly "access_token" (the token) and "type" ("bearer"), and one cookie
   * named Authorization carrying the same token for a day on `path`, the
   * request's URL path, with an empty domain, not Secure and HttpOnly.
   */
  function SignIn(bind: Outcome<User>, findByEmail: EmailLookup, checkPassword: PasswordChecker,
                  getToken: TokenSigner, path: string): (r: Response)
    ensures var first := FirstFailure(bind, findByEmail, checkPassword, getToken);
      (first.Some? ==> r.status == StepStatus(first.value) && r.aborted && r.cookies == []) &&
      (first.None? <==> r.status == StatusOK)
    ensures bind.Fail? ==> IsError(r, StatusBadRequest, InvalidRequestMessage)
    ensures bind.Ok? && !HasCredentials(bind.value) ==> IsError(r, StatusBadRequest, MissingCredentialsMessage)
    ensures FirstFailure(bind, findByEmail, checkPassword, getToken) == Some(Lookup) ==>
      IsError(r, StatusNotFound, Found(bind.value, findByEmail).msg)
    ensures FirstFailure(bind, findByEmail, checkPassword, getToken) == Some(PasswordCheck) ==>
      IsError(r, StatusUnauthorized, InvalidCredentialsMessage)
    ensures FirstFailure(bind, findByEmail, checkPassword, getToken) == Some(Token) ==>
      IsError(r, StatusInternalServerError, getToken(Found(bind.value, findByEmail).value).msg)
    ensures r.status == StatusOK ==>
      var token := getToken(Found(bind.value, findByEmail).value).value;
      r.body == Some(TokenBody(token)) && |r.body.value| == 2 &&
      r.cookies == [AuthCookie(token, path)] && r.errors == [] && !r.aborted
  {
    match bind
    case Fail(_) => AbortJson(StatusBadRequest, ErrorBody(InvalidRequestMessage))
    case Ok(req) =>
      var email := req.email;
      var password := req.password;
      if email == "" || password == "" then
        AbortJson(StatusBadRequest, ErrorBody(MissingCredentialsMessage))
      else
        match findByEmail(req, email)
        case Fail(msg) => AbortJson(StatusNotFound, ErrorBody(msg))
        case Ok(user) =>
          if checkPassword(user, user.password, password).Fail? then
            AbortJson(StatusUnauthorized, ErrorBody(InvalidCredentialsMessage))
          else
            match getToken(user)
            case Fail(msg) => AbortJson(StatusInternalServerError, ErrorBody(msg))
            case Ok(token) =>
              Response(StatusOK, Some(TokenBody(token)), [AuthCookie(token, path)], [], false)
  }

  /** A request missing any detail never reaches the store: the create function is not consulted. */
  lemma MissingDetailsSkipsCreate(req: User, create1: User -> Outcome<User>, create2: User -> Outcome<User>)
    requires !HasSignUpDetails(req)
    ensures SignUp(Ok(req), create1) == SignUp(Ok(req), create2)
  {
  }

  /**
   * Once the body has bound, the handler never reads the username: for a
   * lookup that does not depend on its receiver's username, changing it
   * changes nothing.
   */
  lemma SignInIgnoresUsername(req: User, name: string, findByEmail: EmailLookup,
                              checkPassword: PasswordChecker, getToken: TokenSigner, path: string)
    requires findByEmail(req.(username := name), req.email) == findByEmail(req, req.email)
    ensures SignIn(Ok(req), findByEmail, checkPassword, getToken, path) ==
            SignIn(Ok(req.(username := name)), findByEmail, checkPassword, getToken, path)
  {
  }

  /**
   * Once a step fails, the later collaborators are not consulted: the
   * response is the same whatever the password check and the signer would
   * have said after a failed lookup, and whatever the signer would have said
   * after a failed password check.
   */
  lemma LaterStepsNotConsulted(bind: Outcome<User>, findByEmail: EmailLookup,
                               check1: PasswordChecker, check2: PasswordChecker,
                               token1: TokenSigner, token2: TokenSigner, path: string)
    ensures FirstFailure(bind, findByEmail, check1, token1) in {Some(Bind), Some(Credentials), Some(Lookup)} ==>
      SignIn(bind, findByEmail, check1, token1, path) == SignIn(bind, findByEmail, check2, token2, path)
    ensures FirstFailure(bind, findByEmail, check1, token1) == Some(PasswordCheck) ==>
      SignIn(bind, findByEmail, check1, token1, path) == SignIn(bind, findByEmail, check1, token2, path)
  {
  }

  /**
   * The password check compares the stored user's hash with the request's
   * password: a checker that accepts exactly that pair lets the sign-in
   * through, whatever it says about the request's password against itself.
   */
  lemma SignInChecksStoredHash(req: User, stored: User, token: string, path: string)
    requires HasCredentials(req) && stored.password != req.password
    ensures SignIn(Ok(req), (_, _) => Ok(stored),
                   (_, hash, pw) => if hash == stored.password && pw == req.password then Ok(()) else Fail("mismatch"),
                   _ => Ok(token), path).status == StatusOK
    ensures SignIn(Ok(req), (_, _) => Ok(stored),
                   (_, hash, pw) => if hash == pw then Ok(()) else Fail("mismatch"),
                   _ => Ok(token), path).status == StatusUnauthorized
  {
  }
}
