/** `register` and `login`: their response ladders and the token cookie.
    bcrypt, the signer, the clock and the database are parameters. */
module AuthController {
  import opened Wrappers
  import opened UserModel
  import AuthPage

  const MillisPerDay := 86_400_000

  datatype CookieOptions = CookieOptions(expires: int, httpOnly: bool, secure: bool)

  /** `sendTokenResponse`'s cookie: it lasts `days` days from `now` (in
      milliseconds), is always HTTP-only and is `secure` only in production. */
  function CookieOptionsFor(now: int, days: int, nodeEnv: string): (c: CookieOptions)
    ensures c.expires - now == days * 24 * 60 * 60 * 1000 == days * MillisPerDay
    ensures c.httpOnly
    ensures c.secure <==> nodeEnv == "production"
  {
    CookieOptions(now + days * MillisPerDay, true, nodeEnv == "production")
  }

  /** The environment and oracles shared by both routes. */
  datatype Env = Env(now: int, cookieDays: int, nodeEnv: string, sign: Claims -> string)

  datatype ErrorBody = Message(text: string) | ValidationFailed(errors: seq<FieldError>)

  datatype AuthResponse =
    | TokenSent(status: int, token: string, user: User, cookie: CookieOptions)
    | AuthError(status: int, error: ErrorBody)

  /** `sendTokenResponse`: the same token in the body and in the cookie. */
  function SendToken(u: User, status: int, env: Env): (r: AuthResponse)
    ensures r.TokenSent? && r.status == status && r.user == u
    ensures r.token == env.sign(Claims(u.id))
    ensures r.cookie == CookieOptionsFor(env.now, env.cookieDays, env.nodeEnv)
  {
    TokenSent(status, SignedJwtToken(u, env.sign), u, CookieOptionsFor(env.now, env.cookieDays, env.nodeEnv))
  }

  const DuplicateEmailError := "Cet email est déjà enregistré."
  const MissingCredentialsError := "Veuillez fournir un email ET un mot de passe."
  const InvalidCredentialsError := "Identifiants invalides."

  datatype RegisterBody = RegisterBody(firstName: string, lastName: string, email: string, password: string)

  /** `register`: `User.create` casts, validates, hashes and inserts; a
      duplicate email (error code 11000, raised by the unique index) and a
      validation failure are both answered with 400. */
  function Register(body: RegisterBody, newId: string, isEmail: string -> bool,
                    emailTaken: string -> bool, salt: string, hash: (string, string) -> string,
                    env: Env): (r: AuthResponse)
    ensures r.TokenSent? <==>
      ValidUser(Cast(RegisterInput(body), newId), isEmail) && !emailTaken(Cast(RegisterInput(body), newId).email)
    ensures r.TokenSent? ==>
      (r.status == 201 && r.user.password == hash(body.password, salt)
       && r.user.role == ClientRole && r.user.email == Cast(RegisterInput(body), newId).email)
    ensures r.AuthError? ==> r.status == 400
    ensures r == AuthError(400, Message(DuplicateEmailError)) <==>
      ValidUser(Cast(RegisterInput(body), newId), isEmail) && emailTaken(Cast(RegisterInput(body), newId).email)
  {
    var u := Cast(RegisterInput(body), newId);
    var errors := Validate(u, isEmail);
    if errors != [] then AuthError(400, ValidationFailed(errors))
    else if emailTaken(u.email) then AuthError(400, Message(DuplicateEmailError))
    else SendToken(AfterSave(u, true, salt, hash), 201, env)
  }

  /** Only the four destructured fields reach `User.create`. */
  function RegisterInput(body: RegisterBody): UserInput {
    UserInput(body.firstName, body.lastName, body.email, body.password, None, [])
  }

  /** Every password of six or seven characters that the sign-up form
      accepts (confirmation matching) is refused by the schema, whose
      minimum is eight. */
  lemma {:induction false} SixCharacterPasswordGap(data: AuthPage.SignupData, id: string, isEmail: string -> bool)
    requires data.password == data.confirmPassword
    requires AuthPage.MinSignupPassword <= |data.password| < MinPasswordLength
    ensures AuthPage.CheckSignup(data) == AuthPage.SignupAccepted
    ensures TooShort("password", MinPasswordLength) in
      Validate(Cast(RegisterInput(RegisterBody(data.firstName, data.lastName, data.email, data.password)), id), isEmail)
  {
    var u := Cast(RegisterInput(RegisterBody(data.firstName, data.lastName, data.email, data.password)), id);
    assert PasswordErrors(u) == [TooShort("password", MinPasswordLength)];
    var e := Validate(u, isEmail);
    var pre := FirstNameErrors(u) + LastNameErrors(u) + EmailErrors(u, isEmail);
    assert e == pre + PasswordErrors(u) + RoleErrors(u);
    assert e[|pre|] == TooShort("password", MinPasswordLength);
  }

  datatype LoginBody = LoginBody(email: string, password: string)

  /** `login`. Missing credentials are refused before any lookup; an
      unknown email and a wrong password get the very same answer; a
      lookup or comparison that throws gives 500. */
  function Login(body: LoginBody, findOne: string -> Result<Option<User>, string>,
                 compare: (string, string) -> Result<bool, string>, env: Env): (r: AuthResponse)
    ensures body.email == "" || body.password == "" <==> r == AuthError(400, Message(MissingCredentialsError))
    ensures r.TokenSent? <==>
      body.email != "" && body.password != "" && findOne(body.email).Ok? && findOne(body.email).value.Some?
      && compare(body.password, findOne(body.email).value.value.password) == Ok(true)
    ensures r.TokenSent? ==> r.status == 200 && r.user == findOne(body.email).value.value
    ensures body.email != "" && body.password != "" && findOne(body.email) == Ok(None) ==>
      r == AuthError(401, Message(InvalidCredentialsError))
    ensures (body.email != "" && body.password != "" && findOne(body.email).Ok? && findOne(body.email).value.Some?
             && compare(body.password, findOne(body.email).value.value.password) == Ok(false)) ==>
      r == AuthError(401, Message(InvalidCredentialsError))
    ensures r.AuthError? ==> r.status in {400, 401, 500}
  {
    if body.email == "" || body.password == "" then AuthError(400, Message(MissingCredentialsError))
    else match findOne(body.email)
      case Err(m) => AuthError(500, Message(m))
      case Ok(None) => AuthError(401, Message(InvalidCredentialsError))
      case Ok(Some(u)) =>
        match compare(body.password, u.password)
        case Err(m) => AuthError(500, Message(m))
        case Ok(false) => AuthError(401, Message(InvalidCredentialsError))
        case Ok(true) => SendToken(u, 200, env)
  }

  /** A user who has just registered can log in with the same password,
      provided bcrypt accepts a password against its own hash and the
      lookup finds the stored user. */
  lemma {:induction false} LoginAfterRegister(body: RegisterBody, newId: string, isEmail: string -> bool,
      emailTaken: string -> bool, salt: string, hash: (string, string) -> string, env: Env,
      findOne: string -> Result<Option<User>, string>, compare: (string, string) -> Result<bool, string>)
    requires Register(body, newId, isEmail, emailTaken, salt, hash, env).TokenSent?
    requires findOne(body.email) == Ok(Some(Register(body, newId, isEmail, emailTaken, salt, hash, env).user))
    requires forall p, s :: compare(p, hash(p, s)) == Ok(true)
    ensures Login(LoginBody(body.email, body.password), findOne, compare, env).TokenSent?
    ensures Login(LoginBody(body.email, body.password), findOne, compare, env).user
         == Register(body, newId, isEmail, emailTaken, salt, hash, env).user
  {
    var u := Cast(RegisterInput(body), newId);
    assert ValidUser(u, isEmail);
    assert |u.email| == |body.email|;
  }
}
