/** `protect` (find and check the bearer token, load the user) and
    `authorize` (the role gate). The JWT verifier and the user lookup are
    parameters. */
module AuthMiddleware {
  import opened Wrappers
  import opened Text
  import opened UserModel

  /** The parts of a request the middleware reads; `None` is a header or
      cookie that was not sent. */
  datatype Request = Request(authorization: Option<string>, cookieToken: Option<string>)

  predicate IsBearerHeader(h: Option<string>) {
    h.Some? && h.value != "" && StartsWith(h.value, "Bearer")
  }

  /** The token candidate: the second space-separated piece of a "Bearer"
      header (and no fallback if there is none), else the `token` cookie. */
  function ExtractToken(req: Request): (token: Option<string>)
    ensures IsBearerHeader(req.authorization) ==>
      token == (var parts := Split(req.authorization.value, ' ');
                if |parts| > 1 then Some(parts[1]) else None)
    ensures !IsBearerHeader(req.authorization) && req.cookieToken.Some? && req.cookieToken.value != "" ==>
      token == req.cookieToken
    ensures !IsBearerHeader(req.authorization) && (req.cookieToken.None? || req.cookieToken.value == "") ==>
      token.None?
  {
    if IsBearerHeader(req.authorization) then
      var parts := Split(req.authorization.value, ' ');
      if |parts| > 1 then Some(parts[1]) else None
    else if req.cookieToken.Some? && req.cookieToken.value != "" then req.cookieToken
    else None
  }

  /** Under a Bearer header the cookie is never read, even when the header
      carries no token. */
  lemma BearerShadowsCookie(h: string, c1: Option<string>, c2: Option<string>)
    requires h != "" && StartsWith(h, "Bearer")
    ensures ExtractToken(Request(Some(h), c1)) == ExtractToken(Request(Some(h), c2))
  {
  }

  /** "Bearer <t>" yields `t` for any non-empty token without spaces. */
  lemma {:induction false} BearerRoundTrip(t: string, cookie: Option<string>)
    requires t != "" && forall i :: 0 <= i < |t| ==> t[i] != ' '
    ensures ExtractToken(Request(Some("Bearer " + t), cookie)) == Some(t)
  {
    var h := "Bearer " + t;
    assert h[..6] == "Bearer";
    assert h == "Bearer" + [' '] + t;
    SplitTwo("Bearer", t, ' ');
  }

  /** The header is tested with `startsWith("Bearer")`, so "Bearer" with no
      space, or "Bearerxyz", hides a valid cookie. */
  lemma {:induction false} BareBearerHidesCookie(cookie: string)
    ensures ExtractToken(Request(Some("Bearer"), Some(cookie))) == None
  {
    SplitNone("Bearer", ' ');
  }

  const NoTokenError := "Accès non autorisé. Pas de jeton."
  const BadTokenError := "Jeton non valide ou expiré."

  datatype ProtectOutcome =
    | Unauthorized(error: string)   // 401
    | Proceed(user: Option<User>)   // `next()` with `req.user` set, possibly to null

  /** `protect`: no (or an empty) token is refused before the verifier is
      called; a token that fails verification, or a lookup that throws, is
      refused too; otherwise the request proceeds with whatever the lookup
      found, a missing user included. */
  function Protect(req: Request, verify: string -> Option<Claims>,
                   findById: string -> Result<Option<User>, string>): (r: ProtectOutcome)
    ensures (ExtractToken(req).None? || ExtractToken(req) == Some("")) <==> r == Unauthorized(NoTokenError)
    ensures r.Proceed? <==>
      ExtractToken(req).Some? && ExtractToken(req).value != ""
      && verify(ExtractToken(req).value).Some?
      && findById(verify(ExtractToken(req).value).value.id).Ok?
    ensures r.Proceed? ==> r.user == findById(verify(ExtractToken(req).value).value.id).value
    ensures r.Unauthorized? ==> r.error in {NoTokenError, BadTokenError}
  {
    var token := ExtractToken(req);
    if token.None? || token.value == "" then Unauthorized(NoTokenError)
    else match verify(token.value)
      case None => Unauthorized(BadTokenError)
      case Some(claims) =>
        match findById(claims.id)
        case Err(_) => Unauthorized(BadTokenError)
        case Ok(user) => Proceed(user)
  }

  datatype AuthorizeOutcome =
    | Continue
    | Forbidden(error: string)   // 403
    | Crash                      // `req.user` is null: reading its role throws

  function ForbiddenMessage(role: string): string {
    "Accès refusé. Le rôle " + role + " n'est pas autorisé."
  }

  /** `authorize(...roles)`. */
  function Authorize(roles: seq<string>, user: Option<User>): (r: AuthorizeOutcome)
    ensures r == Continue <==> user.Some? && user.value.role in roles
    ensures r == Crash <==> user.None?
    ensures r.Forbidden? ==> user.Some? && r.error == ForbiddenMessage(user.value.role)
  {
    if user.None? then Crash
    else if user.value.role in roles then Continue
    else Forbidden(ForbiddenMessage(user.value.role))
  }

  datatype RouteOutcome = Handle(user: User) | Reject(status: int)

  /** `protect` then `authorize("admin")`, the chain guarding product
      creation. A lookup that finds no user ends in a 500. */
  function AdminRoute(req: Request, verify: string -> Option<Claims>,
                      findById: string -> Result<Option<User>, string>): (r: RouteOutcome)
    ensures r.Handle? <==>
      Protect(req, verify, findById).Proceed? && Protect(req, verify, findById).user.Some?
      && Protect(req, verify, findById).user.value.role == AdminRole
    ensures r.Handle? ==> r.user.role == AdminRole
    ensures r.Reject? ==> r.status in {401, 403, 500}
  {
    match Protect(req, verify, findById)
    case Unauthorized(_) => Reject(401)
    case Proceed(user) =>
      match Authorize([AdminRole], user)
      case Continue => Handle(user.value)
      case Forbidden(_) => Reject(403)
      case Crash => Reject(500)
  }

  /** A client's valid token is turned away from the admin route. */
  lemma {:induction false} ClientIsForbidden(req: Request, verify: string -> Option<Claims>,
                                             findById: string -> Result<Option<User>, string>)
    requires Protect(req, verify, findById).Proceed?
    requires Protect(req, verify, findById).user.Some?
    requires Protect(req, verify, findById).user.value.role == ClientRole
    ensures AdminRoute(req, verify, findById) == Reject(403)
  {
  }
}
