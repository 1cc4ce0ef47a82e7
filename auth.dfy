/** middleware/auth.js: a ladder of guards over the bearer token. Token
    verification and the user lookup (database connection included) are
    oracles passed in as functions. */
module Auth {
  import opened Http
  import opened Jwt

  /** The claims a verified token carries. */
  datatype Claims = Claims(id: string)

  /** A user record as the lookup returns it (without its password). */
  datatype User = User(id: string, role: string, isActive: bool)

  /** What connecting and `User.findById(id)` do: find a user, find none, or
      throw. */
  datatype UserLookup = Found(user: User) | NotFound | Failed

  /** `authenticateUser(request)`: the active user the bearer token names, or
      `None` (`null`) at the first failing guard; a thrown lookup is caught
      and also gives `None`. */
  function AuthenticateUser(req: Request, verify: string -> Option<Claims>, find: string -> UserLookup): (u: Option<User>)
    ensures u.Some? <==>
      && GetTokenFromRequest(req).Some? && GetTokenFromRequest(req).value != ""
      && verify(GetTokenFromRequest(req).value).Some?
      && find(verify(GetTokenFromRequest(req).value).value.id).Found?
      && find(verify(GetTokenFromRequest(req).value).value.id).user.isActive
    ensures u.Some? ==> u == Some(find(verify(GetTokenFromRequest(req).value).value.id).user)
  {
    var token := GetTokenFromRequest(req);
    if token.None? || token.value == "" then None
    else
      var decoded := verify(token.value);
      if decoded.None? then None
      else
        match find(decoded.value.id)
        case Failed => None
        case NotFound => None
        case Found(user) => if !user.isActive then None else Some(user)
  }

  /** Without a (non-empty) token the answer is `None`, whatever the
      verifier and the lookup would say. */
  lemma NoTokenNoUser(req: Request, verify: string -> Option<Claims>, find: string -> UserLookup)
    requires GetTokenFromRequest(req).None? || GetTokenFromRequest(req).value == ""
    ensures AuthenticateUser(req, verify, find).None?
  {
  }

  /** The header `"Bearer "` alone gives the empty token, which is refused. */
  lemma BarePrefixRefused(verify: string -> Option<Claims>, find: string -> UserLookup)
    ensures AuthenticateUser(Request(map["authorization" := "Bearer "]), verify, find).None?
  {
    PrefixExamples();
  }

  /** A token that fails verification is refused, whatever the lookup would say. */
  lemma UnverifiedTokenRefused(req: Request, verify: string -> Option<Claims>, f1: string -> UserLookup, f2: string -> UserLookup)
    requires GetTokenFromRequest(req).Some? && verify(GetTokenFromRequest(req).value).None?
    ensures AuthenticateUser(req, verify, f1).None?
    ensures AuthenticateUser(req, verify, f1) == AuthenticateUser(req, verify, f2)
  {
  }

  /** A lookup that throws is caught: the answer is `None`, never an error. */
  lemma FailedLookupRefused(req: Request, verify: string -> Option<Claims>, find: string -> UserLookup)
    requires GetTokenFromRequest(req).Some?
    requires verify(GetTokenFromRequest(req).value).Some?
    requires find(verify(GetTokenFromRequest(req).value).value.id) == Failed
    ensures AuthenticateUser(req, verify, find).None?
  {
  }

  const UnauthorizedResponse := Response(401, ErrorBody("Unauthorized - Authentication required"), NoHeaders)
  const ForbiddenResponse := Response(403, ErrorBody("Forbidden - Admin access required"), NoHeaders)

  /** `requireAuth(request)`: a 401 when authentication fails, else `None`
      (continue). */
  function RequireAuth(req: Request, verify: string -> Option<Claims>, find: string -> UserLookup): (r: Option<Response>)
    ensures r.Some? <==> AuthenticateUser(req, verify, find).None?
    ensures r.Some? ==> r.value.status == 401
  {
    if AuthenticateUser(req, verify, find).None? then Some(UnauthorizedResponse) else None
  }

  /** `requireAdmin(request)`: a 401 when authentication fails, then a 403
      for any role but `"admin"`, else `None`. */
  function RequireAdmin(req: Request, verify: string -> Option<Claims>, find: string -> UserLookup): (r: Option<Response>)
    ensures AuthenticateUser(req, verify, find).None? ==> r == Some(UnauthorizedResponse)
    ensures r.None? <==> (AuthenticateUser(req, verify, find).Some? && AuthenticateUser(req, verify, find).value.role == "admin")
    ensures r == Some(ForbiddenResponse) <==>
      (AuthenticateUser(req, verify, find).Some? && AuthenticateUser(req, verify, find).value.role != "admin")
  {
    var user := AuthenticateUser(req, verify, find);
    if user.None? then Some(UnauthorizedResponse)
    else if user.value.role != "admin" then Some(ForbiddenResponse)
    else None
  }

  /** Whatever `requireAdmin` lets through, `requireAuth` lets through too. */
  lemma AdminImpliesAuthenticated(req: Request, verify: string -> Option<Claims>, find: string -> UserLookup)
    requires RequireAdmin(req, verify, find).None?
    ensures RequireAuth(req, verify, find).None?
  {
  }
}
