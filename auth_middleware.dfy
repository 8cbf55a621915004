/**
 * The two gates of backend/middlewares/auth.js: `authenticate` (bearer token
 * from the Authorization header, decision on the verification result) and
 * `authorizeRoles` (role allow-list). Token verification is a parameter.
 */
module AuthMiddleware {

  import opened Wrappers
  import opened Text
  import opened Http
  import opened UserModel

  /** A verified token's payload `{ user }`. */
  datatype TokenPayload = TokenPayload(user: SessionUser)

  /** `next()` with `req.user` set, or a 401 response with `next` not called. */
  datatype AuthOutcome = Authenticated(user: SessionUser) | Rejected(code: nat, error: string)

  const MsgAuthRequired := "Authentication required"
  const MsgBadToken := "Invalid or expired token"
  const MsgAccessDenied := "Access denied"

  /** `authHeader && authHeader.split(' ')[1]`: the second space-separated piece of a present, non-empty header. */
  function BearerToken(header: Option<string>): (t: Option<string>)
    ensures t.Some? ==> Truthy(header) && ' ' !in t.value
    ensures !Truthy(header) ==> t.None?
  {
    if Truthy(header) then SecondPiece(header.value, ' ') else None
  }

  /** `authenticate`, with `verifyToken` (signature and expiry check) as the parameter `verify`. */
  function Authenticate(header: Option<string>, verify: string -> Option<TokenPayload>): (r: AuthOutcome)
    ensures r == Rejected(401, MsgAuthRequired) <==> !Truthy(BearerToken(header))
    ensures r == Rejected(401, MsgBadToken) <==>
      Truthy(BearerToken(header)) && verify(BearerToken(header).value).None?
    ensures r.Authenticated? <==>
      Truthy(BearerToken(header)) && verify(BearerToken(header).value).Some?
    ensures r.Authenticated? ==> r.user == verify(BearerToken(header).value).value.user
  {
    var token := BearerToken(header);
    if !Truthy(token) then Rejected(401, MsgAuthRequired)
    else
      match verify(token.value)
      case None => Rejected(401, MsgBadToken)
      case Some(decoded) => Authenticated(decoded.user)
  }

  /** A well-formed `Bearer <token>` header is decided by verifying exactly `<token>`. */
  lemma BearerHeaderUsesToken(scheme: string, token: string, verify: string -> Option<TokenPayload>)
    requires ' ' !in scheme && ' ' !in token && token != ""
    ensures BearerToken(Some(scheme + " " + token)) == Some(token)
    ensures Authenticate(Some(scheme + " " + token), verify) ==
      if verify(token).None? then Rejected(401, MsgBadToken) else Authenticated(verify(token).value.user)
  {
    SecondPieceOfScheme(scheme, token);
  }

  /** A header with no space (a bare token, or the scheme alone) carries no token. */
  lemma HeaderWithoutSpaceRejected(header: string, verify: string -> Option<TokenPayload>)
    requires ' ' !in header
    ensures Authenticate(Some(header), verify) == Rejected(401, MsgAuthRequired)
  {
    SplitNoSeparator(header, ' ');
  }

  datatype Verdict = Proceed | Deny(code: nat, message: string)

  /**
   * `authorizeRoles(...allowed)`: reads `req.user.role`; with no user set the
   * property read throws, which the framework answers with its error handler.
   */
  function AuthorizeRoles(allowed: seq<Role>, user: Option<SessionUser>): (v: Verdict)
    ensures user.None? ==> v.Deny? && v.code == ErrorHandlerCode
    ensures user.Some? ==> (v == Proceed <==> user.value.role in allowed)
    ensures user.Some? && v != Proceed ==> v == Deny(403, MsgAccessDenied)
  {
    if user.None? then Deny(ErrorHandlerCode, "Cannot read properties of undefined (reading 'role')")
    else if user.value.role in allowed then Proceed
    else Deny(403, MsgAccessDenied)
  }
}
