/**
 * `src/app/api/lib/auth-middleware.ts`: reads an `Authorization: Bearer`
 * header (section 2.1 of RFC 6750; the scheme is matched case-sensitively
 * here) and asks Supabase Auth for the token's user. The Supabase call is the
 * parameter `getUser`.
 */
module AuthMiddleware {
  import opened Wrappers
  import opened Types

  /** What `supabase.auth.getUser(token)` gives back. */
  datatype UserLookup =
    | Found(user: AuthUser)
    | NoUser
    | LookupError(message: string)
    | LookupThrew

  /** `{ error, user }`. */
  datatype AuthResult = AuthResult(error: Option<string>, user: Option<AuthUser>)

  const BEARER_PREFIX := "Bearer "
  const NO_TOKEN := "No token provided"
  const INVALID_TOKEN := "Invalid token"
  const AUTHENTICATION_FAILED := "Authentication failed"

  /** The header carries a bearer token. */
  predicate HasBearer(authorization: Option<string>) {
    authorization.Some? && BEARER_PREFIX <= authorization.value
  }

  /** The token: the header with its first 7 characters removed. */
  function BearerToken(authorization: Option<string>): (token: string)
    requires HasBearer(authorization)
    ensures authorization.value == BEARER_PREFIX + token
  {
    authorization.value[|BEARER_PREFIX|..]
  }

  /** `authenticateRequest`: exactly one of error and user is set; the user is
      set exactly when the header is a bearer header whose token the verifier
      resolves to a user. */
  function AuthenticateRequest(authorization: Option<string>, getUser: string -> UserLookup): (r: AuthResult)
    ensures r.error.Some? <==> r.user.None?
    ensures !HasBearer(authorization) ==> r == AuthResult(Some(NO_TOKEN), None)
    ensures HasBearer(authorization) ==>
      match getUser(BearerToken(authorization))
      case Found(u) => r == AuthResult(None, Some(u))
      case LookupThrew => r == AuthResult(Some(AUTHENTICATION_FAILED), None)
      case _ => r == AuthResult(Some(INVALID_TOKEN), None)
  {
    if authorization.None? || authorization.value == [] || !(BEARER_PREFIX <= authorization.value) then
      AuthResult(Some(NO_TOKEN), None)
    else
      match getUser(authorization.value[7..])
      case Found(u) => AuthResult(None, Some(u))
      case NoUser => AuthResult(Some(INVALID_TOKEN), None)
      case LookupError(_) => AuthResult(Some(INVALID_TOKEN), None)
      case LookupThrew => AuthResult(Some(AUTHENTICATION_FAILED), None)
  }

  /** The header a client builds from a token, `Bearer ${token}`, hands that
      very token to the verifier. */
  lemma BearerHeaderRoundTrip(token: string, getUser: string -> UserLookup)
    ensures HasBearer(Some(BEARER_PREFIX + token))
    ensures BearerToken(Some(BEARER_PREFIX + token)) == token
    ensures AuthenticateRequest(Some(BEARER_PREFIX + token), getUser).user.Some?
            <==> getUser(token).Found?
  {
    assert BEARER_PREFIX <= BEARER_PREFIX + token;
    assert (BEARER_PREFIX + token)[|BEARER_PREFIX|..] == token;
  }

  /** The scheme is case-sensitive: a lower-case `bearer` is no token at all. */
  lemma LowerCaseSchemeRejected(token: string, getUser: string -> UserLookup)
    ensures AuthenticateRequest(Some("bearer " + token), getUser) == AuthResult(Some(NO_TOKEN), None)
  {
    assert ("bearer " + token)[0] == 'b';
  }
}
