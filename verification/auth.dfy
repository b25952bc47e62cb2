/** lib/auth.ts: session tokens, the current user, the session cookie and role checks.
    Signing and verifying tokens is the JWT library's business; here the verifier is a
    parameter that either yields the token's claims or fails. */
module Auth {
  import opened Types

  /** `JWTPayload`: the user's fields plus the expiry (seconds since the epoch). */
  datatype Claims = Claims(id: nat, email: string, fullName: string, role: Role, exp: int)

  /** `setExpirationTime("7d")`, in seconds. */
  const TokenLifetime: nat := 7 * 24 * 60 * 60

  /** The session cookie's `maxAge`. */
  const CookieMaxAge: nat := 7 * 24 * 60 * 60

  /** The claims `createToken` signs for a user at time issuedAt: exactly id, email,
      full_name and role, expiring when the cookie does. */
  function TokenClaims(u: User, issuedAt: int): (c: Claims)
    ensures Project(c) == u
    ensures c.exp == issuedAt + CookieMaxAge
  {
    Claims(u.id, u.email, u.fullName, u.role, issuedAt + TokenLifetime)
  }

  /** The user `getCurrentUser` builds from a payload: the expiry is dropped. */
  function Project(c: Claims): User
  {
    User(c.id, c.email, c.fullName, c.role)
  }

  /** `verifyToken`: any verification error becomes null. */
  function VerifyToken(token: string, jwtVerify: string -> Result<Claims>): (r: Option<Claims>)
    ensures jwtVerify(token).Fail? ==> r.None?
    ensures jwtVerify(token).Ok? ==> r == Some(jwtVerify(token).value)
  {
    match jwtVerify(token)
    case Ok(c) => Some(c)
    case Fail(_) => None
  }

  /** `getCurrentUser` given the `token` cookie's value, if any. */
  function GetCurrentUser(tokenCookie: Option<string>, jwtVerify: string -> Result<Claims>): (r: Option<User>)
    ensures (tokenCookie.None? || tokenCookie.value == "") ==> r.None?
    ensures tokenCookie.Some? && tokenCookie.value != "" ==>
      r == (match jwtVerify(tokenCookie.value)
            case Ok(c) => Some(Project(c))
            case Fail(_) => None)
  {
    if tokenCookie.None? || tokenCookie.value == "" then None
    else
      match VerifyToken(tokenCookie.value, jwtVerify)
      case None => None
      case Some(payload) => Some(Project(payload))
  }

  /** A token minted for u and accepted by the verifier gives u back as the current user. */
  lemma SessionRoundTrip(u: User, issuedAt: int, token: string, jwtVerify: string -> Result<Claims>)
    requires token != "" && jwtVerify(token) == Ok(TokenClaims(u, issuedAt))
    ensures GetCurrentUser(Some(token), jwtVerify) == Some(u)
  {
  }

  /** `hasRole(user, allowedRoles)`: allowed roles are given by name, as the routes pass them. */
  function HasRole(user: Option<User>, allowedRoles: seq<string>): (r: bool)
    ensures user.None? ==> !r
    ensures user.Some? ==> (r <==> exists i :: 0 <= i < |allowedRoles| && allowedRoles[i] == RoleName(user.value.role))
  {
    user.Some? && RoleName(user.value.role) in allowedRoles
  }

  /** The roles are flat: allowing one role admits that role and no other. */
  lemma NoRoleImpliesAnother(u: User, r: Role)
    ensures HasRole(Some(u), [RoleName(r)]) <==> u.role == r
  {
    RoleNameRoundTrip(u.role);
    RoleNameRoundTrip(r);
  }

  /** The `token` cookie's attributes. */
  datatype Cookie = Cookie(value: string, httpOnly: bool, secure: bool, sameSiteLax: bool, maxAge: nat, path: string)

  /** The response's cookie store, as far as the session cookie goes. */
  class CookieJar {
    var token: Option<Cookie>
    /** `process.env.NODE_ENV === "production"`. */
    const production: bool

    constructor(production: bool)
      ensures token.None? && this.production == production
    {
      token := None;
      this.production := production;
    }

    /** The value the next request presents for the `token` cookie. */
    function TokenValue(): (v: Option<string>)
      reads this
      ensures v.Some? <==> token.Some?
    {
      if token.Some? then Some(token.value.value) else None
    }

    /** `setAuthCookie(token)`. */
    method SetAuthCookie(value: string)
      modifies this
      ensures token == Some(Cookie(value, true, production, true, CookieMaxAge, "/"))
      ensures TokenValue() == Some(value)
    {
      token := Some(Cookie(value, true, production, true, 7 * 24 * 60 * 60, "/"));
    }

    /** `clearAuthCookie()`. */
    method ClearAuthCookie()
      modifies this
      ensures token.None? && TokenValue().None?
    {
      token := None;
    }
  }
}
