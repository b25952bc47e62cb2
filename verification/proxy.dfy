/** proxy.ts: the page gate run before every page request. */
module Proxy {
  import opened Types
  import opened Auth

  /** `NextResponse.next()`, or a redirect to /login that may also delete the `token` cookie. */
  datatype ProxyResult = Continue | RedirectToLogin(deleteToken: bool)

  const PublicRoutes: seq<string> := ["/login", "/register", "/"]

  /** `publicRoutes.some((route) => pathname === route)`: exact equality, no prefixes. */
  predicate IsPublic(pathname: string)
  {
    exists i :: 0 <= i < |PublicRoutes| && PublicRoutes[i] == pathname
  }

  /** `proxy(request)` for a path and the request's `token` cookie value. */
  function Gate(pathname: string, token: Option<string>, jwtVerify: string -> Result<Claims>): (r: ProxyResult)
    ensures IsPublic(pathname) ==> r == Continue
    ensures !IsPublic(pathname) && (token.None? || token.value == "") ==> r == RedirectToLogin(false)
    ensures !IsPublic(pathname) && token.Some? && token.value != "" ==>
      r == if jwtVerify(token.value).Fail? then RedirectToLogin(true) else Continue
  {
    if pathname in PublicRoutes then Continue
    else if token.None? || token.value == "" then RedirectToLogin(false)
    else if VerifyToken(token.value, jwtVerify).None? then RedirectToLogin(true)
    else Continue
  }

  /** Off the public routes, a page is served exactly when the API would see a signed-in user. */
  lemma GateAgreesWithCurrentUser(pathname: string, token: Option<string>, jwtVerify: string -> Result<Claims>)
    requires !IsPublic(pathname)
    ensures Gate(pathname, token, jwtVerify) == Continue <==> GetCurrentUser(token, jwtVerify).Some?
  {
  }

  /** Only the three exact paths are public: a path below /login still needs a token. */
  lemma PublicIsExact()
    ensures IsPublic("/login") && IsPublic("/register") && IsPublic("/")
    ensures !IsPublic("/login/x") && !IsPublic("/dashboard")
  {
    assert PublicRoutes[0] == "/login" && PublicRoutes[1] == "/register" && PublicRoutes[2] == "/";
    forall i | 0 <= i < |PublicRoutes|
      ensures PublicRoutes[i] != "/login/x" && PublicRoutes[i] != "/dashboard"
    {
      assert |PublicRoutes[i]| in {6, 9, 1};
    }
  }
}
