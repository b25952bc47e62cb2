/** lib/api-middleware.ts: the wrappers that gate every API handler. The current user
    is whatever `getCurrentUser` yields for the request; a handler is a function of the
    authenticated user (the source hands it the request with `user` set). */
module Middleware {
  import opened Types
  import opened Json
  import opened Auth

  const Unauthorized: Response := ErrorResponse(401, "Unauthorized")
  const Forbidden: Response := ErrorResponse(403, "Forbidden - Insufficient permissions")

  /** The wrappers' decision: turn the caller away with a response, or run the handler for a user. */
  datatype Gate = Reject(response: Response) | Admit(user: User)

  /** The decision of `requireAuth` (allowed = None) or of `requireRole(allowed)`. */
  function Authorize(caller: Option<User>, allowed: Option<seq<string>>): (g: Gate)
    ensures caller.None? ==> g == Reject(Unauthorized)
    ensures caller.Some? && allowed.None? ==> g == Admit(caller.value)
    ensures caller.Some? && allowed.Some? ==>
      g == if HasRole(caller, allowed.value) then Admit(caller.value) else Reject(Forbidden)
  {
    match caller
    case None => Reject(Unauthorized)
    case Some(u) =>
      if allowed.Some? && !HasRole(caller, allowed.value) then Reject(Forbidden) else Admit(u)
  }

  /** `requireAuth(handler)` applied to a request whose current user is caller. */
  function RequireAuth(caller: Option<User>, handler: User -> Response): (r: Response)
    ensures caller.None? ==> r == Unauthorized
    ensures caller.Some? ==> r == handler(caller.value)
  {
    match caller
    case None => Unauthorized
    case Some(user) => handler(user)
  }

  /** What a route module exports under `GET`, `POST`, `PUT` or `DELETE`: the handler
      itself, or a promise that resolves to one. The framework calls only the former. */
  datatype RouteExport =
    | Handler(respond: Option<User> -> Response)
    | Promise(resolved: Option<User> -> Response)

  /** `requireAuth(handler)` as declared: being `async`, it returns a promise of the
      wrapper, so `export const GET = requireAuth(...)` exports no handler at all. What
      the promise resolves to is the intended wrapper, `RequireAuth`. */
  function RequireAuthAsWritten(handler: User -> Response): (e: RouteExport)
    ensures !e.Handler?
    ensures forall caller :: e.resolved(caller) == RequireAuth(caller, handler)
  {
    Promise((caller: Option<User>) => RequireAuth(caller, handler))
  }

  /** `requireRole` returns `requireAuth(...)` unchanged, so its exports are promises too. */
  function RequireRoleAsWritten(allowedRoles: seq<string>, handler: User -> Response): (e: RouteExport)
    ensures !e.Handler?
    ensures forall caller :: e.resolved(caller) == RequireRole(allowedRoles, caller, handler)
  {
    RequireAuthAsWritten((u: User) => if !HasRole(Some(u), allowedRoles) then Forbidden else handler(u))
  }

  /** `requireRole(allowedRoles)(handler)`: requireAuth around a role check. */
  function RequireRole(allowedRoles: seq<string>, caller: Option<User>, handler: User -> Response): Response
  {
    RequireAuth(caller, (u: User) => if !HasRole(Some(u), allowedRoles) then Forbidden else handler(u))
  }

  /** Running a handler behind a gate. */
  function Through(g: Gate, handler: User -> Response): Response
  {
    match g
    case Reject(response) => response
    case Admit(u) => handler(u)
  }

  /** The wrappers are exactly the gate followed by the handler: a signed-out caller gets
      401 (never 403), a caller outside the allowed roles 403, anyone else the handler's
      response unchanged. */
  lemma WrappersFollowGate(caller: Option<User>, allowedRoles: seq<string>, handler: User -> Response)
    ensures RequireAuth(caller, handler) == Through(Authorize(caller, None), handler)
    ensures RequireRole(allowedRoles, caller, handler) == Through(Authorize(caller, Some(allowedRoles)), handler)
    ensures caller.None? ==> RequireRole(allowedRoles, caller, handler).status == 401
    ensures caller.Some? && !HasRole(caller, allowedRoles) ==> RequireRole(allowedRoles, caller, handler).status == 403
    ensures HasRole(caller, allowedRoles) ==> RequireRole(allowedRoles, caller, handler) == handler(caller.value)
  {
  }

  /** Widening the allowed roles never turns an admitted caller away. */
  lemma GateMonotone(caller: Option<User>, fewer: seq<string>, more: seq<string>)
    requires forall r :: r in fewer ==> r in more
    requires Authorize(caller, Some(fewer)).Admit?
    ensures Authorize(caller, Some(more)) == Authorize(caller, Some(fewer))
  {
  }

  /** Role lists the routes pass. */
  const Writers: seq<string> := ["admin", "test-lead"]
  const Executors: seq<string> := ["admin", "test-lead", "tester"]
}
