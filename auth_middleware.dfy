/** The session gates that run before a handler (backend/middleware/auth.js).
    A gate only reads the session; it either hands the request on to the
    handler (`next()`) or answers it itself. */
module AuthMiddleware {
  import opened Common

  datatype Gate = Next | Reject(status: int, message: string, authenticated: Option<bool>)

  const AUTH_REQUIRED := "Authentication required. Please log in to perform this action."

  /** `isAuthenticated`: a missing session, or one without a truthy `userId`,
      is answered with 401 and `authenticated: false`; otherwise the handler runs. */
  function IsAuthenticated(s: Session?): (g: Gate)
    reads s
    ensures g.Next? <==> SessionUser(s).Some?
    ensures g.Reject? ==> g == Reject(UNAUTHORIZED, AUTH_REQUIRED, Some(false))
  {
    if s == null || !Truthy(s.userId) then Reject(UNAUTHORIZED, AUTH_REQUIRED, Some(false))
    else Next
  }

  /** `optionalAuth`: always hands the request on, whatever the session holds. */
  function OptionalAuth(s: Session?): (g: Gate)
    reads s
    ensures g.Next?
  {
    Next
  }
}
