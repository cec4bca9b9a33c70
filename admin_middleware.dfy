/**
 * server/middlewares/admin-middleware.js: reads `req.user.isAdmin` (the stored
 * record attached by the auth middleware) and either continues or answers 403.
 */
module AdminMiddleware {
  import opened Wrappers
  import opened UserModel
  import opened Http

  const AccessDenied := "Access denied. User is not an admin."

  /** The TypeError raised by `req.user.isAdmin` when no user is attached, handed to `next(error)`. */
  const NoUserError := HttpError(None, Some("Cannot read properties of undefined (reading 'isAdmin')"), None)

  /** `adminMiddleware(req, res, next)` as a function of `req.user`. */
  function AdminGate(user: Option<PublicUser>): (r: Outcome)
    ensures r == Next <==> user.Some? && user.value.isAdmin
    ensures user.Some? && !user.value.isAdmin ==> r == Sent(Response(403, Message(AccessDenied)))
    ensures user.None? ==> r == Fail(NoUserError)
  {
    match user
    case None => Fail(NoUserError)
    case Some(u) => if u.isAdmin then Next else Sent(Response(403, Message(AccessDenied)))
  }
}
