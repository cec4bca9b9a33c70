/** server/router/auth-router.js: the middleware chain of each `/api/auth` route. */
module AuthRouter {
  import opened AuthValidator
  import opened Stages

  datatype AuthRoute = PostRegister | PostLogin | GetUser

  function Chain(r: AuthRoute): (chain: seq<Stage>)
    ensures WellOrdered(chain, false, {})
    ensures r != GetUser <==> TokenFree(chain)
  {
    match r
    case PostRegister => [ValidateBody(SignupSchema), Handle(RegisterHandler)]
    case PostLogin => [ValidateBody(LoginSchema), Handle(LoginHandler)]
    case GetUser => [RequireAuth, Handle(CurrentUserHandler)]
  }
}
