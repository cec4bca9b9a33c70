/** server/router/admin-router.js: every `/api/admin` route runs the bearer check, then the admin gate. */
module AdminRouter {
  import opened Stages

  datatype AdminRoute = GetUsers | GetUserById | PatchUser | DeleteUser

  function Chain(r: AdminRoute): (chain: seq<Stage>)
    ensures WellOrdered(chain, false, {})
    ensures AdminGuarded(chain)
  {
    var handler := match r
      case GetUsers => GetAllUsersHandler
      case GetUserById => GetUserByIdHandler
      case PatchUser => UpdateUserByIdHandler
      case DeleteUser => DeleteUserByIdHandler;
    var chain := [RequireAuth, RequireAdmin, Handle(handler)];
    assert chain[1..][1..] == [Handle(handler)];
    assert WellOrdered(chain[1..][1..], true, {});
    assert WellOrdered(chain[1..], true, {});
    chain
  }
}
