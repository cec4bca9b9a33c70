/**
 * How Express runs a route: each layer of the chain in turn, until one sends a
 * response or hands an error to the error middleware. The three route tables
 * decide which layers guard which handler.
 */
module Pipeline {
  import opened Wrappers
  import opened Json
  import opened Text
  import opened UserModel
  import opened Store
  import opened Http
  import opened AuthValidator
  import opened Stages
  import VM = ValidateMiddleware
  import EM = ErrorMiddleware
  import AM = AuthMiddleware
  import AdminMiddleware
  import AC = AuthControllers
  import Admin = AdminController
  import CR = ChartRouter
  import AuthRouter
  import AdminRouter
  import ChartRoutes

  datatype Route = AuthApi(a: AuthRouter.AuthRoute) | AdminApi(b: AdminRouter.AdminRoute) | ChartApi(c: ChartRoutes.ChartRoute)

  /** The chain mounted for each route. */
  function ChainOf(r: Route): (chain: seq<Stage>)
    ensures WellOrdered(chain, false, {})
  {
    match r
    case AuthApi(a) => AuthRouter.Chain(a)
    case AdminApi(b) => AdminRouter.Chain(b)
    case ChartApi(c) => ChartRoutes.Chain(c)
  }

  /** What the handlers take from outside: zod's email check, the signing library and the clock. */
  datatype Env = Env(isEmail: string -> bool, svc: TokenService, now: nat)

  /** The request carries what the stages run so far established. */
  ghost predicate Ready(req: Request, authed: bool, validated: set<Schema>)
    reads req
  {
    (authed ==> req.user.Some?) && forall s :: s in validated ==> HasFields(req.body, s)
  }

  /** The store's contents are as they were. */
  twostate predicate DbSame(db: Db)
    reads db
  {
    db.users == old(db.users) && db.charts == old(db.charts) && db.nextId == old(db.nextId)
  }

  /** The response for a layer that did not call `next()`: its own, or the error middleware's. */
  function Answer(out: Outcome): Response
    requires !out.Next?
  {
    match out
    case Sent(r) => r
    case Fail(e) => EM.ErrorResponse(e)
  }

  /** The handler that ends a chain. */
  method RunHandler(h: Handler, db: Db, req: Request, env: Env, ghost authed: bool, ghost validated: set<Schema>)
    returns (resp: Response)
    requires db.Valid() && Ready(req, authed, validated) && Prepared(h, authed, validated)
    modifies db
    ensures db.Valid()
    ensures !Writes(h) ==> DbSame(db)
    ensures h == CurrentUserHandler ==> resp == AC.CurrentUser(req.user)
    ensures h == LoginHandler && GetString(req.body, "email").Some? && GetString(req.body, "password").Some? ==>
      resp == AC.Login(old(db.users), GetString(req.body, "email").value, GetString(req.body, "password").value, env.svc, env.now)
  {
    match h
    case RegisterHandler =>
      assert Username in Fields(SignupSchema) && Email in Fields(SignupSchema);
      assert Phone in Fields(SignupSchema) && Password in Fields(SignupSchema);
      var b := req.body;
      resp := AC.Register(db, GetString(b, "username").value, GetString(b, "email").value, GetString(b, "phone").value,
                          GetString(b, "password").value, env.svc, env.now);
    case LoginHandler =>
      ghost var s :| s in validated;
      assert Email in Fields(s) && Password in Fields(s);
      resp := AC.Login(db.users, GetString(req.body, "email").value, GetString(req.body, "password").value, env.svc, env.now);
    case CurrentUserHandler =>
      resp := AC.CurrentUser(req.user);
    case GetAllUsersHandler =>
      resp := Admin.GetAllUsers(db.users);
    case GetUserByIdHandler =>
      resp := Admin.GetUserById(db.users, req.id);
    case UpdateUserByIdHandler =>
      resp := Admin.UpdateUserById(db, req.id, req.body);
    case DeleteUserByIdHandler =>
      resp := Admin.DeleteUserById(db, req.id);
    case ListChartsHandler =>
      resp := CR.ListAllCharts(db.users, db.charts);
    case SaveChartHandler =>
      resp := CR.SaveChart(db, req.user.value, req.body, env.now);
    case DeleteChartHandler =>
      resp := CR.DeleteChart(db, req.id);
    case HistoryHandler =>
      resp := CR.History(db.charts, req.user.value.id);
  }

  /** Runs the layers of `chain` in order; a chain that ends without a response gets Express's 404. */
  method RunChain(chain: seq<Stage>, db: Db, req: Request, env: Env, ghost authed: bool, ghost validated: set<Schema>)
    returns (resp: Response)
    requires db.Valid() && Ready(req, authed, validated) && WellOrdered(chain, authed, validated)
    modifies db, req
    ensures db.Valid()
    // A rejected bearer check answers its 401 before anything else runs.
    ensures |chain| > 0 && chain[0] == RequireAuth && AM.Authenticate(old(db.users), old(req.authorization), env.svc, env.now).Reject? ==>
      resp == AM.Authenticate(old(db.users), old(req.authorization), env.svc, env.now).response && DbSame(db)
    // The admin gate turns away a caller whose attached record is not an admin.
    ensures |chain| > 0 && chain[0] == RequireAdmin && old(req.user).Some? && !old(req.user).value.isAdmin ==>
      resp == Response(403, Message(AdminMiddleware.AccessDenied)) && DbSame(db)
    ensures AdminGuarded(chain) && AM.Authenticate(old(db.users), old(req.authorization), env.svc, env.now).Accept? &&
            !AM.Authenticate(old(db.users), old(req.authorization), env.svc, env.now).user.isAdmin ==>
      resp == Response(403, Message(AdminMiddleware.AccessDenied)) && DbSame(db)
    // A body the schema rejects is answered 422 by the error middleware.
    ensures |chain| > 0 && chain[0].ValidateBody? && Parse(chain[0].schema, old(req.body), env.isEmail).Err? ==>
      resp == EM.ErrorResponse(VM.ValidationError(Parse(chain[0].schema, old(req.body), env.isEmail).error)) && DbSame(db)
    ensures |chain| > 0 && chain[0] == Handle(CurrentUserHandler) ==> resp == AC.CurrentUser(old(req.user))
    ensures |chain| > 1 && chain[0] == RequireAuth && chain[1] == Handle(CurrentUserHandler) &&
            AM.Authenticate(old(db.users), old(req.authorization), env.svc, env.now).Accept? ==>
      resp == AC.CurrentUser(Some(AM.Authenticate(old(db.users), old(req.authorization), env.svc, env.now).user))
    ensures |chain| > 0 && chain[0] == Handle(LoginHandler) &&
            GetString(old(req.body), "email").Some? && GetString(old(req.body), "password").Some? ==>
      resp == AC.Login(old(db.users), GetString(old(req.body), "email").value, GetString(old(req.body), "password").value,
                       env.svc, env.now)
    ensures |chain| > 1 && chain[0] == ValidateBody(LoginSchema) && chain[1] == Handle(LoginHandler) &&
            Parse(LoginSchema, old(req.body), env.isEmail).Ok? &&
            GetString(old(req.body), "email").Some? && GetString(old(req.body), "password").Some? ==>
      resp == AC.Login(old(db.users), Trim(GetString(old(req.body), "email").value),
                       Trim(GetString(old(req.body), "password").value), env.svc, env.now)
    decreases |chain|
  {
    if chain == [] {
      return Response(404, NoRoute);
    }
    match chain[0]
    case ValidateBody(s) =>
      ghost var body0 := req.body;
      var out := VM.Validate(s, req, env.isEmail);
      if out.Next? {
        ParsedHasFields(s, body0, env.isEmail);
        ParsedIsOutput(s, body0, env.isEmail);
        if s == LoginSchema && GetString(body0, "email").Some? && GetString(body0, "password").Some? {
          OutputField(s, body0, Email);
          OutputField(s, body0, Password);
        }
        resp := RunChain(chain[1..], db, req, env, authed, {s});
      } else {
        resp := Answer(out);
      }
    case RequireAuth =>
      var out := AM.Authorize(db, req, env.svc, env.now);
      if out.Next? {
        resp := RunChain(chain[1..], db, req, env, true, validated);
      } else {
        resp := Answer(out);
      }
    case RequireAdmin =>
      var out := AdminMiddleware.AdminGate(req.user);
      if out.Next? {
        resp := RunChain(chain[1..], db, req, env, authed, validated);
      } else {
        resp := Answer(out);
      }
    case Handle(h) =>
      resp := RunHandler(h, db, req, env, authed, validated);
  }

  /**
   * Serves one request on `route`: every admin route turns away a
   * non-administrator with 403, every bearer-guarded route answers a failed
   * check with its 401, register and login answer a rejected body with 422,
   * all without touching the store; `GET /api/auth/user` returns the caller
   * the token resolves to, and login compares the trimmed credentials.
   */
  method Serve(route: Route, db: Db, req: Request, env: Env) returns (resp: Response)
    requires db.Valid()
    modifies db, req
    ensures db.Valid()
    ensures (route.AdminApi? || route in {ChartApi(ChartRoutes.ListCharts), ChartApi(ChartRoutes.DeleteChart)}) &&
            AM.Authenticate(old(db.users), old(req.authorization), env.svc, env.now).Accept? &&
            !AM.Authenticate(old(db.users), old(req.authorization), env.svc, env.now).user.isAdmin ==>
      resp == Response(403, Message(AdminMiddleware.AccessDenied)) && DbSame(db)
    ensures route !in {AuthApi(AuthRouter.PostRegister), AuthApi(AuthRouter.PostLogin)} &&
            AM.Authenticate(old(db.users), old(req.authorization), env.svc, env.now).Reject? ==>
      resp == AM.Authenticate(old(db.users), old(req.authorization), env.svc, env.now).response && DbSame(db)
    ensures route == AuthApi(AuthRouter.PostRegister) && Parse(SignupSchema, old(req.body), env.isEmail).Err? ==>
      resp == EM.ErrorResponse(VM.ValidationError(Parse(SignupSchema, old(req.body), env.isEmail).error)) && DbSame(db)
    ensures route == AuthApi(AuthRouter.PostLogin) && Parse(LoginSchema, old(req.body), env.isEmail).Err? ==>
      resp == EM.ErrorResponse(VM.ValidationError(Parse(LoginSchema, old(req.body), env.isEmail).error)) && DbSame(db)
    ensures route == AuthApi(AuthRouter.GetUser) &&
            AM.Authenticate(old(db.users), old(req.authorization), env.svc, env.now).Accept? ==>
      resp == Response(200, UserData(Some(AM.Authenticate(old(db.users), old(req.authorization), env.svc, env.now).user)))
    ensures route == AuthApi(AuthRouter.PostLogin) && Parse(LoginSchema, old(req.body), env.isEmail).Ok? &&
            GetString(old(req.body), "email").Some? && GetString(old(req.body), "password").Some? ==>
      resp == AC.Login(old(db.users), Trim(GetString(old(req.body), "email").value),
                       Trim(GetString(old(req.body), "password").value), env.svc, env.now)
  {
    var chain := ChainOf(route);
    if route.AdminApi? || route in {ChartApi(ChartRoutes.ListCharts), ChartApi(ChartRoutes.DeleteChart)} {
      assert AdminGuarded(chain);
    }
    resp := RunChain(chain, db, req, env, false, {});
  }

  /**
   * A user who logs in and sends the token back as `"Bearer " + token` to
   * `GET /api/auth/user` before it expires gets the record of the first stored
   * user with the login email, without its password.
   */
  lemma LoginThenCurrentUser(users: seq<User>, email: string, password: string, svc: TokenService, iat: nat, now: nat)
    requires Sound(svc)
    requires AC.Login(users, email, password, svc, iat).status == 200
    requires AC.Login(users, email, password, svc, iat).body.token.Some? && now < iat + TokenLifetime
    ensures var t := AC.Login(users, email, password, svc, iat).body.token.value;
      && AM.Authenticate(users, Some("Bearer " + t), svc, now) == AM.Accept(Public(FindByEmail(users, email).value), t)
      && AC.CurrentUser(Some(AM.Authenticate(users, Some("Bearer " + t), svc, now).user))
         == Response(200, UserData(Some(Public(FindByEmail(users, email).value))))
  {
    var u := FindByEmail(users, email).value;
    AM.IssuedTokenAuthenticates(users, u, svc, iat, now);
    assert IndexOfEmail(users, u.email) < |users|;
  }
}
