/**
 * server/controllers/auth-controllers.js: `register` creates a user unless the
 * email is taken, `login` compares the plain-text password of the first user
 * with that email, and `user` echoes the record the auth middleware attached.
 * Both handlers receive bodies already cleaned by the validators, so their
 * fields are strings.
 */
module AuthControllers {
  import opened Wrappers
  import opened UserModel
  import opened Store
  import opened Http

  const EmailExists := "Email already exists"
  const ServerError := "Server error"
  const InvalidCredentials := "Invalid Credentials"
  const WrongPassword := "Invalid Email or Password"

  /**
   * `register(req, res)` at time `now`: 400 when some user has the email; 500
   * when `User.create` fails validation; otherwise exactly one user is added
   * with the next id, and 201 carries its token and its id as a string.
   */
  method Register(db: Db, username: string, email: string, phone: string, password: string,
                  svc: TokenService, now: nat) returns (resp: Response)
    requires db.Valid()
    modifies db
    ensures db.Valid()
    ensures FindByEmail(old(db.users), email).Some? ==>
      resp == Response(400, Message(EmailExists)) && db.users == old(db.users) && db.nextId == old(db.nextId)
    ensures FindByEmail(old(db.users), email).None? ==>
      match Create(old(db.nextId), Some(username), Some(email), Some(phone), Some(password))
      case None => resp == Response(500, Message(ServerError)) && db.users == old(db.users) && db.nextId == old(db.nextId)
      case Some(u) =>
        && db.users == old(db.users) + [u] && db.nextId == old(db.nextId) + 1
        && resp == Response(201, Credentials("successful", GenerateToken(u, svc, now), IdString(u.id)))
    ensures db.charts == old(db.charts)
  {
    if FindByEmail(db.users, email).Some? {
      return Response(400, Message(EmailExists));
    }
    var created := Create(db.nextId, Some(username), Some(email), Some(phone), Some(password));
    match created
    case None =>
      resp := Response(500, Message(ServerError));
    case Some(u) =>
      db.InsertUser(u);
      resp := Response(201, Credentials("successful", GenerateToken(u, svc, now), IdString(u.id)));
  }

  /** `login(req, res)` at time `now`, reading the store only. */
  function Login(users: seq<User>, email: string, password: string, svc: TokenService, now: nat): (r: Response)
    ensures r.status == 200 <==> FindByEmail(users, email).Some? && ComparePassword(FindByEmail(users, email).value, password)
    ensures r.status == 400 <==> FindByEmail(users, email).None?
    ensures r.status == 200 ==>
      var u := FindByEmail(users, email).value;
      r.body == Credentials("Login successful", GenerateToken(u, svc, now), IdString(u.id))
    ensures FindByEmail(users, email).None? ==> r == Response(400, Message(InvalidCredentials))
    ensures FindByEmail(users, email).Some? && !ComparePassword(FindByEmail(users, email).value, password) ==>
      r == Response(401, Message(WrongPassword))
  {
    match FindByEmail(users, email)
    case None => Response(400, Message(InvalidCredentials))
    case Some(u) =>
      if password == u.password then Response(200, Credentials("Login successful", GenerateToken(u, svc, now), IdString(u.id)))
      else Response(401, Message(WrongPassword))
  }

  /** `user(req, res)`: 200 with `req.user` exactly as attached. */
  function CurrentUser(user: Option<PublicUser>): (r: Response)
    ensures r.status == 200 && r.body.UserData? && r.body.userData == user
  {
    Response(200, UserData(user))
  }

  /** A fresh registration can log in at once with the same email and password, and gets the same id back. */
  lemma RegisteredUserLogsIn(users: seq<User>, u: User, svc: TokenService, now: nat)
    requires FindByEmail(users, u.email).None?
    ensures Login(users + [u], u.email, u.password, svc, now)
            == Response(200, Credentials("Login successful", GenerateToken(u, svc, now), IdString(u.id)))
  {
    FindByEmailAppend(users, u, u.email);
  }

  /** Registering an email a stored user already has never changes who that email logs in as. */
  lemma LoginUnaffectedByLaterUser(users: seq<User>, u: User, email: string, password: string, svc: TokenService, now: nat)
    requires FindByEmail(users, email).Some?
    ensures Login(users + [u], email, password, svc, now) == Login(users, email, password, svc, now)
  {
    FindByEmailAppend(users, u, email);
  }
}
