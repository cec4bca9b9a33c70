/**
 * server/middlewares/auth-middleware.js: reads the `Authorization` header,
 * strips the first "Bearer", trims, verifies the token, and resolves the
 * caller by the token's EMAIL claim; on success the password-less record, the
 * token and the record's id are attached to the request.
 */
module AuthMiddleware {
  import opened Wrappers
  import opened Text
  import opened UserModel
  import opened Store
  import opened Http

  const TokenMissing := "Unauthorized. Token missing."
  const InvalidToken := "Unauthorized. Invalid token."
  const UserNotFound := "Unauthorized. User not found."

  /** `token.replace("Bearer", "").trim()`. */
  function CleanToken(header: string): string {
    Trim(ReplaceFirst(header, "Bearer", ""))
  }

  /** The decision of the middleware: the 401 it sends, or the user and token it attaches. */
  datatype AuthResult = Reject(response: Response) | Accept(user: PublicUser, token: string)

  /** `authMiddleware` as a function of the stored users, the header and the clock. */
  function Authenticate(users: seq<User>, header: Option<string>, svc: TokenService, now: nat): (r: AuthResult)
    ensures r.Reject? ==> r.response.status == 401
    ensures r.Accept? ==> svc.verify(r.token, now).Some? && r.user.email == svc.verify(r.token, now).value.email
    ensures header.None? || header.value == "" ==> r == Reject(Response(401, Message(TokenMissing)))
    ensures header.Some? && header.value != "" && svc.verify(CleanToken(header.value), now).None? ==>
      r == Reject(Response(401, Message(InvalidToken)))
    ensures header.Some? && header.value != "" && svc.verify(CleanToken(header.value), now).Some? &&
            FindByEmail(users, svc.verify(CleanToken(header.value), now).value.email).None? ==>
      r == Reject(Response(401, Message(UserNotFound)))
  {
    if header.None? || header.value == "" then Reject(Response(401, Message(TokenMissing)))
    else
      var token := CleanToken(header.value);
      match svc.verify(token, now)
      case None => Reject(Response(401, Message(InvalidToken)))
      case Some(claims) =>
        match FindByEmail(users, claims.email)
        case None => Reject(Response(401, Message(UserNotFound)))
        case Some(u) => Accept(Public(u), token)
  }

  /**
   * The middleware lets a request through exactly when the header is
   * non-empty, its cleaned token verifies, and some stored user has the
   * token's email; the user attached is the first such one.
   */
  lemma AcceptIff(users: seq<User>, header: Option<string>, svc: TokenService, now: nat)
    ensures Authenticate(users, header, svc, now).Accept? <==>
      && header.Some? && header.value != ""
      && svc.verify(CleanToken(header.value), now).Some?
      && FindByEmail(users, svc.verify(CleanToken(header.value), now).value.email).Some?
    ensures Authenticate(users, header, svc, now).Accept? ==>
      var claims := svc.verify(CleanToken(header.value), now).value;
      && Authenticate(users, header, svc, now).token == CleanToken(header.value)
      && Authenticate(users, header, svc, now).user == Public(users[IndexOfEmail(users, claims.email)])
  {
  }

  /**
   * `authMiddleware(req, res, next)`: on acceptance sets `req.user`,
   * `req.token` and `req.userID` and calls `next()`; otherwise sends the 401
   * and leaves the request alone. The store is only read.
   */
  method Authorize(db: Db, req: Request, svc: TokenService, now: nat) returns (out: Outcome)
    modifies req
    ensures var r := Authenticate(db.users, old(req.authorization), svc, now);
      && (r.Accept? ==> out == Next && req.user == Some(r.user) && req.token == Some(r.token) && req.userID == Some(r.user.id))
      && (r.Reject? ==> out == Sent(r.response) && req.user == old(req.user) && req.token == old(req.token)
                        && req.userID == old(req.userID))
    ensures req.authorization == old(req.authorization) && req.body == old(req.body) && req.id == old(req.id)
  {
    var r := Authenticate(db.users, req.authorization, svc, now);
    match r
    case Reject(response) =>
      out := Sent(response);
    case Accept(user, token) =>
      req.user := Some(user);
      req.token := Some(token);
      req.userID := Some(user.id);
      out := Next;
  }

  /** The header the client builds, `"Bearer " + t`, cleans back to `t` when `t` has no surrounding whitespace. */
  lemma BearerRoundTrip(t: string)
    requires IsTrimmed(t)
    ensures CleanToken("Bearer " + t) == t
  {
    assert "Bearer " + t == "Bearer" + (" " + t);
    ReplaceFirstAtStart("Bearer", " " + t, "");
    assert "" + (" " + t) == [' '] + t;
    TrimDropsLeadingWhitespace([' '], t);
    TrimOfTrimmed(t);
  }

  /** The header "Bearer " sent with an empty token cleans to "" and never verifies. */
  lemma EmptyBearerRejected(users: seq<User>, svc: TokenService, now: nat)
    requires Sound(svc)
    ensures Authenticate(users, Some("Bearer "), svc, now) == Reject(Response(401, Message(InvalidToken)))
  {
    BearerRoundTrip("");
    assert "Bearer " + "" == "Bearer ";
  }

  /**
   * A token generated for a stored user authenticates, until it expires, as
   * the FIRST stored user with that user's email; the token's `userId` plays
   * no part.
   */
  lemma IssuedTokenAuthenticates(users: seq<User>, u: User, svc: TokenService, iat: nat, now: nat)
    requires Sound(svc)
    requires u in users
    requires GenerateToken(u, svc, iat).Some? && now < iat + TokenLifetime
    ensures var t := GenerateToken(u, svc, iat).value;
      Authenticate(users, Some("Bearer " + t), svc, now) == Accept(Public(users[IndexOfEmail(users, u.email)]), t)
  {
    var t := GenerateToken(u, svc, iat).value;
    BearerRoundTrip(t);
    GeneratedTokenVerifies(u, svc, iat, now);
    assert FindByEmail(users, u.email).Some?;
  }

  /** Once 30 days have passed since issue, the same header gets 401 "Invalid token". */
  lemma ExpiredTokenRejected(users: seq<User>, u: User, svc: TokenService, iat: nat, now: nat)
    requires Sound(svc)
    requires GenerateToken(u, svc, iat).Some? && iat + TokenLifetime <= now
    ensures Authenticate(users, Some("Bearer " + GenerateToken(u, svc, iat).value), svc, now)
            == Reject(Response(401, Message(InvalidToken)))
  {
    BearerRoundTrip(GenerateToken(u, svc, iat).value);
    GeneratedTokenExpires(u, svc, iat, now);
  }

  /**
   * Identity is resolved by email: when two stored users share an email, a
   * valid token issued to the later one authenticates as the earlier one.
   */
  lemma SharedEmailResolvesToFirst(users: seq<User>, i: nat, j: nat, svc: TokenService, iat: nat, now: nat)
    requires Sound(svc)
    requires i < j < |users| && users[i].email == users[j].email
    requires forall k :: 0 <= k < i ==> users[k].email != users[i].email
    requires GenerateToken(users[j], svc, iat).Some? && now < iat + TokenLifetime
    ensures Authenticate(users, Some("Bearer " + GenerateToken(users[j], svc, iat).value), svc, now)
            == Accept(Public(users[i]), GenerateToken(users[j], svc, iat).value)
  {
    IssuedTokenAuthenticates(users, users[j], svc, iat, now);
    assert IndexOfEmail(users, users[j].email) == i;
  }
}
