/**
 * The User schema (server/models/user-model.js): the stored record, the
 * `required`/`default` rules applied by `User.create`, the plain-text
 * `comparePassword`, and the token payload built by `generateToken`.
 */
module UserModel {
  import opened Wrappers
  import opened Text

  /** A stored user document; `id` stands for the ObjectId `_id`. */
  datatype User = User(id: nat, username: string, email: string, phone: string, password: string, isAdmin: bool)

  /** A user document loaded with `.select("-password")` or `{ password: 0 }`. */
  datatype PublicUser = PublicUser(id: nat, username: string, email: string, phone: string, isAdmin: bool)

  function Public(u: User): PublicUser {
    PublicUser(u.id, u.username, u.email, u.phone, u.isAdmin)
  }

  /** Mongoose's `required` check on a String path: set and not the empty string. */
  predicate RequiredString(v: Option<string>) {
    v.Some? && v.value != ""
  }

  /**
   * `User.create({ username, email, phone, password })`: the four String paths
   * are required, `isAdmin` is not supplied and takes its default `false`, and
   * nothing makes `email` unique.
   */
  function Create(id: nat, username: Option<string>, email: Option<string>, phone: Option<string>,
                  password: Option<string>): (r: Option<User>)
    ensures r.Some? <==> RequiredString(username) && RequiredString(email) && RequiredString(phone) && RequiredString(password)
    ensures r.Some? ==> !r.value.isAdmin && r.value.id == id
    ensures r.Some? ==> r.value.username == username.value && r.value.email == email.value
                        && r.value.phone == phone.value && r.value.password == password.value
  {
    if RequiredString(username) && RequiredString(email) && RequiredString(phone) && RequiredString(password)
    then Some(User(id, username.value, email.value, phone.value, password.value, false))
    else None
  }

  /** `comparePassword`: plain string equality with the stored password, no hashing. */
  predicate ComparePassword(u: User, candidate: string) {
    candidate == u.password
  }

  /** The JWT payload `{ userId, email, isAdmin }`. */
  datatype Claims = Claims(userId: string, email: string, isAdmin: bool)

  /**
   * The signing library, left abstract: `sign(claims, iat)` is `jwt.sign` at time
   * `iat` (seconds) with the server's secret, `None` when it throws; `verify(t, now)`
   * is `jwt.verify`, `None` when it throws.
   */
  datatype TokenService = TokenService(sign: (Claims, nat) -> Option<string>, verify: (string, nat) -> Option<Claims>)

  /** `expiresIn: "30d"`, in seconds. */
  const TokenLifetime: nat := 30 * 24 * 60 * 60

  /**
   * What the model requires of the signing library: a token verifies to its own
   * claims until 30 days after issue and not after; the empty string never
   * verifies; a token carries no surrounding whitespace.
   */
  ghost predicate Sound(svc: TokenService) {
    && (forall c: Claims, iat: nat, now: nat :: svc.sign(c, iat).Some? && now < iat + TokenLifetime ==>
          svc.verify(svc.sign(c, iat).value, now) == Some(c))
    && (forall c: Claims, iat: nat, now: nat :: svc.sign(c, iat).Some? && iat + TokenLifetime <= now ==>
          svc.verify(svc.sign(c, iat).value, now).None?)
    && (forall now: nat :: svc.verify("", now).None?)
    && (forall c: Claims, iat: nat :: svc.sign(c, iat).Some? ==> IsTrimmed(svc.sign(c, iat).value))
  }

  function Digit(d: nat): char
    requires d < 10
  {
    "0123456789"[d]
  }

  /** `_id.toString()`, with ids written in decimal. */
  function IdString(n: nat): (s: string)
    ensures |s| > 0
    decreases n
  {
    if n < 10 then [Digit(n)] else IdString(n / 10) + [Digit(n % 10)]
  }

  function TokenPayload(u: User): Claims {
    Claims(IdString(u.id), u.email, u.isAdmin)
  }

  /** `generateToken()` at time `now`; `None` is the `undefined` returned when signing throws. */
  function GenerateToken(u: User, svc: TokenService, now: nat): Option<string> {
    svc.sign(TokenPayload(u), now)
  }

  /** A generated token verifies to exactly `{ userId, email, isAdmin }` of the user until it expires. */
  lemma GeneratedTokenVerifies(u: User, svc: TokenService, iat: nat, now: nat)
    requires Sound(svc)
    requires GenerateToken(u, svc, iat).Some?
    requires now < iat + TokenLifetime
    ensures svc.verify(GenerateToken(u, svc, iat).value, now) == Some(Claims(IdString(u.id), u.email, u.isAdmin))
  {
  }

  /** From the thirtieth day on, the same token no longer verifies. */
  lemma GeneratedTokenExpires(u: User, svc: TokenService, iat: nat, now: nat)
    requires Sound(svc)
    requires GenerateToken(u, svc, iat).Some?
    requires iat + TokenLifetime <= now
    ensures svc.verify(GenerateToken(u, svc, iat).value, now).None?
  {
  }
}
