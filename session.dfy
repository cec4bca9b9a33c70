/**
 * client/src/store/auth.jsx: the client's session. The token lives in
 * `localStorage` and in memory; the user record is refetched whenever the
 * token changes; every request carries `"Bearer " + token`.
 */
module Session {
  import opened Wrappers
  import opened UserModel

  /** What `GET /api/auth/user` came back with: an ok response's `userData`, a non-ok response, or a thrown fetch. */
  datatype UserFetch = FetchOk(userData: Option<PublicUser>) | FetchNotOk | FetchThrew

  class AuthState {
    /** `localStorage["token"]`; `None` when the key is absent. */
    var stored: Option<string>
    var token: string
    var user: Option<PublicUser>
    var isLoading: bool

    /** The provider mounts: the persisted token, or "" when none is stored. */
    constructor (persisted: Option<string>)
      ensures stored == persisted
      ensures token == (if persisted.Some? then persisted.value else "")
      ensures user.None? && isLoading
    {
      stored := persisted;
      token := if persisted.Some? then persisted.value else "";
      user := None;
      isLoading := true;
    }

    /** `isLoggedIn = !!token`. */
    predicate IsLoggedIn()
      reads this
    {
      token != ""
    }

    /** `authorizationToken`: always "Bearer " followed by the token, so never empty, even logged out. */
    function AuthorizationToken(): (h: string)
      reads this
      ensures |h| == 7 + |token| && h[..7] == "Bearer " && h[7..] == token
    {
      "Bearer " + token
    }

    /** `storeTokenInLS(t)`: persists `t` and makes it the token. */
    method StoreTokenInLS(t: string)
      modifies this
      ensures stored == Some(t) && token == t
      ensures user == old(user) && isLoading == old(isLoading)
      ensures IsLoggedIn() <==> t != ""
    {
      stored := Some(t);
      token := t;
    }

    /** `logoutUser()`: forgets the persisted token, clears the token and the user. */
    method LogoutUser()
      modifies this
      ensures stored.None? && token == "" && user.None?
      ensures isLoading == old(isLoading)
      ensures !IsLoggedIn()
    {
      stored := None;
      token := "";
      user := None;
    }

    /**
     * The effect run when the token changes: with a token it fetches the user
     * (`requested`) and keeps `userData` only from an ok response; without one
     * it clears the user without a request. Loading ends either way.
     */
    method SyncUser(result: UserFetch) returns (requested: bool)
      modifies this
      ensures requested <==> old(token) != ""
      ensures !isLoading
      ensures user == (if old(token) != "" && result.FetchOk? then result.userData else None)
      ensures stored == old(stored) && token == old(token)
    {
      isLoading := true;
      if token != "" {
        requested := true;
        match result {
          case FetchOk(data) => user := data;
          case FetchNotOk => user := None;
          case FetchThrew => user := None;
        }
        isLoading := false;
      } else {
        requested := false;
        user := None;
        isLoading := false;
      }
    }
  }
}
