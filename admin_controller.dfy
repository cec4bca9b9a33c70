/**
 * server/controllers/admin-controller.js: list, read, patch and delete users.
 * Reads strip the password; the patch is an unrestricted `$set` of the body;
 * the delete is unconditional, even of the caller.
 */
module AdminController {
  import opened Wrappers
  import opened Json
  import opened UserModel
  import opened Store
  import opened Http
  import opened MongooseCast
  import EM = ErrorMiddleware

  const NoUsers := "No Users Found"
  const UserDeleted := "User Deleted Successfully"

  /** `User.find().select("-password")`: every user, in store order, without the password. */
  function PublicAll(users: seq<User>): (r: seq<PublicUser>)
    ensures |r| == |users|
    ensures forall i :: 0 <= i < |users| ==> r[i] == Public(users[i])
  {
    seq(|users|, i requires 0 <= i < |users| => Public(users[i]))
  }

  /** `getAllUsers`: 404 on an empty store, otherwise 200 with every user minus the password. */
  function GetAllUsers(users: seq<User>): (r: Response)
    ensures r.status == 404 <==> |users| == 0
    ensures |users| == 0 ==> r.body == Message(NoUsers)
    ensures |users| > 0 ==> r.status == 200 && r.body.UserList? && |r.body.users| == |users|
    ensures |users| > 0 ==> forall i :: 0 <= i < |users| ==> r.body.users[i] == Public(users[i])
  {
    if |users| == 0 then Response(404, Message(NoUsers)) else Response(200, UserList(PublicAll(users)))
  }

  /** The lookup result of `findOne({ _id: id }, { password: 0 })`. */
  function PublicById(users: seq<User>, id: nat): (r: Option<PublicUser>)
    ensures r.None? <==> forall u :: u in users ==> u.id != id
    ensures r.Some? ==> r.value.id == id && exists u :: u in users && r.value == Public(u)
  {
    match FindUserById(users, id)
    case None => None
    case Some(u) => Some(Public(u))
  }

  /** `getUserById`: always 200; `data` is `null` when no user has the id. */
  function GetUserById(users: seq<User>, id: nat): (r: Response)
    ensures r.status == 200 && r.body == UserLookup(PublicById(users, id))
  {
    Response(200, UserLookup(PublicById(users, id)))
  }

  /** Stands for the message of the CastError `updateOne` throws; its wording depends on the value and the path. */
  const CastFailed := "Cast failed"

  /**
   * `updateUserById`: `$set` of the body's schema paths, cast to their types,
   * on the user with the id; 200 with the counts, matched or not. A cast
   * that throws goes to `next(error)`, and the error middleware answers 500.
   */
  method UpdateUserById(db: Db, id: nat, body: Json) returns (resp: Response)
    requires db.Valid()
    modifies db
    ensures db.Valid()
    ensures db.charts == old(db.charts) && db.nextId == old(db.nextId)
    ensures PatchOf(body).None? ==>
      db.users == old(db.users) && resp == EM.ErrorResponse(HttpError(None, Some(CastFailed), None)) && resp.status == 500
    ensures PatchOf(body).Some? ==>
      && db.users == Store.UpdateUserById(old(db.users), id, PatchOf(body).value)
      && resp.status == 200 && resp.body.Updated?
      && (resp.body.matchedCount == 1 <==> FindUserById(old(db.users), id).Some?)
      && (FindUserById(old(db.users), id).None? ==> db.users == old(db.users) && resp.body == Updated(0, 0))
  {
    var patch := PatchOf(body);
    if patch.None? {
      return EM.ErrorResponse(HttpError(None, Some(CastFailed), None));
    }
    var matched, modified := db.UpdateOneUser(id, patch.value);
    resp := Response(200, Updated(matched, modified));
  }

  /** `deleteUserById`: removes the user with the id, if any, and answers 200 either way. */
  method DeleteUserById(db: Db, id: nat) returns (resp: Response)
    requires db.Valid()
    modifies db
    ensures db.Valid()
    ensures db.users == Store.DeleteUserById(old(db.users), id)
    ensures db.charts == old(db.charts) && db.nextId == old(db.nextId)
    ensures resp == Response(200, Message(UserDeleted))
  {
    var _ := db.DeleteOneUser(id);
    resp := Response(200, Message(UserDeleted));
  }

  /** Patching keeps every id in place, so the first position of each id is unchanged. */
  lemma UpdateKeepsIndex(users: seq<User>, id: nat, p: UserPatch, x: nat)
    ensures IndexOfUserId(Store.UpdateUserById(users, id, p), x) == IndexOfUserId(users, x)
  {
    var r := Store.UpdateUserById(users, id, p);
    assert forall i :: 0 <= i < |users| ==> r[i].id == users[i].id;
  }

  /**
   * Reading a user back after a patch shows exactly the patched record: each
   * path the patch names takes its value, every other path is kept.
   */
  lemma UpdateThenGet(users: seq<User>, id: nat, p: UserPatch)
    requires FindUserById(users, id).Some?
    ensures GetUserById(Store.UpdateUserById(users, id, p), id).body
            == UserLookup(Some(Public(ApplyPatch(FindUserById(users, id).value, p))))
  {
    UpdateKeepsIndex(users, id, p, id);
  }

  /** A patch never touches another id's record. */
  lemma UpdateLeavesOthers(users: seq<User>, id: nat, p: UserPatch, other: nat)
    requires other != id
    ensures PublicById(Store.UpdateUserById(users, id, p), other) == PublicById(users, other)
  {
    UpdateKeepsIndex(users, id, p, other);
  }

  /**
   * There is no allow-list: a body setting `isAdmin` to `true`, `"true"` or
   * `1` makes the target an administrator, a body naming `email` rewrites
   * the email the target logs in with, and a number given as the phone is
   * stored as its decimal string.
   */
  lemma PatchGrantsAdmin(u: User, email: string)
    ensures forall v :: v in {JBool(true), JStr("true"), JNum(1)} ==>
      PatchOf(JObj(map["isAdmin" := v])).Some? && ApplyPatch(u, PatchOf(JObj(map["isAdmin" := v])).value).isAdmin
    ensures PatchOf(JObj(map["email" := JStr(email)])).Some?
    ensures ApplyPatch(u, PatchOf(JObj(map["email" := JStr(email)])).value).email == email
    ensures PatchOf(JObj(map["phone" := JNum(42)])) == Some(UserPatch(None, None, Some("42"), None, None))
  {
    forall v | v in {JBool(true), JStr("true"), JNum(1)}
      ensures PatchOf(JObj(map["isAdmin" := v])).Some? && ApplyPatch(u, PatchOf(JObj(map["isAdmin" := v])).value).isAdmin
    {
      var m := map["isAdmin" := v];
      assert "username" !in m && "email" !in m && "phone" !in m && "password" !in m;
    }
    assert UserModel.IdString(42) == "42";
  }

  /** A value `isAdmin` cannot be cast to a boolean rejects the whole update. */
  lemma PatchRejectsBadBoolean()
    ensures PatchOf(JObj(map["isAdmin" := JStr("abc"), "email" := JStr("x@y.z")])).None?
  {
  }
}
