/**
 * The two MongoDB collections as an in-memory store. Documents are kept in
 * insertion (natural) order, so `findOne` returns the first match; ids come
 * from one counter and are never reused.
 */
module Store {
  import opened Wrappers
  import opened Json
  import opened UserModel
  import opened ChartModel
  import opened MongooseCast

  ghost predicate DistinctUserIds(users: seq<User>) {
    forall i, j :: 0 <= i < j < |users| ==> users[i].id != users[j].id
  }

  ghost predicate DistinctChartIds(charts: seq<Chart>) {
    forall i, j :: 0 <= i < j < |charts| ==> charts[i].id != charts[j].id
  }

  /** Index of the first user with email `email`, or `|users|` when there is none. */
  function IndexOfEmail(users: seq<User>, email: string): (k: nat)
    ensures k <= |users|
    ensures k < |users| ==> users[k].email == email
    ensures forall j :: 0 <= j < k ==> users[j].email != email
  {
    if users == [] then 0
    else if users[0].email == email then 0
    else 1 + IndexOfEmail(users[1..], email)
  }

  /** `User.findOne({ email })`: the first stored user with exactly this email. */
  function FindByEmail(users: seq<User>, email: string): (r: Option<User>)
    ensures r.None? <==> forall u :: u in users ==> u.email != email
    ensures r.Some? ==> r.value in users && r.value.email == email
  {
    var k := IndexOfEmail(users, email);
    if k < |users| then Some(users[k]) else None
  }

  /** Appending a user changes `findOne({ email })` only for an email no earlier user has. */
  lemma FindByEmailAppend(users: seq<User>, u: User, email: string)
    ensures FindByEmail(users + [u], email) ==
      if FindByEmail(users, email).Some? then FindByEmail(users, email)
      else if u.email == email then Some(u) else None
  {
    var k := IndexOfEmail(users, email);
    var k' := IndexOfEmail(users + [u], email);
    assert forall j :: 0 <= j < |users| ==> (users + [u])[j] == users[j];
  }

  function IndexOfUserId(users: seq<User>, id: nat): (k: nat)
    ensures k <= |users|
    ensures k < |users| ==> users[k].id == id
    ensures forall j :: 0 <= j < k ==> users[j].id != id
  {
    if users == [] then 0
    else if users[0].id == id then 0
    else 1 + IndexOfUserId(users[1..], id)
  }

  /** `User.findOne({ _id: id })`. */
  function FindUserById(users: seq<User>, id: nat): (r: Option<User>)
    ensures r.None? <==> forall u :: u in users ==> u.id != id
    ensures r.Some? ==> r.value in users && r.value.id == id
  {
    var k := IndexOfUserId(users, id);
    if k < |users| then Some(users[k]) else None
  }

  function IndexOfChartId(charts: seq<Chart>, id: nat): (k: nat)
    ensures k <= |charts|
    ensures k < |charts| ==> charts[k].id == id
    ensures forall j :: 0 <= j < k ==> charts[j].id != id
  {
    if charts == [] then 0
    else if charts[0].id == id then 0
    else 1 + IndexOfChartId(charts[1..], id)
  }

  /** `Chart.findById(id)`. */
  function FindChartById(charts: seq<Chart>, id: nat): (r: Option<Chart>)
    ensures r.None? <==> forall c :: c in charts ==> c.id != id
    ensures r.Some? ==> r.value in charts && r.value.id == id
  {
    var k := IndexOfChartId(charts, id);
    if k < |charts| then Some(charts[k]) else None
  }

  /**
   * A `$set` document after Mongoose has cast it against the User schema:
   * only schema paths survive (strict mode), each `None` when not in the body.
   */
  datatype UserPatch = UserPatch(username: Option<string>, email: Option<string>, phone: Option<string>,
                                 password: Option<string>, isAdmin: Option<bool>)

  /** A String path of the User schema as `updateOne` casts it. */
  function StringPath(body: Json, key: string): Cast<string> {
    CastPath(Get(body, key), CastString)
  }

  /** The Boolean path `isAdmin` as `updateOne` casts it. */
  function AdminPath(body: Json): Cast<bool> {
    CastPath(Get(body, "isAdmin"), CastBoolean)
  }

  /**
   * The `$set` document built from a request body: every schema path it
   * names, cast to the path's type, and nothing else; `None` when one of
   * those casts throws, which rejects the whole update.
   */
  function PatchOf(body: Json): (r: Option<UserPatch>)
    ensures r.None? <==>
      || StringPath(body, "username").CastError? || StringPath(body, "email").CastError?
      || StringPath(body, "phone").CastError? || StringPath(body, "password").CastError?
      || AdminPath(body).CastError?
    ensures r.Some? ==>
      && r.value.username == Present(StringPath(body, "username")) && r.value.email == Present(StringPath(body, "email"))
      && r.value.phone == Present(StringPath(body, "phone")) && r.value.password == Present(StringPath(body, "password"))
      && r.value.isAdmin == Present(AdminPath(body))
    ensures forall key :: key in {"username", "email", "phone", "password"} && GetString(body, key).Some? ==>
      !StringPath(body, key).CastError? && Present(StringPath(body, key)) == GetString(body, key)
  {
    var username, email, phone, password := StringPath(body, "username"), StringPath(body, "email"),
                                            StringPath(body, "phone"), StringPath(body, "password");
    var isAdmin := AdminPath(body);
    if username.CastError? || email.CastError? || phone.CastError? || password.CastError? || isAdmin.CastError? then None
    else Some(UserPatch(Present(username), Present(email), Present(phone), Present(password), Present(isAdmin)))
  }

  /** `$set`: each path the patch names takes its value; `_id` and every other path keep theirs. */
  function ApplyPatch(u: User, p: UserPatch): User {
    User(u.id, p.username.GetOr(u.username), p.email.GetOr(u.email), p.phone.GetOr(u.phone),
         p.password.GetOr(u.password), p.isAdmin.GetOr(u.isAdmin))
  }

  /** Applying the same `$set` twice is applying it once. */
  lemma ApplyPatchIdempotent(u: User, p: UserPatch)
    ensures ApplyPatch(ApplyPatch(u, p), p) == ApplyPatch(u, p)
  {
  }

  /** `updateOne({ _id: id }, { $set: p })`: the first user with that id is patched. */
  function UpdateUserById(users: seq<User>, id: nat, p: UserPatch): (r: seq<User>)
    ensures |r| == |users|
    ensures forall i :: 0 <= i < |users| && i != IndexOfUserId(users, id) ==> r[i] == users[i]
    ensures IndexOfUserId(users, id) < |users| ==>
      r[IndexOfUserId(users, id)] == ApplyPatch(users[IndexOfUserId(users, id)], p)
  {
    var k := IndexOfUserId(users, id);
    if k < |users| then users[k := ApplyPatch(users[k], p)] else users
  }

  /** `deleteOne({ _id: id })`: the first user with that id is removed, the rest keep their order. */
  function DeleteUserById(users: seq<User>, id: nat): (r: seq<User>)
    ensures IndexOfUserId(users, id) == |users| ==> r == users
    ensures IndexOfUserId(users, id) < |users| ==>
      var k := IndexOfUserId(users, id);
      r == users[..k] + users[k + 1..]
  {
    var k := IndexOfUserId(users, id);
    if k < |users| then users[..k] + users[k + 1..] else users
  }

  /** `findByIdAndDelete(id)` on the charts: the first chart with that id is removed. */
  function DeleteChartById(charts: seq<Chart>, id: nat): (r: seq<Chart>)
    ensures IndexOfChartId(charts, id) == |charts| ==> r == charts
    ensures IndexOfChartId(charts, id) < |charts| ==>
      var k := IndexOfChartId(charts, id);
      r == charts[..k] + charts[k + 1..]
  {
    var k := IndexOfChartId(charts, id);
    if k < |charts| then charts[..k] + charts[k + 1..] else charts
  }

  /** With distinct ids, deleting a user removes exactly that user: no other user is lost. */
  lemma {:induction false} DeleteUserRemovesOnlyTarget(users: seq<User>, id: nat)
    requires DistinctUserIds(users)
    ensures forall u :: u in DeleteUserById(users, id) <==> u in users && u.id != id
  {
    var k := IndexOfUserId(users, id);
    var r := DeleteUserById(users, id);
    forall u ensures u in r <==> u in users && u.id != id {
      if u in r {
        var i :| 0 <= i < |r| && r[i] == u;
        if k < |users| {
          var j := if i < k then i else i + 1;
          assert users[j] == u;
          assert u.id != id;
        }
      }
      if u in users && u.id != id {
        var j :| 0 <= j < |users| && users[j] == u;
        if k < |users| {
          assert j != k;
          if j < k { assert r[j] == u; } else { assert r[j - 1] == u; }
        }
      }
    }
  }

  /** The database: both collections and the id counter. */
  class Db {
    var users: seq<User>
    var charts: seq<Chart>
    var nextId: nat

    /** Ids are unique in each collection and all below the counter. */
    ghost predicate Valid()
      reads this
    {
      && DistinctUserIds(users) && DistinctChartIds(charts)
      && (forall u :: u in users ==> u.id < nextId)
      && (forall c :: c in charts ==> c.id < nextId)
    }

    constructor ()
      ensures Valid() && users == [] && charts == [] && nextId == 0
    {
      users, charts, nextId := [], [], 0;
    }

    /** `insertOne` of a user that carries the next fresh id. */
    method InsertUser(u: User)
      requires Valid() && u.id == nextId
      modifies this
      ensures Valid()
      ensures users == old(users) + [u] && charts == old(charts) && nextId == old(nextId) + 1
    {
      users := users + [u];
      nextId := nextId + 1;
    }

    /** `insertOne` of a chart that carries the next fresh id. */
    method InsertChart(c: Chart)
      requires Valid() && c.id == nextId
      modifies this
      ensures Valid()
      ensures charts == old(charts) + [c] && users == old(users) && nextId == old(nextId) + 1
    {
      charts := charts + [c];
      nextId := nextId + 1;
    }

    /** `User.updateOne({ _id: id }, { $set: p })`, answering Mongo's matched and modified counts. */
    method UpdateOneUser(id: nat, p: UserPatch) returns (matched: nat, modified: nat)
      requires Valid()
      modifies this
      ensures Valid()
      ensures users == UpdateUserById(old(users), id, p) && charts == old(charts) && nextId == old(nextId)
      ensures matched == (if FindUserById(old(users), id).Some? then 1 else 0)
      ensures modified == (if FindUserById(old(users), id).Some?
                              && ApplyPatch(FindUserById(old(users), id).value, p) != FindUserById(old(users), id).value
                           then 1 else 0)
    {
      var k := IndexOfUserId(users, id);
      if k < |users| {
        var before := users[k];
        users := users[k := ApplyPatch(before, p)];
        matched := 1;
        modified := if ApplyPatch(before, p) != before then 1 else 0;
        assert forall i :: 0 <= i < |users| ==> users[i].id == old(users)[i].id;
        assert forall u :: u in users ==> exists i :: 0 <= i < |users| && users[i] == u;
      } else {
        matched, modified := 0, 0;
      }
    }

    /** `User.deleteOne({ _id: id })`, answering Mongo's deleted count. */
    method DeleteOneUser(id: nat) returns (deleted: nat)
      requires Valid()
      modifies this
      ensures Valid()
      ensures users == DeleteUserById(old(users), id) && charts == old(charts) && nextId == old(nextId)
      ensures deleted == (if FindUserById(old(users), id).Some? then 1 else 0)
    {
      var k := IndexOfUserId(users, id);
      if k < |users| {
        ghost var before := users;
        users := users[..k] + users[k + 1..];
        assert forall i :: 0 <= i < |users| ==> users[i] == before[if i < k then i else i + 1];
        deleted := 1;
      } else {
        deleted := 0;
      }
    }

    /** `Chart.findByIdAndDelete(id)`: the removed chart, or `None` when no chart has that id. */
    method FindByIdAndDeleteChart(id: nat) returns (found: Option<Chart>)
      requires Valid()
      modifies this
      ensures Valid()
      ensures found == FindChartById(old(charts), id)
      ensures charts == DeleteChartById(old(charts), id) && users == old(users) && nextId == old(nextId)
    {
      var k := IndexOfChartId(charts, id);
      if k < |charts| {
        found := Some(charts[k]);
        ghost var before := charts;
        charts := charts[..k] + charts[k + 1..];
        assert forall i :: 0 <= i < |charts| ==> charts[i] == before[if i < k then i else i + 1];
      } else {
        found := None;
      }
    }
  }
}
