/**
 * server/router/chart-router.js: the chart API. `GET /` lists every chart
 * with its owner joined in, `POST /save` stores a chart owned by the caller,
 * `DELETE /delete/:id` removes one chart, and `GET /history` returns the
 * caller's charts newest first. The body of `POST /save` is not validated;
 * Mongoose casts each path when the document is built.
 */
module ChartRouter {
  import opened Wrappers
  import opened Json
  import opened UserModel
  import opened ChartModel
  import opened Store
  import opened Http
  import opened MongooseCast
  import opened Text

  const Untitled := "Untitled"
  const ChartSavedMessage := "Chart saved"
  const SaveFailed := "Failed to save chart"
  const ChartNotFound := "Chart not found"
  const ChartDeleted := "Chart deleted successfully"

  /** `title || "Untitled"`: a falsy title is replaced, a truthy one is cast to a string. */
  function TitleOf(body: Json): Cast<string> {
    if Truthy(Get(body, "title")) then CastString(Get(body, "title").value) else Cast(Given(Untitled))
  }

  /**
   * `new Chart({ title: title || "Untitled", labels, values, type, createdBy })`:
   * the draft, or `None` when a path fails to cast (`save()` rejects).
   */
  function DraftOf(body: Json, owner: nat): (r: Option<ChartDraft>)
    ensures r.None? <==>
      || TitleOf(body).CastError?
      || CastArray(Get(body, "labels"), CastString).CastError?
      || CastArray(Get(body, "values"), CastNumber).CastError?
      || CastPath(Get(body, "type"), CastString).CastError?
    ensures r.Some? ==> r.value.title.Some? && r.value.title.value != "" && r.value.createdBy == Some(owner)
    ensures r.Some? && !Truthy(Get(body, "title")) ==> r.value.title == Some(Untitled)
    ensures r.Some? && GetString(body, "title").Some? && GetString(body, "title").value != "" ==>
      r.value.title == GetString(body, "title")
    ensures Get(body, "title").Some? && Get(body, "title").value.JNum? && Get(body, "title").value.n != 0 ==>
      r.Some? ==> r.value.title == Some(NumberString(Get(body, "title").value.n))
    ensures Get(body, "title") == Some(JBool(true)) ==> r.Some? ==> r.value.title == Some("true")
    ensures r.Some? ==>
      && r.value.labels == Present(CastArray(Get(body, "labels"), CastString))
      && r.value.values == Present(CastArray(Get(body, "values"), CastNumber))
      && r.value.chartType == CastPath(Get(body, "type"), CastString).path
  {
    var title := TitleOf(body);
    var labels := CastArray(Get(body, "labels"), CastString);
    var values := CastArray(Get(body, "values"), CastNumber);
    var chartType := CastPath(Get(body, "type"), CastString);
    if title.CastError? || labels.CastError? || values.CastError? || chartType.CastError? then None
    else Some(ChartDraft(Present(title), Present(labels), Present(values), chartType.path, Some(owner)))
  }

  /**
   * `POST /save` for the authenticated `caller` at time `now`: 201 with the
   * stored chart, owned by the caller under the next id; 400 and no change when
   * the document cannot be built or saved. Labels and values are never compared.
   */
  method SaveChart(db: Db, caller: PublicUser, body: Json, now: nat) returns (resp: Response)
    requires db.Valid()
    modifies db
    ensures db.Valid()
    ensures db.users == old(db.users)
    ensures DraftOf(body, caller.id).None? ==>
      resp == Response(400, Message(SaveFailed)) && db.charts == old(db.charts) && db.nextId == old(db.nextId)
    ensures DraftOf(body, caller.id).Some? ==>
      var c := Save(DraftOf(body, caller.id).value, old(db.nextId), now).value;
      && c.createdBy == Some(caller.id) && c.id == old(db.nextId) && c.createdAt == now
      && db.charts == old(db.charts) + [c] && db.nextId == old(db.nextId) + 1
      && resp == Response(201, ChartSaved(ChartSavedMessage, c))
  {
    var draft := DraftOf(body, caller.id);
    if draft.None? {
      return Response(400, Message(SaveFailed));
    }
    var c := Save(draft.value, db.nextId, now).value;
    db.InsertChart(c);
    resp := Response(201, ChartSaved(ChartSavedMessage, c));
  }

  /** A body with labels and values (nulls included) but without title or type saves as "Untitled" of type "bar". */
  lemma SaveDefaults(labels: seq<Option<string>>, values: seq<Option<int>>, owner: nat, id: nat, now: nat)
    ensures var body := JObj(map["labels" := JArr(Strings(labels)), "values" := JArr(Numbers(values))]);
      && DraftOf(body, owner).Some?
      && Save(DraftOf(body, owner).value, id, now)
         == Ok(Chart(id, Untitled, labels, values, Some(DefaultType), Some(owner), now, now))
  {
    var body := JObj(map["labels" := JArr(Strings(labels)), "values" := JArr(Numbers(values))]);
    assert "title" !in body.fields && "type" !in body.fields;
    CastStrings(labels);
    CastNumbers(values);
  }

  /**
   * A body naming every path saves exactly what it names: the title ("" is
   * falsy and becomes "Untitled"), labels and values with their nulls, and
   * the type, a `null` type stored as `null` rather than the default.
   */
  lemma SaveGiven(title: string, labels: seq<Option<string>>, values: seq<Option<int>>, chartType: Option<string>,
                  owner: nat, id: nat, now: nat)
    ensures var body := JObj(map["title" := JStr(title), "labels" := JArr(Strings(labels)),
                                 "values" := JArr(Numbers(values)), "type" := StringOrNull(chartType)]);
      && DraftOf(body, owner).Some?
      && Save(DraftOf(body, owner).value, id, now)
         == Ok(Chart(id, if title == "" then Untitled else title, labels, values, chartType, Some(owner), now, now))
  {
    CastStrings(labels);
    CastNumbers(values);
  }

  /** A label that is an array, or a value that is not a number, fails the cast and nothing is saved. */
  lemma SaveRejectsBadElements(owner: nat)
    ensures DraftOf(JObj(map["labels" := JArr([JArr([])])]), owner).None?
    ensures DraftOf(JObj(map["values" := JArr([JStr("n/a")])]), owner).None?
  {
    var t := Trim("n/a");
    assert TrimStart("n/a") == "n/a";
    assert TrimEnd("n/a") == "n/a";
    assert !AllDigits(t) by { assert !IsDigit(t[0]); }
  }

  /** The join of `populate("createdBy", "username email")`. */
  function Populate(users: seq<User>, c: Chart): (p: PopulatedChart)
    ensures p.chart == c
    ensures p.owner.Some? <==> c.createdBy.Some? && FindUserById(users, c.createdBy.value).Some?
    ensures p.owner.Some? ==> p.owner.value.id == c.createdBy.value
  {
    match c.createdBy
    case None => PopulatedChart(c, None)
    case Some(o) =>
      match FindUserById(users, o)
      case None => PopulatedChart(c, None)
      case Some(u) => PopulatedChart(c, Some(Owner(u.id, u.username, u.email)))
  }

  /** `GET /`: every chart in store order, each with its owner's username and email. */
  function ListAllCharts(users: seq<User>, charts: seq<Chart>): (r: Response)
    ensures r.status == 200 && r.body.PopulatedChartList? && |r.body.populated| == |charts|
    ensures forall i :: 0 <= i < |charts| ==> r.body.populated[i] == Populate(users, charts[i])
  {
    Response(200, PopulatedChartList(seq(|charts|, i requires 0 <= i < |charts| => Populate(users, charts[i]))))
  }

  /** `DELETE /delete/:id`: 404 and no change for an unknown id, otherwise 200 with that chart removed. */
  method DeleteChart(db: Db, id: nat) returns (resp: Response)
    requires db.Valid()
    modifies db
    ensures db.Valid()
    ensures db.users == old(db.users) && db.nextId == old(db.nextId)
    ensures FindChartById(old(db.charts), id).None? ==>
      resp == Response(404, Message(ChartNotFound)) && db.charts == old(db.charts)
    ensures FindChartById(old(db.charts), id).Some? ==>
      resp == Response(200, Message(ChartDeleted)) && db.charts == DeleteChartById(old(db.charts), id)
  {
    var found := db.FindByIdAndDeleteChart(id);
    if found.None? {
      resp := Response(404, Message(ChartNotFound));
    } else {
      resp := Response(200, Message(ChartDeleted));
    }
  }

  /** With distinct ids, a delete removes exactly the chart with that id. */
  lemma DeleteChartRemovesOnlyTarget(charts: seq<Chart>, id: nat)
    requires DistinctChartIds(charts)
    ensures forall c :: c in DeleteChartById(charts, id) <==> c in charts && c.id != id
  {
    var k := IndexOfChartId(charts, id);
    var r := DeleteChartById(charts, id);
    if k < |charts| {
      assert forall i :: 0 <= i < |r| ==> r[i] == charts[if i < k then i else i + 1];
      assert forall j :: 0 <= j < |charts| && j != k ==> charts[j] == r[if j < k then j else j - 1];
    }
  }

  /** `Chart.find({ createdBy: owner })`: the owner's charts in store order. */
  function OwnedBy(charts: seq<Chart>, owner: nat): (r: seq<Chart>)
    ensures forall c :: c in r <==> c in charts && c.createdBy == Some(owner)
    ensures |r| <= |charts|
  {
    if charts == [] then []
    else (if charts[0].createdBy == Some(owner) then [charts[0]] else []) + OwnedBy(charts[1..], owner)
  }

  lemma {:induction false} OwnedByAppend(charts: seq<Chart>, c: Chart, owner: nat)
    ensures OwnedBy(charts + [c], owner) == OwnedBy(charts, owner) + (if c.createdBy == Some(owner) then [c] else [])
  {
    if charts == [] {
      assert charts + [c] == [c];
    } else {
      assert (charts + [c])[1..] == charts[1..] + [c];
      OwnedByAppend(charts[1..], c, owner);
    }
  }

  /** Newest first: `createdAt` never increases along the sequence. */
  predicate NewestFirst(s: seq<Chart>) {
    forall i, j :: 0 <= i < j < |s| ==> s[i].createdAt >= s[j].createdAt
  }

  /** Puts `c` before the first chart that is not newer than it. */
  function InsertByDate(c: Chart, s: seq<Chart>): seq<Chart> {
    if s == [] || c.createdAt >= s[0].createdAt then [c] + s
    else [s[0]] + InsertByDate(c, s[1..])
  }

  lemma {:induction false} InsertByDatePermutes(c: Chart, s: seq<Chart>)
    ensures multiset(InsertByDate(c, s)) == multiset(s) + multiset{c}
  {
    if s != [] && c.createdAt < s[0].createdAt {
      InsertByDatePermutes(c, s[1..]);
      assert s == [s[0]] + s[1..];
    }
  }

  /** Inserting into a newest-first sequence keeps it newest first. */
  lemma {:induction false} InsertByDateSorted(c: Chart, s: seq<Chart>)
    requires NewestFirst(s)
    ensures NewestFirst(InsertByDate(c, s))
  {
    if s != [] && c.createdAt < s[0].createdAt {
      var rest := InsertByDate(c, s[1..]);
      InsertByDateSorted(c, s[1..]);
      InsertByDatePermutes(c, s[1..]);
      forall x | x in rest ensures s[0].createdAt >= x.createdAt {
        assert x in multiset(rest);
        if x != c {
          assert x in multiset(s[1..]);
        }
      }
    }
  }

  /** `.sort({ createdAt: -1 })`, keeping store order among charts saved at the same time. */
  function SortNewestFirst(s: seq<Chart>): (r: seq<Chart>)
    ensures multiset(r) == multiset(s)
    ensures NewestFirst(r)
  {
    if s == [] then []
    else
      var rest := SortNewestFirst(s[1..]);
      InsertByDatePermutes(s[0], rest);
      InsertByDateSorted(s[0], rest);
      assert s == [s[0]] + s[1..];
      InsertByDate(s[0], rest)
  }

  /** `GET /history` for the authenticated caller. */
  function History(charts: seq<Chart>, caller: nat): (r: Response)
    ensures r.status == 200 && r.body.ChartList?
    ensures NewestFirst(r.body.charts)
    ensures multiset(r.body.charts) == multiset(OwnedBy(charts, caller))
    ensures forall c :: c in r.body.charts <==> c in charts && c.createdBy == Some(caller)
  {
    var r := SortNewestFirst(OwnedBy(charts, caller));
    assert forall c :: c in r <==> c in multiset(r);
    Response(200, ChartList(r))
  }

  /** A chart newer than every chart in `s` lands at the front of the sorted order. */
  lemma {:induction false} SortWithNewest(s: seq<Chart>, c: Chart)
    requires forall d :: d in s ==> d.createdAt < c.createdAt
    ensures SortNewestFirst(s + [c]) == [c] + SortNewestFirst(s)
  {
    if s == [] {
      assert s + [c] == [c];
    } else {
      assert (s + [c])[1..] == s[1..] + [c];
      assert (s + [c])[0] == s[0];
      SortWithNewest(s[1..], c);
    }
  }

  /**
   * Saving a chart later than every stored chart puts it at the head of the
   * owner's history, ahead of the history as it was.
   */
  lemma SaveThenHistory(charts: seq<Chart>, c: Chart, owner: nat)
    requires c.createdBy == Some(owner)
    requires forall d :: d in charts ==> d.createdAt < c.createdAt
    ensures History(charts + [c], owner).body.charts == [c] + History(charts, owner).body.charts
  {
    OwnedByAppend(charts, c, owner);
    SortWithNewest(OwnedBy(charts, owner), c);
  }
}

/** The middleware chain of each `/api/charts` route of server/router/chart-router.js. */
module ChartRoutes {
  import opened Stages

  datatype ChartRoute = ListCharts | SaveChart | DeleteChart | GetHistory

  function Chain(r: ChartRoute): (chain: seq<Stage>)
    ensures WellOrdered(chain, false, {})
    ensures AdminGuarded(chain) <==> r == ListCharts || r == DeleteChart
    ensures |chain| > 0 && chain[0] == RequireAuth
  {
    match r
    case ListCharts => [RequireAuth, RequireAdmin, Handle(ListChartsHandler)]
    case SaveChart => [RequireAuth, Handle(SaveChartHandler)]
    case DeleteChart => [RequireAuth, RequireAdmin, Handle(DeleteChartHandler)]
    case GetHistory => [RequireAuth, Handle(HistoryHandler)]
  }
}
