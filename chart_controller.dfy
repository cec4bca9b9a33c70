/**
 * server/controllers/chart-controller.js, a variant of the chart API that no
 * router mounts. It names the owner `user` although the Chart schema calls
 * that path `createdBy`, and it never supplies the required title, so its save
 * cannot succeed. Two Mongoose options whose defaults changed between
 * versions decide its queries: `strictQuery` (a filter on a path outside the
 * schema is dropped) and `strictPopulate` (populating such a path throws).
 */
module ChartController {
  import opened Wrappers
  import opened Json
  import opened ChartModel
  import opened Store
  import opened Http
  import opened ChartRouter
  import opened MongooseCast

  const MissingData := "Missing chart data"
  const SaveError := "Error saving chart"
  const FetchAllError := "Error fetching all charts"
  /** The head of Mongoose's message when an array element also fails to cast. */
  const ValidationFailed := "Chart validation failed"
  const PopulateError := "Cannot populate path `user` because it is not in your schema. Set the `strictPopulate` option to false to override."

  datatype MongooseOptions = MongooseOptions(strictQuery: bool, strictPopulate: bool)

  /** Labels and values both cast, so the only validation error left is the missing title. */
  predicate ArraysCast(body: Json) {
    !CastArray(Get(body, "labels"), CastString).CastError? && !CastArray(Get(body, "values"), CastNumber).CastError?
  }

  /**
   * `new Chart({ user, labels, values })`: `user` is outside the schema and
   * dropped, and neither title nor type is given.
   */
  function ControllerDraft(body: Json): (d: ChartDraft)
    ensures d.title.None? && d.chartType.Undefined? && d.createdBy.None?
  {
    ChartDraft(None, Present(CastArray(Get(body, "labels"), CastString)),
               Present(CastArray(Get(body, "values"), CastNumber)), Undefined, None)
  }

  /**
   * `saveChart(req, res)` at time `now`: 400 when labels or values are falsy
   * (an empty array is truthy); otherwise the save fails on the missing title
   * and the answer is 500 with Mongoose's message, which also names any
   * label or value that failed to cast. Nothing is ever stored.
   */
  method SaveChart(db: Db, body: Json, now: nat) returns (resp: Response)
    requires db.Valid()
    modifies db
    ensures db.Valid()
    ensures db.users == old(db.users) && db.charts == old(db.charts) && db.nextId == old(db.nextId)
    ensures !Truthy(Get(body, "labels")) || !Truthy(Get(body, "values")) ==> resp == Response(400, Message(MissingData))
    ensures Truthy(Get(body, "labels")) && Truthy(Get(body, "values")) ==>
      resp.status == 500 && resp.body.Failure? && resp.body.message == SaveError
    ensures Truthy(Get(body, "labels")) && Truthy(Get(body, "values")) && ArraysCast(body) ==>
      resp == Response(500, Failure(SaveError, TitleRequired))
    ensures Truthy(Get(body, "labels")) && Truthy(Get(body, "values")) && !ArraysCast(body) ==>
      resp == Response(500, Failure(SaveError, ValidationFailed))
  {
    if !Truthy(Get(body, "labels")) || !Truthy(Get(body, "values")) {
      return Response(400, Message(MissingData));
    }
    if !ArraysCast(body) {
      return Response(500, Failure(SaveError, ValidationFailed));
    }
    var failure := Save(ControllerDraft(body), db.nextId, now).error;
    resp := Response(500, Failure(SaveError, failure));
  }

  /** Whether a stored chart matches `{ user: id }`: stored charts never hold a `user` path. */
  predicate MatchesUser(c: Chart, id: nat, opts: MongooseOptions) {
    opts.strictQuery
  }

  /**
   * The charts `{ user: id }` selects, in stored order. `MatchesUser` does not
   * look at the chart, so the result is every chart or none, as
   * `UserChartsIgnoreOwner` states.
   */
  function FilterUser(charts: seq<Chart>, id: nat, opts: MongooseOptions): (r: seq<Chart>)
    ensures forall c :: c in r <==> c in charts && MatchesUser(c, id, opts)
  {
    if charts == [] then []
    else (if MatchesUser(charts[0], id, opts) then [charts[0]] else []) + FilterUser(charts[1..], id, opts)
  }

  /** `getUserCharts`: `Chart.find({ user: req.userID })`. */
  function GetUserCharts(charts: seq<Chart>, userID: nat, opts: MongooseOptions): (r: Response)
    ensures r.status == 200 && r.body.ChartList?
    ensures forall c :: c in r.body.charts <==> c in charts && MatchesUser(c, userID, opts)
  {
    Response(200, ChartList(FilterUser(charts, userID, opts)))
  }

  /**
   * The owner never matters: with `strictQuery` the caller sees every chart,
   * without it none, whoever owns them.
   */
  lemma {:induction false} UserChartsIgnoreOwner(charts: seq<Chart>, userID: nat, opts: MongooseOptions)
    ensures GetUserCharts(charts, userID, opts).body.charts == (if opts.strictQuery then charts else [])
  {
    if charts != [] {
      UserChartsIgnoreOwner(charts[1..], userID, opts);
      assert charts == [charts[0]] + charts[1..];
    }
  }

  /** `getAllCharts`: `Chart.find().populate("user", "username email")`. */
  function GetAllCharts(charts: seq<Chart>, opts: MongooseOptions): (r: Response)
    ensures opts.strictPopulate <==> r.status == 500
    ensures opts.strictPopulate ==> r.body == Failure(FetchAllError, PopulateError)
    ensures !opts.strictPopulate ==> r.status == 200 && r.body == ChartList(charts)
  {
    if opts.strictPopulate then Response(500, Failure(FetchAllError, PopulateError))
    else Response(200, ChartList(charts))
  }
}
