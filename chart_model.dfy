/**
 * The Chart schema (server/models/chart-model.js): a required title, string
 * labels and numeric values with no relation between their lengths, a type
 * that defaults to "bar", an owner reference, and automatic timestamps.
 */
module ChartModel {
  import opened Wrappers
  import opened Json

  /**
   * A stored chart document; `chartType` is the `type` path, `id` the
   * ObjectId. An array element or the type cast from `null` is stored as
   * `null` (`None`).
   */
  datatype Chart = Chart(id: nat, title: string, labels: seq<Option<string>>, values: seq<Option<int>>,
                         chartType: Option<string>, createdBy: Option<nat>, createdAt: nat, updatedAt: nat)

  /**
   * A document built with `new Chart({...})` before `save()`: the array
   * paths are `None` when left undefined, and `type` keeps apart undefined
   * and an explicit `null`.
   */
  datatype ChartDraft = ChartDraft(title: Option<string>, labels: Option<seq<Option<string>>>,
                                   values: Option<seq<Option<int>>>, chartType: Path<string>, createdBy: Option<nat>)

  const DefaultType := "bar"

  const TitleRequired := "Chart validation failed: title: Path `title` is required."

  /**
   * `chart.save()` at time `now` with the fresh id `id`: validation rejects a
   * missing or empty title; array paths default to `[]`, and `type` to "bar"
   * only when undefined (an explicit `null` is kept); both timestamps are set
   * to `now`.
   */
  function Save(d: ChartDraft, id: nat, now: nat): (r: Result<Chart, string>)
    ensures r.Err? <==> d.title.None? || d.title.value == ""
    ensures r.Err? ==> r.error == TitleRequired
    ensures r.Ok? ==> r.value.id == id && r.value.title == d.title.value && r.value.createdBy == d.createdBy
    ensures r.Ok? ==> r.value.labels == d.labels.GetOr([]) && r.value.values == d.values.GetOr([])
    ensures r.Ok? && d.chartType.Undefined? ==> r.value.chartType == Some(DefaultType)
    ensures r.Ok? && d.chartType.Null? ==> r.value.chartType.None?
    ensures r.Ok? && d.chartType.Given? ==> r.value.chartType == Some(d.chartType.value)
    ensures r.Ok? ==> r.value.createdAt == now && r.value.updatedAt == now
  {
    if d.title.None? || d.title.value == "" then Err(TitleRequired)
    else
      var chartType := match d.chartType case Undefined => Some(DefaultType) case Null => None case Given(t) => Some(t);
      Ok(Chart(id, d.title.value, d.labels.GetOr([]), d.values.GetOr([]), chartType, d.createdBy, now, now))
  }

  /** The owner's `username email` as `populate("createdBy", "username email")` joins them in. */
  datatype Owner = Owner(id: nat, username: string, email: string)

  /** A chart whose `createdBy` has been populated: `None` when the owner no longer exists. */
  datatype PopulatedChart = PopulatedChart(chart: Chart, owner: Option<Owner>)
}
