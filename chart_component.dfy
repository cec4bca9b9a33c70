/**
 * client/src/components/ChartComponent.jsx: turns a chart's data and type
 * into a Chart.js configuration and picks the chart kind to draw.
 */
module ChartComponent {
  import opened Wrappers
  import DashboardUpload
  import opened ChartModel
  import opened Json

  const DefaultType := "bar"
  const DefaultBackground: seq<string> := ["#4f46e5"]
  const DefaultTitle := "Chart"
  const InvalidType := "Invalid chart type selected"

  /** The `data` prop; `None` is an absent property. Labels and values pass through untouched. */
  datatype Data<L, V> = Data(labels: L, values: V, title: Option<string>, backgroundColor: Option<seq<string>>)

  /** `chartConfig` with the parts of `chartOptions` that depend on the props. */
  datatype Config<L, V> = Config(labels: L, datasetLabel: string, data: V, backgroundColor: seq<string>,
                                 titleText: string, hasScales: bool)

  datatype Kind = Bar | Line | Pie | Doughnut

  datatype Rendered<L, V> = Drawn(kind: Kind, config: Config<L, V>) | Invalid(message: string)

  /** `title || "Chart"`. */
  function TitleText(title: Option<string>): (t: string)
    ensures t != ""
    ensures title.Some? && title.value != "" ==> t == title.value
    ensures title.None? || title.value == "" ==> t == DefaultTitle
  {
    if title.Some? && title.value != "" then title.value else DefaultTitle
  }

  function KindOf(t: string): (k: Option<Kind>)
    ensures k.Some? <==> t in {"bar", "line", "pie", "doughnut"}
    ensures k == Some(Bar) <==> t == "bar"
    ensures k == Some(Line) <==> t == "line"
  {
    match t
    case "bar" => Some(Bar)
    case "line" => Some(Line)
    case "pie" => Some(Pie)
    case "doughnut" => Some(Doughnut)
    case _ => None
  }

  /** The type the component switches on: the `type = "bar"` default replaces only an undefined prop. */
  function TypeProp(chartType: Path<string>): Option<string> {
    match chartType
    case Undefined => Some(DefaultType)
    case Null => None
    case Given(t) => Some(t)
  }

  /** What the component returns for `data` and the `type` prop. */
  function Render<L, V>(data: Data<L, V>, chartType: Path<string>): (r: Rendered<L, V>)
    ensures var t := TypeProp(chartType);
      && (r.Drawn? <==> t.Some? && t.value in {"bar", "line", "pie", "doughnut"})
      && (r.Invalid? ==> r.message == InvalidType)
      && (r.Drawn? ==> Some(r.kind) == KindOf(t.value) && r.config.hasScales == (t.value == "bar" || t.value == "line"))
    ensures r.Drawn? ==>
      && r.config.labels == data.labels && r.config.data == data.values
      && r.config.backgroundColor == data.backgroundColor.GetOr(DefaultBackground)
      && r.config.datasetLabel == TitleText(data.title) && r.config.titleText == TitleText(data.title)
  {
    var t := TypeProp(chartType);
    var config := Config(data.labels, TitleText(data.title), data.values, data.backgroundColor.GetOr(DefaultBackground),
                         TitleText(data.title), t == Some("bar") || t == Some("line"));
    if t.None? then Invalid(InvalidType)
    else match KindOf(t.value)
      case Some(k) => Drawn(k, config)
      case None => Invalid(InvalidType)
  }

  /** Without a `type` prop the chart is a bar chart, with axis titles. */
  lemma DefaultsToBar<L, V>(data: Data<L, V>)
    ensures Render(data, Undefined).Drawn? && Render(data, Undefined).kind == Bar && Render(data, Undefined).config.hasScales
  {
  }

  /**
   * The chart previewed on the upload page is drawn with the chosen kind,
   * under the "Y vs X" title and in the palette's colours.
   */
  lemma UploadPreview(rows: seq<DashboardUpload.Row>, xAxis: string, yAxis: string, chartType: string)
    requires DashboardUpload.BuildPayload(rows, xAxis, yAxis, chartType).Ok?
    ensures var p := DashboardUpload.BuildPayload(rows, xAxis, yAxis, chartType).value;
      var r := Render(Data(p.labels, p.values, Some(p.title), Some(p.backgroundColor)), Given(p.chartType));
      && (r.Drawn? <==> chartType in {"bar", "line", "pie", "doughnut"})
      && (r.Drawn? ==>
            r.config.titleText == yAxis + " vs " + xAxis && r.config.backgroundColor == p.backgroundColor
            && r.config.labels == p.labels)
  {
    var p := DashboardUpload.BuildPayload(rows, xAxis, yAxis, chartType).value;
    assert p.title[|yAxis|..|yAxis| + 4] == " vs ";
  }

  /** The `type` prop a stored chart is drawn with: its type, or `null`. */
  function StoredTypeProp(c: Chart): Path<string> {
    if c.chartType.Some? then Given(c.chartType.value) else Null
  }

  /**
   * A chart in the admin list is drawn under its stored title in the default
   * colour; one stored with a `null` type is not drawn, since the default
   * does not replace `null`.
   */
  lemma StoredChartPreview(c: Chart)
    requires c.title != ""
    ensures var r := Render(Data(c.labels, c.values, Some(c.title), None), StoredTypeProp(c));
      && (r.Drawn? ==> r.config.titleText == c.title && r.config.backgroundColor == DefaultBackground)
      && (c.chartType.None? ==> r == Invalid(InvalidType))
  {
  }
}
