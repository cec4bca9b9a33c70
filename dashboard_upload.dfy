/**
 * client/src/Pages/DashboardUpload.jsx: after a spreadsheet is parsed into
 * rows, the page offers its columns as axes and builds the chart payload from
 * the chosen X and Y columns, colouring the bars from a ten-colour palette.
 */
module DashboardUpload {
  import opened Wrappers
  import opened Json
  import opened MongooseCast

  /** A row of `sheet_to_json`: its cells under their column names, created in column order. */
  datatype Row = Row(cells: seq<(string, Json)>)

  /** `row[key]`; `None` is `undefined`. */
  function Cell(r: Row, key: string): (c: Option<Json>)
    ensures c.Some? <==> exists i :: 0 <= i < |r.cells| && r.cells[i].0 == key
    decreases |r.cells|
  {
    if r.cells == [] then None
    else if r.cells[0].0 == key then Some(r.cells[0].1)
    else Cell(Row(r.cells[1..]), key)
  }

  /** The column names of a row, in the order its cells were created. */
  function Names(r: Row): (ns: seq<string>)
    ensures |ns| == |r.cells| && forall i :: 0 <= i < |ns| ==> ns[i] == r.cells[i].0
  {
    seq(|r.cells|, i requires 0 <= i < |r.cells| => r.cells[i].0)
  }

  /** The largest array index is 2^32 - 2. */
  const IndexBound: nat := 4294967295

  /** A property name that is an array index: a canonical decimal numeral below 2^32 - 1. */
  predicate IsArrayIndex(k: string) {
    AllDigits(k) && (k[0] != '0' || k == "0") && Decimal(k) < IndexBound
  }

  function IndexValue(k: string): nat
    requires IsArrayIndex(k)
  {
    Decimal(k)
  }

  predicate AllIndices(ks: seq<string>) {
    forall i :: 0 <= i < |ks| ==> IsArrayIndex(ks[i])
  }

  /** Array indices in ascending numeric order. */
  predicate Ascending(ks: seq<string>) {
    AllIndices(ks) && forall i, j :: 0 <= i < j < |ks| ==> IndexValue(ks[i]) <= IndexValue(ks[j])
  }

  /** The names that are array indices, in the order given. */
  function Indices(ns: seq<string>): (r: seq<string>)
    ensures AllIndices(r)
  {
    if ns == [] then [] else (if IsArrayIndex(ns[0]) then [ns[0]] else []) + Indices(ns[1..])
  }

  /** The names that are not array indices, in the order given. */
  function Others(ns: seq<string>): (r: seq<string>)
    ensures forall i :: 0 <= i < |r| ==> !IsArrayIndex(r[i])
  {
    if ns == [] then [] else (if IsArrayIndex(ns[0]) then [] else [ns[0]]) + Others(ns[1..])
  }

  /** Every name goes to exactly one of the two filters. */
  lemma {:induction false} SplitNames(ns: seq<string>)
    ensures multiset(Indices(ns)) + multiset(Others(ns)) == multiset(ns)
  {
    if ns != [] {
      SplitNames(ns[1..]);
      assert ns == [ns[0]] + ns[1..];
    }
  }

  /** Inserts an index before the first one not below it. */
  function Insert(k: string, ks: seq<string>): (r: seq<string>)
    requires IsArrayIndex(k) && AllIndices(ks)
    ensures AllIndices(r)
  {
    if ks == [] || IndexValue(k) <= IndexValue(ks[0]) then [k] + ks
    else [ks[0]] + Insert(k, ks[1..])
  }

  lemma {:induction false} InsertPermutes(k: string, ks: seq<string>)
    requires IsArrayIndex(k) && AllIndices(ks)
    ensures multiset(Insert(k, ks)) == multiset(ks) + multiset{k}
  {
    if ks != [] && IndexValue(k) > IndexValue(ks[0]) {
      InsertPermutes(k, ks[1..]);
      assert ks == [ks[0]] + ks[1..];
    }
  }

  /** An index no larger than any of an ascending run can go in front of it. */
  lemma AscendingCons(k: string, ks: seq<string>)
    requires IsArrayIndex(k) && Ascending(ks)
    requires forall j :: 0 <= j < |ks| ==> IndexValue(k) <= IndexValue(ks[j])
    ensures Ascending([k] + ks)
  {
    var r := [k] + ks;
    forall i, j | 0 <= i < j < |r|
      ensures IndexValue(r[i]) <= IndexValue(r[j])
    {
      assert r[j] == ks[j - 1];
      if i > 0 {
        assert r[i] == ks[i - 1];
      }
    }
  }

  lemma {:induction false} InsertAscending(k: string, ks: seq<string>)
    requires IsArrayIndex(k) && Ascending(ks)
    ensures Ascending(Insert(k, ks))
  {
    if ks == [] || IndexValue(k) <= IndexValue(ks[0]) {
      AscendingCons(k, ks);
    } else {
      var tail := ks[1..];
      InsertAscending(k, tail);
      InsertPermutes(k, tail);
      var rest := Insert(k, tail);
      forall j | 0 <= j < |rest|
        ensures IndexValue(ks[0]) <= IndexValue(rest[j])
      {
        assert rest[j] in multiset(rest);
        assert rest[j] == k || rest[j] in tail;
      }
      AscendingCons(ks[0], rest);
    }
  }

  /** Array indices sorted into ascending numeric order. */
  function SortIndices(ks: seq<string>): (r: seq<string>)
    requires AllIndices(ks)
    ensures AllIndices(r)
  {
    if ks == [] then [] else Insert(ks[0], SortIndices(ks[1..]))
  }

  lemma {:induction false} SortIndicesSorts(ks: seq<string>)
    requires AllIndices(ks)
    ensures Ascending(SortIndices(ks)) && multiset(SortIndices(ks)) == multiset(ks)
  {
    if ks != [] {
      SortIndicesSorts(ks[1..]);
      InsertAscending(ks[0], SortIndices(ks[1..]));
      InsertPermutes(ks[0], SortIndices(ks[1..]));
      assert ks == [ks[0]] + ks[1..];
    }
  }

  /**
   * `Object.keys(row)`: the names that are array indices first, in ascending
   * numeric order, then the other names in the order their cells were created.
   */
  function Keys(r: Row): (ks: seq<string>)
    ensures multiset(ks) == multiset(Names(r))
    ensures |ks| == |r.cells|
  {
    var ns := Names(r);
    SortIndicesSorts(Indices(ns));
    SplitNames(ns);
    var ks := SortIndices(Indices(ns)) + Others(ns);
    assert |multiset(ks)| == |ks| && |multiset(ns)| == |ns|;
    ks
  }

  /**
   * The keys start with every array index among the names, ascending, and end
   * with the remaining names in cell order.
   */
  lemma KeysOrder(r: Row)
    ensures var ks := Keys(r); var n := |Indices(Names(r))|;
      && n <= |ks|
      && (forall i :: 0 <= i < |ks| ==> (IsArrayIndex(ks[i]) <==> i < n))
      && Ascending(ks[..n])
      && ks[n..] == Others(Names(r))
  {
    var ns := Names(r);
    SortIndicesSorts(Indices(ns));
    var sorted := SortIndices(Indices(ns));
    assert |sorted| == |Indices(ns)| by {
      assert |multiset(sorted)| == |multiset(Indices(ns))|;
    }
    var ks := Keys(r);
    assert ks == sorted + Others(ns);
    assert ks[..|sorted|] == sorted;
    assert ks[|sorted|..] == Others(ns);
  }

  /** A row none of whose names is an array index lists its keys in cell order. */
  lemma {:induction false} KeysOfTextHeaders(r: Row)
    requires forall i :: 0 <= i < |r.cells| ==> !IsArrayIndex(r.cells[i].0)
    ensures Keys(r) == Names(r)
  {
    NoIndices(Names(r));
  }

  lemma {:induction false} NoIndices(ns: seq<string>)
    requires forall i :: 0 <= i < |ns| ==> !IsArrayIndex(ns[i])
    ensures Indices(ns) == [] && Others(ns) == ns
  {
    if ns != [] {
      NoIndices(ns[1..]);
      assert ns == [ns[0]] + ns[1..];
    }
  }

  lemma YearIndices()
    ensures IsArrayIndex("2024") && IndexValue("2024") == 2024
    ensures IsArrayIndex("2023") && IndexValue("2023") == 2023
    ensures !IsArrayIndex("Region")
  {
    assert "2024"[..3] == "202" && "2023"[..3] == "202";
    assert "202"[..2] == "20" && "20"[..1] == "2" && "2"[..0] == "";
    assert !IsDigit("Region"[0]);
  }

  lemma YearNamesSplit()
    ensures Indices(["Region", "2024", "2023"]) == ["2024", "2023"]
    ensures Others(["Region", "2024", "2023"]) == ["Region"]
  {
    var ns := ["Region", "2024", "2023"];
    YearIndices();
    assert ns[1..] == ["2024", "2023"] && ns[2..] == ["2023"] && ns[3..] == [];
    assert Indices(ns[2..]) == ["2023"] && Others(ns[2..]) == [];
    assert Indices(ns[1..]) == ["2024", "2023"] && Others(ns[1..]) == [];
  }

  lemma YearsSorted()
    requires AllIndices(["2024", "2023"])
    ensures SortIndices(["2024", "2023"]) == ["2023", "2024"]
  {
    YearIndices();
    assert ["2024", "2023"][1..] == ["2023"];
    assert SortIndices(["2023"]) == ["2023"];
  }

  /** Year columns move ahead of a text column: `Region, 2024, 2023` lists as `2023, 2024, Region`. */
  lemma YearColumnsFirst(a: Json, b: Json, c: Json)
    ensures Keys(Row([("Region", a), ("2024", b), ("2023", c)])) == ["2023", "2024", "Region"]
  {
    assert Names(Row([("Region", a), ("2024", b), ("2023", c)])) == ["Region", "2024", "2023"];
    YearNamesSplit();
    YearIndices();
    YearsSorted();
  }

  const Colors: seq<string> := ["#6366F1", "#F43F5E", "#10B981", "#F59E0B", "#3B82F6",
                                "#8B5CF6", "#EC4899", "#14B8A6", "#84CC16", "#EF4444"]

  /** The object posted to `/api/charts/save` and shown by the chart component. */
  datatype Payload = Payload(labels: seq<Option<Json>>, values: seq<Option<Json>>, title: string, chartType: string,
                             backgroundColor: seq<string>, borderColor: seq<string>)

  const AxesError := "Please select both X and Y axes!"

  /**
   * `handleGenerateChart`'s payload: refused unless both axes are chosen and
   * there are rows; otherwise one label, value and pair of colours per row.
   */
  function BuildPayload(rows: seq<Row>, xAxis: string, yAxis: string, chartType: string): (r: Result<Payload, string>)
    ensures r.Err? <==> xAxis == "" || yAxis == "" || |rows| == 0
    ensures r.Err? ==> r.error == AxesError
    ensures r.Ok? ==>
      var p := r.value;
      && |p.labels| == |rows| && |p.values| == |rows| && |p.backgroundColor| == |rows| && |p.borderColor| == |rows|
      && (forall i :: 0 <= i < |rows| ==> p.labels[i] == Cell(rows[i], xAxis) && p.values[i] == Cell(rows[i], yAxis))
      && (forall i :: 0 <= i < |rows| ==> p.borderColor[i] == Colors[i % 10] && p.backgroundColor[i] == Colors[i % 10] + "99")
      && p.title == yAxis + " vs " + xAxis && p.chartType == chartType
  {
    if xAxis == "" || yAxis == "" || |rows| == 0 then Err(AxesError)
    else
      var n := |rows|;
      Ok(Payload(seq(n, i requires 0 <= i < n => Cell(rows[i], xAxis)),
                 seq(n, i requires 0 <= i < n => Cell(rows[i], yAxis)),
                 yAxis + " vs " + xAxis, chartType,
                 seq(n, i requires 0 <= i < n => Colors[i % 10] + "99"),
                 seq(n, i requires 0 <= i < n => Colors[i % 10])))
  }

  /** The colours repeat every ten rows, and each background is its border made translucent. */
  lemma ColorsCycle(rows: seq<Row>, xAxis: string, yAxis: string, chartType: string, i: nat)
    requires BuildPayload(rows, xAxis, yAxis, chartType).Ok?
    requires i + 10 < |rows|
    ensures var p := BuildPayload(rows, xAxis, yAxis, chartType).value;
      && p.borderColor[i + 10] == p.borderColor[i]
      && p.backgroundColor[i + 10] == p.backgroundColor[i]
      && p.backgroundColor[i] == p.borderColor[i] + "99"
  {
    assert (i + 10) % 10 == i % 10;
  }

  const NoFile := "Please select a file!"
  const Uploaded := "File uploaded and parsed successfully!"
  const SaveSucceeded := "Chart generated and saved successfully!"
  const SaveFailedToast := "\U{274C} Failed to save chart."

  /** The page's state, and the spreadsheet shared through the Excel data context. */
  class UploadPage {
    var fileSelected: bool
    var excelData: seq<Row>
    var columns: seq<string>
    var previewData: seq<Row>
    var xAxis: string
    var yAxis: string
    var chartType: string
    var chartData: Option<Payload>

    /** `handleFileChange`: whether the input now holds a file. */
    method HandleFileChange(selected: bool)
      modifies this
      ensures fileSelected == selected
      ensures excelData == old(excelData) && columns == old(columns) && previewData == old(previewData)
      ensures xAxis == old(xAxis) && yAxis == old(yAxis) && chartType == old(chartType) && chartData == old(chartData)
    {
      fileSelected := selected;
    }

    constructor ()
      ensures !fileSelected && excelData == [] && columns == [] && previewData == []
      ensures xAxis == "" && yAxis == "" && chartType == "bar" && chartData.None?
    {
      fileSelected, excelData, columns, previewData := false, [], [], [];
      xAxis, yAxis, chartType, chartData := "", "", "bar", None;
    }

    /**
     * `handleUpload` with the rows the spreadsheet parses to. Without a file it
     * only complains. With zero rows, `Object.keys(json[0])` throws after the
     * shared data was replaced, so columns and preview keep their old values
     * and no toast appears; otherwise the columns are the first row's keys.
     */
    method HandleUpload(parsed: seq<Row>) returns (toast: Option<string>)
      modifies this
      ensures !old(fileSelected) ==>
        toast == Some(NoFile) && excelData == old(excelData) && columns == old(columns)
        && previewData == old(previewData) && chartData == old(chartData)
      ensures old(fileSelected) && |parsed| == 0 ==>
        toast.None? && excelData == parsed && columns == old(columns)
        && previewData == old(previewData) && chartData == old(chartData)
      ensures old(fileSelected) && |parsed| > 0 ==>
        toast == Some(Uploaded) && excelData == parsed && columns == Keys(parsed[0])
        && previewData == parsed && chartData.None?
      ensures fileSelected == old(fileSelected) && xAxis == old(xAxis) && yAxis == old(yAxis) && chartType == old(chartType)
    {
      if !fileSelected {
        return Some(NoFile);
      }
      excelData := parsed;
      if |parsed| == 0 {
        return None;
      }
      columns := Keys(parsed[0]);
      previewData := parsed;
      chartData := None;
      toast := Some(Uploaded);
    }

    /**
     * `handleGenerateChart` given whether the save request succeeds: the chart
     * shown is set from the payload before the request, so a failed save
     * still leaves it on screen.
     */
    method HandleGenerateChart(saveSucceeded: bool) returns (toast: string)
      modifies this
      ensures var built := BuildPayload(old(previewData), old(xAxis), old(yAxis), old(chartType));
        && (built.Err? ==> toast == AxesError && chartData == old(chartData))
        && (built.Ok? ==> chartData == Some(built.value) && toast == (if saveSucceeded then SaveSucceeded else SaveFailedToast))
      ensures fileSelected == old(fileSelected) && excelData == old(excelData) && columns == old(columns)
      ensures previewData == old(previewData) && xAxis == old(xAxis) && yAxis == old(yAxis) && chartType == old(chartType)
    {
      var built := BuildPayload(previewData, xAxis, yAxis, chartType);
      if built.Err? {
        return built.error;
      }
      chartData := Some(built.value);
      toast := if saveSucceeded then SaveSucceeded else SaveFailedToast;
    }
  }
}
