/**
 * client/src/Pages/AdminCharts.jsx: the admin's list of every saved chart,
 * kept in step with the server when a chart is deleted.
 */
module AdminCharts {
  import opened Wrappers
  import opened ChartModel
  import opened Http
  import opened Store
  import opened UserModel
  import ChartRouter

  const NoCharts := "No charts found."

  /** `prev.filter(chart => chart._id !== chartId)`. */
  function RemoveId(charts: seq<PopulatedChart>, id: nat): (r: seq<PopulatedChart>)
    ensures forall c :: c in r <==> c in charts && c.chart.id != id
    ensures |r| <= |charts|
  {
    if charts == [] then []
    else (if charts[0].chart.id != id then [charts[0]] else []) + RemoveId(charts[1..], id)
  }

  /** The filter keeps the relative order: it works on each part of a list separately. */
  lemma {:induction false} RemoveIdAppend(a: seq<PopulatedChart>, b: seq<PopulatedChart>, id: nat)
    ensures RemoveId(a + b, id) == RemoveId(a, id) + RemoveId(b, id)
  {
    if a == [] {
      assert a + b == b;
    } else {
      assert (a + b)[0] == a[0];
      assert (a + b)[1..] == a[1..] + b;
      RemoveIdAppend(a[1..], b, id);
    }
  }

  /** A list without the id is left as it is. */
  lemma {:induction false} RemoveIdAbsent(charts: seq<PopulatedChart>, id: nat)
    requires forall c :: c in charts ==> c.chart.id != id
    ensures RemoveId(charts, id) == charts
  {
    if charts != [] {
      assert forall c :: c in charts[1..] ==> c in charts;
      RemoveIdAbsent(charts[1..], id);
    }
  }

  /** The list `GET /api/charts` sends. */
  function Listed(users: seq<User>, charts: seq<Chart>): (r: seq<PopulatedChart>)
    ensures |r| == |charts| && forall i :: 0 <= i < |charts| ==> r[i] == ChartRouter.Populate(users, charts[i])
  {
    ChartRouter.ListAllCharts(users, charts).body.populated
  }

  lemma ListedCons(users: seq<User>, charts: seq<Chart>)
    requires charts != []
    ensures Listed(users, charts) == [ChartRouter.Populate(users, charts[0])] + Listed(users, charts[1..])
  {
    assert forall i :: 0 <= i < |charts[1..]| ==> charts[1..][i] == charts[i + 1];
  }

  lemma ListedIds(users: seq<User>, charts: seq<Chart>, c: PopulatedChart)
    requires c in Listed(users, charts)
    ensures exists i :: 0 <= i < |charts| && c.chart.id == charts[i].id
  {
    var i :| 0 <= i < |charts| && Listed(users, charts)[i] == c;
  }

  /** Deleting the id of a list's first chart drops that chart. */
  lemma DeleteHead(charts: seq<Chart>, id: nat)
    requires charts != [] && charts[0].id == id
    ensures DeleteChartById(charts, id) == charts[1..]
  {
    assert IndexOfChartId(charts, id) == 0;
  }

  /** Deleting any other id keeps the first chart in front. */
  lemma DeleteTail(charts: seq<Chart>, id: nat)
    requires charts != [] && charts[0].id != id
    ensures DeleteChartById(charts, id) == [charts[0]] + DeleteChartById(charts[1..], id)
  {
    var k := IndexOfChartId(charts[1..], id);
    assert IndexOfChartId(charts, id) == k + 1;
    if k < |charts[1..]| {
      assert charts[..k + 1] == [charts[0]] + charts[1..][..k];
      assert charts[k + 2..] == charts[1..][k + 1..];
    }
  }

  /**
   * With distinct chart ids, filtering the listed charts after a delete gives
   * the same list as fetching it again from the server.
   */
  lemma {:induction false} RemoveIdMatchesServer(users: seq<User>, charts: seq<Chart>, id: nat)
    requires DistinctChartIds(charts)
    ensures RemoveId(Listed(users, charts), id) == Listed(users, DeleteChartById(charts, id))
  {
    if charts != [] {
      var head := ChartRouter.Populate(users, charts[0]);
      var tail := Listed(users, charts[1..]);
      ListedCons(users, charts);
      RemoveIdAppend([head], tail, id);
      if charts[0].id == id {
        forall c | c in tail
          ensures c.chart.id != id
        {
          ListedIds(users, charts[1..], c);
        }
        RemoveIdAbsent(tail, id);
        DeleteHead(charts, id);
      } else {
        RemoveIdMatchesServer(users, charts[1..], id);
        DeleteTail(charts, id);
        ListedCons(users, DeleteChartById(charts, id));
      }
    }
  }

  /** The text shown in place of the grid: only for an empty list. */
  function Placeholder(charts: seq<PopulatedChart>): (p: Option<string>)
    ensures p.Some? <==> |charts| == 0
    ensures p.Some? ==> p.value == NoCharts
  {
    if |charts| == 0 then Some(NoCharts) else None
  }

  /** The page's state. */
  class AdminChartsPage {
    var charts: seq<PopulatedChart>

    constructor ()
      ensures charts == []
    {
      charts := [];
    }

    /** `fetchCharts` given the answer to `GET /api/charts`: only a listed result replaces the list. */
    method FetchCharts(response: Option<Response>)
      modifies this
      ensures Resolves(response) && response.value.body.PopulatedChartList? ==>
        charts == response.value.body.populated
      ensures !(Resolves(response) && response.value.body.PopulatedChartList?) ==> charts == old(charts)
    {
      if Resolves(response) && response.value.body.PopulatedChartList? {
        charts := response.value.body.populated;
      }
    }

    /**
     * `handleDelete` given the user's answer to the confirmation and the
     * answer to the delete request, which is only sent once confirmed.
     */
    method HandleDelete(chartId: nat, confirmed: bool, response: Option<Response>) returns (requested: bool)
      modifies this
      ensures requested == confirmed
      ensures confirmed && Resolves(response) ==> charts == RemoveId(old(charts), chartId)
      ensures !(confirmed && Resolves(response)) ==> charts == old(charts)
    {
      if !confirmed {
        return false;
      }
      requested := true;
      if Resolves(response) {
        charts := RemoveId(charts, chartId);
      }
    }
  }
}
