/**
 * client/src/components/layouts/Dashboard-Layout.jsx: the dashboard sidebar
 * and the chart statistics derived from the caller's chart history.
 */
module DashboardStats {
  import opened Wrappers
  import opened ChartModel
  import opened Http
  import Session
  import ChartRouter

  /** `chartStats`: the number of charts, their distinct types and the first five. */
  datatype Stats = Stats(totalCharts: nat, chartTypes: set<Option<string>>, recentCharts: seq<Chart>)

  const Initial := Stats(0, {}, [])

  const RecentCount := 5

  /** `new Set(charts.map(chart => chart.type))`, a stored `null` type counting as one of them. */
  function Types(charts: seq<Chart>): (ts: set<Option<string>>)
    ensures forall c :: c in charts ==> c.chartType in ts
    ensures forall t :: t in ts ==> exists i :: 0 <= i < |charts| && charts[i].chartType == t
  {
    if charts == [] then {}
    else
      var rest := Types(charts[1..]);
      assert forall t :: t in rest ==> exists i :: 0 <= i < |charts| && charts[i].chartType == t by {
        forall t | t in rest
          ensures exists i :: 0 <= i < |charts| && charts[i].chartType == t
        {
          var i :| 0 <= i < |charts[1..]| && charts[1..][i].chartType == t;
          assert charts[i + 1].chartType == t;
        }
      }
      {charts[0].chartType} + rest
  }

  /** The statistics `fetchChartStats` stores for a fetched chart list. */
  function Derive(charts: seq<Chart>): (s: Stats)
    ensures s.totalCharts == |charts| && s.chartTypes == Types(charts)
    ensures |s.recentCharts| == (if |charts| < RecentCount then |charts| else RecentCount)
    ensures s.recentCharts == charts[..|s.recentCharts|]
  {
    var n := if |charts| < RecentCount then |charts| else RecentCount;
    Stats(|charts|, Types(charts), charts[..n])
  }

  /** The effect's guard: `authorizationToken` is truthy when it is a non-empty string. */
  predicate ShouldFetch(authorizationToken: string) {
    authorizationToken != ""
  }

  /** The guard never holds back the fetch: the header value always starts with "Bearer ", even logged out. */
  lemma FetchAlwaysRuns(auth: Session.AuthState)
    ensures ShouldFetch(auth.AuthorizationToken())
  {
  }

  /** The types of a list are the types of exactly the charts in it. */
  lemma TypesOf(charts: seq<Chart>, t: Option<string>)
    ensures t in Types(charts) <==> exists c :: c in charts && c.chartType == t
  {
    if t in Types(charts) {
      var i :| 0 <= i < |charts| && charts[i].chartType == t;
      assert charts[i] in charts;
    }
  }

  /** The recent charts are the first of the history, so they are the caller's and no older than the rest. */
  lemma RecentFromHistory(charts: seq<Chart>, caller: nat)
    ensures var h := ChartRouter.History(charts, caller).body.charts;
      var s := Derive(h);
      && (forall c :: c in s.recentCharts ==> c in charts && c.createdBy == Some(caller))
      && (forall i, j :: 0 <= i < |s.recentCharts| && |s.recentCharts| <= j < |h| ==>
            s.recentCharts[i].createdAt >= h[j].createdAt)
  {
    var h := ChartRouter.History(charts, caller).body.charts;
    var s := Derive(h);
    forall c | c in s.recentCharts
      ensures c in h
    {
      var i :| 0 <= i < |s.recentCharts| && s.recentCharts[i] == c;
      assert h[i] == c;
    }
  }

  /**
   * On the history the server answers, the statistics count the caller's own
   * charts, list the types they use, and the recent charts are the newest ones.
   */
  lemma HistoryStats(charts: seq<Chart>, caller: nat)
    ensures var h := ChartRouter.History(charts, caller).body.charts;
      var s := Derive(h);
      && s.totalCharts == |ChartRouter.OwnedBy(charts, caller)|
      && (forall c :: c in s.recentCharts ==> c in charts && c.createdBy == Some(caller))
      && (forall i, j :: 0 <= i < |s.recentCharts| && |s.recentCharts| <= j < |h| ==>
            s.recentCharts[i].createdAt >= h[j].createdAt)
      && (forall t :: t in s.chartTypes <==> exists c :: c in charts && c.createdBy == Some(caller) && c.chartType == t)
  {
    var h := ChartRouter.History(charts, caller).body.charts;
    var s := Derive(h);
    assert |multiset(h)| == |multiset(ChartRouter.OwnedBy(charts, caller))|;
    RecentFromHistory(charts, caller);
    forall t
      ensures t in s.chartTypes <==> exists c :: c in charts && c.createdBy == Some(caller) && c.chartType == t
    {
      TypesOf(h, t);
    }
  }

  /** The layout's state. */
  class DashboardLayout {
    var isSidebarOpen: bool
    var chartStats: Stats

    constructor ()
      ensures !isSidebarOpen && chartStats == Initial
    {
      isSidebarOpen, chartStats := false, Initial;
    }

    /** `toggleSidebar`. */
    method ToggleSidebar()
      modifies this
      ensures isSidebarOpen == !old(isSidebarOpen) && chartStats == old(chartStats)
    {
      isSidebarOpen := !isSidebarOpen;
    }

    /** `handleNavClick`: closes the sidebar on a screen narrower than 640 pixels. */
    method HandleNavClick(innerWidth: int)
      modifies this
      ensures isSidebarOpen == (if innerWidth < 640 then false else old(isSidebarOpen))
      ensures chartStats == old(chartStats)
    {
      if innerWidth < 640 {
        isSidebarOpen := false;
      }
    }

    /**
     * `fetchChartStats` given the answer to `GET /api/charts/history`: a
     * chart list derives new statistics; a failed request, or a body that is
     * not a chart list (where `charts.map` throws), leaves them as they were.
     */
    method FetchChartStats(response: Option<Response>)
      modifies this
      ensures Resolves(response) && response.value.body.ChartList? ==>
        chartStats == Derive(response.value.body.charts)
      ensures !(Resolves(response) && response.value.body.ChartList?) ==> chartStats == old(chartStats)
      ensures isSidebarOpen == old(isSidebarOpen)
    {
      if Resolves(response) && response.value.body.ChartList? {
        chartStats := Derive(response.value.body.charts);
      }
    }
  }
}
