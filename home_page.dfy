/** The chart configurator (`packages/client/src/pages/HomePage.tsx`): its
    state, the handlers that replace one field each, the pairing of chart type
    with data, the textarea handlers and the effect that assembles the client
    and server URLs. `JSON.parse` and `btoa(JSON.stringify(…))` are not
    modelled: they are the `parse` and `encode` parameters. */
module HomePage {
  import opened Wrappers
  import opened Json
  import opened Charts
  import opened ClientUrls

  /** The component's state: the two URLs, the config, the textarea's text, the
      last parsed graph and portion data, and the chart part of the query. */
  datatype HomeState = HomeState(
    urls: (string, string),
    queryConfig: QueryConfig,
    dataAsString: string,
    chartGraphData: seq<Row>,
    chartPortionData: seq<Row>,
    queryChartData: QueryChartData)

  /** The first render's state: light mode, 500 by 500, a bar chart of the
      (empty) graph data. */
  const INITIAL: HomeState := HomeState(
    ("", ""),
    QueryConfig(Light, 500, 500),
    "",
    [],
    [],
    QueryChartData(Bar, Some([])))

  /** The first state charts the graph data as bars, in light mode at 500 by
      500, with both URLs still empty. */
  lemma InitialState()
    ensures INITIAL.queryChartData == QueryChartData(Bar, Some(INITIAL.chartGraphData))
    ensures INITIAL.queryConfig == QueryConfig(Light, 500, 500)
    ensures INITIAL.urls == ("", "")
  {
  }

  /** `setModeLight`: only the mode changes. */
  function SetModeLight(s: HomeState): (r: HomeState)
    ensures r.queryConfig.mode == Light
    ensures r.queryConfig.width == s.queryConfig.width && r.queryConfig.height == s.queryConfig.height
    ensures r.(queryConfig := s.queryConfig) == s
  {
    s.(queryConfig := s.queryConfig.(mode := Light))
  }

  /** `setModeDark`: only the mode changes. */
  function SetModeDark(s: HomeState): (r: HomeState)
    ensures r.queryConfig.mode == Dark
    ensures r.queryConfig.width == s.queryConfig.width && r.queryConfig.height == s.queryConfig.height
    ensures r.(queryConfig := s.queryConfig) == s
  {
    s.(queryConfig := s.queryConfig.(mode := Dark))
  }

  /** `setWidth`: only the width changes. */
  function SetWidth(s: HomeState, width: int): (r: HomeState)
    ensures r.queryConfig.width == width
    ensures r.queryConfig.mode == s.queryConfig.mode && r.queryConfig.height == s.queryConfig.height
    ensures r.(queryConfig := s.queryConfig) == s
  {
    s.(queryConfig := s.queryConfig.(width := width))
  }

  /** `setHeight`: only the height changes. */
  function SetHeight(s: HomeState, height: int): (r: HomeState)
    ensures r.queryConfig.height == height
    ensures r.queryConfig.mode == s.queryConfig.mode && r.queryConfig.width == s.queryConfig.width
    ensures r.(queryConfig := s.queryConfig) == s
  {
    s.(queryConfig := s.queryConfig.(height := height))
  }

  /** `setChartBar`, `setChartArea`, `setChartLine` and `setChartPie`: the
      chart becomes the chosen type with the data of its kind as it stands now,
      the portion data for a pie and the graph data otherwise. */
  function SetChart(s: HomeState, t: ChartType): (r: HomeState)
    requires !t.Unknown?
    ensures r.queryChartData.chartType == t
    ensures t == Pie ==> r.queryChartData.data == Some(s.chartPortionData)
    ensures t != Pie ==> r.queryChartData.data == Some(s.chartGraphData)
    ensures r.(queryChartData := s.queryChartData) == s
  {
    match t
    case Bar => s.(queryChartData := QueryChartData(Bar, Some(s.chartGraphData)))
    case Area => s.(queryChartData := QueryChartData(Area, Some(s.chartGraphData)))
    case Line => s.(queryChartData := QueryChartData(Line, Some(s.chartGraphData)))
    case Pie => s.(queryChartData := QueryChartData(Pie, Some(s.chartPortionData)))
  }

  /** `textOnChange`: both candidates (`setPortionDataAsString` and
      `setGraphDataAsString`) store the text, so the choice by type makes no
      difference. */
  function TextOnChange(s: HomeState, value: string): (r: HomeState)
    ensures r.dataAsString == value
    ensures r.(dataAsString := s.dataAsString) == s
  {
    s.(dataAsString := value)
  }

  /** `textOnBlur`: for a pie the text is parsed into the portion data,
      otherwise into the graph data. A parse that throws changes nothing. The
      chart part of the query keeps the data it was given when its type was
      chosen. */
  function TextOnBlur(s: HomeState, parse: string -> Option<seq<Row>>): (r: HomeState)
    ensures s.queryChartData.chartType == Pie ==>
              r.chartGraphData == s.chartGraphData
              && r.chartPortionData == parse(s.dataAsString).GetOr(s.chartPortionData)
    ensures s.queryChartData.chartType != Pie ==>
              r.chartPortionData == s.chartPortionData
              && r.chartGraphData == parse(s.dataAsString).GetOr(s.chartGraphData)
    ensures r.(chartGraphData := s.chartGraphData, chartPortionData := s.chartPortionData) == s
  {
    match parse(s.dataAsString)
    case None => s
    case Some(parsed) =>
      if s.queryChartData.chartType == Pie then s.(chartPortionData := parsed)
      else s.(chartGraphData := parsed)
  }

  /** The query the URLs carry: `{ config: queryConfig, chart: queryChartData }`. */
  function QueryDataOf(s: HomeState): QueryData {
    QueryData(s.queryConfig, s.queryChartData)
  }

  /** The effect that runs when the config or the chart changes: the client
      URL and the server URL, both around the same encoded query. `encode`
      gives `None` when `btoa` throws (a character above U+00FF in the
      query); the effect then stops before `setUrls` and the URLs stay as
      they were. */
  function RefreshUrls(s: HomeState, encode: QueryData -> Option<string>, apiUrl: string): (r: HomeState)
    ensures encode(QueryDataOf(s)).Some? ==>
              && r.urls.0 == CLIENT_CHART_URL + encode(QueryDataOf(s)).value
              && r.urls.1 == ServerUrl(apiUrl, encode(QueryDataOf(s)).value)
    ensures encode(QueryDataOf(s)).None? ==> r == s
    ensures r.(urls := s.urls) == s
  {
    match encode(QueryDataOf(s))
    case None => s
    case Some(encoded) => s.(urls := (CLIENT_CHART_URL + encoded, ServerUrl(apiUrl, encoded)))
  }

  /** When the query encodes, both URLs end with the identical encoded query. */
  lemma UrlsEmbedSameQuery(s: HomeState, encode: QueryData -> Option<string>, apiUrl: string)
    ensures encode(QueryDataOf(s)).Some? ==>
              var r := RefreshUrls(s, encode, apiUrl);
              var e := encode(QueryDataOf(s)).value;
              && |r.urls.0| >= |e| && |r.urls.1| >= |e|
              && r.urls.0[|r.urls.0| - |e|..] == e
              && r.urls.1[|r.urls.1| - |e|..] == e
  {
    if encode(QueryDataOf(s)).Some? {
      var e := encode(QueryDataOf(s)).value;
      var client := CLIENT_CHART_URL + e;
      assert client[|client| - |e|..] == e;
    }
  }

  /** The chart type decides which data a chart button takes: a pie always gets
      the portion data and the others the graph data. */
  lemma ChartTypeMatchesDataKind(s: HomeState, t: ChartType)
    requires !t.Unknown?
    ensures SetChart(s, t).queryChartData.data.value
            == (if t == Pie then s.chartPortionData else s.chartGraphData)
  {
  }
}
