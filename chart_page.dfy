/** The older chart page (`packages/client/src/pages/ChartPage.tsx`), the one
    routed at `/chart`: its `Chart` component, a copy of `QueryChart` without
    the portion-data branch, the pie sub-chart and the container id; and the
    page, which shows the decode error instead of a chart. */
module ChartPage {
  import opened Wrappers
  import Sequences
  import opened Json
  import opened ColorUtils
  import opened BaseUtils
  import opened Charts
  import opened PageQuery

  const DATA_IS_EMPTY := "data is empty"

  /** The message of the TypeError that `data.length` raises when `data` is
      `undefined` (V8's wording). */
  const NO_DATA_MESSAGE := "Cannot read properties of undefined (reading 'length')"

  /** The three `{type === … && <… />}` conditionals of `Chart`: a pie renders
      nothing. */
  function PageSubCharts(t: ChartType): (s: seq<SubChart>)
    ensures t in {Bar, Area, Line} <==> |s| == 1
    ensures !(t in {Bar, Area, Line}) <==> s == []
    ensures PieChart !in s
    ensures t in {Bar, Area, Line} ==> s == QuerySubCharts(t)
  {
    match t
    case Bar => [BarChart]
    case Area => [AreaChart]
    case Line => [LineChart]
    case _ => []
  }

  /** `Chart`: empty data throws 'data is empty' (missing data throws the
      TypeError of `undefined.length`); otherwise the keys are the first row's
      keys other than `name`, whatever the chart type. */
  method Chart(q: QueryData, draw: nat -> ColorDraw) returns (r: Result<ChartView, string>)
    ensures q.chart.data.None? ==> r == Err(NO_DATA_MESSAGE)
    ensures q.chart.data == Some([]) ==> r == Err(DATA_IS_EMPTY)
    ensures r.Ok? <==> q.chart.data.Some? && q.chart.data.value != []
    ensures r.Ok? ==>
              var data := q.chart.data.value;
              && |data| > 0
              && r.value.containerId == None
              && r.value.keys == GraphKeys(data)
              && r.value.colorMap == ColorMapOf(GraphKeys(data), q.config.mode, draw)
              && r.value.background == Background(q.config.mode)
              && r.value.gap == GAP
              && r.value.width == q.config.width && r.value.height == q.config.height
              && r.value.subCharts == PageSubCharts(q.chart.chartType)
              && r.value.data == data
  {
    if q.chart.data.None? {
      return Err(NO_DATA_MESSAGE);
    }
    var data := q.chart.data.value;
    if |data| == 0 {
      return Err(DATA_IS_EMPTY);
    }
    var keys := GraphKeys(data);
    var colorKepMap := BuildColorMap(keys, q.config.mode, draw);
    var background := Background(q.config.mode);
    var gap := GAP;
    r := Ok(ChartView(None, background, gap, q.config.width, q.config.height,
                      keys, colorKepMap, PageSubCharts(q.chart.chartType), data));
  }

  /** The two keyings agree on graph data; on portion data (one key `value`
      besides `name`) the older page draws a single series `value`. */
  lemma ChartPageKeysOnPortionData(data: seq<Row>)
    requires |data| > 0 && IsPortionData(data)
    requires DistinctKeys(data[0])
    ensures GraphKeys(data) == ["value"]
  {
    PortionRowKeys(data[0]);
    var ks := RowKeys(data[0]);
    assert "name" != "value" by { assert "name"[0] != "value"[0]; }
    if ks == ["name", "value"] {
      assert ks[1..] == ["value"];
      assert Sequences.Without(["value"], "name") == ["value"] by {
        assert ["value"][1..] == [];
      }
    } else {
      assert ks[1..] == ["name"];
      assert Sequences.Without(["name"], "name") == [] by {
        assert ["name"][1..] == [];
      }
    }
  }

  /** What the page renders: the error paragraph, or the page with the chart
      when there is a query. */
  datatype ChartPageView = ErrorParagraph(message: string) | ChartSlot(query: Option<QueryData>)

  /** `if (error) …; return … {queryData && <Chart … />}`: an empty error
      message is falsy and shows no paragraph. */
  function RenderChartPage(s: PageState<QueryData>): (v: ChartPageView)
    ensures v.ErrorParagraph? <==> Truthy(s.error)
    ensures v.ErrorParagraph? ==> v.message == s.error.value
    ensures v.ChartSlot? ==> v.query == s.queryData
  {
    if Truthy(s.error) then ErrorParagraph(s.error.value) else ChartSlot(s.queryData)
  }

  /** On the first run, a decode failure with a non-empty message renders the
      error paragraph and no chart; a successful decode renders the chart slot
      with the query. */
  lemma DecodeOutcomeRendered(query: Option<string>, decode: string -> Result<QueryData, Thrown>, message: string)
    ensures decode(QueryText(query)) == Err(ErrorObject(message)) && message != "" ==>
              RenderChartPage(LoadQuery(Initial(), query, decode)) == ErrorParagraph(message)
              && LoadQuery(Initial(), query, decode).queryData == None
    ensures decode(QueryText(query)).Ok? ==>
              RenderChartPage(LoadQuery(Initial(), query, decode)) == ChartSlot(Some(decode(QueryText(query)).value))
  {
    if decode(QueryText(query)) == Err(ErrorObject(message)) {
      DecodeErrorStored(query, decode, message);
    }
  }

  /** Once a decode has failed with a non-empty message, a later query that
      decodes still renders that error paragraph instead of the chart. */
  lemma StaleErrorHidesChart(prior: PageState<QueryData>, query: Option<string>, decode: string -> Result<QueryData, Thrown>)
    requires Truthy(prior.error)
    requires decode(QueryText(query)).Ok?
    ensures RenderChartPage(LoadQuery(prior, query, decode)) == ErrorParagraph(prior.error.value)
  {
    RerunKeepsStaleState(prior, query, decode, "");
  }

  /** The ids of the elements directly inside the page's root
      `<div className="page page--chart">`. The error paragraph has none; the
      chart slot holds `Chart`'s container, whose div has no `id`; and a
      `Chart` that throws leaves nothing rendered. */
  method PageChildIds(s: PageState<QueryData>, draw: nat -> ColorDraw) returns (ids: seq<string>)
    ensures ids == []
  {
    ids := [];
    match RenderChartPage(s)
    case ErrorParagraph(_) =>
    case ChartSlot(None) =>
    case ChartSlot(Some(q)) =>
      var r := Chart(q, draw);
      if r.Ok? {
        ids := match r.value.containerId
               case None => []
               case Some(id) => [id];
      }
  }
}
