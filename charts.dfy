/** `QueryChart` of `packages/client/src/components/Charts/Charts.tsx`: the
    component the renderer screenshots. It rejects empty data, derives the
    series keys, draws one colour per key and picks the background and the
    sub-chart. The recharts markup itself is not modelled. */
module Charts {
  import opened Wrappers
  import opened Sequences
  import opened Json
  import opened ColorUtils

  datatype Mode = Light | Dark

  /** A `type` string other than the four the components test for. */
  type OtherTypeName = s: string | s != "bar" && s != "area" && s != "line" && s != "pie" witness ""

  /** The chart `type`; a decoded query may carry any string, and each of the
      four known strings has its own constructor. */
  datatype ChartType = Bar | Area | Line | Pie | Unknown(name: OtherTypeName)

  datatype QueryConfig = QueryConfig(mode: Mode, width: int, height: int)

  /** The chart part of a query; `data` is absent when the JSON lacks it. */
  datatype QueryChartData = QueryChartData(chartType: ChartType, data: Option<seq<Row>>)

  datatype QueryData = QueryData(config: QueryConfig, chart: QueryChartData)

  datatype SubChart = BarChart | AreaChart | LineChart | PieChart

  /** What a chart component renders: the container (its `id`, if any, its
      background, margin and size), the series keys with their colours, the
      sub-charts drawn inside, and the data handed to them. */
  datatype ChartView = ChartView(
    containerId: Option<string>,
    background: string,
    gap: int,
    width: int,
    height: int,
    keys: seq<string>,
    colorMap: map<string, string>,
    subCharts: seq<SubChart>,
    data: seq<Row>)

  const DATA_EMPTY := "Data cannot be empty!"
  const GAP := 40
  const CHART_ID := "chart"

  /** A row of portion data: exactly two keys, a string `name` and a numeric
      `value`. */
  predicate IsPortionRow(row: Row): (b: bool)
    ensures b ==> "name" in RowKeys(row) && "value" in RowKeys(row)
  {
    && |row| == 2
    && Lookup(row, "name").Some? && Lookup(row, "name").value.JStr?
    && Lookup(row, "value").Some? && Lookup(row, "value").value.JNum?
  }

  predicate IsPortionData(data: seq<Row>) {
    forall i | 0 <= i < |data| :: IsPortionRow(data[i])
  }

  /** `isPortionDataList`: scan the rows and stop at the first that is not
      portion data. An empty list is portion data. */
  method IsPortionDataList(data: seq<Row>) returns (b: bool)
    ensures b <==> IsPortionData(data)
  {
    for i := 0 to |data|
      invariant forall j | 0 <= j < i :: IsPortionRow(data[j])
    {
      var d := data[i];
      var name := Lookup(d, "name");
      var value := Lookup(d, "value");
      if |RowKeys(d)| != 2 || !(name.Some? && name.value.JStr?) || !(value.Some? && value.value.JNum?) {
        return false;
      }
    }
    return true;
  }

  /** For an object (distinct keys), the portion test holds exactly when its
      keys are `name` and `value`, in either order, with a string name and a
      numeric value. */
  lemma PortionRowKeys(row: Row)
    requires DistinctKeys(row)
    ensures IsPortionRow(row) <==>
              && (RowKeys(row) == ["name", "value"] || RowKeys(row) == ["value", "name"])
              && Lookup(row, "name").value.JStr?
              && Lookup(row, "value").value.JNum?
  {
    var ks := RowKeys(row);
    if IsPortionRow(row) {
      assert "name" in ks && "value" in ks;
      assert ks[0] != ks[1];
      assert ks == [ks[0], ks[1]];
    }
  }

  /** The `name` of a portion row. */
  function RowName(row: Row): string
    requires IsPortionRow(row)
  {
    Lookup(row, "name").value.s
  }

  /** `data.map((d) => d.name)`. */
  function PortionNames(data: seq<Row>): (names: seq<string>)
    requires IsPortionData(data)
    ensures |names| == |data|
    ensures forall i | 0 <= i < |data| :: names[i] == RowName(data[i])
  {
    seq(|data|, i requires 0 <= i < |data| => RowName(data[i]))
  }

  /** `[...Object.keys(data[0])].filter((k) => k !== 'name')`. */
  function GraphKeys(data: seq<Row>): (keys: seq<string>)
    requires |data| > 0
    ensures "name" !in keys
    ensures |keys| <= |data[0]|
  {
    Without(RowKeys(data[0]), "name")
  }

  /** The series keys of `QueryChart`: the rows' names for portion data,
      otherwise the first row's keys other than `name`. The chart type plays no
      part. */
  function SeriesKeys(data: seq<Row>): (keys: seq<string>)
    requires |data| > 0
    ensures IsPortionData(data) ==> keys == PortionNames(data)
    ensures !IsPortionData(data) ==> keys == GraphKeys(data)
  {
    if IsPortionData(data) then PortionNames(data) else GraphKeys(data)
  }

  /** Filtering `name` out of distinct keys cuts out its one occurrence, or
      changes nothing when it is absent. */
  lemma FilterKeepsOrder(ks: seq<string>)
    requires Distinct(ks)
    ensures Without(ks, "name") == if "name" in ks
                                   then ks[..IndexOf(ks, "name")] + ks[IndexOf(ks, "name") + 1..]
                                   else ks
  {
    if "name" in ks {
      WithoutAt(ks, IndexOf(ks, "name"));
    } else {
      WithoutAbsent(ks, "name");
    }
  }

  /** The first row's keys other than `name`, in their order: `name` is not among
      them and every other key of the first row is. For an object, whose keys
      are distinct, the filter drops just the one `name` key and keeps the
      others in the first row's order, which is the order the series are drawn
      and coloured in. */
  lemma GraphKeysOfFirstRow(data: seq<Row>)
    requires |data| > 0
    ensures "name" !in GraphKeys(data)
    ensures forall i | 0 <= i < |data[0]| && data[0][i].0 != "name" :: data[0][i].0 in GraphKeys(data)
    ensures forall k | k in GraphKeys(data) :: k in RowKeys(data[0])
    ensures DistinctKeys(data[0]) ==>
              GraphKeys(data) == if "name" in RowKeys(data[0])
                                 then var i := IndexOf(RowKeys(data[0]), "name");
                                      RowKeys(data[0])[..i] + RowKeys(data[0])[i + 1..]
                                 else RowKeys(data[0])
  {
    var ks := RowKeys(data[0]);
    if DistinctKeys(data[0]) {
      FilterKeepsOrder(ks);
    }
    forall i | 0 <= i < |data[0]| && data[0][i].0 != "name"
      ensures data[0][i].0 in GraphKeys(data)
    {
      assert ks[i] == data[0][i].0;
    }
  }

  /** The letters of the series colours: dark colours on the light background,
      light colours on the dark one. */
  function SeriesLetters(mode: Mode): string {
    if mode == Light then DARK_LETTERS else LIGHT_LETTERS
  }

  /** The colour drawn for a series: `getRandomDarkColor()` in light mode,
      `getRandomLightColor()` otherwise. */
  function SeriesColor(mode: Mode, d: ColorDraw): (c: string)
    ensures IsShadedColor(c, SeriesLetters(mode))
  {
    ShadedColorShape(SeriesLetters(mode), d);
    ShadedColor(SeriesLetters(mode), d)
  }

  /** The colour map after the loop over `keys`: the i-th key gets the colour of
      the i-th draw, a later duplicate key overwriting an earlier one. Its keys
      are exactly the series keys, and every colour is of the mode's shade. */
  function ColorMapOf(keys: seq<string>, mode: Mode, draw: nat -> ColorDraw): (m: map<string, string>)
    ensures forall k :: k in m <==> k in keys
    ensures forall k | k in m :: IsShadedColor(m[k], SeriesLetters(mode))
  {
    if keys == [] then map[]
    else
      var prefix := keys[..|keys| - 1];
      assert forall k :: k in keys <==> k in prefix || k == keys[|keys| - 1];
      ColorMapOf(prefix, mode, draw)[keys[|keys| - 1] := SeriesColor(mode, draw(|keys| - 1))]
  }

  /** A key's colour is the one drawn at its last occurrence. */
  lemma {:induction false} ColorOfLastOccurrence(keys: seq<string>, mode: Mode, draw: nat -> ColorDraw, i: nat)
    requires i < |keys|
    requires keys[i] !in keys[i + 1..]
    ensures keys[i] in ColorMapOf(keys, mode, draw)
    ensures ColorMapOf(keys, mode, draw)[keys[i]] == SeriesColor(mode, draw(i))
  {
    if i < |keys| - 1 {
      var prefix := keys[..|keys| - 1];
      assert keys[|keys| - 1] in keys[i + 1..];
      assert prefix[i + 1..] == keys[i + 1..|keys| - 1];
      ColorOfLastOccurrence(prefix, mode, draw, i);
    }
  }

  /** The `for (const key of keys)` loop that fills `colorToKeyMap`; the i-th
      iteration consumes the i-th draw. */
  method BuildColorMap(keys: seq<string>, mode: Mode, draw: nat -> ColorDraw) returns (m: map<string, string>)
    ensures m == ColorMapOf(keys, mode, draw)
  {
    m := map[];
    for i := 0 to |keys|
      invariant m == ColorMapOf(keys[..i], mode, draw)
    {
      var color;
      if mode == Light {
        color := RandomDarkColor(draw(i));
      } else {
        color := RandomLightColor(draw(i));
      }
      assert keys[..i + 1][..i] == keys[..i];
      m := m[keys[i] := color];
    }
    assert keys[..|keys|] == keys;
  }

  /** `mode === 'light' ? getLightBgColor() : getDarkBgColor()`. */
  function Background(mode: Mode): (bg: string)
    ensures bg == LIGHT_BG <==> mode == Light
    ensures bg == DARK_BG <==> mode.Dark?
  {
    assert LIGHT_BG != DARK_BG by {
      assert LIGHT_BG[1] == 'd' && DARK_BG[1] == '1';
    }
    if mode == Light then LIGHT_BG else DARK_BG
  }

  /** The four `{type === … && <… />}` conditionals of `QueryChart`: each
      renders its sub-chart when the type matches, so at most one renders. */
  function QuerySubCharts(t: ChartType): (s: seq<SubChart>)
    ensures t.Unknown? <==> s == []
    ensures !t.Unknown? ==> |s| == 1
    ensures s == [BarChart] <==> t == Bar
    ensures s == [AreaChart] <==> t == Area
    ensures s == [LineChart] <==> t == Line
    ensures s == [PieChart] <==> t == Pie
  {
    match t
    case Bar => [BarChart]
    case Area => [AreaChart]
    case Line => [LineChart]
    case Pie => [PieChart]
    case Unknown(_) => []
  }

  /** `QueryChart`: missing or empty data throws before any key or colour is
      computed; otherwise the container `#chart` holds the sub-chart of the
      type, with the series keys, their colours, the mode's background and a
      gap of 40. */
  method QueryChart(q: QueryData, draw: nat -> ColorDraw) returns (r: Result<ChartView, string>)
    ensures r.Err? <==> q.chart.data.None? || q.chart.data.value == []
    ensures r.Err? ==> r.error == DATA_EMPTY
    ensures r.Ok? ==>
              var data := q.chart.data.value;
              && |data| > 0
              && r.value.containerId == Some(CHART_ID)
              && r.value.keys == SeriesKeys(data)
              && r.value.colorMap == ColorMapOf(SeriesKeys(data), q.config.mode, draw)
              && r.value.background == Background(q.config.mode)
              && r.value.gap == GAP
              && r.value.width == q.config.width && r.value.height == q.config.height
              && r.value.subCharts == QuerySubCharts(q.chart.chartType)
              && r.value.data == data
  {
    if q.chart.data.None? || |q.chart.data.value| == 0 {
      return Err(DATA_EMPTY);
    }
    var data := q.chart.data.value;
    var portion := IsPortionDataList(data);
    var keys := if portion then PortionNames(data) else GraphKeys(data);
    var colorToKeyMap := BuildColorMap(keys, q.config.mode, draw);
    var background := Background(q.config.mode);
    var gap := GAP;
    r := Ok(ChartView(Some(CHART_ID), background, gap, q.config.width, q.config.height,
                      keys, colorToKeyMap, QuerySubCharts(q.chart.chartType), data));
  }

  /** In a pie of portion data every slice (`Cell`) finds its colour, looked up
      by the row's name. */
  lemma PieCellsColoured(data: seq<Row>, mode: Mode, draw: nat -> ColorDraw)
    requires |data| > 0 && IsPortionData(data)
    ensures forall i | 0 <= i < |data| :: RowName(data[i]) in ColorMapOf(SeriesKeys(data), mode, draw)
  {
    var keys := SeriesKeys(data);
    forall i | 0 <= i < |data|
      ensures RowName(data[i]) in ColorMapOf(keys, mode, draw)
    {
      assert keys[i] == RowName(data[i]);
    }
  }
}
