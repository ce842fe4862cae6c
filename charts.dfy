/**
 * The chart set-up of the blog's benchmark pages: each chart descriptor is
 * canonicalised (end-aligned data labels on every dataset, an empty
 * highlight list by default) and turned into the configuration handed to
 * the charting library, whose data-point colours depend on whether the
 * point's index is highlighted.
 *
 * The charting library's colour helper is abstracted: "colour c at alpha a"
 * is the value Alpha(c, a), not a computed CSS string.
 */
module Charts {
  import opened Wrappers

  /** The colour of a highlighted data point. */
  const HighlightColor: string := "rgb(35, 216, 158)"
  /** The colour of every other data point. */
  const DefaultColor: string := "#2ba6cb"
  /** The colour of the axes' grid lines. */
  const GridLineColor: string := "#363636"

  /** A data-label placement: `{align, anchor}`. */
  datatype DataLabels = DataLabels(align: string, anchor: string)

  /** The placement every dataset is given. */
  const EndLabels := DataLabels("end", "end")

  /** One data series: its name (its `label`), its values and its data-label placement if it has one. */
  datatype Dataset = Dataset(name: string, data: seq<real>, datalabels: Option<DataLabels>)

  /** The dataset after `set.datalabels = {align: 'end', anchor: 'end'}`: same series, end-aligned labels. */
  function EndLabelled(d: Dataset): (r: Dataset)
    ensures r.name == d.name && r.data == d.data
    ensures r.datalabels == Some(EndLabels)
  {
    d.(datalabels := Some(EndLabels))
  }

  /** Every dataset of a list, end-labelled, in the same order. */
  function WithEndLabels(sets: seq<Dataset>): (r: seq<Dataset>)
    ensures |r| == |sets|
    ensures forall i {:trigger EndLabelled(sets[i])} :: 0 <= i < |sets| ==> r[i] == EndLabelled(sets[i])
  {
    if sets == [] then []
    else
      var rest := WithEndLabels(sets[1..]);
      assert forall i :: 1 <= i < |sets| ==> sets[i] == sets[1..][i - 1];
      [EndLabelled(sets[0])] + rest
  }

  /** Labelling twice is labelling once, so a chart listed twice ends up the same. */
  lemma {:induction false} WithEndLabelsIdempotent(sets: seq<Dataset>)
    ensures WithEndLabels(WithEndLabels(sets)) == WithEndLabels(sets)
  {
    if sets != [] {
      WithEndLabelsIdempotent(sets[1..]);
      var once := WithEndLabels(sets);
      assert once[0] == EndLabelled(sets[0]);
      assert once[1..] == WithEndLabels(sets[1..]);
    }
  }

  /** The canonical chart: the descriptor with `highlightIndices` always present. */
  datatype ChartData = ChartData(
    canvasId: string, kind: string, title: string, labels: seq<string>,
    datasets: seq<Dataset>, highlightIndices: seq<int>)

  /** `Object.assign({highlightIndices: []}, chart)` on the highlight list: the chart's own if it has one. */
  function HighlightDefault(highlight: Option<seq<int>>): (h: seq<int>)
    ensures highlight.None? ==> h == []
    ensures highlight.Some? ==> h == highlight.value
  {
    highlight.GetOr([])
  }

  /**
   * A chart descriptor of `window.all_charts`. Only its datasets are changed
   * (in place, by the canonicalisation); the rest is read.
   */
  class Chart {
    const canvasId: string
    const kind: string
    const title: string
    const labels: seq<string>
    const highlightIndices: Option<seq<int>>
    var datasets: seq<Dataset>

    constructor (canvasId: string, kind: string, title: string, labels: seq<string>,
                 datasets: seq<Dataset>, highlightIndices: Option<seq<int>>)
      ensures this.canvasId == canvasId && this.kind == kind && this.title == title
      ensures this.labels == labels && this.datasets == datasets && this.highlightIndices == highlightIndices
    {
      this.canvasId := canvasId;
      this.kind := kind;
      this.title := title;
      this.labels := labels;
      this.datasets := datasets;
      this.highlightIndices := highlightIndices;
    }

    /** `chart.datasets.forEach(set => set.datalabels = {align: 'end', anchor: 'end'})`. */
    method AddEndLabels()
      modifies this`datasets
      ensures datasets == WithEndLabels(old(datasets))
    {
      var i := 0;
      while i < |datasets|
        invariant 0 <= i <= |datasets| == |old(datasets)|
        invariant forall k :: 0 <= k < i ==> datasets[k] == EndLabelled(old(datasets)[k])
        invariant forall k :: i <= k < |datasets| ==> datasets[k] == old(datasets)[k]
      {
        datasets := datasets[i := EndLabelled(datasets[i])];
        i := i + 1;
      }
    }

    /** The chart as the library receives it: `Object.assign({highlightIndices: []}, chart)`. */
    function Canonical(): (d: ChartData)
      reads this
      ensures d.datasets == datasets && d.title == title && d.kind == kind
      ensures d.labels == labels && d.canvasId == canvasId
      ensures d.highlightIndices == HighlightDefault(highlightIndices)
    {
      CanonicalWith(datasets)
    }

    /** The canonical copy of this chart at a time its datasets are `sets`. */
    function CanonicalWith(sets: seq<Dataset>): ChartData {
      ChartData(canvasId, kind, title, labels, sets, HighlightDefault(highlightIndices))
    }
  }

  /** The base colour of data point `index`: the highlight colour exactly when the index is highlighted. */
  function BaseColor(highlight: seq<int>, index: int): (c: string)
    ensures c == HighlightColor <==> index in highlight
    ensures c == DefaultColor <==> index !in highlight
  {
    assert HighlightColor[0] != DefaultColor[0];
    if index in highlight then HighlightColor else DefaultColor
  }

  /** A CSS colour, opaque or at some alpha. */
  datatype Color = Solid(css: string) | Alpha(css: string, alpha: real)

  /** `colorize(opaque, ctx)`, with `opaque` as `solid`: the base colour of the point, as is or at alpha 0.5. */
  function Colorize(solid: bool, highlight: seq<int>, index: int): (c: Color)
    ensures c.css == BaseColor(highlight, index)
    ensures c.Solid? <==> solid
    ensures c.Alpha? ==> c.alpha == 0.5
  {
    var base := BaseColor(highlight, index);
    if solid then Solid(base) else Alpha(base, 0.5)
  }

  /** The legend options. */
  datatype Legend = Legend(position: string, display: bool)

  /** `legend_options`: at the top, shown only once it is turned on for a chart with several datasets. */
  function LegendOptions(datasetCount: nat): (l: Legend)
    ensures l.position == "top"
    ensures l.display <==> datasetCount > 1
  {
    var legend := Legend("top", false);
    if datasetCount > 1 then legend.(display := true) else legend
  }

  datatype Title = Title(display: bool, text: string)
  datatype ScaleLabel = ScaleLabel(display: bool, labelString: string)
  datatype Axis = Axis(gridLineColor: string, scaleLabel: Option<ScaleLabel>, ticksMin: Option<int>)
  datatype Scales = Scales(xAxes: seq<Axis>, yAxes: seq<Axis>)

  /** `scalesDefaults`: shared grid-line colour; the y axis is labelled 'ns' and starts at 0. */
  const ScalesDefaults := Scales(
    [Axis(GridLineColor, None, None)],
    [Axis(GridLineColor, Some(ScaleLabel(true, "ns")), Some(0))])

  /** The `options` object; the rectangle colours are functions of the data index. */
  datatype Options = Options(
    responsive: bool, legend: Legend, title: Title, scales: Scales,
    backgroundColor: int -> Color, borderColor: int -> Color)

  /** What `new Chart(ctx, {...})` receives. */
  datatype ChartConfig = ChartConfig(kind: string, data: ChartData, options: Options)

  /** The configuration built for one canonical chart. */
  function Configure(data: ChartData): (cfg: ChartConfig)
    ensures cfg.kind == data.kind && cfg.data == data && cfg.options.responsive
    ensures cfg.options.legend.position == "top"
    ensures cfg.options.legend.display <==> |data.datasets| > 1
    ensures cfg.options.title == Title(true, data.title)
    ensures |cfg.options.scales.yAxes| == 1
    ensures cfg.options.scales.yAxes[0].ticksMin == Some(0)
    ensures cfg.options.scales.yAxes[0].scaleLabel == Some(ScaleLabel(true, "ns"))
    ensures forall i :: cfg.options.borderColor(i) == Solid(BaseColor(data.highlightIndices, i))
    ensures forall i :: cfg.options.backgroundColor(i) == Alpha(BaseColor(data.highlightIndices, i), 0.5)
  {
    var h := data.highlightIndices;
    ChartConfig(data.kind, data, Options(
      true, LegendOptions(|data.datasets|), Title(true, data.title), ScalesDefaults,
      i => Colorize(false, h, i), i => Colorize(true, h, i)))
  }

  /**
   * The `all_charts.forEach` callback for one chart: its datasets are
   * end-labelled in place, then its configuration is built from the
   * canonical copy.
   */
  method RenderChart(chart: Chart) returns (cfg: ChartConfig)
    modifies chart`datasets
    ensures chart.datasets == WithEndLabels(old(chart.datasets))
    ensures cfg == Configure(chart.CanonicalWith(WithEndLabels(old(chart.datasets))))
  {
    chart.AddEndLabels();
    cfg := Configure(chart.Canonical());
  }

  /**
   * `window.all_charts.forEach(...)`: every chart, in order. A chart listed
   * twice is labelled twice, to the same effect as once.
   */
  method RenderAllCharts(charts: seq<Chart>) returns (configs: seq<ChartConfig>)
    modifies set c | c in charts
    ensures |configs| == |charts|
    ensures forall c {:trigger c in charts} :: c in charts ==> c.datasets == WithEndLabels(old(c.datasets))
    ensures forall i :: 0 <= i < |charts| ==> configs[i] == Configure(charts[i].CanonicalWith(WithEndLabels(old(charts[i].datasets))))
  {
    configs := [];
    var i := 0;
    while i < |charts|
      invariant 0 <= i <= |charts|
      invariant |configs| == i
      invariant forall c {:trigger c in charts} :: c in charts ==> c.datasets == old(c.datasets) || c.datasets == WithEndLabels(old(c.datasets))
      invariant forall j :: 0 <= j < i ==> charts[j].datasets == WithEndLabels(old(charts[j].datasets))
      invariant forall j :: 0 <= j < i ==> configs[j] == Configure(charts[j].CanonicalWith(WithEndLabels(old(charts[j].datasets))))
    {
      var chart := charts[i];
      WithEndLabelsIdempotent(old(chart.datasets));
      var cfg := RenderChart(chart);
      configs := configs + [cfg];
      i := i + 1;
    }
    forall c | c in charts ensures c.datasets == WithEndLabels(old(c.datasets)) {
      var j :| 0 <= j < |charts| && charts[j] == c;
    }
  }
}
