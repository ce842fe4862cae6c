/**
 * Worked examples of the chart set-up: the "naive" integer-parsing
 * benchmark chart of the blog post's data (five benchmarks, the fifth
 * highlighted) and a three-category chart without a highlight list.
 */
module BenchmarkCharts {
  import opened Wrappers
  import opened Charts

  /** The title shared by the integer-parsing benchmark charts. */
  const BenchmarkTitle := "Integer Parsing Benchmark time in ns (lower is better)"

  /**
   * The "benchmark-canvas-naive" chart: one series over five benchmarks with
   * BM_naive (index 4) highlighted. Only it is drawn in the highlight colour,
   * each point's border is its opaque colour and its fill the same colour at
   * alpha 0.5, its single series carries end-aligned labels, and no legend is
   * shown.
   */
  method NaiveBenchmarkChart() returns (cfg: ChartConfig)
    ensures cfg.data.canvasId == "benchmark-canvas-naive" && cfg.kind == "bar"
    ensures cfg.options.title == Title(true, BenchmarkTitle)
    ensures !cfg.options.legend.display
    ensures |cfg.data.datasets| == 1 && cfg.data.datasets[0].datalabels == Some(EndLabels)
    ensures cfg.options.backgroundColor(4) == Alpha(HighlightColor, 0.5)
    ensures cfg.options.borderColor(4) == Solid(HighlightColor)
    ensures forall i :: 0 <= i < 4 ==> cfg.options.backgroundColor(i) == Alpha(DefaultColor, 0.5)
    ensures forall i :: 0 <= i < 4 ==> cfg.options.borderColor(i) == Solid(DefaultColor)
  {
    var series := Dataset("Benchmark", [0.22, 19.73, 86.23, 16.65, 9.74], None);
    var chart := new Chart("benchmark-canvas-naive", "bar", BenchmarkTitle,
      ["BM_mov", "BM_atoll", "BM_sstream", "BM_charconv", "BM_naive"], [series], Some([4]));
    var configs := RenderAllCharts([chart]);
    cfg := configs[0];
  }

  /**
   * A chart with categories A, B, C, one series [1, 2, 3] and no highlight
   * list: it gets the empty highlight list, so no point is highlighted, and
   * with a single series the legend stays hidden.
   */
  method UnhighlightedChart() returns (cfg: ChartConfig)
    ensures cfg.data.highlightIndices == []
    ensures !cfg.options.legend.display && cfg.options.legend.position == "top"
    ensures forall i :: cfg.options.backgroundColor(i) == Alpha(DefaultColor, 0.5)
    ensures forall i :: cfg.options.borderColor(i) == Solid(DefaultColor)
  {
    var chart := new Chart("chart", "bar", "A chart", ["A", "B", "C"],
      [Dataset("series", [1.0, 2.0, 3.0], None)], None);
    var configs := RenderAllCharts([chart]);
    cfg := configs[0];
  }
}
