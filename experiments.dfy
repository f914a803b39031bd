/** The six plotting steps, `plot_experiment1` .. `plot_experiment6`: what each one
    reads, prints, draws and saves, and where each one can raise. */
module Experiments {

  import opened Selection
  import opened Tables
  import opened Metrics
  import opened Pivot
  import opened Degradation
  import opened Alignment
  import opened Outputs

  const Exp1Csv: string := "results/exp1_threads_per_block.csv"
  const Exp2Csv: string := "results/exp2_blocks_per_grid.csv"
  const Exp3Csv: string := "results/exp3_2d_optimization.csv"
  const Exp4Csv: string := "results/exp4_stride_comparison.csv"
  const Exp5Csv: string := "results/exp5_offset_comparison.csv"
  const Exp6Csv: string := "results/exp6_memory_size.csv"

  const Exp1Png: string := "plots/exp1_threads_per_block.png"
  const Exp2Png: string := "plots/exp2_blocks_per_grid.png"
  const Exp3Png: string := "plots/exp3_2d_optimization.png"
  const Exp3SurfacePng: string := "plots/exp3_2d_optimization_3d.png"
  const Exp4Png: string := "plots/exp4_stride_comparison.png"
  const Exp5Png: string := "plots/exp5_offset_comparison.png"
  const Exp6Png: string := "plots/exp6_memory_size.png"

  /** The six results tables as `pd.read_csv` would return them; None when the file
      does not exist. */
  datatype Inputs = Inputs(
    exp1: Option<seq<Sample>>,
    exp2: Option<seq<Sample>>,
    exp3: Option<seq<GridRow>>,
    exp4: Option<seq<Sample>>,
    exp5: Option<seq<Sample>>,
    exp6: Option<seq<Sample>>)

  /** What one step printed, which files it saved, and what it raised, if anything. */
  datatype StepResult = StepResult(log: seq<LogLine>, saved: seq<Artifact>, failure: Option<Failure>)

  predicate SavesOnlyImages(r: StepResult)
  {
    forall a :: a in r.saved ==> a.Image?
  }

  /** Experiments 1 and 2: a line chart with a star at the `idxmax` row, saved only
      after the optimum is found. */
  function PlotSweep(n: nat, csv: string, png: string, input: Option<seq<Sample>>): (r: StepResult)
    requires n == 1 || n == 2
    ensures r.failure.None? <==> input.Some? && |input.value| > 0
    ensures input.None? ==> r.failure == Some(FileNotFound(csv))
    ensures input.Some? && |input.value| == 0 ==> r.failure == Some(EmptyArgmax)
    ensures r.failure.Some? ==> r.saved == [] && r.log == [Plotting(n)]
    ensures r.failure.None? ==>
              exists k :: 0 <= k < |input.value|
                && r.saved == [Image(png, [OptimalStar(input.value[k].param, input.value[k].bandwidthGbps)])]
                && r.log == [Plotting(n), if n == 1 then OptimalThreads(input.value[k].param, input.value[k].bandwidthGbps)
                                          else OptimalBlocks(input.value[k].param, input.value[k].bandwidthGbps)]
                && (forall i :: 0 <= i < |input.value| ==> input.value[i].bandwidthGbps <= input.value[k].bandwidthGbps)
                && (forall i :: 0 <= i < k ==> input.value[i].bandwidthGbps < input.value[k].bandwidthGbps)
  {
    match input
    case None => StepResult([Plotting(n)], [], Some(FileNotFound(csv)))
    case Some(t) =>
      match Optimum(t)
      case Err(f) => StepResult([Plotting(n)], [], Some(f))
      case Ok(best) =>
        var line := if n == 1 then OptimalThreads(best.param, best.bandwidthGbps)
                    else OptimalBlocks(best.param, best.bandwidthGbps);
        StepResult([Plotting(n), line], [Image(png, [OptimalStar(best.param, best.bandwidthGbps)])], None)
  }

  function PlotExperiment1(input: Option<seq<Sample>>): StepResult
  {
    PlotSweep(1, Exp1Csv, Exp1Png, input)
  }

  function PlotExperiment2(input: Option<seq<Sample>>): StepResult
  {
    PlotSweep(2, Exp2Csv, Exp2Png, input)
  }

  /** Experiment 3: the heatmap with every cell labelled and the optimal cell
      outlined, then the 3D surface of the same grid. */
  function Experiment3Spec(input: Option<seq<GridRow>>): StepResult
  {
    match input
    case None => StepResult([Plotting(3)], [], Some(FileNotFound(Exp3Csv)))
    case Some(rows) =>
      match PivotOf(rows)
      case Err(f) => StepResult([Plotting(3)], [], Some(f))
      case Ok(p) =>
        match OptimalRow(rows)
        case Err(f) => StepResult([Plotting(3)], [], Some(f))
        case Ok(o) =>
          var best := rows[o];
          match OptimalCell(p, best.threadsPerBlock, best.blocksPerGrid)
          case Err(f) => StepResult([Plotting(3)], [], Some(f))
          case Ok(cell) =>
            StepResult(
              [Plotting(3), OptimalGrid(best.threadsPerBlock, best.blocksPerGrid, MaxOf(GridBandwidths(rows)))],
              [Image(Exp3Png, LabelsUpTo(p, |p.index|) + [CellOutline(cell.0, cell.1)]), Image(Exp3SurfacePng, [])],
              None)
  }

  /** The heatmap step fails only on a missing file, a duplicated key pair or an empty
      table; otherwise it saves both figures, and the outlined cell holds the maximum. */
  lemma {:induction false} Experiment3Outcome(input: Option<seq<GridRow>>)
    ensures var r := Experiment3Spec(input);
            && (r.failure.None? <==> input.Some? && UniquePairs(input.value) && |input.value| > 0)
            && (input.None? ==> r.failure == Some(FileNotFound(Exp3Csv)))
            && (input.Some? && !UniquePairs(input.value) ==> r.failure == Some(DuplicatePivotEntries))
            && (input.Some? && |input.value| == 0 ==> r.failure == Some(IndexOutOfBounds))
            && (r.failure.Some? ==> r.saved == [])
            && (r.failure.None? ==>
                  var p := PivotOf(input.value).value;
                  |r.saved| == 2 && r.saved[0].Image? && |r.saved[0].marks| == |p.index| * |p.columns| + 1
                  && r.saved[0].marks[..|p.index| * |p.columns|] == LabelsUpTo(p, |p.index|)
                  && var outline := r.saved[0].marks[|r.saved[0].marks| - 1];
                     outline.CellOutline? && outline.row < |p.index| && outline.col < |p.columns|
                     && p.values[outline.row][outline.col] == Some(MaxOf(GridBandwidths(input.value))))
            && (r.failure.None? ==>
                  var rows := input.value;
                  var o := OptimalRow(rows).value;
                  var c := OptimalCell(PivotOf(rows).value, rows[o].threadsPerBlock, rows[o].blocksPerGrid);
                  c.Ok? && r.saved[0].marks[|r.saved[0].marks| - 1] == CellOutline(c.value.0, c.value.1))
  {
    if input.Some? && UniquePairs(input.value) && |input.value| > 0 {
      var rows := input.value;
      var p := PivotOf(rows).value;
      OutlinedCellHoldsMax(rows);
      LabelsLength(p, |p.index|);
    }
  }

  /** `df[df['stride'] == 1]` follows the savefig call, so a table without a stride-1
      row fails with its figure already written. */
  function Experiment4Spec(input: Option<seq<Sample>>): StepResult
  {
    match input
    case None => StepResult([Plotting(4)], [], Some(FileNotFound(Exp4Csv)))
    case Some(t) =>
      match Baseline(t, 1)
      case Err(f) => StepResult([Plotting(4)], [Image(Exp4Png, [])], Some(f))
      case Ok(b0) =>
        StepResult([Plotting(4), CoalescedBandwidth(b0)] + StrideLogLines(Series(t, b0)), [Image(Exp4Png, [])], None)
  }

  /** One console line per degradation entry, in entry order. */
  function StrideLogLines(entries: seq<DegradationEntry>): (lines: seq<LogLine>)
    ensures |lines| == |entries|
    ensures forall i :: 0 <= i < |lines| ==>
              lines[i] == StrideDegradation(entries[i].stride, entries[i].bandwidthGbps, entries[i].pct)
  {
    seq(|entries|, i requires 0 <= i < |entries| => StrideDegradation(entries[i].stride, entries[i].bandwidthGbps, entries[i].pct))
  }

  method PlotExperiment4(input: Option<seq<Sample>>) returns (r: StepResult)
    ensures r == Experiment4Spec(input)
    ensures r.failure.None? <==> input.Some? && 1 in Params(input.value)
    ensures input.Some? ==> r.saved == [Image(Exp4Png, [])]
  {
    match input {
      case None =>
        r := StepResult([Plotting(4)], [], Some(FileNotFound(Exp4Csv)));
      case Some(t) =>
        var saved := [Image(Exp4Png, [])];
        var b := Baseline(t, 1);
        if b.Err? {
          r := StepResult([Plotting(4)], saved, Some(b.failure));
        } else {
          var entries := DegradationSeries(t, b.value);
          r := StepResult([Plotting(4), CoalescedBandwidth(b.value)] + StrideLogLines(entries), saved, None);
        }
    }
  }

  /** Experiment 5: the aligned baseline is looked up before anything is drawn, then a
      line marks every misaligned offset. */
  function Experiment5Spec(input: Option<seq<Sample>>): StepResult
  {
    match input
    case None => StepResult([Plotting(5)], [], Some(FileNotFound(Exp5Csv)))
    case Some(t) =>
      match Baseline(t, 0)
      case Err(f) => StepResult([Plotting(5)], [], Some(f))
      case Ok(aligned) => StepResult([Plotting(5), AlignedBandwidth(aligned)], [Image(Exp5Png, Highlights(t))], None)
  }

  method PlotExperiment5(input: Option<seq<Sample>>) returns (r: StepResult)
    ensures r == Experiment5Spec(input)
    ensures r.failure.None? <==> input.Some? && 0 in Params(input.value)
    ensures r.failure.Some? ==> r.saved == []
    ensures r.failure.None? ==>
              && |r.saved| == 1 && r.saved[0].Image?
              && forall m :: m in r.saved[0].marks <==>
                   exists i :: 0 <= i < |input.value| && Misaligned(input.value[i].param) && m == VerticalLine(input.value[i].param)
  {
    match input {
      case None =>
        r := StepResult([Plotting(5)], [], Some(FileNotFound(Exp5Csv)));
      case Some(t) =>
        var aligned := Baseline(t, 0);
        if aligned.Err? {
          r := StepResult([Plotting(5)], [], Some(aligned.failure));
        } else {
          var marks := MisalignedHighlights(t);
          r := StepResult([Plotting(5), AlignedBandwidth(aligned.value)], [Image(Exp5Png, marks)], None);
        }
    }
  }

  /** Experiment 6 draws its table and analyses nothing: it fails only on a missing file. */
  function PlotExperiment6(input: Option<seq<Sample>>): (r: StepResult)
    ensures r.failure.None? <==> input.Some?
    ensures input.None? ==> r.failure == Some(FileNotFound(Exp6Csv))
    ensures r.failure.None? ==> r.saved == [Image(Exp6Png, [])]
    ensures r.failure.Some? ==> r.saved == []
  {
    match input
    case None => StepResult([Plotting(6)], [], Some(FileNotFound(Exp6Csv)))
    case Some(_) => StepResult([Plotting(6)], [Image(Exp6Png, [])], None)
  }

  /** The heatmap step as a method: the annotation loop draws the cell labels. */
  method PlotExperiment3(input: Option<seq<GridRow>>) returns (r: StepResult)
    ensures r == Experiment3Spec(input)
  {
    match input {
      case None =>
        r := StepResult([Plotting(3)], [], Some(FileNotFound(Exp3Csv)));
      case Some(rows) =>
        var pivot := PivotOf(rows);
        if pivot.Err? {
          r := StepResult([Plotting(3)], [], Some(pivot.failure));
          return;
        }
        var p := pivot.value;
        var labels := LabelCells(p);
        var o := OptimalRow(rows);
        if o.Err? {
          r := StepResult([Plotting(3)], [], Some(o.failure));
          return;
        }
        var best := rows[o.value];
        var cell := OptimalCell(p, best.threadsPerBlock, best.blocksPerGrid);
        if cell.Err? {
          r := StepResult([Plotting(3)], [], Some(cell.failure));
          return;
        }
        r := StepResult(
          [Plotting(3), OptimalGrid(best.threadsPerBlock, best.blocksPerGrid, MaxOf(GridBandwidths(rows)))],
          [Image(Exp3Png, labels + [CellOutline(cell.value.0, cell.value.1)]), Image(Exp3SurfacePng, [])],
          None);
    }
  }
}
