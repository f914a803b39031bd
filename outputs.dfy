/** What the pipeline produces, as values instead of pixels and formatted text:
    the data-bearing overlays of each figure, the lines of the summary report, the
    console lines, and the files written to the output directory. */
module Outputs {

  import opened Selection
  import opened Tables
  import opened Degradation

  const OutputDir: string := "plots"

  /** Overlays whose position or text comes from the data. */
  datatype Mark =
    | OptimalStar(x: int, y: real)                      // the red star at the optimum
    | CellText(row: nat, col: nat, value: Option<real>)  // heatmap cell label (None is NaN)
    | CellOutline(row: nat, col: nat)                    // blue box around the optimal cell
    | VerticalLine(x: int)                               // red dashed line at a misaligned offset

  /** Lines of summary_report.txt. The formatting of numbers is left out. */
  datatype ReportLine =
    | DoubleRule                                // "=" * 70
    | SingleRule                                // "-" * 70
    | Blank
    | ReportTitle
    | SectionTitle(experiment: nat)
    | OptimalThreadsLine(threads: int)
    | OptimalBlocksLine(blocks: int)
    | OptimalGridLine(threads: int, blocks: int)
    | BandwidthLine(gbps: real)
    | RangeLine(low: real, high: real)
    | CoalescedLine(gbps: real)
    | StrideLine(stride: int, gbps: real, pct: Pct)
    | KeyFindingsTitle
    | Finding(number: nat)                      // the fixed prose findings 1..5

  /** Lines printed on the console. */
  datatype LogLine =
    | Banner
    | Plotting(experiment: nat)
    | OptimalThreads(threads: int, gbps: real)
    | OptimalBlocks(blocks: int, gbps: real)
    | OptimalGrid(threads: int, blocks: int, gbps: real)
    | CoalescedBandwidth(gbps: real)
    | StrideDegradation(stride: int, gbps: real, pct: Pct)
    | AlignedBandwidth(gbps: real)
    | GeneratingReport
    | ReportSaved
    | AllPlotsSaved(dir: string)
    | MissingResultsFile(path: string)
    | RunBenchmarksFirst
    | ErrorMessage(failure: Failure)

  /** A file written to the output directory. */
  datatype Artifact =
    | Image(path: string, marks: seq<Mark>)
    | TextFile(path: string, lines: seq<ReportLine>)
}
