# CUDA memory benchmark visualisation: the analysis core, in Dafny

This project models the analysis half of `plot.py`, the script that turns the
six CSV files written by the CUDA memory benchmarks into figures and a text
summary. The model covers:

- the optimum of each sweep (`idxmax`, and "first row equal to the max") and the
  min/max range of a bandwidth column;
- the threads × blocks pivot of experiment 3, with its cell labels and the
  outlined optimal cell;
- the coalesced (stride 1) baseline and the degradation percentages of the strided
  rows, plus the aligned (offset 0) baseline;
- the rule that highlights misaligned offsets;
- the line sequence of `summary_report.txt`;
- the driver `main`: six plotting steps, then the report, in one `try` block that
  stops at the first exception.

Figures are modelled as the data-bearing overlays they carry (the optimum star,
cell labels, the outline, the highlight lines). The report and the console are
modelled as sequences of typed lines. Each step returns what it printed, which
files it saved and what it raised. The model keeps every failure the analysis can
raise as a value: a missing file, `idxmax` of an empty column, `[0]` of an empty
selection, a pivot with duplicate keys, and `list.index` of an absent value.

Modules, in dependency order:

- `Selection`: `FirstIndexOf`, the "first position holding x" search behind
  every boolean-mask selection and `list.index`.
- `Tables`: typed rows, the `Failure` kinds, and column projections.
- `Metrics`: `IdxMax`, `MaxOf`, `MinOf`, `Range`, `Optimum`.
- `Degradation`: `Baseline`, `DegradationPct`, and the strided-row series. The
  series comes as a function and as the loop that computes it.
- `Outputs`: figure overlays, report lines, console lines, files.
- `Alignment`: the misalignment predicate, and the highlight loop with its
  specification.
- `Pivot`: `DataFrame.pivot`, the annotation loop, and the optimal cell.
- `Experiments`: `plot_experiment1` … `plot_experiment6`.
- `Report`: `generate_summary_report`.
- `Driver`: `main`.

Behaviour of the code that the model keeps as written:

- Degradation entries are produced only for rows with stride > 1. The baseline
  row gets no "0 %" entry.
- A key pair missing from experiment 3's grid gives a NaN cell, not an error.
  Only a duplicated key pair raises.
- Experiment 4 saves its figure before it looks up the stride-1 row. A stride table
  without one therefore fails with the figure already written. Experiments 1, 2
  and 5 fail before they save anything.

## Model

| member | source | states |
|---|---|---|
| Selection.FirstIndexOf | ex3/ex3/bin/plot.py:114-116 | finds x exactly when x is in the sequence; the position found holds x and no earlier position does |
| Metrics.IdxMax | ex3/ex3/bin/plot.py:38 | the position of a maximal value, strictly greater than every earlier value (first maximum on ties) |
| Metrics.MaxOf | ex3/ex3/bin/plot.py:113 | an upper bound of the column that the column attains |
| Metrics.MinOf | ex3/ex3/bin/plot.py:239 | a lower bound of the column that the column attains |
| Metrics.Range | ex3/ex3/bin/plot.py:239 | the (min, max) pair brackets every value, both ends occur in the column, and the max is the bandwidth of the row `idxmax` picks |
| Metrics.FirstMaxIsIdxMax | ex3/ex3/bin/plot.py:113-114 | the first row equal to the max (experiment 3) is the row `idxmax` selects (experiments 1 and 2) |
| Metrics.ThreadsExampleOptimum | ex3/ex3/bin/plot.py:38-40 | bandwidths 50, 90, 120, 95 give optimum at row 2 and range (50, 120) |
| Metrics.Optimum | ex3/ex3/bin/plot.py:65-67 | fails with the empty-argmax error exactly on an empty table; otherwise it returns a row of maximal bandwidth, the first on ties |
| Degradation.DegradationPct | ex3/ex3/bin/plot.py:174 | finite exactly when the baseline is non-zero, and then bw = b0 · (1 − d/100) |
| Degradation.Baseline | ex3/ex3/bin/plot.py:170 | succeeds exactly when some row has the identity parameter; gives the first such row's bandwidth; otherwise IndexError |
| Degradation.DegradationSeries | ex3/ex3/bin/plot.py:172-176 | the loop computes `Series`: one entry per row with stride > 1, and nothing else |
| Degradation.SeriesMembers | ex3/ex3/bin/plot.py:266-270 | an entry is in the series exactly when a row with stride > 1 produced it |
| Degradation.SeriesConcat | ex3/ex3/bin/plot.py:172-173 | entries follow row order: the series of a + b is series(a) + series(b) |
| Degradation.SeriesSkipsBaseline | ex3/ex3/bin/plot.py:173 | no entry has stride ≤ 1 |
| Degradation.DegradationBounds | ex3/ex3/bin/plot.py:174 | with 0 < b0 and 0 ≤ bw ≤ b0 the percentage is finite and within [0, 100] |
| Degradation.DegradationAntitone | ex3/ex3/bin/plot.py:174 | a lower bandwidth never gives a lower degradation |
| Degradation.DegradationExamples | ex3/ex3/bin/plot.py:170-176 | 60 against 100 is 40 %; strides (1,100), (2,80), (4,50) give baseline 100 and entries 20 % and 50 % |
| Alignment.ZeroTestRedundant | ex3/ex3/bin/plot.py:195 | the `offset != 0` test adds nothing: misaligned iff offset % 32 ≠ 0 |
| Alignment.MisalignedHighlights | ex3/ex3/bin/plot.py:194-196 | the loop computes `Highlights`: a line is drawn exactly at the offset of each misaligned row |
| Alignment.HighlightsExactly | ex3/ex3/bin/plot.py:194-196 | a highlight line is present exactly for the offsets of misaligned rows |
| Alignment.AlignedNeverHighlighted | ex3/ex3/bin/plot.py:195 | offset 0 and multiples of 32 are never highlighted |
| Alignment.HighlightsExample | ex3/ex3/bin/plot.py:194-196 | offsets 0, 1, 16, 32, 33 highlight 1, 16, 33 in that order |
| Pivot.InsertSorted | ex3/ex3/bin/plot.py:83-85 | inserting into a strictly increasing axis keeps it strictly increasing, and adds exactly x |
| Pivot.SortedDistinct | ex3/ex3/bin/plot.py:83-85 | the pivot axis is strictly increasing and holds exactly the column's values |
| Pivot.SortedDistinctUnique | ex3/ex3/bin/plot.py:83-85 | two strictly increasing sequences with the same members are equal, so the axis is determined by the column |
| Pivot.PivotOf | ex3/ex3/bin/plot.py:83-85 | raises exactly on a duplicated (threads, blocks) pair; otherwise |index| × |columns| cells over the sorted distinct keys |
| Pivot.PivotCellMeaning | ex3/ex3/bin/plot.py:83-85 | cell (i, j) is NaN exactly when no row has key (index[i], columns[j]), and otherwise holds that row's bandwidth |
| Pivot.FirstMatchIsOnlyMatch | ex3/ex3/bin/plot.py:83-85 | with unique key pairs, the row found for a key pair is the row that has it |
| Pivot.CompleteGridHasNoGaps | ex3/ex3/bin/plot.py:83-85 | when every threads × blocks combination occurs, no cell is NaN |
| Pivot.OptimalRow | ex3/ex3/bin/plot.py:113-114 | the first row holding the maximum bandwidth; IndexError exactly on an empty table |
| Pivot.OptimalCell | ex3/ex3/bin/plot.py:115-116 | succeeds exactly when both keys are labels; the positions found hold those labels; ValueError otherwise |
| Pivot.OutlinedCellHoldsMax | ex3/ex3/bin/plot.py:112-118 | on a valid non-empty grid the outlined cell exists, lies inside the grid and holds the maximum bandwidth |
| Pivot.LabelsLength | ex3/ex3/bin/plot.py:107-110 | the first n rows carry n · |columns| labels |
| Pivot.LabelAt | ex3/ex3/bin/plot.py:107-110 | the label of cell (i, j) sits at position i · |columns| + j and shows that cell's value |
| Pivot.LabelsLayout | ex3/ex3/bin/plot.py:107-110 | the whole grid has R · C labels, cell (i, j) at i · C + j |
| Pivot.LabelCells | ex3/ex3/bin/plot.py:107-110 | the nested annotation loop labels every cell once, row by row, with its own value |
| Experiments.PlotSweep | ex3/ex3/bin/plot.py:20-75 | fails exactly on a missing table (FileNotFound for its CSV) or an empty one (`idxmax`'s EmptyArgmax), then saving nothing; otherwise it saves one figure whose star marks a maximal row, the first on ties, and prints that row's threads (experiment 1) or blocks (experiment 2) and bandwidth |
| Experiments.Experiment3Outcome | ex3/ex3/bin/plot.py:77-140 | succeeds exactly on a present, non-empty table without duplicate key pairs, then saving the heatmap and the surface; the heatmap's first R · C marks are the pivot's cell labels in row-major order (cell (i, j) at i · C + j, by Pivot.LabelsLayout), followed by the outline of the cell `OptimalCell` finds for the first maximal row's key pair, which holds the maximum; a missing file raises FileNotFound, a duplicated key pair DuplicatePivotEntries and an empty table IndexOutOfBounds (`iloc[0]`) |
| Experiments.PlotExperiment3 | ex3/ex3/bin/plot.py:77-140 | the step, with its annotation loop, behaves as `Experiment3Spec` |
| Experiments.PlotExperiment4 | ex3/ex3/bin/plot.py:142-177 | succeeds exactly when a stride-1 row exists; the figure is saved whenever the file exists, even when the baseline lookup then fails |
| Experiments.StrideLogLines | ex3/ex3/bin/plot.py:171-175 | console line i reports entry i's stride, bandwidth and degradation percentage, one line per entry |
| Experiments.PlotExperiment5 | ex3/ex3/bin/plot.py:179-201 | succeeds exactly when an offset-0 row exists, otherwise saving nothing; the figure highlights exactly the misaligned offsets |
| Experiments.PlotExperiment6 | ex3/ex3/bin/plot.py:203-221 | fails only on a missing file, raising FileNotFound for its CSV; otherwise it saves its one figure |
| Report.SweepSection | ex3/ex3/bin/plot.py:232-248 | fails exactly on a missing or empty table; otherwise six lines: the optimal threads (section 1) or blocks (section 2) and the bandwidth of the row `idxmax` picks, then the column's (min, max) range, which brackets every bandwidth and whose high end equals the reported optimum bandwidth |
| Report.GridSection | ex3/ex3/bin/plot.py:250-258 | fails exactly on a missing or empty table; otherwise the grid line names the threads and blocks of the first row holding the maximum, and the bandwidth line reports that maximum, which bounds every row |
| Report.StrideSection | ex3/ex3/bin/plot.py:260-271 | fails exactly when there is no stride-1 row; otherwise a section titled 4 whose coalesced line reports the stride-1 baseline, followed by one stride line per degradation entry of `Series` against that baseline, then a blank line |
| Report.StrideReportLines | ex3/ex3/bin/plot.py:266-270 | line i reports entry i's stride, bandwidth and degradation percentage, one line per entry |
| Report.Section | ex3/ex3/bin/plot.py:232-271 | a completed section k begins with its own title and has no other title |
| Report.GenerateSummaryReport | ex3/ex3/bin/plot.py:223-282 | the written lines and the failure are those of `ReportSpec`: header, sections in order up to the first failure, KEY FINDINGS only on success |
| Report.SectionTitlesConcat | ex3/ex3/bin/plot.py:227-280 | the titles of a + b are those of a followed by those of b |
| Report.Completed | ex3/ex3/bin/plot.py:232-271 | the number of sections before the first one that raises |
| Report.ReportIsPrefix | ex3/ex3/bin/plot.py:227-280 | the file holds the header and the completed sections, plus KEY FINDINGS exactly when all four completed |
| Report.PrefixTitles | ex3/ex3/bin/plot.py:232-271 | after k sections the titles read 1, …, k |
| Report.ReportSectionOrder | ex3/ex3/bin/plot.py:227-280 | the report names experiments 1..4 in order up to the first failure, and fails exactly when a section cannot complete |
| Report.PrefixHasNoFindings | ex3/ex3/bin/plot.py:232-271 | no completed section contains the KEY FINDINGS title |
| Report.ReportFooter | ex3/ex3/bin/plot.py:273-280 | on success the file ends with the KEY FINDINGS block; after a failure it has none |
| Driver.PlotAll | ex3/ex3/bin/plot.py:284-307 | `main` behaves as `Run`: steps in order until the first raise, then the success or error lines |
| Driver.AbortIsFinal | ex3/ex3/bin/plot.py:290-297 | once a step has raised, no later step runs and the state stays put |
| Driver.PrefixOutcome | ex3/ex3/bin/plot.py:290-297 | after n steps the run is still going exactly when each returned, and it has saved their files in order |
| Driver.SweepNeeds | ex3/ex3/bin/plot.py:20-75 | steps 1 and 2 return exactly on a present, non-empty table |
| Driver.GridNeeds | ex3/ex3/bin/plot.py:77-140 | step 3 returns exactly on a present, non-empty table with unique key pairs |
| Driver.BaselinesNeeded | ex3/ex3/bin/plot.py:142-221 | steps 4, 5, 6 return exactly with a stride-1 row, an offset-0 row, a present file |
| Driver.ReportCompletes | ex3/ex3/bin/plot.py:232-271 | non-empty sweeps, a non-empty grid and a stride-1 row let every section complete |
| Driver.ReportFollowsPlots | ex3/ex3/bin/plot.py:290-297 | once experiments 1–4 have plotted, the report cannot raise |
| Driver.AllPassIffUsable | ex3/ex3/bin/plot.py:290-297 | all seven steps return exactly when every input is usable |
| Driver.StepFiles | ex3/ex3/bin/plot.py:46-221 | a step that returns has written exactly its own files; a plotting step writes only figures |
| Driver.FilesInOrder | ex3/ex3/bin/plot.py:290-297 | when the first n steps return, the saved paths are their files in call order |
| Driver.PlotsSaveFigures | ex3/ex3/bin/plot.py:291-296 | before the report step only figures have been written |
| Driver.AllFiles | ex3/ex3/bin/plot.py:46-227 | the seven figure paths, then summary_report.txt |
| Driver.RunSucceeds | ex3/ex3/bin/plot.py:284-307 | success iff every input is usable; then the seven figures and the report are saved in call order, the report did not raise, and the last line is the success line |
| Driver.FirstFailureAborts | ex3/ex3/bin/plot.py:290-307 | the first raising step decides the reported failure; saved files are the earlier steps' plus whatever it wrote |
| Driver.AbortedBeforeReport | ex3/ex3/bin/plot.py:290-307 | an aborted run never aborts in the report step, reports the aborting step's own failure, and has written only figures |
| Driver.NothingUndone | ex3/ex3/bin/plot.py:290-307 | later steps only append: console and saved files grow by extension |
| Driver.MissingFileReported | ex3/ex3/bin/plot.py:303-305 | a FileNotFound abort names the results file of the step that read it, that file is absent, and the last two lines ask to run the benchmarks |
| Driver.MissingInputRaises | ex3/ex3/bin/plot.py:23-206 | each plotting step's `read_csv` (lines 23, 53, 80, 145, 182, 206) raises FileNotFound naming that step's results file when it is absent |
| Driver.MissingFileAborts | ex3/ex3/bin/plot.py:290-305 | if every step before step k returned and step k's file is missing, the run aborts at step k with FileNotFound for that file, ends with the two missing-file lines, and has saved only figures (no report) |
| Driver.MissingFirstResults | ex3/ex3/bin/plot.py:20-23 | without the first results file, nothing is saved and the error lines follow the first "Plotting" line |
| Driver.StrideStepFails | ex3/ex3/bin/plot.py:167-170 | a stride table without stride 1 fails with IndexError after saving its figure |
| Driver.StrideFigureOutlivesFailure | ex3/ex3/bin/plot.py:167-170 | such a run stops at experiment 4, with that figure as the last file written and the generic error line last |

## Left out

- Rendering: the matplotlib calls, styles, colours, tick labels, colour bars and
  the 3D surface's geometry. Figures are modelled only by their data overlays.
- The plotted lines themselves are not modelled; the code draws them in file order
  without sorting.
- CSV parsing and column typing. The tables arrive already parsed as typed rows.
  A missing file is `None`; a missing column or a malformed file is not modelled.
- `os.makedirs` and any file-system error other than a missing results file.
- Number formatting (`:.2f`, `:.1f`, `int(...)`) and the exact text of printed and
  written lines. Lines are typed values carrying the numbers they show.
- Floating point: bandwidths are exact reals. The inf/nan results of dividing by a
  zero baseline collapse into one `NonFinite` value, and NaN bandwidths in the input
  are not modelled.
- The prose of the five key findings. These are fixed text, modelled as `Finding(1..5)`.
- The banner and blank-line decoration of the console, modelled as one `Banner`. The
  `=` rules printed around the success line are not modelled either, so the success
  line is last in the modelled log, while `main` prints a rule after it.
- Exceptions matplotlib itself could raise, for example on an empty plot.
