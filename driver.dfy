/** `main`: the six plotting steps and then the report, in that fixed order, inside one
    `try`. The first exception ends the run; files already written stay. */
module Driver {

  import opened Selection
  import opened Tables
  import opened Pivot
  import opened Outputs
  import opened Experiments
  import opened Report

  datatype Step = Experiment1 | Experiment2 | Experiment3 | Experiment4 | Experiment5 | Experiment6 | SummaryReport

  /** The order of the calls inside the `try` block. */
  const Steps: seq<Step> :=
    [Experiment1, Experiment2, Experiment3, Experiment4, Experiment5, Experiment6, SummaryReport]

  /** The step that raised and what it raised. */
  datatype Abort = Abort(step: Step, failure: Failure)

  /** The console so far, the files written so far, and the abort, if one happened. */
  datatype Progress = Progress(log: seq<LogLine>, saved: seq<Artifact>, abort: Option<Abort>)

  /** The report step: the file is opened (and truncated) before any section is
      computed, so it exists with whatever was written even when a section raises. */
  function ReportStep(inputs: Inputs): (r: StepResult)
    ensures |r.saved| == 1 && r.saved[0].TextFile? && r.saved[0].path == SummaryTxt
  {
    var w := ReportSpec(inputs);
    StepResult([GeneratingReport] + (if w.failure.None? then [ReportSaved] else []), [TextFile(SummaryTxt, w.lines)], w.failure)
  }

  function StepSpec(s: Step, inputs: Inputs): StepResult
  {
    match s
    case Experiment1 => PlotExperiment1(inputs.exp1)
    case Experiment2 => PlotExperiment2(inputs.exp2)
    case Experiment3 => Experiment3Spec(inputs.exp3)
    case Experiment4 => Experiment4Spec(inputs.exp4)
    case Experiment5 => Experiment5Spec(inputs.exp5)
    case Experiment6 => PlotExperiment6(inputs.exp6)
    case SummaryReport => ReportStep(inputs)
  }

  /** The state after the first n steps have been attempted, stopping at the first
      one that raises. */
  function RunPrefix(inputs: Inputs, n: nat): Progress
    requires n <= |Steps|
  {
    if n == 0 then Progress([Banner], [], None)
    else
      var before := RunPrefix(inputs, n - 1);
      if before.abort.Some? then before
      else
        Advance(before, Steps[n - 1], StepSpec(Steps[n - 1], inputs))
  }

  /** The state after step s, which produced r, has run. */
  function Advance(p: Progress, s: Step, r: StepResult): Progress
  {
    Progress(p.log + r.log, p.saved + r.saved,
             if r.failure.Some? then Some(Abort(s, r.failure.value)) else None)
  }

  /** What `main` prints after the `try` block: the success banner, or the handler of
      the exception that ended the run. */
  function Closing(abort: Option<Abort>): seq<LogLine>
  {
    match abort
    case None => [AllPlotsSaved(OutputDir)]
    case Some(Abort(_, FileNotFound(path))) => [MissingResultsFile(path), RunBenchmarksFirst]
    case Some(Abort(_, f)) => [ErrorMessage(f)]
  }

  function Run(inputs: Inputs): Progress
  {
    var p := RunPrefix(inputs, |Steps|);
    Progress(p.log + Closing(p.abort), p.saved, p.abort)
  }

  /** One call of the `try` block. */
  method RunStep(s: Step, inputs: Inputs) returns (r: StepResult)
    ensures r == StepSpec(s, inputs)
  {
    match s {
      case Experiment1 => r := PlotExperiment1(inputs.exp1);
      case Experiment2 => r := PlotExperiment2(inputs.exp2);
      case Experiment3 => r := PlotExperiment3(inputs.exp3);
      case Experiment4 => r := PlotExperiment4(inputs.exp4);
      case Experiment5 => r := PlotExperiment5(inputs.exp5);
      case Experiment6 => r := PlotExperiment6(inputs.exp6);
      case SummaryReport =>
        var lines, failure := GenerateSummaryReport(inputs);
        r := StepResult([GeneratingReport] + (if failure.None? then [ReportSaved] else []), [TextFile(SummaryTxt, lines)], failure);
    }
  }

  /** `main`: the calls of the `try` block one after another; the first that raises
      ends the block, and the closing lines follow. */
  method PlotAll(inputs: Inputs) returns (p: Progress)
    ensures p == Run(inputs)
  {
    p := Progress([Banner], [], None);
    p := Proceed(inputs, p, 0);
    if p.abort.Some? { p := Finish(inputs, p, 1); return; }
    p := Proceed(inputs, p, 1);
    if p.abort.Some? { p := Finish(inputs, p, 2); return; }
    p := Proceed(inputs, p, 2);
    if p.abort.Some? { p := Finish(inputs, p, 3); return; }
    p := Proceed(inputs, p, 3);
    if p.abort.Some? { p := Finish(inputs, p, 4); return; }
    p := Proceed(inputs, p, 4);
    if p.abort.Some? { p := Finish(inputs, p, 5); return; }
    p := Proceed(inputs, p, 5);
    if p.abort.Some? { p := Finish(inputs, p, 6); return; }
    p := Proceed(inputs, p, 6);
    p := Finish(inputs, p, 7);
  }

  /** The k-th call of the `try` block, reached because no earlier call raised. */
  method Proceed(inputs: Inputs, p: Progress, k: nat) returns (q: Progress)
    requires k < |Steps|
    requires p == RunPrefix(inputs, k) && p.abort.None?
    ensures q == RunPrefix(inputs, k + 1)
  {
    var r := RunStep(Steps[k], inputs);
    q := Advance(p, Steps[k], r);
  }

  /** The closing lines, once the steps up to n have run and either the n-th raised
      or n is the last. */
  method Finish(inputs: Inputs, p: Progress, n: nat) returns (q: Progress)
    requires n <= |Steps|
    requires p == RunPrefix(inputs, n)
    requires p.abort.Some? || n == |Steps|
    ensures q == Run(inputs)
  {
    if n < |Steps| {
      AbortIsFinal(inputs, n, |Steps|);
    }
    q := Progress(p.log + Closing(p.abort), p.saved, p.abort);
  }

  /** Once a step has raised, no later step runs: the state stays as it was. */
  lemma {:induction false} AbortIsFinal(inputs: Inputs, m: nat, n: nat)
    requires m <= n <= |Steps|
    requires RunPrefix(inputs, m).abort.Some?
    ensures RunPrefix(inputs, n) == RunPrefix(inputs, m)
    decreases n - m
  {
    if m < n {
      AbortIsFinal(inputs, m, n - 1);
    }
  }

  /** Step j of the `try` block returns without raising. */
  predicate Passes(inputs: Inputs, j: nat)
    requires j < |Steps|
  {
    StepSpec(Steps[j], inputs).failure.None?
  }

  /** The files the first n steps save when none of them raises. */
  function SavedUpTo(inputs: Inputs, n: nat): seq<Artifact>
    requires n <= |Steps|
  {
    if n == 0 then [] else SavedUpTo(inputs, n - 1) + StepSpec(Steps[n - 1], inputs).saved
  }

  /** One step: the run goes on exactly when it was going and the step returned,
      and then the step's files are appended. */
  lemma StepOutcome(inputs: Inputs, n: nat)
    requires 0 < n <= |Steps|
    ensures RunPrefix(inputs, n).abort.None? <==> RunPrefix(inputs, n - 1).abort.None? && Passes(inputs, n - 1)
    ensures RunPrefix(inputs, n).abort.None? ==>
              RunPrefix(inputs, n).saved == RunPrefix(inputs, n - 1).saved + StepSpec(Steps[n - 1], inputs).saved
  {
  }

  /** Each of the first n steps returns. */
  predicate AllPass(inputs: Inputs, n: nat)
    requires n <= |Steps|
  {
    forall j :: 0 <= j < n ==> Passes(inputs, j)
  }

  lemma AllPassStep(inputs: Inputs, n: nat)
    requires 0 < n <= |Steps|
    ensures AllPass(inputs, n) <==> AllPass(inputs, n - 1) && Passes(inputs, n - 1)
  {
  }

  /** After n steps the run is still going exactly when each of them returned, and
      then it has saved what each of them saves, in order. */
  lemma {:induction false} PrefixOutcome(inputs: Inputs, n: nat)
    requires n <= |Steps|
    ensures RunPrefix(inputs, n).abort.None? <==> AllPass(inputs, n)
    ensures RunPrefix(inputs, n).abort.None? ==> RunPrefix(inputs, n).saved == SavedUpTo(inputs, n)
  {
    if n > 0 {
      PrefixOutcome(inputs, n - 1);
      StepOutcome(inputs, n);
      AllPassStep(inputs, n);
    }
  }

  /** Every result file is present, the sweeps are non-empty, the grid has one row per
      (threads, blocks) pair and at least one row, and the stride and offset tables
      hold their baseline rows. */
  predicate Usable(inputs: Inputs)
  {
    && inputs.exp1.Some? && |inputs.exp1.value| > 0
    && inputs.exp2.Some? && |inputs.exp2.value| > 0
    && inputs.exp3.Some? && UniquePairs(inputs.exp3.value) && |inputs.exp3.value| > 0
    && inputs.exp4.Some? && 1 in Params(inputs.exp4.value)
    && inputs.exp5.Some? && 0 in Params(inputs.exp5.value)
    && inputs.exp6.Some?
  }

  lemma SweepNeeds(inputs: Inputs)
    ensures Passes(inputs, 0) <==> inputs.exp1.Some? && |inputs.exp1.value| > 0
    ensures Passes(inputs, 1) <==> inputs.exp2.Some? && |inputs.exp2.value| > 0
  {
    assert Steps[0] == Experiment1 && Steps[1] == Experiment2;
  }

  lemma GridNeeds(inputs: Inputs)
    ensures Passes(inputs, 2) <==> inputs.exp3.Some? && UniquePairs(inputs.exp3.value) && |inputs.exp3.value| > 0
  {
    assert Steps[2] == Experiment3;
    Experiment3Outcome(inputs.exp3);
  }

  lemma BaselinesNeeded(inputs: Inputs)
    ensures Passes(inputs, 3) <==> inputs.exp4.Some? && 1 in Params(inputs.exp4.value)
    ensures Passes(inputs, 4) <==> inputs.exp5.Some? && 0 in Params(inputs.exp5.value)
    ensures Passes(inputs, 5) <==> inputs.exp6.Some?
  {
    assert Steps[3] == Experiment4 && Steps[4] == Experiment5 && Steps[5] == Experiment6;
    if inputs.exp4.Some? {
      var t := inputs.exp4.value;
      assert 1 in Params(t) <==> exists i :: 0 <= i < |t| && t[i].param == 1;
    }
    if inputs.exp5.Some? {
      var t := inputs.exp5.value;
      assert 0 in Params(t) <==> exists i :: 0 <= i < |t| && t[i].param == 0;
    }
  }

  /** The report's sections need less than the plots do: non-empty sweeps, a
      non-empty grid and a stride-1 row. */
  lemma ReportCompletes(inputs: Inputs)
    requires inputs.exp1.Some? && |inputs.exp1.value| > 0
    requires inputs.exp2.Some? && |inputs.exp2.value| > 0
    requires inputs.exp3.Some? && |inputs.exp3.value| > 0
    requires inputs.exp4.Some? && 1 in Params(inputs.exp4.value)
    ensures ReportSpec(inputs).failure.None?
  {
    assert SweepSection(1, Exp1Csv, inputs.exp1).Ok?;
    assert SweepSection(2, Exp2Csv, inputs.exp2).Ok?;
    assert GridSection(inputs.exp3).Ok?;
    assert StrideSection(inputs.exp4).Ok?;
  }

  lemma PlotsNeed(inputs: Inputs)
    requires Passes(inputs, 0) && Passes(inputs, 1) && Passes(inputs, 2) && Passes(inputs, 3)
    ensures inputs.exp1.Some? && |inputs.exp1.value| > 0
    ensures inputs.exp2.Some? && |inputs.exp2.value| > 0
    ensures inputs.exp3.Some? && |inputs.exp3.value| > 0
    ensures inputs.exp4.Some? && 1 in Params(inputs.exp4.value)
  {
    SweepNeeds(inputs);
    GridNeeds(inputs);
    BaselinesNeeded(inputs);
  }

  /** So once experiments 1 to 4 have plotted, the report cannot raise. */
  lemma ReportFollowsPlots(inputs: Inputs)
    requires Passes(inputs, 0) && Passes(inputs, 1) && Passes(inputs, 2) && Passes(inputs, 3)
    ensures ReportSpec(inputs).failure.None? && Passes(inputs, 6)
  {
    PlotsNeed(inputs);
    ReportCompletes(inputs);
    ReportStepReturns(inputs);
  }

  lemma ReportStepReturns(inputs: Inputs)
    requires ReportSpec(inputs).failure.None?
    ensures Passes(inputs, 6)
  {
    assert Steps[6] == SummaryReport;
    assert StepSpec(SummaryReport, inputs).failure == ReportSpec(inputs).failure;
  }

  lemma PassesEach(inputs: Inputs)
    ensures AllPass(inputs, |Steps|) <==>
              && Passes(inputs, 0) && Passes(inputs, 1) && Passes(inputs, 2) && Passes(inputs, 3)
              && Passes(inputs, 4) && Passes(inputs, 5) && Passes(inputs, 6)
  {
    if Passes(inputs, 0) && Passes(inputs, 1) && Passes(inputs, 2) && Passes(inputs, 3)
       && Passes(inputs, 4) && Passes(inputs, 5) && Passes(inputs, 6) {
      forall j | 0 <= j < |Steps| ensures Passes(inputs, j) {
        assert j in {0, 1, 2, 3, 4, 5, 6};
      }
    }
  }

  lemma AllPassIffUsable(inputs: Inputs)
    ensures AllPass(inputs, |Steps|) <==> Usable(inputs)
  {
    PassesEach(inputs);
    SweepNeeds(inputs);
    GridNeeds(inputs);
    BaselinesNeeded(inputs);
    if Usable(inputs) {
      ReportFollowsPlots(inputs);
    }
  }

  /** The paths of the saved files, in order. */
  function Paths(saved: seq<Artifact>): (ps: seq<string>)
    ensures |ps| == |saved|
  {
    seq(|saved|, i requires 0 <= i < |saved| => saved[i].path)
  }

  lemma PathsConcat(a: seq<Artifact>, b: seq<Artifact>)
    ensures Paths(a + b) == Paths(a) + Paths(b)
  {
  }

  /** The files a step writes when it returns without raising. */
  function FilesOf(s: Step): seq<string>
  {
    match s
    case Experiment1 => [Exp1Png]
    case Experiment2 => [Exp2Png]
    case Experiment3 => [Exp3Png, Exp3SurfacePng]
    case Experiment4 => [Exp4Png]
    case Experiment5 => [Exp5Png]
    case Experiment6 => [Exp6Png]
    case SummaryReport => [SummaryTxt]
  }

  function FilesUpTo(n: nat): seq<string>
    requires n <= |Steps|
  {
    if n == 0 then [] else FilesUpTo(n - 1) + FilesOf(Steps[n - 1])
  }

  /** A step that returns has written exactly its own files; a plotting step writes
      only figures, whether or not it raises. */
  lemma StepFiles(inputs: Inputs, s: Step)
    ensures StepSpec(s, inputs).failure.None? ==> Paths(StepSpec(s, inputs).saved) == FilesOf(s)
    ensures s != SummaryReport ==> forall a :: a in StepSpec(s, inputs).saved ==> a.Image?
  {
    match s
    case Experiment3 => Experiment3Outcome(inputs.exp3);
    case _ =>
  }

  lemma {:induction false} FilesInOrder(inputs: Inputs, n: nat)
    requires n <= |Steps|
    requires AllPass(inputs, n)
    ensures Paths(SavedUpTo(inputs, n)) == FilesUpTo(n)
  {
    if n > 0 {
      AllPassStep(inputs, n);
      FilesInOrder(inputs, n - 1);
      var s := Steps[n - 1];
      StepFiles(inputs, s);
      PathsConcat(SavedUpTo(inputs, n - 1), StepSpec(s, inputs).saved);
      assert SavedUpTo(inputs, n) == SavedUpTo(inputs, n - 1) + StepSpec(s, inputs).saved;
    }
  }

  /** Before the report step, only figures have been written. */
  lemma {:induction false} PlotsSaveFigures(inputs: Inputs, n: nat)
    requires n < |Steps|
    ensures forall a :: a in SavedUpTo(inputs, n) ==> a.Image?
  {
    if n > 0 {
      PlotsSaveFigures(inputs, n - 1);
      StepFiles(inputs, Steps[n - 1]);
    }
  }

  lemma AllFiles()
    ensures FilesUpTo(|Steps|) == [Exp1Png, Exp2Png, Exp3Png, Exp3SurfacePng, Exp4Png, Exp5Png, Exp6Png, SummaryTxt]
  {
    assert FilesUpTo(1) == [Exp1Png];
    assert FilesUpTo(2) == [Exp1Png, Exp2Png];
    assert FilesUpTo(3) == [Exp1Png, Exp2Png, Exp3Png, Exp3SurfacePng];
    assert FilesUpTo(4) == [Exp1Png, Exp2Png, Exp3Png, Exp3SurfacePng, Exp4Png];
    assert FilesUpTo(5) == [Exp1Png, Exp2Png, Exp3Png, Exp3SurfacePng, Exp4Png, Exp5Png];
    assert FilesUpTo(6) == [Exp1Png, Exp2Png, Exp3Png, Exp3SurfacePng, Exp4Png, Exp5Png, Exp6Png];
  }

  /** What a run over usable inputs writes: the seven figures, then the report. */
  lemma UsableRunFiles(inputs: Inputs)
    requires AllPass(inputs, |Steps|)
    ensures var saved := SavedUpTo(inputs, |Steps|);
            && Paths(saved) == [Exp1Png, Exp2Png, Exp3Png, Exp3SurfacePng, Exp4Png, Exp5Png, Exp6Png, SummaryTxt]
            && (forall i :: 0 <= i < 7 ==> saved[i].Image?)
            && saved[7] == TextFile(SummaryTxt, ReportSpec(inputs).lines)
  {
    FilesInOrder(inputs, |Steps|);
    AllFiles();
    PlotsSaveFigures(inputs, 6);
    var before := SavedUpTo(inputs, 6);
    assert SavedUpTo(inputs, 7) == before + [TextFile(SummaryTxt, ReportSpec(inputs).lines)];
    assert forall i :: 0 <= i < 7 ==> before[i] in before;
  }

  /** `main` prints its success line exactly when every input is usable; it then has
      written the seven figures and the report, in call order, only figures before the
      report, and the report did not raise. */
  lemma RunSucceeds(inputs: Inputs)
    ensures Run(inputs).abort.None? <==> Usable(inputs)
    ensures Run(inputs).abort.None? ==>
              && Run(inputs).log[|Run(inputs).log| - 1] == AllPlotsSaved(OutputDir)
              && Paths(Run(inputs).saved) == [Exp1Png, Exp2Png, Exp3Png, Exp3SurfacePng, Exp4Png, Exp5Png, Exp6Png, SummaryTxt]
              && (forall i :: 0 <= i < 7 ==> Run(inputs).saved[i].Image?)
              && Run(inputs).saved[7] == TextFile(SummaryTxt, ReportSpec(inputs).lines)
              && ReportSpec(inputs).failure.None?
  {
    PrefixOutcome(inputs, |Steps|);
    AllPassIffUsable(inputs);
    if Usable(inputs) {
      ReportFollowsPlots(inputs);
      UsableRunFiles(inputs);
    }
  }

  /** The first step that raises ends the run: its failure is what `main` reports, and
      the files written are those of the steps before it and whatever it wrote itself. */
  lemma FirstFailureAborts(inputs: Inputs, k: nat)
    requires k < |Steps|
    requires AllPass(inputs, k)
    requires !Passes(inputs, k)
    ensures var r := StepSpec(Steps[k], inputs);
            && Run(inputs).abort == Some(Abort(Steps[k], r.failure.value))
            && Run(inputs).saved == SavedUpTo(inputs, k) + r.saved
  {
    PrefixOutcome(inputs, k);
    AbortIsFinal(inputs, k + 1, |Steps|);
  }

  /** The report step never raises (it runs only after every plot returned), and an
      aborted run has written only figures: no summary file. The failure reported is
      the one the aborting step raised. */
  lemma AbortedBeforeReport(inputs: Inputs, n: nat)
    requires n <= |Steps|
    ensures var p := RunPrefix(inputs, n);
            p.abort.Some? ==>
              && p.abort.value.step != SummaryReport
              && StepSpec(p.abort.value.step, inputs).failure == Some(p.abort.value.failure)
              && forall a :: a in p.saved ==> a.Image?
  {
    AbortRaisedBy(inputs, n);
    AbortedSavesFigures(inputs, n);
  }

  lemma {:induction false} AbortRaisedBy(inputs: Inputs, n: nat)
    requires n <= |Steps|
    ensures var p := RunPrefix(inputs, n);
            p.abort.Some? ==> StepSpec(p.abort.value.step, inputs).failure == Some(p.abort.value.failure)
  {
    if n > 0 {
      AbortRaisedBy(inputs, n - 1);
    }
  }

  lemma {:induction false} AbortedSavesFigures(inputs: Inputs, n: nat)
    requires n <= |Steps|
    ensures var p := RunPrefix(inputs, n);
            p.abort.Some? ==> p.abort.value.step != SummaryReport && forall a :: a in p.saved ==> a.Image?
  {
    if n > 0 {
      AbortedSavesFigures(inputs, n - 1);
      if RunPrefix(inputs, n - 1).abort.None? {
        AbortedAt(inputs, n - 1);
      }
    }
  }

  /** The step that ends a run is a plotting step, and the run has saved only figures. */
  lemma AbortedAt(inputs: Inputs, k: nat)
    requires k < |Steps| && RunPrefix(inputs, k).abort.None?
    ensures var q := RunPrefix(inputs, k + 1);
            q.abort.Some? ==> q.abort.value.step != SummaryReport && forall a :: a in q.saved ==> a.Image?
  {
    if k == 6 {
      ReportReached(inputs);
    } else {
      PlotStepSavesFigures(inputs, k);
      assert Steps[k] != SummaryReport by {
        assert k in {0, 1, 2, 3, 4, 5};
      }
    }
  }

  lemma ReportReached(inputs: Inputs)
    requires RunPrefix(inputs, 6).abort.None?
    ensures Passes(inputs, 6)
  {
    PrefixOutcome(inputs, 6);
    assert Passes(inputs, 0) && Passes(inputs, 1) && Passes(inputs, 2) && Passes(inputs, 3);
    ReportFollowsPlots(inputs);
  }

  lemma PlotStepSavesFigures(inputs: Inputs, k: nat)
    requires k < 6
    requires RunPrefix(inputs, k).abort.None?
    ensures forall a :: a in RunPrefix(inputs, k + 1).saved ==> a.Image?
  {
    PrefixOutcome(inputs, k);
    PlotsSaveFigures(inputs, k);
    StepFiles(inputs, Steps[k]);
  }

  /** Nothing is undone: each step only appends to the console and to the files. */
  lemma {:induction false} NothingUndone(inputs: Inputs, m: nat, n: nat)
    requires m <= n <= |Steps|
    ensures RunPrefix(inputs, m).log <= RunPrefix(inputs, n).log
    ensures RunPrefix(inputs, m).saved <= RunPrefix(inputs, n).saved
  {
    if m < n {
      NothingUndone(inputs, m, n - 1);
      var before := RunPrefix(inputs, n - 1);
      StepExtends(inputs, n);
      PrefixTransitive(RunPrefix(inputs, m).log, before.log, RunPrefix(inputs, n).log);
      PrefixTransitive(RunPrefix(inputs, m).saved, before.saved, RunPrefix(inputs, n).saved);
    }
  }

  lemma StepExtends(inputs: Inputs, n: nat)
    requires 0 < n <= |Steps|
    ensures RunPrefix(inputs, n - 1).log <= RunPrefix(inputs, n).log
    ensures RunPrefix(inputs, n - 1).saved <= RunPrefix(inputs, n).saved
  {
    var before := RunPrefix(inputs, n - 1);
    if before.abort.None? {
      AdvanceExtends(before, Steps[n - 1], StepSpec(Steps[n - 1], inputs));
    }
  }

  lemma AdvanceExtends(p: Progress, s: Step, r: StepResult)
    ensures p.log <= Advance(p, s, r).log && p.saved <= Advance(p, s, r).saved
  {
  }

  lemma PrefixTransitive<X>(a: seq<X>, b: seq<X>, c: seq<X>)
    requires a <= b && b <= c
    ensures a <= c
  {
  }

  /** The results file each plotting step reads. */
  function CsvOf(s: Step): string
    requires s != SummaryReport
  {
    match s
    case Experiment1 => Exp1Csv
    case Experiment2 => Exp2Csv
    case Experiment3 => Exp3Csv
    case Experiment4 => Exp4Csv
    case Experiment5 => Exp5Csv
    case Experiment6 => Exp6Csv
  }

  predicate InputMissing(inputs: Inputs, s: Step)
    requires s != SummaryReport
  {
    match s
    case Experiment1 => inputs.exp1.None?
    case Experiment2 => inputs.exp2.None?
    case Experiment3 => inputs.exp3.None?
    case Experiment4 => inputs.exp4.None?
    case Experiment5 => inputs.exp5.None?
    case Experiment6 => inputs.exp6.None?
  }

  /** A run that stops on a missing file names the results file of the step that
      needed it, that file is indeed absent, and the last two lines ask for the
      benchmarks to be run first. */
  lemma MissingFileReported(inputs: Inputs)
    requires Run(inputs).abort.Some? && Run(inputs).abort.value.failure.FileNotFound?
    ensures var a := Run(inputs).abort.value;
            && a.step != SummaryReport
            && a.failure.path == CsvOf(a.step) && InputMissing(inputs, a.step)
            && Run(inputs).log[|Run(inputs).log| - 2..] == [MissingResultsFile(a.failure.path), RunBenchmarksFirst]
  {
    AbortedBeforeReport(inputs, |Steps|);
    var a := Run(inputs).abort.value;
    var r := StepSpec(a.step, inputs);
    match a.step
    case Experiment3 => Experiment3Outcome(inputs.exp3);
    case _ =>
  }

  /** Without the first results file nothing is drawn or written. */
  lemma MissingFirstResults(inputs: Inputs)
    requires inputs.exp1.None?
    ensures Run(inputs) == Progress([Banner, Plotting(1), MissingResultsFile(Exp1Csv), RunBenchmarksFirst], [],
                                    Some(Abort(Experiment1, FileNotFound(Exp1Csv))))
  {
    AbortIsFinal(inputs, 1, |Steps|);
  }

  /** A plotting step whose results file is absent raises FileNotFound for that file. */
  lemma MissingInputRaises(inputs: Inputs, s: Step)
    requires s != SummaryReport && InputMissing(inputs, s)
    ensures StepSpec(s, inputs).failure == Some(FileNotFound(CsvOf(s)))
  {
    if s == Experiment3 {
      Experiment3Outcome(inputs.exp3);
    }
  }

  /** When every step before k returned and step k's results file is missing, the run
      stops there, the handler names that file, and no report has been written. */
  lemma MissingFileAborts(inputs: Inputs, k: nat)
    requires k < 6 && AllPass(inputs, k) && InputMissing(inputs, Steps[k])
    ensures Run(inputs).abort == Some(Abort(Steps[k], FileNotFound(CsvOf(Steps[k]))))
    ensures Run(inputs).log[|Run(inputs).log| - 2..] == [MissingResultsFile(CsvOf(Steps[k])), RunBenchmarksFirst]
    ensures forall a :: a in Run(inputs).saved ==> a.Image?
  {
    assert Steps[k] != SummaryReport by {
      assert k in {0, 1, 2, 3, 4, 5};
    }
    MissingInputRaises(inputs, Steps[k]);
    FirstFailureAborts(inputs, k);
    AbortedBeforeReport(inputs, |Steps|);
  }

  lemma StrideStepFails(inputs: Inputs)
    requires inputs.exp4.Some? && 1 !in Params(inputs.exp4.value)
    ensures StepSpec(Experiment4, inputs) == StepResult([Plotting(4)], [Image(Exp4Png, [])], Some(IndexOutOfBounds))
  {
    var t := inputs.exp4.value;
    forall i | 0 <= i < |t| ensures t[i].param != 1 {
      assert Params(t)[i] == t[i].param;
    }
  }

  /** Experiment 4 saves its figure before looking up the stride-1 row, so a stride
      table without one stops the run with that figure already the last file written. */
  lemma StrideFigureOutlivesFailure(inputs: Inputs)
    requires Passes(inputs, 0) && Passes(inputs, 1) && Passes(inputs, 2)
    requires inputs.exp4.Some? && 1 !in Params(inputs.exp4.value)
    ensures Run(inputs).abort == Some(Abort(Experiment4, IndexOutOfBounds))
    ensures |Run(inputs).saved| > 0 && Run(inputs).saved[|Run(inputs).saved| - 1] == Image(Exp4Png, [])
    ensures Run(inputs).log[|Run(inputs).log| - 1] == ErrorMessage(IndexOutOfBounds)
  {
    StrideStepFails(inputs);
    assert Steps[3] == Experiment4;
    forall j | 0 <= j < 3 ensures Passes(inputs, j) {
      assert j in {0, 1, 2};
    }
    FirstFailureAborts(inputs, 3);
  }
}
