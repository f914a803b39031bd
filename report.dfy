/** `generate_summary_report`: summary_report.txt, written line by line. Each section
    re-reads its results table and computes its metrics before writing anything, so a
    failure leaves the header and the sections already completed in the file. */
module Report {

  import opened Selection
  import opened Tables
  import opened Metrics
  import opened Pivot
  import opened Degradation
  import opened Outputs
  import opened Experiments

  const SummaryTxt: string := "plots/summary_report.txt"

  const Header: seq<ReportLine> := [DoubleRule, ReportTitle, DoubleRule, Blank]

  /** The KEY FINDINGS block; its five findings are fixed prose, not data. */
  const Footer: seq<ReportLine> :=
    [DoubleRule, KeyFindingsTitle, DoubleRule, Finding(1), Finding(2), Finding(3), Finding(4), Finding(5)]

  /** The lines of one experiment's section: its title first, and no other title and
      no KEY FINDINGS line after it. */
  predicate SectionShaped(lines: seq<ReportLine>, n: nat)
  {
    && |lines| > 0
    && lines[0] == SectionTitle(n)
    && forall i :: 1 <= i < |lines| ==> !lines[i].SectionTitle? && !lines[i].KeyFindingsTitle?
  }

  /** Sections 1 and 2: optimum by `idxmax`, its bandwidth, and the column range. */
  function SweepSection(n: nat, csv: string, input: Option<seq<Sample>>): (r: Result<seq<ReportLine>>)
    requires n == 1 || n == 2
    ensures r.Ok? <==> input.Some? && |input.value| > 0
    ensures input.None? ==> r == Err(FileNotFound(csv))
    ensures r.Ok? ==> SectionShaped(r.value, n) && |r.value| == 6
    ensures r.Ok? ==>
              var t := input.value;
              var k := IdxMax(Bandwidths(t));
              && r.value[2] == (if n == 1 then OptimalThreadsLine(t[k].param) else OptimalBlocksLine(t[k].param))
              && r.value[3] == BandwidthLine(t[k].bandwidthGbps)
              && r.value[4] == RangeLine(MinOf(Bandwidths(t)), MaxOf(Bandwidths(t)))
    ensures r.Ok? ==> r.value[3].BandwidthLine? && r.value[4].RangeLine?
                      && r.value[4].high == r.value[3].gbps
                      && forall i :: 0 <= i < |input.value| ==>
                           r.value[4].low <= input.value[i].bandwidthGbps <= r.value[4].high
  {
    match input
    case None => Err(FileNotFound(csv))
    case Some(t) =>
      match Optimum(t)
      case Err(f) => Err(f)
      case Ok(best) =>
        SweepLinesBracket(t);
        var range := Range(Bandwidths(t));
        Ok(SweepLines(n, best, range.0, range.1))
  }

  /** The six lines of section 1 or 2 for a given optimum and range. */
  function SweepLines(n: nat, best: Sample, lo: real, hi: real): (r: seq<ReportLine>)
    requires n == 1 || n == 2
    ensures SectionShaped(r, n) && |r| == 6
    ensures r[2] == (if n == 1 then OptimalThreadsLine(best.param) else OptimalBlocksLine(best.param))
    ensures r[3] == BandwidthLine(best.bandwidthGbps) && r[4] == RangeLine(lo, hi)
  {
    var optimal := if n == 1 then OptimalThreadsLine(best.param) else OptimalBlocksLine(best.param);
    [SectionTitle(n), SingleRule, optimal, BandwidthLine(best.bandwidthGbps), RangeLine(lo, hi), Blank]
  }

  /** The optimum the section prints is the argmax row, and the range brackets every sample. */
  lemma SweepLinesBracket(t: seq<Sample>)
    requires |t| > 0
    ensures Optimum(t) == Ok(t[IdxMax(Bandwidths(t))])
    ensures Range(Bandwidths(t)) == (MinOf(Bandwidths(t)), MaxOf(Bandwidths(t)))
    ensures t[IdxMax(Bandwidths(t))].bandwidthGbps == MaxOf(Bandwidths(t))
    ensures forall i :: 0 <= i < |t| ==> MinOf(Bandwidths(t)) <= t[i].bandwidthGbps <= MaxOf(Bandwidths(t))
  {
    var col := Bandwidths(t);
    assert forall i :: 0 <= i < |t| ==> col[i] == t[i].bandwidthGbps;
  }

  /** Section 3: the first row holding the maximum, found without the pivot. */
  function GridSection(input: Option<seq<GridRow>>): (r: Result<seq<ReportLine>>)
    ensures r.Ok? <==> input.Some? && |input.value| > 0
    ensures input.None? ==> r == Err(FileNotFound(Exp3Csv))
    ensures r.Ok? ==> SectionShaped(r.value, 3) && |r.value| == 5
    ensures r.Ok? ==>
              var rows := input.value;
              var o := OptimalRow(rows).value;
              && r.value[2] == OptimalGridLine(rows[o].threadsPerBlock, rows[o].blocksPerGrid)
              && r.value[3] == BandwidthLine(MaxOf(GridBandwidths(rows)))
              && rows[o].bandwidthGbps == MaxOf(GridBandwidths(rows))
    ensures r.Ok? ==> forall i :: 0 <= i < |input.value| ==> input.value[i].bandwidthGbps <= r.value[3].gbps
  {
    match input
    case None => Err(FileNotFound(Exp3Csv))
    case Some(rows) =>
      match OptimalRow(rows)
      case Err(f) => Err(f)
      case Ok(o) =>
        Ok([SectionTitle(3), SingleRule, OptimalGridLine(rows[o].threadsPerBlock, rows[o].blocksPerGrid),
            BandwidthLine(MaxOf(GridBandwidths(rows))), Blank])
  }

  function StrideReportLines(entries: seq<DegradationEntry>): (lines: seq<ReportLine>)
    ensures |lines| == |entries|
    ensures forall i :: 0 <= i < |lines| ==>
              lines[i] == StrideLine(entries[i].stride, entries[i].bandwidthGbps, entries[i].pct)
  {
    seq(|entries|, i requires 0 <= i < |entries| => StrideLine(entries[i].stride, entries[i].bandwidthGbps, entries[i].pct))
  }

  /** Section 4: the coalesced baseline, then one line per strided row. */
  function StrideSection(input: Option<seq<Sample>>): (r: Result<seq<ReportLine>>)
    ensures r.Ok? <==> input.Some? && 1 in Params(input.value)
    ensures input.None? ==> r == Err(FileNotFound(Exp4Csv))
    ensures r.Ok? ==> SectionShaped(r.value, 4)
    ensures r.Ok? ==>
              var t := input.value;
              var b0 := Baseline(t, 1).value;
              && |r.value| >= 4
              && r.value[2] == CoalescedLine(b0)
              && r.value[3..|r.value| - 1] == StrideReportLines(Series(t, b0))
              && r.value[|r.value| - 1] == Blank
  {
    match input
    case None => Err(FileNotFound(Exp4Csv))
    case Some(t) =>
      match Baseline(t, 1)
      case Err(f) => Err(f)
      case Ok(b0) =>
        var strides := StrideReportLines(Series(t, b0));
        var lines := [SectionTitle(4), SingleRule, CoalescedLine(b0)] + strides + [Blank];
        assert forall i :: 3 <= i < 3 + |strides| ==> lines[i] == strides[i - 3];
        Ok(lines)
  }

  /** Section k + 1 of the report. */
  function Section(inputs: Inputs, k: nat): (r: Result<seq<ReportLine>>)
    requires k < 4
    ensures r.Ok? ==> SectionShaped(r.value, k + 1)
  {
    match k
    case 0 => SweepSection(1, Exp1Csv, inputs.exp1)
    case 1 => SweepSection(2, Exp2Csv, inputs.exp2)
    case 2 => GridSection(inputs.exp3)
    case 3 => StrideSection(inputs.exp4)
  }

  /** What the file holds and what was raised, if anything. */
  datatype Written = Written(lines: seq<ReportLine>, failure: Option<Failure>)

  /** The header, then each section in order until the first one that raises; the
      KEY FINDINGS block only when all four complete. */
  function ReportSpec(inputs: Inputs): Written
  {
    match SweepSection(1, Exp1Csv, inputs.exp1)
    case Err(f) => Written(Header, Some(f))
    case Ok(s1) =>
      match SweepSection(2, Exp2Csv, inputs.exp2)
      case Err(f) => Written(Header + s1, Some(f))
      case Ok(s2) =>
        match GridSection(inputs.exp3)
        case Err(f) => Written(Header + s1 + s2, Some(f))
        case Ok(s3) =>
          match StrideSection(inputs.exp4)
          case Err(f) => Written(Header + s1 + s2 + s3, Some(f))
          case Ok(s4) => Written(Header + s1 + s2 + s3 + s4 + Footer, None)
  }

  method GenerateSummaryReport(inputs: Inputs) returns (lines: seq<ReportLine>, failure: Option<Failure>)
    ensures Written(lines, failure) == ReportSpec(inputs)
  {
    lines := Header;
    var s1 := SweepSection(1, Exp1Csv, inputs.exp1);
    if s1.Err? {
      return lines, Some(s1.failure);
    }
    lines := lines + s1.value;
    var s2 := SweepSection(2, Exp2Csv, inputs.exp2);
    if s2.Err? {
      return lines, Some(s2.failure);
    }
    lines := lines + s2.value;
    var s3 := GridSection(inputs.exp3);
    if s3.Err? {
      return lines, Some(s3.failure);
    }
    lines := lines + s3.value;
    if inputs.exp4.None? {
      return lines, Some(FileNotFound(Exp4Csv));
    }
    var t4 := inputs.exp4.value;
    var b0 := Baseline(t4, 1);
    if b0.Err? {
      return lines, Some(b0.failure);
    }
    var entries := DegradationSeries(t4, b0.value);
    lines := lines + ([SectionTitle(4), SingleRule, CoalescedLine(b0.value)] + StrideReportLines(entries) + [Blank]);
    lines := lines + Footer;
    failure := None;
  }

  /** The experiment numbers of the section titles, in file order. */
  function SectionTitles(lines: seq<ReportLine>): seq<nat>
  {
    if |lines| == 0 then [] else TitleOf(lines[0]) + SectionTitles(lines[1..])
  }

  function TitleOf(line: ReportLine): seq<nat>
  {
    if line.SectionTitle? then [line.experiment] else []
  }

  lemma {:induction false} SectionTitlesConcat(a: seq<ReportLine>, b: seq<ReportLine>)
    ensures SectionTitles(a + b) == SectionTitles(a) + SectionTitles(b)
  {
    if |a| == 0 {
      assert a + b == b;
    } else {
      SectionTitlesConcat(a[1..], b);
      calc {
        SectionTitles(a + b);
        TitleOf((a + b)[0]) + SectionTitles((a + b)[1..]);
        { assert (a + b)[0] == a[0]; assert (a + b)[1..] == a[1..] + b; }
        TitleOf(a[0]) + SectionTitles(a[1..] + b);
        TitleOf(a[0]) + (SectionTitles(a[1..]) + SectionTitles(b));
      }
    }
  }

  lemma {:induction false} NoTitles(lines: seq<ReportLine>)
    requires forall i :: 0 <= i < |lines| ==> !lines[i].SectionTitle?
    ensures SectionTitles(lines) == []
  {
    if |lines| > 0 {
      NoTitles(lines[1..]);
    }
  }

  /** A section names exactly its own experiment. */
  lemma ShapedTitles(lines: seq<ReportLine>, n: nat)
    requires SectionShaped(lines, n)
    ensures SectionTitles(lines) == [n]
  {
    NoTitles(lines[1..]);
    assert lines == [lines[0]] + lines[1..];
    SectionTitlesConcat([lines[0]], lines[1..]);
  }

  lemma ShapedNoFindings(lines: seq<ReportLine>, n: nat)
    requires SectionShaped(lines, n)
    ensures KeyFindingsTitle !in lines
  {
    forall i | 0 <= i < |lines| ensures lines[i] != KeyFindingsTitle {
    }
  }

  /** Neither the header nor the KEY FINDINGS block names an experiment. */
  lemma FixedLinesUntitled()
    ensures SectionTitles(Header) == [] && SectionTitles(Footer) == []
  {
    NoTitles(Header);
    NoTitles(Footer);
  }

  /** Number of leading sections that complete. */
  function Completed(inputs: Inputs): (n: nat)
    ensures n <= 4
    ensures forall k :: 0 <= k < n ==> Section(inputs, k).Ok?
    ensures n < 4 ==> Section(inputs, n).Err?
  {
    CompletedFrom(inputs, 0)
  }

  function CompletedFrom(inputs: Inputs, from: nat): (n: nat)
    requires from <= 4
    ensures from <= n <= 4
    ensures forall k :: from <= k < n ==> Section(inputs, k).Ok?
    ensures n < 4 ==> Section(inputs, n).Err?
    decreases 4 - from
  {
    if from == 4 || Section(inputs, from).Err? then from else CompletedFrom(inputs, from + 1)
  }

  /** The header followed by the first k sections. */
  function PrefixLines(inputs: Inputs, k: nat): seq<ReportLine>
    requires k <= Completed(inputs)
  {
    if k == 0 then Header else PrefixLines(inputs, k - 1) + Section(inputs, k - 1).value
  }

  /** The file holds the header and the completed sections, and the KEY FINDINGS
      block exactly when all four completed. */
  lemma ReportIsPrefix(inputs: Inputs)
    ensures var w := ReportSpec(inputs);
            && (w.failure.None? <==> Completed(inputs) == 4)
            && w.lines == PrefixLines(inputs, Completed(inputs)) + (if Completed(inputs) == 4 then Footer else [])
  {
    var n := Completed(inputs);
    assert PrefixLines(inputs, 0) == Header;
    if n >= 1 { assert PrefixLines(inputs, 1) == Header + Section(inputs, 0).value; }
    if n >= 2 { assert PrefixLines(inputs, 2) == PrefixLines(inputs, 1) + Section(inputs, 1).value; }
    if n >= 3 { assert PrefixLines(inputs, 3) == PrefixLines(inputs, 2) + Section(inputs, 2).value; }
    if n >= 4 { assert PrefixLines(inputs, 4) == PrefixLines(inputs, 3) + Section(inputs, 3).value; }
    assert PrefixLines(inputs, n) + [] == PrefixLines(inputs, n);
  }

  /** 1, 2, ..., k */
  function Ascending(k: nat): seq<nat>
  {
    if k == 0 then [] else Ascending(k - 1) + [k]
  }

  lemma {:induction false} PrefixTitles(inputs: Inputs, k: nat)
    requires k <= Completed(inputs)
    ensures SectionTitles(PrefixLines(inputs, k)) == Ascending(k)
  {
    if k == 0 {
      FixedLinesUntitled();
    } else {
      PrefixTitles(inputs, k - 1);
      var lines := Section(inputs, k - 1).value;
      ShapedTitles(lines, k);
      SectionTitlesConcat(PrefixLines(inputs, k - 1), lines);
    }
  }

  /** The report names experiments 1, 2, 3, 4 in that order, up to the first section
      that raises, and never experiments 5 or 6; it fails exactly when a section
      cannot complete. */
  lemma ReportSectionOrder(inputs: Inputs)
    ensures var w := ReportSpec(inputs);
            var done := Completed(inputs);
            && SectionTitles(w.lines) == Ascending(done)
            && (w.failure.None? <==> done == 4)
  {
    var n := Completed(inputs);
    var prefix := PrefixLines(inputs, n);
    ReportIsPrefix(inputs);
    PrefixTitles(inputs, n);
    if n == 4 {
      SectionTitlesConcat(prefix, Footer);
      FixedLinesUntitled();
      assert SectionTitles(prefix + Footer) == Ascending(n) + [];
    } else {
      assert prefix + [] == prefix;
    }
  }

  lemma {:induction false} PrefixHasNoFindings(inputs: Inputs, k: nat)
    requires k <= Completed(inputs)
    ensures KeyFindingsTitle !in PrefixLines(inputs, k)
  {
    if k > 0 {
      PrefixHasNoFindings(inputs, k - 1);
      ShapedNoFindings(Section(inputs, k - 1).value, k);
    }
  }

  /** The KEY FINDINGS block closes the report on success and is absent after a failure. */
  lemma ReportFooter(inputs: Inputs)
    ensures var w := ReportSpec(inputs);
            && (w.failure.None? ==> w.lines[|w.lines| - |Footer|..] == Footer)
            && (w.failure.Some? ==> KeyFindingsTitle !in w.lines)
  {
    ReportIsPrefix(inputs);
    PrefixHasNoFindings(inputs, Completed(inputs));
  }
}
