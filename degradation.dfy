/** Experiment 4's analysis: the coalesced (stride 1) baseline and the percentage
    bandwidth loss of every strided row relative to it. The same baseline rule,
    with offset 0, gives experiment 5's aligned bandwidth. */
module Degradation {

  import opened Selection
  import opened Tables

  /** A percentage as float64 arithmetic yields it: a finite value, or inf/nan when
      the baseline bandwidth is zero (numpy divides by zero without raising). */
  datatype Pct = Finite(value: real) | NonFinite

  /** `(1 - bw / b0) * 100`. Finite exactly when the baseline is non-zero, and then
      the bandwidth can be recovered from the percentage. */
  function DegradationPct(bw: real, b0: real): (d: Pct)
    ensures d.Finite? <==> b0 != 0.0
    ensures d.Finite? ==> bw == b0 * (1.0 - d.value / 100.0)
  {
    if b0 == 0.0 then NonFinite else Finite((1.0 - bw / b0) * 100.0)
  }

  /** `df[df[col] == identity]['bandwidth_gbps'].values[0]`: the bandwidth of the first
      row whose parameter is `identity`; IndexError when there is none, never a default. */
  function Baseline(rows: seq<Sample>, identity: int): (r: Result<real>)
    ensures r.Ok? <==> exists i :: 0 <= i < |rows| && rows[i].param == identity
    ensures r.Err? ==> r.failure == IndexOutOfBounds
    ensures r.Ok? ==> exists k :: 0 <= k < |rows| && rows[k].param == identity
                                && r.value == rows[k].bandwidthGbps
                                && forall i :: 0 <= i < k ==> rows[i].param != identity
  {
    match FirstIndexOf(Params(rows), identity)
    case None => Err(IndexOutOfBounds)
    case Some(k) => Ok(rows[k].bandwidthGbps)
  }

  /** One "Stride s: bw GB/s (d% degradation)" line, as values. */
  datatype DegradationEntry = DegradationEntry(stride: int, bandwidthGbps: real, pct: Pct)

  function EntryFor(row: Sample, b0: real): DegradationEntry
  {
    DegradationEntry(row.param, row.bandwidthGbps, DegradationPct(row.bandwidthGbps, b0))
  }

  /** The entries the `iterrows` loop emits: one per row with stride > 1, in row order. */
  function Series(rows: seq<Sample>, b0: real): seq<DegradationEntry>
  {
    if |rows| == 0 then []
    else
      var last := rows[|rows| - 1];
      Series(rows[..|rows| - 1], b0) + (if last.param > 1 then [EntryFor(last, b0)] else [])
  }

  /** The loop over the stride table, shared by the console output of the plot step
      and the written report. */
  method DegradationSeries(rows: seq<Sample>, b0: real) returns (entries: seq<DegradationEntry>)
    ensures entries == Series(rows, b0)
    ensures forall e :: e in entries <==> exists i :: 0 <= i < |rows| && rows[i].param > 1 && e == EntryFor(rows[i], b0)
  {
    entries := [];
    var i := 0;
    while i < |rows|
      invariant 0 <= i <= |rows|
      invariant entries == Series(rows[..i], b0)
    {
      assert rows[..i + 1][..i] == rows[..i];
      if rows[i].param > 1 {
        entries := entries + [EntryFor(rows[i], b0)];
      }
      i := i + 1;
    }
    assert rows[..|rows|] == rows;
    SeriesMembers(rows, b0);
  }

  /** An entry is in the series exactly when some row with stride > 1 produced it. */
  lemma {:induction false} SeriesMembers(rows: seq<Sample>, b0: real)
    ensures forall e :: e in Series(rows, b0) <==> exists i :: 0 <= i < |rows| && rows[i].param > 1 && e == EntryFor(rows[i], b0)
  {
    if |rows| > 0 {
      var front := rows[..|rows| - 1];
      SeriesMembers(front, b0);
      forall e | e in Series(rows, b0)
        ensures exists i :: 0 <= i < |rows| && rows[i].param > 1 && e == EntryFor(rows[i], b0)
      {
        if e in Series(front, b0) {
          var i :| 0 <= i < |front| && front[i].param > 1 && e == EntryFor(front[i], b0);
          assert rows[i] == front[i];
        }
      }
      forall e | exists i :: 0 <= i < |rows| && rows[i].param > 1 && e == EntryFor(rows[i], b0)
        ensures e in Series(rows, b0)
      {
        var i :| 0 <= i < |rows| && rows[i].param > 1 && e == EntryFor(rows[i], b0);
        if i < |rows| - 1 {
          assert front[i] == rows[i];
        }
      }
    }
  }

  /** Entries follow input row order: the series of a concatenation is the
      concatenation of the series. */
  lemma {:induction false} SeriesConcat(a: seq<Sample>, b: seq<Sample>, b0: real)
    ensures Series(a + b, b0) == Series(a, b0) + Series(b, b0)
  {
    if |b| == 0 {
      assert a + b == a;
    } else {
      var front := b[..|b| - 1];
      SeriesConcat(a, front, b0);
      assert (a + b)[..|a + b| - 1] == a + front;
    }
  }

  /** The baseline row itself and every row with stride <= 1 produce no entry. */
  lemma SeriesSkipsBaseline(rows: seq<Sample>, b0: real)
    ensures forall e :: e in Series(rows, b0) ==> e.stride > 1
  {
    SeriesMembers(rows, b0);
  }

  /** For a bandwidth between 0 and a positive baseline, the degradation is a
      percentage between 0 and 100. */
  lemma DegradationBounds(bw: real, b0: real)
    requires 0.0 < b0 && 0.0 <= bw <= b0
    ensures DegradationPct(bw, b0).Finite?
    ensures 0.0 <= DegradationPct(bw, b0).value <= 100.0
  {
    var q := bw / b0;
    assert 0.0 <= q <= 1.0 by {
      assert q * b0 == bw;
    }
  }

  /** Lower bandwidth means higher degradation against the same positive baseline. */
  lemma DegradationAntitone(bw1: real, bw2: real, b0: real)
    requires 0.0 < b0 && bw1 <= bw2
    ensures DegradationPct(bw2, b0).value <= DegradationPct(bw1, b0).value
  {
    assert bw1 / b0 <= bw2 / b0 by {
      assert (bw2 / b0 - bw1 / b0) * b0 == bw2 - bw1;
    }
  }

  /** Worked examples: baseline 100 against 60 is 40% lost; stride rows
      (1, 100), (2, 80), (4, 50) give 20% at stride 2 and 50% at stride 4. */
  lemma DegradationExamples()
    ensures DegradationPct(60.0, 100.0) == Finite(40.0)
    ensures var rows := [Sample(1, 100.0), Sample(2, 80.0), Sample(4, 50.0)];
            Baseline(rows, 1) == Ok(100.0)
            && Series(rows, 100.0) == [DegradationEntry(2, 80.0, Finite(20.0)), DegradationEntry(4, 50.0, Finite(50.0))]
  {
    var rows := [Sample(1, 100.0), Sample(2, 80.0), Sample(4, 50.0)];
    assert rows[..1] == [Sample(1, 100.0)];
    assert rows[..2] == [Sample(1, 100.0), Sample(2, 80.0)];
    assert rows[..2][..1] == rows[..1];
    assert [Sample(1, 100.0)][..0] == [];
    assert Series(rows[..1], 100.0) == [];
    assert Series(rows[..2], 100.0) == [DegradationEntry(2, 80.0, Finite(20.0))];
  }
}
