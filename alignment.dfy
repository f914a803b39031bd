/** Experiment 5's highlight rule: a red dashed line at every misaligned offset. */
module Alignment {

  import opened Tables
  import opened Outputs

  /** `offset % 32 != 0 and offset != 0`. Python's `%` by a positive divisor is never
      negative, like Dafny's, so the test reads the same on negative offsets. */
  predicate Misaligned(offset: int)
  {
    offset % 32 != 0 && offset != 0
  }

  /** The `offset != 0` conjunct is implied by the first one: 0 is a multiple of 32. */
  lemma ZeroTestRedundant(offset: int)
    ensures Misaligned(offset) <==> offset % 32 != 0
  {
  }

  /** The lines the `iterrows` loop draws, in row order. */
  function Highlights(rows: seq<Sample>): seq<Mark>
  {
    if |rows| == 0 then []
    else
      var last := rows[|rows| - 1];
      Highlights(rows[..|rows| - 1]) + (if Misaligned(last.param) then [VerticalLine(last.param)] else [])
  }

  method MisalignedHighlights(rows: seq<Sample>) returns (marks: seq<Mark>)
    ensures marks == Highlights(rows)
    ensures forall m :: m in marks <==> exists i :: 0 <= i < |rows| && Misaligned(rows[i].param) && m == VerticalLine(rows[i].param)
  {
    marks := [];
    var i := 0;
    while i < |rows|
      invariant 0 <= i <= |rows|
      invariant marks == Highlights(rows[..i])
    {
      assert rows[..i + 1][..i] == rows[..i];
      if rows[i].param % 32 != 0 && rows[i].param != 0 {
        marks := marks + [VerticalLine(rows[i].param)];
      }
      i := i + 1;
    }
    assert rows[..|rows|] == rows;
    HighlightsExactly(rows);
  }

  /** A line is drawn exactly at the offsets of misaligned rows. */
  lemma {:induction false} HighlightsExactly(rows: seq<Sample>)
    ensures forall m :: m in Highlights(rows) <==> exists i :: 0 <= i < |rows| && Misaligned(rows[i].param) && m == VerticalLine(rows[i].param)
  {
    if |rows| > 0 {
      var front := rows[..|rows| - 1];
      HighlightsExactly(front);
      forall m | m in Highlights(rows)
        ensures exists i :: 0 <= i < |rows| && Misaligned(rows[i].param) && m == VerticalLine(rows[i].param)
      {
        if m in Highlights(front) {
          var i :| 0 <= i < |front| && Misaligned(front[i].param) && m == VerticalLine(front[i].param);
          assert rows[i] == front[i];
        }
      }
      forall m | exists i :: 0 <= i < |rows| && Misaligned(rows[i].param) && m == VerticalLine(rows[i].param)
        ensures m in Highlights(rows)
      {
        var i :| 0 <= i < |rows| && Misaligned(rows[i].param) && m == VerticalLine(rows[i].param);
        if i < |rows| - 1 {
          assert front[i] == rows[i];
        }
      }
    }
  }

  /** Offset 0 and multiples of 32 are never highlighted, whatever the table holds. */
  lemma AlignedNeverHighlighted(rows: seq<Sample>, offset: int)
    requires offset % 32 == 0
    ensures VerticalLine(offset) !in Highlights(rows)
  {
    HighlightsExactly(rows);
  }

  /** Worked example: offsets 0, 1, 16, 32, 33 highlight 1, 16 and 33. */
  lemma HighlightsExample()
    ensures Highlights([Sample(0, 10.0), Sample(1, 8.0), Sample(16, 8.5), Sample(32, 10.0), Sample(33, 8.0)])
            == [VerticalLine(1), VerticalLine(16), VerticalLine(33)]
  {
    var rows := [Sample(0, 10.0), Sample(1, 8.0), Sample(16, 8.5), Sample(32, 10.0), Sample(33, 8.0)];
    assert rows[..4][..3] == rows[..3];
    assert rows[..3][..2] == rows[..2];
    assert rows[..2][..1] == rows[..1];
    assert rows[..1][..0] == [];
    assert Highlights(rows[..1]) == [];
    assert Highlights(rows[..2]) == [VerticalLine(1)];
    assert Highlights(rows[..3]) == [VerticalLine(1), VerticalLine(16)];
    assert Highlights(rows[..4]) == [VerticalLine(1), VerticalLine(16)];
    assert rows[..5] == rows;
  }
}
