/** Experiment 3's analysis: `df.pivot(index='threads_per_block',
    columns='blocks_per_grid', values='bandwidth_gbps')`, the cell labels of the
    heatmap, and the location of the optimal cell that the heatmap outlines. */
module Pivot {

  import opened Selection
  import opened Tables
  import opened Metrics
  import opened Outputs

  predicate StrictlyIncreasing(s: seq<int>)
  {
    forall i, j :: 0 <= i < j < |s| ==> s[i] < s[j]
  }

  function InsertSorted(s: seq<int>, x: int): (r: seq<int>)
    requires StrictlyIncreasing(s)
    ensures StrictlyIncreasing(r)
    ensures forall y :: y in r <==> y in s || y == x
  {
    if |s| == 0 then [x]
    else if x < s[0] then [x] + s
    else if x == s[0] then s
    else
      var tail := InsertSorted(s[1..], x);
      assert forall y :: y in tail ==> s[0] < y;
      var r := [s[0]] + tail;
      assert StrictlyIncreasing(r) by {
        forall i, j | 0 <= i < j < |r|
          ensures r[i] < r[j]
        {
          assert r[j] == tail[j - 1] && r[j] in tail;
          if i > 0 {
            assert r[i] == tail[i - 1];
          }
        }
      }
      r
  }

  /** The pivot's axis labels: the distinct values of a key column, ascending. */
  function SortedDistinct(xs: seq<int>): (r: seq<int>)
    ensures StrictlyIncreasing(r)
    ensures forall y :: y in r <==> y in xs
  {
    if |xs| == 0 then []
    else
      var r := SortedDistinct(xs[..|xs| - 1]);
      assert forall y :: y in xs <==> y in xs[..|xs| - 1] || y == xs[|xs| - 1];
      InsertSorted(r, xs[|xs| - 1])
  }

  /** Two ascending, duplicate-free sequences with the same members are equal, so
      SortedDistinct is the one sorted distinct-key axis of a column. */
  lemma {:induction false} SortedDistinctUnique(a: seq<int>, b: seq<int>)
    requires StrictlyIncreasing(a) && StrictlyIncreasing(b)
    requires forall y :: y in a <==> y in b
    ensures a == b
  {
    HeadIsMember(a);
    HeadIsMember(b);
    if |a| > 0 {
      assert a[0] == b[0] by {
        assert a[0] in b && b[0] in a;
      }
      forall y
        ensures y in a[1..] <==> y in b[1..]
      {
        assert y in a[1..] <==> y in a && y != a[0];
        assert y in b[1..] <==> y in b && y != b[0];
      }
      SortedDistinctUnique(a[1..], b[1..]);
      assert a == [a[0]] + a[1..];
      assert b == [b[0]] + b[1..];
    }
  }

  lemma HeadIsMember(s: seq<int>)
    ensures |s| > 0 ==> s[0] in s
  {
  }

  /** A pivoted table: row labels, column labels and the grid of cells; None stands
      for the NaN pandas puts in a cell whose key pair no row has. */
  datatype PivotTable = PivotTable(index: seq<int>, columns: seq<int>, values: seq<seq<Option<real>>>)

  /** |index| rows of |columns| cells each. */
  predicate Shaped(p: PivotTable)
  {
    |p.values| == |p.index| && forall i :: 0 <= i < |p.values| ==> |p.values[i]| == |p.columns|
  }

  /** No two rows share a (threads_per_block, blocks_per_grid) pair. */
  predicate UniquePairs(rows: seq<GridRow>)
  {
    forall i, j :: 0 <= i < j < |rows| ==> Pairs(rows)[i] != Pairs(rows)[j]
  }

  /** Every combination of a threads value and a blocks value occurs in some row. */
  predicate CompleteGrid(rows: seq<GridRow>)
  {
    forall t, b :: t in Threads(rows) && b in Blocks(rows) ==> (t, b) in Pairs(rows)
  }

  /** The value pandas places at key pair (t, b). */
  function Cell(rows: seq<GridRow>, t: int, b: int): Option<real>
  {
    match FirstIndexOf(Pairs(rows), (t, b))
    case None => None
    case Some(k) => Some(rows[k].bandwidthGbps)
  }

  /** `DataFrame.pivot`: ValueError on a duplicated key pair, otherwise the grid over
      the sorted distinct keys of both columns. */
  function PivotOf(rows: seq<GridRow>): (r: Result<PivotTable>)
    ensures r.Err? <==> !UniquePairs(rows)
    ensures r.Err? ==> r.failure == DuplicatePivotEntries
    ensures r.Ok? ==> Shaped(r.value)
    ensures r.Ok? ==> StrictlyIncreasing(r.value.index) && forall t :: t in r.value.index <==> t in Threads(rows)
    ensures r.Ok? ==> StrictlyIncreasing(r.value.columns) && forall b :: b in r.value.columns <==> b in Blocks(rows)
  {
    if !UniquePairs(rows) then Err(DuplicatePivotEntries)
    else
      var index := SortedDistinct(Threads(rows));
      var columns := SortedDistinct(Blocks(rows));
      Ok(PivotTable(index, columns,
        seq(|index|, i requires 0 <= i < |index| =>
          seq(|columns|, j requires 0 <= j < |columns| => Cell(rows, index[i], columns[j])))))
  }

  /** Cell (i, j) of the pivot holds the bandwidth of the row keyed
      (index[i], columns[j]), and is NaN exactly when no row has that key pair. */
  lemma PivotCellMeaning(rows: seq<GridRow>, i: nat, j: nat)
    requires UniquePairs(rows)
    requires i < |PivotOf(rows).value.index| && j < |PivotOf(rows).value.columns|
    ensures var p := PivotOf(rows).value;
            && (p.values[i][j].None? <==> (p.index[i], p.columns[j]) !in Pairs(rows))
            && forall k :: 0 <= k < |rows| && Pairs(rows)[k] == (p.index[i], p.columns[j]) ==>
                 p.values[i][j] == Some(rows[k].bandwidthGbps)
  {
    var p := PivotOf(rows).value;
    forall k | 0 <= k < |rows| && Pairs(rows)[k] == (p.index[i], p.columns[j])
      ensures p.values[i][j] == Some(rows[k].bandwidthGbps)
    {
      FirstMatchIsOnlyMatch(rows, k);
    }
  }

  /** With unique key pairs, the first row with a row's key pair is that row. */
  lemma FirstMatchIsOnlyMatch(rows: seq<GridRow>, k: nat)
    requires UniquePairs(rows) && k < |rows|
    ensures FirstIndexOf(Pairs(rows), Pairs(rows)[k]) == Some(k)
  {
    assert Pairs(rows)[k] in Pairs(rows);
  }

  /** On a complete grid no cell is NaN: all |index| x |columns| cells hold a value. */
  lemma CompleteGridHasNoGaps(rows: seq<GridRow>)
    requires UniquePairs(rows) && CompleteGrid(rows)
    ensures var p := PivotOf(rows).value;
            forall i, j :: 0 <= i < |p.index| && 0 <= j < |p.columns| ==> p.values[i][j].Some?
  {
    var p := PivotOf(rows).value;
    forall i, j | 0 <= i < |p.index| && 0 <= j < |p.columns|
      ensures p.values[i][j].Some?
    {
      assert p.index[i] in Threads(rows);
      assert p.columns[j] in Blocks(rows);
      PivotCellMeaning(rows, i, j);
    }
  }

  /** `df[df['bandwidth_gbps'] == df['bandwidth_gbps'].max()].iloc[0]`: the first row
      holding the column maximum. On an empty table the max is NaN, the selection is
      empty and `iloc[0]` raises IndexError. */
  function OptimalRow(rows: seq<GridRow>): (r: Result<nat>)
    ensures r.Ok? <==> |rows| > 0
    ensures r.Err? ==> r.failure == IndexOutOfBounds
    ensures r.Ok? ==> r.value < |rows|
    ensures r.Ok? ==> forall i :: 0 <= i < |rows| ==> rows[i].bandwidthGbps <= rows[r.value].bandwidthGbps
    ensures r.Ok? ==> forall i :: 0 <= i < r.value ==> rows[i].bandwidthGbps < rows[r.value].bandwidthGbps
  {
    if |rows| == 0 then Err(IndexOutOfBounds)
    else
      var col := GridBandwidths(rows);
      FirstMaxIsIdxMax(col);
      match FirstIndexOf(col, MaxOf(col))
      case None => Err(IndexOutOfBounds)
      case Some(o) => Ok(o)
  }

  /** The outlined cell: `list(index).index(threads)` and `list(columns).index(blocks)`,
      each raising ValueError when the value is not a label. */
  function OptimalCell(p: PivotTable, threads: int, blocks: int): (r: Result<(nat, nat)>)
    ensures r.Ok? <==> threads in p.index && blocks in p.columns
    ensures r.Err? ==> r.failure == NotInList
    ensures r.Ok? ==> r.value.0 < |p.index| && p.index[r.value.0] == threads
    ensures r.Ok? ==> r.value.1 < |p.columns| && p.columns[r.value.1] == blocks
  {
    match (FirstIndexOf(p.index, threads), FirstIndexOf(p.columns, blocks))
    case (Some(ti), Some(bj)) => Ok((ti, bj))
    case _ => Err(NotInList)
  }

  /** The outlined heatmap cell lies inside the grid and holds the global maximum
      bandwidth, whenever the pivot succeeded on a non-empty table. */
  lemma {:induction false} OutlinedCellHoldsMax(rows: seq<GridRow>)
    requires UniquePairs(rows) && |rows| > 0
    ensures var p := PivotOf(rows).value;
            var o := OptimalRow(rows).value;
            var c := OptimalCell(p, rows[o].threadsPerBlock, rows[o].blocksPerGrid);
            && c.Ok?
            && c.value.0 < |p.values| && c.value.1 < |p.values[c.value.0]|
            && p.values[c.value.0][c.value.1] == Some(MaxOf(GridBandwidths(rows)))
  {
    var p := PivotOf(rows).value;
    var o := OptimalRow(rows).value;
    assert rows[o].threadsPerBlock == Threads(rows)[o];
    assert rows[o].blocksPerGrid == Blocks(rows)[o];
    var c := OptimalCell(p, rows[o].threadsPerBlock, rows[o].blocksPerGrid);
    assert c.Ok?;
    PivotCellMeaning(rows, c.value.0, c.value.1);
    var col := GridBandwidths(rows);
    assert MaxOf(col) == rows[o].bandwidthGbps by {
      assert MaxOf(col) in col;
    }
  }

  /** The labels of row i of the heatmap, left to right. */
  function RowLabels(p: PivotTable, i: nat): (r: seq<Mark>)
    requires Shaped(p) && i < |p.index|
    ensures |r| == |p.columns|
  {
    seq(|p.columns|, j requires 0 <= j < |p.columns| => CellText(i, j, p.values[i][j]))
  }

  /** The labels of the first n rows, in the order the nested loop draws them. */
  function LabelsUpTo(p: PivotTable, n: nat): seq<Mark>
    requires Shaped(p) && n <= |p.index|
  {
    if n == 0 then [] else LabelsUpTo(p, n - 1) + RowLabels(p, n - 1)
  }

  /** The first n rows carry n * |columns| labels. */
  lemma {:induction false} LabelsLength(p: PivotTable, n: nat)
    requires Shaped(p) && n <= |p.index|
    ensures |LabelsUpTo(p, n)| == n * |p.columns|
  {
    if n > 0 {
      LabelsLength(p, n - 1);
      assert (n - 1) * |p.columns| + |p.columns| == n * |p.columns|;
    }
  }

  /** The label of cell (i, j) sits at position i * |columns| + j, so every cell is
      labelled once, with its own value. */
  lemma {:induction false} LabelAt(p: PivotTable, n: nat, i: nat, j: nat)
    requires Shaped(p) && i < n <= |p.index| && j < |p.columns|
    ensures i * |p.columns| + j < |LabelsUpTo(p, n)|
    ensures LabelsUpTo(p, n)[i * |p.columns| + j] == CellText(i, j, p.values[i][j])
  {
    LabelsLength(p, n - 1);
    LabelsLength(p, n);
    if i < n - 1 {
      LabelAt(p, n - 1, i, j);
    } else {
      assert i * |p.columns| == (n - 1) * |p.columns|;
    }
  }

  /** Label i * C + j of `labels` exists and annotates cell (i, j). */
  predicate CellsLabelled(p: PivotTable, labels: seq<Mark>)
    requires Shaped(p)
  {
    forall i, j :: 0 <= i < |p.index| && 0 <= j < |p.columns| ==> CellLabelled(p, labels, i, j)
  }

  predicate CellLabelled(p: PivotTable, labels: seq<Mark>, i: nat, j: nat)
    requires Shaped(p) && i < |p.index| && j < |p.columns|
  {
    i * |p.columns| + j < |labels| && labels[i * |p.columns| + j] == CellText(i, j, p.values[i][j])
  }

  /** The whole grid's labels: R * C of them, cell (i, j) at position i * C + j. */
  lemma LabelsLayout(p: PivotTable)
    requires Shaped(p)
    ensures |LabelsUpTo(p, |p.index|)| == |p.index| * |p.columns|
    ensures CellsLabelled(p, LabelsUpTo(p, |p.index|))
  {
    LabelsLength(p, |p.index|);
    CellLabels(p);
  }

  lemma CellLabels(p: PivotTable)
    requires Shaped(p)
    ensures CellsLabelled(p, LabelsUpTo(p, |p.index|))
  {
    var labels := LabelsUpTo(p, |p.index|);
    forall i, j | 0 <= i < |p.index| && 0 <= j < |p.columns|
      ensures CellLabelled(p, labels, i, j)
    {
      LabelAt(p, |p.index|, i, j);
    }
  }

  /** The annotation loop: a label on every cell, row by row. */
  method LabelCells(p: PivotTable) returns (marks: seq<Mark>)
    requires Shaped(p)
    ensures marks == LabelsUpTo(p, |p.index|)
    ensures |marks| == |p.index| * |p.columns|
    ensures CellsLabelled(p, marks)
  {
    marks := [];
    var i := 0;
    while i < |p.index|
      invariant 0 <= i <= |p.index|
      invariant marks == LabelsUpTo(p, i)
    {
      var j := 0;
      while j < |p.columns|
        invariant 0 <= j <= |p.columns|
        invariant marks == LabelsUpTo(p, i) + RowLabels(p, i)[..j]
      {
        assert RowLabels(p, i)[..j + 1] == RowLabels(p, i)[..j] + [CellText(i, j, p.values[i][j])];
        marks := marks + [CellText(i, j, p.values[i][j])];
        j := j + 1;
      }
      assert RowLabels(p, i)[..j] == RowLabels(p, i);
      i := i + 1;
    }
    ghost var all := marks;
    LabelsLayout(p);
    assert all == LabelsUpTo(p, |p.index|);
  }
}
