/** The scalar metrics of a bandwidth column: the optimum row and the range.
    `Series.idxmax`, `Series.max` and `Series.min` over `bandwidth_gbps`. */
module Metrics {

  import opened Selection
  import opened Tables

  /** `idxmax`: the position of the largest value, the first one on ties.
      pandas raises ValueError on an empty column, hence the precondition;
      the callers model that error. */
  function IdxMax(col: seq<real>): (k: nat)
    requires |col| > 0
    ensures k < |col|
    ensures forall i :: 0 <= i < |col| ==> col[i] <= col[k]
    ensures forall i :: 0 <= i < k ==> col[i] < col[k]
  {
    if |col| == 1 then 0
    else
      var k := IdxMax(col[..|col| - 1]);
      if col[|col| - 1] > col[k] then |col| - 1 else k
  }

  /** `max()` of a non-empty column: an upper bound that the column attains. */
  function MaxOf(col: seq<real>): (m: real)
    requires |col| > 0
    ensures forall i :: 0 <= i < |col| ==> col[i] <= m
    ensures m in col
  {
    if |col| == 1 then col[0]
    else
      var m := MaxOf(col[..|col| - 1]);
      assert m in col[..|col| - 1];
      if col[|col| - 1] > m then col[|col| - 1] else m
  }

  /** `min()` of a non-empty column: a lower bound that the column attains. */
  function MinOf(col: seq<real>): (m: real)
    requires |col| > 0
    ensures forall i :: 0 <= i < |col| ==> m <= col[i]
    ensures m in col
  {
    if |col| == 1 then col[0]
    else
      var m := MinOf(col[..|col| - 1]);
      assert m in col[..|col| - 1];
      if col[|col| - 1] < m then col[|col| - 1] else m
  }

  /** The "Range: min - max" pair of the report: it brackets every value, and its
      upper end is the bandwidth of the row that `idxmax` selects. */
  function Range(col: seq<real>): (r: (real, real))
    requires |col| > 0
    ensures forall i :: 0 <= i < |col| ==> r.0 <= col[i] <= r.1
    ensures r.0 in col && r.1 in col
    ensures r.1 == col[IdxMax(col)]
  {
    var hi := MaxOf(col);
    var k := IdxMax(col);
    assert col[k] <= hi;
    (MinOf(col), hi)
  }

  /** The two ways the source selects the optimum agree: the first row equal to the
      column max (experiment 3 and its report section) is the row `idxmax` picks
      (experiments 1 and 2). */
  lemma FirstMaxIsIdxMax(col: seq<real>)
    requires |col| > 0
    ensures FirstIndexOf(col, MaxOf(col)) == Some(IdxMax(col))
  {
    var k := IdxMax(col);
    var m := MaxOf(col);
    assert col[k] == m;
    var r := FirstIndexOf(col, m);
    assert r.Some?;
    assert r.value <= k;
    assert col[r.value] == m;
    assert r.value >= k;
  }

  /** Worked example: threads-per-block bandwidths 50, 90, 120, 95 put the optimum at
      the third row (128 threads). */
  lemma ThreadsExampleOptimum()
    ensures IdxMax([50.0, 90.0, 120.0, 95.0]) == 2
    ensures Range([50.0, 90.0, 120.0, 95.0]) == (50.0, 120.0)
  {
    var col := [50.0, 90.0, 120.0, 95.0];
    assert col[2] <= col[IdxMax(col)];
  }

  /** `df.loc[df['bandwidth_gbps'].idxmax()]`: the row with the highest bandwidth,
      the first one on ties; ValueError on an empty table. */
  function Optimum(t: seq<Sample>): (r: Result<Sample>)
    ensures r.Ok? <==> |t| > 0
    ensures r.Err? ==> r.failure == EmptyArgmax
    ensures r.Ok? ==> exists k :: 0 <= k < |t| && r.value == t[k]
                        && (forall i :: 0 <= i < |t| ==> t[i].bandwidthGbps <= t[k].bandwidthGbps)
                        && (forall i :: 0 <= i < k ==> t[i].bandwidthGbps < t[k].bandwidthGbps)
  {
    if |t| == 0 then Err(EmptyArgmax)
    else
      var k := IdxMax(Bandwidths(t));
      Ok(t[k])
  }
}
