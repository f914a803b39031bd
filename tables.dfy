/** The already-parsed result tables, one typed row per CSV line, and the failures
    the analysis steps can raise. */
module Tables {

  import opened Selection

  /** A row of a single-parameter sweep (experiments 1, 2, 4, 5 and 6). `param` is the
      sweep column of that experiment: threads_per_block, blocks_per_grid, stride,
      offset or memory_size_mb. */
  datatype Sample = Sample(param: int, bandwidthGbps: real)

  /** A row of the two-parameter sweep (experiment 3). */
  datatype GridRow = GridRow(threadsPerBlock: int, blocksPerGrid: int, bandwidthGbps: real)

  /** What a step can raise. FileNotFound is the only kind `main` reports separately. */
  datatype Failure =
    | FileNotFound(path: string)  // pd.read_csv on a missing results file
    | EmptyArgmax                 // Series.idxmax on an empty column (ValueError)
    | IndexOutOfBounds            // `[0]` on an empty boolean-mask selection (IndexError)
    | DuplicatePivotEntries       // DataFrame.pivot with a repeated key pair (ValueError)
    | NotInList                   // list.index of an absent value (ValueError)

  datatype Result<T> = Ok(value: T) | Err(failure: Failure)

  function Params(t: seq<Sample>): (col: seq<int>)
    ensures |col| == |t|
    ensures forall i :: 0 <= i < |t| ==> col[i] == t[i].param
  {
    seq(|t|, i requires 0 <= i < |t| => t[i].param)
  }

  function Bandwidths(t: seq<Sample>): (col: seq<real>)
    ensures |col| == |t|
    ensures forall i :: 0 <= i < |t| ==> col[i] == t[i].bandwidthGbps
  {
    seq(|t|, i requires 0 <= i < |t| => t[i].bandwidthGbps)
  }

  function Threads(t: seq<GridRow>): (col: seq<int>)
    ensures |col| == |t|
    ensures forall i :: 0 <= i < |t| ==> col[i] == t[i].threadsPerBlock
  {
    seq(|t|, i requires 0 <= i < |t| => t[i].threadsPerBlock)
  }

  function Blocks(t: seq<GridRow>): (col: seq<int>)
    ensures |col| == |t|
    ensures forall i :: 0 <= i < |t| ==> col[i] == t[i].blocksPerGrid
  {
    seq(|t|, i requires 0 <= i < |t| => t[i].blocksPerGrid)
  }

  function GridBandwidths(t: seq<GridRow>): (col: seq<real>)
    ensures |col| == |t|
    ensures forall i :: 0 <= i < |t| ==> col[i] == t[i].bandwidthGbps
  {
    seq(|t|, i requires 0 <= i < |t| => t[i].bandwidthGbps)
  }

  /** The (threads_per_block, blocks_per_grid) key pair of each row. */
  function Pairs(t: seq<GridRow>): (col: seq<(int, int)>)
    ensures |col| == |t|
    ensures forall i :: 0 <= i < |t| ==> col[i] == (t[i].threadsPerBlock, t[i].blocksPerGrid)
  {
    seq(|t|, i requires 0 <= i < |t| => (t[i].threadsPerBlock, t[i].blocksPerGrid))
  }
}
