/** Rectangular grids of exact reals: the value view of the numpy arrays that the
    wave engine keeps. A grid is a sequence of rows; a cell is a (row, column) pair. */
module Grids {

  type Cell = (int, int)
  type Grid = seq<seq<real>>

  /** `g` has `nr` rows of `nc` columns each. */
  ghost predicate Shaped(g: Grid, nr: nat, nc: nat)
  {
    |g| == nr && forall i :: 0 <= i < nr ==> |g[i]| == nc
  }

  predicate InGrid(i: int, j: int, nr: nat, nc: nat)
  {
    0 <= i < nr && 0 <= j < nc
  }

  /** Every cell of an `nr` by `nc` grid. */
  function AllCells(nr: nat, nc: nat): set<Cell>
  {
    set i, j | 0 <= i < nr && 0 <= j < nc :: (i, j)
  }

  /** Total cell access: the value at (i, j), or 0 outside the grid. */
  function At(g: Grid, i: int, j: int): real
  {
    if 0 <= i < |g| && 0 <= j < |g[i]| then g[i][j] else 0.0
  }

  /** The grid whose cell (i, j) is `f(i, j)`. */
  function Tabulate(nr: nat, nc: nat, f: (int, int) -> real): (g: Grid)
    ensures Shaped(g, nr, nc)
    ensures forall i, j :: 0 <= i < nr && 0 <= j < nc ==> g[i][j] == f(i, j)
  {
    seq(nr, i => seq(nc, j => f(i, j)))
  }

  /** The contents of a 2-D array as a grid value. */
  function Cells(a: array2<real>): (g: Grid)
    reads a
    ensures Shaped(g, a.Length0, a.Length1)
    ensures forall i, j :: 0 <= i < a.Length0 && 0 <= j < a.Length1 ==> g[i][j] == a[i, j]
  {
    seq(a.Length0, i requires 0 <= i < a.Length0 reads a =>
      seq(a.Length1, j requires 0 <= j < a.Length1 reads a => a[i, j]))
  }

  /** Two grids of one shape that agree on every cell are equal. */
  lemma GridsEqual(g: Grid, h: Grid, nr: nat, nc: nat)
    requires Shaped(g, nr, nc) && Shaped(h, nr, nc)
    requires forall i, j :: 0 <= i < nr && 0 <= j < nc ==> g[i][j] == h[i][j]
    ensures g == h
  {
    forall i | 0 <= i < nr
      ensures g[i] == h[i]
    {
      assert |g[i]| == |h[i]|;
      assert forall j :: 0 <= j < nc ==> g[i][j] == h[i][j];
    }
  }

  /** Cell-wise `g * c` (numpy's scalar multiplication). */
  function Scale(g: Grid, c: real): (r: Grid)
    ensures |r| == |g|
    ensures forall i :: 0 <= i < |g| ==> |r[i]| == |g[i]|
    ensures forall i, j :: 0 <= i < |g| && 0 <= j < |g[i]| ==> r[i][j] == g[i][j] * c
  {
    seq(|g|, i requires 0 <= i < |g| => seq(|g[i]|, j requires 0 <= j < |g[i]| => g[i][j] * c))
  }

  /** Cell-wise `g + h` on the shape of `g`. */
  function Add(g: Grid, h: Grid): (r: Grid)
    ensures |r| == |g|
    ensures forall i :: 0 <= i < |g| ==> |r[i]| == |g[i]|
    ensures forall i, j :: 0 <= i < |g| && 0 <= j < |g[i]| ==> r[i][j] == g[i][j] + At(h, i, j)
  {
    seq(|g|, i requires 0 <= i < |g| => seq(|g[i]|, j requires 0 <= j < |g[i]| => g[i][j] + At(h, i, j)))
  }

  function RowSum(row: seq<real>): real
  {
    if |row| == 0 then 0.0 else RowSum(row[..|row| - 1]) + row[|row| - 1]
  }

  /** numpy's `np.sum` over every cell: the sum of the row sums. */
  function GridSum(g: Grid): real
  {
    RowSum(RowSums(g))
  }

  function RowSums(g: Grid): (r: seq<real>)
    ensures |r| == |g| && forall i :: 0 <= i < |g| ==> r[i] == RowSum(g[i])
  {
    seq(|g|, i requires 0 <= i < |g| => RowSum(g[i]))
  }

  lemma {:induction false} RowSumScale(row: seq<real>, c: real, scaled: seq<real>)
    requires |scaled| == |row|
    requires forall j :: 0 <= j < |row| ==> scaled[j] == row[j] * c
    ensures RowSum(scaled) == c * RowSum(row)
  {
    if |row| > 0 {
      var n := |row| - 1;
      RowSumScale(row[..n], c, scaled[..n]);
    }
  }

  /** Summing commutes with scaling: `np.sum(g * c) == c * np.sum(g)`. */
  lemma GridSumScale(g: Grid, c: real, s: Grid)
    requires |s| == |g|
    requires forall i :: 0 <= i < |g| ==> |s[i]| == |g[i]|
    requires forall i, j :: 0 <= i < |g| && 0 <= j < |g[i]| ==> s[i][j] == g[i][j] * c
    ensures GridSum(s) == c * GridSum(g)
  {
    var rs, ss := RowSums(g), RowSums(s);
    forall i | 0 <= i < |g|
      ensures ss[i] == rs[i] * c
    {
      RowSumScale(g[i], c, s[i]);
    }
    RowSumScale(rs, c, ss);
  }

  /** Equality of two grids of possibly ragged but equal row lengths. */
  lemma GridsEqualRagged(g: Grid, h: Grid)
    requires |g| == |h|
    requires forall i :: 0 <= i < |g| ==> |g[i]| == |h[i]|
    requires forall i, j :: 0 <= i < |g| && 0 <= j < |g[i]| ==> g[i][j] == h[i][j]
    ensures g == h
  {
    forall i | 0 <= i < |g|
      ensures g[i] == h[i]
    {
      assert forall j :: 0 <= j < |g[i]| ==> g[i][j] == h[i][j];
    }
  }

  function RowMax(row: seq<real>): (m: real)
    requires |row| > 0
    ensures forall j :: 0 <= j < |row| ==> row[j] <= m
    ensures exists j :: 0 <= j < |row| && row[j] == m
  {
    if |row| == 1 then row[0]
    else
      var rest := RowMax(row[1..]);
      assert forall j :: 1 <= j < |row| ==> row[j] == row[1..][j - 1];
      if row[0] >= rest then row[0] else rest
  }

  /** numpy's `g.max()` over every cell of a grid with at least one cell. */
  function GridMax(g: Grid): (m: real)
    requires |g| > 0 && forall i :: 0 <= i < |g| ==> |g[i]| > 0
    ensures forall i, j :: 0 <= i < |g| && 0 <= j < |g[i]| ==> g[i][j] <= m
    ensures exists i, j :: 0 <= i < |g| && 0 <= j < |g[i]| && g[i][j] == m
  {
    var last := RowMax(g[|g| - 1]);
    if |g| == 1 then last
    else
      var rest := GridMax(g[..|g| - 1]);
      assert forall i :: 0 <= i < |g| - 1 ==> g[..|g| - 1][i] == g[i];
      if last >= rest then last else rest
  }
}
