/** Turning a grid value into a fresh 2-D array (a numpy expression that allocates
    its result), and masked assignment on it. */
module Arrays {
  import opened Grids

  method Materialize(nr: nat, nc: nat, g: Grid) returns (a: array2<real>)
    requires Shaped(g, nr, nc)
    ensures fresh(a) && a.Length0 == nr && a.Length1 == nc
    ensures Cells(a) == g
  {
    a := new real[nr, nc]((i, j) => At(g, i, j));
    GridsEqual(Cells(a), g, nr, nc);
  }

  /** numpy's masked assignment `a[mask] = v[mask]` on a copy of `g`: the mask and the
      values are evaluated before any cell is written. */
  method Assign(g: Grid, nr: nat, nc: nat, mask: (int, int) -> bool, v: (int, int) -> real) returns (r: Grid)
    requires Shaped(g, nr, nc)
    ensures Shaped(r, nr, nc)
    ensures forall i, j :: 0 <= i < nr && 0 <= j < nc ==> r[i][j] == if mask(i, j) then v(i, j) else g[i][j]
  {
    var a := Materialize(nr, nc, g);
    forall i, j | 0 <= i < nr && 0 <= j < nc && mask(i, j) {
      a[i, j] := v(i, j);
    }
    r := Cells(a);
  }
}
