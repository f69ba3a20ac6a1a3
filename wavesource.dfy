/** `wavesource`: the boundary condition mask for an incoming wave direction. Blocked
    cells hold -2 and the cells where waves enter hold 0. */
module Source {
  import opened Grids

  const Blocked: real := -2.0
  const Open: real := 0.0

  /** The boundary the direction `dir` (degrees, counter-clockwise from east) opens:
      a whole side for the four axis directions, a corner for the four quadrants,
      nothing for a negative direction. Row `nr - 1` and column `nc - 1` are
      numpy's index -1. */
  predicate OnSourceBoundary(dir: real, nr: nat, nc: nat, i: int, j: int)
  {
    if dir == 0.0 then i == nr - 1
    else if dir == 90.0 then j == nc - 1
    else if dir == 180.0 then i == 0
    else if dir == 270.0 then j == 0
    else if 0.0 < dir < 90.0 then i == nr - 1 && j == nc - 1
    else if 90.0 < dir < 180.0 then i == 0 && j == nc - 1
    else if 180.0 < dir < 270.0 then i == 0 && j == 0
    else if dir > 270.0 then i == nr - 1 && j == 0
    else false
  }

  /** The mask after filling with -2, opening the chosen boundary and blocking land
      again. */
  function SourceMask(dir: real, nr: nat, nc: nat, land: set<Cell>): (src: Grid)
    ensures Shaped(src, nr, nc)
    ensures forall i, j :: 0 <= i < nr && 0 <= j < nc ==> src[i][j] == Blocked || src[i][j] == Open
    ensures forall i, j :: 0 <= i < nr && 0 <= j < nc && (i, j) in land ==> src[i][j] == Blocked
  {
    Tabulate(nr, nc, (i, j) =>
      if (i, j) in land then Blocked else if OnSourceBoundary(dir, nr, nc, i, j) then Open else Blocked)
  }

  /** Which cells are open, direction by direction. */
  lemma SourceCases(dir: real, nr: nat, nc: nat, land: set<Cell>, i: int, j: int)
    requires 0 <= i < nr && 0 <= j < nc
    ensures var open := SourceMask(dir, nr, nc, land)[i][j] == Open;
      && (dir == 0.0 ==> (open <==> (i, j) !in land && i == nr - 1))
      && (dir == 90.0 ==> (open <==> (i, j) !in land && j == nc - 1))
      && (dir == 180.0 ==> (open <==> (i, j) !in land && i == 0))
      && (dir == 270.0 ==> (open <==> (i, j) !in land && j == 0))
      && (0.0 < dir < 90.0 ==> (open <==> (i, j) !in land && (i, j) == (nr - 1, nc - 1)))
      && (90.0 < dir < 180.0 ==> (open <==> (i, j) !in land && (i, j) == (0, nc - 1)))
      && (180.0 < dir < 270.0 ==> (open <==> (i, j) !in land && (i, j) == (0, 0)))
      && (270.0 < dir ==> (open <==> (i, j) !in land && (i, j) == (nr - 1, 0)))
      && (dir < 0.0 ==> !open)
  {
  }

  /** A direction strictly inside a quadrant opens at most one cell. */
  lemma QuadrantOpensAtMostOneCell(dir: real, nr: nat, nc: nat, land: set<Cell>, a: Cell, b: Cell)
    requires dir != 0.0 && dir != 90.0 && dir != 180.0 && dir != 270.0
    requires 0 <= a.0 < nr && 0 <= a.1 < nc && 0 <= b.0 < nr && 0 <= b.1 < nc
    requires SourceMask(dir, nr, nc, land)[a.0][a.1] == Open
    requires SourceMask(dir, nr, nc, land)[b.0][b.1] == Open
    ensures a == b
  {
  }

  /** Only boundary cells can be open: an interior cell is blocked for every direction. */
  lemma InteriorIsBlocked(dir: real, nr: nat, nc: nat, land: set<Cell>, i: int, j: int)
    requires 0 < i < nr - 1 && 0 < j < nc - 1
    ensures SourceMask(dir, nr, nc, land)[i][j] == Blocked
  {
  }
}
